/** What one visit leaves in the tables and the blob store, by column and without the moves it was made of. */
module Outcomes {
  import opened Base
  import opened LeaseQueue
  import opened Tables
  import opened Discovery
  import opened Known
  import opened Visits
  import Crawl
  import CrawlSafety
  import CrawlOnce
  import Frontier
  import Growth
  import HostSort
  import NearDuplicate

  // ---------------------------------------------------------------- the declarative result

  /** The page is committed. */
  predicate Stored(v: Visit) {
    && CourseOf(v).GoOn? && CourseOf(v).result.outcome == Ok && v.doc.Returned? && v.doc.value.Some?
    && v.raw.Fine? && v.txt.Fine? && !v.ending.NothingDone?
  }

  function Settle(was: Lease, now: Time): Lease {
    Lease(Done, None, None, now + 7 * 24 * 60 * MINUTE, was.attempts, 0)
  }

  /** The row of the url after the visit: as it was when something raises first; otherwise released, and settled, set aside,
      settled with the page's hash and digest, or failed once more. */
  function RowAfter(v: Visit, was: UrlView, now: Time): UrlView {
    var l := was.lease;
    if RaisesFirst(v) then was
    else if CourseOf(v).GoOn? && CourseOf(v).result.outcome == NotModified then was.(lease := Settle(l, now))
    else if CourseOf(v).GoOn? && CourseOf(v).result.outcome == Ok && v.doc.value.None?
    then was.(lease := Lease(Skipped, None, None, l.dueAt, l.attempts, l.failures))
    else if Stored(v)
    then was.(lease := Settle(l, now), simhash := Some(NearDuplicate.ToSigned(v.doc.value.value.simhash)),
              content := Some(v.doc.value.value.text))
    else was.(lease := Lease(if l.failures + 1 >= 5 then Failed else Pending, None, None,
                             now + MINUTE * Pow2(Min(l.failures, 6)), l.attempts, l.failures + 1))
  }

  function DocAfter(v: Visit, was: Option<DocRow>, host: string, id: nat, now: Time): Option<DocRow> {
    if Stored(v)
    then Some(DocRow(RawKey(host, id), TextKey(host, id), Queued, if was.Some? then was.value.duplicateOf else None, now))
    else was
  }

  /** The links that the visit makes known. */
  function Followed(v: Visit, depth: nat, hostOf: string -> string): set<string> {
    if Follows(v, depth) then Targets(v.doc.value.value.links, hostOf) else {}
  }

  datatype Side = Row | Document | Known | Edges | News | Others

  /** From tables a to b, for the url u of the task: its row, its document, the urls that are known, the edges to the links,
      the new rows, and the rows and documents of all other urls. */
  ghost predicate Told(a: Db, b: Db, u: string, id: nat, host: string, depth: nat, v: Visit, now: Time,
                       hostOf: string -> string, side: Side)
    requires Sound(a) && Sound(b) && UrlAt(a, u).Some?
  {
    match side
    case Row => UrlAt(b, u) == Some(RowAfter(v, UrlAt(a, u).value, now))
    case Document => DocAt(b, u) == DocAfter(v, DocAt(a, u), host, id, now)
    case Known => b.urlIdx.Keys == a.urlIdx.Keys + Followed(v, depth, hostOf)
    case Edges => forall x | x in Followed(v, depth, hostOf) :: EdgeAt(b, u, x).Some?
    case News => forall x | x in b.urlIdx && x !in a.urlIdx :: JustFound(b, x, depth + 1, 100, now, hostOf)
    case Others => forall x | x in a.urlIdx && x != u :: UrlAt(b, x) == UrlAt(a, x) && DocAt(b, x) == DocAt(a, x)
  }

  ghost predicate Result(a: Db, b: Db, u: string, id: nat, host: string, depth: nat, v: Visit, now: Time,
                         hostOf: string -> string)
  {
    Sound(a) && Sound(b) && UrlAt(a, u).Some? && forall side :: Told(a, b, u, id, host, depth, v, now, hostOf, side)
  }

  /** Ids do not matter to it. */
  lemma ResultIsContent(a: Db, b: Db, c: Db, u: string, id: nat, host: string, depth: nat, v: Visit, now: Time,
                        hostOf: string -> string)
    requires Result(a, b, u, id, host, depth, v, now, hostOf) && Sound(c) && SameContent(c, b)
    ensures Result(a, c, u, id, host, depth, v, now, hostOf)
  {
    forall x ensures UrlAt(c, x) == UrlAt(b, x) && DocAt(c, x) == DocAt(b, x) && EdgeAt(c, u, x) == EdgeAt(b, u, x) {
      assert SameAt(c, b, x, x, "") && SameAt(c, b, u, x, "");
    }
    forall x ensures x in c.urlIdx <==> x in b.urlIdx {
      assert UrlAt(c, x).Some? <==> x in c.urlIdx;
    }
    forall side ensures Told(a, c, u, id, host, depth, v, now, hostOf, side) {
      assert Told(a, b, u, id, host, depth, v, now, hostOf, side);
      match side case Row => case Document => case Known => case Edges => case News => case Others =>
    }
  }

  // ---------------------------------------------------------------- statements on one row

  ghost predicate SameKeys(a: Db, b: Db) {
    && b.urlIdx == a.urlIdx && b.links == a.links && b.urls.Keys == a.urls.Keys && b.leases.Keys == a.leases.Keys
    && (forall d | d in a.domains :: d in b.domains && b.domains[d].host == a.domains[d].host)
  }

  /** Nothing but the row of `id`, its document and counters of its domain has changed. */
  ghost predicate OnlyRow(a: Db, b: Db, id: nat) {
    && SameKeys(a, b) && id in a.urls
    && b.urls[id] == a.urls[id].(simhash := b.urls[id].simhash, content := b.urls[id].content)
    && (forall x | x in a.urls && x != id :: b.urls[x] == a.urls[x])
    && (forall x | x in a.leases && x != id :: b.leases[x] == a.leases[x])
    && (b.docs - {id} == a.docs - {id})
  }

  lemma OtherView(a: Db, b: Db, id: nat, x: string)
    requires Sound(a) && Sound(b) && OnlyRow(a, b, id) && x != a.urls[id].url
    ensures UrlAt(b, x) == UrlAt(a, x) && DocAt(b, x) == DocAt(a, x)
  {
    assert Holds(a, UrlKeys) && Holds(a, References);
    if x in a.urlIdx {
      var j := a.urlIdx[x];
      assert j != id;
      assert j in b.docs <==> j in b.docs - {id};
      assert j in a.docs <==> j in a.docs - {id};
      assert j in a.docs ==> (b.docs - {id})[j] == b.docs[j] && (a.docs - {id})[j] == a.docs[j];
    }
  }

  lemma OwnView(a: Db, b: Db, id: nat)
    requires Sound(a) && Sound(b) && OnlyRow(a, b, id)
    ensures var u := a.urls[id].url;
            && UrlAt(a, u).Some? && id in b.leases
            && UrlAt(b, u) == Some(UrlAt(a, u).value.(lease := b.leases[id], simhash := b.urls[id].simhash,
                                                      content := b.urls[id].content))
            && DocAt(b, u) == (if id in b.docs then Some(b.docs[id]) else None)
            && DocAt(a, u) == (if id in a.docs then Some(a.docs[id]) else None)
  {
    assert Holds(a, UrlKeys) && Holds(a, References);
  }

  /** The tables after a terminal call. */
  lemma AfterEnd(c: Crawl.State, h: nat, m: Crawl.Move, hostOf: string -> string)
    requires Crawl.MoveEnabled(c, m, hostOf) && Crawl.Ends(m) && m.h == h
    ensures var j, n := c.jobs[h], Crawl.Do(c, m, hostOf);
            && n.now == c.now && j.id in c.db.leases
            && (m.Unchanged? ==> n.db == c.db.(leases := c.db.leases[j.id := Settled(c.db.leases[j.id], c.now)]))
            && (m.SkipPage? ==> n.db == c.db.(leases := c.db.leases[j.id := SetAside(c.db.leases[j.id])]))
            && (m.FailPage? ==> n.db == Crawl.FailPartly(c.db, j.host, j.id, c.now, m.counted))
            && (m.Complete? ==> j.stage.Stored? && j.id in c.db.urls
                                && n.db == CompleteUrl(c.db, j.host, j.id, m.simhash, j.stage.text, RawKey(j.host, j.id),
                                                       TextKey(j.host, j.id), c.now))
  {
  }

  lemma LeaseOnly(a: Db, id: nat, l: Lease)
    requires id in a.urls && id in a.leases
    ensures OnlyRow(a, a.(leases := a.leases[id := l]), id)
  {
  }

  lemma FailOnly(a: Db, host: string, id: nat, now: Time, counted: bool)
    requires id in a.urls && id in a.leases
    ensures OnlyRow(a, Crawl.FailPartly(a, host, id, now, counted), id)
    ensures var b := Crawl.FailPartly(a, host, id, now, counted);
            b.urls == a.urls && b.docs == a.docs && b.leases[id] == FailedOnce(a.leases[id], MAX_FAILURES, now)
  {
  }

  lemma CompleteOnly(a: Db, host: string, id: nat, x: int, text: string, raw: Key, txt: Key, now: Time)
    requires id in a.urls && id in a.leases
    ensures var b := CompleteUrl(a, host, id, x, text, raw, txt, now);
            && OnlyRow(a, b, id) && b.leases[id] == Settled(a.leases[id], now) && b.urls[id].simhash == Some(x)
            && b.urls[id].content == Some(text) && id in b.docs
            && b.docs[id] == DocRow(raw, txt, Queued, if id in a.docs then a.docs[id].duplicateOf else None, now)
  {
    var b := CompleteUrl(a, host, id, x, text, raw, txt, now);
    assert b.docs - {id} == a.docs - {id};
  }

  // ---------------------------------------------------------------- up to the terminal call

  /** The result but for the links. */
  ghost predicate Ended(a: Db, b: Db, u: string, id: nat, host: string, v: Visit, now: Time) {
    && Sound(a) && Sound(b) && UrlAt(a, u).Some? && b.urlIdx == a.urlIdx && id in b.urls && b.urls[id].url == u
    && UrlAt(b, u) == Some(RowAfter(v, UrlAt(a, u).value, now)) && DocAt(b, u) == DocAfter(v, DocAt(a, u), host, id, now)
    && forall x | x != u :: UrlAt(b, x) == UrlAt(a, x) && DocAt(b, x) == DocAt(a, x)
  }

  /** The terminal call that v leads to. */
  predicate IsEndOf(m: Crawl.Move, v: Visit) {
    && Crawl.Ends(m) && !RaisesFirst(v)
    && (m.Unchanged? <==> CourseOf(v).GoOn? && CourseOf(v).result.outcome == NotModified)
    && (m.SkipPage? <==> CourseOf(v).GoOn? && CourseOf(v).result.outcome == Ok && v.doc.value.None?)
    && (m.Complete? <==> Stored(v))
    && (m.Complete? ==> m.simhash == NearDuplicate.ToSigned(v.doc.value.value.simhash))
  }

  lemma RowLeft(a: Db, b: Db, id: nat, host: string, v: Visit, now: Time)
    requires Sound(a) && Sound(b) && OnlyRow(a, b, id)
    requires id in a.leases && id in b.leases
    requires var was := UrlView("", 0, 0, a.leases[id], a.urls[id].simhash, a.urls[id].content);
             var r := RowAfter(v, was, now);
             b.leases[id] == r.lease && b.urls[id].simhash == r.simhash && b.urls[id].content == r.content
    requires (if id in b.docs then Some(b.docs[id]) else None)
             == DocAfter(v, if id in a.docs then Some(a.docs[id]) else None, host, id, now)
    ensures Ended(a, b, a.urls[id].url, id, host, v, now)
  {
    OwnView(a, b, id);
    OwnRow(a, id);
    forall x | x != a.urls[id].url ensures UrlAt(b, x) == UrlAt(a, x) && DocAt(b, x) == DocAt(a, x) {
      OtherView(a, b, id, x);
    }
  }

  lemma OwnRow(a: Db, id: nat)
    requires Sound(a) && id in a.urls && id in a.leases
    ensures var r := UrlAt(a, a.urls[id].url);
            r.Some? && r.value.lease == a.leases[id] && r.value.simhash == a.urls[id].simhash
            && r.value.content == a.urls[id].content
  {
    assert Holds(a, UrlKeys) && Holds(a, References);
  }

  lemma TerminalLeaves(c: Crawl.State, h: nat, m: Crawl.Move, v: Visit, hostOf: string -> string)
    requires Crawl.Matched(c) && Crawl.MoveEnabled(c, m, hostOf) && IsEndOf(m, v) && m.h == h
    requires m.Complete? ==> c.jobs[h].stage.Stored? && c.jobs[h].stage.text == v.doc.value.value.text
    requires c.jobs[h].id in c.db.urls
    ensures var j := c.jobs[h];
            Ended(c.db, Crawl.Do(c, m, hostOf).db, c.db.urls[j.id].url, j.id, j.host, v, c.now)
  {
    var j, b := c.jobs[h], Crawl.Do(c, m, hostOf).db;
    AfterEnd(c, h, m, hostOf);
    CrawlSafety.MatchedKept(c, m, hostOf);
    RowColumns(c.db, b, j, m, v, c.now);
    RowLeft(c.db, b, j.id, j.host, v, c.now);
  }

  lemma RowColumns(a: Db, b: Db, j: Crawl.Job, m: Crawl.Move, v: Visit, now: Time)
    requires IsEndOf(m, v) && j.id in a.urls && j.id in a.leases
    requires m.Unchanged? ==> b == a.(leases := a.leases[j.id := Settled(a.leases[j.id], now)])
    requires m.SkipPage? ==> b == a.(leases := a.leases[j.id := SetAside(a.leases[j.id])])
    requires m.FailPage? ==> b == Crawl.FailPartly(a, j.host, j.id, now, m.counted)
    requires m.Complete? ==> j.stage.Stored? && j.stage.text == v.doc.value.value.text
                             && b == CompleteUrl(a, j.host, j.id, m.simhash, j.stage.text, RawKey(j.host, j.id),
                                                 TextKey(j.host, j.id), now)
    ensures OnlyRow(a, b, j.id) && j.id in b.leases
    ensures var was := UrlView("", 0, 0, a.leases[j.id], a.urls[j.id].simhash, a.urls[j.id].content);
            var r := RowAfter(v, was, now);
            b.leases[j.id] == r.lease && b.urls[j.id].simhash == r.simhash && b.urls[j.id].content == r.content
    ensures (if j.id in b.docs then Some(b.docs[j.id]) else None)
            == DocAfter(v, if j.id in a.docs then Some(a.docs[j.id]) else None, j.host, j.id, now)
  {
    if m.Complete? {
      CompleteOnly(a, j.host, j.id, m.simhash, j.stage.text, RawKey(j.host, j.id), TextKey(j.host, j.id), now);
    } else if m.FailPage? {
      FailOnly(a, j.host, j.id, now, m.counted);
    } else {
      LeaseOnly(a, j.id, b.leases[j.id]);
    }
  }

  // ---------------------------------------------------------------- the links

  lemma NoLinksLeave(a: Db, b: Db, u: string, id: nat, host: string, depth: nat, v: Visit, now: Time,
                     hostOf: string -> string)
    requires Ended(a, b, u, id, host, v, now) && !Follows(v, depth)
    ensures Result(a, b, u, id, host, depth, v, now, hostOf)
  {
    forall side ensures Told(a, b, u, id, host, depth, v, now, hostOf, side) {
      match side case Row => case Document => case Known => case Edges => case News => case Others =>
    }
  }

  /** What adding the links of the page u does at url x. */
  ghost predicate LinkAt(b: Db, c: Db, u: string, links: seq<Link>, depth: nat, now: Time, hostOf: string -> string,
                         x: string)
    requires Sound(b) && Sound(c)
  {
    && (x in c.urlIdx <==> x in b.urlIdx || x in Targets(links, hostOf))
    && (x in Targets(links, hostOf) ==> EdgeAt(c, u, x).Some?)
    && (x in c.urlIdx && x !in b.urlIdx ==> JustFound(c, x, depth, 100, now, hostOf))
    && (x in b.urlIdx ==> UrlAt(c, x) == UrlAt(b, x)) && DocAt(c, x) == DocAt(b, x)
  }

  ghost predicate LinkEffect(b: Db, c: Db, u: string, links: seq<Link>, depth: nat, now: Time, hostOf: string -> string) {
    Sound(b) && Sound(c) && forall x :: LinkAt(b, c, u, links, depth, now, hostOf, x)
  }

  lemma LinksTakeEffect(b: Db, c: Db, id: nat, links: seq<Link>, depth: nat, now: Time, hostOf: string -> string)
    requires Sound(b) && Sound(c) && id in b.urls && c == AddLinks(b, links, id, depth, now, hostOf).0
    ensures LinkEffect(b, c, b.urls[id].url, links, depth, now, hostOf)
  {
    assert SameContent(c, c);
    LinksBecomeKnown(b, c, links, id, depth, now, hostOf);
    forall x ensures LinkAt(b, c, b.urls[id].url, links, depth, now, hostOf, x) {
      AddLinksAdds(b, links, id, depth, now, hostOf, x, x, "");
    }
  }

  lemma LinksLeave(a: Db, b: Db, c: Db, u: string, id: nat, host: string, depth: nat, below: nat, v: Visit, now: Time,
                   hostOf: string -> string)
    requires Ended(a, b, u, id, host, v, now) && Follows(v, depth) && below == depth + 1
    requires LinkEffect(b, c, u, v.doc.value.value.links, below, now, hostOf)
    ensures Result(a, c, u, id, host, depth, v, now, hostOf)
  {
    var links := v.doc.value.value.links;
    forall x ensures x in c.urlIdx <==> x in b.urlIdx || x in Targets(links, hostOf)
             ensures x in Targets(links, hostOf) ==> EdgeAt(c, u, x).Some?
             ensures x in c.urlIdx && x !in b.urlIdx ==> JustFound(c, x, below, 100, now, hostOf)
             ensures x in b.urlIdx ==> UrlAt(c, x) == UrlAt(b, x)
             ensures DocAt(c, x) == DocAt(b, x)
    {
      assert LinkAt(b, c, u, links, below, now, hostOf, x);
    }
    forall side ensures Told(a, c, u, id, host, depth, v, now, hostOf, side) {
      match side case Row => case Document => case Known => case Edges => case News => case Others =>
    }
  }

  // ---------------------------------------------------------------- a whole visit

  /** After the two puts the job carries what the commit writes. */
  lemma TwoPuts(s: Crawl.State, h: nat, body: string, text: string, ms: seq<Crawl.Move>, hostOf: string -> string)
    requires ms == [Crawl.PutRaw(h, body), Crawl.PutText(h, text)] && CanAll(s, ms, hostOf) && h in s.jobs
    ensures var c, j := DoAll(s, ms, hostOf), s.jobs[h];
            && h in c.jobs && c.jobs[h].stage == Crawl.Stored(body, text)
            && c.store == s.store[RawKey(j.host, j.id) := body][TextKey(j.host, j.id) := text]
  {
    assert ms[..1] == [Crawl.PutRaw(h, body)];
    assert ms[..1][..0] == [];
    assert DoAll(s, [], hostOf) == s;
    OnePut(s, h, body, hostOf);
    NextPut(Crawl.Do(s, Crawl.PutRaw(h, body), hostOf), h, text, hostOf);
  }

  lemma OnePut(s: Crawl.State, h: nat, body: string, hostOf: string -> string)
    requires Crawl.MoveEnabled(s, Crawl.PutRaw(h, body), hostOf)
    ensures var n := Crawl.Do(s, Crawl.PutRaw(h, body), hostOf);
            && n.jobs == s.jobs[h := s.jobs[h].(stage := Crawl.RawStored(body))]
            && n.store == s.store[RawKey(s.jobs[h].host, s.jobs[h].id) := body]
  {
  }

  lemma NextPut(s: Crawl.State, h: nat, text: string, hostOf: string -> string)
    requires Crawl.MoveEnabled(s, Crawl.PutText(h, text), hostOf)
    ensures var n := Crawl.Do(s, Crawl.PutText(h, text), hostOf);
            && n.jobs == s.jobs[h := s.jobs[h].(stage := Crawl.Stored(s.jobs[h].stage.body, text))]
            && n.store == s.store[TextKey(s.jobs[h].host, s.jobs[h].id) := text]
  {
  }

  /** The last move of a visit that commits. */
  function LastMove(h: nat, depth: nat, v: Visit): Crawl.Move
    requires Stored(v)
  {
    if Follows(v, depth) then Crawl.AddFound(h, v.doc.value.value.links) else Crawl.Leave(h)
  }

  /** The shape of a visit in which nothing raises first. */
  lemma Shape(h: nat, depth: nat, v: Visit) returns (k: nat)
    requires !RaisesFirst(v)
    ensures var ms := Moves(h, depth, v);
            && k < |ms| && IsEndOf(ms[k], v) && ms[k].h == h && (forall i | 0 <= i < k :: Stores(ms[i], h))
            && (|ms| == k + 1 || |ms| == k + 2) && (|ms| == k + 2 <==> Stored(v))
            && (Stored(v) ==> ms[..k] == [Crawl.PutRaw(h, CourseOf(v).result.body), Crawl.PutText(h, v.doc.value.value.text)])
            && (Stored(v) ==> ms[k + 1] == LastMove(h, depth, v))
  {
    k := OneTerminalCall(h, depth, v);
  }

  /** Up to its terminal call a visit leaves the row as it should be. */
  lemma EndLeaves(s: Crawl.State, h: nat, task: Frontier.CrawlTask, v: Visit, ms: seq<Crawl.Move>, k: nat,
                  hostOf: string -> string)
    requires AtStart(s, h, task) && CanAll(s, ms, hostOf) && |ms| == k + 1 && IsEndOf(ms[k], v) && ms[k].h == h
    requires forall i | 0 <= i < k :: Stores(ms[i], h)
    requires Stored(v) ==>
               ms[..k] == [Crawl.PutRaw(h, CourseOf(v).result.body), Crawl.PutText(h, v.doc.value.value.text)]
    ensures task.id in s.db.urls && Reached(s, ms, DoAll(s, ms, hostOf), hostOf)
    ensures var c := DoAll(s, ms, hostOf);
            c.now == s.now && Ended(s.db, c.db, s.db.urls[task.id].url, task.id, task.host, v, s.now)
  {
    var c := DoAll(s, ms[..k], hostOf);
    StoringStays(s, h, ms[..k], hostOf);
    if Stored(v) {
      TwoPuts(s, h, CourseOf(v).result.body, v.doc.value.value.text, ms[..k], hostOf);
    }
    KnownJob(c, h);
    TerminalLeaves(c, h, ms[k], v, hostOf);
    AfterEnd(c, h, ms[k], hostOf);
    CrawlSafety.MatchedKept(c, ms[k], hostOf);
  }

  lemma KnownJob(c: Crawl.State, h: nat)
    requires Crawl.Matched(c) && h in c.jobs
    ensures c.jobs[h].id in c.db.urls && Sound(c.db)
  {
    assert Crawl.JobOk(c, h);
  }

  lemma LastAdd(c: Crawl.State, h: nat, links: seq<Link>, below: nat, n: Crawl.State, hostOf: string -> string)
    requires Crawl.Matched(c) && Crawl.MoveEnabled(c, Crawl.AddFound(h, links), hostOf) && c.jobs[h].id in c.db.urls
    requires n == Crawl.Do(c, Crawl.AddFound(h, links), hostOf) && below == c.jobs[h].depth + 1
    ensures LinkEffect(c.db, n.db, c.db.urls[c.jobs[h].id].url, links, below, c.now, hostOf)
  {
    assert n.db == Crawl.TablesAfter(c, Crawl.AddFound(h, links), hostOf);
    CrawlSafety.MatchedKept(c, Crawl.AddFound(h, links), hostOf);
    LinksTakeEffect(c.db, n.db, c.jobs[h].id, links, below, c.now, hostOf);
  }

  lemma LastLeave(c: Crawl.State, h: nat, hostOf: string -> string)
    requires Crawl.MoveEnabled(c, Crawl.Leave(h), hostOf)
    ensures Crawl.Do(c, Crawl.Leave(h), hostOf).db == c.db
  {
  }

  lemma NothingLeft(s: Crawl.State, h: nat, task: Frontier.CrawlTask, v: Visit, hostOf: string -> string)
    requires AtStart(s, h, task) && RaisesFirst(v)
    ensures task.id in s.db.urls
    ensures Result(s.db, s.db, s.db.urls[task.id].url, task.id, task.host, task.depth, v, s.now, hostOf)
  {
    KnownJob(s, h);
    assert Holds(s.db, UrlKeys);
    var u := s.db.urls[task.id].url;
    forall side ensures Told(s.db, s.db, u, task.id, task.host, task.depth, v, s.now, hostOf, side) {
      match side case Row => case Document => case Known => case Edges => case News => case Others =>
    }
  }

  /** The commit leaves the job with its url, and no later move of the visit touches the blobs. */
  lemma CommittedJob(c: Crawl.State, h: nat, m: Crawl.Move, hostOf: string -> string)
    requires Crawl.MoveEnabled(c, m, hostOf) && m.Complete? && m.h == h
    ensures var n := Crawl.Do(c, m, hostOf); h in n.jobs && SameJob(n.jobs[h], c.jobs[h])
  {
  }

  lemma BlobsStay(c: Crawl.State, m: Crawl.Move, hostOf: string -> string)
    requires Crawl.MoveEnabled(c, m, hostOf) && (m.Complete? || m.AddFound? || m.Leave?)
    ensures Crawl.Do(c, m, hostOf).store == c.store
  {
  }

  /** What a visit makes of the tables. */
  lemma VisitLeaves(s: Crawl.State, h: nat, task: Frontier.CrawlTask, v: Visit, hostOf: string -> string)
    requires AtStart(s, h, task) && CanAll(s, Moves(h, task.depth, v), hostOf)
    ensures task.id in s.db.urls
    ensures Result(s.db, DoAll(s, Moves(h, task.depth, v), hostOf).db, s.db.urls[task.id].url, task.id, task.host,
                   task.depth, v, s.now, hostOf)
  {
    var ms := Moves(h, task.depth, v);
    if RaisesFirst(v) {
      RaisingKeepsLease(s, h, task, v, hostOf);
      NothingLeft(s, h, task, v, hostOf);
    } else {
      var k := Shape(h, task.depth, v);
      if Stored(v) {
        StoredLeaves(s, h, task, v, ms, k, hostOf);
      } else {
        EndLeaves(s, h, task, v, ms, k, hostOf);
        NoLinksLeave(s.db, DoAll(s, ms, hostOf).db, s.db.urls[task.id].url, task.id, task.host, task.depth, v, s.now,
                     hostOf);
      }
    }
  }

  lemma LastOf(s: Crawl.State, ms: seq<Crawl.Move>, k: nat, hostOf: string -> string)
    requires CanAll(s, ms, hostOf) && |ms| == k + 1
    ensures CanAll(s, ms[..k], hostOf) && Crawl.MoveEnabled(DoAll(s, ms[..k], hostOf), ms[k], hostOf)
    ensures DoAll(s, ms, hostOf) == Crawl.Do(DoAll(s, ms[..k], hostOf), ms[k], hostOf)
  {
  }

  /** A visit that commits, before its last move. */
  ghost predicate AtLinks(a: Db, c: Crawl.State, h: nat, task: Frontier.CrawlTask, v: Visit, u: string, now: Time) {
    && Crawl.Matched(c) && c.now == now && Ended(a, c.db, u, task.id, task.host, v, now)
    && h in c.jobs && c.jobs[h].id == task.id && c.jobs[h].depth == task.depth
  }

  lemma CommitLeaves(s: Crawl.State, h: nat, task: Frontier.CrawlTask, v: Visit, ms: seq<Crawl.Move>, k: nat,
                     hostOf: string -> string)
    requires AtStart(s, h, task) && CanAll(s, ms, hostOf) && |ms| == k + 1 && IsEndOf(ms[k], v) && ms[k].h == h
    requires Stored(v) && forall i | 0 <= i < k :: Stores(ms[i], h)
    requires ms[..k] == [Crawl.PutRaw(h, CourseOf(v).result.body), Crawl.PutText(h, v.doc.value.value.text)]
    ensures task.id in s.db.urls
    ensures AtLinks(s.db, DoAll(s, ms, hostOf), h, task, v, s.db.urls[task.id].url, s.now)
  {
    EndLeaves(s, h, task, v, ms, k, hostOf);
    JobAfterEnd(s, h, task, ms, k, hostOf);
  }

  lemma StoredLeaves(s: Crawl.State, h: nat, task: Frontier.CrawlTask, v: Visit, ms: seq<Crawl.Move>, k: nat,
                     hostOf: string -> string)
    requires AtStart(s, h, task) && CanAll(s, ms, hostOf) && |ms| == k + 2 && IsEndOf(ms[k], v) && ms[k].h == h
    requires Stored(v) && forall i | 0 <= i < k :: Stores(ms[i], h)
    requires ms[..k] == [Crawl.PutRaw(h, CourseOf(v).result.body), Crawl.PutText(h, v.doc.value.value.text)]
    requires ms[k + 1] == LastMove(h, task.depth, v)
    ensures task.id in s.db.urls
    ensures Result(s.db, DoAll(s, ms, hostOf).db, s.db.urls[task.id].url, task.id, task.host, task.depth, v, s.now, hostOf)
  {
    var front := ms[..k + 1];
    assert front[..k] == ms[..k];
    LastOf(s, ms, k + 1, hostOf);
    CommitLeaves(s, h, task, v, front, k, hostOf);
    LinkStage(s.db, DoAll(s, front, hostOf), DoAll(s, ms, hostOf), h, task, v, s.db.urls[task.id].url, s.now, hostOf);
  }

  lemma JobAfterEnd(s: Crawl.State, h: nat, task: Frontier.CrawlTask, ms: seq<Crawl.Move>, k: nat,
                    hostOf: string -> string)
    requires AtStart(s, h, task) && CanAll(s, ms, hostOf) && |ms| == k + 1 && ms[k].Complete? && ms[k].h == h
    requires forall i | 0 <= i < k :: Stores(ms[i], h)
    ensures var c := DoAll(s, ms, hostOf); h in c.jobs && c.jobs[h].id == task.id && c.jobs[h].depth == task.depth
  {
    LastOf(s, ms, k, hostOf);
    StoringStays(s, h, ms[..k], hostOf);
    CommittedJob(DoAll(s, ms[..k], hostOf), h, ms[k], hostOf);
  }

  lemma LinkStage(a: Db, c: Crawl.State, n: Crawl.State, h: nat, task: Frontier.CrawlTask, v: Visit, u: string, now: Time,
                  hostOf: string -> string)
    requires AtLinks(a, c, h, task, v, u, now) && Stored(v)
    requires Crawl.MoveEnabled(c, LastMove(h, task.depth, v), hostOf)
    requires n == Crawl.Do(c, LastMove(h, task.depth, v), hostOf)
    ensures Result(a, n.db, u, task.id, task.host, task.depth, v, now, hostOf)
  {
    if Follows(v, task.depth) {
      var below := task.depth + 1;
      LastAdd(c, h, v.doc.value.value.links, below, n, hostOf);
      LinksLeave(a, c.db, n.db, u, task.id, task.host, task.depth, below, v, now, hostOf);
    } else {
      LastLeave(c, h, hostOf);
      NoLinksLeave(a, c.db, u, task.id, task.host, task.depth, v, now, hostOf);
    }
  }

  /** What a visit that commits makes of the blobs. */
  lemma VisitStores(s: Crawl.State, h: nat, task: Frontier.CrawlTask, v: Visit, hostOf: string -> string)
    requires AtStart(s, h, task) && CanAll(s, Moves(h, task.depth, v), hostOf) && Stored(v)
    ensures DoAll(s, Moves(h, task.depth, v), hostOf).store
            == s.store[RawKey(task.host, task.id) := CourseOf(v).result.body]
                      [TextKey(task.host, task.id) := v.doc.value.value.text]
  {
    var ms := Moves(h, task.depth, v);
    var k := Shape(h, task.depth, v);
    var front := ms[..k + 1];
    assert front[..k] == ms[..k];
    TwoPuts(s, h, CourseOf(v).result.body, v.doc.value.value.text, ms[..k], hostOf);
    BlobsStay(DoAll(s, ms[..k], hostOf), ms[k], hostOf);
    BlobsStay(DoAll(s, front, hostOf), ms[k + 1], hostOf);
  }
}
