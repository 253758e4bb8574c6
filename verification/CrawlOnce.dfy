/** Lapse-free runs of the crawl: the lease theorems apply to it, and a page is expanded and committed at most once. */
module CrawlOnce {
  import opened Base
  import opened LeaseQueue
  import LeaseSafety
  import opened Tables
  import opened Discovery
  import opened Growth
  import opened Crawl
  import opened CrawlSafety

  // ---------------------------------------------------------------- the crawl runs the lease queue

  function QueuesOf(ss: seq<State>): seq<Queue> {
    seq(|ss|, i requires 0 <= i < |ss| => QueueOf(ss[i]))
  }

  ghost function StepsOf(ss: seq<State>, ms: seq<Move>, hostOf: string -> string): seq<Step>
    requires CrawlRun(ss, ms, hostOf)
  {
    seq(|ms|, i requires 0 <= i < |ms| && CanMove(ss[i], ms[i]) => LeaseStep(ss[i], ms[i], hostOf))
  }

  /** Every run of the crawl is, on its lease columns, a run of the lease queue: what is proved of the queue holds of
      the urls table. */
  lemma CrawlRunsTheQueue(ss: seq<State>, ms: seq<Move>, hostOf: string -> string)
    requires CrawlRun(ss, ms, hostOf)
    ensures Run(QueuesOf(ss), StepsOf(ss, ms, hostOf))
    ensures LapseFreeCrawl(ss, ms, hostOf) ==> LapseFreeRun(QueuesOf(ss), StepsOf(ss, ms, hostOf))
  {
    var qs, steps := QueuesOf(ss), StepsOf(ss, ms, hostOf);
    forall i | 0 <= i < |steps| ensures Enabled(qs[i], steps[i]) && qs[i + 1] == Next(qs[i], steps[i]) {
      RunKeepsTrace(ss, ms, hostOf, i);
      LeasesFollow(ss[i], ms[i], hostOf);
    }
    if LapseFreeCrawl(ss, ms, hostOf) {
      forall i | 0 <= i < |qs| ensures LapseFree(qs[i]) {
        assert NoLapse(ss[i]);
      }
    }
  }

  lemma LeaseInv(ss: seq<State>, ms: seq<Move>, hostOf: string -> string, i: nat)
    requires LapseFreeCrawl(ss, ms, hostOf) && i < |ss|
    ensures LeaseSafety.Inv(QueueOf(ss[i]))
  {
    CrawlRunsTheQueue(ss, ms, hostOf);
    LeaseSafety.RunKeepsInv(QueuesOf(ss), StepsOf(ss, ms, hostOf), i);
  }

  // ---------------------------------------------------------------- once

  /** A url whose page was committed or whose links were added is done. */
  ghost predicate DoneRow(s: State, id: nat) {
    id in s.db.leases && s.db.leases[id].status == Done
  }

  /** No two jobs on one url, and none on a url whose links were already added. */
  ghost predicate Separate(jobs: map<nat, Job>, expanded: set<nat>) {
    && (forall h, k | h in jobs && k in jobs && jobs[h].id == jobs[k].id :: h == k)
    && (forall h | h in jobs :: jobs[h].id !in expanded)
  }

  ghost predicate AllDone(s: State) {
    && (forall h | h in s.jobs && s.jobs[h].stage.Committed? :: DoneRow(s, s.jobs[h].id))
    && (forall id | id in s.expanded :: DoneRow(s, id))
    && (forall id | id in s.db.docs :: DoneRow(s, id))
  }

  ghost predicate Once(s: State) {
    Separate(s.jobs, s.expanded) && AllDone(s)
  }

  lemma DoneStays(s: State, m: Move, hostOf: string -> string, id: nat)
    requires Matched(s) && MoveEnabled(s, m, hostOf) && LeaseSafety.Inv(QueueOf(s)) && NoLapse(s)
    requires DoneRow(s, id)
    ensures DoneRow(Do(s, m, hostOf), id)
  {
    LeasesFollow(s, m, hostOf);
    LeaseSafety.OverStaysPut(QueueOf(s), LeaseStep(s, m, hostOf), id);
  }

  /** Jobs before their terminal call are on leased rows. */
  lemma WorkingIsLeased(s: State, h: nat)
    requires Matched(s) && LeaseSafety.Inv(QueueOf(s)) && h in s.jobs && !s.jobs[h].stage.Committed?
    ensures s.jobs[h].id in s.db.leases && s.db.leases[s.jobs[h].id].status == Leased && h in s.holders
  {
    assert JobOk(s, h);
    assert LeaseSafety.HoldsRow(QueueOf(s).rows[s.holders[h].id], s.holders[h]);
  }

  lemma ClaimedIsFree(s: State, m: Move, hostOf: string -> string)
    requires Matched(s) && MoveEnabled(s, m, hostOf) && LeaseSafety.Inv(QueueOf(s)) && Once(s) && m.ClaimUrl?
    ensures m.id !in s.expanded && forall h | h in s.jobs :: s.jobs[h].id != m.id
  {
    assert Due(s.db.leases[m.id], s.now);
    forall h | h in s.jobs ensures s.jobs[h].id != m.id {
      if !s.jobs[h].stage.Committed? {
        WorkingIsLeased(s, h);
      } else {
        assert DoneRow(s, s.jobs[h].id);
      }
    }
    assert m.id in s.expanded ==> DoneRow(s, m.id);
  }

  lemma JobsStaySeparate(s: State, m: Move)
    requires CanMove(s, m) && Separate(s.jobs, s.expanded)
    requires m.ClaimUrl? ==> m.id !in s.expanded && forall h | h in s.jobs :: s.jobs[h].id != m.id
    ensures Separate(JobsAfter(s, m), ExpandedAfter(s, m))
  {
  }

  /** Documents and finished pages come from commits. */
  lemma DoneIsCommitted(s: State, m: Move, hostOf: string -> string)
    requires Matched(s) && MoveEnabled(s, m, hostOf) && AllDone(s)
    requires forall id | DoneRow(s, id) :: DoneRow(Do(s, m, hostOf), id)
    requires m.Complete? ==> DoneRow(Do(s, m, hostOf), s.jobs[m.h].id)
    requires !m.Complete? ==> Do(s, m, hostOf).db.docs == s.db.docs
    ensures AllDone(Do(s, m, hostOf))
  {
    if m.Complete? {
      DocsOfComplete(s, m, hostOf);
    }
    DoneAfter(s, m, Do(s, m, hostOf));
  }

  lemma DocsOfComplete(s: State, m: Move, hostOf: string -> string)
    requires MoveEnabled(s, m, hostOf) && m.Complete?
    ensures forall id | id in Do(s, m, hostOf).db.docs :: id in s.db.docs || id == s.jobs[m.h].id
  {
  }

  lemma DoneAfter(s: State, m: Move, n: State)
    requires CanMove(s, m) && AllDone(s) && n.jobs == JobsAfter(s, m) && n.expanded == ExpandedAfter(s, m)
    requires forall id | DoneRow(s, id) :: DoneRow(n, id)
    requires m.Complete? ==> DoneRow(n, s.jobs[m.h].id)
    requires forall id | id in n.db.docs :: id in s.db.docs || (m.Complete? && id == s.jobs[m.h].id)
    ensures AllDone(n)
  {
    forall h | h in n.jobs && n.jobs[h].stage.Committed? ensures DoneRow(n, n.jobs[h].id) {
      if !m.Complete? || h != m.h {
        assert DoneRow(s, s.jobs[h].id);
      }
    }
    forall id | id in n.expanded ensures DoneRow(n, id) {
      assert DoneRow(s, id);
    }
    forall id | id in n.db.docs ensures DoneRow(n, id) {
      assert id in s.db.docs ==> DoneRow(s, id);
    }
  }

  lemma OnceKept(s: State, m: Move, hostOf: string -> string)
    requires Matched(s) && MoveEnabled(s, m, hostOf) && LeaseSafety.Inv(QueueOf(s)) && NoLapse(s) && Once(s)
    ensures Once(Do(s, m, hostOf))
  {
    if m.ClaimUrl? {
      ClaimedIsFree(s, m, hostOf);
    }
    JobsStaySeparate(s, m);
    DoneKept(s, m, hostOf);
  }

  lemma DoneKept(s: State, m: Move, hostOf: string -> string)
    requires Matched(s) && MoveEnabled(s, m, hostOf) && LeaseSafety.Inv(QueueOf(s)) && NoLapse(s) && AllDone(s)
    ensures AllDone(Do(s, m, hostOf))
  {
    forall id | DoneRow(s, id) ensures DoneRow(Do(s, m, hostOf), id) {
      DoneStays(s, m, hostOf, id);
    }
    if !m.Complete? {
      DocsAfter(s, m, hostOf);
    }
    DoneIsCommitted(s, m, hostOf);
  }

  lemma {:induction false} RunKeepsOnce(ss: seq<State>, ms: seq<Move>, hostOf: string -> string, i: nat)
    requires LapseFreeCrawl(ss, ms, hostOf) && i < |ss|
    ensures Matched(ss[i]) && LeaseSafety.Inv(QueueOf(ss[i])) && Once(ss[i])
  {
    RunKeepsTrace(ss, ms, hostOf, i);
    LeaseInv(ss, ms, hostOf, i);
    if i > 0 {
      RunKeepsOnce(ss, ms, hostOf, i - 1);
      OnceKept(ss[i - 1], ms[i - 1], hostOf);
    }
  }

  /** In lapse-free runs at most one handler works on a url, from its claim until the links of its page are added, and
      the row records it as the owner until its terminal call. */
  lemma OneHandlerPerUrl(ss: seq<State>, ms: seq<Move>, hostOf: string -> string, i: nat, h: nat, k: nat)
    requires LapseFreeCrawl(ss, ms, hostOf) && i < |ss|
    requires h in ss[i].jobs && k in ss[i].jobs && ss[i].jobs[h].id == ss[i].jobs[k].id
    ensures h == k
    ensures !ss[i].jobs[h].stage.Committed? ==>
              var id := ss[i].jobs[h].id;
              && h in ss[i].holders && id in ss[i].db.leases && ss[i].db.leases[id].status == Leased
              && ss[i].db.leases[id].owner == Some(ss[i].holders[h].worker)
  {
    RunKeepsOnce(ss, ms, hostOf, i);
    if !ss[i].jobs[h].stage.Committed? {
      WorkingIsLeased(ss[i], h);
      assert JobOk(ss[i], h);
    }
  }

  // ---------------------------------------------------------------- pages_crawled

  function CrawledDocs(db: Db, d: nat): set<nat> {
    set id | id in db.docs && id in db.urls && db.urls[id].domain == d
  }

  ghost predicate Counted(db: Db) {
    forall d | d in db.domains :: db.domains[d].crawled == |CrawledDocs(db, d)|
  }

  lemma GrowthKeepsCounts(a: Db, b: Db, depth: nat, now: Time, hostOf: string -> string)
    requires Sound(a) && Grows(a, b, depth, now, hostOf) && Counted(a)
    ensures Counted(b)
  {
    assert Holds(a, References);
    assert GrowsIn(a, b, depth, now, hostOf, Rows) && GrowsIn(a, b, depth, now, hostOf, Domains)
           && GrowsIn(a, b, depth, now, hostOf, Others);
    forall d | d in b.domains ensures b.domains[d].crawled == |CrawledDocs(b, d)| {
      assert CrawledDocs(b, d) == CrawledDocs(a, d);
      if d !in a.domains {
        assert CrawledDocs(a, d) == {};
      }
    }
  }

  lemma CommitCounts(db: Db, host: string, id: nat, x: int, text: string, raw: Key, txt: Key, now: Time)
    requires Sound(db) && Counted(db) && id in db.urls && id in db.leases && id !in db.docs
    requires db.urls[id].domain in db.domains && db.domains[db.urls[id].domain].host == host
    ensures Counted(CompleteUrl(db, host, id, x, text, raw, txt, now))
  {
    assert Holds(db, HostKeys);
    var n := CompleteUrl(db, host, id, x, text, raw, txt, now);
    var own := db.urls[id].domain;
    assert n.domains == db.domains[own := db.domains[own].(crawled := db.domains[own].crawled + 1)];
    forall d | d in n.domains ensures n.domains[d].crawled == |CrawledDocs(n, d)| {
      NewDocCounts(db, n, id, d);
    }
  }

  lemma NewDocCounts(db: Db, n: Db, id: nat, d: nat)
    requires id in db.urls && id !in db.docs && n.docs.Keys == db.docs.Keys + {id} && n.urls.Keys == db.urls.Keys
    requires forall j | j in db.urls :: n.urls[j].domain == db.urls[j].domain
    ensures |CrawledDocs(n, d)| == |CrawledDocs(db, d)| + if d == db.urls[id].domain then 1 else 0
  {
    NewDocSet(db, n, id, d);
    SetCount(CrawledDocs(db, d), CrawledDocs(n, d), id, d == db.urls[id].domain);
  }

  lemma NewDocSet(db: Db, n: Db, id: nat, d: nat)
    requires id in db.urls && id !in db.docs && n.docs.Keys == db.docs.Keys + {id} && n.urls.Keys == db.urls.Keys
    requires forall j | j in db.urls :: n.urls[j].domain == db.urls[j].domain
    ensures id !in CrawledDocs(db, d)
    ensures forall j :: j in CrawledDocs(n, d) <==> j in CrawledDocs(db, d) || (j == id && d == db.urls[id].domain)
  {
  }

  lemma SetCount(a: set<nat>, b: set<nat>, id: nat, added: bool)
    requires id !in a && forall j :: j in b <==> j in a || (j == id && added)
    ensures |b| == |a| + if added then 1 else 0
  {
    assert b == a + if added then {id} else {};
  }

  lemma FailCounts(db: Db, host: string, id: nat, now: Time, counted: bool)
    requires Counted(db) && id in db.leases
    ensures Counted(FailPartly(db, host, id, now, counted))
  {
    var n := FailPartly(db, host, id, now, counted);
    forall d | d in n.domains ensures n.domains[d].crawled == |CrawledDocs(n, d)| {
      assert CrawledDocs(n, d) == CrawledDocs(db, d);
    }
  }

  lemma LeasesDoNotCount(db: Db, leases: map<nat, Lease>)
    requires Counted(db)
    ensures Counted(db.(leases := leases))
  {
    forall d ensures CrawledDocs(db.(leases := leases), d) == CrawledDocs(db, d) {
    }
  }

  /** A url is committed once: its row is still leased. */
  lemma CommitIsFirst(s: State, m: Move)
    requires Matched(s) && CanMove(s, m) && LeaseSafety.Inv(QueueOf(s)) && AllDone(s) && m.Complete?
    ensures s.jobs[m.h].id !in s.db.docs && OfTables(s.db, s.jobs[m.h])
  {
    WorkingIsLeased(s, m.h);
    assert JobOk(s, m.h);
    assert s.jobs[m.h].id in s.db.docs ==> DoneRow(s, s.jobs[m.h].id);
  }

  lemma CommitMoveCounts(s: State, m: Move)
    requires Matched(s) && CanMove(s, m) && LeaseSafety.Inv(QueueOf(s)) && AllDone(s) && Counted(s.db) && m.Complete?
    ensures var j := s.jobs[m.h];
            Counted(CompleteUrl(s.db, j.host, j.id, m.simhash, j.stage.text, RawKey(j.host, j.id),
                                TextKey(j.host, j.id), s.now))
  {
    var j := s.jobs[m.h];
    CommitIsFirst(s, m);
    CommitCounts(s.db, j.host, j.id, m.simhash, j.stage.text, RawKey(j.host, j.id), TextKey(j.host, j.id), s.now);
  }

  lemma CountsKept(s: State, m: Move, hostOf: string -> string)
    requires Matched(s) && MoveEnabled(s, m, hostOf) && LeaseSafety.Inv(QueueOf(s)) && Once(s) && Counted(s.db)
    ensures Counted(TablesAfter(s, m, hostOf))
  {
    if Grown(m) {
      MoveGrows(s, m, hostOf);
      GrowthKeepsCounts(s.db, TablesAfter(s, m, hostOf), BirthDepth(s, m), s.now, hostOf);
    } else if m.Complete? {
      CommitMoveCounts(s, m);
    } else if m.FailPage? {
      FailCounts(s.db, s.jobs[m.h].host, s.jobs[m.h].id, s.now, m.counted);
    } else {
      OnlyLeasesMove(s, m, hostOf);
      LeasesDoNotCount(s.db, TablesAfter(s, m, hostOf).leases);
    }
  }

  lemma MoveCounts(s: State, m: Move, n: State, hostOf: string -> string)
    requires Matched(s) && MoveEnabled(s, m, hostOf) && LeaseSafety.Inv(QueueOf(s)) && Once(s) && Counted(s.db)
    requires n == Do(s, m, hostOf)
    ensures Counted(n.db)
  {
    CountsKept(s, m, hostOf);
  }

  lemma {:induction false} RunCounts(ss: seq<State>, ms: seq<Move>, hostOf: string -> string, i: nat)
    requires LapseFreeCrawl(ss, ms, hostOf) && i < |ss|
    ensures Counted(ss[i].db)
  {
    if i > 0 {
      RunCounts(ss, ms, hostOf, i - 1);
      RunKeepsOnce(ss, ms, hostOf, i - 1);
      MoveCounts(ss[i - 1], ms[i - 1], ss[i], hostOf);
    }
  }

  /** pages_crawled of a domain is the number of its urls that have a document. */
  lemma PagesCrawledIsExact(ss: seq<State>, ms: seq<Move>, hostOf: string -> string, i: nat)
    requires LapseFreeCrawl(ss, ms, hostOf) && i < |ss|
    ensures forall d | d in ss[i].db.domains :: ss[i].db.domains[d].crawled == |CrawledDocs(ss[i].db, d)|
  {
    RunCounts(ss, ms, hostOf, i);
  }

  // ---------------------------------------------------------------- what the blobs say

  /** The document of `id` names the text whose digest its row records. */
  ghost predicate TextOf(db: Db, store: map<Key, string>, id: nat)
    requires id in db.docs
  {
    && id in db.urls && db.urls[id].domain in db.domains
    && db.docs[id].textKey == TextKey(db.domains[db.urls[id].domain].host, id)
    && db.docs[id].textKey in store && db.urls[id].content == Some(store[db.docs[id].textKey])
  }

  ghost predicate TextStored(store: map<Key, string>, j: Job) {
    j.stage.Stored? ==> TextKey(j.host, j.id) in store && store[TextKey(j.host, j.id)] == j.stage.text
  }

  ghost predicate Texts(s: State) {
    && (forall id | id in s.db.docs :: TextOf(s.db, s.store, id))
    && (forall h | h in s.jobs :: TextStored(s.store, s.jobs[h]))
  }

  lemma StoredTextKept(s: State, m: Move, h: nat)
    requires CanMove(s, m) && h in JobsAfter(s, m) && (h in s.jobs ==> TextStored(s.store, s.jobs[h]))
    requires Separate(s.jobs, s.expanded)
    ensures TextStored(StoreAfter(s, m), JobsAfter(s, m)[h])
  {
  }

  lemma CommitText(s: State, m: Move, hostOf: string -> string)
    requires Matched(s) && MoveEnabled(s, m, hostOf) && m.Complete? && TextStored(s.store, s.jobs[m.h])
    ensures TextOf(TablesAfter(s, m, hostOf), s.store, s.jobs[m.h].id)
  {
    assert JobOk(s, m.h);
    CountersSound(s.db, s.jobs[m.h].host);
  }

  lemma NoWriterOn(s: State, m: Move, id: nat)
    requires Matched(s) && CanMove(s, m) && LeaseSafety.Inv(QueueOf(s)) && AllDone(s)
    requires id in s.db.docs && m.PutText?
    ensures s.jobs[m.h].id != id
  {
    WorkingIsLeased(s, m.h);
    assert DoneRow(s, id);
  }

  /** No other handler is on the url of a document, and snapshots go under other names. */
  lemma TextBlobKept(s: State, m: Move, host: string, id: nat)
    requires CanMove(s, m) && TextKey(host, id) in s.store && (m.PutText? ==> s.jobs[m.h].id != id)
    ensures TextKey(host, id) in StoreAfter(s, m) && StoreAfter(s, m)[TextKey(host, id)] == s.store[TextKey(host, id)]
  {
  }

  lemma TextOfKept(a: Db, b: Db, store: map<Key, string>, after: map<Key, string>, id: nat)
    requires id in a.docs && TextOf(a, store, id) && Kept(a, b) && id in b.docs && b.docs[id] == a.docs[id]
    requires id in b.urls && b.urls[id].content == a.urls[id].content
    requires a.docs[id].textKey in after && after[a.docs[id].textKey] == store[a.docs[id].textKey]
    ensures TextOf(b, after, id)
  {
  }

  lemma OtherRowsStay(s: State, m: Move, hostOf: string -> string, id: nat)
    requires Matched(s) && MoveEnabled(s, m, hostOf) && id in s.db.docs && id in s.db.urls
    requires m.Complete? ==> s.jobs[m.h].id != id
    ensures var b := TablesAfter(s, m, hostOf);
            id in b.docs && b.docs[id] == s.db.docs[id] && id in b.urls && b.urls[id] == s.db.urls[id]
  {
    if Grown(m) {
      MoveGrows(s, m, hostOf);
      GrowthKeepsRow(s.db, TablesAfter(s, m, hostOf), BirthDepth(s, m), s.now, hostOf, id);
    } else if m.Complete? {
      var j := s.jobs[m.h];
      assert JobOk(s, m.h);
      CommitKeepsRow(s.db, j.host, j.id, m.simhash, j.stage.text, RawKey(j.host, j.id), TextKey(j.host, j.id), s.now, id);
    } else if m.FailPage? {
      FailKeepsRows(s.db, s.jobs[m.h].host, s.jobs[m.h].id, s.now, m.counted);
    } else {
      OnlyLeasesMove(s, m, hostOf);
    }
  }

  lemma GrowthKeepsRow(a: Db, b: Db, depth: nat, now: Time, hostOf: string -> string, id: nat)
    requires Grows(a, b, depth, now, hostOf) && id in a.docs && id in a.urls
    ensures id in b.docs && b.docs[id] == a.docs[id] && id in b.urls && b.urls[id] == a.urls[id]
  {
    assert GrowsIn(a, b, depth, now, hostOf, Others) && GrowsIn(a, b, depth, now, hostOf, Rows);
  }

  lemma CommitKeepsRow(db: Db, host: string, id: nat, x: int, text: string, raw: Key, txt: Key, now: Time, other: nat)
    requires id in db.urls && id in db.leases && other != id && other in db.docs && other in db.urls
    ensures var b := CompleteUrl(db, host, id, x, text, raw, txt, now);
            other in b.docs && b.docs[other] == db.docs[other] && other in b.urls && b.urls[other] == db.urls[other]
  {
  }

  /** The document, the row and the text of another url stay. */
  lemma OldTextKept(s: State, m: Move, hostOf: string -> string, id: nat)
    requires Matched(s) && MoveEnabled(s, m, hostOf) && LeaseSafety.Inv(QueueOf(s)) && Once(s)
    requires id in s.db.docs && TextOf(s.db, s.store, id) && (m.Complete? ==> s.jobs[m.h].id != id)
    ensures var b, key := TablesAfter(s, m, hostOf), s.db.docs[id].textKey;
            && id in b.docs && b.docs[id] == s.db.docs[id] && id in b.urls && b.urls[id].content == s.db.urls[id].content
            && key in StoreAfter(s, m) && StoreAfter(s, m)[key] == s.store[key]
  {
    OtherRowsStay(s, m, hostOf, id);
    if m.PutText? {
      NoWriterOn(s, m, id);
    }
    TextBlobKept(s, m, s.db.domains[s.db.urls[id].domain].host, id);
  }

  lemma TextsKept(s: State, m: Move, hostOf: string -> string)
    requires Matched(s) && MoveEnabled(s, m, hostOf) && LeaseSafety.Inv(QueueOf(s)) && Once(s) && Texts(s)
    ensures Texts(Do(s, m, hostOf))
  {
    var n := Do(s, m, hostOf);
    assert n.db == TablesAfter(s, m, hostOf) && n.store == StoreAfter(s, m) && n.jobs == JobsAfter(s, m);
    forall h | h in n.jobs ensures TextStored(n.store, n.jobs[h]) {
      StoredTextKept(s, m, h);
    }
    if !m.Complete? {
      DocsAfter(s, m, hostOf);
    }
    MoveKeeps(s, m, hostOf);
    forall id | id in n.db.docs ensures TextOf(n.db, n.store, id) {
      if m.Complete? && id == s.jobs[m.h].id {
        CommitText(s, m, hostOf);
      } else {
        assert TextOf(s.db, s.store, id);
        OldTextKept(s, m, hostOf, id);
        TextOfKept(s.db, n.db, s.store, n.store, id);
      }
    }
  }

  /** In lapse-free runs the text blob a document names is the very text whose digest was committed with it, at the
      time of the commit and ever after. */
  lemma {:induction false} DocumentsKeepTheirText(ss: seq<State>, ms: seq<Move>, hostOf: string -> string, i: nat)
    requires LapseFreeCrawl(ss, ms, hostOf) && i < |ss|
    ensures Texts(ss[i])
  {
    if i > 0 {
      DocumentsKeepTheirText(ss, ms, hostOf, i - 1);
      RunKeepsOnce(ss, ms, hostOf, i - 1);
      TextsKept(ss[i - 1], ms[i - 1], hostOf);
    }
  }
}
