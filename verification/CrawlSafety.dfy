/** Invariants of every run of the crawl, lapses and crashes included: the tables stay sound, every url can be traced
    to a seed, and every stored name of a blob names one. */
module CrawlSafety {
  import opened Base
  import opened LeaseQueue
  import opened Tables
  import opened Discovery
  import opened Growth
  import opened Crawl

  // ---------------------------------------------------------------- rows are never taken back

  ghost predicate Kept(a: Db, b: Db) {
    && (forall id | id in a.urls :: id in b.urls && b.urls[id].url == a.urls[id].url
                    && b.urls[id].domain == a.urls[id].domain && b.urls[id].depth == a.urls[id].depth)
    && (forall d | d in a.domains :: d in b.domains && b.domains[d].host == a.domains[d].host)
    && a.links.Keys <= b.links.Keys
  }

  lemma GrowsKeeps(a: Db, b: Db, depth: nat, now: Time, hostOf: string -> string)
    requires Grows(a, b, depth, now, hostOf)
    ensures Kept(a, b)
  {
    assert GrowsIn(a, b, depth, now, hostOf, Rows);
    assert GrowsIn(a, b, depth, now, hostOf, Domains);
    assert GrowsIn(a, b, depth, now, hostOf, Others);
  }

  lemma LeasesAreApart(db: Db, leases: map<nat, Lease>)
    requires Sound(db) && leases.Keys == db.leases.Keys
    ensures Sound(db.(leases := leases))
  {
    forall c ensures Holds(db.(leases := leases), c) {
      assert Holds(db, c);
      match c case UrlKeys => case HostKeys => case References =>
    }
  }

  lemma CounterSound(db: Db, d: nat, r: DomainRow)
    requires Sound(db) && d in db.domains && r.host == db.domains[d].host
    ensures Sound(db.(domains := db.domains[d := r])) && Kept(db, db.(domains := db.domains[d := r]))
  {
    var n := db.(domains := db.domains[d := r]);
    forall c ensures Holds(n, c) {
      assert Holds(db, c);
      match c case UrlKeys => case HostKeys => case References =>
    }
  }

  lemma CountersSound(db: Db, host: string)
    requires Sound(db)
    ensures Sound(BumpCrawled(db, host)) && Kept(db, BumpCrawled(db, host))
    ensures Sound(BumpErrors(db, host)) && Kept(db, BumpErrors(db, host))
  {
    if host in db.hostIdx && db.hostIdx[host] in db.domains {
      var d := db.hostIdx[host];
      CounterSound(db, d, db.domains[d].(crawled := db.domains[d].crawled + 1));
      CounterSound(db, d, db.domains[d].(errors := db.domains[d].errors + 1));
    }
  }

  lemma RowUpdateSound(db: Db, id: nat, r: UrlRow, l: Lease, d: DocRow)
    requires Sound(db) && id in db.urls && id in db.leases
    requires r.url == db.urls[id].url && r.domain == db.urls[id].domain && r.depth == db.urls[id].depth
    ensures var n := db.(urls := db.urls[id := r], leases := db.leases[id := l], docs := db.docs[id := d]);
            Sound(n) && Kept(db, n)
  {
    var n := db.(urls := db.urls[id := r], leases := db.leases[id := l], docs := db.docs[id := d]);
    forall c ensures Holds(n, c) {
      assert Holds(db, c);
      match c case UrlKeys => case HostKeys => case References =>
    }
  }

  lemma CompleteSound(db: Db, host: string, id: nat, x: int, text: string, raw: Key, txt: Key, now: Time)
    requires Sound(db) && id in db.urls && id in db.leases
    ensures var n := CompleteUrl(db, host, id, x, text, raw, txt, now); Sound(n) && Kept(db, n)
  {
    var n := CompleteUrl(db, host, id, x, text, raw, txt, now);
    CountersSound(db, host);
    RowUpdateSound(BumpCrawled(db, host), id, n.urls[id], n.leases[id], n.docs[id]);
  }

  lemma FailSound(db: Db, host: string, id: nat, now: Time, counted: bool)
    requires Sound(db) && id in db.leases
    ensures Sound(FailPartly(db, host, id, now, counted)) && Kept(db, FailPartly(db, host, id, now, counted))
  {
    CountersSound(db, host);
    LeasesAreApart(if counted then BumpErrors(db, host) else db, FailPartly(db, host, id, now, counted).leases);
  }

  lemma FailKeepsRows(db: Db, host: string, id: nat, now: Time, counted: bool)
    requires id in db.leases
    ensures FailPartly(db, host, id, now, counted).urls == db.urls
    ensures FailPartly(db, host, id, now, counted).docs == db.docs
  {
  }

  lemma OnlyLeasesMove(s: State, m: Move, hostOf: string -> string)
    requires Matched(s) && MoveEnabled(s, m, hostOf) && !Grown(m) && !m.Complete? && !m.FailPage?
    ensures TablesAfter(s, m, hostOf) == s.db.(leases := TablesAfter(s, m, hostOf).leases)
    ensures TablesAfter(s, m, hostOf).leases.Keys == s.db.leases.Keys
  {
  }

  lemma MoveKeeps(s: State, m: Move, hostOf: string -> string)
    requires Matched(s) && MoveEnabled(s, m, hostOf)
    ensures Sound(TablesAfter(s, m, hostOf)) && Kept(s.db, TablesAfter(s, m, hostOf))
  {
    if Grown(m) {
      MoveGrows(s, m, hostOf);
      GrowsKeeps(s.db, TablesAfter(s, m, hostOf), BirthDepth(s, m), s.now, hostOf);
    } else if m.Complete? {
      var j := s.jobs[m.h];
      CompleteSound(s.db, j.host, j.id, m.simhash, j.stage.text, RawKey(j.host, j.id), TextKey(j.host, j.id), s.now);
    } else if m.FailPage? {
      FailSound(s.db, s.jobs[m.h].host, s.jobs[m.h].id, s.now, m.counted);
    } else {
      OnlyLeasesMove(s, m, hostOf);
      LeasesAreApart(s.db, TablesAfter(s, m, hostOf).leases);
    }
  }

  lemma PastFollows(q: Queue, step: Step)
    requires q.past.Keys == q.rows.Keys && Enabled(q, step)
    ensures Next(q, step).past.Keys == Next(q, step).rows.Keys
  {
  }

  lemma HolderKept(s: State, m: Move, hostOf: string -> string, h: nat)
    requires CanMove(s, m) && Enabled(QueueOf(s), LeaseStep(s, m, hostOf))
    requires forall k | k in s.holders :: k in s.jobs
    requires h in JobsAfter(s, m) && (h in s.jobs ==> InQueue(s.holders, h, s.jobs[h]))
    ensures InQueue(Next(QueueOf(s), LeaseStep(s, m, hostOf)).holders, h, JobsAfter(s, m)[h])
  {
  }

  lemma JobOfTables(s: State, m: Move, b: Db, h: nat)
    requires CanMove(s, m) && Kept(s.db, b) && h in JobsAfter(s, m)
    requires h in s.jobs ==> OfTables(s.db, s.jobs[h])
    ensures OfTables(b, JobsAfter(s, m)[h])
  {
  }

  lemma HoldersHaveJobs(s: State, m: Move, hostOf: string -> string, h: nat)
    requires CanMove(s, m) && Enabled(QueueOf(s), LeaseStep(s, m, hostOf))
    requires h in Next(QueueOf(s), LeaseStep(s, m, hostOf)).holders
    requires h in s.holders ==> h in s.jobs && !s.jobs[h].stage.Committed?
    ensures h in JobsAfter(s, m)
  {
  }

  /** The tables stay sound and the jobs stay those of the tables. */
  lemma MatchedKept(s: State, m: Move, hostOf: string -> string)
    requires Matched(s) && MoveEnabled(s, m, hostOf)
    ensures Matched(Do(s, m, hostOf))
  {
    var n := Do(s, m, hostOf);
    MoveKeeps(s, m, hostOf);
    KeysFollow(s, m, hostOf);
    forall h | h in n.jobs ensures JobOk(n, h) {
      assert h in s.jobs ==> JobOk(s, h);
      HolderKept(s, m, hostOf, h);
      JobOfTables(s, m, n.db, h);
    }
    forall h | h in n.holders ensures h in n.jobs {
      assert h in s.jobs ==> JobOk(s, h);
      HoldersHaveJobs(s, m, hostOf, h);
    }
  }

  lemma KeysFollow(s: State, m: Move, hostOf: string -> string)
    requires Matched(s) && MoveEnabled(s, m, hostOf) && Sound(TablesAfter(s, m, hostOf))
    ensures Do(s, m, hostOf).past.Keys == TablesAfter(s, m, hostOf).urls.Keys
  {
    LeasesFollow(s, m, hostOf);
    assert Holds(s.db, References) && Holds(TablesAfter(s, m, hostOf), References);
    PastFollows(QueueOf(s), LeaseStep(s, m, hostOf));
  }

  // ---------------------------------------------------------------- provenance

  ghost predicate Rooted(db: Db, id: nat)
    requires id in db.urls
  {
    db.urls[id].depth == 0
    || exists p :: p in db.urls && (p, id) in db.links && db.urls[p].depth + 1 == db.urls[id].depth
  }

  ghost predicate Placed(db: Db, id: nat, hostOf: string -> string)
    requires id in db.urls
  {
    && db.urls[id].depth <= MAX_DEPTH && hostOf(db.urls[id].url) != ""
    && db.urls[id].domain in db.domains && db.domains[db.urls[id].domain].host == hostOf(db.urls[id].url)
  }

  ghost predicate Traced(db: Db, hostOf: string -> string) {
    forall id | id in db.urls :: Rooted(db, id) && Placed(db, id, hostOf)
  }

  lemma OldRowsTraced(a: Db, b: Db, id: nat, hostOf: string -> string)
    requires Kept(a, b) && id in a.urls && Rooted(a, id) && Placed(a, id, hostOf)
    ensures id in b.urls && Rooted(b, id) && Placed(b, id, hostOf)
  {
    if a.urls[id].depth != 0 {
      var p :| p in a.urls && (p, id) in a.links && a.urls[p].depth + 1 == a.urls[id].depth;
      assert p in b.urls && (p, id) in b.links;
    }
  }

  lemma NewRowTraced(s: State, m: Move, hostOf: string -> string, id: nat)
    requires Matched(s) && MoveEnabled(s, m, hostOf) && Grown(m)
    requires id in NewRows(s.db, TablesAfter(s, m, hostOf))
    ensures Rooted(TablesAfter(s, m, hostOf), id) && Placed(TablesAfter(s, m, hostOf), id, hostOf)
  {
    MoveGrows(s, m, hostOf);
    if m.AddFound? {
      assert JobOk(s, m.h);
      LinkedRowTraced(s.db, TablesAfter(s, m, hostOf), s.jobs[m.h].id, s.now, hostOf, id);
    } else {
      RootRowTraced(s.db, TablesAfter(s, m, hostOf), s.now, hostOf, id);
    }
  }

  lemma RootRowTraced(a: Db, b: Db, now: Time, hostOf: string -> string, id: nat)
    requires Grows(a, b, 0, now, hostOf) && id in NewRows(a, b)
    ensures Rooted(b, id) && Placed(b, id, hostOf)
  {
    assert GrowsIn(a, b, 0, now, hostOf, Births);
    assert BornRight(b, id, 0, hostOf);
  }

  lemma LinkedRowTraced(a: Db, b: Db, from: nat, now: Time, hostOf: string -> string, id: nat)
    requires from in a.urls && a.urls[from].depth < MAX_DEPTH && Grows(a, b, a.urls[from].depth + 1, now, hostOf)
    requires LinkedFrom(a, b, from) && id in NewRows(a, b)
    ensures Rooted(b, id) && Placed(b, id, hostOf)
  {
    assert GrowsIn(a, b, a.urls[from].depth + 1, now, hostOf, Births);
    assert BornRight(b, id, a.urls[from].depth + 1, hostOf);
    GrowsKeeps(a, b, a.urls[from].depth + 1, now, hostOf);
    assert from in b.urls && (from, id) in b.links && b.urls[from].depth + 1 == b.urls[id].depth;
  }

  lemma UrlsOnlyGrow(s: State, m: Move, hostOf: string -> string, id: nat)
    requires MoveEnabled(s, m, hostOf) && id in TablesAfter(s, m, hostOf).urls && id !in s.db.urls
    ensures Grown(m)
  {
  }

  lemma TracedKept(s: State, m: Move, hostOf: string -> string)
    requires Matched(s) && MoveEnabled(s, m, hostOf) && Traced(s.db, hostOf)
    ensures Traced(Do(s, m, hostOf).db, hostOf)
  {
    var b := TablesAfter(s, m, hostOf);
    MoveKeeps(s, m, hostOf);
    forall id | id in b.urls ensures Rooted(b, id) && Placed(b, id, hostOf) {
      if id in s.db.urls {
        OldRowsTraced(s.db, b, id, hostOf);
      } else {
        UrlsOnlyGrow(s, m, hostOf, id);
        NewRowTraced(s, m, hostOf, id);
      }
    }
  }

  /** A path of recorded links from a depth-0 url. */
  ghost predicate IsPath(db: Db, p: seq<nat>) {
    && p != [] && p[0] in db.urls && db.urls[p[0]].depth == 0
    && forall i | 0 <= i < |p| - 1 :: (p[i], p[i + 1]) in db.links
  }

  lemma {:induction false} PathTo(db: Db, id: nat, hostOf: string -> string) returns (p: seq<nat>)
    requires Traced(db, hostOf) && id in db.urls
    ensures IsPath(db, p) && |p| == db.urls[id].depth + 1 && p[|p| - 1] == id
    decreases db.urls[id].depth
  {
    assert Rooted(db, id);
    if db.urls[id].depth == 0 {
      p := [id];
    } else {
      var from :| from in db.urls && (from, id) in db.links && db.urls[from].depth + 1 == db.urls[id].depth;
      var q := PathTo(db, from, hostOf);
      p := q + [id];
    }
  }

  lemma {:induction false} RunKeepsTrace(ss: seq<State>, ms: seq<Move>, hostOf: string -> string, i: nat)
    requires CrawlRun(ss, ms, hostOf) && i < |ss|
    ensures Matched(ss[i]) && Traced(ss[i].db, hostOf)
  {
    if i == 0 {
      forall c ensures Holds(EMPTY, c) {
        match c case UrlKeys => case HostKeys => case References =>
      }
    } else {
      RunKeepsTrace(ss, ms, hostOf, i - 1);
      MatchedKept(ss[i - 1], ms[i - 1], hostOf);
      TracedKept(ss[i - 1], ms[i - 1], hostOf);
    }
  }

  /** Provenance: in every reachable state every url is at most six links deep, is the end of a path of recorded links
      of exactly its depth from a seed or a fed page, and belongs to the domain of its registrable host. */
  lemma Provenance(ss: seq<State>, ms: seq<Move>, hostOf: string -> string, i: nat, id: nat)
    requires CrawlRun(ss, ms, hostOf) && i < |ss| && id in ss[i].db.urls
    ensures ss[i].db.urls[id].depth <= MAX_DEPTH
    ensures exists p :: IsPath(ss[i].db, p) && |p| == ss[i].db.urls[id].depth + 1 && p[|p| - 1] == id
    ensures ss[i].db.urls[id].domain in ss[i].db.domains
    ensures ss[i].db.domains[ss[i].db.urls[id].domain].host == hostOf(ss[i].db.urls[id].url) != ""
  {
    RunKeepsTrace(ss, ms, hostOf, i);
    assert Placed(ss[i].db, id, hostOf);
    var p := PathTo(ss[i].db, id, hostOf);
  }

  // ---------------------------------------------------------------- blob before commit

  ghost predicate JobBlobs(store: map<Key, string>, j: Job) {
    && (j.stage.RawStored? || j.stage.Stored? ==> RawKey(j.host, j.id) in store)
    && (j.stage.Stored? ==> TextKey(j.host, j.id) in store)
  }

  /** Every blob name in the documents and in the scraped records, and every one a handler is about to commit, names
      a stored blob. */
  ghost predicate BlobsExist(s: State) {
    && (forall id | id in s.db.docs :: s.db.docs[id].rawKey in s.store && s.db.docs[id].textKey in s.store)
    && (forall t | t in s.records && s.records[t].Some? :: s.records[t].value in s.store)
    && (forall h | h in s.jobs :: JobBlobs(s.store, s.jobs[h]))
    && (forall k | k in s.scrapers && s.scrapers[k].raw.Some? :: s.scrapers[k].raw.value in s.store)
  }

  lemma DocsAfter(s: State, m: Move, hostOf: string -> string)
    requires Matched(s) && MoveEnabled(s, m, hostOf) && !m.Complete?
    ensures TablesAfter(s, m, hostOf).docs == s.db.docs
  {
    if Grown(m) {
      MoveGrows(s, m, hostOf);
      GrowthKeepsDocs(s.db, TablesAfter(s, m, hostOf), BirthDepth(s, m), s.now, hostOf);
    } else if m.FailPage? {
      FailKeepsRows(s.db, s.jobs[m.h].host, s.jobs[m.h].id, s.now, m.counted);
    } else {
      OnlyLeasesMove(s, m, hostOf);
    }
  }

  lemma GrowthKeepsDocs(a: Db, b: Db, depth: nat, now: Time, hostOf: string -> string)
    requires Grows(a, b, depth, now, hostOf)
    ensures b.docs == a.docs
  {
    assert GrowsIn(a, b, depth, now, hostOf, Others);
  }

  lemma JobBlobsKept(s: State, m: Move, h: nat)
    requires CanMove(s, m) && h in JobsAfter(s, m) && (h in s.jobs ==> JobBlobs(s.store, s.jobs[h]))
    ensures JobBlobs(StoreAfter(s, m), JobsAfter(s, m)[h])
  {
  }

  lemma DocBlobsKept(s: State, m: Move, hostOf: string -> string)
    requires Matched(s) && MoveEnabled(s, m, hostOf) && BlobsExist(s)
    ensures var docs := TablesAfter(s, m, hostOf).docs;
            forall id | id in docs :: docs[id].rawKey in StoreAfter(s, m) && docs[id].textKey in StoreAfter(s, m)
  {
    StoreGrows(s, m);
    if m.Complete? {
      assert JobBlobs(s.store, s.jobs[m.h]);
    } else {
      DocsAfter(s, m, hostOf);
    }
  }

  lemma StoreGrows(s: State, m: Move)
    requires CanMove(s, m)
    ensures s.store.Keys <= StoreAfter(s, m).Keys
  {
  }

  lemma BlobsKept(s: State, m: Move, hostOf: string -> string)
    requires Matched(s) && MoveEnabled(s, m, hostOf) && BlobsExist(s)
    ensures BlobsExist(Do(s, m, hostOf))
  {
    var n := Do(s, m, hostOf);
    DocBlobsKept(s, m, hostOf);
    assert n.store == StoreAfter(s, m) && n.jobs == JobsAfter(s, m) && n.db == TablesAfter(s, m, hostOf);
    forall h | h in n.jobs ensures JobBlobs(n.store, n.jobs[h]) {
      JobBlobsKept(s, m, h);
    }
  }

  /** Crash consistency: wherever workers stop, committed rows name blobs that exist. */
  lemma {:induction false} BlobBeforeCommit(ss: seq<State>, ms: seq<Move>, hostOf: string -> string, i: nat)
    requires CrawlRun(ss, ms, hostOf) && i < |ss|
    ensures BlobsExist(ss[i])
  {
    if i > 0 {
      BlobBeforeCommit(ss, ms, hostOf, i - 1);
      RunKeepsTrace(ss, ms, hostOf, i - 1);
      BlobsKept(ss[i - 1], ms[i - 1], hostOf);
    }
  }
}
