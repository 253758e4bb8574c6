/** The crawl as a transition system: any number of handlers of crawler/worker.py, the reaper, seeding, the scraper's
    blobs and its link feed, and the clock, interleaved statement by statement over the tables and the blob store. */
module Crawl {
  import opened Base
  import opened LeaseQueue
  import opened Tables
  import opened Discovery
  import opened Growth

  const MAX_DEPTH: nat := 6

  /** How far a handler has got with its page. */
  datatype Stage = Working | RawStored(body: string) | Stored(body: string, text: string) | Committed

  datatype Job = Job(id: nat, host: string, depth: nat, stage: Stage)

  /** A scrape handler past its fetch; `raw` is the key its optional snapshot was stored under. */
  datatype ScrapeJob = ScrapeJob(target: nat, host: string, raw: Option<Key>)

  /** `holders` and `past` are those of the lease queue over the lease columns; `expanded` are the pages whose links
      were added, `seeds` counts the urls handed to seed(). */
  datatype State = State(
    db: Db, now: Time, holders: map<nat, Holder>, past: map<nat, History>, jobs: map<nat, Job>,
    store: map<Key, string>, scrapers: map<nat, ScrapeJob>, records: map<nat, Option<Key>>,
    expanded: set<nat>, seeds: nat)

  function QueueOf(s: State): Queue {
    Queue(s.now, s.db.leases, s.holders, s.past)
  }

  datatype Move =
    | Clock(to: Time)
    | SeedAll(urls: seq<string>)
    | ClaimUrl(h: nat, worker: string, id: nat, seconds: int)
    | RenewLease(h: nat, seconds: int)
    | ReapLeases
    | PutRaw(h: nat, body: string)
    | PutText(h: nat, text: string)
    | Complete(h: nat, simhash: int)
    | Unchanged(h: nat)
    | SkipPage(h: nat)
    | FailPage(h: nat, counted: bool)
    | Crash(h: nat)
    | AddFound(h: nat, links: seq<Link>)
    | Leave(h: nat)
    | Feed(origin: string)
    | FeedFound(from: nat, links: seq<Link>)
    | ScrapeStart(k: nat, target: nat, host: string)
    | ScrapePut(k: nat, body: string)
    | ScrapeCommit(k: nat)

  predicate CanMove(s: State, m: Move) {
    match m
    case ClaimUrl(h, w, id, n) => h !in s.jobs && id in s.db.urls && s.db.urls[id].domain in s.db.domains
    case RenewLease(h, n) => h in s.jobs && !s.jobs[h].stage.Committed?
    case PutRaw(h, body) => h in s.jobs && s.jobs[h].stage.Working?
    case PutText(h, text) => h in s.jobs && s.jobs[h].stage.RawStored?
    case Complete(h, x) =>
      h in s.jobs && s.jobs[h].stage.Stored? && s.jobs[h].id in s.db.urls && s.jobs[h].id in s.db.leases
    case Unchanged(h) => h in s.jobs && s.jobs[h].stage.Working? && s.jobs[h].id in s.db.leases
    case SkipPage(h) => h in s.jobs && s.jobs[h].stage.Working? && s.jobs[h].id in s.db.leases
    case FailPage(h, _) => h in s.jobs && !s.jobs[h].stage.Committed? && s.jobs[h].id in s.db.leases
    case Crash(h) => h in s.jobs && !s.jobs[h].stage.Committed?
    case AddFound(h, links) => h in s.jobs && s.jobs[h].stage.Committed? && s.jobs[h].depth < MAX_DEPTH
    case Leave(h) => h in s.jobs && s.jobs[h].stage.Committed?
    case FeedFound(from, links) => from in s.db.urls
    case ScrapeStart(k, t, h) => k !in s.scrapers
    case ScrapePut(k, body) => k in s.scrapers
    case ScrapeCommit(k) => k in s.scrapers
    case _ => true
  }

  /** fail() is two autocommit statements; `counted` says whether the second, the domain's error counter, came about. */
  function FailPartly(db: Db, host: string, id: nat, now: Time, counted: bool): Db
    requires id in db.leases
  {
    if counted then FailUrl(db, host, id, MAX_FAILURES, now)
    else db.(leases := db.leases[id := FailedOnce(db.leases[id], MAX_FAILURES, now)])
  }

  predicate Grown(m: Move) {
    m.SeedAll? || m.AddFound? || m.Feed? || m.FeedFound?
  }

  /** The tables after a move that discovers urls. */
  function GrownTables(s: State, m: Move, hostOf: string -> string): Db
    requires CanMove(s, m) && Grown(m)
  {
    match m
    case SeedAll(urls) => SeedUrls(s.db, urls, s.now, hostOf).0
    case AddFound(h, links) => AddLinks(s.db, links, s.jobs[h].id, s.jobs[h].depth + 1, s.now, hostOf).0
    case Feed(origin) => FeedOrigin(s.db, origin, s.now, hostOf)
    case FeedFound(from, links) => AddLinks(s.db, links, from, 0, s.now, hostOf).0
  }

  /** The lease columns after a move that touches nothing else of the tables. */
  function LeasesAfter(s: State, m: Move): map<nat, Lease>
    requires CanMove(s, m)
  {
    match m
    case ClaimUrl(h, w, id, n) =>
      if id in s.db.leases then s.db.leases[id := Claimed(s.db.leases[id], w, n, s.now)] else s.db.leases
    case RenewLease(h, n) =>
      if h in s.holders && s.holders[h].id in s.db.leases && HeldBy(s.db.leases[s.holders[h].id], s.holders[h].worker)
      then s.db.leases[s.holders[h].id := Renewed(s.db.leases[s.holders[h].id], n, s.now)]
      else s.db.leases
    case ReapLeases => ReapRows(s.db.leases, s.now)
    case Unchanged(h) => s.db.leases[s.jobs[h].id := Settled(s.db.leases[s.jobs[h].id], s.now)]
    case SkipPage(h) => s.db.leases[s.jobs[h].id := SetAside(s.db.leases[s.jobs[h].id])]
    case _ => s.db.leases
  }

  /** The tables after a move. */
  function TablesAfter(s: State, m: Move, hostOf: string -> string): Db
    requires CanMove(s, m)
  {
    if Grown(m) then GrownTables(s, m, hostOf)
    else if m.Complete? then
      var j := s.jobs[m.h];
      CompleteUrl(s.db, j.host, j.id, m.simhash, j.stage.text, RawKey(j.host, j.id), TextKey(j.host, j.id), s.now)
    else if m.FailPage? then FailPartly(s.db, s.jobs[m.h].host, s.jobs[m.h].id, s.now, m.counted)
    else s.db.(leases := LeasesAfter(s, m))
  }

  /** The same move as the lease queue sees it. */
  function LeaseStep(s: State, m: Move, hostOf: string -> string): Step
    requires CanMove(s, m)
  {
    match m
    case Clock(to) => Tick(to)
    case SeedAll(_) => Insert(NewRows(s.db, TablesAfter(s, m, hostOf)))
    case AddFound(_, _) => Insert(NewRows(s.db, TablesAfter(s, m, hostOf)))
    case Feed(_) => Insert(NewRows(s.db, TablesAfter(s, m, hostOf)))
    case FeedFound(_, _) => Insert(NewRows(s.db, TablesAfter(s, m, hostOf)))
    case ClaimUrl(h, w, id, n) => Take(h, w, id, n)
    case RenewLease(h, n) => Extend(h, n)
    case ReapLeases => ReapAll
    case Complete(h, _) => Finish(h)
    case Unchanged(h) => Finish(h)
    case SkipPage(h) => Drop(h)
    case FailPage(h, _) => Error(h)
    case Crash(h) => Die(h)
    case _ => Tick(s.now)
  }

  predicate MoveEnabled(s: State, m: Move, hostOf: string -> string) {
    CanMove(s, m) && Enabled(QueueOf(s), LeaseStep(s, m, hostOf))
  }

  function JobsAfter(s: State, m: Move): map<nat, Job>
    requires CanMove(s, m)
  {
    match m
    case ClaimUrl(h, w, id, n) =>
      var r := s.db.urls[id];
      s.jobs[h := Job(id, s.db.domains[r.domain].host, r.depth, Working)]
    case PutRaw(h, body) => s.jobs[h := s.jobs[h].(stage := RawStored(body))]
    case PutText(h, text) => s.jobs[h := s.jobs[h].(stage := Stored(s.jobs[h].stage.body, text))]
    case Complete(h, x) => s.jobs[h := s.jobs[h].(stage := Committed)]
    case Unchanged(h) => s.jobs - {h}
    case SkipPage(h) => s.jobs - {h}
    case FailPage(h, _) => s.jobs - {h}
    case Crash(h) => s.jobs - {h}
    case AddFound(h, links) => s.jobs - {h}
    case Leave(h) => s.jobs - {h}
    case _ => s.jobs
  }

  function StoreAfter(s: State, m: Move): map<Key, string>
    requires CanMove(s, m)
  {
    match m
    case PutRaw(h, body) => s.store[RawKey(s.jobs[h].host, s.jobs[h].id) := body]
    case PutText(h, text) => s.store[TextKey(s.jobs[h].host, s.jobs[h].id) := text]
    case ScrapePut(k, body) => s.store[RawKey(s.scrapers[k].host, s.scrapers[k].target) := body]
    case _ => s.store
  }

  function ExpandedAfter(s: State, m: Move): set<nat>
    requires CanMove(s, m)
  {
    if m.AddFound? then s.expanded + {s.jobs[m.h].id} else s.expanded
  }

  function Do(s: State, m: Move, hostOf: string -> string): State
    requires MoveEnabled(s, m, hostOf)
  {
    var q := Next(QueueOf(s), LeaseStep(s, m, hostOf));
    State(
      TablesAfter(s, m, hostOf), q.now, q.holders, q.past, JobsAfter(s, m), StoreAfter(s, m),
      match m
      case ScrapeStart(k, target, host) => s.scrapers[k := ScrapeJob(target, host, None)]
      case ScrapePut(k, body) =>
        s.scrapers[k := s.scrapers[k].(raw := Some(RawKey(s.scrapers[k].host, s.scrapers[k].target)))]
      case ScrapeCommit(k) => s.scrapers - {k}
      case _ => s.scrapers,
      if m.ScrapeCommit? then s.records[s.scrapers[m.k].target := s.scrapers[m.k].raw] else s.records,
      ExpandedAfter(s, m),
      if m.SeedAll? then s.seeds + |m.urls| else s.seeds)
  }

  ghost predicate Start(s: State) {
    && s.db == EMPTY && s.holders == map[] && s.past == map[] && s.jobs == map[] && s.scrapers == map[]
    && s.records == map[] && s.expanded == {} && s.seeds == 0
  }

  ghost predicate CrawlRun(ss: seq<State>, ms: seq<Move>, hostOf: string -> string) {
    && |ss| == |ms| + 1 && Start(ss[0])
    && forall i | 0 <= i < |ms| :: MoveEnabled(ss[i], ms[i], hostOf) && ss[i + 1] == Do(ss[i], ms[i], hostOf)
  }

  predicate NoLapse(s: State) {
    LapseFree(QueueOf(s))
  }

  ghost predicate LapseFreeCrawl(ss: seq<State>, ms: seq<Move>, hostOf: string -> string) {
    CrawlRun(ss, ms, hostOf) && forall i | 0 <= i < |ss| :: NoLapse(ss[i])
  }

  // ---------------------------------------------------------------- what every run keeps

  /** The jobs are those of the tables, and the ones before their terminal call are the holders of the queue. */
  ghost predicate OfTables(db: Db, j: Job) {
    && j.id in db.urls && j.depth == db.urls[j.id].depth
    && db.urls[j.id].domain in db.domains && j.host == db.domains[db.urls[j.id].domain].host
  }

  ghost predicate InQueue(holders: map<nat, Holder>, h: nat, j: Job) {
    (h in holders <==> !j.stage.Committed?) && (h in holders ==> holders[h].id == j.id)
  }

  ghost predicate JobOk(s: State, h: nat)
    requires h in s.jobs
  {
    OfTables(s.db, s.jobs[h]) && InQueue(s.holders, h, s.jobs[h])
  }

  ghost predicate Matched(s: State) {
    && Sound(s.db) && s.past.Keys == s.db.urls.Keys
    && (forall h | h in s.jobs :: JobOk(s, h))
    && (forall h | h in s.holders :: h in s.jobs)
  }

  function BirthDepth(s: State, m: Move): nat
    requires CanMove(s, m) && Grown(m)
  {
    if m.AddFound? then s.jobs[m.h].depth + 1 else 0
  }

  datatype Gain = Rules | NewRowsOnly | Edges | Limit

  ghost predicate Gains(a: Db, b: Db, from: Option<nat>, most: Option<nat>, depth: nat, now: Time,
                        hostOf: string -> string, gain: Gain)
  {
    match gain
    case Rules => Sound(b)
    case NewRowsOnly => Grows(a, b, depth, now, hostOf)
    case Edges => from.Some? ==> LinkedFrom(a, b, from.value)
    case Limit => most.Some? ==> |NewRows(a, b)| <= most.value
  }

  /** What a move that discovers urls makes of the tables `a`. */
  ghost predicate GrownFrom(a: Db, b: Db, from: Option<nat>, most: Option<nat>, depth: nat, now: Time,
                            hostOf: string -> string)
  {
    forall gain :: Gains(a, b, from, most, depth, now, hostOf, gain)
  }

  lemma MoveGrows(s: State, m: Move, hostOf: string -> string)
    requires Matched(s) && CanMove(s, m) && Grown(m)
    ensures Sound(TablesAfter(s, m, hostOf))
    ensures Grows(s.db, TablesAfter(s, m, hostOf), BirthDepth(s, m), s.now, hostOf)
    ensures m.AddFound? ==> LinkedFrom(s.db, TablesAfter(s, m, hostOf), s.jobs[m.h].id)
                            && |NewRows(s.db, TablesAfter(s, m, hostOf))| <= |m.links|
    ensures m.SeedAll? ==> |NewRows(s.db, TablesAfter(s, m, hostOf))| <= |m.urls|
  {
    var b := TablesAfter(s, m, hostOf);
    assert m.AddFound? ==> JobOk(s, m.h);
    GrownTablesGrow(s, m, b, hostOf);
    assert Gains(s.db, b, From(s, m), Most(m), BirthDepth(s, m), s.now, hostOf, Rules);
    assert Gains(s.db, b, From(s, m), Most(m), BirthDepth(s, m), s.now, hostOf, NewRowsOnly);
    assert Gains(s.db, b, From(s, m), Most(m), BirthDepth(s, m), s.now, hostOf, Edges);
    assert Gains(s.db, b, From(s, m), Most(m), BirthDepth(s, m), s.now, hostOf, Limit);
  }

  /** The page the discovered urls are linked from, if that is recorded for all of them. */
  function From(s: State, m: Move): Option<nat>
    requires CanMove(s, m)
  {
    if m.AddFound? then Some(s.jobs[m.h].id) else None
  }

  /** How many urls a move may discover, if that is limited. */
  function Most(m: Move): Option<nat> {
    if m.AddFound? then Some(|m.links|) else if m.SeedAll? then Some(|m.urls|) else None
  }

  lemma GrownTablesGrow(s: State, m: Move, b: Db, hostOf: string -> string)
    requires CanMove(s, m) && Grown(m) && b == GrownTables(s, m, hostOf)
    requires Sound(s.db) && (m.AddFound? ==> s.jobs[m.h].id in s.db.urls)
    ensures GrownFrom(s.db, b, From(s, m), Most(m), BirthDepth(s, m), s.now, hostOf)
  {
    if m.AddFound? {
      FoundGrows(s.db, m.links, s.jobs[m.h].id, s.jobs[m.h].depth + 1, s.now, b, hostOf);
    } else {
      OthersGrow(s.db, m, s.now, b, hostOf);
    }
  }

  lemma FoundGrows(db: Db, links: seq<Link>, from: nat, depth: nat, now: Time, b: Db, hostOf: string -> string)
    requires Sound(db) && from in db.urls && b == AddLinks(db, links, from, depth, now, hostOf).0
    ensures GrownFrom(db, b, Some(from), Some(|links|), depth, now, hostOf)
  {
    AddLinksGrows(db, links, from, depth, now, hostOf);
  }

  lemma SeedGrows(db: Db, urls: seq<string>, now: Time, b: Db, hostOf: string -> string)
    requires Sound(db) && b == SeedUrls(db, urls, now, hostOf).0
    ensures GrownFrom(db, b, None, Some(|urls|), 0, now, hostOf)
  {
    SeedUrlsGrows(db, urls, now, hostOf);
  }

  lemma FeedGrows(db: Db, origin: string, now: Time, b: Db, hostOf: string -> string)
    requires Sound(db) && b == FeedOrigin(db, origin, now, hostOf)
    ensures GrownFrom(db, b, None, None, 0, now, hostOf)
  {
    FeedOriginGrows(db, origin, now, hostOf);
  }

  lemma FeedFoundGrows(db: Db, from: nat, links: seq<Link>, now: Time, b: Db, hostOf: string -> string)
    requires Sound(db) && from in db.urls && b == AddLinks(db, links, from, 0, now, hostOf).0
    ensures GrownFrom(db, b, None, None, 0, now, hostOf)
  {
    AddLinksGrows(db, links, from, 0, now, hostOf);
  }

  lemma OthersGrow(db: Db, m: Move, now: Time, b: Db, hostOf: string -> string)
    requires Sound(db) && Grown(m) && !m.AddFound? && (m.FeedFound? ==> m.from in db.urls)
    requires m.SeedAll? ==> b == SeedUrls(db, m.urls, now, hostOf).0
    requires m.Feed? ==> b == FeedOrigin(db, m.origin, now, hostOf)
    requires m.FeedFound? ==> b == AddLinks(db, m.links, m.from, 0, now, hostOf).0
    ensures GrownFrom(db, b, None, Most(m), 0, now, hostOf)
  {
    if m.SeedAll? {
      SeedGrows(db, m.urls, now, b, hostOf);
    } else if m.Feed? {
      FeedGrows(db, m.origin, now, b, hostOf);
    } else {
      FeedFoundGrows(db, m.from, m.links, now, b, hostOf);
    }
  }

  predicate Ends(m: Move) {
    m.Complete? || m.Unchanged? || m.SkipPage? || m.FailPage?
  }

  lemma BirthsFollow(s: State, m: Move, hostOf: string -> string)
    requires Matched(s) && MoveEnabled(s, m, hostOf) && Grown(m)
    ensures TablesAfter(s, m, hostOf).leases == InsertAll(s.db.leases, NewRows(s.db, TablesAfter(s, m, hostOf)), s.now)
  {
    MoveGrows(s, m, hostOf);
    LeasesGrowByInsertion(s.db, TablesAfter(s, m, hostOf), BirthDepth(s, m), s.now, hostOf);
  }

  lemma EndsFollow(s: State, m: Move, hostOf: string -> string)
    requires Matched(s) && MoveEnabled(s, m, hostOf) && Ends(m)
    ensures TablesAfter(s, m, hostOf).leases == Next(QueueOf(s), LeaseStep(s, m, hostOf)).rows
  {
    assert JobOk(s, m.h);
  }

  /** The lease columns of the tables move exactly as the lease queue does. */
  lemma LeasesFollow(s: State, m: Move, hostOf: string -> string)
    requires Matched(s) && MoveEnabled(s, m, hostOf)
    ensures TablesAfter(s, m, hostOf).leases == Next(QueueOf(s), LeaseStep(s, m, hostOf)).rows
    ensures QueueOf(Do(s, m, hostOf)) == Next(QueueOf(s), LeaseStep(s, m, hostOf))
  {
    if Grown(m) {
      BirthsFollow(s, m, hostOf);
    } else if Ends(m) {
      EndsFollow(s, m, hostOf);
    } else {
      OthersFollow(s, m, hostOf);
    }
    ColumnsFollow(s, m, hostOf);
  }

  lemma OthersFollow(s: State, m: Move, hostOf: string -> string)
    requires Matched(s) && MoveEnabled(s, m, hostOf) && !Grown(m) && !Ends(m)
    ensures TablesAfter(s, m, hostOf).leases == Next(QueueOf(s), LeaseStep(s, m, hostOf)).rows
  {
  }

  lemma ColumnsFollow(s: State, m: Move, hostOf: string -> string)
    requires MoveEnabled(s, m, hostOf)
    requires TablesAfter(s, m, hostOf).leases == Next(QueueOf(s), LeaseStep(s, m, hostOf)).rows
    ensures QueueOf(Do(s, m, hostOf)) == Next(QueueOf(s), LeaseStep(s, m, hostOf))
  {
  }
}
