/** How large a lapse-free crawl can grow and how long it can go on, when a page has at most `b` links. */
module CrawlBounds {
  import opened Base
  import opened LeaseQueue
  import LeaseSafety
  import opened Tables
  import opened Growth
  import opened Crawl
  import opened CrawlSafety
  import opened CrawlOnce

  /** 1 + b + ... + b^k */
  function Geometric(b: nat, k: nat): (r: nat)
    ensures r >= 1
  {
    if k == 0 then 1 else 1 + Times(b, Geometric(b, k - 1))
  }

  /** The most rows a seed can lead to, itself among them. */
  ghost predicate SeedTree(b: nat, g: nat) {
    forall levels | levels == MAX_DEPTH :: g == Geometric(b, levels)
  }

  lemma GeometricStep(b: nat, k: nat)
    ensures Geometric(b, k + 1) == 1 + b * Geometric(b, k)
  {
    TimesIsProduct(b, Geometric(b, k));
  }

  lemma {:induction false} GeometricIsSum(b: nat, k: nat)
    ensures Geometric(b, k) == PowerSum(b, k)
  {
    if k > 0 {
      GeometricIsSum(b, k - 1);
      GeometricStep(b, k - 1);
      ShiftPowers(b, k - 1);
    }
  }

  function Power(b: nat, i: nat): nat { if i == 0 then 1 else b * Power(b, i - 1) }

  /** b^0 + b^1 + ... + b^k */
  function PowerSum(b: nat, k: nat): nat {
    if k == 0 then 1 else PowerSum(b, k - 1) + Power(b, k)
  }

  lemma {:induction false} ShiftPowers(b: nat, k: nat)
    ensures 1 + b * PowerSum(b, k) == PowerSum(b, k + 1)
  {
    if k == 0 {
      assert Power(b, 1) == b * Power(b, 0);
    } else {
      ShiftPowers(b, k - 1);
      Distribute(b, PowerSum(b, k - 1), Power(b, k));
    }
  }

  lemma Distribute(b: nat, x: nat, y: nat)
    ensures b * (x + y) == b * x + b * y
  {
  }

  // ---------------------------------------------------------------- three totals

  /** The rows that may still be discovered below a row. */
  function Below(expanded: set<nat>, id: nat, depth: nat, b: nat): nat {
    if id in expanded || depth > MAX_DEPTH then 0 else Geometric(b, MAX_DEPTH - depth) - 1
  }

  function Future(db: Db, expanded: set<nat>, b: nat): map<nat, int> {
    map id | id in db.urls :: Below(expanded, id, db.urls[id].depth, b)
  }

  function ClaimsLeft(r: Lease): int {
    match r.status
    case Pending => MAX_FAILURES - r.failures
    case Leased => MAX_FAILURES - 1 - r.failures
    case _ => 0
  }

  /** Five units for every claim a row has left, less five for every claim the reaper gave back. */
  function Budget(q: Queue): map<nat, int> {
    map id | id in q.rows && id in q.past :: 5 * ClaimsLeft(q.rows[id]) - 5 * q.past[id].reaps
  }

  /** The steps a handler has left, and one. */
  function Rank(j: Job): int {
    match j.stage case Working => 4 case RawStored(_) => 3 case Stored(_, _) => 2 case Committed => 1
  }

  function Ranks(jobs: map<nat, Job>): map<nat, int> {
    map h | h in jobs :: Rank(jobs[h])
  }

  // ---------------------------------------------------------------- discovery

  ghost predicate Modest(m: Move, b: nat) {
    !m.Feed? && !m.FeedFound? && (m.AddFound? ==> |m.links| <= b)
  }

  lemma ExpandedHaveRows(s: State)
    requires Matched(s) && AllDone(s)
    ensures forall id | id in s.expanded :: id in s.db.urls
  {
    assert Holds(s.db, References);
    forall id | id in s.expanded ensures id in s.db.urls {
      assert DoneRow(s, id);
    }
  }

  lemma NewFuture(a: Db, n: Db, expanded: set<nat>, depth: nat, now: Time, hostOf: string -> string, b: nat, room: int)
    requires Grows(a, n, depth, now, hostOf) && forall id | id in NewRows(a, n) :: Below(expanded, id, depth, b) == room
    requires forall id | id in expanded :: id in a.urls
    ensures Future(n, expanded, b) == Future(a, expanded, b) + map id | id in NewRows(a, n) :: room
  {
    assert GrowsIn(a, n, depth, now, hostOf, Rows);
    assert GrowsIn(a, n, depth, now, hostOf, Births);
    forall id | id in NewRows(a, n) ensures n.urls[id].depth == depth {
      assert BornRight(n, id, depth, hostOf);
    }
  }

  lemma NewRoom(expanded: set<nat>, id: nat, depth: nat, b: nat, levels: nat)
    requires id !in expanded && depth + levels == MAX_DEPTH
    ensures Below(expanded, id, depth, b) == Geometric(b, levels) - 1
  {
    assert MAX_DEPTH - depth == levels;
  }

  lemma BirthsTotal(a: Db, n: Db, expanded: set<nat>, depth: nat, now: Time, hostOf: string -> string, b: nat,
                    levels: nat, room: int)
    requires Grows(a, n, depth, now, hostOf) && depth + levels == MAX_DEPTH && room == Geometric(b, levels) - 1
    requires forall id | id in expanded :: id in a.urls
    ensures Total(Future(n, expanded, b)) == Total(Future(a, expanded, b)) + Times(|NewRows(a, n)|, room)
  {
    forall id | id in NewRows(a, n) ensures Below(expanded, id, depth, b) == room {
      NewRoom(expanded, id, depth, b, levels);
    }
    NewFuture(a, n, expanded, depth, now, hostOf, b, room);
    InsertTotal(Future(a, expanded, b), Future(n, expanded, b), NewRows(a, n), room);
  }

  lemma InsertTotal(m: map<nat, int>, n: map<nat, int>, ids: set<nat>, c: int)
    requires ids !! m.Keys && n == m + map id | id in ids :: c
    ensures Total(n) == Total(m) + Times(|ids|, c)
  {
    TotalInsert(m, ids, c);
  }

  /** A page gives up the room below it for the room its links take. */
  lemma ExpansionTotal(db: Db, expanded: set<nat>, id: nat, b: nat, room: int)
    requires id in db.urls && id !in expanded && db.urls[id].depth < MAX_DEPTH
    requires room == Geometric(b, MAX_DEPTH - db.urls[id].depth) - 1
    ensures Total(Future(db, expanded + {id}, b)) == Total(Future(db, expanded, b)) - room
  {
    assert Future(db, expanded + {id}, b) == Future(db, expanded, b)[id := 0];
    TotalUpdate(Future(db, expanded, b), id, 0);
  }

  lemma Shrink(n: nat, b: nat, g: nat, above: int)
    requires n <= b && above == Times(b, g)
    ensures Times(n, g - 1) - above + n <= 0
  {
    TimesLess(n, g);
    TimesMonotone(n, b, g);
  }

  lemma FoundBirths(db: Db, n: Db, expanded: set<nat>, id: nat, now: Time, hostOf: string -> string, b: nat, g: nat)
    requires id in db.urls && db.urls[id].depth < MAX_DEPTH && g == Geometric(b, MAX_DEPTH - db.urls[id].depth - 1)
    requires Grows(db, n, db.urls[id].depth + 1, now, hostOf)
    requires forall x | x in expanded :: x in db.urls
    ensures Total(Future(n, expanded + {id}, b)) ==
            Total(Future(db, expanded + {id}, b)) + Times(|NewRows(db, n)|, g - 1)
  {
    BirthsTotal(db, n, expanded + {id}, db.urls[id].depth + 1, now, hostOf, b, MAX_DEPTH - db.urls[id].depth - 1, g - 1);
  }

  lemma FoundTotal(db: Db, n: Db, expanded: set<nat>, id: nat, b: nat, g: nat)
    requires id in db.urls && id !in expanded && db.urls[id].depth < MAX_DEPTH && |NewRows(db, n)| <= b
    requires g == Geometric(b, MAX_DEPTH - db.urls[id].depth - 1)
    requires Total(Future(n, expanded + {id}, b)) ==
             Total(Future(db, expanded + {id}, b)) + Times(|NewRows(db, n)|, g - 1)
    ensures Total(Future(n, expanded + {id}, b)) + |NewRows(db, n)| <= Total(Future(db, expanded, b))
  {
    var above := Geometric(b, MAX_DEPTH - db.urls[id].depth) - 1;
    ExpansionTotal(db, expanded, id, b, above);
    Shrink(|NewRows(db, n)|, b, g, above);
  }

  lemma FoundMove(s: State, m: Move, hostOf: string -> string, b: nat)
    requires Matched(s) && CanMove(s, m) && Once(s) && Modest(m, b) && m.AddFound?
    ensures var n := TablesAfter(s, m, hostOf);
            && |n.urls| == |s.db.urls| + |NewRows(s.db, n)|
            && Total(Future(n, ExpandedAfter(s, m), b)) + |NewRows(s.db, n)| <= Total(Future(s.db, s.expanded, b))
  {
    ExpandedHaveRows(s);
    assert JobOk(s, m.h);
    MoveGrows(s, m, hostOf);
    FoundShrinks(s.db, TablesAfter(s, m, hostOf), s.expanded, s.jobs[m.h].id, s.now, hostOf, b);
  }

  lemma FoundShrinks(db: Db, n: Db, expanded: set<nat>, id: nat, now: Time, hostOf: string -> string, b: nat)
    requires id in db.urls && id !in expanded && db.urls[id].depth < MAX_DEPTH && |NewRows(db, n)| <= b
    requires Grows(db, n, db.urls[id].depth + 1, now, hostOf)
    requires forall x | x in expanded :: x in db.urls
    ensures |n.urls| == |db.urls| + |NewRows(db, n)|
    ensures Total(Future(n, expanded + {id}, b)) + |NewRows(db, n)| <= Total(Future(db, expanded, b))
  {
    RowsCount(db, n, db.urls[id].depth + 1, now, hostOf);
    var g := Geometric(b, MAX_DEPTH - db.urls[id].depth - 1);
    FoundBirths(db, n, expanded, id, now, hostOf, b, g);
    FoundTotal(db, n, expanded, id, b, g);
  }

  lemma SeedMove(s: State, m: Move, hostOf: string -> string, b: nat, g: nat)
    requires Matched(s) && CanMove(s, m) && Once(s) && m.SeedAll? && SeedTree(b, g)
    ensures var n := TablesAfter(s, m, hostOf);
            && |n.urls| == |s.db.urls| + |NewRows(s.db, n)| && |NewRows(s.db, n)| <= |m.urls|
            && Total(Future(n, s.expanded, b)) == Total(Future(s.db, s.expanded, b)) + Times(|NewRows(s.db, n)|, g - 1)
  {
    ExpandedHaveRows(s);
    MoveGrows(s, m, hostOf);
    BirthsCount(s.db, TablesAfter(s, m, hostOf), s.expanded, BirthDepth(s, m), s.now, hostOf, b, MAX_DEPTH, g);
  }

  lemma BirthsCount(a: Db, n: Db, expanded: set<nat>, depth: nat, now: Time, hostOf: string -> string, b: nat,
                    levels: nat, g: nat)
    requires Grows(a, n, depth, now, hostOf) && depth + levels == MAX_DEPTH && g == Geometric(b, levels)
    requires forall id | id in expanded :: id in a.urls
    ensures |n.urls| == |a.urls| + |NewRows(a, n)|
    ensures Total(Future(n, expanded, b)) == Total(Future(a, expanded, b)) + Times(|NewRows(a, n)|, g - 1)
  {
    RowsCount(a, n, depth, now, hostOf);
    BirthsTotal(a, n, expanded, depth, now, hostOf, b, levels, g - 1);
  }

  lemma RowsCount(a: Db, b: Db, depth: nat, now: Time, hostOf: string -> string)
    requires Grows(a, b, depth, now, hostOf)
    ensures |b.urls| == |a.urls| + |NewRows(a, b)|
  {
    GrowthKeepsKeys(a, b, depth, now, hostOf);
    KeysCount(a.urls, b.urls);
  }

  lemma GrowthKeepsKeys(a: Db, b: Db, depth: nat, now: Time, hostOf: string -> string)
    requires Grows(a, b, depth, now, hostOf)
    ensures a.urls.Keys <= b.urls.Keys
  {
    assert GrowsIn(a, b, depth, now, hostOf, Rows);
  }

  lemma KeysCount(a: map<nat, UrlRow>, b: map<nat, UrlRow>)
    requires a.Keys <= b.Keys
    ensures |b| == |a| + |b.Keys - a.Keys|
  {
    assert |b.Keys| == |b| && |a.Keys| == |a|;
    assert b.Keys == a.Keys + (b.Keys - a.Keys);
  }

  lemma SameFuture(s: State, m: Move, hostOf: string -> string, b: nat)
    requires Matched(s) && MoveEnabled(s, m, hostOf) && !Grown(m)
    ensures var n := TablesAfter(s, m, hostOf);
            Future(n, ExpandedAfter(s, m), b) == Future(s.db, s.expanded, b) && |n.urls| == |s.db.urls|
  {
    SameRows(s, m, hostOf);
    assert TablesAfter(s, m, hostOf).urls.Keys == s.db.urls.Keys;
    assert |TablesAfter(s, m, hostOf).urls.Keys| == |TablesAfter(s, m, hostOf).urls|;
  }

  lemma SameRows(s: State, m: Move, hostOf: string -> string)
    requires Matched(s) && MoveEnabled(s, m, hostOf) && !Grown(m)
    ensures var n := TablesAfter(s, m, hostOf);
            n.urls.Keys == s.db.urls.Keys && forall id | id in n.urls :: n.urls[id].depth == s.db.urls[id].depth
  {
    if m.Complete? {
      assert JobOk(s, m.h);
    } else if m.FailPage? {
      FailKeepsRows(s.db, s.jobs[m.h].host, s.jobs[m.h].id, s.now, m.counted);
    } else {
      OnlyLeasesMove(s, m, hostOf);
    }
  }

  // ---------------------------------------------------------------- size

  /** The rows there are and the rows there may still be never exceed the trees below the seeds. */
  ghost predicate Fits(s: State, b: nat, g: nat) {
    |s.db.urls| + Total(Future(s.db, s.expanded, b)) <= Times(s.seeds, g)
  }

  lemma SeedsFit(s: State, m: Move, hostOf: string -> string, b: nat, n: State, g: nat)
    requires Matched(s) && CanMove(s, m) && Once(s) && m.SeedAll? && Fits(s, b, g) && SeedTree(b, g)
    requires n.db == TablesAfter(s, m, hostOf) && n.expanded == s.expanded && n.seeds == s.seeds + |m.urls|
    ensures Fits(n, b, g)
  {
    SeedMove(s, m, hostOf, b, g);
    SeedRoom(s, n, |NewRows(s.db, n.db)|, |m.urls|, b, g);
  }

  lemma FitsKept(s: State, m: Move, hostOf: string -> string, b: nat, n: State, g: nat)
    requires Matched(s) && MoveEnabled(s, m, hostOf) && Once(s) && Modest(m, b)
    requires Fits(s, b, g) && SeedTree(b, g)
    requires n.db == TablesAfter(s, m, hostOf) && n.expanded == ExpandedAfter(s, m)
    requires n.seeds == s.seeds + if m.SeedAll? then |m.urls| else 0
    ensures Fits(n, b, g)
  {
    if m.SeedAll? {
      SeedsFit(s, m, hostOf, b, n, g);
    } else if m.AddFound? {
      FoundMove(s, m, hostOf, b);
    } else {
      SameFuture(s, m, hostOf, b);
    }
  }

  lemma SeedRoom(s: State, n: State, born: nat, asked: nat, b: nat, g: nat)
    requires Fits(s, b, g) && born <= asked && n.seeds == s.seeds + asked && |n.db.urls| == |s.db.urls| + born
    requires Total(Future(n.db, n.expanded, b)) == Total(Future(s.db, s.expanded, b)) + Times(born, g - 1)
    ensures Fits(n, b, g)
  {
    TimesLess(born, g);
    TimesMonotone(born, asked, g);
    TimesSum(s.seeds, asked, g);
  }

  ghost predicate ModestRun(ss: seq<State>, ms: seq<Move>, hostOf: string -> string, b: nat) {
    LapseFreeCrawl(ss, ms, hostOf) && forall i | 0 <= i < |ms| :: Modest(ms[i], b)
  }

  lemma {:induction false} RunFits(ss: seq<State>, ms: seq<Move>, hostOf: string -> string, b: nat, i: nat, g: nat)
    requires ModestRun(ss, ms, hostOf, b) && i < |ss| && SeedTree(b, g)
    ensures Fits(ss[i], b, g)
  {
    if i == 0 {
      assert Future(ss[0].db, ss[0].expanded, b) == map[];
    } else {
      RunFits(ss, ms, hostOf, b, i - 1, g);
      RunKeepsOnce(ss, ms, hostOf, i - 1);
      FitsKept(ss[i - 1], ms[i - 1], hostOf, b, ss[i], g);
    }
  }

  lemma FutureIsNatural(db: Db, expanded: set<nat>, b: nat)
    ensures Total(Future(db, expanded, b)) >= 0
  {
    TotalNatural(Future(db, expanded, b));
  }

  /** Bounded crawl: with at most b links on a page and s seeds, without the scraper's feed, the urls table never has
      more than s (1 + b + ... + b^6) rows. */
  lemma FrontierIsBounded(ss: seq<State>, ms: seq<Move>, hostOf: string -> string, b: nat, i: nat)
    requires ModestRun(ss, ms, hostOf, b) && i < |ss|
    ensures |ss[i].db.urls| <= ss[i].seeds * PowerSum(b, 6)
  {
    var g := Geometric(b, MAX_DEPTH);
    RunFits(ss, ms, hostOf, b, i, g);
    SeedTreeSum(ss[i].seeds, b, g);
    FutureIsNatural(ss[i].db, ss[i].expanded, b);
  }

  // ---------------------------------------------------------------- duration

  /** The moves that make a handler or a url progress; time, renewals, the reaper and the scraper are not among them. */
  predicate Productive(m: Move) {
    m.ClaimUrl? || m.PutRaw? || m.PutText? || m.Complete? || m.Unchanged? || m.SkipPage? || m.FailPage? || m.Crash?
    || m.AddFound? || m.Leave?
  }

  ghost function Energy(s: State, b: nat): int {
    Total(Budget(QueueOf(s))) + 25 * Total(Future(s.db, s.expanded, b)) + Total(Ranks(s.jobs))
  }

  /** What one step does to the claim budget of the queue. */
  function Cost(q: Queue, step: Step): int {
    match step
    case Take(_, _, _, _) => 5
    case Insert(ids) => -25 * |ids|
    case _ => 0
  }

  lemma BudgetOfOne(q: Queue, n: Queue, id: nat)
    requires id in q.rows && id in q.past && n.rows.Keys == q.rows.Keys && n.past.Keys == q.past.Keys
    requires forall j | j in q.rows && j != id :: n.rows[j] == q.rows[j]
    requires forall j | j in q.past && j != id :: n.past[j] == q.past[j]
    ensures Total(Budget(n)) == Total(Budget(q)) + Budget(n)[id] - Budget(q)[id]
  {
    assert Budget(n) == Budget(q)[id := Budget(n)[id]];
    TotalUpdate(Budget(q), id, Budget(n)[id]);
  }

  lemma BudgetOfReap(q: Queue)
    requires q.past.Keys == q.rows.Keys
    ensures Budget(Next(q, ReapAll)) == Budget(q)
  {
  }

  lemma BudgetOfInsert(q: Queue, ids: set<nat>)
    requires q.past.Keys == q.rows.Keys && ids !! q.rows.Keys
    ensures Total(Budget(Next(q, Insert(ids)))) == Total(Budget(q)) + 25 * |ids|
  {
    assert Budget(Next(q, Insert(ids))) == Budget(q) + map id | id in ids :: 25;
    TotalInsert(Budget(q), ids, 25);
    TimesIsProduct(|ids|, 25);
  }

  lemma BudgetMoves(q: Queue, step: Step)
    requires LeaseSafety.Inv(q) && Enabled(q, step)
    ensures Total(Budget(Next(q, step))) <= Total(Budget(q)) - Cost(q, step)
  {
    if step.Insert? {
      BudgetOfInsert(q, step.ids);
    } else if step.ReapAll? {
      BudgetOfReap(q);
    } else if step.Tick? {
      assert Budget(Next(q, step)) == Budget(q);
    } else {
      var id := if step.Take? then step.id else q.holders[step.h].id;
      assert LeaseSafety.RowFacts(q, id);
      BudgetOfRow(q, step, id);
    }
  }

  lemma BudgetOfRow(q: Queue, step: Step, id: nat)
    requires LeaseSafety.Exclusive(q) && q.past.Keys == q.rows.Keys && Enabled(q, step)
    requires !step.Insert? && !step.ReapAll? && !step.Tick?
    requires id == if step.Take? then step.id else q.holders[step.h].id
    requires RowOk(q.rows[id])
    ensures Total(Budget(Next(q, step))) <= Total(Budget(q)) - Cost(q, step)
  {
    BudgetOfOne(q, Next(q, step), id);
  }

  lemma RanksMove(s: State, m: Move)
    requires CanMove(s, m)
    ensures Total(Ranks(JobsAfter(s, m))) <= Total(Ranks(s.jobs)) + RankCost(m)
  {
    var r, n := Ranks(s.jobs), Ranks(JobsAfter(s, m));
    if m.ClaimUrl? {
      assert n == r[m.h := 4];
      TotalUpdate(r, m.h, 4);
    } else if m.PutRaw? || m.PutText? || m.Complete? {
      assert n == r[m.h := r[m.h] - 1];
      TotalUpdate(r, m.h, r[m.h] - 1);
    } else if Productive(m) {
      assert n == r - {m.h};
      TotalRemove(r, m.h);
    }
  }

  function RankCost(m: Move): int {
    if m.ClaimUrl? then 4 else if Productive(m) then -1 else 0
  }

  lemma BudgetFollows(s: State, m: Move, hostOf: string -> string, n: State)
    requires Matched(s) && MoveEnabled(s, m, hostOf) && LeaseSafety.Inv(QueueOf(s)) && n == Do(s, m, hostOf)
    ensures Total(Budget(QueueOf(n))) <= Total(Budget(QueueOf(s))) - BudgetCost(s, m, n)
  {
    LeasesFollow(s, m, hostOf);
    StepCost(s, m, hostOf);
    BudgetOfStep(QueueOf(s), LeaseStep(s, m, hostOf), QueueOf(n), BudgetCost(s, m, n));
  }

  lemma BudgetOfStep(q: Queue, step: Step, n: Queue, cost: int)
    requires LeaseSafety.Inv(q) && Enabled(q, step) && n == Next(q, step) && cost == Cost(q, step)
    ensures Total(Budget(n)) <= Total(Budget(q)) - cost
  {
    BudgetMoves(q, step);
  }

  lemma StepCost(s: State, m: Move, hostOf: string -> string)
    requires MoveEnabled(s, m, hostOf)
    ensures Cost(QueueOf(s), LeaseStep(s, m, hostOf)) == BudgetCost(s, m, Do(s, m, hostOf))
  {
    if Grown(m) {
      assert Do(s, m, hostOf).db == TablesAfter(s, m, hostOf);
      assert LeaseStep(s, m, hostOf) == Insert(NewRows(s.db, TablesAfter(s, m, hostOf)));
    } else {
      PlainCost(s, m, hostOf);
    }
  }

  lemma PlainCost(s: State, m: Move, hostOf: string -> string)
    requires CanMove(s, m) && !Grown(m)
    ensures Cost(QueueOf(s), LeaseStep(s, m, hostOf)) == if m.ClaimUrl? then 5 else 0
  {
  }

  function BudgetCost(s: State, m: Move, n: State): int {
    if m.ClaimUrl? then 5 else if Grown(m) then -25 * |NewRows(s.db, n.db)| else 0
  }

  ghost predicate Spends(s: State, n: State, m: Move, b: nat, grant: nat) {
    Energy(n, b) + (if Productive(m) then 1 else 0) <= Energy(s, b) + grant
  }

  lemma SeedsGrant(s: State, m: Move, hostOf: string -> string, b: nat, n: State, g: nat)
    requires Matched(s) && MoveEnabled(s, m, hostOf) && LeaseSafety.Inv(QueueOf(s)) && Once(s) && m.SeedAll?
    requires n == Do(s, m, hostOf) && SeedTree(b, g)
    ensures Spends(s, n, m, b, 25 * Times(|m.urls|, g))
  {
    SeedMove(s, m, hostOf, b, g);
    RanksMove(s, m);
    BudgetFollows(s, m, hostOf, n);
    Granted(s, n, m, b, |NewRows(s.db, n.db)|, g);
  }

  lemma Granted(s: State, n: State, m: Move, b: nat, born: nat, g: nat)
    requires m.SeedAll? && born <= |m.urls| && n.jobs == s.jobs
    requires Total(Budget(QueueOf(n))) <= Total(Budget(QueueOf(s))) + 25 * born
    requires Total(Future(n.db, n.expanded, b)) == Total(Future(s.db, s.expanded, b)) + Times(born, g - 1)
    ensures Spends(s, n, m, b, 25 * Times(|m.urls|, g))
  {
    TimesLess(born, g);
    TimesMonotone(born, |m.urls|, g);
  }

  lemma FoundSpends(s: State, m: Move, hostOf: string -> string, b: nat, n: State)
    requires Matched(s) && MoveEnabled(s, m, hostOf) && LeaseSafety.Inv(QueueOf(s)) && Once(s)
    requires m.AddFound? && Modest(m, b) && n == Do(s, m, hostOf)
    ensures Spends(s, n, m, b, 0)
  {
    FoundMove(s, m, hostOf, b);
    RanksMove(s, m);
    BudgetFollows(s, m, hostOf, n);
    assert n.expanded == ExpandedAfter(s, m) && n.jobs == JobsAfter(s, m);
  }

  lemma OthersSpend(s: State, m: Move, hostOf: string -> string, b: nat, n: State)
    requires Matched(s) && MoveEnabled(s, m, hostOf) && LeaseSafety.Inv(QueueOf(s)) && Once(s)
    requires !Grown(m) && n == Do(s, m, hostOf)
    ensures Spends(s, n, m, b, 0)
  {
    SameFuture(s, m, hostOf, b);
    RanksMove(s, m);
    BudgetFollows(s, m, hostOf, n);
    assert n.expanded == ExpandedAfter(s, m) && n.jobs == JobsAfter(s, m);
  }

  function CountProductive(ms: seq<Move>): nat
    decreases |ms|
  {
    if ms == [] then 0 else CountProductive(ms[..|ms| - 1]) + if Productive(ms[|ms| - 1]) then 1 else 0
  }

  lemma StepSpends(s: State, m: Move, hostOf: string -> string, b: nat, n: State, g: nat)
    requires Matched(s) && MoveEnabled(s, m, hostOf) && LeaseSafety.Inv(QueueOf(s)) && Once(s) && Modest(m, b)
    requires n == Do(s, m, hostOf) && SeedTree(b, g)
    ensures Energy(n, b) - 25 * Times(n.seeds, g) + (if Productive(m) then 1 else 0)
            <= Energy(s, b) - 25 * Times(s.seeds, g)
  {
    if m.SeedAll? {
      SeedsGrant(s, m, hostOf, b, n, g);
      TimesSum(s.seeds, |m.urls|, g);
    } else if m.AddFound? {
      FoundSpends(s, m, hostOf, b, n);
    } else {
      OthersSpend(s, m, hostOf, b, n);
    }
  }

  lemma NoEnergyYet(s: State, b: nat)
    requires Start(s)
    ensures Energy(s, b) == 0
  {
    assert Future(s.db, s.expanded, b) == map[] && Budget(QueueOf(s)) == map[] && Ranks(s.jobs) == map[];
  }

  /** Every productive move is paid for by a seed. */
  lemma {:induction false} RunSpends(ss: seq<State>, ms: seq<Move>, hostOf: string -> string, b: nat, i: nat, g: nat)
    requires ModestRun(ss, ms, hostOf, b) && i < |ss| && SeedTree(b, g)
    ensures CountProductive(ms[..i]) + Energy(ss[i], b) <= 25 * Times(ss[i].seeds, g)
  {
    if i == 0 {
      NoEnergyYet(ss[0], b);
    } else {
      RunSpends(ss, ms, hostOf, b, i - 1, g);
      CountOneMore(ms, i - 1);
      RunStepSpends(ss, ms, hostOf, b, i - 1, ss[i], g);
    }
  }

  lemma RunStepSpends(ss: seq<State>, ms: seq<Move>, hostOf: string -> string, b: nat, i: nat, n: State, g: nat)
    requires ModestRun(ss, ms, hostOf, b) && i < |ms| && n == ss[i + 1] && SeedTree(b, g)
    ensures Energy(n, b) - 25 * Times(n.seeds, g) + (if Productive(ms[i]) then 1 else 0)
            <= Energy(ss[i], b) - 25 * Times(ss[i].seeds, g)
  {
    RunKeepsOnce(ss, ms, hostOf, i);
    StepSpends(ss[i], ms[i], hostOf, b, n, g);
  }

  lemma CountOneMore(ms: seq<Move>, i: nat)
    requires i < |ms|
    ensures CountProductive(ms[..i + 1]) == CountProductive(ms[..i]) + if Productive(ms[i]) then 1 else 0
  {
    assert ms[..i + 1][..i] == ms[..i];
  }

  /** How many handlers ended without a terminal call. */
  ghost function Deaths(s: State): int {
    Total(map id | id in s.past :: 5 * s.past[id].deaths)
  }

  lemma BudgetAboveDeaths(s: State)
    requires LeaseSafety.Inv(QueueOf(s))
    ensures Total(Budget(QueueOf(s))) + Deaths(s) >= 0
  {
    var q := QueueOf(s);
    var low: map<nat, int> := map id | id in q.rows && id in q.past :: -5 * q.past[id].deaths;
    forall id | id in low ensures low[id] <= Budget(q)[id] {
      assert LeaseSafety.RowFacts(q, id);
    }
    TotalMonotone(low, Budget(q));
    var deaths: map<nat, int> := map id | id in s.past :: 5 * s.past[id].deaths;
    TotalNegated(low, deaths);
  }

  lemma {:induction false} TotalNegated(m: map<nat, int>, n: map<nat, int>)
    requires m.Keys == n.Keys && forall k | k in m :: m[k] == -n[k]
    ensures Total(m) == -Total(n)
    decreases |m|
  {
    if m == map[] {
      assert n == map[];
    } else {
      var k :| k in m;
      TotalRemove(m, k);
      TotalRemove(n, k);
      TotalNegated(m - {k}, n - {k});
    }
  }

  /** Bounded work: claims, blob writes, terminal calls, link insertions and exits of handlers together are at most
      25 s (1 + b + ... + b^6), plus five for every handler that died. So a crawl whose handlers stop dying ends. */
  lemma CrawlEnds(ss: seq<State>, ms: seq<Move>, hostOf: string -> string, b: nat, i: nat)
    requires ModestRun(ss, ms, hostOf, b) && i < |ss|
    ensures CountProductive(ms[..i]) <= 25 * (ss[i].seeds * PowerSum(b, 6)) + Deaths(ss[i])
  {
    var g := Geometric(b, MAX_DEPTH);
    RunSpends(ss, ms, hostOf, b, i, g);
    RunKeepsOnce(ss, ms, hostOf, i);
    EnergyAboveDeaths(ss[i], b);
    SeedTreeSum(ss[i].seeds, b, g);
  }

  lemma EnergyAboveDeaths(s: State, b: nat)
    requires LeaseSafety.Inv(QueueOf(s))
    ensures Energy(s, b) + Deaths(s) >= 0
  {
    BudgetAboveDeaths(s);
    FutureIsNatural(s.db, s.expanded, b);
    TotalNatural(Ranks(s.jobs));
  }

  lemma SeedTreeSum(seeds: nat, b: nat, g: nat)
    requires SeedTree(b, g)
    ensures Times(seeds, g) == seeds * PowerSum(b, 6)
  {
    GeometricIsSum(b, 6);
    TimesIsProduct(seeds, g);
  }
}
