/** What every lapse-free run of a lease queue keeps, and why the lapse-free hypothesis cannot be dropped. */
module LeaseSafety {
  import opened Base
  import opened LeaseQueue

  // ---------------------------------------------------------------- the invariant

  predicate HoldsRow(r: Lease, k: Holder) {
    r.status == Leased && r.owner == Some(k.worker) && r.expires == Some(k.deadline)
  }

  /** At most one handler in flight per row, and the row names it and its deadline. */
  predicate Exclusive(q: Queue) {
    && (forall h | h in q.holders :: q.holders[h].id in q.rows && HoldsRow(q.rows[q.holders[h].id], q.holders[h]))
    && (forall h, k | h in q.holders && k in q.holders :: q.holders[h].id == q.holders[k].id ==> h == k)
  }

  predicate Over(r: Lease) {
    r.status == Done || r.status == Failed || r.status == Skipped
  }

  /** Every claim of a row is accounted for by a failure, a reap, or the claim it is now settled or leased by. */
  predicate Accounted(r: Lease, p: History) {
    && (r.status != Done ==> r.failures == |p.fails|)
    && |p.fails| + (if r.status == Leased || r.status == Done || r.status == Skipped then 1 else 0) <= MAX_FAILURES
    && (r.status == Pending ==> |p.fails| < MAX_FAILURES)
    && r.attempts == |p.fails| + p.reaps
                     + if r.status == Leased || r.status == Done || r.status == Skipped then 1 else 0
  }

  /** Consecutive failures are at least a backoff apart, and a pending or leased row respects the last one. */
  predicate Spaced(r: Lease, p: History, now: Time) {
    && (forall i | 0 <= i < |p.fails| - 1 :: p.fails[i] + Backoff(i) <= p.fails[i + 1])
    && ((r.status == Pending || r.status == Leased) && p.fails != [] ==>
          r.dueAt == p.fails[|p.fails| - 1] + Backoff(|p.fails| - 1))
    && (r.status == Leased ==> r.dueAt <= now)
  }

  predicate InFlight(q: Queue, id: nat) {
    exists h | h in q.holders :: q.holders[h].id == id
  }

  /** A leased row without a handler is one whose handler died and which the reaper has not returned yet. */
  predicate RowFacts(q: Queue, id: nat)
    requires id in q.rows && id in q.past
  {
    && RowOk(q.rows[id]) && Accounted(q.rows[id], q.past[id]) && Spaced(q.rows[id], q.past[id], q.now)
    && q.past[id].deaths == q.past[id].reaps + if q.rows[id].status == Leased && !InFlight(q, id) then 1 else 0
  }

  predicate Inv(q: Queue) {
    && Exclusive(q)
    && q.past.Keys == q.rows.Keys
    && forall id | id in q.rows :: RowFacts(q, id)
  }

  // ---------------------------------------------------------------- one step

  lemma TakeKeepsExclusive(q: Queue, step: Step)
    requires Exclusive(q) && step.Take? && Enabled(q, step)
    ensures Exclusive(Next(q, step))
  {
    assert forall k | k in q.holders :: q.holders[k].id != step.id;
  }

  lemma ReapKeepsExclusive(q: Queue)
    requires Exclusive(q) && LapseFree(q)
    ensures Exclusive(Next(q, ReapAll))
  {
    forall h | h in q.holders ensures ReapRows(q.rows, q.now)[q.holders[h].id] == q.rows[q.holders[h].id] {
      assert !Expired(q.rows[q.holders[h].id], q.now);
    }
  }

  lemma StepKeepsExclusive(q: Queue, step: Step)
    requires Exclusive(q) && LapseFree(q) && Enabled(q, step)
    ensures Exclusive(Next(q, step))
  {
    match step
    case Take(_, _, _, _) => TakeKeepsExclusive(q, step);
    case ReapAll => ReapKeepsExclusive(q);
    case Tick(_) =>
    case Insert(_) =>
    case Extend(_, _) =>
    case Finish(_) =>
    case Drop(_) =>
    case Error(_) =>
    case Die(_) =>
  }

  /** A row that no step touches keeps its facts while time passes. */
  lemma Untouched(q: Queue, n: Queue, id: nat)
    requires id in q.rows && id in q.past && RowFacts(q, id)
    requires id in n.rows && id in n.past && n.rows[id] == q.rows[id] && n.past[id] == q.past[id]
    requires q.now <= n.now && InFlight(q, id) == InFlight(n, id)
    ensures RowFacts(n, id)
  {
  }

  lemma OthersInFlight(q: Queue, step: Step, id: nat)
    requires Enabled(q, step)
    requires match step
             case Take(_, _, x, _) => x != id
             case Tick(_) => true case Insert(_) => true case ReapAll => true
             case Extend(_, _) => true
             case _ => q.holders[step.h].id != id
    ensures InFlight(q, id) == InFlight(Next(q, step), id)
  {
    var n := Next(q, step);
    if InFlight(q, id) {
      var h :| h in q.holders && q.holders[h].id == id;
      assert h in n.holders && n.holders[h].id == id;
    }
    if InFlight(n, id) {
      var h :| h in n.holders && n.holders[h].id == id;
      assert h in q.holders && q.holders[h].id == id;
    }
  }

  /** The row a handler makes its terminal call on, or abandons, has no other handler. */
  lemma EndsFlight(q: Queue, step: Step, id: nat)
    requires Exclusive(q) && Enabled(q, step)
    requires step.Finish? || step.Drop? || step.Error? || step.Die?
    requires q.holders[step.h].id == id
    ensures InFlight(q, id) && !InFlight(Next(q, step), id)
  {
  }

  lemma TakeKeepsRow(q: Queue, step: Step)
    requires Exclusive(q) && step.Take? && Enabled(q, step) && RowFacts(q, step.id)
    ensures RowFacts(Next(q, step), step.id)
  {
    assert !InFlight(q, step.id);
    assert Next(q, step).holders[step.h].id == step.id;
  }

  lemma ReapKeepsRow(q: Queue, id: nat)
    requires Exclusive(q) && LapseFree(q) && id in q.rows && id in q.past && RowFacts(q, id)
    ensures RowFacts(Next(q, ReapAll), id)
  {
    OthersInFlight(q, ReapAll, id);
    if Expired(q.rows[id], q.now) {
      assert !InFlight(q, id);
    }
  }

  lemma EndKeepsRow(q: Queue, step: Step, id: nat)
    requires Exclusive(q) && Enabled(q, step) && id in q.rows && id in q.past && RowFacts(q, id)
    requires step.Finish? || step.Drop? || step.Error? || step.Die?
    requires q.holders[step.h].id == id
    ensures RowFacts(Next(q, step), id)
  {
    EndsFlight(q, step, id);
  }

  lemma StepKeepsRow(q: Queue, step: Step, id: nat)
    requires Exclusive(q) && LapseFree(q) && Enabled(q, step)
    requires id in q.rows && id in q.past && RowFacts(q, id)
    ensures id in Next(q, step).rows && id in Next(q, step).past && RowFacts(Next(q, step), id)
  {
    if step.Take? && step.id == id {
      TakeKeepsRow(q, step);
    } else if step.ReapAll? {
      ReapKeepsRow(q, id);
    } else if (step.Finish? || step.Drop? || step.Error? || step.Die?) && q.holders[step.h].id == id {
      EndKeepsRow(q, step, id);
    } else {
      OthersInFlight(q, step, id);
      if !(step.Extend? && q.holders[step.h].id == id) {
        Untouched(q, Next(q, step), id);
      }
    }
  }

  lemma InsertedRow(q: Queue, step: Step, id: nat)
    requires Exclusive(q) && Enabled(q, step) && id !in q.rows && id in Next(q, step).rows
    ensures id in Next(q, step).past && RowFacts(Next(q, step), id)
  {
    assert step.Insert? && !InFlight(q, id);
    OthersInFlight(q, step, id);
  }

  lemma StepKeepsInv(q: Queue, step: Step)
    requires Inv(q) && LapseFree(q) && Enabled(q, step)
    ensures Inv(Next(q, step))
  {
    StepKeepsExclusive(q, step);
    assert Next(q, step).past.Keys == Next(q, step).rows.Keys;
    forall id | id in Next(q, step).rows ensures RowFacts(Next(q, step), id) {
      if id in q.rows {
        StepKeepsRow(q, step, id);
      } else {
        InsertedRow(q, step, id);
      }
    }
  }

  // ---------------------------------------------------------------- whole runs

  lemma {:induction false} RunKeepsInv(qs: seq<Queue>, steps: seq<Step>, i: nat)
    requires LapseFreeRun(qs, steps) && i < |qs|
    ensures Inv(qs[i])
  {
    if i > 0 {
      RunKeepsInv(qs, steps, i - 1);
      StepKeepsInv(qs[i - 1], steps[i - 1]);
    }
  }

  /** Exclusivity: at most one handler in flight per row, and the row records it as its owner. */
  lemma Exclusivity(qs: seq<Queue>, steps: seq<Step>, i: nat)
    requires LapseFreeRun(qs, steps) && i < |qs|
    ensures Exclusive(qs[i])
  {
    RunKeepsInv(qs, steps, i);
  }

  lemma OverStaysPut(q: Queue, step: Step, id: nat)
    requires Inv(q) && LapseFree(q) && Enabled(q, step)
    requires id in q.rows && Over(q.rows[id])
    ensures id in Next(q, step).rows && Next(q, step).rows[id] == q.rows[id]
  {
  }

  /** Absorption: a row that is done, failed or skipped never changes again. */
  lemma {:induction false} Absorbing(qs: seq<Queue>, steps: seq<Step>, i: nat, j: nat, id: nat)
    requires LapseFreeRun(qs, steps) && i <= j < |qs|
    requires id in qs[i].rows && Over(qs[i].rows[id])
    ensures id in qs[j].rows && qs[j].rows[id] == qs[i].rows[id]
  {
    if i < j {
      Absorbing(qs, steps, i, j - 1, id);
      RunKeepsInv(qs, steps, j - 1);
      OverStaysPut(qs[j - 1], steps[j - 1], id);
    }
  }

  /** Bounded work: a row is claimed at most five times more than handlers died on it. */
  lemma ClaimsBounded(qs: seq<Queue>, steps: seq<Step>, i: nat, id: nat)
    requires LapseFreeRun(qs, steps) && i < |qs| && id in qs[i].rows
    ensures id in qs[i].past
    ensures qs[i].rows[id].attempts <= MAX_FAILURES + qs[i].past[id].deaths
    ensures qs[i].rows[id].status == Failed ==> |qs[i].past[id].fails| == MAX_FAILURES
  {
    RunKeepsInv(qs, steps, i);
    assert RowFacts(qs[i], id);
  }

  function BackoffSum(n: nat): Time {
    if n == 0 then 0 else BackoffSum(n - 1) + Backoff(n - 1)
  }

  lemma {:induction false} SpacedSum(r: Lease, p: History, now: Time, k: nat)
    requires Spaced(r, p, now) && k < |p.fails|
    ensures p.fails[k] - p.fails[0] >= BackoffSum(k)
  {
    if k > 0 {
      SpacedSum(r, p, now, k - 1);
      assert p.fails[k - 1] + Backoff(k - 1) <= p.fails[k];
    }
  }

  /** Backoff over a run: between its first and its k-th failure a row waited for all the backoffs between. */
  lemma RetryBackoff(qs: seq<Queue>, steps: seq<Step>, i: nat, id: nat, k: nat)
    requires LapseFreeRun(qs, steps) && i < |qs| && id in qs[i].rows
    requires id in qs[i].past && k < |qs[i].past[id].fails|
    ensures qs[i].past[id].fails[k] - qs[i].past[id].fails[0] >= BackoffSum(k)
  {
    RunKeepsInv(qs, steps, i);
    assert RowFacts(qs[i], id);
    SpacedSum(qs[i].rows[id], qs[i].past[id], qs[i].now, k);
  }

  /** A retired row spent at least fifteen minutes between its first and its last failure. */
  lemma RetirementTakesFifteenMinutes(qs: seq<Queue>, steps: seq<Step>, i: nat, id: nat)
    requires LapseFreeRun(qs, steps) && i < |qs| && id in qs[i].rows && qs[i].rows[id].status == Failed
    ensures id in qs[i].past && |qs[i].past[id].fails| == MAX_FAILURES
    ensures qs[i].past[id].fails[MAX_FAILURES - 1] - qs[i].past[id].fails[0] >= 15 * MINUTE
  {
    ClaimsBounded(qs, steps, i, id);
    RetryBackoff(qs, steps, i, id, MAX_FAILURES - 1);
    assert BackoffSum(4) == BackoffSum(3) + Backoff(3) && BackoffSum(2) == BackoffSum(1) + Backoff(1);
    assert Pow2(0) == 1 && Pow2(1) == 2 && Pow2(2) == 4 && Pow2(3) == 8;
  }

  // ---------------------------------------------------------------- the hypothesis is exact

  /** The reaper, then a claim of the row by another handler, are both possible. */
  predicate CanSteal(q: Queue, h: nat, worker: string, id: nat) {
    Enabled(q, ReapAll) && Enabled(Next(q, ReapAll), Take(h, worker, id, 300))
  }

  /** A reap and a claim can give a row in flight to a second handler exactly when its handler has lapsed. */
  lemma {:induction false} LapseIsExactlyTheGap(q: Queue, k: nat, h: nat, worker: string)
    requires Inv(q) && k in q.holders && h !in q.holders
    ensures CanSteal(q, h, worker, q.holders[k].id) <==> q.now > q.holders[k].deadline
    ensures q.now > q.holders[k].deadline ==>
              !Exclusive(Next(Next(q, ReapAll), Take(h, worker, q.holders[k].id, 300)))
  {
    var id := q.holders[k].id;
    assert RowFacts(q, id);
    if q.now > q.holders[k].deadline {
      var n := Next(Next(q, ReapAll), Take(h, worker, id, 300));
      assert n.holders[k].id == n.holders[h].id && k != h;
    }
  }

  // ---------------------------------------------------------------- runs that reach the limits

  /** One more step of a run. */
  lemma Further(qs: seq<Queue>, steps: seq<Step>, q: Queue, step: Step) returns (longer: seq<Queue>, more: seq<Step>)
    requires Run(qs, steps) && q == qs[|steps|] && Enabled(q, step)
    ensures Run(longer, more) && more == steps + [step] && longer == qs + [Next(q, step)]
    ensures LapseFreeRun(qs, steps) && LapseFree(Next(q, step)) ==> LapseFreeRun(longer, more)
  {
    longer, more := qs + [Next(q, step)], steps + [step];
    forall i | 0 <= i < |more| ensures Enabled(longer[i], more[i]) && longer[i + 1] == Next(longer[i], more[i]) {
    }
    if LapseFreeRun(qs, steps) && LapseFree(Next(q, step)) {
      forall i | 0 <= i < |longer| ensures LapseFree(longer[i]) {
      }
    }
  }

  const NOTHING := Queue(0, map[], map[], map[])

  /** A row that has been claimed n times by handlers that died, and returned by the reaper each time. */
  ghost predicate Returned(q: Queue, n: nat) {
    && q.holders == map[] && q.rows.Keys == {1} && q.past.Keys == {1} && q.rows[1].status == Pending
    && q.rows[1].failures == 0 && q.rows[1].attempts == n && q.rows[1].dueAt <= q.now && q.past[1].deaths == n
  }

  lemma InsertedIsReturned()
    ensures Enabled(NOTHING, Insert({1})) && Returned(Next(NOTHING, Insert({1})), 0) && LapseFree(Next(NOTHING, Insert({1})))
  {
  }

  ghost predicate Abandoned(q: Queue, n: nat) {
    && q.holders == map[] && q.rows.Keys == {1} && q.past.Keys == {1} && q.rows[1].status == Leased
    && q.rows[1].failures == 0 && q.rows[1].attempts == n && q.rows[1].dueAt <= q.now && q.past[1].deaths == n
    && q.rows[1].expires.Some?
  }

  lemma ClaimAndDie(q: Queue, n: nat)
    requires Returned(q, n)
    ensures Enabled(q, Take(0, "w", 1, 300)) && LapseFree(Next(q, Take(0, "w", 1, 300)))
    ensures Enabled(Next(q, Take(0, "w", 1, 300)), Die(0))
    ensures Abandoned(Next(Next(q, Take(0, "w", 1, 300)), Die(0)), n + 1)
  {
  }

  lemma WaitAndReap(q: Queue, n: nat, to: Time)
    requires Abandoned(q, n) && to >= q.now && to > q.rows[1].expires.value
    ensures Enabled(q, Tick(to)) && Enabled(Next(q, Tick(to)), ReapAll)
    ensures Next(q, Tick(to)).holders == map[] && Returned(Next(Next(q, Tick(to)), ReapAll), n)
  {
  }

  /** Deaths are not failures: for every n there is a lapse-free run in which a row is claimed n times by handlers that end
      without a terminal call, and stands there as if it had never been tried. So no bound on claims is free of deaths. */
  lemma {:induction false} DeathsNeverRetire(n: nat) returns (qs: seq<Queue>, steps: seq<Step>)
    ensures LapseFreeRun(qs, steps) && Returned(qs[|steps|], n)
  {
    if n == 0 {
      InsertedIsReturned();
      qs, steps := Further([NOTHING], [], NOTHING, Insert({1}));
    } else {
      qs, steps := DeathsNeverRetire(n - 1);
      qs, steps := OneMoreDeath(qs, steps, n - 1);
    }
  }

  lemma OneMoreDeath(qs: seq<Queue>, steps: seq<Step>, n: nat) returns (longer: seq<Queue>, more: seq<Step>)
    requires LapseFreeRun(qs, steps) && Returned(qs[|steps|], n)
    ensures LapseFreeRun(longer, more) && Returned(longer[|more|], n + 1)
  {
    var q := qs[|steps|];
    ClaimAndDie(q, n);
    longer, more := Further(qs, steps, q, Take(0, "w", 1, 300));
    longer, more := Further(longer, more, longer[|more|], Die(0));
    q := longer[|more|];
    var e := q.rows[1].expires.value;
    var to := if e >= q.now then e + 1 else q.now;
    WaitAndReap(q, n + 1, to);
    longer, more := Further(longer, more, q, Tick(to));
    longer, more := Further(longer, more, longer[|more|], ReapAll);
  }

  /** The row is with handler 0, whose lease is over. */
  ghost predicate Overstayed(q: Queue) {
    && q.holders.Keys == {0} && q.holders[0].id == 1 && q.rows.Keys == {1} && q.past.Keys == {1}
    && Expired(q.rows[1], q.now) && q.rows[1].dueAt <= q.now
  }

  lemma ClaimAndOverstay(q: Queue)
    requires Returned(q, 0) && q.now == 0
    ensures Enabled(q, Take(0, "a", 1, 300)) && Enabled(Next(q, Take(0, "a", 1, 300)), Tick(300 * SECOND + 1))
    ensures Overstayed(Next(Next(q, Take(0, "a", 1, 300)), Tick(300 * SECOND + 1)))
  {
  }

  lemma ReapAndSteal(q: Queue)
    requires Overstayed(q)
    ensures Enabled(q, ReapAll) && Enabled(Next(q, ReapAll), Take(1, "b", 1, 300))
    ensures var n := Next(Next(q, ReapAll), Take(1, "b", 1, 300));
            0 in n.holders && 1 in n.holders && n.holders[0].id == n.holders[1].id
  {
  }

  /** And the gap is real: a run in which one handler outlives its lease ends with two of them on one row. */
  lemma LapsedRun() returns (qs: seq<Queue>, steps: seq<Step>)
    ensures Run(qs, steps)
    ensures steps == [Insert({1}), Take(0, "a", 1, 300), Tick(300 * SECOND + 1)] + [ReapAll, Take(1, "b", 1, 300)]
    ensures 0 in qs[5].holders && 1 in qs[5].holders && qs[5].holders[0].id == qs[5].holders[1].id
  {
    InsertedIsReturned();
    qs, steps := Further([NOTHING], [], NOTHING, Insert({1}));
    ClaimAndOverstay(qs[1]);
    qs, steps := Further(qs, steps, qs[1], Take(0, "a", 1, 300));
    qs, steps := Further(qs, steps, qs[2], Tick(300 * SECOND + 1));
    qs, steps := Stolen(qs, steps);
  }

  lemma Stolen(qs: seq<Queue>, steps: seq<Step>) returns (longer: seq<Queue>, more: seq<Step>)
    requires Run(qs, steps) && Overstayed(qs[|steps|])
    ensures Run(longer, more) && more == steps + [ReapAll, Take(1, "b", 1, 300)]
    ensures var n := longer[|more|]; 0 in n.holders && 1 in n.holders && n.holders[0].id == n.holders[1].id
  {
    ReapAndSteal(qs[|steps|]);
    longer, more := Further(qs, steps, qs[|steps|], ReapAll);
    longer, more := Further(longer, more, longer[|more|], Take(1, "b", 1, 300));
  }
}
