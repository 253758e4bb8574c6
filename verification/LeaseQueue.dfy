/** The lease columns of a queue row (db/schema.sql: urls and scrape_targets share them), the statements that
    write them, and one queue with any number of concurrent handlers as a transition system. */
module LeaseQueue {
  import opened Base

  type Time = int  // microseconds, the resolution of timestamptz

  const SECOND: int := 1_000_000
  const MINUTE: int := 60 * SECOND
  const WEEK: int := 7 * 24 * 60 * MINUTE
  const MAX_FAILURES: nat := 5

  datatype Status = Pending | Leased | Done | Failed | Skipped

  datatype Lease = Lease(
    status: Status, owner: Option<string>, expires: Option<Time>, dueAt: Time, attempts: nat, failures: nat)

  // ---------------------------------------------------------------- statements on one row

  function Fresh(now: Time): Lease {
    Lease(Pending, None, None, now, 0, 0)
  }

  predicate Due(r: Lease, now: Time) {
    r.status == Pending && r.dueAt <= now
  }

  function Claimed(r: Lease, worker: string, seconds: int, now: Time): Lease {
    r.(status := Leased, owner := Some(worker), expires := Some(now + seconds * SECOND), attempts := r.attempts + 1)
  }

  predicate HeldBy(r: Lease, worker: string) {
    r.status == Leased && r.owner == Some(worker)
  }

  function Renewed(r: Lease, seconds: int, now: Time): Lease {
    r.(expires := Some(now + seconds * SECOND))
  }

  predicate Expired(r: Lease, now: Time) {
    r.status == Leased && r.expires.Some? && r.expires.value < now
  }

  function Reaped(r: Lease, now: Time): Lease {
    if Expired(r, now) then r.(status := Pending, owner := None, expires := None) else r
  }

  function Settled(r: Lease, now: Time): Lease {
    r.(status := Done, owner := None, expires := None, dueAt := now + WEEK, failures := 0)
  }

  function SetAside(r: Lease): Lease {
    r.(status := Skipped, owner := None, expires := None)
  }

  /** The wait after a failure; `failures` is the count before this failure, as an UPDATE reads its old row. */
  function Backoff(failures: nat): (t: Time)
    ensures t >= MINUTE
  {
    MINUTE * Pow2(Min(failures, 6))
  }

  function FailedOnce(r: Lease, maxFailures: int, now: Time): Lease {
    r.(status := if r.failures + 1 >= maxFailures then Failed else Pending, owner := None, expires := None,
       dueAt := now + Backoff(r.failures), failures := r.failures + 1)
  }

  // ---------------------------------------------------------------- arbitrary calls on one row

  /** A call that reaches one row, from anyone, at any time; terminal calls do not look at the owner. */
  datatype Call =
    | Claim(worker: string, seconds: int)
    | Renew(worker: string, seconds: int)
    | Reap
    | Settle
    | Skip
    | Fail

  function Apply(r: Lease, call: Call, now: Time): Lease {
    match call
    case Claim(w, s) => if Due(r, now) then Claimed(r, w, s, now) else r
    case Renew(w, s) => if HeldBy(r, w) then Renewed(r, s, now) else r
    case Reap => Reaped(r, now)
    case Settle => Settled(r, now)
    case Skip => SetAside(r)
    case Fail => FailedOnce(r, MAX_FAILURES, now)
  }

  function Replay(r: Lease, calls: seq<(Call, Time)>): Lease
    decreases |calls|
  {
    if calls == [] then r else Replay(Apply(r, calls[0].0, calls[0].1), calls[1..])
  }

  predicate RowOk(r: Lease) {
    && (r.status == Leased <==> r.owner.Some? && r.expires.Some?)
    && (r.owner.Some? <==> r.expires.Some?)
    && (r.status == Pending || r.status == Leased ==> r.failures < MAX_FAILURES)
    && (r.status == Failed ==> r.failures >= MAX_FAILURES)
  }

  lemma {:induction false} ReplayKeepsRowOk(r: Lease, calls: seq<(Call, Time)>)
    requires RowOk(r)
    ensures RowOk(Replay(r, calls))
    decreases |calls|
  {
    if calls != [] {
      ReplayKeepsRowOk(Apply(r, calls[0].0, calls[0].1), calls[1..]);
    }
  }

  /** Whatever stale, repeated or misdirected calls reach a row after its insertion, it stays well formed. */
  lemma RowInvariant(born: Time, calls: seq<(Call, Time)>)
    ensures RowOk(Replay(Fresh(born), calls))
  {
    ReplayKeepsRowOk(Fresh(born), calls);
  }

  predicate Terminal(call: Call) {
    call.Settle? || call.Skip? || call.Fail?
  }

  /** A renewal or a reap at any time, or a claim before the row is pending and due. */
  predicate Idle(r: Lease, call: Call, now: Time) {
    call.Renew? || call.Reap? || (call.Claim? && (r.status != Pending || now < r.dueAt))
  }

  lemma {:induction false} IdleCallsChangeNothing(r: Lease, calls: seq<(Call, Time)>)
    requires r.status != Leased && forall i | 0 <= i < |calls| :: Idle(r, calls[i].0, calls[i].1)
    ensures Replay(r, calls) == r
    decreases |calls|
  {
    if calls != [] {
      assert Idle(r, calls[0].0, calls[0].1);
      assert Apply(r, calls[0].0, calls[0].1) == r;
      IdleCallsChangeNothing(r, calls[1..]);
    }
  }

  /** A terminal call releases the row: no renewal, by whomever, no reap, and no claim changes it any more, except that a
      failure below the limit lets it be claimed again once its backoff is over. */
  lemma TerminalCallReleases(r: Lease, call: Call, now: Time, calls: seq<(Call, Time)>)
    requires Terminal(call) && forall i | 0 <= i < |calls| ::
               calls[i].0.Renew? || calls[i].0.Reap?
               || (calls[i].0.Claim?
                   && (call.Fail? && r.failures + 1 < MAX_FAILURES ==> calls[i].1 < now + Backoff(r.failures)))
    ensures Replay(Apply(r, call, now), calls) == Apply(r, call, now)
    ensures Apply(r, call, now).owner == None && Apply(r, call, now).expires == None
  {
    IdleCallsChangeNothing(Apply(r, call, now), calls);
  }

  // ---------------------------------------------------------------- one queue, many handlers

  /** A handler between its claim and its terminal call; `deadline` is the lease_expires_at it was given. */
  datatype Holder = Holder(worker: string, id: nat, deadline: Time)

  /** What happened to a row so far: the times of its failures, how often it was reaped, how many handlers of
      it ended without a terminal call. */
  datatype History = History(fails: seq<Time>, reaps: nat, deaths: nat)

  datatype Queue = Queue(now: Time, rows: map<nat, Lease>, holders: map<nat, Holder>, past: map<nat, History>)

  datatype Step =
    | Tick(to: Time)
    | Insert(ids: set<nat>)
    | Take(h: nat, worker: string, id: nat, seconds: int)
    | Extend(h: nat, seconds: int)
    | ReapAll
    | Finish(h: nat)
    | Drop(h: nat)
    | Error(h: nat)
    | Die(h: nat)

  predicate Enabled(q: Queue, step: Step) {
    match step
    case Tick(to) => q.now <= to
    case Insert(ids) => ids !! q.rows.Keys
    case Take(h, w, id, s) => h !in q.holders && id in q.rows && id in q.past && Due(q.rows[id], q.now)
    case ReapAll => true
    case _ => step.h in q.holders && q.holders[step.h].id in q.rows && q.holders[step.h].id in q.past
  }

  function Next(q: Queue, step: Step): Queue
    requires Enabled(q, step)
  {
    match step
    case Tick(to) => q.(now := to)
    case Insert(ids) =>
      q.(rows := InsertAll(q.rows, ids, q.now), past := q.past + map id | id in ids :: History([], 0, 0))
    case Take(h, w, id, s) =>
      q.(rows := q.rows[id := Claimed(q.rows[id], w, s, q.now)],
         holders := q.holders[h := Holder(w, id, q.now + s * SECOND)])
    case Extend(h, s) =>
      var k := q.holders[h];
      if HeldBy(q.rows[k.id], k.worker)
      then q.(rows := q.rows[k.id := Renewed(q.rows[k.id], s, q.now)],
              holders := q.holders[h := k.(deadline := q.now + s * SECOND)])
      else q
    case ReapAll =>
      q.(rows := ReapRows(q.rows, q.now),
         past := map id | id in q.past :: if id in q.rows && Expired(q.rows[id], q.now)
                                          then q.past[id].(reaps := q.past[id].reaps + 1) else q.past[id])
    case Finish(h) =>
      var id := q.holders[h].id;
      q.(rows := q.rows[id := Settled(q.rows[id], q.now)], holders := q.holders - {h})
    case Drop(h) =>
      var id := q.holders[h].id;
      q.(rows := q.rows[id := SetAside(q.rows[id])], holders := q.holders - {h})
    case Error(h) =>
      var id := q.holders[h].id;
      q.(rows := q.rows[id := FailedOnce(q.rows[id], MAX_FAILURES, q.now)], holders := q.holders - {h},
         past := q.past[id := q.past[id].(fails := q.past[id].fails + [q.now])])
    case Die(h) =>
      var id := q.holders[h].id;
      q.(holders := q.holders - {h}, past := q.past[id := q.past[id].(deaths := q.past[id].deaths + 1)])
  }

  function InsertAll(rows: map<nat, Lease>, ids: set<nat>, now: Time): map<nat, Lease> {
    rows + map id | id in ids :: Fresh(now)
  }

  function ReapRows(rows: map<nat, Lease>, now: Time): map<nat, Lease> {
    map id | id in rows :: Reaped(rows[id], now)
  }

  /** A run: from an empty queue, every step enabled where it is taken. */
  ghost predicate Run(qs: seq<Queue>, steps: seq<Step>) {
    && |qs| == |steps| + 1
    && qs[0].rows == map[] && qs[0].holders == map[] && qs[0].past == map[]
    && forall i | 0 <= i < |steps| :: Enabled(qs[i], steps[i]) && qs[i + 1] == Next(qs[i], steps[i])
  }

  /** No handler is still at work after its lease has expired. */
  predicate LapseFree(q: Queue) {
    forall h | h in q.holders :: q.now <= q.holders[h].deadline
  }

  ghost predicate LapseFreeRun(qs: seq<Queue>, steps: seq<Step>) {
    Run(qs, steps) && forall i | 0 <= i < |qs| :: LapseFree(qs[i])
  }
}
