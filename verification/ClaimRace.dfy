/** Concurrent claims, phase by phase: a snapshot of the domains with work, then row by row a lock that skips locked
    rows and re-checks the current version (section 13.2.1 of the PostgreSQL 16 documentation), then one commit. */
module ClaimRace {
  import opened Base
  import opened LeaseQueue

  datatype Row = Row(domain: nat, priority: int, lease: Lease)

  /** A claim transaction: what it saw when it began, the domains it visits in order, where it is, the rows of the
      current domain it has probed, and the rows it holds locks on. */
  datatype Claimer = Claimer(
    worker: string, now: Time, seconds: int, seen: map<nat, Row>, domains: seq<nat>, at: nat, probed: set<nat>,
    picked: seq<nat>)

  datatype World = World(rows: map<nat, Row>, claims: map<nat, Claimer>)

  datatype Step =
    | Begin(t: nat, worker: string, now: Time, seconds: int, domains: seq<nat>)
    | Probe(t: nat, id: nat, free: bool)
    | NextDomain(t: nat)
    | Commit(t: nat)
    | Abort(t: nat)
    | Write(id: nat, lease: Lease)
    | Insert(id: nat, row: Row)

  predicate Increasing(s: seq<nat>) {
    forall i, j | 0 <= i < j < |s| :: s[i] < s[j]
  }

  predicate Claimable(r: Row, now: Time) {
    Due(r.lease, now)
  }

  /** A row of the current domain that the snapshot offers and that was not probed yet. */
  predicate Offered(c: Claimer, id: nat) {
    c.at < |c.domains| && id in c.seen && c.seen[id].domain == c.domains[c.at] && Claimable(c.seen[id], c.now)
    && id !in c.probed
  }

  predicate Ahead(a: Row, b: Row) {
    a.priority > b.priority || (a.priority == b.priority && a.lease.dueAt < b.lease.dueAt)
  }

  /** Some claim transaction holds the row lock. */
  predicate Held(w: World, id: nat) {
    exists t | t in w.claims :: id in w.claims[t].picked
  }

  predicate Enabled(w: World, step: Step) {
    match step
    case Begin(t, _, now, _, domains) =>
      && t !in w.claims && Increasing(domains)
      && forall d | d in domains :: exists id | id in w.rows :: w.rows[id].domain == d && Claimable(w.rows[id], now)
    case Probe(t, id, _) =>
      && t in w.claims && Offered(w.claims[t], id)
      && forall j | j in w.claims[t].seen && Offered(w.claims[t], j) :: !Ahead(w.claims[t].seen[j], w.claims[t].seen[id])
    case NextDomain(t) =>
      && t in w.claims && w.claims[t].at < |w.claims[t].domains|
      && forall j | j in w.claims[t].seen :: !Offered(w.claims[t], j)
    case Commit(t) => t in w.claims && w.claims[t].at == |w.claims[t].domains|
    case Abort(t) => t in w.claims
    case Write(id, _) => id in w.rows && !Held(w, id)
    case Insert(id, _) => id !in w.rows
  }

  /** `free` is false when a transaction other than a claim holds the row; the claim does not wait for it. */
  function Probed(w: World, c: Claimer, id: nat, free: bool): Claimer
    requires c.at < |c.domains|
  {
    if free && !Held(w, id) && id in w.rows && w.rows[id].domain == c.domains[c.at] && Claimable(w.rows[id], c.now)
    then c.(picked := c.picked + [id], at := c.at + 1, probed := {})
    else c.(probed := c.probed + {id})
  }

  function Next(w: World, step: Step): World
    requires Enabled(w, step)
  {
    match step
    case Begin(t, worker, now, seconds, domains) =>
      w.(claims := w.claims[t := Claimer(worker, now, seconds, w.rows, domains, 0, {}, [])])
    case Probe(t, id, free) => w.(claims := w.claims[t := Probed(w, w.claims[t], id, free)])
    case NextDomain(t) => w.(claims := w.claims[t := w.claims[t].(at := w.claims[t].at + 1, probed := {})])
    case Commit(t) =>
      var c := w.claims[t];
      World(map id | id in w.rows :: if id in c.picked
              then w.rows[id].(lease := Claimed(w.rows[id].lease, c.worker, c.seconds, c.now)) else w.rows[id],
            w.claims - {t})
    case Abort(t) => w.(claims := w.claims - {t})
    case Write(id, lease) => w.(rows := w.rows[id := w.rows[id].(lease := lease)])
    case Insert(id, row) => w.(rows := w.rows[id := row])
  }

  ghost predicate Run(ws: seq<World>, steps: seq<Step>) {
    && |ws| == |steps| + 1 && ws[0].claims == map[]
    && forall i | 0 <= i < |steps| :: Enabled(ws[i], steps[i]) && ws[i + 1] == Next(ws[i], steps[i])
  }

  // ---------------------------------------------------------------- what every step keeps

  /** A picked row is still pending, and the picked rows are of increasing domains already visited. */
  ghost predicate PicksOk(rows: map<nat, Row>, c: Claimer) {
    && c.at <= |c.domains| && Increasing(c.domains)
    && (forall id | id in c.picked :: id in rows && rows[id].lease.status == Pending)
    && (forall i | 0 <= i < |c.picked| :: rows[c.picked[i]].domain in c.domains[..c.at])
    && (forall i, j | 0 <= i < j < |c.picked| :: rows[c.picked[i]].domain < rows[c.picked[j]].domain)
  }

  ghost predicate Inv(w: World) {
    && (forall t | t in w.claims :: PicksOk(w.rows, w.claims[t]))
    && (forall t, u, id | t in w.claims && u in w.claims && id in w.claims[t].picked && id in w.claims[u].picked ::
          t == u)
  }

  lemma PickKeepsOk(w: World, c: Claimer, id: nat, free: bool)
    requires PicksOk(w.rows, c) && c.at < |c.domains|
    ensures PicksOk(w.rows, Probed(w, c, id, free))
  {
    var n := Probed(w, c, id, free);
    if n.at == c.at + 1 {
      assert c.domains[..n.at] == c.domains[..c.at] + [c.domains[c.at]];
      forall i | 0 <= i < |c.picked| ensures w.rows[c.picked[i]].domain < c.domains[c.at] {
        var d := w.rows[c.picked[i]].domain;
        var k :| 0 <= k < c.at && c.domains[k] == d;
      }
    }
  }

  lemma SkipKeepsOk(rows: map<nat, Row>, c: Claimer)
    requires PicksOk(rows, c) && c.at < |c.domains|
    ensures PicksOk(rows, c.(at := c.at + 1, probed := {}))
  {
    assert c.domains[..c.at + 1] == c.domains[..c.at] + [c.domains[c.at]];
  }

  /** Rows a claim does not hold may change under it; the ones it holds may not. */
  lemma OthersKeepOk(a: map<nat, Row>, b: map<nat, Row>, c: Claimer)
    requires PicksOk(a, c) && forall id | id in c.picked :: id in b && b[id] == a[id]
    ensures PicksOk(b, c)
  {
    forall i | 0 <= i < |c.picked| ensures c.picked[i] in b && b[c.picked[i]] == a[c.picked[i]] {
      assert c.picked[i] in c.picked;
    }
  }

  lemma HeldRowsStay(w: World, step: Step, t: nat)
    requires Inv(w) && Enabled(w, step) && t in w.claims && !(step.Commit? && step.t == t)
    ensures forall id | id in w.claims[t].picked :: id in Next(w, step).rows && Next(w, step).rows[id] == w.rows[id]
  {
    forall id | id in w.claims[t].picked
      ensures id in Next(w, step).rows && Next(w, step).rows[id] == w.rows[id]
    {
      assert PicksOk(w.rows, w.claims[t]);
      assert Held(w, id);
    }
  }

  lemma StepKeepsPicks(w: World, step: Step, t: nat)
    requires Inv(w) && Enabled(w, step) && t in Next(w, step).claims
    ensures PicksOk(Next(w, step).rows, Next(w, step).claims[t])
  {
    if t in w.claims {
      HeldRowsStay(w, step, t);
      assert PicksOk(w.rows, w.claims[t]);
      if step.Probe? && step.t == t {
        PickKeepsOk(w, w.claims[t], step.id, step.free);
      } else if step.NextDomain? && step.t == t {
        SkipKeepsOk(w.rows, w.claims[t]);
      } else {
        OthersKeepOk(w.rows, Next(w, step).rows, w.claims[t]);
      }
    }
  }

  lemma StepKeepsInv(w: World, step: Step)
    requires Inv(w) && Enabled(w, step)
    ensures Inv(Next(w, step))
  {
    var n := Next(w, step);
    forall t | t in n.claims ensures PicksOk(n.rows, n.claims[t]) {
      StepKeepsPicks(w, step, t);
    }
    forall t, u, id | t in n.claims && u in n.claims && id in n.claims[t].picked && id in n.claims[u].picked
      ensures t == u
    {
      StaysExclusive(w, step, t, u, id);
    }
  }

  lemma StaysExclusive(w: World, step: Step, t: nat, u: nat, id: nat)
    requires Inv(w) && Enabled(w, step)
    requires t in Next(w, step).claims && u in Next(w, step).claims
    requires id in Next(w, step).claims[t].picked && id in Next(w, step).claims[u].picked
    ensures t == u
  {
    if t in w.claims && id in w.claims[t].picked {
      assert Held(w, id);
    }
    if u in w.claims && id in w.claims[u].picked {
      assert Held(w, id);
    }
  }

  lemma {:induction false} RunKeepsInv(ws: seq<World>, steps: seq<Step>, i: nat)
    requires Run(ws, steps) && i < |ws|
    ensures Inv(ws[i])
  {
    if i > 0 {
      RunKeepsInv(ws, steps, i - 1);
      StepKeepsInv(ws[i - 1], steps[i - 1]);
    }
  }

  // ---------------------------------------------------------------- no double claim

  ghost predicate PendingAt(w: World, id: nat) {
    id in w.rows && w.rows[id].lease.status == Pending
  }

  /** The row goes back to pending at some step from i to j - 1. */
  ghost predicate ReturnedBetween(ws: seq<World>, id: nat, i: int, j: int) {
    exists k | i <= k < j :: 0 <= k < |ws| - 1 && !PendingAt(ws[k], id) && PendingAt(ws[k + 1], id)
  }

  lemma {:induction false} ReturnsInBetween(ws: seq<World>, id: nat, i: nat, j: nat)
    requires i <= j < |ws| && !PendingAt(ws[i], id) && PendingAt(ws[j], id)
    ensures ReturnedBetween(ws, id, i, j)
    decreases j
  {
    if !PendingAt(ws[j - 1], id) {
      assert 0 <= j - 1 < |ws| - 1;
    } else {
      ReturnsInBetween(ws, id, i, j - 1);
      var k :| i <= k < j - 1 && 0 <= k < |ws| - 1 && !PendingAt(ws[k], id) && PendingAt(ws[k + 1], id);
    }
  }

  /** Between two claims that return the same url, its row went back to pending. */
  lemma NoDoubleClaim(ws: seq<World>, steps: seq<Step>, i: nat, j: nat, id: nat)
    requires Run(ws, steps) && i < j < |steps| && steps[i].Commit? && steps[j].Commit?
    requires steps[i].t in ws[i].claims && id in ws[i].claims[steps[i].t].picked
    requires steps[j].t in ws[j].claims && id in ws[j].claims[steps[j].t].picked
    ensures ReturnedBetween(ws, id, i + 1, j)
  {
    RunKeepsInv(ws, steps, i);
    RunKeepsInv(ws, steps, j);
    assert PicksOk(ws[i].rows, ws[i].claims[steps[i].t]);
    assert PicksOk(ws[j].rows, ws[j].claims[steps[j].t]);
    ReturnsInBetween(ws, id, i + 1, j);
  }

  /** Every url of a batch was pending at the commit and is leased to the claimer afterwards. */
  lemma BatchWasPending(ws: seq<World>, steps: seq<Step>, i: nat, p: nat)
    requires Run(ws, steps) && i < |steps| && steps[i].Commit? && steps[i].t in ws[i].claims
    requires p < |ws[i].claims[steps[i].t].picked|
    ensures var c := ws[i].claims[steps[i].t];
            && PendingAt(ws[i], c.picked[p])
            && c.picked[p] in ws[i + 1].rows && HeldBy(ws[i + 1].rows[c.picked[p]].lease, c.worker)
  {
    RunKeepsInv(ws, steps, i);
    var c := ws[i].claims[steps[i].t];
    assert PicksOk(ws[i].rows, c);
    assert c.picked[p] in c.picked;
  }

  /** No batch holds two urls of one domain. */
  lemma BatchIsPolite(ws: seq<World>, steps: seq<Step>, i: nat, p: nat, q: nat)
    requires Run(ws, steps) && i < |steps| && steps[i].Commit? && steps[i].t in ws[i].claims
    requires p < q < |ws[i].claims[steps[i].t].picked|
    ensures var c := ws[i].claims[steps[i].t];
            && c.picked[p] in ws[i].rows && c.picked[q] in ws[i].rows
            && ws[i].rows[c.picked[p]].domain < ws[i].rows[c.picked[q]].domain
  {
    RunKeepsInv(ws, steps, i);
    var c := ws[i].claims[steps[i].t];
    assert PicksOk(ws[i].rows, c);
    assert c.picked[p] in c.picked && c.picked[q] in c.picked;
  }

  // ---------------------------------------------------------------- a claim that nobody disturbs

  /** Row id is claimable in domain d, and no other such row of d is ahead of it. */
  ghost predicate BestIn(rows: map<nat, Row>, id: nat, d: nat, now: Time) {
    && id in rows && rows[id].domain == d && Claimable(rows[id], now)
    && forall j | j in rows && rows[j].domain == d && Claimable(rows[j], now) :: !Ahead(rows[j], rows[id])
  }

  /** Only claim t is under way, and it has the best row of each domain it has visited. */
  ghost predicate Undisturbed(w: World, t: nat, rows: map<nat, Row>) {
    && w.claims.Keys == {t} && w.rows == rows
    && var c := w.claims[t];
       && c.seen == rows && c.probed == {} && Increasing(c.domains) && c.at == |c.picked| <= |c.domains|
       && (forall i | 0 <= i < c.at :: BestIn(rows, c.picked[i], c.domains[i], c.now))
       && forall d | d in c.domains :: exists id | id in rows :: rows[id].domain == d && Claimable(rows[id], c.now)
  }

  predicate OwnStep(step: Step, t: nat) {
    (step.Probe? && step.t == t && step.free) || (step.NextDomain? && step.t == t)
  }

  lemma OwnStepKeeps(w: World, step: Step, t: nat, rows: map<nat, Row>)
    requires Undisturbed(w, t, rows) && Enabled(w, step) && OwnStep(step, t)
    ensures Undisturbed(Next(w, step), t, rows)
    ensures Next(w, step).claims[t] == w.claims[t].(picked := Next(w, step).claims[t].picked, at := w.claims[t].at + 1)
  {
    var c := w.claims[t];
    var d := c.domains[c.at];
    assert d in c.domains;
    var some :| some in rows && rows[some].domain == d && Claimable(rows[some], c.now);
    assert Offered(c, some);
    ProbeKeeps(w, step.id, t, rows);
  }

  lemma ProbeKeeps(w: World, id: nat, t: nat, rows: map<nat, Row>)
    requires Undisturbed(w, t, rows) && Enabled(w, Probe(t, id, true))
    ensures Undisturbed(Next(w, Probe(t, id, true)), t, rows)
    ensures Next(w, Probe(t, id, true)).claims[t] == w.claims[t].(picked := w.claims[t].picked + [id], at := w.claims[t].at + 1)
  {
    var c := w.claims[t];
    var d := c.domains[c.at];
    forall i | 0 <= i < c.at ensures c.picked[i] != id {
      assert BestIn(rows, c.picked[i], c.domains[i], c.now);
    }
    forall j | j in rows && rows[j].domain == d && Claimable(rows[j], c.now) ensures !Ahead(rows[j], rows[id]) {
      assert Offered(c, j);
    }
  }

  /** Undisturbed, a claim takes from each of its domains the best row that is pending and due: what the query returns when
      it runs alone. */
  lemma {:induction false} UndisturbedClaim(ws: seq<World>, steps: seq<Step>, b: nat, e: nat, t: nat)
    requires Run(ws, steps) && b < e < |ws| && steps[b].Begin? && steps[b].t == t && ws[b].claims == map[]
    requires forall i | b < i < e :: OwnStep(steps[i], t)
    ensures Undisturbed(ws[e], t, ws[b].rows)
    ensures ws[e].claims[t].domains == steps[b].domains && ws[e].claims[t].now == steps[b].now
    ensures e < |steps| && steps[e] == Commit(t) ==>
              var picked := ws[e].claims[t].picked;
              |picked| == |steps[b].domains|
              && forall i | 0 <= i < |picked| :: BestIn(ws[b].rows, picked[i], steps[b].domains[i], steps[b].now)
    decreases e
  {
    if e > b + 1 {
      UndisturbedClaim(ws, steps, b, e - 1, t);
      OwnStepKeeps(ws[e - 1], steps[e - 1], t, ws[b].rows);
    }
  }
}
