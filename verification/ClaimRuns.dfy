/** A claim of a batch, of urls or of scrape targets, as steps of the lease queue: so what its runs keep holds of the rows
    the claim methods write. */
module ClaimRuns {
  import opened Base
  import opened LeaseQueue
  import LeaseSafety
  import ClaimQuery
  import Frontier

  predicate Repeats<T(==)>(s: seq<T>) {
    exists i, j | 0 <= i < j < |s| :: s[i] == s[j]
  }

  /** One Take for each pick, by the handlers hs. */
  function Takes(hs: seq<nat>, picks: seq<nat>, worker: string, seconds: int): seq<Step>
    requires |hs| == |picks|
  {
    seq(|picks|, i requires 0 <= i < |picks| => Take(hs[i], worker, picks[i], seconds))
  }

  /** A batch that can be claimed in queue q: different rows that are due, and handlers that are not at work. */
  ghost predicate Claimable(q: Queue, hs: seq<nat>, picks: seq<nat>) {
    && |hs| == |picks| && !Repeats(picks) && !Repeats(hs)
    && (forall i | 0 <= i < |picks| :: picks[i] in q.rows && Due(q.rows[picks[i]], q.now) && hs[i] !in q.holders)
  }

  /** What an answer of the claim query picks are different rows, and what it calls ready. */
  lemma AnswerIsClaimable(items: map<nat, ClaimQuery.Item>, locked: set<nat>, batch: nat, picks: seq<nat>)
    requires ClaimQuery.Answer(items, locked, batch, picks)
    ensures !Repeats(picks) && forall id | id in picks :: id in items && items[id].ready
  {
    forall id | id in picks ensures id in items && items[id].ready {
      assert ClaimQuery.Best(items, locked, id);
    }
  }

  /** The rows and handlers after the first k picks. */
  ghost predicate After(q: Queue, n: Queue, hs: seq<nat>, picks: seq<nat>, k: nat, worker: string, seconds: int)
    requires |hs| == |picks| && k <= |picks|
  {
    && n.now == q.now && n.past == q.past
    && n.rows == Frontier.ClaimRows(q.rows, picks[..k], worker, seconds, q.now)
    && (forall h | h in n.holders :: h in q.holders || h in hs[..k])
    && (forall h | h in q.holders :: h in n.holders && n.holders[h] == q.holders[h])
    && (forall i | 0 <= i < k ::
          hs[i] in n.holders && n.holders[hs[i]] == Holder(worker, picks[i], q.now + seconds * SECOND))
  }

  lemma TakeOne(q: Queue, n: Queue, hs: seq<nat>, picks: seq<nat>, k: nat, worker: string, seconds: int)
    requires Claimable(q, hs, picks) && k < |picks| && After(q, n, hs, picks, k, worker, seconds)
    requires q.past.Keys == q.rows.Keys
    ensures Enabled(n, Take(hs[k], worker, picks[k], seconds))
    ensures After(q, Next(n, Take(hs[k], worker, picks[k], seconds)), hs, picks, k + 1, worker, seconds)
  {
    assert picks[..k + 1] == picks[..k] + [picks[k]] && hs[..k + 1] == hs[..k] + [hs[k]];
    NotYet(picks, k);
    NotYet(hs, k);
  }

  lemma NotYet<T>(s: seq<T>, k: nat)
    requires k < |s| && !Repeats(s)
    ensures s[k] !in s[..k]
  {
  }

  /** The claim of a batch is a run of Takes, one for each pick, from the state it finds: it ends in the rows that the claim
      writes, with a handler for each pick that holds the lease, and is lapse-free if the run before was. */
  lemma {:induction false} ClaimIsRun(qs: seq<Queue>, steps: seq<Step>, hs: seq<nat>, picks: seq<nat>, worker: string,
                                      seconds: int) returns (longer: seq<Queue>, more: seq<Step>)
    requires Run(qs, steps) && Claimable(qs[|steps|], hs, picks) && qs[|steps|].past.Keys == qs[|steps|].rows.Keys
    ensures Run(longer, more) && more == steps + Takes(hs, picks, worker, seconds)
    ensures After(qs[|steps|], longer[|more|], hs, picks, |picks|, worker, seconds)
    ensures seconds >= 0 && LapseFreeRun(qs, steps) ==> LapseFreeRun(longer, more)
  {
    longer, more := ClaimFirst(qs, steps, hs, picks, |picks|, worker, seconds);
    assert Takes(hs, picks, worker, seconds)[..|picks|] == Takes(hs, picks, worker, seconds);
  }

  lemma {:induction false} ClaimFirst(qs: seq<Queue>, steps: seq<Step>, hs: seq<nat>, picks: seq<nat>, k: nat,
                                      worker: string, seconds: int) returns (longer: seq<Queue>, more: seq<Step>)
    requires Run(qs, steps) && Claimable(qs[|steps|], hs, picks) && qs[|steps|].past.Keys == qs[|steps|].rows.Keys
    requires k <= |picks|
    ensures Run(longer, more) && more == steps + Takes(hs, picks, worker, seconds)[..k]
    ensures After(qs[|steps|], longer[|more|], hs, picks, k, worker, seconds)
    ensures seconds >= 0 && LapseFreeRun(qs, steps) ==> LapseFreeRun(longer, more)
  {
    var q := qs[|steps|];
    if k == 0 {
      longer, more := qs, steps;
      assert steps + Takes(hs, picks, worker, seconds)[..0] == steps;
      NothingClaimed(q, picks, worker, seconds);
    } else {
      longer, more := ClaimFirst(qs, steps, hs, picks, k - 1, worker, seconds);
      longer, more := OneMore(q, longer, more, hs, picks, k - 1, worker, seconds);
      assert Takes(hs, picks, worker, seconds)[..k]
             == Takes(hs, picks, worker, seconds)[..k - 1] + [Take(hs[k - 1], worker, picks[k - 1], seconds)];
    }
  }

  lemma NothingClaimed(q: Queue, picks: seq<nat>, worker: string, seconds: int)
    ensures Frontier.ClaimRows(q.rows, picks[..0], worker, seconds, q.now) == q.rows
  {
  }

  lemma OneMore(q: Queue, qs: seq<Queue>, steps: seq<Step>, hs: seq<nat>, picks: seq<nat>, k: nat, worker: string,
                seconds: int) returns (longer: seq<Queue>, more: seq<Step>)
    requires Run(qs, steps) && Claimable(q, hs, picks) && q.past.Keys == q.rows.Keys && k < |picks|
    requires After(q, qs[|steps|], hs, picks, k, worker, seconds)
    ensures Run(longer, more) && more == steps + [Take(hs[k], worker, picks[k], seconds)]
    ensures After(q, longer[|more|], hs, picks, k + 1, worker, seconds)
    ensures seconds >= 0 && LapseFreeRun(qs, steps) ==> LapseFreeRun(longer, more)
  {
    var n := qs[|steps|];
    var step := Take(hs[k], worker, picks[k], seconds);
    TakeOne(q, n, hs, picks, k, worker, seconds);
    longer, more := LeaseSafety.Further(qs, steps, n, step);
    if seconds >= 0 && LapseFreeRun(qs, steps) {
      assert LapseFree(n);
      assert LapseFree(Next(n, step));
    }
  }

  /** So in lapse-free runs the rows that a claim writes belong to their handlers alone, whatever else is at work. */
  lemma ClaimIsExclusive(qs: seq<Queue>, steps: seq<Step>, hs: seq<nat>, picks: seq<nat>, worker: string, seconds: int,
                         i: nat)
    requires LapseFreeRun(qs, steps) && Claimable(qs[|steps|], hs, picks) && seconds >= 0 && i < |picks|
    ensures forall h | h in qs[|steps|].holders :: qs[|steps|].holders[h].id != picks[i]
    ensures Frontier.ClaimRows(qs[|steps|].rows, picks, worker, seconds, qs[|steps|].now)[picks[i]].owner == Some(worker)
  {
    LeaseSafety.RunKeepsInv(qs, steps, |steps|);
    var longer, more := ClaimIsRun(qs, steps, hs, picks, worker, seconds);
    LeaseSafety.RunKeepsInv(longer, more, |more|);
    var q, n := qs[|steps|], longer[|more|];
    assert picks[..|picks|] == picks;
    assert n.holders[hs[i]].id == picks[i];
  }
}
