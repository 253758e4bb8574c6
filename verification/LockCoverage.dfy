/** That the lock scripts are not too small: what the transaction of add() changes, it has locked. */
module LockCoverage {
  import opened Base
  import opened LeaseQueue
  import opened Tables
  import opened Discovery
  import opened Locks
  import opened LockScripts
  import Known

  /** What one turn asks for is in the script of the whole page. */
  lemma {:induction false} TurnIsInScript(links: seq<Link>, outcomes: seq<Outcome>, from: string, hostOf: string -> string,
                                          i: nat)
    requires |outcomes| == |links| && i < |links| && hostOf(links[i].url) != ""
    ensures var u, s := links[i].url, AddScript(links, outcomes, from, hostOf);
            && Lock(Dom(hostOf(u)), Update) in s && InsertUrl(u) in s && Lock(Dom(hostOf(u)), NoKeyUpdate) in s
            && (outcomes[i].row ==> Lock(Dom(hostOf(u)), KeyShare) in s)
            && (outcomes[i].edge ==> Lock(Url(from), KeyShare) in s && Lock(Url(u), KeyShare) in s)
    decreases |links|
  {
    var n := |links| - 1;
    var front := AddScript(links[..n], outcomes[..n], from, hostOf);
    if i < n {
      TurnIsInScript(links[..n], outcomes[..n], from, hostOf, i);
    } else {
      var u, o := links[n].url, outcomes[n];
      var turn := LinkScript(u, from, o.row, o.edge, hostOf);
      TurnRequests(u, from, o.row, o.edge, hostOf);
      assert AddScript(links, outcomes, from, hostOf) == front + turn;
    }
  }

  lemma TurnRequests(u: string, from: string, row: bool, edge: bool, hostOf: string -> string)
    ensures var b := LinkScript(u, from, row, edge, hostOf);
            && Lock(Dom(hostOf(u)), Update) in b && InsertUrl(u) in b && Lock(Dom(hostOf(u)), NoKeyUpdate) in b
            && (row ==> Lock(Dom(hostOf(u)), KeyShare) in b)
            && (edge ==> Lock(Url(from), KeyShare) in b && Lock(Url(u), KeyShare) in b)
  {
    var b := LinkScript(u, from, row, edge, hostOf);
    assert b[0] == Lock(Dom(hostOf(u)), Update) && b[1] == InsertUrl(u);
    assert b[|b| - 1] == Lock(Dom(hostOf(u)), NoKeyUpdate);
    if row {
      assert b[2] == Lock(Dom(hostOf(u)), KeyShare);
    }
    if edge {
      assert b[|b| - 3] == Lock(Url(from), KeyShare) && b[|b| - 2] == Lock(Url(u), KeyShare);
    }
  }

  lemma {:induction false} CountedHost(links: seq<Link>, h: string, hostOf: string -> string) returns (i: nat)
    requires CountHost(links, h, hostOf) > 0
    ensures i < |links| && hostOf(links[i].url) == h != ""
    decreases |links|
  {
    var n := |links| - 1;
    if h != "" && hostOf(links[n].url) == h {
      i := n;
    } else {
      i := CountedHost(links[..n], h, hostOf);
    }
  }

  /** Every domain row that add() changes it has locked for update, and every url it makes it has inserted under its key,
      whatever its inserts turned out to do. */
  lemma AddLocksWhatItChanges(db: Db, links: seq<Link>, outcomes: seq<Outcome>, from: nat, depth: nat, now: Time,
                              hostOf: string -> string, u: string, h: string)
    requires Sound(db) && from in db.urls && |outcomes| == |links|
    ensures Sound(AddLinks(db, links, from, depth, now, hostOf).0)
    ensures UrlAt(AddLinks(db, links, from, depth, now, hostOf).0, u) != UrlAt(db, u) ==>
              InsertUrl(u) in AddScript(links, outcomes, db.urls[from].url, hostOf)
    ensures DomainAt(AddLinks(db, links, from, depth, now, hostOf).0, h) != DomainAt(db, h) ==>
              Lock(Dom(h), Update) in AddScript(links, outcomes, db.urls[from].url, hostOf)
  {
    AddLinksSound(db, links, from, depth, now, hostOf);
    AddLinksAdds(db, links, from, depth, now, hostOf, u, u, h);
    var after := AddLinks(db, links, from, depth, now, hostOf).0;
    if UrlAt(after, u) != UrlAt(db, u) {
      var l := Discovery.First(links, u, hostOf).value;
      var i: nat :| i < |links| && links[i] == l;
      TurnIsInScript(links, outcomes, db.urls[from].url, hostOf, i);
    }
    if DomainAt(after, h) != DomainAt(db, h) {
      if CountHost(links, h, hostOf) > 0 {
        var i := CountedHost(links, h, hostOf);
        TurnIsInScript(links, outcomes, db.urls[from].url, hostOf, i);
      } else {
        UncountedStays(db, links, h, hostOf);
      }
    }
  }

  lemma UncountedStays(db: Db, links: seq<Link>, h: string, hostOf: string -> string)
    requires Sound(db) && CountHost(links, h, hostOf) == 0
    ensures ExpectedDomain(db, links, h, hostOf) == DomainAt(db, h)
  {
  }

  // ---------------------------------------------------------------- inserts

  /** Transaction t has asked to insert u, successfully or not. */
  ghost predicate HasInserted(s: Sys, t: nat, u: string)
    requires t in s.txs
  {
    exists i | 0 <= i < s.txs[t].pc && i < |s.txs[t].script| :: s.txs[t].script[i] == InsertUrl(u)
  }

  /** The url has a committed row, or t is the one that is inserting it. */
  ghost predicate InsertSettled(s: Sys, t: nat, u: string)
    requires t in s.txs
  {
    u in s.rows || (Url(u), Update) in s.txs[t].held
  }

  ghost predicate InsertsSettled(s: Sys) {
    forall t, u | t in s.txs && HasInserted(s, t, u) :: InsertSettled(s, t, u)
  }

  lemma StepSettles(s: Sys, t: nat)
    requires InsertsSettled(s) && CanStep(s, t)
    ensures InsertsSettled(Locks.Step(s, t))
  {
    var n := Locks.Step(s, t);
    forall v, u | v in n.txs && HasInserted(n, v, u) ensures InsertSettled(n, v, u) {
      var i :| 0 <= i < n.txs[v].pc && i < |n.txs[v].script| && n.txs[v].script[i] == InsertUrl(u);
      if v != t || i < s.txs[t].pc {
        assert s.txs[v].script[i] == InsertUrl(u);
        assert HasInserted(s, v, u);
      }
    }
  }

  lemma EventSettles(s: Sys, e: Event, hostOf: string -> string)
    requires InsertsSettled(s) && Possible(s, e, hostOf)
    ensures InsertsSettled(After(s, e, hostOf))
  {
    match e
    case Begin(t, script) => OthersSettled(s, After(s, e, hostOf), t);
    case Go(t) => StepSettles(s, t);
    case Abort(t) => OthersSettled(s, After(s, e, hostOf), t);
  }

  lemma OthersSettled(s: Sys, n: Sys, t: nat)
    requires InsertsSettled(s) && n.rows == s.rows && (t in n.txs ==> n.txs[t].pc == 0)
    requires forall v | v in n.txs && v != t :: v in s.txs && n.txs[v] == s.txs[v]
    ensures InsertsSettled(n)
  {
    forall v, u | v in n.txs && HasInserted(n, v, u) ensures InsertSettled(n, v, u) {
      assert v != t;
      assert HasInserted(s, v, u);
    }
  }

  lemma {:induction false} RunSettles(ss: seq<Sys>, es: seq<Event>, hostOf: string -> string, i: nat)
    requires LockScripts.Run(ss, es, hostOf) && i < |ss|
    ensures InsertsSettled(ss[i])
  {
    if i > 0 {
      RunSettles(ss, es, hostOf, i - 1);
      EventSettles(ss[i - 1], es[i - 1], hostOf);
    }
  }

  /** In no run do two transactions both make a row for one url: when both have asked to insert it, it has a committed row. */
  lemma OneInserts(ss: seq<Sys>, es: seq<Event>, hostOf: string -> string, i: nat, t: nat, v: nat, u: string)
    requires LockScripts.Run(ss, es, hostOf) && i < |ss| && t in ss[i].txs && v in ss[i].txs && t != v
    requires HasInserted(ss[i], t, u) && HasInserted(ss[i], v, u)
    ensures u in ss[i].rows
  {
    RunSettles(ss, es, hostOf, i);
    RunKeepsInv(ss, es, hostOf, i);
    assert InsertSettled(ss[i], t, u) && InsertSettled(ss[i], v, u);
    assert NoClash(ss[i].txs[t].held, ss[i].txs[v].held);
    if u !in ss[i].rows {
      assert Conflict((Url(u), Update).1, (Url(u), Update).1);
    }
  }

  /** The rows of the conflict table for the modes that occur: FOR KEY SHARE waits for FOR UPDATE only, FOR NO KEY UPDATE for
      itself and FOR UPDATE, and FOR UPDATE for all three; conflicts are mutual. */
  lemma ConflictTable(m: Mode)
    ensures Conflict(KeyShare, m) <==> m == Update
    ensures Conflict(NoKeyUpdate, m) <==> m == NoKeyUpdate || m == Update
    ensures Conflict(Update, m)
  {
  }
}
