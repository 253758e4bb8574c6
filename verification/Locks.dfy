/** The row locks of concurrent frontier transactions: scripts of requests, the conflict table of section 13.3.2 of the
    PostgreSQL 16 documentation, and freedom from deadlock. */
module Locks {
  import opened Base
  import opened Strings
  import opened Tables
  import HostSort

  /** A domains row by its host, a urls row (or the unique key of one that is being inserted) by its url. */
  datatype Res = Dom(host: string) | Url(url: string)

  datatype Mode = KeyShare | NoKeyUpdate | Update

  predicate Conflict(a: Mode, b: Mode) {
    a == Update || b == Update || (a == NoKeyUpdate && b == NoKeyUpdate)
  }

  predicate Weaker(a: Mode, b: Mode) {
    a == b || a == KeyShare || b == Update
  }

  /** `InsertUrl` is INSERT ... ON CONFLICT DO NOTHING: it waits for another transaction inserting the same key, and
      locks nothing when the row is already there. `TryLock` is FOR UPDATE SKIP LOCKED: it never waits. */
  datatype Req = Lock(res: Res, mode: Mode) | InsertUrl(url: string) | TryLock(res: Res, mode: Mode)

  datatype Tx = Tx(script: seq<Req>, pc: nat, held: set<(Res, Mode)>)

  /** `rows` are the urls of committed rows. */
  datatype Sys = Sys(txs: map<nat, Tx>, rows: set<string>)

  // ---------------------------------------------------------------- granting

  ghost predicate Opposed(s: Sys, t: nat, res: Res, mode: Mode) {
    exists u, m | u in s.txs && u != t && (res, m) in s.txs[u].held :: Conflict(mode, m)
  }

  ghost predicate Blocked(s: Sys, t: nat)
    requires t in s.txs
  {
    var x := s.txs[t];
    x.pc < |x.script|
    && match x.script[x.pc]
       case Lock(res, mode) => Opposed(s, t, res, mode)
       case InsertUrl(u) => u !in s.rows && Opposed(s, t, Url(u), Update)
       case TryLock(_, _) => false
  }

  /** The locks held after the request at pc. */
  ghost function Granted(s: Sys, t: nat): set<(Res, Mode)>
    requires t in s.txs && s.txs[t].pc < |s.txs[t].script|
  {
    var x := s.txs[t];
    match x.script[x.pc]
    case Lock(res, mode) => x.held + {(res, mode)}
    case InsertUrl(u) => if u in s.rows then x.held else x.held + {(Url(u), Update)}
    case TryLock(res, mode) => if Opposed(s, t, res, mode) then x.held else x.held + {(res, mode)}
  }

  function LockedUrls(held: set<(Res, Mode)>): set<string> {
    set h | h in held && h.0.Url? && h.1 == Update :: h.0.url
  }

  ghost predicate CanStep(s: Sys, t: nat) {
    t in s.txs && !Blocked(s, t)
  }

  /** The next request, or the commit, of an unblocked transaction. Locks are held to the commit. */
  ghost function Step(s: Sys, t: nat): Sys
    requires CanStep(s, t)
  {
    var x := s.txs[t];
    if x.pc == |x.script| || x.pc > |x.script|
    then Sys(s.txs - {t}, s.rows + LockedUrls(x.held))
    else s.(txs := s.txs[t := x.(pc := x.pc + 1, held := Granted(s, t))])
  }

  // ---------------------------------------------------------------- disciplined scripts

  predicate Exclusive(m: Mode) {
    m != KeyShare
  }

  predicate RequestsDom(r: Req, h: string) {
    r.Lock? && r.res == Dom(h)
  }

  /** An exclusive lock on the domain row of `u` was requested before position i. */
  predicate GuardedBefore(script: seq<Req>, i: nat, u: string, hostOf: string -> string)
    requires i <= |script|
  {
    exists j | 0 <= j < i :: RequestsDom(script[j], hostOf(u)) && Exclusive(script[j].mode)
  }

  /** A lock on the domain row at least as strong was requested before position i. */
  predicate CoveredBefore(script: seq<Req>, i: nat, h: string, m: Mode)
    requires i <= |script|
  {
    exists j | 0 <= j < i :: RequestsDom(script[j], h) && Weaker(m, script[j].mode)
  }

  predicate RequestOk(script: seq<Req>, i: nat, rows: set<string>, hostOf: string -> string)
    requires i < |script|
  {
    match script[i]
    case Lock(Url(u), m) =>
      m != Update && (GuardedBefore(script, i, u, hostOf) || (m == KeyShare && u in rows))
    case InsertUrl(u) => GuardedBefore(script, i, u, hostOf)
    case Lock(Dom(h), m) =>
      && (forall j | 0 <= j < i && script[j].Lock? && script[j].res.Dom? :: StrLe(script[j].res.host, h))
      && ((exists j | 0 <= j < i :: RequestsDom(script[j], h)) ==> CoveredBefore(script, i, h, m))
    case TryLock(_, _) => false
  }

  /** Hosts in sorted order, no lock on a host stronger than the ones it already has, every lock on a url row behind an
      exclusive lock on the row of its domain; only foreign-key checks of rows that are there may go without it. */
  predicate Ordered(script: seq<Req>, rows: set<string>, hostOf: string -> string) {
    forall i | 0 <= i < |script| :: RequestOk(script, i, rows, hostOf)
  }

  /** An autocommit statement on one row. */
  predicate OneRow(script: seq<Req>) {
    |script| <= 1
  }

  predicate NeverWaits(script: seq<Req>) {
    forall i | 0 <= i < |script| :: script[i].TryLock?
  }

  predicate Disciplined(script: seq<Req>, rows: set<string>, hostOf: string -> string) {
    OneRow(script) || NeverWaits(script) || Ordered(script, rows, hostOf)
  }

  // ---------------------------------------------------------------- the invariant

  /** Every lock held was requested, and every lock requested is held. */
  ghost predicate HeldFromScript(x: Tx) {
    && x.pc <= |x.script|
    && (forall i | 0 <= i < x.pc && x.script[i].Lock? :: (x.script[i].res, x.script[i].mode) in x.held)
    && (forall h | h in x.held :: exists i | 0 <= i < x.pc :: Asks(x.script[i], h))
  }

  predicate Asks(r: Req, h: (Res, Mode)) {
    match r
    case Lock(res, mode) => h == (res, mode)
    case InsertUrl(u) => h == (Url(u), Update)
    case TryLock(res, mode) => h == (res, mode)
  }

  ghost predicate NoClash(a: set<(Res, Mode)>, b: set<(Res, Mode)>) {
    forall g, h | g in a && h in b && g.0 == h.0 :: !Conflict(g.1, h.1)
  }

  ghost predicate Compatible(s: Sys) {
    forall t, u | t in s.txs && u in s.txs && t != u :: NoClash(s.txs[t].held, s.txs[u].held)
  }

  /** An ordered transaction holds a url exclusively only when it is inserting it. */
  ghost predicate InsertsNew(s: Sys, t: nat)
    requires t in s.txs
  {
    NeverWaits(s.txs[t].script) || OneRow(s.txs[t].script)
    || forall u | (Url(u), Update) in s.txs[t].held :: u !in s.rows
  }

  ghost predicate TxOk(s: Sys, t: nat, hostOf: string -> string)
    requires t in s.txs
  {
    HeldFromScript(s.txs[t]) && Disciplined(s.txs[t].script, s.rows, hostOf) && InsertsNew(s, t)
  }

  ghost predicate Inv(s: Sys, hostOf: string -> string) {
    Compatible(s) && forall t | t in s.txs :: TxOk(s, t, hostOf)
  }

  /** A transaction may also begin, with a disciplined script, or be aborted, at any time. */
  datatype Event = Begin(t: nat, script: seq<Req>) | Go(t: nat) | Abort(t: nat)

  ghost predicate Possible(s: Sys, e: Event, hostOf: string -> string) {
    match e
    case Begin(t, script) => t !in s.txs && Disciplined(script, s.rows, hostOf)
    case Go(t) => CanStep(s, t)
    case Abort(t) => t in s.txs
  }

  ghost function After(s: Sys, e: Event, hostOf: string -> string): Sys
    requires Possible(s, e, hostOf)
  {
    match e
    case Begin(t, script) => s.(txs := s.txs[t := Tx(script, 0, {})])
    case Go(t) => Step(s, t)
    case Abort(t) => s.(txs := s.txs - {t})
  }

  lemma GrantNoClash(s: Sys, t: nat, u: nat)
    requires Compatible(s) && CanStep(s, t) && s.txs[t].pc < |s.txs[t].script| && u in s.txs && u != t
    ensures NoClash(Granted(s, t), s.txs[u].held) && NoClash(s.txs[u].held, Granted(s, t))
  {
    assert NoClash(s.txs[t].held, s.txs[u].held);
    forall g, h | g in Granted(s, t) && h in s.txs[u].held && g.0 == h.0 ensures !Conflict(g.1, h.1) {
      if g !in s.txs[t].held && Conflict(g.1, h.1) {
        assert (h.0, h.1) in s.txs[u].held;
        assert Opposed(s, t, g.0, g.1);
      }
    }
  }

  lemma StepCompatible(s: Sys, t: nat)
    requires Compatible(s) && CanStep(s, t)
    ensures Compatible(Step(s, t))
  {
    var n := Step(s, t);
    forall u, v | u in n.txs && v in n.txs && u != v ensures NoClash(n.txs[u].held, n.txs[v].held) {
      if t in n.txs && u == t {
        GrantNoClash(s, t, v);
      } else if t in n.txs && v == t {
        GrantNoClash(s, t, u);
      }
    }
  }

  lemma StepHeld(s: Sys, t: nat)
    requires CanStep(s, t) && HeldFromScript(s.txs[t]) && s.txs[t].pc < |s.txs[t].script|
    ensures HeldFromScript(Step(s, t).txs[t])
  {
    var x, y := s.txs[t], Step(s, t).txs[t];
    forall h | h in y.held ensures exists i | 0 <= i < y.pc :: Asks(y.script[i], h) {
      if h in x.held {
        var i :| 0 <= i < x.pc && Asks(x.script[i], h);
        assert i < y.pc;
      } else {
        assert Asks(y.script[x.pc], h);
      }
    }
  }

  lemma MoreRows(script: seq<Req>, a: set<string>, b: set<string>, hostOf: string -> string)
    requires Disciplined(script, a, hostOf) && a <= b
    ensures Disciplined(script, b, hostOf)
  {
    if Ordered(script, a, hostOf) {
      forall i | 0 <= i < |script| ensures RequestOk(script, i, b, hostOf) {
        assert RequestOk(script, i, a, hostOf);
      }
    }
  }

  /** Committing rows leaves the rows others are inserting uncommitted. */
  lemma CommitInsertsNew(s: Sys, t: nat, u: nat)
    requires Compatible(s) && t in s.txs && u in s.txs && t != u && InsertsNew(s, u)
    ensures forall x | (Url(x), Update) in s.txs[u].held && x !in s.rows :: x !in s.rows + LockedUrls(s.txs[t].held)
  {
    assert NoClash(s.txs[t].held, s.txs[u].held);
    forall x | (Url(x), Update) in s.txs[u].held ensures (Url(x), Update) !in s.txs[t].held {
      assert Conflict((Url(x), Update).1, (Url(x), Update).1);
    }
  }

  lemma GrantInsertsNew(s: Sys, t: nat, hostOf: string -> string)
    requires CanStep(s, t) && TxOk(s, t, hostOf) && s.txs[t].pc < |s.txs[t].script|
    ensures InsertsNew(Step(s, t), t)
  {
    var x := s.txs[t];
    if !NeverWaits(x.script) && !OneRow(x.script) {
      assert RequestOk(x.script, x.pc, s.rows, hostOf);
    }
  }

  lemma StepTxOk(s: Sys, t: nat, u: nat, hostOf: string -> string)
    requires Inv(s, hostOf) && CanStep(s, t) && u in Step(s, t).txs
    ensures TxOk(Step(s, t), u, hostOf)
  {
    assert TxOk(s, u, hostOf) && TxOk(s, t, hostOf);
    var n := Step(s, t);
    MoreRows(s.txs[u].script, s.rows, n.rows, hostOf);
    if t in n.txs {
      if u == t {
        StepHeld(s, t);
        GrantInsertsNew(s, t, hostOf);
      }
    } else {
      CommitInsertsNew(s, t, u);
    }
  }

  lemma EventKeepsInv(s: Sys, e: Event, hostOf: string -> string)
    requires Inv(s, hostOf) && Possible(s, e, hostOf)
    ensures Inv(After(s, e, hostOf), hostOf)
  {
    var n := After(s, e, hostOf);
    match e
    case Go(t) =>
      StepCompatible(s, t);
      forall u | u in n.txs ensures TxOk(n, u, hostOf) {
        StepTxOk(s, t, u, hostOf);
      }
    case Begin(t, script) =>
      forall u | u in n.txs ensures TxOk(n, u, hostOf) {
        assert u in s.txs ==> TxOk(s, u, hostOf);
      }
      forall u, v | u in n.txs && v in n.txs && u != v ensures NoClash(n.txs[u].held, n.txs[v].held) {
      }
    case Abort(t) =>
      forall u | u in n.txs ensures TxOk(n, u, hostOf) {
        assert TxOk(s, u, hostOf);
      }
  }

  // ---------------------------------------------------------------- no deadlock

  ghost predicate Stuck(s: Sys) {
    forall t | t in s.txs :: Blocked(s, t)
  }

  /** In a stuck state whoever holds a lock is an ordered transaction. */
  lemma HolderIsOrdered(s: Sys, t: nat, h: (Res, Mode), hostOf: string -> string)
    requires Inv(s, hostOf) && Stuck(s) && t in s.txs && h in s.txs[t].held
    ensures Ordered(s.txs[t].script, s.rows, hostOf) && !NeverWaits(s.txs[t].script) && !OneRow(s.txs[t].script)
  {
    assert TxOk(s, t, hostOf) && Blocked(s, t);
  }

  ghost predicate HoldsGuard(x: Tx, h: string) {
    exists m :: Exclusive(m) && (Dom(h), m) in x.held
  }

  lemma GuardIsHeld(x: Tx, i: nat, u: string, hostOf: string -> string)
    requires HeldFromScript(x) && i <= x.pc
    ensures GuardedBefore(x.script, i, u, hostOf) ==> HoldsGuard(x, hostOf(u))
  {
    if GuardedBefore(x.script, i, u, hostOf) {
      var j :| 0 <= j < i && RequestsDom(x.script[j], hostOf(u)) && Exclusive(x.script[j].mode);
      assert (x.script[j].res, x.script[j].mode) in x.held;
    }
  }

  /** Two transactions never both hold the guard of one domain. */
  lemma GuardsExclude(s: Sys, t: nat, v: nat, h: string)
    requires Compatible(s) && t in s.txs && v in s.txs && t != v && HoldsGuard(s.txs[t], h)
    ensures !HoldsGuard(s.txs[v], h)
  {
    var m :| Exclusive(m) && (Dom(h), m) in s.txs[t].held;
    assert NoClash(s.txs[t].held, s.txs[v].held);
    forall n | (Dom(h), n) in s.txs[v].held ensures !Exclusive(n) {
      assert !Conflict((Dom(h), m).1, (Dom(h), n).1);
    }
  }

  /** A lock on a url that clashes with a wait for it comes with the guard. */
  lemma UrlHolderIsGuarded(s: Sys, v: nat, u: string, n: Mode, mode: Mode, hostOf: string -> string)
    requires Inv(s, hostOf) && Stuck(s) && v in s.txs && (Url(u), n) in s.txs[v].held && Conflict(mode, n)
    requires mode == Update ==> u !in s.rows
    ensures HoldsGuard(s.txs[v], hostOf(u)) && (n == Update ==> u !in s.rows)
  {
    HolderIsOrdered(s, v, (Url(u), n), hostOf);
    assert TxOk(s, v, hostOf);
    var x := s.txs[v];
    var j :| 0 <= j < x.pc && Asks(x.script[j], (Url(u), n));
    assert RequestOk(x.script, j, s.rows, hostOf);
    GuardIsHeld(x, j, u, hostOf);
  }

  ghost predicate WaitsOnDom(s: Sys, t: nat) {
    t in s.txs && s.txs[t].pc < |s.txs[t].script|
    && s.txs[t].script[s.txs[t].pc].Lock? && s.txs[t].script[s.txs[t].pc].res.Dom?
  }

  ghost function WaitHost(s: Sys, t: nat): string
    requires WaitsOnDom(s, t)
  {
    s.txs[t].script[s.txs[t].pc].res.host
  }

  /** Nobody stands in the way of a request for a url row. */
  lemma UrlIsFree(s: Sys, t: nat, u: string, mode: Mode, hostOf: string -> string)
    requires Inv(s, hostOf) && Stuck(s) && t in s.txs && (mode == Update ==> u !in s.rows)
    requires HoldsGuard(s.txs[t], hostOf(u)) || (mode == KeyShare && u in s.rows)
    ensures !Opposed(s, t, Url(u), mode)
  {
    forall v, n | v in s.txs && v != t && (Url(u), n) in s.txs[v].held ensures !Conflict(mode, n) {
      if Conflict(mode, n) {
        UrlHolderIsGuarded(s, v, u, n, mode, hostOf);
        if HoldsGuard(s.txs[t], hostOf(u)) {
          GuardsExclude(s, t, v, hostOf(u));
        }
      }
    }
  }

  /** In a stuck state an ordered transaction waits for the row of a domain. */
  lemma WaitsForDomain(s: Sys, t: nat, hostOf: string -> string)
    requires Inv(s, hostOf) && Stuck(s) && t in s.txs && Ordered(s.txs[t].script, s.rows, hostOf)
    ensures WaitsOnDom(s, t)
  {
    var x := s.txs[t];
    assert TxOk(s, t, hostOf) && Blocked(s, t) && RequestOk(x.script, x.pc, s.rows, hostOf);
    match x.script[x.pc]
    case Lock(Url(u), mode) =>
      GuardIsHeld(x, x.pc, u, hostOf);
      UrlIsFree(s, t, u, mode, hostOf);
    case InsertUrl(u) =>
      GuardIsHeld(x, x.pc, u, hostOf);
      UrlIsFree(s, t, u, Update, hostOf);
    case Lock(Dom(_), _) =>
    case TryLock(_, _) =>
  }

  lemma {:induction false} LastHost(s: Sys, ts: set<nat>) returns (t: nat)
    requires ts != {} && forall u | u in ts :: WaitsOnDom(s, u)
    ensures t in ts && forall u | u in ts :: StrLe(WaitHost(s, u), WaitHost(s, t))
  {
    var x :| x in ts;
    StrLeTotal(WaitHost(s, x), WaitHost(s, x));
    if ts == {x} {
      t := x;
    } else {
      var y := LastHost(s, ts - {x});
      StrLeTotal(WaitHost(s, x), WaitHost(s, y));
      t := if StrLe(WaitHost(s, x), WaitHost(s, y)) then y else x;
      forall u | u in ts ensures StrLe(WaitHost(s, u), WaitHost(s, t)) {
        if u != x && t == x {
          assert u in ts - {x};
          StrLeTransitive(WaitHost(s, u), WaitHost(s, y), WaitHost(s, x));
        }
      }
    }
  }

  /** Having a lock on a domain row, a transaction is never held up for a weaker one on it. */
  lemma NoUpgrade(s: Sys, u: nat, h: string, n: Mode, m: Mode)
    requires Compatible(s) && u in s.txs && (Dom(h), n) in s.txs[u].held && Opposed(s, u, Dom(h), m)
    ensures !Weaker(m, n)
  {
    var w, k :| w in s.txs && w != u && (Dom(h), k) in s.txs[w].held && Conflict(m, k);
    assert NoClash(s.txs[u].held, s.txs[w].held);
    assert !Conflict((Dom(h), n).1, (Dom(h), k).1);
  }

  /** A later request of an ordered transaction is for a later host, or for a lock on the same one that is no stronger
      than one it has. */
  lemma LaterRequest(x: Tx, h: string, n: Mode, rows: set<string>, hostOf: string -> string) returns (k: Mode)
    requires HeldFromScript(x) && Ordered(x.script, rows, hostOf) && (Dom(h), n) in x.held
    requires x.pc < |x.script| && x.script[x.pc].Lock? && x.script[x.pc].res.Dom?
    ensures StrLe(h, x.script[x.pc].res.host)
    ensures h == x.script[x.pc].res.host ==> Weaker(x.script[x.pc].mode, k) && (Dom(h), k) in x.held
  {
    var i :| 0 <= i < x.pc && Asks(x.script[i], (Dom(h), n));
    assert RequestOk(x.script, i, rows, hostOf) && RequestOk(x.script, x.pc, rows, hostOf);
    k := n;
    if h == x.script[x.pc].res.host {
      assert RequestsDom(x.script[i], h);
      var j :| 0 <= j < x.pc && RequestsDom(x.script[j], h) && Weaker(x.script[x.pc].mode, x.script[j].mode);
      k := x.script[j].mode;
      assert (x.script[j].res, x.script[j].mode) in x.held;
    }
  }

  /** Whoever a transaction waits for on a domain waits for a later domain. */
  lemma WaitsForLater(s: Sys, t: nat, hostOf: string -> string) returns (u: nat)
    requires Inv(s, hostOf) && Stuck(s) && WaitsOnDom(s, t)
    ensures u in s.txs && Ordered(s.txs[u].script, s.rows, hostOf) && WaitsOnDom(s, u)
    ensures StrLe(WaitHost(s, t), WaitHost(s, u)) && WaitHost(s, t) != WaitHost(s, u)
  {
    var h, m := WaitHost(s, t), s.txs[t].script[s.txs[t].pc].mode;
    assert Blocked(s, t) && Opposed(s, t, Dom(h), m);
    var n: Mode;
    u, n :| u in s.txs && u != t && (Dom(h), n) in s.txs[u].held && Conflict(m, n);
    HolderIsOrdered(s, u, (Dom(h), n), hostOf);
    WaitsForDomain(s, u, hostOf);
    assert TxOk(s, u, hostOf) && Blocked(s, u);
    var k := LaterRequest(s.txs[u], h, n, s.rows, hostOf);
    if WaitHost(s, u) == h {
      NoUpgrade(s, u, h, k, s.txs[u].script[s.txs[u].pc].mode);
    }
  }

  /** Deadlock freedom: while transactions are unfinished, one of them can take its next step. */
  lemma SomeoneCanStep(s: Sys, hostOf: string -> string)
    requires Inv(s, hostOf) && s.txs != map[]
    ensures exists t :: CanStep(s, t)
  {
    var t :| t in s.txs;
    NotStuck(s, t, hostOf);
    var u :| u in s.txs && !Blocked(s, u);
    assert CanStep(s, u);
  }

  lemma NotStuck(s: Sys, t: nat, hostOf: string -> string)
    requires Inv(s, hostOf) && t in s.txs
    ensures !Stuck(s)
  {
    if Stuck(s) {
      var first := SomeOrdered(s, t, hostOf);
      var ts := set u | u in s.txs && Ordered(s.txs[u].script, s.rows, hostOf);
      forall u | u in ts ensures WaitsOnDom(s, u) {
        WaitsForDomain(s, u, hostOf);
      }
      assert first in ts;
      var last := LastHost(s, ts);
      var later := WaitsForLater(s, last, hostOf);
      assert later in ts;
      StrLeAntisymmetric(WaitHost(s, last), WaitHost(s, later));
    }
  }

  lemma SomeOrdered(s: Sys, t: nat, hostOf: string -> string) returns (u: nat)
    requires Inv(s, hostOf) && Stuck(s) && t in s.txs
    ensures u in s.txs && Ordered(s.txs[u].script, s.rows, hostOf)
  {
    assert Blocked(s, t);
    var x := s.txs[t];
    var res := if x.script[x.pc].Lock? then x.script[x.pc].res else Url(x.script[x.pc].url);
    var mode := if x.script[x.pc].Lock? then x.script[x.pc].mode else Update;
    assert Opposed(s, t, res, mode);
    var n: Mode;
    u, n :| u in s.txs && u != t && (res, n) in s.txs[u].held && Conflict(mode, n);
    HolderIsOrdered(s, u, (res, n), hostOf);
  }
}
