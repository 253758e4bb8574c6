/** The locks of seed(), which does not sort its hosts: when two of its transactions can deadlock, and that they cannot when
    their seeds are sorted. */
module SeedLocks {
  import opened Base
  import opened Strings
  import opened Locks
  import opened LockScripts

  // ---------------------------------------------------------------- the script

  /** One turn of the loop of seed(): the upsert of the domain, the insert of the url and, when a row is made, its
      foreign-key check. */
  function SeedTurn(u: string, made: bool, hostOf: string -> string): seq<Req> {
    if hostOf(u) == "" then []
    else [Lock(Dom(hostOf(u)), Update), InsertUrl(u)] + if made then [Lock(Dom(hostOf(u)), KeyShare)] else []
  }

  /** seed() over its urls in the order given, with what each insert turned out to do. */
  function SeedScript(urls: seq<string>, made: seq<bool>, hostOf: string -> string): seq<Req>
    requires |made| == |urls|
    decreases |urls|
  {
    if urls == [] then []
    else SeedScript(urls[..|urls| - 1], made[..|urls| - 1], hostOf)
         + SeedTurn(urls[|urls| - 1], made[|urls| - 1], hostOf)
  }

  function Hosts(urls: seq<string>, hostOf: string -> string): set<string> {
    set u | u in urls && hostOf(u) != "" :: hostOf(u)
  }

  // ---------------------------------------------------------------- two transactions

  predicate IsUpdate(r: Req) {
    r.Lock? && r.res.Dom? && r.mode == Update
  }

  function HostOfReq(r: Req, hostOf: string -> string): string {
    match r
    case Lock(Dom(h), _) => h
    case Lock(Url(u), _) => hostOf(u)
    case InsertUrl(u) => hostOf(u)
    case TryLock(Dom(h), _) => h
    case TryLock(Url(u), _) => hostOf(u)
  }

  /** The hosts whose domain rows a script has asked to update before position i. */
  function Doms(script: seq<Req>, i: nat): set<string>
    requires i <= |script|
  {
    set j | 0 <= j < i && IsUpdate(script[j]) :: script[j].res.host
  }

  /** Everything else comes after an update of its domain row. */
  predicate Behind(script: seq<Req>, i: nat, hostOf: string -> string)
    requires i < |script|
  {
    IsUpdate(script[i])
    || (HostOfReq(script[i], hostOf) in Doms(script, i)
        && (script[i].InsertUrl? || (script[i].Lock? && script[i].res.Dom? && script[i].mode == KeyShare)))
  }

  predicate UpdatesLead(script: seq<Req>, hostOf: string -> string) {
    forall i | 0 <= i < |script| :: Behind(script, i, hostOf)
  }

  /** Each is about to ask for a domain the other has, and up to there they have no domain in common. */
  predicate Crossed(a: seq<Req>, b: seq<Req>, p: nat, q: nat) {
    && p < |a| && q < |b| && IsUpdate(a[p]) && IsUpdate(b[q])
    && a[p].res.host in Doms(b, q) && b[q].res.host in Doms(a, p) && Doms(a, p) !! Doms(b, q)
  }

  /** Both have begun. */
  function Pair(a: seq<Req>, b: seq<Req>, rows: set<string>): Sys {
    Sys(map[0 := Tx(a, 0, {}), 1 := Tx(b, 0, {})], rows)
  }

  ghost predicate Deadlocked(s: Sys) {
    s.txs != map[] && Stuck(s)
  }

  ghost predicate OfPair(s: Sys, a: seq<Req>, b: seq<Req>) {
    && Compatible(s) && s.txs.Keys <= {0, 1}
    && (0 in s.txs ==> s.txs[0].script == a && HeldFromScript(s.txs[0]))
    && (1 in s.txs ==> s.txs[1].script == b && HeldFromScript(s.txs[1]))
  }

  lemma StepOfPair(s: Sys, t: nat, a: seq<Req>, b: seq<Req>)
    requires OfPair(s, a, b) && CanStep(s, t)
    ensures OfPair(Step(s, t), a, b)
  {
    StepCompatible(s, t);
    if s.txs[t].pc < |s.txs[t].script| {
      StepHeld(s, t);
    }
  }

  lemma {:induction false} StepsOfPair(s: Sys, ts: seq<nat>, a: seq<Req>, b: seq<Req>)
    requires OfPair(s, a, b) && Steps(s, ts)
    ensures OfPair(AfterSteps(s, ts), a, b)
    decreases |ts|
  {
    if ts != [] {
      StepOfPair(s, ts[0], a, b);
      StepsOfPair(Step(s, ts[0]), ts[1..], a, b);
    }
  }

  // ---------------------------------------------------------------- a deadlock is a crossing

  /** What is held on a domain or a url was asked for, and with it the domain row. */
  lemma HeldMeansDom(x: Tx, res: Res, mode: Mode, hostOf: string -> string)
    requires HeldFromScript(x) && UpdatesLead(x.script, hostOf) && (res, mode) in x.held
    ensures HostOfReq(Lock(res, mode), hostOf) in Doms(x.script, x.pc)
  {
    var i :| 0 <= i < x.pc && Asks(x.script[i], (res, mode));
    assert Behind(x.script, i, hostOf);
    if !IsUpdate(x.script[i]) {
      var j :| 0 <= j < i && IsUpdate(x.script[j]) && x.script[j].res.host == HostOfReq(x.script[i], hostOf);
    }
  }

  lemma DomIsHeld(x: Tx, i: nat, h: string)
    requires HeldFromScript(x) && i <= x.pc && h in Doms(x.script, i)
    ensures (Dom(h), Update) in x.held
  {
    var j :| 0 <= j < i && IsUpdate(x.script[j]) && x.script[j].res.host == h;
    assert (x.script[j].res, x.script[j].mode) in x.held;
  }

  lemma DomsApart(s: Sys, t: nat, u: nat)
    requires Compatible(s) && t in s.txs && u in s.txs && t != u
    requires HeldFromScript(s.txs[t]) && HeldFromScript(s.txs[u])
    ensures Doms(s.txs[t].script, s.txs[t].pc) !! Doms(s.txs[u].script, s.txs[u].pc)
  {
    assert NoClash(s.txs[t].held, s.txs[u].held);
    forall h | h in Doms(s.txs[t].script, s.txs[t].pc) ensures h !in Doms(s.txs[u].script, s.txs[u].pc) {
      DomIsHeld(s.txs[t], s.txs[t].pc, h);
      if h in Doms(s.txs[u].script, s.txs[u].pc) {
        DomIsHeld(s.txs[u], s.txs[u].pc, h);
        assert Conflict((Dom(h), Update).1, (Dom(h), Update).1);
      }
    }
  }

  ghost predicate Leading(x: Tx, hostOf: string -> string) {
    HeldFromScript(x) && UpdatesLead(x.script, hostOf)
  }

  /** Transaction t is about to update a domain row that u has asked for. */
  ghost predicate WaitsFor(s: Sys, t: nat, u: nat) {
    && t in s.txs && u in s.txs && s.txs[t].pc < |s.txs[t].script| && s.txs[u].pc <= |s.txs[u].script|
    && IsUpdate(s.txs[t].script[s.txs[t].pc])
    && s.txs[t].script[s.txs[t].pc].res.host in Doms(s.txs[u].script, s.txs[u].pc)
  }

  function ResOf(r: Req): Res {
    if r.InsertUrl? then Url(r.url) else r.res
  }

  /** What holds up a request that comes after an update of its domain cannot be a lock on that domain. */
  lemma OnlyUpdatesWait(x: Tx, y: Tx, m: Mode, hostOf: string -> string)
    requires Leading(x, hostOf) && Leading(y, hostOf) && x.pc < |x.script| && (ResOf(x.script[x.pc]), m) in y.held
    requires Doms(x.script, x.pc) !! Doms(y.script, y.pc)
    ensures IsUpdate(x.script[x.pc]) && x.script[x.pc].res.host in Doms(y.script, y.pc)
  {
    assert Behind(x.script, x.pc, hostOf);
    HeldMeansDom(y, ResOf(x.script[x.pc]), m, hostOf);
  }

  lemma Opponent(s: Sys, t: nat) returns (u: nat, m: Mode)
    requires t in s.txs && Blocked(s, t)
    ensures s.txs[t].pc < |s.txs[t].script| && u in s.txs && u != t
    ensures (ResOf(s.txs[t].script[s.txs[t].pc]), m) in s.txs[u].held
  {
    var x := s.txs[t];
    var r := x.script[x.pc];
    u, m :| u in s.txs && u != t && (ResOf(r), m) in s.txs[u].held
            && Conflict(if r.Lock? then r.mode else Update, m);
  }

  lemma BlockedWaits(s: Sys, t: nat, hostOf: string -> string) returns (u: nat)
    requires Compatible(s) && t in s.txs && Blocked(s, t)
    requires forall v | v in s.txs :: Leading(s.txs[v], hostOf)
    ensures u != t && WaitsFor(s, t, u)
  {
    var m: Mode;
    u, m := Opponent(s, t);
    assert Leading(s.txs[t], hostOf) && Leading(s.txs[u], hostOf);
    DomsApart(s, t, u);
    OnlyUpdatesWait(s.txs[t], s.txs[u], m, hostOf);
  }

  lemma BothWait(s: Sys, a: seq<Req>, b: seq<Req>, hostOf: string -> string, t: nat, u: nat)
    requires OfPair(s, a, b) && UpdatesLead(a, hostOf) && UpdatesLead(b, hostOf) && Stuck(s)
    requires t in s.txs && {t, u} == {0, 1}
    ensures WaitsFor(s, t, u)
  {
    assert t != u;
    forall v | v in s.txs ensures Leading(s.txs[v], hostOf) {
      assert v == 0 || v == 1;
    }
    var other := BlockedWaits(s, t, hostOf);
    assert other == u;
  }

  lemma DeadlockIsCrossing(s: Sys, a: seq<Req>, b: seq<Req>, hostOf: string -> string)
    requires OfPair(s, a, b) && UpdatesLead(a, hostOf) && UpdatesLead(b, hostOf) && Deadlocked(s)
    ensures exists p, q :: Crossed(a, b, p, q)
  {
    var t :| t in s.txs;
    var u := 1 - t;
    BothWait(s, a, b, hostOf, t, u);
    BothWait(s, a, b, hostOf, u, t);
    MutualWaitCrosses(s, a, b);
  }

  lemma MutualWaitCrosses(s: Sys, a: seq<Req>, b: seq<Req>)
    requires OfPair(s, a, b) && WaitsFor(s, 0, 1) && WaitsFor(s, 1, 0)
    ensures Crossed(a, b, s.txs[0].pc, s.txs[1].pc)
  {
    DomsApart(s, 0, 1);
  }

  // ---------------------------------------------------------------- a crossing is reached

  lemma {:induction false} OneMore(s: Sys, ts: seq<nat>, t: nat)
    requires Steps(s, ts) && CanStep(AfterSteps(s, ts), t)
    ensures Steps(s, ts + [t]) && AfterSteps(s, ts + [t]) == Step(AfterSteps(s, ts), t)
    decreases |ts|
  {
    if ts == [] {
      assert [] + [t] == [t];
      assert Steps(Step(s, t), [t][1..]);
    } else {
      OneMore(Step(s, ts[0]), ts[1..], t);
      assert (ts + [t])[1..] == ts[1..] + [t];
    }
  }

  /** Both transactions at work, at positions p and q. */
  ghost predicate At(s: Sys, a: seq<Req>, b: seq<Req>, p: nat, q: nat) {
    OfPair(s, a, b) && s.txs.Keys == {0, 1} && s.txs[0].pc == p && s.txs[1].pc == q
  }

  lemma StepFirst(s: Sys, a: seq<Req>, b: seq<Req>, p: nat)
    requires At(s, a, b, p, 0) && p < |a|
    ensures CanStep(s, 0) && At(Step(s, 0), a, b, p + 1, 0)
  {
    assert s.txs[1].held == {};
    assert forall v, m, res | v in s.txs && v != 0 :: (res, m) !in s.txs[v].held;
    StepOfPair(s, 0, a, b);
  }

  lemma StepSecond(s: Sys, a: seq<Req>, b: seq<Req>, p: nat, q: nat, end: nat, hostOf: string -> string)
    requires At(s, a, b, p, q) && UpdatesLead(a, hostOf) && UpdatesLead(b, hostOf) && p <= |a| && q < end <= |b|
    requires Doms(a, p) !! Doms(b, end)
    ensures CanStep(s, 1) && At(Step(s, 1), a, b, p, q + 1)
  {
    if Blocked(s, 1) {
      forall v | v in s.txs ensures Leading(s.txs[v], hostOf) {
      }
      var u := BlockedWaits(s, 1, hostOf);
    }
    StepOfPair(s, 1, a, b);
  }

  lemma {:induction false} FirstAlone(a: seq<Req>, b: seq<Req>, rows: set<string>, p: nat) returns (ts: seq<nat>)
    requires p <= |a|
    ensures Steps(Pair(a, b, rows), ts) && At(AfterSteps(Pair(a, b, rows), ts), a, b, p, 0)
  {
    if p == 0 {
      ts := [];
    } else {
      ts := FirstAlone(a, b, rows, p - 1);
      var s := AfterSteps(Pair(a, b, rows), ts);
      StepFirst(s, a, b, p - 1);
      OneMore(Pair(a, b, rows), ts, 0);
      ts := ts + [0];
    }
  }

  lemma {:induction false} ThenSecond(a: seq<Req>, b: seq<Req>, rows: set<string>, p: nat, q: nat, end: nat,
                                      hostOf: string -> string) returns (ts: seq<nat>)
    requires UpdatesLead(a, hostOf) && UpdatesLead(b, hostOf) && p <= |a| && q <= end <= |b|
    requires Doms(a, p) !! Doms(b, end)
    ensures Steps(Pair(a, b, rows), ts) && At(AfterSteps(Pair(a, b, rows), ts), a, b, p, q)
  {
    if q == 0 {
      ts := FirstAlone(a, b, rows, p);
    } else {
      ts := ThenSecond(a, b, rows, p, q - 1, end, hostOf);
      var s := AfterSteps(Pair(a, b, rows), ts);
      StepSecond(s, a, b, p, q - 1, end, hostOf);
      OneMore(Pair(a, b, rows), ts, 1);
      ts := ts + [1];
    }
  }

  lemma WaitingIsBlocked(s: Sys, t: nat, u: nat)
    requires WaitsFor(s, t, u) && t != u && HeldFromScript(s.txs[u])
    ensures Blocked(s, t)
  {
    DomIsHeld(s.txs[u], s.txs[u].pc, s.txs[t].script[s.txs[t].pc].res.host);
  }

  lemma CrossingIsStuck(s: Sys, a: seq<Req>, b: seq<Req>, p: nat, q: nat)
    requires At(s, a, b, p, q) && Crossed(a, b, p, q)
    ensures Deadlocked(s)
  {
    WaitingIsBlocked(s, 0, 1);
    WaitingIsBlocked(s, 1, 0);
  }

  ghost predicate LeadsToDeadlock(s: Sys, ts: seq<nat>) {
    Steps(s, ts) && Deadlocked(AfterSteps(s, ts))
  }

  lemma DeadlockCrosses(a: seq<Req>, b: seq<Req>, rows: set<string>, ts: seq<nat>, hostOf: string -> string)
    requires UpdatesLead(a, hostOf) && UpdatesLead(b, hostOf) && LeadsToDeadlock(Pair(a, b, rows), ts)
    ensures exists p, q :: Crossed(a, b, p, q)
  {
    StepsOfPair(Pair(a, b, rows), ts, a, b);
    DeadlockIsCrossing(AfterSteps(Pair(a, b, rows), ts), a, b, hostOf);
  }

  lemma CrossingDeadlocks(a: seq<Req>, b: seq<Req>, rows: set<string>, p: nat, q: nat, hostOf: string -> string)
    returns (ts: seq<nat>)
    requires UpdatesLead(a, hostOf) && UpdatesLead(b, hostOf) && Crossed(a, b, p, q)
    ensures LeadsToDeadlock(Pair(a, b, rows), ts)
  {
    ts := ThenSecond(a, b, rows, p, q, q, hostOf);
    CrossingIsStuck(AfterSteps(Pair(a, b, rows), ts), a, b, p, q);
  }

  ghost predicate CanDeadlock(a: seq<Req>, b: seq<Req>, rows: set<string>) {
    exists ts :: LeadsToDeadlock(Pair(a, b, rows), ts)
  }

  ghost predicate ScriptsCross(a: seq<Req>, b: seq<Req>) {
    exists p, q :: Crossed(a, b, p, q)
  }

  /** From two transactions of this kind, both begun and nothing else at work, a deadlock can be reached if and only if
      their scripts cross. */
  lemma DeadlockExactlyWhenCrossed(a: seq<Req>, b: seq<Req>, rows: set<string>, hostOf: string -> string)
    requires UpdatesLead(a, hostOf) && UpdatesLead(b, hostOf)
    ensures CanDeadlock(a, b, rows) <==> ScriptsCross(a, b)
  {
    if ts :| LeadsToDeadlock(Pair(a, b, rows), ts) {
      DeadlockCrosses(a, b, rows, ts, hostOf);
    } else if p, q :| Crossed(a, b, p, q) {
      var ts := CrossingDeadlocks(a, b, rows, p, q, hostOf);
    }
  }

  // ---------------------------------------------------------------- two seed lists

  /** The lists cross at i and j: each names there the host of an earlier seed of the other, and the seeds before have no
      host in common. */
  predicate ListsCross(x: seq<string>, y: seq<string>, i: nat, j: nat, hostOf: string -> string) {
    && i < |x| && j < |y| && hostOf(x[i]) in Hosts(y[..j], hostOf) && hostOf(y[j]) in Hosts(x[..i], hostOf)
    && Hosts(x[..i], hostOf) !! Hosts(y[..j], hostOf)
  }

  /** The position of the first request for seed i. */
  function Start(urls: seq<string>, made: seq<bool>, i: nat, hostOf: string -> string): nat
    requires |made| == |urls| && i <= |urls|
  {
    |SeedScript(urls[..i], made[..i], hostOf)|
  }

  lemma DomsOfPrefix(a: seq<Req>, b: seq<Req>, i: nat)
    requires i <= |a|
    ensures Doms(a + b, i) == Doms(a, i)
  {
    forall j | 0 <= j < i ensures (a + b)[j] == a[j] {
    }
  }

  lemma DomsOfAppend(a: seq<Req>, b: seq<Req>)
    ensures Doms(a + b, |a + b|) == Doms(a, |a|) + Doms(b, |b|)
  {
    var s := a + b;
    forall h | h in Doms(a, |a|) + Doms(b, |b|) ensures h in Doms(s, |s|) {
      if h in Doms(a, |a|) {
        var j :| 0 <= j < |a| && IsUpdate(a[j]) && a[j].res.host == h;
        assert s[j] == a[j];
      } else {
        var j :| 0 <= j < |b| && IsUpdate(b[j]) && b[j].res.host == h;
        assert s[|a| + j] == b[j];
      }
    }
    forall h | h in Doms(s, |s|) ensures h in Doms(a, |a|) + Doms(b, |b|) {
      var j :| 0 <= j < |s| && IsUpdate(s[j]) && s[j].res.host == h;
      if j < |a| {
        assert s[j] == a[j];
      } else {
        assert s[j] == b[j - |a|];
      }
    }
  }

  lemma DomsOfTurn(u: string, made: bool, hostOf: string -> string)
    ensures Doms(SeedTurn(u, made, hostOf), |SeedTurn(u, made, hostOf)|) == if hostOf(u) == "" then {} else {hostOf(u)}
  {
    var b := SeedTurn(u, made, hostOf);
    if hostOf(u) != "" {
      assert IsUpdate(b[0]) && b[0].res.host == hostOf(u);
    }
  }

  lemma HostsSnoc(urls: seq<string>, u: string, hostOf: string -> string)
    ensures Hosts(urls + [u], hostOf) == Hosts(urls, hostOf) + if hostOf(u) == "" then {} else {hostOf(u)}
  {
    assert forall x :: x in urls + [u] <==> x in urls || x == u;
  }

  lemma {:induction false} DomsOfSeeds(urls: seq<string>, made: seq<bool>, hostOf: string -> string)
    requires |made| == |urls|
    ensures var s := SeedScript(urls, made, hostOf); Doms(s, |s|) == Hosts(urls, hostOf)
    decreases |urls|
  {
    if urls != [] {
      var n := |urls| - 1;
      DomsOfSeeds(urls[..n], made[..n], hostOf);
      DomsOfTurn(urls[n], made[n], hostOf);
      DomsOfAppend(SeedScript(urls[..n], made[..n], hostOf), SeedTurn(urls[n], made[n], hostOf));
      HostsSnoc(urls[..n], urls[n], hostOf);
      assert urls == urls[..n] + [urls[n]];
    }
  }

  /** Where seed i asks for its domain, and what was asked for before. */
  lemma {:induction false} SeedAt(urls: seq<string>, made: seq<bool>, i: nat, hostOf: string -> string)
    requires |made| == |urls| && i < |urls| && hostOf(urls[i]) != ""
    ensures var s, p := SeedScript(urls, made, hostOf), Start(urls, made, i, hostOf);
            p < |s| && s[p] == Lock(Dom(hostOf(urls[i])), Update) && Doms(s, p) == Hosts(urls[..i], hostOf)
    decreases |urls|
  {
    var n := |urls| - 1;
    var a, b := SeedScript(urls[..n], made[..n], hostOf), SeedTurn(urls[n], made[n], hostOf);
    if i == n {
      DomsOfSeeds(urls[..n], made[..n], hostOf);
      DomsOfPrefix(a, b, |a|);
      assert (a + b)[|a|] == b[0];
    } else {
      SeedAt(urls[..n], made[..n], i, hostOf);
      assert urls[..n][..i] == urls[..i] && made[..n][..i] == made[..i];
      DomsOfPrefix(a, b, Start(urls, made, i, hostOf));
    }
  }

  /** Only the seeds ask for domains. */
  lemma {:induction false} SeedOf(urls: seq<string>, made: seq<bool>, p: nat, hostOf: string -> string) returns (i: nat)
    requires |made| == |urls| && p < |SeedScript(urls, made, hostOf)| && IsUpdate(SeedScript(urls, made, hostOf)[p])
    ensures i < |urls| && hostOf(urls[i]) != "" && p == Start(urls, made, i, hostOf)
    decreases |urls|
  {
    var n := |urls| - 1;
    var a, b := SeedScript(urls[..n], made[..n], hostOf), SeedTurn(urls[n], made[n], hostOf);
    if p < |a| {
      assert (a + b)[p] == a[p];
      i := SeedOf(urls[..n], made[..n], p, hostOf);
      assert urls[..n][..i] == urls[..i] && made[..n][..i] == made[..i];
    } else {
      assert (a + b)[p] == b[p - |a|];
      i := n;
    }
  }

  lemma BehindShifts(a: seq<Req>, b: seq<Req>, i: nat, hostOf: string -> string)
    requires i < |a| && Behind(a, i, hostOf)
    ensures Behind(a + b, i, hostOf)
  {
    DomsOfPrefix(a, b, i);
    assert (a + b)[i] == a[i];
  }

  lemma TurnIsBehind(a: seq<Req>, u: string, made: bool, i: nat, hostOf: string -> string)
    requires i < |SeedTurn(u, made, hostOf)|
    ensures Behind(a + SeedTurn(u, made, hostOf), |a| + i, hostOf)
  {
    var b := SeedTurn(u, made, hostOf);
    assert (a + b)[|a| + i] == b[i] && (a + b)[|a|] == b[0];
    assert i > 0 ==> IsUpdate((a + b)[|a|]) && (a + b)[|a|].res.host in Doms(a + b, |a| + i);
  }

  lemma {:induction false} SeedsLead(urls: seq<string>, made: seq<bool>, hostOf: string -> string)
    requires |made| == |urls|
    ensures UpdatesLead(SeedScript(urls, made, hostOf), hostOf)
    decreases |urls|
  {
    if urls != [] {
      var n := |urls| - 1;
      SeedsLead(urls[..n], made[..n], hostOf);
      var a, b := SeedScript(urls[..n], made[..n], hostOf), SeedTurn(urls[n], made[n], hostOf);
      forall i | 0 <= i < |a + b| ensures Behind(a + b, i, hostOf) {
        if i < |a| {
          BehindShifts(a, b, i, hostOf);
        } else {
          TurnIsBehind(a, urls[n], made[n], i - |a|, hostOf);
        }
      }
    }
  }

  lemma ListsToScripts(x: seq<string>, y: seq<string>, madeX: seq<bool>, madeY: seq<bool>, i: nat, j: nat,
                       hostOf: string -> string)
    requires |madeX| == |x| && |madeY| == |y| && ListsCross(x, y, i, j, hostOf)
    ensures Crossed(SeedScript(x, madeX, hostOf), SeedScript(y, madeY, hostOf), Start(x, madeX, i, hostOf),
                    Start(y, madeY, j, hostOf))
  {
    SeedAt(x, madeX, i, hostOf);
    SeedAt(y, madeY, j, hostOf);
  }

  lemma ScriptsToLists(x: seq<string>, y: seq<string>, madeX: seq<bool>, madeY: seq<bool>, p: nat, q: nat,
                       hostOf: string -> string) returns (i: nat, j: nat)
    requires |madeX| == |x| && |madeY| == |y|
    requires Crossed(SeedScript(x, madeX, hostOf), SeedScript(y, madeY, hostOf), p, q)
    ensures ListsCross(x, y, i, j, hostOf)
  {
    i := SeedOf(x, madeX, p, hostOf);
    j := SeedOf(y, madeY, q, hostOf);
    SeedAt(x, madeX, i, hostOf);
    SeedAt(y, madeY, j, hostOf);
  }

  /** Two seed() transactions, both begun, can deadlock if and only if their lists cross: whatever rows there are and
      whatever the inserts turn out to do. */
  lemma SeedsDeadlockExactlyWhenCrossed(x: seq<string>, y: seq<string>, madeX: seq<bool>, madeY: seq<bool>,
                                        rows: set<string>, hostOf: string -> string)
    requires |madeX| == |x| && |madeY| == |y|
    ensures CanDeadlock(SeedScript(x, madeX, hostOf), SeedScript(y, madeY, hostOf), rows)
            <==> exists i, j :: ListsCross(x, y, i, j, hostOf)
  {
    SeedsLead(x, madeX, hostOf);
    SeedsLead(y, madeY, hostOf);
    DeadlockExactlyWhenCrossed(SeedScript(x, madeX, hostOf), SeedScript(y, madeY, hostOf), rows, hostOf);
    SeedsCrossAsLists(x, y, madeX, madeY, hostOf);
  }

  lemma SeedsCrossAsLists(x: seq<string>, y: seq<string>, madeX: seq<bool>, madeY: seq<bool>, hostOf: string -> string)
    requires |madeX| == |x| && |madeY| == |y|
    ensures ScriptsCross(SeedScript(x, madeX, hostOf), SeedScript(y, madeY, hostOf))
            <==> exists i, j :: ListsCross(x, y, i, j, hostOf)
  {
    var a, b := SeedScript(x, madeX, hostOf), SeedScript(y, madeY, hostOf);
    if p, q :| Crossed(a, b, p, q) {
      var i, j := ScriptsToLists(x, y, madeX, madeY, p, q, hostOf);
    } else if i, j :| ListsCross(x, y, i, j, hostOf) {
      ListsToScripts(x, y, madeX, madeY, i, j, hostOf);
    }
  }

  // ---------------------------------------------------------------- sorted seeds

  predicate SortedByHost(urls: seq<string>, hostOf: string -> string) {
    forall i, j | 0 <= i < j < |urls| :: StrLe(hostOf(urls[i]), hostOf(urls[j]))
  }

  lemma TurnRequests(u: string, made: bool, hostOf: string -> string)
    requires hostOf(u) != ""
    ensures var b := SeedTurn(u, made, hostOf);
            && b != [] && b[0] == Lock(Dom(hostOf(u)), Update)
            && forall i | 0 <= i < |b| :: LinkRequest(b[i], u, {}, hostOf)
  {
  }

  lemma {:induction false} SortedSeedsOrdered(urls: seq<string>, made: seq<bool>, rows: set<string>,
                                              hostOf: string -> string, h: string)
    requires |made| == |urls| && SortedByHost(urls, hostOf)
    requires urls != [] ==> StrLe(hostOf(urls[|urls| - 1]), h)
    ensures var s := SeedScript(urls, made, hostOf); Ordered(s, rows, hostOf) && UpTo(s, h) && UpdatesFirst(s)
    decreases |urls|
  {
    if urls != [] {
      var n := |urls| - 1;
      var u, k := urls[n], hostOf(urls[n]);
      SortedSeedsOrdered(urls[..n], made[..n], rows, hostOf, k);
      var a, b := SeedScript(urls[..n], made[..n], hostOf), SeedTurn(u, made[n], hostOf);
      if k != "" {
        TurnRequests(u, made[n], hostOf);
        AppendLink(a, b, u, {}, rows, hostOf);
        AppendUpTo(a, b, u, {}, hostOf);
        AppendUpdatesFirst(a, b, u, {}, hostOf);
      } else {
        assert a + b == a;
      }
      forall i | 0 <= i < |a + b| && (a + b)[i].Lock? && (a + b)[i].res.Dom? ensures StrLe((a + b)[i].res.host, h) {
        StrLeTransitive((a + b)[i].res.host, k, h);
      }
    }
  }

  /** Sorted by host, as add() sorts its links, the seeds make a disciplined script: it never takes part in a deadlock. */
  lemma SortedSeedsAreDisciplined(urls: seq<string>, made: seq<bool>, rows: set<string>, hostOf: string -> string)
    requires |made| == |urls| && SortedByHost(urls, hostOf)
    ensures Disciplined(SeedScript(urls, made, hostOf), rows, hostOf)
  {
    var h := if urls == [] then "" else hostOf(urls[|urls| - 1]);
    StrLeTotal(h, h);
    SortedSeedsOrdered(urls, made, rows, hostOf, h);
  }
}
