/** The scripts of the frontier's transactions are disciplined, so they never deadlock and all finish. */
module LockScripts {
  import opened Base
  import opened Strings
  import opened Tables
  import opened Locks
  import HostSort

  // ---------------------------------------------------------------- runs

  ghost predicate Run(ss: seq<Sys>, es: seq<Event>, hostOf: string -> string) {
    && |ss| == |es| + 1 && ss[0].txs == map[]
    && forall i | 0 <= i < |es| :: Possible(ss[i], es[i], hostOf) && ss[i + 1] == After(ss[i], es[i], hostOf)
  }

  lemma {:induction false} RunKeepsInv(ss: seq<Sys>, es: seq<Event>, hostOf: string -> string, i: nat)
    requires Run(ss, es, hostOf) && i < |ss|
    ensures Inv(ss[i], hostOf)
  {
    if i > 0 {
      RunKeepsInv(ss, es, hostOf, i - 1);
      EventKeepsInv(ss[i - 1], es[i - 1], hostOf);
    }
  }

  /** Deadlock freedom: whatever transactions began, stepped or were aborted before, while some are unfinished one of
      them can take its next step. */
  lemma NeverDeadlocked(ss: seq<Sys>, es: seq<Event>, hostOf: string -> string, i: nat)
    requires Run(ss, es, hostOf) && i < |ss| && ss[i].txs != map[]
    ensures exists t :: CanStep(ss[i], t)
  {
    RunKeepsInv(ss, es, hostOf, i);
    SomeoneCanStep(ss[i], hostOf);
  }

  /** The steps the unfinished transactions still have to take, their commits included. */
  ghost function Remaining(s: Sys): map<nat, int> {
    map t | t in s.txs :: |s.txs[t].script| - s.txs[t].pc + 1
  }

  lemma StepIsProgress(s: Sys, t: nat, hostOf: string -> string)
    requires Inv(s, hostOf) && CanStep(s, t)
    ensures Total(Remaining(Step(s, t))) == Total(Remaining(s)) - 1
  {
    assert TxOk(s, t, hostOf);
    if s.txs[t].pc < |s.txs[t].script| {
      RequestIsProgress(s, t);
    } else {
      CommitIsProgress(s, t);
    }
  }

  lemma RequestIsProgress(s: Sys, t: nat)
    requires CanStep(s, t) && s.txs[t].pc < |s.txs[t].script|
    ensures Total(Remaining(Step(s, t))) == Total(Remaining(s)) - 1
  {
    var r := Remaining(s);
    assert Remaining(Step(s, t)) == r[t := r[t] - 1];
    TotalUpdate(r, t, r[t] - 1);
  }

  lemma CommitIsProgress(s: Sys, t: nat)
    requires CanStep(s, t) && s.txs[t].pc == |s.txs[t].script|
    ensures Total(Remaining(Step(s, t))) == Total(Remaining(s)) - 1
  {
    assert Remaining(Step(s, t)) == Remaining(s) - {t};
    TotalRemove(Remaining(s), t);
  }

  ghost predicate Steps(s: Sys, ts: seq<nat>)
    decreases |ts|
  {
    ts == [] || (CanStep(s, ts[0]) && Steps(Step(s, ts[0]), ts[1..]))
  }

  ghost function AfterSteps(s: Sys, ts: seq<nat>): Sys
    requires Steps(s, ts)
    decreases |ts|
  {
    if ts == [] then s else AfterSteps(Step(s, ts[0]), ts[1..])
  }

  lemma RemainingNatural(s: Sys, hostOf: string -> string)
    requires Inv(s, hostOf)
    ensures Total(Remaining(s)) >= 0 && (s.txs != map[] ==> Total(Remaining(s)) > 0)
  {
    forall t | t in s.txs ensures |s.txs[t].script| - s.txs[t].pc + 1 >= 1 {
      assert TxOk(s, t, hostOf);
    }
    TotalNatural(Remaining(s));
    if s.txs != map[] {
      var t :| t in s.txs;
      TotalRemove(Remaining(s), t);
      TotalNatural(Remaining(s) - {t});
    }
  }

  /** Absent aborts and new arrivals all transactions finish: no schedule is longer than the steps they have left, and
      one that cannot be continued has finished them all. */
  lemma {:induction false} AllFinish(s: Sys, ts: seq<nat>, hostOf: string -> string)
    requires Inv(s, hostOf) && Steps(s, ts)
    ensures |ts| <= Total(Remaining(s))
    ensures AfterSteps(s, ts).txs == map[] || exists t :: CanStep(AfterSteps(s, ts), t)
    ensures |ts| == Total(Remaining(s)) ==> AfterSteps(s, ts).txs == map[]
    decreases |ts|
  {
    RemainingNatural(s, hostOf);
    if ts == [] {
      if s.txs != map[] {
        SomeoneCanStep(s, hostOf);
      }
    } else {
      StepIsProgress(s, ts[0], hostOf);
      EventKeepsInv(s, Go(ts[0]), hostOf);
      AllFinish(Step(s, ts[0]), ts[1..], hostOf);
    }
  }

  // ---------------------------------------------------------------- the frontier's scripts

  /** One turn of _add_once: the upsert of the domain, the insert of the url with its foreign-key check, the edge with
      its two, the counter. `edge` says whether an edge row is inserted, `row` whether a url row is. */
  function LinkScript(u: string, from: string, row: bool, edge: bool, hostOf: string -> string): seq<Req> {
    [Lock(Dom(hostOf(u)), Update), InsertUrl(u)]
    + (if row then [Lock(Dom(hostOf(u)), KeyShare)] else [])
    + (if edge then [Lock(Url(from), KeyShare), Lock(Url(u), KeyShare)] else [])
    + [Lock(Dom(hostOf(u)), NoKeyUpdate)]
  }

  datatype Outcome = Outcome(row: bool, edge: bool)

  /** _add_once over links, with what each turn turned out to insert. */
  function AddScript(links: seq<Link>, outcomes: seq<Outcome>, from: string, hostOf: string -> string): seq<Req>
    requires |outcomes| == |links|
    decreases |links|
  {
    if links == [] then []
    else
      var front, last := links[..|links| - 1], links[|links| - 1];
      AddScript(front, outcomes[..|links| - 1], from, hostOf)
      + if hostOf(last.url) == "" then []
        else LinkScript(last.url, from, outcomes[|links| - 1].row, outcomes[|links| - 1].edge, hostOf)
  }

  function CompleteScript(u: string, hostOf: string -> string): seq<Req> {
    [Lock(Dom(hostOf(u)), NoKeyUpdate), Lock(Url(u), NoKeyUpdate), Lock(Url(u), KeyShare)]
  }

  function FeedScript(u: string, hostOf: string -> string): seq<Req> {
    [Lock(Dom(hostOf(u)), Update), InsertUrl(u), Lock(Dom(hostOf(u)), KeyShare)]
  }

  /** fail, skip, renew, reschedule; the counters of fail() and mark_js_required(). */
  function OneRowScript(res: Res): seq<Req> {
    [Lock(res, NoKeyUpdate)]
  }

  function ClaimScript(urls: seq<string>): seq<Req> {
    seq(|urls|, i requires 0 <= i < |urls| => TryLock(Url(urls[i]), Update))
  }

  /** All domain requests of a script are for hosts up to `h`. */
  predicate UpTo(script: seq<Req>, h: string) {
    forall i | 0 <= i < |script| && script[i].Lock? && script[i].res.Dom? :: StrLe(script[i].res.host, h)
  }

  /** An Update lock on the row of host h is requested up to position i. */
  predicate UpdatedBy(script: seq<Req>, i: nat, h: string)
    requires i < |script|
  {
    exists j | 0 <= j <= i :: RequestsDom(script[j], h) && script[j].mode == Update
  }

  /** A script that asks for a domain has an Update lock on it from its first such request on. */
  predicate UpdatesFirst(script: seq<Req>) {
    forall i | 0 <= i < |script| && script[i].Lock? && script[i].res.Dom? :: UpdatedBy(script, i, script[i].res.host)
  }

  lemma GuardShifts(a: seq<Req>, b: seq<Req>, i: nat, u: string, hostOf: string -> string)
    requires i <= |a| && GuardedBefore(a, i, u, hostOf)
    ensures GuardedBefore(a + b, i, u, hostOf)
  {
    var j :| 0 <= j < i && RequestsDom(a[j], hostOf(u)) && Exclusive(a[j].mode);
    assert (a + b)[j] == a[j];
  }

  lemma CoverShifts(a: seq<Req>, b: seq<Req>, i: nat, h: string, m: Mode)
    requires i <= |a| && CoveredBefore(a, i, h, m)
    ensures CoveredBefore(a + b, i, h, m)
  {
    var j :| 0 <= j < i && RequestsDom(a[j], h) && Weaker(m, a[j].mode);
    assert (a + b)[j] == a[j];
  }

  lemma RequestShifts(a: seq<Req>, b: seq<Req>, i: nat, rows: set<string>, hostOf: string -> string)
    requires i < |a| && RequestOk(a, i, rows, hostOf)
    ensures RequestOk(a + b, i, rows, hostOf)
  {
    assert (a + b)[i] == a[i];
    forall j | 0 <= j < i ensures (a + b)[j] == a[j] {
    }
    match a[i]
    case Lock(Url(u), m) =>
      if GuardedBefore(a, i, u, hostOf) {
        GuardShifts(a, b, i, u, hostOf);
      }
    case InsertUrl(u) => GuardShifts(a, b, i, u, hostOf);
    case Lock(Dom(h), m) =>
      if CoveredBefore(a, i, h, m) {
        CoverShifts(a, b, i, h, m);
      }
    case TryLock(_, _) =>
  }

  /** What one turn of a loop asks for: everything on one host and, for urls, one url and the origins of its links. */
  predicate LinkRequest(r: Req, u: string, origins: set<string>, hostOf: string -> string) {
    match r
    case Lock(Dom(h), _) => h == hostOf(u)
    case Lock(Url(x), m) => m == KeyShare && (x == u || x in origins)
    case InsertUrl(x) => x == u
    case TryLock(_, _) => false
  }

  lemma LinkRequests(u: string, from: string, row: bool, edge: bool, hostOf: string -> string)
    ensures var b := LinkScript(u, from, row, edge, hostOf);
            && b != [] && b[0] == Lock(Dom(hostOf(u)), Update)
            && forall i | 0 <= i < |b| :: LinkRequest(b[i], u, {from}, hostOf)
  {
  }

  /** The requests for domains of a turn, and of the script before it, are for hosts up to its own. */
  lemma AppendUpTo(a: seq<Req>, b: seq<Req>, u: string, origins: set<string>, hostOf: string -> string)
    requires UpTo(a, hostOf(u)) && forall i | 0 <= i < |b| :: LinkRequest(b[i], u, origins, hostOf)
    ensures UpTo(a + b, hostOf(u))
  {
    StrLeTotal(hostOf(u), hostOf(u));
    var s := a + b;
    forall i | 0 <= i < |s| && s[i].Lock? && s[i].res.Dom? ensures StrLe(s[i].res.host, hostOf(u)) {
      if i < |a| {
        assert s[i] == a[i];
      } else {
        assert LinkRequest(b[i - |a|], u, origins, hostOf);
      }
    }
  }

  lemma UpdatedShifts(a: seq<Req>, b: seq<Req>, i: nat, h: string)
    requires i < |a| && UpdatedBy(a, i, h)
    ensures UpdatedBy(a + b, i, h)
  {
    var j :| 0 <= j <= i && RequestsDom(a[j], h) && a[j].mode == Update;
    assert (a + b)[j] == a[j];
  }

  /** A turn starts with the strongest lock on its domain. */
  lemma AppendUpdatesFirst(a: seq<Req>, b: seq<Req>, u: string, origins: set<string>, hostOf: string -> string)
    requires UpdatesFirst(a) && b != [] && b[0] == Lock(Dom(hostOf(u)), Update)
    requires forall i | 0 <= i < |b| :: LinkRequest(b[i], u, origins, hostOf)
    ensures UpdatesFirst(a + b)
  {
    var s := a + b;
    forall i | 0 <= i < |s| && s[i].Lock? && s[i].res.Dom? ensures UpdatedBy(s, i, s[i].res.host) {
      if i < |a| {
        UpdatedShifts(a, b, i, s[i].res.host);
      } else {
        assert LinkRequest(b[i - |a|], u, origins, hostOf);
        assert RequestsDom(s[|a|], s[i].res.host) && s[|a|].mode == Update;
      }
    }
  }

  /** After the first request of a turn its url is guarded and its domain covered. */
  lemma TurnIsGuarded(a: seq<Req>, b: seq<Req>, i: nat, u: string, m: Mode, hostOf: string -> string)
    requires 0 < i <= |b| && b[0] == Lock(Dom(hostOf(u)), Update)
    ensures GuardedBefore(a + b, |a| + i, u, hostOf) && CoveredBefore(a + b, |a| + i, hostOf(u), m)
  {
    assert (a + b)[|a|] == b[0];
    assert RequestsDom((a + b)[|a|], hostOf(u));
  }

  /** A domain asked for in an earlier turn is already held for update. */
  lemma EarlierTurnCovers(a: seq<Req>, b: seq<Req>, h: string, m: Mode)
    requires UpdatesFirst(a) && exists j | 0 <= j < |a| :: RequestsDom((a + b)[j], h)
    ensures CoveredBefore(a + b, |a|, h, m)
  {
    var s := a + b;
    var j :| 0 <= j < |a| && RequestsDom(s[j], h);
    assert a[j] == s[j] && UpdatedBy(a, j, a[j].res.host);
    var k :| 0 <= k <= j && RequestsDom(a[k], a[j].res.host) && a[k].mode == Update;
    assert RequestsDom(s[k], h) && Weaker(m, s[k].mode);
  }

  lemma HostsBelow(s: seq<Req>, i: nat, h: string)
    requires i < |s| && UpTo(s, h)
    ensures forall j | 0 <= j < i && s[j].Lock? && s[j].res.Dom? :: StrLe(s[j].res.host, h)
  {
  }

  /** A request of a turn, after an ordered script for hosts up to its own. */
  lemma LinkRequestOk(a: seq<Req>, b: seq<Req>, i: nat, u: string, origins: set<string>, rows: set<string>,
                      hostOf: string -> string)
    requires UpTo(a + b, hostOf(u)) && UpdatesFirst(a) && origins <= rows && i < |b|
    requires b[0] == Lock(Dom(hostOf(u)), Update) && LinkRequest(b[i], u, origins, hostOf)
    ensures RequestOk(a + b, |a| + i, rows, hostOf)
  {
    var s, n := a + b, |a| + i;
    assert s[n] == b[i];
    HostsBelow(s, n, hostOf(u));
    if i > 0 {
      TurnIsGuarded(a, b, i, u, if b[i].Lock? then b[i].mode else KeyShare, hostOf);
    } else if exists j | 0 <= j < |a| :: RequestsDom(s[j], hostOf(u)) {
      EarlierTurnCovers(a, b, hostOf(u), Update);
    }
  }

  /** A turn for a host not smaller than those before keeps the script ordered. */
  lemma AppendLink(a: seq<Req>, b: seq<Req>, u: string, origins: set<string>, rows: set<string>, hostOf: string -> string)
    requires Ordered(a, rows, hostOf) && UpTo(a, hostOf(u)) && UpdatesFirst(a) && origins <= rows
    requires b != [] && b[0] == Lock(Dom(hostOf(u)), Update)
    requires forall i | 0 <= i < |b| :: LinkRequest(b[i], u, origins, hostOf)
    ensures Ordered(a + b, rows, hostOf)
  {
    AppendUpTo(a, b, u, origins, hostOf);
    forall i | 0 <= i < |a + b| ensures RequestOk(a + b, i, rows, hostOf) {
      if i < |a| {
        assert RequestOk(a, i, rows, hostOf);
        RequestShifts(a, b, i, rows, hostOf);
      } else {
        LinkRequestOk(a, b, i - |a|, u, origins, rows, hostOf);
      }
    }
  }

  lemma {:induction false} AddScriptOrdered(links: seq<Link>, outcomes: seq<Outcome>, from: string, rows: set<string>,
                                            hostOf: string -> string, h: string)
    requires |outcomes| == |links| && HostSort.Sorted(links, hostOf) && from in rows
    requires links != [] ==> StrLe(hostOf(links[|links| - 1].url), h)
    ensures var s := AddScript(links, outcomes, from, hostOf);
            Ordered(s, rows, hostOf) && UpTo(s, h) && UpdatesFirst(s)
    decreases |links|
  {
    if links != [] {
      var front, last := links[..|links| - 1], links[|links| - 1];
      var o := outcomes[|links| - 1];
      if front != [] {
        assert StrLe(HostSort.KeyOf(links[|links| - 2], hostOf), HostSort.KeyOf(last, hostOf));
      }
      var k := hostOf(last.url);
      AddScriptOrdered(front, outcomes[..|links| - 1], from, rows, hostOf, k);
      var a := AddScript(front, outcomes[..|links| - 1], from, hostOf);
      if k != "" {
        LinkRequests(last.url, from, o.row, o.edge, hostOf);
        var b := LinkScript(last.url, from, o.row, o.edge, hostOf);
        AppendLink(a, b, last.url, {from}, rows, hostOf);
        AppendUpTo(a, b, last.url, {from}, hostOf);
        AppendUpdatesFirst(a, b, last.url, {from}, hostOf);
      } else {
        assert a + [] == a;
      }
      var s := AddScript(links, outcomes, from, hostOf);
      forall i | 0 <= i < |s| && s[i].Lock? && s[i].res.Dom? ensures StrLe(s[i].res.host, h) {
        StrLeTransitive(s[i].res.host, k, h);
      }
    }
  }

  /** add() is disciplined, because it sorts its links by host and its origin has a row. */
  lemma AddIsDisciplined(links: seq<Link>, outcomes: seq<Outcome>, from: string, rows: set<string>,
                         hostOf: string -> string)
    requires |outcomes| == |links| && from in rows
    ensures |HostSort.SortByHost(links, hostOf)| == |links|
    ensures Disciplined(AddScript(HostSort.SortByHost(links, hostOf), outcomes, from, hostOf), rows, hostOf)
  {
    var s := HostSort.SortByHost(links, hostOf);
    assert |multiset(s)| == |multiset(links)|;
    HostSort.SortIsStable(links, hostOf);
    var h := if s == [] then "" else hostOf(s[|s| - 1].url);
    StrLeTotal(h, h);
    AddScriptOrdered(s, outcomes, from, rows, hostOf, h);
  }

  /** So are complete(), the origin insert of feed_links_to_crawler, the one-row statements and the claims. */
  lemma OthersAreDisciplined(u: string, urls: seq<string>, res: Res, rows: set<string>, hostOf: string -> string)
    ensures Disciplined(CompleteScript(u, hostOf), rows, hostOf)
    ensures Disciplined(FeedScript(u, hostOf), rows, hostOf)
    ensures Disciplined(OneRowScript(res), rows, hostOf)
    ensures Disciplined(ClaimScript(urls), rows, hostOf)
  {
    StrLeTotal(hostOf(u), hostOf(u));
    var c, f := CompleteScript(u, hostOf), FeedScript(u, hostOf);
    assert RequestsDom(c[0], hostOf(u)) && RequestsDom(f[0], hostOf(u));
    forall i | 0 <= i < 3 ensures RequestOk(c, i, rows, hostOf) && RequestOk(f, i, rows, hostOf) {
      assert i > 0 ==> GuardedBefore(c, i, u, hostOf) && GuardedBefore(f, i, u, hostOf);
    }
  }
}
