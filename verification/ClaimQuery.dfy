/** The two-stage SELECT of claim_urls and claim_scrape_targets: the first domains with claimable work, then one row
    of each, skipping the rows other transactions hold. */
module ClaimQuery {
  import opened Base

  /** What the query reads of a row; `ready` is its WHERE clause. A scrape target has priority 0. */
  datatype Item = Item(domain: nat, ready: bool, priority: int, dueAt: int)

  function ReadyDomains(items: map<nat, Item>): set<nat> {
    set id | id in items && items[id].ready :: items[id].domain
  }

  function Below(domains: set<nat>, d: nat): set<nat> {
    set e | e in domains && e < d
  }

  /** How many of the domains come before `d`. */
  function Rank(domains: set<nat>, d: nat): nat {
    |Below(domains, d)|
  }

  predicate Better(a: Item, b: Item) {
    a.priority > b.priority || (a.priority == b.priority && a.dueAt < b.dueAt)
  }

  predicate Candidate(items: map<nat, Item>, locked: set<nat>, d: nat, id: nat) {
    id in items && id !in locked && items[id].ready && items[id].domain == d
  }

  /** A candidate of its domain that no other candidate beats. */
  predicate Best(items: map<nat, Item>, locked: set<nat>, id: nat) {
    && id in items && Candidate(items, locked, items[id].domain, id)
    && forall j | j in items && Candidate(items, locked, items[id].domain, j) :: !Better(items[j], items[id])
  }

  predicate HasCandidate(items: map<nat, Item>, locked: set<nat>, d: nat) {
    exists id | id in items :: Candidate(items, locked, d, id)
  }

  function DomainsOf(items: map<nat, Item>, picks: seq<nat>): set<nat> {
    set p | p in picks && p in items :: items[p].domain
  }

  predicate Ascending(items: map<nat, Item>, picks: seq<nat>) {
    && (forall i | 0 <= i < |picks| :: picks[i] in items)
    && forall i, j | 0 <= i < j < |picks| :: items[picks[i]].domain < items[picks[j]].domain
  }

  /** The answer of the query: one best unlocked row for each of the first `batch` ready domains that has one. */
  predicate Answer(items: map<nat, Item>, locked: set<nat>, batch: nat, picks: seq<nat>) {
    && Ascending(items, picks)
    && (forall id | id in picks ::
          Best(items, locked, id) && Rank(ReadyDomains(items), items[id].domain) < batch)
    && (forall d | d in ReadyDomains(items) && Rank(ReadyDomains(items), d) < batch
                   && HasCandidate(items, locked, d) :: d in DomainsOf(items, picks))
  }

  predicate IsLeast(s: set<nat>, m: nat) {
    m in s && forall e | e in s :: m <= e
  }

  lemma {:induction false} SomeLeast(s: set<nat>) returns (least: nat)
    requires s != {}
    ensures IsLeast(s, least)
  {
    var x :| x in s;
    least := x;
    if s != {x} {
      var other := SomeLeast(s - {x});
      least := Min(x, other);
      assert forall e | e in s :: e == x || e in s - {x};
    }
  }

  lemma {:induction false} BestExists(items: map<nat, Item>, c: set<nat>)
    requires c != {} && forall id | id in c :: id in items
    ensures exists b :: b in c && forall j | j in c :: !Better(items[j], items[b])
    decreases c
  {
    var x :| x in c;
    if c != {x} {
      BestExists(items, c - {x});
      var m :| m in c - {x} && forall j | j in c - {x} :: !Better(items[j], items[m]);
      var best := if Better(items[x], items[m]) then x else m;
      forall j | j in c ensures !Better(items[j], items[best]) {
        assert j == x || j in c - {x};
      }
    }
  }

  /** The domains already visited are exactly the lowest ones, so their ranks are below their number. */
  lemma RanksOfPrefix(domains: set<nat>, seen: set<nat>, d: nat)
    requires LowPart(domains, seen) && d in domains
    ensures d in seen ==> Rank(domains, d) < |seen|
    ensures d !in seen ==> Rank(domains, d) >= |seen|
  {
    if d in seen {
      forall e | e in Below(domains, d) ensures e in seen - {d} {
        assert e in domains - seen ==> d < e;
      }
      SubsetSize(Below(domains, d), seen - {d});
    } else {
      assert d in domains - seen;
      SubsetSize(seen, Below(domains, d));
    }
  }

  /** The LATERAL subquery: ORDER BY priority DESC, due time FOR UPDATE SKIP LOCKED LIMIT 1. */
  method PickOne(items: map<nat, Item>, locked: set<nat>, d: nat) returns (picked: Option<nat>)
    ensures picked.Some? ==> picked.value in items && items[picked.value].domain == d
                             && Best(items, locked, picked.value)
    ensures picked.None? ==> !HasCandidate(items, locked, d)
  {
    var candidates := set id | id in items && Candidate(items, locked, d, id);
    assert forall id | id in items && Candidate(items, locked, d, id) :: id in candidates;
    if candidates == {} {
      return None;
    }
    BestExists(items, candidates);
    var id :| id in candidates && forall j | j in candidates :: !Better(items[j], items[id]);
    return Some(id);
  }

  ghost predicate Visited(items: map<nat, Item>, locked: set<nat>, picks: seq<nat>, seen: set<nat>) {
    && Ascending(items, picks)
    && (forall id | id in picks :: Best(items, locked, id) && items[id].domain in seen)
    && (forall d | d in seen && HasCandidate(items, locked, d) :: d in DomainsOf(items, picks))
  }

  /** `seen` holds the lowest of the domains. */
  ghost predicate LowPart(domains: set<nat>, seen: set<nat>) {
    seen <= domains && forall a, b | a in seen && b in domains - seen :: a < b
  }

  lemma ExtendLowPart(domains: set<nat>, seen: set<nat>, d: nat)
    requires LowPart(domains, seen) && d in domains - seen && forall e | e in domains - seen :: d <= e
    ensures LowPart(domains, seen + {d}) && |seen + {d}| == |seen| + 1 && forall e | e in seen :: e < d
  {
    forall a, b | a in seen + {d} && b in domains - (seen + {d}) ensures a < b {
      assert b in domains - seen;
    }
  }

  lemma VisitNone(items: map<nat, Item>, locked: set<nat>, picks: seq<nat>, seen: set<nat>, d: nat)
    requires Visited(items, locked, picks, seen) && !HasCandidate(items, locked, d)
    ensures Visited(items, locked, picks, seen + {d})
  {
  }

  lemma VisitOne(items: map<nat, Item>, locked: set<nat>, picks: seq<nat>, seen: set<nat>, id: nat)
    requires Visited(items, locked, picks, seen) && id in items && forall e | e in seen :: e < items[id].domain
    requires Best(items, locked, id)
    ensures Visited(items, locked, picks + [id], seen + {items[id].domain})
  {
    assert DomainsOf(items, picks + [id]) == DomainsOf(items, picks) + {items[id].domain};
  }

  lemma AllVisited(items: map<nat, Item>, locked: set<nat>, batch: nat, picks: seq<nat>, seen: set<nat>)
    requires Visited(items, locked, picks, seen) && LowPart(ReadyDomains(items), seen)
    requires |seen| <= batch && (|seen| == batch || seen == ReadyDomains(items))
    ensures Answer(items, locked, batch, picks)
  {
    forall d | d in ReadyDomains(items)
      ensures d in seen ==> Rank(ReadyDomains(items), d) < batch
      ensures d !in seen ==> Rank(ReadyDomains(items), d) >= batch
    {
      RanksOfPrefix(ReadyDomains(items), seen, d);
    }
  }

  method Least(s: set<nat>) returns (m: nat)
    requires s != {}
    ensures IsLeast(s, m)
  {
    ghost var least := SomeLeast(s);
    m :| m in s && IsLeast(s, m);
  }

  method Select(items: map<nat, Item>, locked: set<nat>, batch: nat) returns (picks: seq<nat>)
    ensures Answer(items, locked, batch, picks)
  {
    var domains := ReadyDomains(items);
    var seen: set<nat> := {};
    picks := [];
    while seen != domains && |seen| < batch
      invariant LowPart(domains, seen) && |seen| <= batch
      invariant Visited(items, locked, picks, seen)
      decreases batch - |seen|
    {
      var d := Least(domains - seen);
      ExtendLowPart(domains, seen, d);
      var picked := PickOne(items, locked, d);
      if picked.Some? {
        VisitOne(items, locked, picks, seen, picked.value);
        picks := picks + [picked.value];
      } else {
        VisitNone(items, locked, picks, seen, d);
      }
      seen := seen + {d};
    }
    AllVisited(items, locked, batch, picks, seen);
  }

  // ---------------------------------------------------------------- no concurrent lock holders

  lemma {:induction false} LowestAreMany(domains: set<nat>, batch: nat)
    ensures |set d | d in domains && Rank(domains, d) < batch| == Min(batch, |domains|)
  {
    var low := set d | d in domains && Rank(domains, d) < batch;
    if |domains| <= batch {
      forall d | d in domains ensures Rank(domains, d) < batch {
        RanksOfPrefix(domains, domains, d);
      }
      assert low == domains;
    } else {
      var m := SomeGreatest(domains);
      var rest := domains - {m};
      assert Below(domains, m) == rest;
      forall d | d in rest ensures Rank(rest, d) == Rank(domains, d) {
        assert Below(rest, d) == Below(domains, d);
      }
      var lowRest := set d | d in rest && Rank(rest, d) < batch;
      assert low == lowRest;
      LowestAreMany(rest, batch);
    }
  }

  lemma {:induction false} SomeGreatest(s: set<nat>) returns (greatest: nat)
    requires s != {}
    ensures greatest in s && forall e | e in s :: e <= greatest
  {
    var x :| x in s;
    greatest := x;
    if s != {x} {
      var other := SomeGreatest(s - {x});
      greatest := if other > x then other else x;
      assert forall e | e in s :: e == x || e in s - {x};
    }
  }

  lemma {:induction false} AscendingSize(items: map<nat, Item>, picks: seq<nat>)
    requires Ascending(items, picks)
    ensures |DomainsOf(items, picks)| == |picks|
    decreases |picks|
  {
    if picks != [] {
      var front, last := picks[..|picks| - 1], picks[|picks| - 1];
      AscendingSize(items, front);
      assert picks == front + [last];
      assert items[last].domain !in DomainsOf(items, front);
      assert DomainsOf(items, picks) == DomainsOf(items, front) + {items[last].domain};
    }
  }

  /** With no concurrent lock holders the claim returns min(batch, ready domains) rows, one for each of the smallest
      ready domain ids. */
  lemma ClaimIsFull(items: map<nat, Item>, batch: nat, picks: seq<nat>)
    requires Answer(items, {}, batch, picks)
    ensures |picks| == Min(batch, |ReadyDomains(items)|)
    ensures forall d, e | d in DomainsOf(items, picks) && e in ReadyDomains(items) - DomainsOf(items, picks) :: d < e
  {
    var domains := ReadyDomains(items);
    var low := set d | d in domains && Rank(domains, d) < batch;
    assert DomainsOf(items, picks) == low by {
      forall d | d in low ensures d in DomainsOf(items, picks) {
        var id :| id in items && items[id].ready && items[id].domain == d;
        assert Candidate(items, {}, d, id);
      }
      forall d | d in DomainsOf(items, picks) ensures d in low {
        var p :| p in picks && p in items && items[p].domain == d;
        assert Best(items, {}, p);
      }
    }
    AscendingSize(items, picks);
    LowestAreMany(domains, batch);
    forall d, e | d in low && e in domains - low ensures d < e {
      if e <= d {
        SubsetSize(Below(domains, e), Below(domains, d));
      }
    }
  }
}
