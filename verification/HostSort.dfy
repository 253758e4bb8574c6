/** Sorting the links of a page by host: a stable sort, and its effect on what add() leaves behind. */
module HostSort {
  import opened Base
  import opened Strings
  import opened LeaseQueue
  import opened Tables
  import opened Discovery

  function KeyOf(l: Link, hostOf: string -> string): string { hostOf(l.url) }

  ghost predicate Sorted(links: seq<Link>, hostOf: string -> string) {
    forall i, j | 0 <= i < j < |links| :: StrLe(KeyOf(links[i], hostOf), KeyOf(links[j], hostOf))
  }

  /** The links of one host, in their order. */
  function OfHost(links: seq<Link>, h: string, hostOf: string -> string): seq<Link>
    decreases |links|
  {
    if links == [] then []
    else
      var earlier := OfHost(links[..|links| - 1], h, hostOf);
      if KeyOf(links[|links| - 1], hostOf) == h then earlier + [links[|links| - 1]] else earlier
  }

  /** `s` is `links` sorted by host, the links of each host kept in order. */
  ghost predicate StableSort(s: seq<Link>, links: seq<Link>, hostOf: string -> string) {
    Sorted(s, hostOf) && forall h :: OfHost(s, h, hostOf) == OfHost(links, h, hostOf)
  }

  // ---------------------------------------------------------------- computing it

  /** `l` goes after every link whose host is not greater. */
  function InsertSorted(s: seq<Link>, l: Link, hostOf: string -> string): (r: seq<Link>)
    ensures multiset(r) == multiset(s) + multiset{l}
    decreases |s|
  {
    if s == [] then [l]
    else if StrLe(KeyOf(s[|s| - 1], hostOf), KeyOf(l, hostOf)) then s + [l]
    else
      assert s == s[..|s| - 1] + [s[|s| - 1]];
      InsertSorted(s[..|s| - 1], l, hostOf) + [s[|s| - 1]]
  }

  function SortByHost(links: seq<Link>, hostOf: string -> string): (r: seq<Link>)
    ensures multiset(r) == multiset(links)
    decreases |links|
  {
    if links == [] then []
    else
      assert links == links[..|links| - 1] + [links[|links| - 1]];
      InsertSorted(SortByHost(links[..|links| - 1], hostOf), links[|links| - 1], hostOf)
  }

  lemma {:induction false} InsertKeepsSorted(s: seq<Link>, l: Link, hostOf: string -> string)
    requires Sorted(s, hostOf)
    ensures Sorted(InsertSorted(s, l, hostOf), hostOf)
    decreases |s|
  {
    if s != [] {
      var last := s[|s| - 1];
      if StrLe(KeyOf(last, hostOf), KeyOf(l, hostOf)) {
        forall i | 0 <= i < |s| ensures StrLe(KeyOf(s[i], hostOf), KeyOf(l, hostOf)) {
          if i < |s| - 1 {
            StrLeTransitive(KeyOf(s[i], hostOf), KeyOf(last, hostOf), KeyOf(l, hostOf));
          }
        }
      } else {
        StrLeTotal(KeyOf(last, hostOf), KeyOf(l, hostOf));
        InsertKeepsSorted(s[..|s| - 1], l, hostOf);
        var r := InsertSorted(s[..|s| - 1], l, hostOf);
        forall i | 0 <= i < |r| ensures StrLe(KeyOf(r[i], hostOf), KeyOf(last, hostOf)) {
          assert r[i] in multiset(r);
          assert r[i] in multiset(s[..|s| - 1]) + multiset{l};
          if r[i] != l {
            assert r[i] in s[..|s| - 1];
          }
        }
      }
    }
  }

  lemma OfHostSnoc(s: seq<Link>, l: Link, h: string, hostOf: string -> string)
    ensures OfHost(s + [l], h, hostOf) ==
            if KeyOf(l, hostOf) == h then OfHost(s, h, hostOf) + [l] else OfHost(s, h, hostOf)
  {
    assert (s + [l])[..|s + [l]| - 1] == s;
  }

  lemma {:induction false} InsertIsStable(s: seq<Link>, l: Link, h: string, hostOf: string -> string)
    ensures OfHost(InsertSorted(s, l, hostOf), h, hostOf) == OfHost(s + [l], h, hostOf)
    decreases |s|
  {
    if s == [] {
      assert s + [l] == [l];
    } else if !StrLe(KeyOf(s[|s| - 1], hostOf), KeyOf(l, hostOf)) {
      var front, last := s[..|s| - 1], s[|s| - 1];
      InsertIsStable(front, l, h, hostOf);
      OfHostSnoc(InsertSorted(front, l, hostOf), last, h, hostOf);
      OfHostSnoc(front, l, h, hostOf);
      OfHostSnoc(s, l, h, hostOf);
      StrLeTotal(KeyOf(l, hostOf), KeyOf(l, hostOf));
    }
  }

  /** The sort is stable. */
  lemma {:induction false} SortIsStable(links: seq<Link>, hostOf: string -> string)
    ensures StableSort(SortByHost(links, hostOf), links, hostOf)
    decreases |links|
  {
    if links != [] {
      var front, last := links[..|links| - 1], links[|links| - 1];
      SortIsStable(front, hostOf);
      var s := SortByHost(front, hostOf);
      InsertKeepsSorted(s, last, hostOf);
      forall h ensures OfHost(SortByHost(links, hostOf), h, hostOf) == OfHost(links, h, hostOf) {
        InsertIsStable(s, last, h, hostOf);
        OfHostSnoc(s, last, h, hostOf);
      }
    }
  }

  lemma {:induction false} OfHostMembers(s: seq<Link>, h: string, hostOf: string -> string)
    ensures forall l :: l in OfHost(s, h, hostOf) <==> l in s && KeyOf(l, hostOf) == h
    decreases |s|
  {
    if s != [] {
      OfHostMembers(s[..|s| - 1], h, hostOf);
      assert s == s[..|s| - 1] + [s[|s| - 1]];
    }
  }

  lemma LastHostIsLargest(s: seq<Link>, t: seq<Link>, links: seq<Link>, hostOf: string -> string)
    requires StableSort(s, links, hostOf) && StableSort(t, links, hostOf) && s != []
    ensures t != [] && StrLe(KeyOf(s[|s| - 1], hostOf), KeyOf(t[|t| - 1], hostOf))
  {
    var last := s[|s| - 1];
    OfHostMembers(s, KeyOf(last, hostOf), hostOf);
    OfHostMembers(t, KeyOf(last, hostOf), hostOf);
    assert OfHost(s, KeyOf(last, hostOf), hostOf) == OfHost(t, KeyOf(last, hostOf), hostOf);
    assert last in t;
    var i :| 0 <= i < |t| && t[i] == last;
    if i == |t| - 1 {
      StrLeTotal(KeyOf(last, hostOf), KeyOf(last, hostOf));
    }
  }

  /** There is only one stable sort, so any algorithm computes this one. */
  lemma {:induction false} StableSortIsUnique(s: seq<Link>, t: seq<Link>, links: seq<Link>, hostOf: string -> string)
    requires StableSort(s, links, hostOf) && StableSort(t, links, hostOf)
    ensures s == t
    decreases |s|
  {
    if s == [] {
      if t != [] {
        LastHostIsLargest(t, s, links, hostOf);
      }
    } else {
      LastHostIsLargest(s, t, links, hostOf);
      LastHostIsLargest(t, s, links, hostOf);
      var a, b := s[|s| - 1], t[|t| - 1];
      StrLeAntisymmetric(KeyOf(a, hostOf), KeyOf(b, hostOf));
      var s', t' := s[..|s| - 1], t[..|t| - 1];
      assert OfHost(s, KeyOf(a, hostOf), hostOf) == OfHost(t, KeyOf(a, hostOf), hostOf);
      assert a == OfHost(s, KeyOf(a, hostOf), hostOf)[|OfHost(s, KeyOf(a, hostOf), hostOf)| - 1];
      assert a == b;
      forall h ensures OfHost(s', h, hostOf) == OfHost(t', h, hostOf) {
        var x := OfHost(s, h, hostOf);
        assert x == OfHost(t, h, hostOf);
        if KeyOf(a, hostOf) == h {
          assert x[..|x| - 1] == OfHost(s', h, hostOf) && x[..|x| - 1] == OfHost(t', h, hostOf);
        }
      }
      StableSortIsUnique(s', t', s', hostOf);
      assert s == s' + [a] && t == t' + [b];
    }
  }

  // ---------------------------------------------------------------- what a stable sort leaves alone

  /** The first link to a url is the first one among the links of its host. */
  lemma {:induction false} FirstOfHost(links: seq<Link>, u: string, hostOf: string -> string)
    ensures First(links, u, hostOf) == First(OfHost(links, hostOf(u), hostOf), u, hostOf)
    decreases |links|
  {
    if links != [] {
      var front, last := links[..|links| - 1], links[|links| - 1];
      FirstOfHost(front, u, hostOf);
      var f := OfHost(front, hostOf(u), hostOf);
      if KeyOf(last, hostOf) == hostOf(u) {
        assert (f + [last])[..|f + [last]| - 1] == f;
      }
    }
  }

  lemma {:induction false} CountOfHost(links: seq<Link>, h: string, hostOf: string -> string)
    ensures CountHost(links, h, hostOf) == if h == "" then 0 else |OfHost(links, h, hostOf)|
    decreases |links|
  {
    if links != [] {
      CountOfHost(links[..|links| - 1], h, hostOf);
    }
  }

  lemma StableSortKeeps(s: seq<Link>, links: seq<Link>, x: string, hostOf: string -> string)
    requires StableSort(s, links, hostOf)
    ensures First(s, x, hostOf) == First(links, x, hostOf) && CountHost(s, x, hostOf) == CountHost(links, x, hostOf)
  {
    FirstOfHost(s, x, hostOf);
    FirstOfHost(links, x, hostOf);
    CountOfHost(s, x, hostOf);
    CountOfHost(links, x, hostOf);
  }

  lemma AddedAt(db: Db, other: Db, s: seq<Link>, links: seq<Link>, a: Db, b: Db, from: nat, depth: nat, now: Time,
                hostOf: string -> string, u: string, v: string, h: string)
    requires Sound(db) && Sound(other) && from in db.urls && from in other.urls && Sound(a) && Sound(b)
    requires SameAt(db, other, u, v, h) && db.urls[from].url == other.urls[from].url
    requires First(s, u, hostOf) == First(links, u, hostOf) && First(s, v, hostOf) == First(links, v, hostOf)
    requires CountHost(s, h, hostOf) == CountHost(links, h, hostOf)
    requires AddsAt(other, a, s, from, depth, now, hostOf, u, v, h)
    requires AddsAt(db, b, links, from, depth, now, hostOf, u, v, h)
    ensures SameAt(a, b, u, v, h)
  {
  }

  lemma SameKeys(a: Db, b: Db)
    requires Sound(a) && Sound(b)
    requires SameContent(a, b)
    ensures a.urlIdx.Keys == b.urlIdx.Keys && a.hostIdx.Keys == b.hostIdx.Keys
  {
    forall u ensures u in a.urlIdx <==> u in b.urlIdx {
      assert SameAt(a, b, u, u, u);
    }
    forall h ensures h in a.hostIdx <==> h in b.hostIdx {
      assert SameAt(a, b, h, h, h);
    }
  }

  /** Adding the links sorted by host, to a database with the same content, leaves the same urls with the same depths,
      the same edges with the same anchor and rel, the same counters and the same count as adding them in page order:
      the ids that are handed out are all that may differ. */
  lemma SortingPreservesAdd(db: Db, other: Db, links: seq<Link>, from: nat, depth: nat, now: Time,
                            hostOf: string -> string)
    requires Sound(db) && Sound(other) && SameContent(db, other)
    requires from in db.urls && from in other.urls && db.urls[from].url == other.urls[from].url
    ensures var (a, n) := AddLinks(other, SortByHost(links, hostOf), from, depth, now, hostOf);
            var (b, m) := AddLinks(db, links, from, depth, now, hostOf);
            Sound(a) && Sound(b) && SameContent(a, b) && n == m
  {
    var s := SortByHost(links, hostOf);
    var (a, n) := AddLinks(other, s, from, depth, now, hostOf);
    var (b, m) := AddLinks(db, links, from, depth, now, hostOf);
    AddLinksSound(other, s, from, depth, now, hostOf);
    AddLinksSound(db, links, from, depth, now, hostOf);
    SortIsStable(links, hostOf);
    forall u, v, h ensures SameAt(a, b, u, v, h) {
      AddLinksAdds(other, s, from, depth, now, hostOf, u, v, h);
      AddLinksAdds(db, links, from, depth, now, hostOf, u, v, h);
      StableSortKeeps(s, links, u, hostOf);
      StableSortKeeps(s, links, v, hostOf);
      StableSortKeeps(s, links, h, hostOf);
      assert SameAt(db, other, u, v, h);
      AddedAt(db, other, s, links, a, b, from, depth, now, hostOf, u, v, h);
    }
    SameKeys(a, b);
    SameKeys(db, other);
    AddLinksCount(other, s, from, depth, now, hostOf);
    AddLinksCount(db, links, from, depth, now, hostOf);
  }

  /** Only the serial columns of `b` are ahead of those of `a`: what an aborted transaction leaves. */
  ghost predicate OnlySerialsMoved(a: Db, b: Db) {
    b == a.(nextUrl := b.nextUrl, nextDomain := b.nextDomain) && a.nextUrl <= b.nextUrl && a.nextDomain <= b.nextDomain
  }

  lemma SerialsAreNotContent(a: Db, b: Db)
    requires Sound(a) && OnlySerialsMoved(a, b)
    ensures Sound(b) && SameContent(a, b)
  {
    forall c ensures Holds(b, c) {
      assert Holds(a, c);
      match c case UrlKeys => case HostKeys => case References =>
    }
    forall u, v, h ensures SameAt(a, b, u, v, h) {
    }
  }
}
