/** Discovery seen row by row: it only adds rows, and says where each new row comes from. */
module Growth {
  import opened Base
  import opened LeaseQueue
  import opened Tables
  import opened Discovery

  function NewRows(a: Db, b: Db): set<nat> {
    b.urls.Keys - a.urls.Keys
  }

  ghost predicate DomainsGrow(a: Db, b: Db) {
    && (forall d | d in a.domains :: d in b.domains && b.domains[d].host == a.domains[d].host
                                     && b.domains[d].crawled == a.domains[d].crawled)
    && (forall d | d in b.domains && d !in a.domains :: b.domains[d].crawled == 0)
  }

  /** A new row has the given depth, is due at once, and its domain is that of its registrable host. */
  ghost predicate BornRight(b: Db, id: nat, depth: nat, hostOf: string -> string) {
    && id in b.urls && b.urls[id].depth == depth && hostOf(b.urls[id].url) != ""
    && b.urls[id].domain in b.domains && b.domains[b.urls[id].domain].host == hostOf(b.urls[id].url)
  }

  ghost predicate LeasesGrow(a: Db, b: Db, now: Time) {
    && b.leases.Keys == a.leases.Keys + NewRows(a, b)
    && (forall id | id in a.leases :: id in b.leases && b.leases[id] == a.leases[id])
    && (forall id | id in NewRows(a, b) :: id in b.leases && b.leases[id] == Fresh(now))
  }

  datatype Aspect = Rows | Births | Leases | Domains | Others

  ghost predicate GrowsIn(a: Db, b: Db, depth: nat, now: Time, hostOf: string -> string, aspect: Aspect) {
    match aspect
    case Rows => forall id | id in a.urls :: id in b.urls && b.urls[id] == a.urls[id]
    case Births => forall id | id in NewRows(a, b) :: BornRight(b, id, depth, hostOf)
    case Leases => LeasesGrow(a, b, now)
    case Domains => DomainsGrow(a, b)
    case Others => b.docs == a.docs && a.links.Keys <= b.links.Keys
  }

  /** Old rows stay, new rows are well born. */
  ghost predicate Grows(a: Db, b: Db, depth: nat, now: Time, hostOf: string -> string) {
    forall aspect :: GrowsIn(a, b, depth, now, hostOf, aspect)
  }

  ghost predicate LinkedFrom(a: Db, b: Db, from: nat) {
    forall id | id in NewRows(a, b) :: (from, id) in b.links
  }

  lemma LeasesGrowTrans(a: Db, b: Db, c: Db, now: Time)
    requires LeasesGrow(a, b, now) && LeasesGrow(b, c, now) && a.urls.Keys <= b.urls.Keys <= c.urls.Keys
    ensures LeasesGrow(a, c, now)
  {
    assert NewRows(a, c) == NewRows(a, b) + NewRows(b, c);
    forall id | id in NewRows(a, c) ensures id in c.leases && c.leases[id] == Fresh(now) {
      if id in NewRows(a, b) {
        assert id in b.leases;
      }
    }
  }

  lemma LeasesGrowByInsertion(a: Db, b: Db, depth: nat, now: Time, hostOf: string -> string)
    requires Grows(a, b, depth, now, hostOf)
    ensures b.leases == InsertAll(a.leases, NewRows(a, b), now)
  {
    assert GrowsIn(a, b, depth, now, hostOf, Leases);
  }

  lemma GrowsTrans(a: Db, b: Db, c: Db, depth: nat, now: Time, hostOf: string -> string)
    requires Grows(a, b, depth, now, hostOf) && Grows(b, c, depth, now, hostOf)
    ensures Grows(a, c, depth, now, hostOf)
    ensures NewRows(a, c) == NewRows(a, b) + NewRows(b, c) && NewRows(a, b) !! NewRows(b, c)
  {
    assert GrowsIn(a, b, depth, now, hostOf, Rows) && GrowsIn(b, c, depth, now, hostOf, Rows);
    assert NewRows(a, c) == NewRows(a, b) + NewRows(b, c);
    forall aspect ensures GrowsIn(a, c, depth, now, hostOf, aspect) {
      assert GrowsIn(a, b, depth, now, hostOf, aspect) && GrowsIn(b, c, depth, now, hostOf, aspect);
      match aspect
      case Rows =>
      case Births =>
        assert GrowsIn(b, c, depth, now, hostOf, Domains);
        forall id | id in NewRows(a, c) ensures BornRight(c, id, depth, hostOf) {
          if id in NewRows(a, b) {
            assert BornRight(b, id, depth, hostOf);
          }
        }
      case Leases => LeasesGrowTrans(a, b, c, now);
      case Domains =>
      case Others =>
    }
  }

  lemma UpsertGrows(db: Db, host: string, depth: nat, now: Time, hostOf: string -> string)
    requires Sound(db)
    ensures Grows(db, UpsertDomain(db, host).0, depth, now, hostOf) && NewRows(db, UpsertDomain(db, host).0) == {}
  {
    assert Holds(db, HostKeys);
    var n := UpsertDomain(db, host).0;
    assert n.urls == db.urls && n.leases == db.leases && n.links == db.links && n.docs == db.docs;
    UpsertGrowsDomains(db, host, n);
    forall aspect ensures GrowsIn(db, n, depth, now, hostOf, aspect) {
      SameRowsGrow(db, n, depth, now, hostOf, aspect);
    }
  }

  lemma UpsertGrowsDomains(db: Db, host: string, n: Db)
    requires HostIndexOk(db) && n == UpsertDomain(db, host).0
    ensures DomainsGrow(db, n)
  {
  }

  /** A database whose rows are the same, but for the domains. */
  lemma SameRowsGrow(a: Db, b: Db, depth: nat, now: Time, hostOf: string -> string, aspect: Aspect)
    requires b.urls == a.urls && b.leases == a.leases && b.links == a.links && b.docs == a.docs && DomainsGrow(a, b)
    ensures GrowsIn(a, b, depth, now, hostOf, aspect)
  {
    match aspect case Rows => case Births => case Leases => case Domains => case Others =>
  }

  lemma InsertGrows(db: Db, d: nat, url: string, depth: nat, priority: int, now: Time, hostOf: string -> string)
    requires Sound(db) && d in db.domains && hostOf(url) != "" && db.domains[d].host == hostOf(url)
    ensures var (n, made) := InsertUrl(db, d, url, depth, priority, now);
            Grows(db, n, depth, now, hostOf) && NewRows(db, n) == if made.Some? then {made.value} else {}
  {
    assert Holds(db, UrlKeys) && Holds(db, References);
    var (n, made) := InsertUrl(db, d, url, depth, priority, now);
    assert NewRows(db, n) == if made.Some? then {db.nextUrl} else {};
    forall aspect ensures GrowsIn(db, n, depth, now, hostOf, aspect) {
      match aspect case Rows => case Births => case Leases => case Domains => case Others =>
    }
  }

  lemma PlaceGrows(db: Db, url: string, depth: nat, priority: int, now: Time, hostOf: string -> string)
    requires Sound(db) && hostOf(url) != ""
    ensures var (n, d, made) := Place(db, hostOf(url), url, depth, priority, now);
            && Grows(db, n, depth, now, hostOf)
            && NewRows(db, n) == (if made.Some? then {made.value} else {})
  {
    var (db1, d) := UpsertDomain(db, hostOf(url));
    UpsertDomainSound(db, hostOf(url));
    UpsertGrows(db, hostOf(url), depth, now, hostOf);
    InsertGrows(db1, d, url, depth, priority, now, hostOf);
    GrowsTrans(db, db1, InsertUrl(db1, d, url, depth, priority, now).0, depth, now, hostOf);
  }

  lemma EdgeGrows(db: Db, from: nat, to: nat, link: Link, depth: nat, now: Time, hostOf: string -> string)
    ensures Grows(db, InsertEdge(db, from, to, link), depth, now, hostOf)
    ensures NewRows(db, InsertEdge(db, from, to, link)) == {} && (from, to) in InsertEdge(db, from, to, link).links
  {
    forall aspect ensures GrowsIn(db, InsertEdge(db, from, to, link), depth, now, hostOf, aspect) {
      match aspect case Rows => case Births => case Leases => case Domains => case Others =>
    }
  }

  lemma BumpGrows(db: Db, d: nat, depth: nat, now: Time, hostOf: string -> string)
    ensures Grows(db, BumpDiscovered(db, d), depth, now, hostOf) && NewRows(db, BumpDiscovered(db, d)) == {}
  {
    forall aspect ensures GrowsIn(db, BumpDiscovered(db, d), depth, now, hostOf, aspect) {
      match aspect case Rows => case Births => case Leases => case Domains => case Others =>
    }
  }

  lemma LinkedGrows(db: Db, placed: Db, d: nat, to: nat, link: Link, from: nat, depth: nat, now: Time,
                    hostOf: string -> string)
    requires Grows(db, placed, depth, now, hostOf)
    ensures var n := BumpDiscovered(InsertEdge(placed, from, to, link), d);
            && Grows(db, n, depth, now, hostOf) && NewRows(db, n) == NewRows(db, placed) && (from, to) in n.links
  {
    var linked := InsertEdge(placed, from, to, link);
    EdgeGrows(placed, from, to, link, depth, now, hostOf);
    BumpGrows(linked, d, depth, now, hostOf);
    GrowsTrans(db, placed, linked, depth, now, hostOf);
    GrowsTrans(db, linked, BumpDiscovered(linked, d), depth, now, hostOf);
  }

  lemma LinkOneGrows(db: Db, link: Link, from: nat, depth: nat, now: Time, hostOf: string -> string)
    requires Sound(db) && from in db.urls
    ensures var (n, m) := AddLink(db, link, from, depth, now, hostOf);
            && Grows(db, n, depth, now, hostOf) && LinkedFrom(db, n, from) && |NewRows(db, n)| == m <= 1
  {
    if hostOf(link.url) != "" {
      var (placed, d, made) := Place(db, hostOf(link.url), link.url, depth, DEFAULT_PRIORITY, now);
      PlaceGrows(db, link.url, depth, DEFAULT_PRIORITY, now, hostOf);
      PlaceSound(db, hostOf(link.url), link.url, depth, DEFAULT_PRIORITY, now);
      LinkedGrows(db, placed, d, placed.urlIdx[link.url], link, from, depth, now, hostOf);
    } else {
      NothingGrows(db, depth, now, hostOf);
    }
  }

  lemma LinkedTrans(a: Db, b: Db, c: Db, from: nat, depth: nat, now: Time, hostOf: string -> string)
    requires Grows(b, c, depth, now, hostOf) && NewRows(a, c) == NewRows(a, b) + NewRows(b, c)
    requires LinkedFrom(a, b, from) && LinkedFrom(b, c, from)
    ensures LinkedFrom(a, c, from)
  {
    assert GrowsIn(b, c, depth, now, hostOf, Others);
    forall id | id in NewRows(a, c) ensures (from, id) in c.links {
      if id in NewRows(a, b) {
        assert (from, id) in b.links;
      }
    }
  }

  lemma {:induction false} AddLinksGrows(db: Db, links: seq<Link>, from: nat, depth: nat, now: Time,
                                         hostOf: string -> string)
    requires Sound(db) && from in db.urls
    ensures var (n, m) := AddLinks(db, links, from, depth, now, hostOf);
            && Sound(n) && from in n.urls
            && Grows(db, n, depth, now, hostOf) && LinkedFrom(db, n, from) && |NewRows(db, n)| == m <= |links|
    decreases |links|
  {
    var (n, m) := AddLinks(db, links, from, depth, now, hostOf);
    if links == [] {
      NothingGrows(db, depth, now, hostOf);
    } else {
      var (before, k) := AddLinks(db, links[..|links| - 1], from, depth, now, hostOf);
      AddLinksGrows(db, links[..|links| - 1], from, depth, now, hostOf);
      AddLinkSound(before, links[|links| - 1], from, depth, now, hostOf);
      LinkOneGrows(before, links[|links| - 1], from, depth, now, hostOf);
      GrowsTrans(db, before, n, depth, now, hostOf);
      LinkedTrans(db, before, n, from, depth, now, hostOf);
    }
  }

  lemma NothingGrows(db: Db, depth: nat, now: Time, hostOf: string -> string)
    ensures Grows(db, db, depth, now, hostOf) && NewRows(db, db) == {}
  {
    assert NewRows(db, db) == {};
    forall aspect ensures GrowsIn(db, db, depth, now, hostOf, aspect) {
      match aspect case Rows => case Births => case Leases => case Domains => case Others =>
    }
  }

  lemma SeedUrlGrows(db: Db, url: string, now: Time, hostOf: string -> string)
    requires Sound(db)
    ensures var (n, m) := SeedUrl(db, url, now, hostOf);
            Sound(n) && Grows(db, n, 0, now, hostOf) && |NewRows(db, n)| == m <= 1
  {
    if hostOf(url) == "" {
      NothingGrows(db, 0, now, hostOf);
    } else {
      PlaceGrows(db, url, 0, SEED_PRIORITY, now, hostOf);
      PlaceSound(db, hostOf(url), url, 0, SEED_PRIORITY, now);
    }
  }

  lemma {:induction false} SeedUrlsGrows(db: Db, urls: seq<string>, now: Time, hostOf: string -> string)
    requires Sound(db)
    ensures var (n, m) := SeedUrls(db, urls, now, hostOf);
            Sound(n) && Grows(db, n, 0, now, hostOf) && |NewRows(db, n)| == m <= |urls|
    decreases |urls|
  {
    if urls == [] {
      NothingGrows(db, 0, now, hostOf);
    } else {
      var before := SeedUrls(db, urls[..|urls| - 1], now, hostOf).0;
      SeedUrlsGrows(db, urls[..|urls| - 1], now, hostOf);
      SeedUrlGrows(before, urls[|urls| - 1], now, hostOf);
      var n := SeedUrls(db, urls, now, hostOf).0;
      GrowsTrans(db, before, n, 0, now, hostOf);
    }
  }

  lemma FeedOriginGrows(db: Db, url: string, now: Time, hostOf: string -> string)
    requires Sound(db)
    ensures Sound(FeedOrigin(db, url, now, hostOf)) && Grows(db, FeedOrigin(db, url, now, hostOf), 0, now, hostOf)
  {
    if hostOf(url) == "" {
      NothingGrows(db, 0, now, hostOf);
    } else {
      PlaceGrows(db, url, 0, DEFAULT_PRIORITY, now, hostOf);
      PlaceSound(db, hostOf(url), url, 0, DEFAULT_PRIORITY, now);
    }
  }
}
