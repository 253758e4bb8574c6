/** What _add_once does, read without row ids, and why sorting the links by host first changes nothing. */
module Discovery {
  import opened Base
  import opened Strings
  import opened LeaseQueue
  import opened Tables

  // ---------------------------------------------------------------- a database without its ids

  datatype UrlView = UrlView(
    host: string, depth: nat, priority: int, lease: Lease, simhash: Option<int>, content: Option<string>)

  ghost function UrlAt(db: Db, u: string): Option<UrlView>
    requires Sound(db)
  {
    assert Holds(db, UrlKeys) && Holds(db, References);
    if u !in db.urlIdx then None
    else var id := db.urlIdx[u];
         var r := db.urls[id];
         Some(UrlView(db.domains[r.domain].host, r.depth, r.priority, db.leases[id], r.simhash, r.content))
  }

  ghost function EdgeAt(db: Db, a: string, b: string): Option<Edge>
    requires Sound(db)
  {
    if a in db.urlIdx && b in db.urlIdx && (db.urlIdx[a], db.urlIdx[b]) in db.links
    then Some(db.links[(db.urlIdx[a], db.urlIdx[b])]) else None
  }

  ghost function DomainAt(db: Db, h: string): Option<DomainRow>
    requires Sound(db)
  {
    assert Holds(db, HostKeys);
    if h in db.hostIdx then Some(db.domains[db.hostIdx[h]]) else None
  }

  ghost function DocAt(db: Db, u: string): Option<DocRow>
    requires Sound(db)
  {
    if u in db.urlIdx && db.urlIdx[u] in db.docs then Some(db.docs[db.urlIdx[u]]) else None
  }

  ghost predicate SameAt(a: Db, b: Db, u: string, v: string, h: string)
    requires Sound(a) && Sound(b)
  {
    && UrlAt(a, u) == UrlAt(b, u) && DocAt(a, u) == DocAt(b, u)
    && EdgeAt(a, u, v) == EdgeAt(b, u, v) && DomainAt(a, h) == DomainAt(b, h)
  }

  /** The same urls, edges, domains and documents up to the choice of ids. */
  ghost predicate SameContent(a: Db, b: Db)
    requires Sound(a) && Sound(b)
  {
    forall u, v, h :: SameAt(a, b, u, v, h)
  }

  // ---------------------------------------------------------------- the declarative result

  /** The first link to `u` that has a host: its anchor and rel win. */
  function First(links: seq<Link>, u: string, hostOf: string -> string): (r: Option<Link>)
    ensures r.Some? ==> r.value in links && r.value.url == u && hostOf(u) != ""
    ensures r.None? ==> hostOf(u) == "" || forall l | l in links :: l.url != u
    decreases |links|
  {
    if links == [] then None
    else
      var earlier := First(links[..|links| - 1], u, hostOf);
      if earlier.Some? then earlier
      else if links[|links| - 1].url == u && hostOf(u) != "" then Some(links[|links| - 1])
      else None
  }

  function CountHost(links: seq<Link>, h: string, hostOf: string -> string): nat
    decreases |links|
  {
    if links == [] then 0
    else CountHost(links[..|links| - 1], h, hostOf)
         + if h != "" && hostOf(links[|links| - 1].url) == h then 1 else 0
  }

  ghost function ExpectedUrl(db: Db, links: seq<Link>, u: string, depth: nat, now: Time, hostOf: string -> string)
    : Option<UrlView>
    requires Sound(db)
  {
    if UrlAt(db, u).Some? then UrlAt(db, u)
    else if First(links, u, hostOf).Some?
    then Some(UrlView(hostOf(u), depth, DEFAULT_PRIORITY, Fresh(now), None, None))
    else None
  }

  ghost function ExpectedEdge(db: Db, links: seq<Link>, from: nat, a: string, b: string, hostOf: string -> string)
    : Option<Edge>
    requires Sound(db) && from in db.urls
  {
    if EdgeAt(db, a, b).Some? then EdgeAt(db, a, b)
    else if a == db.urls[from].url && First(links, b, hostOf).Some?
    then var l := First(links, b, hostOf).value; Some(Edge(l.anchor, l.rel))
    else None
  }

  ghost function ExpectedDomain(db: Db, links: seq<Link>, h: string, hostOf: string -> string): Option<DomainRow>
    requires Sound(db)
  {
    var n := CountHost(links, h, hostOf);
    match DomainAt(db, h)
    case Some(r) => Some(r.(discovered := r.discovered + n))
    case None => if n == 0 then None else Some(DomainRow(h, n, 0, 0))
  }

  /** At url `u`, edge `u` to `v` and host `h`, `after` is what adding `links` to `db` should leave, whatever ids
      were handed out. */
  ghost predicate AddsAt(db: Db, after: Db, links: seq<Link>, from: nat, depth: nat, now: Time,
                         hostOf: string -> string, u: string, v: string, h: string)
    requires Sound(db) && Sound(after) && from in db.urls
  {
    && UrlAt(after, u) == ExpectedUrl(db, links, u, depth, now, hostOf)
    && EdgeAt(after, u, v) == ExpectedEdge(db, links, from, u, v, hostOf)
    && DomainAt(after, h) == ExpectedDomain(db, links, h, hostOf)
    && DocAt(after, u) == DocAt(db, u)
  }

  // ---------------------------------------------------------------- statement by statement

  lemma UpsertDomainSound(db: Db, host: string)
    requires Sound(db)
    ensures var (n, d) := UpsertDomain(db, host);
            Sound(n) && d in n.domains && n.domains[d].host == host && n.urls == db.urls
            && host in n.hostIdx && n.hostIdx[host] == d
  {
    assert Holds(db, HostKeys);
    forall c ensures Holds(UpsertDomain(db, host).0, c) {
      assert Holds(db, c);
      match c
      case HostKeys => UpsertDomainHosts(db, host);
      case UrlKeys =>
      case References => UpsertDomainReferences(db, host);
    }
  }

  lemma UpsertDomainHosts(db: Db, host: string)
    requires HostIndexOk(db)
    ensures HostIndexOk(UpsertDomain(db, host).0)
  {
    if host !in db.hostIdx {
      NewHost(db, UpsertDomain(db, host).0, DomainRow(host, 0, 0, 0));
    }
  }

  lemma NewHost(db: Db, n: Db, r: DomainRow)
    requires HostIndexOk(db) && r.host !in db.hostIdx && n.nextDomain == db.nextDomain + 1
    requires n.domains == db.domains[db.nextDomain := r] && n.hostIdx == db.hostIdx[r.host := db.nextDomain]
    ensures HostIndexOk(n)
  {
    forall h | h in n.hostIdx ensures n.hostIdx[h] in n.domains && n.domains[n.hostIdx[h]].host == h {
      assert h == r.host || h in db.hostIdx;
    }
    forall d | d in n.domains
      ensures d < n.nextDomain && n.domains[d].host in n.hostIdx && n.hostIdx[n.domains[d].host] == d
    {
      assert d == db.nextDomain || d in db.domains;
    }
  }

  lemma UpsertDomainReferences(db: Db, host: string)
    requires ReferencesOk(db)
    ensures ReferencesOk(UpsertDomain(db, host).0)
  {
  }

  lemma UpsertDomainUrls(db: Db, host: string, u: string)
    requires Sound(db) && Sound(UpsertDomain(db, host).0)
    ensures UrlAt(UpsertDomain(db, host).0, u) == UrlAt(db, u)
  {
    assert Holds(db, HostKeys) && Holds(db, References) && Holds(db, UrlKeys);
  }

  lemma UpsertDomainDomains(db: Db, host: string, h: string)
    requires Sound(db) && Sound(UpsertDomain(db, host).0)
    ensures DomainAt(UpsertDomain(db, host).0, h) ==
            if h == host && DomainAt(db, h).None? then Some(DomainRow(h, 0, 0, 0)) else DomainAt(db, h)
  {
    assert Holds(db, HostKeys);
  }

  lemma InsertUrlKeys(db: Db, d: nat, url: string, depth: nat, priority: int, now: Time)
    requires UrlIndexOk(db)
    ensures UrlIndexOk(InsertUrl(db, d, url, depth, priority, now).0)
  {
    if url !in db.urlIdx {
      NewUrl(db, InsertUrl(db, d, url, depth, priority, now).0, UrlRow(d, url, depth, priority, None, None));
    }
  }

  lemma NewUrl(db: Db, n: Db, r: UrlRow)
    requires UrlIndexOk(db) && r.url !in db.urlIdx && n.nextUrl == db.nextUrl + 1
    requires n.urls == db.urls[db.nextUrl := r] && n.urlIdx == db.urlIdx[r.url := db.nextUrl]
    ensures UrlIndexOk(n)
  {
    forall u | u in n.urlIdx ensures n.urlIdx[u] in n.urls && n.urls[n.urlIdx[u]].url == u {
      assert u == r.url || u in db.urlIdx;
    }
    forall id | id in n.urls ensures id < n.nextUrl && n.urls[id].url in n.urlIdx && n.urlIdx[n.urls[id].url] == id {
      assert id == db.nextUrl || id in db.urls;
    }
  }

  lemma InsertUrlReferences(db: Db, d: nat, url: string, depth: nat, priority: int, now: Time)
    requires ReferencesOk(db) && d in db.domains
    ensures ReferencesOk(InsertUrl(db, d, url, depth, priority, now).0)
  {
  }

  lemma InsertUrlSound(db: Db, d: nat, url: string, depth: nat, priority: int, now: Time)
    requires Sound(db) && d in db.domains
    ensures var (n, made) := InsertUrl(db, d, url, depth, priority, now);
            && Sound(n) && n.domains == db.domains && n.hostIdx == db.hostIdx
            && url in n.urlIdx && n.urlIdx[url] in n.urls && n.urls[n.urlIdx[url]].url == url
            && (made.Some? ==> made.value == n.urlIdx[url]) && (made.Some? <==> url !in db.urlIdx)
            && forall id | id in db.urls :: id in n.urls && n.urls[id] == db.urls[id]
  {
    forall c ensures Holds(InsertUrl(db, d, url, depth, priority, now).0, c) {
      assert Holds(db, c);
      match c
      case HostKeys =>
      case UrlKeys => InsertUrlKeys(db, d, url, depth, priority, now);
      case References => InsertUrlReferences(db, d, url, depth, priority, now);
    }
    assert Holds(db, UrlKeys);
  }

  lemma InsertUrlUrls(db: Db, d: nat, url: string, depth: nat, priority: int, now: Time, u: string)
    requires Sound(db) && d in db.domains && Sound(InsertUrl(db, d, url, depth, priority, now).0)
    ensures UrlAt(InsertUrl(db, d, url, depth, priority, now).0, u) ==
            if u == url && UrlAt(db, u).None?
            then Some(UrlView(db.domains[d].host, depth, priority, Fresh(now), None, None)) else UrlAt(db, u)
  {
    assert Holds(db, References) && Holds(db, UrlKeys);
  }

  lemma InsertUrlEdges(db: Db, d: nat, url: string, depth: nat, priority: int, now: Time, u: string, v: string)
    requires Sound(db) && d in db.domains && Sound(InsertUrl(db, d, url, depth, priority, now).0)
    ensures EdgeAt(InsertUrl(db, d, url, depth, priority, now).0, u, v) == EdgeAt(db, u, v)
    ensures DocAt(InsertUrl(db, d, url, depth, priority, now).0, u) == DocAt(db, u)
  {
    assert Holds(db, References) && Holds(db, UrlKeys);
  }

  lemma InsertEdgeSound(db: Db, from: nat, to: nat, link: Link)
    requires Sound(db) && from in db.urls && to in db.urls
    ensures Sound(InsertEdge(db, from, to, link))
  {
    assert Holds(db, HostKeys) && Holds(db, References) && Holds(db, UrlKeys);
    forall c ensures Holds(InsertEdge(db, from, to, link), c) {
      match c case HostKeys => case UrlKeys => case References =>
    }
  }

  lemma InsertEdgeEdges(db: Db, from: nat, to: nat, link: Link, u: string, v: string)
    requires Sound(db) && from in db.urls && to in db.urls && Sound(InsertEdge(db, from, to, link))
    ensures EdgeAt(InsertEdge(db, from, to, link), u, v) ==
            if u == db.urls[from].url && v == db.urls[to].url && EdgeAt(db, u, v).None?
            then Some(Edge(link.anchor, link.rel)) else EdgeAt(db, u, v)
  {
    assert Holds(db, UrlKeys);
  }

  lemma InsertEdgeOthers(db: Db, from: nat, to: nat, link: Link, u: string, h: string)
    requires Sound(db) && Sound(InsertEdge(db, from, to, link))
    ensures var n := InsertEdge(db, from, to, link);
            UrlAt(n, u) == UrlAt(db, u) && DocAt(n, u) == DocAt(db, u) && DomainAt(n, h) == DomainAt(db, h)
  {
  }

  lemma BumpSound(db: Db, d: nat)
    requires Sound(db) && d in db.domains
    ensures Sound(BumpDiscovered(db, d))
  {
    assert Holds(db, HostKeys) && Holds(db, References) && Holds(db, UrlKeys);
    forall c ensures Holds(BumpDiscovered(db, d), c) {
      match c case HostKeys => case UrlKeys => case References =>
    }
  }

  lemma BumpUrls(db: Db, d: nat, u: string)
    requires Sound(db) && d in db.domains && Sound(BumpDiscovered(db, d))
    ensures UrlAt(BumpDiscovered(db, d), u) == UrlAt(db, u)
  {
    assert Holds(db, References) && Holds(db, UrlKeys);
  }

  lemma BumpDomains(db: Db, d: nat, h: string)
    requires Sound(db) && d in db.domains && Sound(BumpDiscovered(db, d))
    ensures DomainAt(BumpDiscovered(db, d), h) ==
            if h == db.domains[d].host
            then Some(db.domains[d].(discovered := db.domains[d].discovered + 1)) else DomainAt(db, h)
  {
    assert Holds(db, HostKeys);
  }

  lemma PlaceSound(db: Db, host: string, url: string, depth: nat, priority: int, now: Time)
    requires Sound(db)
    ensures var (n, d, made) := Place(db, host, url, depth, priority, now);
            && Sound(n) && d in n.domains && n.domains[d].host == host && host in n.hostIdx && n.hostIdx[host] == d
            && url in n.urlIdx && n.urlIdx[url] in n.urls && n.urls[n.urlIdx[url]].url == url
            && (made.Some? ==> made.value == n.urlIdx[url]) && (made.Some? <==> url !in db.urlIdx)
            && forall id | id in db.urls :: id in n.urls && n.urls[id] == db.urls[id]
  {
    var (db1, d) := UpsertDomain(db, host);
    UpsertDomainSound(db, host);
    InsertUrlSound(db1, d, url, depth, priority, now);
  }

  lemma PlaceEffect(db: Db, host: string, url: string, depth: nat, priority: int, now: Time,
                    u: string, v: string, h: string)
    requires Sound(db) && Sound(Place(db, host, url, depth, priority, now).0)
    ensures var n := Place(db, host, url, depth, priority, now).0;
            && EdgeAt(n, u, v) == EdgeAt(db, u, v) && DocAt(n, u) == DocAt(db, u)
            && UrlAt(n, u) == (if u == url && UrlAt(db, u).None?
                 then Some(UrlView(host, depth, priority, Fresh(now), None, None)) else UrlAt(db, u))
            && DomainAt(n, h) == if h == host && DomainAt(db, h).None?
                 then Some(DomainRow(h, 0, 0, 0)) else DomainAt(db, h)
  {
    var (db1, d) := UpsertDomain(db, host);
    UpsertDomainSound(db, host);
    UpsertDomainUrls(db, host, u);
    UpsertDomainDomains(db, host, h);
    assert EdgeAt(db1, u, v) == EdgeAt(db, u, v) && DocAt(db1, u) == DocAt(db, u);
    InsertUrlSound(db1, d, url, depth, priority, now);
    InsertUrlUrls(db1, d, url, depth, priority, now, u);
    InsertUrlEdges(db1, d, url, depth, priority, now, u, v);
    assert Place(db, host, url, depth, priority, now).0 == InsertUrl(db1, d, url, depth, priority, now).0;
  }

  // ---------------------------------------------------------------- one link, many links

  /** The database between the edge insert and the counter of one turn of the loop. */
  ghost function Linked(db: Db, link: Link, from: nat, depth: nat, now: Time, hostOf: string -> string): (Db, nat) {
    var (placed, d, _) := Place(db, hostOf(link.url), link.url, depth, DEFAULT_PRIORITY, now);
    (if link.url in placed.urlIdx then InsertEdge(placed, from, placed.urlIdx[link.url], link) else placed, d)
  }

  lemma LinkedEffect(db: Db, link: Link, from: nat, depth: nat, now: Time, hostOf: string -> string)
    requires Sound(db) && from in db.urls && hostOf(link.url) != ""
    ensures var (n, d) := Linked(db, link, from, depth, now, hostOf);
            && Sound(n) && d in n.domains && n.domains[d].host == hostOf(link.url)
            && hostOf(link.url) in n.hostIdx && n.hostIdx[hostOf(link.url)] == d
            && from in n.urls && n.urls[from] == db.urls[from]
            && AddLink(db, link, from, depth, now, hostOf).0 == BumpDiscovered(n, d)
  {
    var (placed, d, _) := Place(db, hostOf(link.url), link.url, depth, DEFAULT_PRIORITY, now);
    PlaceSound(db, hostOf(link.url), link.url, depth, DEFAULT_PRIORITY, now);
    var to := placed.urlIdx[link.url];
    InsertEdgeSound(placed, from, to, link);
    assert Linked(db, link, from, depth, now, hostOf) == (InsertEdge(placed, from, to, link), d);
    EdgeOnlyAddsEdge(placed, from, to, link);
  }

  lemma EdgeOnlyAddsEdge(db: Db, from: nat, to: nat, link: Link)
    ensures InsertEdge(db, from, to, link) == db.(links := InsertEdge(db, from, to, link).links)
  {
  }

  lemma LinkedViews(db: Db, link: Link, from: nat, depth: nat, now: Time, hostOf: string -> string,
                    u: string, v: string, h: string)
    requires Sound(db) && from in db.urls && hostOf(link.url) != ""
    requires Sound(Linked(db, link, from, depth, now, hostOf).0)
    ensures var n := Linked(db, link, from, depth, now, hostOf).0;
            && DocAt(n, u) == DocAt(db, u)
            && UrlAt(n, u) == (if u == link.url && UrlAt(db, u).None?
                 then Some(UrlView(hostOf(u), depth, DEFAULT_PRIORITY, Fresh(now), None, None)) else UrlAt(db, u))
            && EdgeAt(n, u, v) == (if u == db.urls[from].url && v == link.url && EdgeAt(db, u, v).None?
                 then Some(Edge(link.anchor, link.rel)) else EdgeAt(db, u, v))
            && DomainAt(n, h) == if h == hostOf(link.url) && DomainAt(db, h).None?
                 then Some(DomainRow(h, 0, 0, 0)) else DomainAt(db, h)
  {
    var placed := Place(db, hostOf(link.url), link.url, depth, DEFAULT_PRIORITY, now).0;
    PlaceSound(db, hostOf(link.url), link.url, depth, DEFAULT_PRIORITY, now);
    PlaceEffect(db, hostOf(link.url), link.url, depth, DEFAULT_PRIORITY, now, u, v, h);
    InsertEdgeEdges(placed, from, placed.urlIdx[link.url], link, u, v);
    InsertEdgeOthers(placed, from, placed.urlIdx[link.url], link, u, h);
  }

  lemma AddLinkSound(db: Db, link: Link, from: nat, depth: nat, now: Time, hostOf: string -> string)
    requires Sound(db) && from in db.urls
    ensures var (n, m) := AddLink(db, link, from, depth, now, hostOf);
            Sound(n) && from in n.urls && n.urls[from] == db.urls[from]
  {
    if hostOf(link.url) != "" {
      var (linked, d) := Linked(db, link, from, depth, now, hostOf);
      LinkedEffect(db, link, from, depth, now, hostOf);
      BumpSound(linked, d);
    }
  }

  /** What one link changes, view by view; `origin` is the url of the page the link is on. */
  ghost predicate ViewsAfter(db: Db, n: Db, link: Link, origin: string, depth: nat, now: Time,
                             hostOf: string -> string, u: string, v: string, h: string)
    requires Sound(db) && Sound(n)
  {
    var host := hostOf(link.url);
    && DocAt(n, u) == DocAt(db, u)
    && UrlAt(n, u) == (if host != "" && u == link.url && UrlAt(db, u).None?
         then Some(UrlView(host, depth, DEFAULT_PRIORITY, Fresh(now), None, None)) else UrlAt(db, u))
    && EdgeAt(n, u, v) == (if host != "" && u == origin && v == link.url && EdgeAt(db, u, v).None?
         then Some(Edge(link.anchor, link.rel)) else EdgeAt(db, u, v))
    && DomainAt(n, h) == if host != "" && h == host
         then (if DomainAt(db, h).None? then Some(DomainRow(h, 1, 0, 0))
               else Some(DomainAt(db, h).value.(discovered := DomainAt(db, h).value.discovered + 1)))
         else DomainAt(db, h)
  }

  lemma AddLinkViews(db: Db, link: Link, from: nat, depth: nat, now: Time, hostOf: string -> string,
                      u: string, v: string, h: string)
    requires Sound(db) && from in db.urls && Sound(AddLink(db, link, from, depth, now, hostOf).0)
    ensures ViewsAfter(db, AddLink(db, link, from, depth, now, hostOf).0, link, db.urls[from].url, depth, now, hostOf,
                       u, v, h)
  {
    if hostOf(link.url) != "" {
      var (linked, d) := Linked(db, link, from, depth, now, hostOf);
      LinkedEffect(db, link, from, depth, now, hostOf);
      LinkedViews(db, link, from, depth, now, hostOf, u, v, h);
      BumpSound(linked, d);
      BumpUrls(linked, d, u);
      BumpDomains(linked, d, h);
    }
  }

  lemma {:induction false} AddLinksSound(db: Db, links: seq<Link>, from: nat, depth: nat, now: Time,
                                         hostOf: string -> string)
    requires Sound(db) && from in db.urls
    ensures var n := AddLinks(db, links, from, depth, now, hostOf).0;
            Sound(n) && from in n.urls && n.urls[from] == db.urls[from]
    decreases |links|
  {
    if links != [] {
      var earlier := links[..|links| - 1];
      AddLinksSound(db, earlier, from, depth, now, hostOf);
      AddLinkSound(AddLinks(db, earlier, from, depth, now, hostOf).0, links[|links| - 1], from, depth, now, hostOf);
    }
  }

  lemma AddsOneMore(db: Db, before: Db, after: Db, links: seq<Link>, from: nat, depth: nat, now: Time,
                    hostOf: string -> string, u: string, v: string, h: string)
    requires Sound(db) && Sound(before) && Sound(after) && from in db.urls && links != []
    requires AddsAt(db, before, links[..|links| - 1], from, depth, now, hostOf, u, v, h)
    requires ViewsAfter(before, after, links[|links| - 1], db.urls[from].url, depth, now, hostOf, u, v, h)
    ensures AddsAt(db, after, links, from, depth, now, hostOf, u, v, h)
  {
  }

  /** The loop of _add_once leaves exactly the declarative result. */
  lemma {:induction false} AddLinksAdds(db: Db, links: seq<Link>, from: nat, depth: nat, now: Time,
                                        hostOf: string -> string, u: string, v: string, h: string)
    requires Sound(db) && from in db.urls && Sound(AddLinks(db, links, from, depth, now, hostOf).0)
    ensures AddsAt(db, AddLinks(db, links, from, depth, now, hostOf).0, links, from, depth, now, hostOf, u, v, h)
    decreases |links|
  {
    if links != [] {
      var earlier, last := links[..|links| - 1], links[|links| - 1];
      var before := AddLinks(db, earlier, from, depth, now, hostOf).0;
      AddLinksSound(db, earlier, from, depth, now, hostOf);
      AddLinksAdds(db, earlier, from, depth, now, hostOf, u, v, h);
      AddLinkViews(before, last, from, depth, now, hostOf, u, v, h);
      AddsOneMore(db, before, AddLink(before, last, from, depth, now, hostOf).0, links, from, depth, now, hostOf,
                  u, v, h);
    }
  }

  lemma AddLinkIndex(db: Db, link: Link, from: nat, depth: nat, now: Time, hostOf: string -> string)
    ensures var (n, m) := AddLink(db, link, from, depth, now, hostOf);
            if hostOf(link.url) != "" && link.url !in db.urlIdx
            then n.urlIdx == db.urlIdx[link.url := db.nextUrl] && m == 1
            else n.urlIdx == db.urlIdx && m == 0
  {
    if hostOf(link.url) != "" {
      var (placed, d, made) := Place(db, hostOf(link.url), link.url, depth, DEFAULT_PRIORITY, now);
      PlaceIndex(db, hostOf(link.url), link.url, depth, DEFAULT_PRIORITY, now);
      var to := placed.urlIdx[link.url];
      assert AddLink(db, link, from, depth, now, hostOf).0 == BumpDiscovered(InsertEdge(placed, from, to, link), d);
      EdgeKeepsIndex(placed, from, to, link, d);
    }
  }

  lemma EdgeKeepsIndex(db: Db, from: nat, to: nat, link: Link, d: nat)
    ensures BumpDiscovered(InsertEdge(db, from, to, link), d).urlIdx == db.urlIdx
  {
  }

  lemma PlaceIndex(db: Db, host: string, url: string, depth: nat, priority: int, now: Time)
    ensures var (n, _, made) := Place(db, host, url, depth, priority, now);
            if url !in db.urlIdx then n.urlIdx == db.urlIdx[url := db.nextUrl] && made == Some(db.nextUrl)
            else n.urlIdx == db.urlIdx && made == None
  {
  }

  lemma AddLinkCount(db: Db, link: Link, from: nat, depth: nat, now: Time, hostOf: string -> string)
    ensures var (n, m) := AddLink(db, link, from, depth, now, hostOf);
            |n.urlIdx.Keys| == |db.urlIdx.Keys| + m && m <= 1
  {
    AddLinkIndex(db, link, from, depth, now, hostOf);
    assert db.urlIdx[link.url := db.nextUrl].Keys == db.urlIdx.Keys + {link.url};
  }

  /** The number returned is the number of urls that were not known before. */
  lemma {:induction false} AddLinksCount(db: Db, links: seq<Link>, from: nat, depth: nat, now: Time,
                                         hostOf: string -> string)
    ensures var (n, m) := AddLinks(db, links, from, depth, now, hostOf);
            m == |n.urlIdx.Keys| - |db.urlIdx.Keys| && m <= |links|
    decreases |links|
  {
    if links != [] {
      var earlier := links[..|links| - 1];
      AddLinksCount(db, earlier, from, depth, now, hostOf);
      AddLinkCount(AddLinks(db, earlier, from, depth, now, hostOf).0, links[|links| - 1], from, depth, now, hostOf);
    }
  }
}
