/** What seeding and adding links leave behind, column by column, for whoever looks a url up afterwards. */
module Known {
  import opened Base
  import opened LeaseQueue
  import opened Tables
  import opened Discovery

  /** The urls that have a host. */
  function Hosted(urls: seq<string>, hostOf: string -> string): set<string> {
    set u | u in urls && hostOf(u) != ""
  }

  function Targets(links: seq<Link>, hostOf: string -> string): set<string> {
    set l | l in links && hostOf(l.url) != "" :: l.url
  }

  /** A url that has just been found: pending, due at once, never tried. */
  ghost predicate JustFound(db: Db, u: string, depth: nat, priority: int, now: Time, hostOf: string -> string)
    requires Sound(db)
  {
    UrlAt(db, u) == Some(UrlView(hostOf(u), depth, priority, Lease(Pending, None, None, now, 0, 0), None, None))
  }

  // ---------------------------------------------------------------- links

  lemma FirstHasHost(links: seq<Link>, u: string, hostOf: string -> string)
    ensures Discovery.First(links, u, hostOf).Some? <==> u in Targets(links, hostOf)
  {
  }

  /** After the links of a page are added, in whatever order and under whatever ids: the known urls are those before and
      every link with a host; each such link has its edge; and every new one has the given depth, priority 100 and is due
      at once. */
  lemma LinksBecomeKnown(db: Db, after: Db, links: seq<Link>, from: nat, depth: nat, now: Time, hostOf: string -> string)
    requires Sound(db) && Sound(after) && from in db.urls
    requires var direct := AddLinks(db, links, from, depth, now, hostOf).0; Sound(direct) && SameContent(after, direct)
    ensures after.urlIdx.Keys == db.urlIdx.Keys + Targets(links, hostOf)
    ensures forall u | u in Targets(links, hostOf) :: EdgeAt(after, db.urls[from].url, u).Some?
    ensures forall u | u in after.urlIdx && u !in db.urlIdx :: JustFound(after, u, depth, 100, now, hostOf)
  {
    var direct := AddLinks(db, links, from, depth, now, hostOf).0;
    var origin := db.urls[from].url;
    forall u ensures UrlAt(after, u) == ExpectedUrl(db, links, u, depth, now, hostOf)
                     && EdgeAt(after, origin, u) == ExpectedEdge(db, links, from, origin, u, hostOf) {
      AddLinksAdds(db, links, from, depth, now, hostOf, u, u, "");
      AddLinksAdds(db, links, from, depth, now, hostOf, origin, u, "");
      assert SameAt(after, direct, u, u, "") && SameAt(after, direct, origin, u, "");
    }
    forall u ensures u in after.urlIdx <==> u in db.urlIdx || u in Targets(links, hostOf) {
      FirstHasHost(links, u, hostOf);
      assert UrlAt(after, u).Some? <==> u in after.urlIdx;
    }
    forall u | u in Targets(links, hostOf) ensures EdgeAt(after, origin, u).Some? {
      FirstHasHost(links, u, hostOf);
    }
  }

  // ---------------------------------------------------------------- seeds

  /** At url u, edge u to v and host h: what seeding should leave. */
  ghost predicate SeedsAt(db: Db, after: Db, urls: seq<string>, now: Time, hostOf: string -> string, u: string, v: string,
                          h: string)
    requires Sound(db) && Sound(after)
  {
    && (if UrlAt(db, u).None? && u in Hosted(urls, hostOf) then JustFound(after, u, 0, 1000, now, hostOf)
        else UrlAt(after, u) == UrlAt(db, u))
    && EdgeAt(after, u, v) == EdgeAt(db, u, v) && DocAt(after, u) == DocAt(db, u)
    && DomainAt(after, h) == if DomainAt(db, h).None? && exists x :: x in Hosted(urls, hostOf) && hostOf(x) == h
                             then Some(DomainRow(h, 0, 0, 0)) else DomainAt(db, h)
  }

  /** Every seed with a host has a row afterwards, at depth 0 and with priority 1000 if it is new; known rows, edges,
      documents and counters stay. */
  lemma {:induction false} SeedsBecomeKnown(db: Db, urls: seq<string>, now: Time, hostOf: string -> string, u: string,
                                            v: string, h: string)
    requires Sound(db)
    ensures Sound(SeedUrls(db, urls, now, hostOf).0)
    ensures SeedsAt(db, SeedUrls(db, urls, now, hostOf).0, urls, now, hostOf, u, v, h)
    decreases |urls|
  {
    if urls != [] {
      var n := |urls| - 1;
      var before := SeedUrls(db, urls[..n], now, hostOf).0;
      SeedsBecomeKnown(db, urls[..n], now, hostOf, u, v, h);
      assert urls == urls[..n] + [urls[n]];
      SeedStep(db, before, urls[..n], urls[n], now, hostOf, u, v, h);
    }
  }

  lemma SeedStep(db: Db, before: Db, urls: seq<string>, url: string, now: Time, hostOf: string -> string, u: string,
                 v: string, h: string)
    requires Sound(db) && Sound(before) && SeedsAt(db, before, urls, now, hostOf, u, v, h)
    ensures Sound(SeedUrl(before, url, now, hostOf).0)
    ensures SeedsAt(db, SeedUrl(before, url, now, hostOf).0, urls + [url], now, hostOf, u, v, h)
  {
    HostedSnoc(urls, url, hostOf);
    if hostOf(url) != "" {
      PlaceSound(before, hostOf(url), url, 0, SEED_PRIORITY, now);
      PlaceEffect(before, hostOf(url), url, 0, SEED_PRIORITY, now, u, v, h);
    }
  }

  lemma HostedSnoc(urls: seq<string>, url: string, hostOf: string -> string)
    ensures Hosted(urls + [url], hostOf) == Hosted(urls, hostOf) + if hostOf(url) != "" then {url} else {}
  {
    assert forall x :: x in urls + [url] <==> x in urls || x == url;
  }
}
