/** crawler/frontier.py: the class that owns the crawl tables. Every method is tied to the statements of module Tables
    and to the query of module ClaimQuery. */
module Frontier {
  import opened Base
  import opened LeaseQueue
  import opened Tables
  import opened Discovery
  import opened HostSort
  import ClaimQuery
  import NearDuplicate
  import Bits
  import Growth

  datatype CrawlTask = CrawlTask(id: nat, url: string, host: string, depth: nat)

  /** What claim_urls reads of a row. */
  function Items(db: Db, now: Time): map<nat, ClaimQuery.Item> {
    map id | id in db.urls && id in db.leases ::
      ClaimQuery.Item(db.urls[id].domain, Due(db.leases[id], now), db.urls[id].priority, db.leases[id].dueAt)
  }

  /** UPDATE urls SET status = 'leased' ... for the picked rows. */
  function ClaimRows(leases: map<nat, Lease>, picks: seq<nat>, worker: string, seconds: int, now: Time)
    : map<nat, Lease>
  {
    map id | id in leases :: if id in picks then Claimed(leases[id], worker, seconds, now) else leases[id]
  }

  ghost predicate TaskOf(db: Db, t: CrawlTask) {
    && t.id in db.urls && t.url == db.urls[t.id].url && t.depth == db.urls[t.id].depth
    && db.urls[t.id].domain in db.domains && t.host == db.domains[db.urls[t.id].domain].host
  }

  class PostgresFrontier {
    const hostOf: string -> string
    var urls: map<nat, UrlRow>
    var leases: map<nat, Lease>
    var domains: map<nat, DomainRow>
    var hostIdx: map<string, nat>
    var urlIdx: map<string, nat>
    var links: map<(nat, nat), Edge>
    var docs: map<nat, DocRow>
    var nextUrl: nat
    var nextDomain: nat

    ghost function Tables(): Db
      reads this
    {
      Db(urls, leases, domains, hostIdx, urlIdx, links, docs, nextUrl, nextDomain)
    }

    constructor (hostOf: string -> string)
      ensures Tables() == EMPTY && this.hostOf == hostOf
    {
      this.hostOf := hostOf;
      urls, leases, domains, hostIdx, urlIdx, links, docs := map[], map[], map[], map[], map[], map[], map[];
      nextUrl, nextDomain := 1, 1;
    }

    // -------------------------------------------------------------- claiming

    /** `locked` are the rows other transactions hold at that moment. */
    method Claim(worker: string, batch: nat, seconds: int, now: Time, locked: set<nat>)
      returns (tasks: seq<CrawlTask>, ghost picks: seq<nat>)
      requires Sound(Tables())
      modifies `leases
      ensures ClaimQuery.Answer(old(Items(Tables(), now)), locked, batch, picks)
      ensures leases == ClaimRows(old(leases), picks, worker, seconds, now) && leases.Keys == old(leases).Keys
      ensures forall id | id in picks ::
                var was := old(leases)[id];
                leases[id]
                == Lease(Leased, Some(worker), Some(now + seconds * SECOND), was.dueAt, was.attempts + 1, was.failures)
      ensures forall id | id in leases && id !in picks :: leases[id] == old(leases)[id]
      ensures |tasks| == |picks| && forall i | 0 <= i < |tasks| :: tasks[i].id == picks[i] && TaskOf(Tables(), tasks[i])
    {
      assert Holds(Tables(), References);
      var items := map id | id in urls && id in leases ::
        ClaimQuery.Item(urls[id].domain, Due(leases[id], now), urls[id].priority, leases[id].dueAt);
      var selected := ClaimQuery.Select(items, locked, batch);
      picks := selected;
      leases := ClaimRows(leases, selected, worker, seconds, now);
      tasks := [];
      for i := 0 to |selected|
        invariant |tasks| == i
        invariant forall j | 0 <= j < i :: tasks[j].id == selected[j] && TaskOf(Tables(), tasks[j])
      {
        var r := urls[selected[i]];
        tasks := tasks + [CrawlTask(selected[i], r.url, domains[r.domain].host, r.depth)];
      }
    }

    method Renew(id: nat, worker: string, seconds: int, now: Time) returns (renewed: bool)
      modifies `leases
      ensures renewed <==> id in old(leases) && HeldBy(old(leases)[id], worker)
      ensures renewed ==> old(leases)[id].status == Leased && old(leases)[id].owner == Some(worker)
      ensures leases == if renewed then old(leases)[id := Renewed(old(leases)[id], seconds, now)] else old(leases)
      ensures renewed ==> leases[id] == old(leases)[id].(expires := Some(now + seconds * SECOND))
    {
      renewed := id in leases && HeldBy(leases[id], worker);
      if renewed {
        leases := leases[id := leases[id].(expires := Some(now + seconds * SECOND))];
      }
    }

    method ReapExpiredLeases(now: Time) returns (count: nat)
      modifies `leases
      ensures leases == ReapRows(old(leases), now) && leases.Keys == old(leases).Keys
      ensures forall id | id in leases ::
                var was := old(leases)[id];
                leases[id] == if was.status == Leased && was.expires.Some? && was.expires.value < now
                              then Lease(Pending, None, None, was.dueAt, was.attempts, was.failures) else was
      ensures count == |set id | id in old(leases) && Expired(old(leases)[id], now)|
    {
      var expired := set id | id in leases && Expired(leases[id], now);
      count := |expired|;
      leases := map id | id in leases ::
        if id in expired then leases[id].(status := Pending, owner := None, expires := None) else leases[id];
    }

    // -------------------------------------------------------------- outcomes

    /** Without a row for the url the insert of the document violates its foreign key and the transaction is rolled back. */
    method Complete(host: string, id: nat, simhash: nat, text: string, rawKey: Key, textKey: Key, now: Time)
      returns (ok: bool)
      modifies this
      ensures ok <==> id in old(urls) && id in old(leases)
      ensures Tables() == if ok
                          then CompleteUrl(old(Tables()), host, id, NearDuplicate.ToSigned(simhash), text, rawKey, textKey, now)
                          else old(Tables())
      ensures ok ==> urls[id].content == Some(text) && urls[id].simhash.Some?
                     && (simhash < Bits.TWO64 ==>
                           -Bits.TWO63 <= urls[id].simhash.value < Bits.TWO63
                           && NearDuplicate.ToUnsigned(urls[id].simhash.value) == simhash)
      ensures ok ==> urls == old(urls)[id := old(urls)[id].(simhash := urls[id].simhash, content := urls[id].content)]
      ensures ok ==> docs == old(docs)[id := DocRow(rawKey, textKey, Queued,
                                                    if id in old(docs) then old(docs)[id].duplicateOf else None, now)]
      ensures ok ==>
                leases == old(leases)[id := Lease(Done, None, None, now + 7 * 24 * 60 * MINUTE, old(leases)[id].attempts, 0)]
    {
      ok := id in urls && id in leases;
      if !ok {
        return;
      }
      if host in hostIdx && hostIdx[host] in domains {
        var d := hostIdx[host];
        domains := domains[d := domains[d].(crawled := domains[d].crawled + 1)];
      }
      urls := urls[id := urls[id].(simhash := Some(NearDuplicate.ToSigned(simhash)), content := Some(text))];
      leases := leases[id := Settled(leases[id], now)];
      if id in docs {
        docs := docs[id := docs[id].(rawKey := rawKey, textKey := textKey, state := Queued, updatedAt := now)];
      } else {
        docs := docs[id := DocRow(rawKey, textKey, Queued, None, now)];
      }
    }

    method Reschedule(id: nat, now: Time)
      modifies `leases
      ensures leases == if id in old(leases) then old(leases)[id := Settled(old(leases)[id], now)] else old(leases)
      ensures id in leases ==>
                leases[id] == Lease(Done, None, None, now + 7 * 24 * 60 * MINUTE, old(leases)[id].attempts, 0)
    {
      if id in leases {
        leases := leases[id := Settled(leases[id], now)];
      }
    }

    method Skip(id: nat)
      modifies `leases
      ensures leases == if id in old(leases) then old(leases)[id := SetAside(old(leases)[id])] else old(leases)
      ensures id in leases ==>
                var was := old(leases)[id]; leases[id] == Lease(Skipped, None, None, was.dueAt, was.attempts, was.failures)
    {
      if id in leases {
        leases := leases[id := SetAside(leases[id])];
      }
    }

    /** The first autocommit statement of fail(). */
    method FailRow(id: nat, maxFailures: int, now: Time) returns (retired: bool)
      modifies `leases
      ensures leases == if id in old(leases) then old(leases)[id := FailedOnce(old(leases)[id], maxFailures, now)]
                        else old(leases)
      ensures id in leases ==>
                var was := old(leases)[id];
                leases[id] == Lease(if was.failures + 1 >= maxFailures then Failed else Pending, None, None,
                                    now + MINUTE * Pow2(Min(was.failures, 6)), was.attempts, was.failures + 1)
      ensures retired <==> id in leases && leases[id].status == Failed
    {
      retired := false;
      if id in leases {
        leases := leases[id := FailedOnce(leases[id], maxFailures, now)];
        retired := leases[id].status == Failed;
      }
    }

    /** Both statements, with nothing in between. */
    method Fail(host: string, id: nat, maxFailures: int, now: Time) returns (retired: bool)
      modifies this
      ensures Tables() == if id in old(leases) then FailUrl(old(Tables()), host, id, maxFailures, now)
                          else BumpErrors(old(Tables()), host)
      ensures urls == old(urls) && docs == old(docs) && links == old(links)
      ensures old(host in hostIdx && hostIdx[host] in domains) ==>
                var d := hostIdx[host]; domains == old(domains)[d := old(domains)[d].(errors := old(domains)[d].errors + 1)]
      ensures retired <==> id in leases && leases[id].status == Failed
    {
      retired := FailRow(id, maxFailures, now);
      if host in hostIdx && hostIdx[host] in domains {
        var d := hostIdx[host];
        domains := domains[d := domains[d].(errors := domains[d].errors + 1)];
      }
    }

    // -------------------------------------------------------------- discovery

    method EnsureDomain(host: string) returns (d: nat)
      modifies this
      ensures (Tables(), d) == UpsertDomain(old(Tables()), host)
    {
      if host in hostIdx {
        d := hostIdx[host];
      } else {
        d := nextDomain;
        domains, hostIdx := domains[d := DomainRow(host, 0, 0, 0)], hostIdx[host := d];
      }
      nextDomain := nextDomain + 1;
    }

    method TryInsertUrl(domain: nat, url: string, depth: nat, priority: int, now: Time) returns (made: Option<nat>)
      modifies this
      ensures (Tables(), made) == InsertUrl(old(Tables()), domain, url, depth, priority, now)
    {
      made := None;
      if url !in urlIdx {
        made := Some(nextUrl);
        urls := urls[nextUrl := UrlRow(domain, url, depth, priority, None, None)];
        leases, urlIdx := leases[nextUrl := Fresh(now)], urlIdx[url := nextUrl];
      }
      nextUrl := nextUrl + 1;
    }

    /** One turn of the loop of _add_once. */
    method AddOne(link: Link, from: nat, depth: nat, now: Time) returns (inserted: nat)
      modifies this
      ensures (Tables(), inserted) == AddLink(old(Tables()), link, from, depth, now, hostOf)
      ensures old(nextUrl) <= nextUrl && old(nextDomain) <= nextDomain
    {
      inserted := 0;
      var host := hostOf(link.url);
      if host == "" {
        return;
      }
      var d := EnsureDomain(host);
      var to := TryInsertUrl(d, link.url, depth, DEFAULT_PRIORITY, now);
      if to.Some? {
        inserted := 1;
      } else if link.url in urlIdx {
        to := Some(urlIdx[link.url]);
      }
      if to.Some? && (from, to.value) !in links {
        links := links[(from, to.value) := Edge(link.anchor, link.rel)];
      }
      if d in domains {
        domains := domains[d := domains[d].(discovered := domains[d].discovered + 1)];
      }
    }

    method AddNth(page: seq<Link>, i: nat, from: nat, depth: nat, now: Time, ghost start: Db, ghost sofar: nat)
      returns (n: nat)
      requires i < |page| && (Tables(), sofar) == AddLinks(start, page[..i], from, depth, now, hostOf)
      modifies this
      ensures (Tables(), sofar + n) == AddLinks(start, page[..i + 1], from, depth, now, hostOf)
      ensures old(nextUrl) <= nextUrl && old(nextDomain) <= nextDomain
    {
      AddLinksSnoc(start, page, i, from, depth, now, hostOf);
      n := AddOne(page[i], from, depth, now);
    }

    /** The loop of _add_once over the first `stop` links. */
    method AddPrefix(page: seq<Link>, stop: nat, from: nat, depth: nat, now: Time) returns (inserted: nat)
      requires stop <= |page|
      modifies this
      ensures (Tables(), inserted) == AddLinks(old(Tables()), page[..stop], from, depth, now, hostOf)
      ensures old(nextUrl) <= nextUrl && old(nextDomain) <= nextDomain
    {
      inserted := 0;
      ghost var start := Tables();
      for i := 0 to stop
        invariant (Tables(), inserted) == AddLinks(start, page[..i], from, depth, now, hostOf)
        invariant start.nextUrl <= nextUrl && start.nextDomain <= nextDomain
      {
        var n := AddNth(page, i, from, depth, now, start, inserted);
        inserted := inserted + n;
      }
    }

    /** One transaction over the links. When it is chosen as a deadlock victim, after `cut` links, it is rolled back:
        everything but the serial columns returns to its value before. */
    method AddOnce(page: seq<Link>, from: nat, depth: nat, now: Time, cut: Option<nat>)
      returns (ok: bool, inserted: nat)
      modifies this
      ensures ok <==> cut.None?
      ensures ok ==> (Tables(), inserted) == AddLinks(old(Tables()), page, from, depth, now, hostOf)
      ensures !ok ==> OnlySerialsMoved(old(Tables()), Tables())
    {
      var urls0, leases0, domains0, hostIdx0 := urls, leases, domains, hostIdx;
      var urlIdx0, links0, docs0 := urlIdx, links, docs;
      ok := cut.None?;
      inserted := AddPrefix(page, if ok then |page| else Min(cut.value, |page|), from, depth, now);
      if ok {
        assert page[..|page|] == page;
      } else {
        inserted := 0;
        urls, leases, domains, hostIdx := urls0, leases0, domains0, hostIdx0;
        urlIdx, links, docs := urlIdx0, links0, docs0;
      }
    }

    /** add(): sort by host, then up to three tries. `cuts` says where the tries that are chosen as deadlock victims
        are cut off. None is the re-raised DeadlockDetectedError. */
    method Add(page: seq<Link>, from: nat, depth: nat, now: Time, cuts: seq<nat>) returns (inserted: Option<nat>)
      requires Sound(Tables()) && from in urls
      modifies this
      ensures Sound(Tables())
      ensures inserted.Some? <==> |cuts| < 3
      ensures inserted.None? ==> OnlySerialsMoved(old(Tables()), Tables())
      ensures inserted.Some? ==>
                var (direct, n) := AddLinks(old(Tables()), page, from, depth, now, hostOf);
                Sound(direct) && SameContent(Tables(), direct) && inserted.value == n
    {
      ghost var start := Tables();
      var sorted := SortByHost(page, hostOf);
      for attempt := 0 to 3
        invariant attempt <= |cuts| && OnlySerialsMoved(start, Tables())
      {
        SerialsAreNotContent(start, Tables());
        SortingPreservesAdd(start, Tables(), page, from, depth, now, hostOf);
        var ok, n := AddOnce(sorted, from, depth, now, if attempt < |cuts| then Some(cuts[attempt]) else None);
        if ok {
          return Some(n);
        }
      }
      SerialsAreNotContent(start, Tables());
      return None;
    }

    method SeedOne(url: string, now: Time) returns (inserted: nat)
      modifies this
      ensures (Tables(), inserted) == SeedUrl(old(Tables()), url, now, hostOf)
    {
      inserted := 0;
      if hostOf(url) != "" {
        var d := EnsureDomain(hostOf(url));
        var made := TryInsertUrl(d, url, 0, SEED_PRIORITY, now);
        inserted := if made.Some? then 1 else 0;
      }
    }

    /** seed(), after the normalization of its urls. */
    method Seed(seeds: seq<string>, now: Time) returns (inserted: nat)
      modifies this
      ensures (Tables(), inserted) == SeedUrls(old(Tables()), seeds, now, hostOf)
    {
      inserted := 0;
      ghost var start := Tables();
      for i := 0 to |seeds|
        invariant (Tables(), inserted) == SeedUrls(start, seeds[..i], now, hostOf)
      {
        assert seeds[..i + 1][..i] == seeds[..i];
        var n := SeedOne(seeds[i], now);
        inserted := inserted + n;
      }
      assert seeds[..|seeds|] == seeds;
    }

    /** The first transaction of feed_links_to_crawler; None when the origin has no host. */
    method FeedOriginRow(origin: string, now: Time) returns (id: Option<nat>)
      modifies this
      ensures Tables() == FeedOrigin(old(Tables()), origin, now, hostOf)
      ensures hostOf(origin) == "" <==> id.None?
      ensures id.Some? ==> origin in urlIdx && id.value == urlIdx[origin]
    {
      id := None;
      if hostOf(origin) != "" {
        var d := EnsureDomain(hostOf(origin));
        id := TryInsertUrl(d, origin, 0, DEFAULT_PRIORITY, now);
        if id.None? {
          id := Some(urlIdx[origin]);
        }
      }
    }

    /** feed_links_to_crawler: the origin's row in a transaction of its own, then add() at depth 0. */
    method FeedLinksToCrawler(origin: string, page: seq<Link>, now: Time, cuts: seq<nat>) returns (inserted: Option<nat>)
      requires Sound(Tables())
      modifies this
      ensures Sound(Tables())
      ensures hostOf(origin) == "" ==> inserted == Some(0) && Tables() == old(Tables())
      ensures hostOf(origin) != "" ==> (inserted.Some? <==> |cuts| < 3)
      ensures hostOf(origin) != "" ==> Sound(FeedOrigin(old(Tables()), origin, now, hostOf))
                                       && origin in FeedOrigin(old(Tables()), origin, now, hostOf).urlIdx
      ensures hostOf(origin) != "" && inserted.None? ==>
                OnlySerialsMoved(FeedOrigin(old(Tables()), origin, now, hostOf), Tables())
      ensures hostOf(origin) != "" && inserted.Some? ==>
                var fed := FeedOrigin(old(Tables()), origin, now, hostOf);
                var (direct, n) := AddLinks(fed, page, fed.urlIdx[origin], 0, now, hostOf);
                Sound(direct) && SameContent(Tables(), direct) && inserted.value == n
    {
      Growth.FeedOriginGrows(Tables(), origin, now, hostOf);
      var id := FeedOriginRow(origin, now);
      if id.None? {
        return Some(0);
      }
      assert Holds(Tables(), UrlKeys);
      inserted := Add(page, id.value, 0, now, cuts);
    }
  }

  lemma AddLinksSnoc(db: Db, page: seq<Link>, i: nat, from: nat, depth: nat, now: Time, hostOf: string -> string)
    requires i < |page|
    ensures var (before, n) := AddLinks(db, page[..i], from, depth, now, hostOf);
            var (after, m) := AddLink(before, page[i], from, depth, now, hostOf);
            AddLinks(db, page[..i + 1], from, depth, now, hostOf) == (after, n + m)
  {
    assert page[..i + 1][..i] == page[..i];
  }

  // ---------------------------------------------------------------- what is claimed

  /** Only rows that are pending and due are claimed, and nobody holds them; among such rows of its domain a claimed one has
      the highest priority, and of those with it the earliest due time. */
  lemma ClaimedAreDue(db: Db, now: Time, locked: set<nat>, batch: nat, picks: seq<nat>, id: nat)
    requires Sound(db) && ClaimQuery.Answer(Items(db, now), locked, batch, picks) && id in picks
    ensures id in db.urls && id in db.leases && id !in locked
    ensures db.leases[id].status == Pending && db.leases[id].dueAt <= now
    ensures forall j | j in db.urls && j in db.leases && db.urls[j].domain == db.urls[id].domain && j !in locked
                       && db.leases[j].status == Pending && db.leases[j].dueAt <= now ::
              && db.urls[j].priority <= db.urls[id].priority
              && (db.urls[j].priority == db.urls[id].priority ==> db.leases[id].dueAt <= db.leases[j].dueAt)
  {
    assert Holds(db, References);
    var items := Items(db, now);
    assert ClaimQuery.Best(items, locked, id);
    forall j | j in db.urls && j in db.leases && db.urls[j].domain == db.urls[id].domain && j !in locked
               && db.leases[j].status == Pending && db.leases[j].dueAt <= now
      ensures db.urls[j].priority <= db.urls[id].priority
      ensures db.urls[j].priority == db.urls[id].priority ==> db.leases[id].dueAt <= db.leases[j].dueAt
    {
      assert ClaimQuery.Candidate(items, locked, items[id].domain, j);
    }
  }

  /** The domains that have a row to claim. */
  function DueDomains(db: Db, now: Time): set<nat> {
    set id | id in db.urls && id in db.leases && db.leases[id].status == Pending && db.leases[id].dueAt <= now ::
      db.urls[id].domain
  }

  /** With no concurrent lock holders a claim takes one row from each of these domains, up to its batch. */
  lemma UrlClaimIsFull(db: Db, now: Time, batch: nat, picks: seq<nat>)
    requires ClaimQuery.Answer(Items(db, now), {}, batch, picks)
    ensures |picks| == Min(batch, |DueDomains(db, now)|)
  {
    var items := Items(db, now);
    ClaimQuery.ClaimIsFull(items, batch, picks);
    forall d | d in ClaimQuery.ReadyDomains(items) ensures d in DueDomains(db, now) {
      var id :| id in items && items[id].ready && items[id].domain == d;
    }
    forall d | d in DueDomains(db, now) ensures d in ClaimQuery.ReadyDomains(items) {
      var id :| id in db.urls && id in db.leases && db.leases[id].status == Pending && db.leases[id].dueAt <= now
                && db.urls[id].domain == d;
      assert items[id].ready;
    }
    assert ClaimQuery.ReadyDomains(items) == DueDomains(db, now);
  }
}
