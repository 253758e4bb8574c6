/** The crawl tables of db/schema.sql as values, and the effect of each statement of crawler/frontier.py on them.
    A UNIQUE constraint is the index that enforces it: `hostIdx` for domains.host, `urlIdx` for urls.url_key. */
module Tables {
  import opened Base
  import opened LeaseQueue

  datatype UrlRow = UrlRow(
    domain: nat, url: string, depth: nat, priority: int, simhash: Option<int>, content: Option<string>)

  datatype DomainRow = DomainRow(host: string, discovered: nat, crawled: nat, errors: nat)

  datatype Edge = Edge(anchor: Option<string>, rel: Option<string>)

  /** A blob name: the shard directory of the real key is a function of `id`. */
  datatype Key = Key(prefix: string, host: string, id: nat, ext: string)

  datatype IndexState = Queued | Indexed | IndexFailed | Suppressed

  datatype DocRow = DocRow(
    rawKey: Key, textKey: Key, state: IndexState, duplicateOf: Option<nat>, updatedAt: Time)

  datatype Link = Link(url: string, anchor: Option<string>, rel: Option<string>)

  /** `urls` and `leases` together are the urls table; the lease columns are a map of their own. */
  datatype Db = Db(
    urls: map<nat, UrlRow>, leases: map<nat, Lease>, domains: map<nat, DomainRow>,
    hostIdx: map<string, nat>, urlIdx: map<string, nat>,
    links: map<(nat, nat), Edge>, docs: map<nat, DocRow>, nextUrl: nat, nextDomain: nat)

  const EMPTY := Db(map[], map[], map[], map[], map[], map[], map[], 1, 1)

  const DEFAULT_PRIORITY := 100
  const SEED_PRIORITY := 1000

  function RawKey(host: string, id: nat): Key { Key("raw", host, id, "html") }

  function TextKey(host: string, id: nat): Key { Key("text", host, id, "txt") }

  /** urls_url_key_uniq, and ids below the serial column. */
  ghost predicate UrlIndexOk(db: Db) {
    && (forall u | u in db.urlIdx :: db.urlIdx[u] in db.urls && db.urls[db.urlIdx[u]].url == u)
    && (forall id | id in db.urls :: id < db.nextUrl && db.urls[id].url in db.urlIdx && db.urlIdx[db.urls[id].url] == id)
  }

  /** domains.host is unique, and ids are below the serial column. */
  ghost predicate HostIndexOk(db: Db) {
    && (forall h | h in db.hostIdx :: db.hostIdx[h] in db.domains && db.domains[db.hostIdx[h]].host == h)
    && (forall d | d in db.domains ::
          d < db.nextDomain && db.domains[d].host in db.hostIdx && db.hostIdx[db.domains[d].host] == d)
  }

  /** The foreign keys; the two column groups of urls have the same rows. */
  ghost predicate ReferencesOk(db: Db) {
    && db.leases.Keys == db.urls.Keys
    && (forall id | id in db.urls :: db.urls[id].domain in db.domains)
    && (forall e | e in db.links :: e.0 in db.urls && e.1 in db.urls)
    && (forall id | id in db.docs :: id in db.urls)
  }

  datatype Constraint = UrlKeys | HostKeys | References

  ghost predicate Holds(db: Db, c: Constraint) {
    match c
    case UrlKeys => UrlIndexOk(db)
    case HostKeys => HostIndexOk(db)
    case References => ReferencesOk(db)
  }

  /** Every constraint the schema declares. */
  ghost predicate Sound(db: Db) {
    forall c :: Holds(db, c)
  }

  // ---------------------------------------------------------------- discovery

  /** INSERT INTO domains ... ON CONFLICT (host) DO UPDATE ... RETURNING id; nextval runs on a conflict too. */
  function UpsertDomain(db: Db, host: string): (Db, nat) {
    var burnt := db.(nextDomain := db.nextDomain + 1);
    if host in db.hostIdx then (burnt, db.hostIdx[host])
    else (burnt.(domains := db.domains[db.nextDomain := DomainRow(host, 0, 0, 0)],
                 hostIdx := db.hostIdx[host := db.nextDomain]), db.nextDomain)
  }

  /** INSERT INTO urls ... ON CONFLICT (url_key) DO NOTHING RETURNING id; None on a conflict. */
  function InsertUrl(db: Db, domain: nat, url: string, depth: nat, priority: int, now: Time): (Db, Option<nat>) {
    var burnt := db.(nextUrl := db.nextUrl + 1);
    if url in db.urlIdx then (burnt, None)
    else (burnt.(urls := db.urls[db.nextUrl := UrlRow(domain, url, depth, priority, None, None)],
                 leases := db.leases[db.nextUrl := Fresh(now)],
                 urlIdx := db.urlIdx[url := db.nextUrl]), Some(db.nextUrl))
  }

  function InsertEdge(db: Db, from: nat, to: nat, link: Link): Db {
    if (from, to) in db.links then db else db.(links := db.links[(from, to) := Edge(link.anchor, link.rel)])
  }

  function BumpDiscovered(db: Db, d: nat): Db {
    if d in db.domains
    then db.(domains := db.domains[d := db.domains[d].(discovered := db.domains[d].discovered + 1)])
    else db
  }

  /** The two inserts every discovered url goes through: its domain, then itself. Also the domain's id. */
  function Place(db: Db, host: string, url: string, depth: nat, priority: int, now: Time): (Db, nat, Option<nat>) {
    var (db1, d) := UpsertDomain(db, host);
    var (db2, made) := InsertUrl(db1, d, url, depth, priority, now);
    (db2, d, made)
  }

  /** One turn of the loop of _add_once. `hostOf(u)` is registrable_host(u), "" when there is none. */
  function AddLink(db: Db, link: Link, from: nat, depth: nat, now: Time, hostOf: string -> string): (Db, nat) {
    var host := hostOf(link.url);
    if host == "" then (db, 0)
    else
      var (placed, d, made) := Place(db, host, link.url, depth, DEFAULT_PRIORITY, now);
      var to := if made.Some? then made
                else if link.url in placed.urlIdx then Some(placed.urlIdx[link.url]) else None;
      var linked := if to.Some? then InsertEdge(placed, from, to.value, link) else placed;
      (BumpDiscovered(linked, d), if made.Some? then 1 else 0)
  }

  function AddLinks(db: Db, links: seq<Link>, from: nat, depth: nat, now: Time, hostOf: string -> string): (Db, nat)
    decreases |links|
  {
    if links == [] then (db, 0)
    else
      var (before, n) := AddLinks(db, links[..|links| - 1], from, depth, now, hostOf);
      var (after, m) := AddLink(before, links[|links| - 1], from, depth, now, hostOf);
      (after, n + m)
  }

  /** One turn of the loop of seed(): no edge, no counter, depth 0. */
  function SeedUrl(db: Db, url: string, now: Time, hostOf: string -> string): (Db, nat) {
    if hostOf(url) == "" then (db, 0)
    else
      var (placed, _, made) := Place(db, hostOf(url), url, 0, SEED_PRIORITY, now);
      (placed, if made.Some? then 1 else 0)
  }

  function SeedUrls(db: Db, urls: seq<string>, now: Time, hostOf: string -> string): (Db, nat)
    decreases |urls|
  {
    if urls == [] then (db, 0)
    else
      var (before, n) := SeedUrls(db, urls[..|urls| - 1], now, hostOf);
      var (after, m) := SeedUrl(before, urls[|urls| - 1], now, hostOf);
      (after, n + m)
  }

  /** The transaction of feed_links_to_crawler that makes sure the origin has a row. */
  function FeedOrigin(db: Db, url: string, now: Time, hostOf: string -> string): Db {
    if hostOf(url) == "" then db else Place(db, hostOf(url), url, 0, DEFAULT_PRIORITY, now).0
  }

  // ---------------------------------------------------------------- outcomes

  function BumpCrawled(db: Db, host: string): Db {
    if host in db.hostIdx && db.hostIdx[host] in db.domains
    then var d := db.hostIdx[host];
         db.(domains := db.domains[d := db.domains[d].(crawled := db.domains[d].crawled + 1)])
    else db
  }

  function BumpErrors(db: Db, host: string): Db {
    if host in db.hostIdx && db.hostIdx[host] in db.domains
    then var d := db.hostIdx[host];
         db.(domains := db.domains[d := db.domains[d].(errors := db.domains[d].errors + 1)])
    else db
  }

  /** ToSigned(simhash) is what the bigint column stores; see module NearDuplicate. */
  function CompleteUrl(db: Db, host: string, id: nat, simhash: int, text: string, raw: Key, txt: Key, now: Time): Db
    requires id in db.urls && id in db.leases
  {
    var counted := BumpCrawled(db, host);
    counted.(urls := db.urls[id := db.urls[id].(simhash := Some(simhash), content := Some(text))],
             leases := db.leases[id := Settled(db.leases[id], now)],
             docs := db.docs[id := if id in db.docs
                                   then db.docs[id].(rawKey := raw, textKey := txt, state := Queued, updatedAt := now)
                                   else DocRow(raw, txt, Queued, None, now)])
  }

  function FailUrl(db: Db, host: string, id: nat, maxFailures: int, now: Time): Db
    requires id in db.leases
  {
    BumpErrors(db, host).(leases := db.leases[id := FailedOnce(db.leases[id], maxFailures, now)])
  }
}
