/** What a raw blob holds: the crawler and the scraper name theirs by ids of two different tables, so a snapshot can take the
    place of a crawled page. */
module RawBlobs {
  import opened Base
  import opened LeaseQueue
  import LeaseSafety
  import opened Tables
  import opened Discovery
  import opened Growth
  import opened Crawl
  import opened CrawlSafety
  import opened CrawlOnce

  // ---------------------------------------------------------------- the history of a run

  predicate StoresPage(s: State, m: Move, key: Key)
    requires CanMove(s, m)
  {
    m.PutRaw? && RawKey(s.jobs[m.h].host, s.jobs[m.h].id) == key
  }

  predicate StoresSnapshot(s: State, m: Move, key: Key)
    requires CanMove(s, m)
  {
    m.ScrapePut? && RawKey(s.scrapers[m.k].host, s.scrapers[m.k].target) == key
  }

  /** What the scraper last put under `key` since a page was last put there, in the first i moves. */
  ghost function Snapshot(ss: seq<State>, ms: seq<Move>, hostOf: string -> string, i: nat, key: Key): Option<string>
    requires CrawlRun(ss, ms, hostOf) && i < |ss|
  {
    if i == 0 then None
    else if StoresPage(ss[i - 1], ms[i - 1], key) then None
    else if StoresSnapshot(ss[i - 1], ms[i - 1], key) then Some(ms[i - 1].body)
    else Snapshot(ss, ms, hostOf, i - 1, key)
  }

  /** The body the document of `id` was last committed with. */
  ghost function Page(ss: seq<State>, ms: seq<Move>, hostOf: string -> string, i: nat, id: nat): Option<string>
    requires CrawlRun(ss, ms, hostOf) && i < |ss|
  {
    if i == 0 then None
    else if ms[i - 1].Complete? && ss[i - 1].jobs[ms[i - 1].h].id == id then Some(ss[i - 1].jobs[ms[i - 1].h].stage.body)
    else Page(ss, ms, hostOf, i - 1, id)
  }

  // ---------------------------------------------------------------- the blob follows the history

  /** The blob holds the snapshot if there is one, and the page otherwise. */
  predicate Shows(store: map<Key, string>, key: Key, snapshot: Option<string>, page: string) {
    key in store && store[key] == if snapshot.Some? then snapshot.value else page
  }

  predicate HasBody(g: Stage) {
    g.RawStored? || g.Stored?
  }

  ghost predicate JobShows(ss: seq<State>, ms: seq<Move>, hostOf: string -> string, i: nat, h: nat)
    requires CrawlRun(ss, ms, hostOf) && i < |ss| && h in ss[i].jobs
  {
    var j := ss[i].jobs[h];
    HasBody(j.stage) ==>
      Shows(ss[i].store, RawKey(j.host, j.id), Snapshot(ss, ms, hostOf, i, RawKey(j.host, j.id)), j.stage.body)
  }

  /** The name of the raw page of a url. */
  ghost predicate NamedFor(db: Db, id: nat, key: Key) {
    id in db.urls && db.urls[id].domain in db.domains && key == RawKey(db.domains[db.urls[id].domain].host, id)
  }

  ghost predicate DocShows(ss: seq<State>, ms: seq<Move>, hostOf: string -> string, i: nat, id: nat)
    requires CrawlRun(ss, ms, hostOf) && i < |ss| && id in ss[i].db.docs
  {
    var key, page := ss[i].db.docs[id].rawKey, Page(ss, ms, hostOf, i, id);
    && NamedFor(ss[i].db, id, key) && page.Some?
    && Shows(ss[i].store, key, Snapshot(ss, ms, hostOf, i, key), page.value)
  }

  ghost predicate RawTold(ss: seq<State>, ms: seq<Move>, hostOf: string -> string, i: nat)
    requires CrawlRun(ss, ms, hostOf) && i < |ss|
  {
    && (forall h | h in ss[i].jobs :: JobShows(ss, ms, hostOf, i, h))
    && (forall id | id in ss[i].db.docs :: DocShows(ss, ms, hostOf, i, id))
  }

  /** One move leaves a blob and its history in step, unless it stores a page there. */
  lemma ShowsKept(ss: seq<State>, ms: seq<Move>, hostOf: string -> string, i: nat, key: Key, page: string)
    requires CrawlRun(ss, ms, hostOf) && i < |ms| && key.prefix == "raw" && key.ext == "html"
    requires Shows(ss[i].store, key, Snapshot(ss, ms, hostOf, i, key), page) && !StoresPage(ss[i], ms[i], key)
    ensures Shows(ss[i + 1].store, key, Snapshot(ss, ms, hostOf, i + 1, key), page)
  {
    var s, m := ss[i], ms[i];
    assert ss[i + 1].store == StoreAfter(s, m);
    if m.PutText? {
      assert TextKey(s.jobs[m.h].host, s.jobs[m.h].id).prefix != key.prefix;
    }
  }

  lemma JobKept(ss: seq<State>, ms: seq<Move>, hostOf: string -> string, i: nat, h: nat)
    requires CrawlRun(ss, ms, hostOf) && i < |ms| && Separate(ss[i].jobs, ss[i].expanded) && h in ss[i + 1].jobs
    requires h in ss[i].jobs ==> JobShows(ss, ms, hostOf, i, h)
    ensures JobShows(ss, ms, hostOf, i + 1, h)
  {
    var s, m := ss[i], ms[i];
    assert ss[i + 1].jobs == JobsAfter(s, m) && ss[i + 1].store == StoreAfter(s, m);
    var j := ss[i + 1].jobs[h];
    if HasBody(j.stage) && !(m.PutRaw? && m.h == h) {
      assert h in s.jobs && HasBody(s.jobs[h].stage) && s.jobs[h].stage.body == j.stage.body;
      ShowsKept(ss, ms, hostOf, i, RawKey(j.host, j.id), j.stage.body);
    }
  }

  lemma CommitNames(s: State, m: Move, hostOf: string -> string)
    requires Matched(s) && MoveEnabled(s, m, hostOf) && m.Complete?
    ensures var j, b := s.jobs[m.h], TablesAfter(s, m, hostOf);
            j.id in b.docs && b.docs[j.id].rawKey == RawKey(j.host, j.id) && NamedFor(b, j.id, RawKey(j.host, j.id))
  {
    assert JobOk(s, m.h);
    MoveKeeps(s, m, hostOf);
  }

  /** A commit turns the body of the job into that of the document. */
  lemma CommittedShows(ss: seq<State>, ms: seq<Move>, hostOf: string -> string, i: nat)
    requires CrawlRun(ss, ms, hostOf) && i < |ms| && ms[i].Complete? && JobShows(ss, ms, hostOf, i, ms[i].h)
    requires Matched(ss[i])
    ensures ss[i].jobs[ms[i].h].id in ss[i + 1].db.docs && DocShows(ss, ms, hostOf, i + 1, ss[i].jobs[ms[i].h].id)
  {
    var s, m := ss[i], ms[i];
    var j := s.jobs[m.h];
    assert ss[i + 1].db == TablesAfter(s, m, hostOf) && ss[i + 1].store == s.store;
    CommitNames(s, m, hostOf);
    ShowsKept(ss, ms, hostOf, i, RawKey(j.host, j.id), j.stage.body);
  }

  /** Nobody stores a page for a url that has a document. */
  lemma NoPageOver(s: State, m: Move, id: nat)
    requires Matched(s) && CanMove(s, m) && LeaseSafety.Inv(QueueOf(s)) && AllDone(s) && id in s.db.docs && m.PutRaw?
    ensures s.jobs[m.h].id != id
  {
    WorkingIsLeased(s, m.h);
    assert DoneRow(s, id);
  }

  lemma DocKept(ss: seq<State>, ms: seq<Move>, hostOf: string -> string, i: nat, id: nat)
    requires CrawlRun(ss, ms, hostOf) && i < |ms| && id in ss[i].db.docs && id in ss[i + 1].db.docs
    requires DocShows(ss, ms, hostOf, i, id) && Kept(ss[i].db, ss[i + 1].db)
    requires ss[i + 1].db.docs[id] == ss[i].db.docs[id] && (ms[i].PutRaw? ==> ss[i].jobs[ms[i].h].id != id)
    requires ms[i].Complete? ==> ss[i].jobs[ms[i].h].id != id
    ensures DocShows(ss, ms, hostOf, i + 1, id)
  {
    ShowsKept(ss, ms, hostOf, i, ss[i].db.docs[id].rawKey, Page(ss, ms, hostOf, i, id).value);
  }

  lemma DocsTold(ss: seq<State>, ms: seq<Move>, hostOf: string -> string, i: nat, id: nat)
    requires CrawlRun(ss, ms, hostOf) && i < |ms| && Matched(ss[i]) && LeaseSafety.Inv(QueueOf(ss[i])) && Once(ss[i])
    requires RawTold(ss, ms, hostOf, i) && id in ss[i + 1].db.docs
    ensures DocShows(ss, ms, hostOf, i + 1, id)
  {
    var s, m := ss[i], ms[i];
    assert ss[i + 1].db == TablesAfter(s, m, hostOf);
    if m.Complete? && s.jobs[m.h].id == id {
      assert JobShows(ss, ms, hostOf, i, m.h);
      CommittedShows(ss, ms, hostOf, i);
    } else {
      if m.Complete? {
        DocsOfComplete(s, m, hostOf);
      } else {
        DocsAfter(s, m, hostOf);
      }
      assert DocShows(ss, ms, hostOf, i, id);
      OtherRowsStay(s, m, hostOf, id);
      if m.PutRaw? {
        NoPageOver(s, m, id);
      }
      MoveKeeps(s, m, hostOf);
      DocKept(ss, ms, hostOf, i, id);
    }
  }

  lemma NothingToTell(ss: seq<State>, ms: seq<Move>, hostOf: string -> string)
    requires CrawlRun(ss, ms, hostOf)
    ensures RawTold(ss, ms, hostOf, 0)
  {
    assert ss[0].jobs == map[] && ss[0].db.docs == map[];
  }

  lemma {:induction false} RunTellsRaw(ss: seq<State>, ms: seq<Move>, hostOf: string -> string, i: nat)
    requires LapseFreeCrawl(ss, ms, hostOf) && i < |ss|
    ensures RawTold(ss, ms, hostOf, i)
  {
    if i == 0 {
      NothingToTell(ss, ms, hostOf);
    } else {
      RunTellsRaw(ss, ms, hostOf, i - 1);
      RawTellsNext(ss, ms, hostOf, i - 1, i);
    }
  }

  lemma RawTellsNext(ss: seq<State>, ms: seq<Move>, hostOf: string -> string, i: nat, n: nat)
    requires LapseFreeCrawl(ss, ms, hostOf) && i < |ms| && n == i + 1 && RawTold(ss, ms, hostOf, i)
    ensures RawTold(ss, ms, hostOf, n)
  {
    RunKeepsOnce(ss, ms, hostOf, i);
    RawTellsOn(ss, ms, hostOf, i, n);
  }

  lemma JobsTold(ss: seq<State>, ms: seq<Move>, hostOf: string -> string, i: nat, n: nat)
    requires CrawlRun(ss, ms, hostOf) && i < |ms| && n == i + 1
    requires Separate(ss[i].jobs, ss[i].expanded) && RawTold(ss, ms, hostOf, i)
    ensures forall h | h in ss[n].jobs :: JobShows(ss, ms, hostOf, n, h)
  {
    forall h | h in ss[n].jobs ensures JobShows(ss, ms, hostOf, n, h) {
      assert h in ss[i].jobs ==> JobShows(ss, ms, hostOf, i, h);
      JobKept(ss, ms, hostOf, i, h);
    }
  }

  lemma RawTellsOn(ss: seq<State>, ms: seq<Move>, hostOf: string -> string, i: nat, n: nat)
    requires CrawlRun(ss, ms, hostOf) && i < |ms| && n == i + 1
    requires Matched(ss[i]) && LeaseSafety.Inv(QueueOf(ss[i])) && Once(ss[i]) && RawTold(ss, ms, hostOf, i)
    ensures RawTold(ss, ms, hostOf, n)
  {
    JobsTold(ss, ms, hostOf, i, n);
    forall id | id in ss[n].db.docs ensures DocShows(ss, ms, hostOf, n, id) {
      DocsTold(ss, ms, hostOf, i, id);
    }
  }

  /** In every state of a lapse-free run the raw blob a document names exists and holds the body it was committed with if
      and only if the scraper's last snapshot under that name since the page was stored, if there is one, has the very
      same body. */
  lemma RawPageSurvivesExactly(ss: seq<State>, ms: seq<Move>, hostOf: string -> string, i: nat, id: nat)
    requires LapseFreeCrawl(ss, ms, hostOf) && i < |ss| && id in ss[i].db.docs
    ensures var key, page, snapshot := ss[i].db.docs[id].rawKey, Page(ss, ms, hostOf, i, id),
                                       Snapshot(ss, ms, hostOf, i, ss[i].db.docs[id].rawKey);
            && NamedFor(ss[i].db, id, key) && key in ss[i].store && page.Some?
            && (ss[i].store[key] == page.value <==> snapshot.None? || snapshot == page)
  {
    RunTellsRaw(ss, ms, hostOf, i);
    assert DocShows(ss, ms, hostOf, i, id);
  }

  // ---------------------------------------------------------------- a run that loses a page

  /** One more move of a lapse-free run. */
  lemma Further(ss: seq<State>, ms: seq<Move>, hostOf: string -> string, s: State, m: Move)
    returns (longer: seq<State>, moves: seq<Move>, n: State)
    requires LapseFreeCrawl(ss, ms, hostOf) && s == ss[|ms|] && MoveEnabled(s, m, hostOf) && NoLapse(Do(s, m, hostOf))
    ensures LapseFreeCrawl(longer, moves, hostOf) && n == Do(s, m, hostOf) && n == longer[|moves|]
    ensures moves == ms + [m]
  {
    n := Do(s, m, hostOf);
    longer, moves := ss + [n], ms + [m];
    forall i | 0 <= i < |moves| ensures MoveEnabled(longer[i], moves[i], hostOf)
                                        && longer[i + 1] == Do(longer[i], moves[i], hostOf) {
    }
    forall i | 0 <= i < |longer| ensures NoLapse(longer[i]) {
    }
  }

  /** A frontier with one seed. */
  function OneSeed(u: string, host: string): Db {
    Db(map[1 := UrlRow(1, u, 0, SEED_PRIORITY, None, None)], map[1 := Fresh(0)], map[1 := DomainRow(host, 0, 0, 0)],
       map[host := 1], map[u := 1], map[], map[], 2, 2)
  }

  lemma SeedingOne(u: string, hostOf: string -> string)
    requires hostOf(u) != ""
    ensures SeedUrls(EMPTY, [u], 0, hostOf).0 == OneSeed(u, hostOf(u))
  {
    assert [u][..0] == [];
    assert SeedUrls(EMPTY, [u][..0], 0, hostOf) == (EMPTY, 0);
  }

  const NOTHING := State(EMPTY, 0, map[], map[], map[], map[], map[], map[], {}, 0)

  lemma SeedMove(u: string, hostOf: string -> string)
    requires hostOf(u) != ""
    ensures MoveEnabled(NOTHING, SeedAll([u]), hostOf)
    ensures var s := Do(NOTHING, SeedAll([u]), hostOf);
            && s == NOTHING.(db := OneSeed(u, hostOf(u)), past := s.past, seeds := 1) && s.past.Keys == {1}
  {
    SeedingOne(u, hostOf);
    assert NewRows(EMPTY, OneSeed(u, hostOf(u))) == {1};
  }

  /** The job of the first url, up to its commit. */
  function JobOfFirst(host: string, g: Stage): map<nat, Job> {
    map[0 := Job(1, host, 0, g)]
  }

  const LEASE := Holder("w", 1, 300 * SECOND)

  lemma ClaimMove(s: State, u: string, hostOf: string -> string)
    requires s == NOTHING.(db := OneSeed(u, hostOf(u)), past := s.past, seeds := 1) && s.past.Keys == {1}
    ensures MoveEnabled(s, ClaimUrl(0, "w", 1, 300), hostOf)
    ensures var n := Do(s, ClaimUrl(0, "w", 1, 300), hostOf);
            && n == s.(db := OneSeed(u, hostOf(u)).(leases := map[1 := Claimed(Fresh(0), "w", 300, 0)]), past := n.past,
                       jobs := JobOfFirst(hostOf(u), Working), holders := map[0 := LEASE])
            && n.past.Keys == {1} && NoLapse(n)
  {
  }

  /** The first url on its way to its commit. */
  ghost predicate Visiting(s: State, host: string, g: Stage) {
    && s.jobs == JobOfFirst(host, g) && s.holders == map[0 := LEASE] && s.now == 0 && s.scrapers == map[]
    && 1 in s.db.urls && 1 in s.db.leases && 1 in s.past && s.db.docs == map[]
  }

  lemma PageMove(s: State, host: string, page: string, hostOf: string -> string)
    requires Visiting(s, host, Working)
    ensures MoveEnabled(s, PutRaw(0, page), hostOf) && NoLapse(Do(s, PutRaw(0, page), hostOf))
    ensures Visiting(Do(s, PutRaw(0, page), hostOf), host, RawStored(page))
  {
  }

  lemma TextMove(s: State, host: string, page: string, text: string, hostOf: string -> string)
    requires Visiting(s, host, RawStored(page))
    ensures MoveEnabled(s, PutText(0, text), hostOf) && NoLapse(Do(s, PutText(0, text), hostOf))
    ensures Visiting(Do(s, PutText(0, text), hostOf), host, Stored(page, text))
  {
  }

  ghost predicate HasDocument(s: State, host: string) {
    && s.holders == map[] && 1 in s.db.docs && s.db.docs[1].rawKey == RawKey(host, 1)
  }

  lemma CommitMove(s: State, host: string, page: string, text: string, hostOf: string -> string)
    requires Visiting(s, host, Stored(page, text))
    ensures MoveEnabled(s, Complete(0, 0), hostOf) && NoLapse(Do(s, Complete(0, 0), hostOf))
    ensures HasDocument(Do(s, Complete(0, 0), hostOf), host) && Do(s, Complete(0, 0), hostOf).scrapers == map[]
  {
  }

  /** The scraper's first target on the same host has the same id. */
  lemma SnapshotMoves(s: State, host: string, body: string, hostOf: string -> string)
    requires HasDocument(s, host) && s.scrapers == map[]
    ensures MoveEnabled(s, ScrapeStart(0, 1, host), hostOf) && NoLapse(Do(s, ScrapeStart(0, 1, host), hostOf))
    ensures var t := Do(s, ScrapeStart(0, 1, host), hostOf);
            && MoveEnabled(t, ScrapePut(0, body), hostOf) && NoLapse(Do(t, ScrapePut(0, body), hostOf))
            && HasDocument(Do(t, ScrapePut(0, body), hostOf), host)
            && RawKey(host, 1) in Do(t, ScrapePut(0, body), hostOf).store
            && Do(t, ScrapePut(0, body), hostOf).store[RawKey(host, 1)] == body
  {
  }

  lemma RunToClaim(u: string, hostOf: string -> string) returns (ss: seq<State>, ms: seq<Move>, s: State)
    requires hostOf(u) != ""
    ensures LapseFreeCrawl(ss, ms, hostOf) && s == ss[|ms|] && Visiting(s, hostOf(u), Working)
    ensures ms == [SeedAll([u]), ClaimUrl(0, "w", 1, 300)]
  {
    s := NOTHING;
    ss, ms := [s], [];
    SeedMove(u, hostOf);
    ss, ms, s := Further(ss, ms, hostOf, s, SeedAll([u]));
    ClaimMove(s, u, hostOf);
    ss, ms, s := Further(ss, ms, hostOf, s, ClaimUrl(0, "w", 1, 300));
  }

  lemma RunToText(ss: seq<State>, ms: seq<Move>, s: State, host: string, page: string, text: string,
                  hostOf: string -> string) returns (longer: seq<State>, moves: seq<Move>, n: State)
    requires LapseFreeCrawl(ss, ms, hostOf) && s == ss[|ms|] && Visiting(s, host, Working)
    ensures LapseFreeCrawl(longer, moves, hostOf) && n == longer[|moves|] && Visiting(n, host, Stored(page, text))
    ensures moves == ms + [PutRaw(0, page), PutText(0, text)]
  {
    PageMove(s, host, page, hostOf);
    longer, moves, n := Further(ss, ms, hostOf, s, PutRaw(0, page));
    TextMove(n, host, page, text, hostOf);
    longer, moves, n := Further(longer, moves, hostOf, n, PutText(0, text));
  }

  lemma RunToCommit(ss: seq<State>, ms: seq<Move>, s: State, host: string, page: string, text: string,
                    hostOf: string -> string) returns (longer: seq<State>, moves: seq<Move>, n: State)
    requires LapseFreeCrawl(ss, ms, hostOf) && s == ss[|ms|] && Visiting(s, host, Stored(page, text))
    ensures LapseFreeCrawl(longer, moves, hostOf) && n == longer[|moves|] && HasDocument(n, host) && n.scrapers == map[]
    ensures moves == ms + [Complete(0, 0)]
  {
    CommitMove(s, host, page, text, hostOf);
    longer, moves, n := Further(ss, ms, hostOf, s, Complete(0, 0));
  }

  lemma RunToSnapshot(ss: seq<State>, ms: seq<Move>, s: State, host: string, body: string, hostOf: string -> string)
    returns (longer: seq<State>, moves: seq<Move>, n: State)
    requires LapseFreeCrawl(ss, ms, hostOf) && s == ss[|ms|] && HasDocument(s, host) && s.scrapers == map[]
    ensures LapseFreeCrawl(longer, moves, hostOf) && n == longer[|moves|] && HasDocument(n, host)
    ensures RawKey(host, 1) in n.store && n.store[RawKey(host, 1)] == body
    ensures moves == ms + [ScrapeStart(0, 1, host), ScrapePut(0, body)]
  {
    SnapshotMoves(s, host, body, hostOf);
    longer, moves, n := Further(ss, ms, hostOf, s, ScrapeStart(0, 1, host));
    longer, moves, n := Further(longer, moves, hostOf, n, ScrapePut(0, body));
  }

  /** And it does happen: a lapse-free run, for any url with a host and any page, text and snapshot, in which the page of
      the first url is fetched, stored and committed, and the snapshot of the first scrape target takes its place. */
  lemma SnapshotReplacesPage(u: string, page: string, text: string, body: string, hostOf: string -> string)
    returns (ss: seq<State>, ms: seq<Move>)
    requires hostOf(u) != ""
    ensures LapseFreeCrawl(ss, ms, hostOf)
    ensures ms == [SeedAll([u]), ClaimUrl(0, "w", 1, 300)] + [PutRaw(0, page), PutText(0, text)] + [Complete(0, 0)]
                  + [ScrapeStart(0, 1, hostOf(u)), ScrapePut(0, body)]
    ensures 1 in ss[7].db.docs && ss[7].db.docs[1].rawKey in ss[7].store
    ensures ss[7].store[ss[7].db.docs[1].rawKey] == body
  {
    var s: State;
    ss, ms, s := RunToClaim(u, hostOf);
    ss, ms, s := RunToText(ss, ms, s, hostOf(u), page, text, hostOf);
    ss, ms, s := RunToCommit(ss, ms, s, hostOf(u), page, text, hostOf);
    ss, ms, s := RunToSnapshot(ss, ms, s, hostOf(u), body, hostOf);
  }
}
