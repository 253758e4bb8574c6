/** The scraper: its queue of targets (the second half of crawler/frontier.py) and one handler of crawler/scrape_worker.py. */
module Scrape {
  import opened Base
  import opened LeaseQueue
  import opened Tables
  import Discovery
  import Known
  import ClaimQuery
  import Crawl
  import Frontier
  import HostSort
  import Visits
  import Worker

  datatype RenderMode = Auto | Always | Never

  datatype Spec = Spec(active: bool, mode: RenderMode, feedToCrawler: bool)

  datatype Target = Target(spec: nat, domain: nat, url: string)

  datatype Record = Record(spec: nat, data: string, rawKey: Option<Key>)

  datatype ScrapeTask = ScrapeTask(id: nat, url: string, host: string, spec: nat)

  predicate IsActive(specs: map<nat, Spec>, spec: nat) {
    spec in specs && specs[spec].active
  }

  /** What claim_scrape_targets reads of a row; it orders by due time alone. */
  function Items(targets: map<nat, Target>, leases: map<nat, Lease>, specs: map<nat, Spec>, now: Time)
    : map<nat, ClaimQuery.Item>
  {
    map id | id in targets && id in leases ::
      ClaimQuery.Item(targets[id].domain, Due(leases[id], now) && IsActive(specs, targets[id].spec), 0, leases[id].dueAt)
  }

  /** The domains that have a due target with an active spec. */
  function ActiveDomains(targets: map<nat, Target>, leases: map<nat, Lease>, specs: map<nat, Spec>, now: Time): set<nat> {
    set id | id in targets && id in leases && Due(leases[id], now) && IsActive(specs, targets[id].spec) ::
      targets[id].domain
  }

  class ScrapeFrontier {
    var targets: map<nat, Target>
    var leases: map<nat, Lease>
    var specs: map<nat, Spec>
    var records: map<nat, Record>
    /** domains.host. */
    var hosts: map<nat, string>

    /** The foreign keys of scrape_targets; the two column groups have the same rows. */
    predicate Valid()
      reads this
    {
      targets.Keys == leases.Keys && forall id | id in targets :: targets[id].domain in hosts
    }

    constructor (specs: map<nat, Spec>, hosts: map<nat, string>)
      ensures Valid() && targets == map[] && records == map[] && this.specs == specs && this.hosts == hosts
    {
      targets, leases, records := map[], map[], map[];
      this.specs, this.hosts := specs, hosts;
    }

    predicate IsTaskOf(task: ScrapeTask, id: nat)
      reads this
    {
      id in targets && targets[id].domain in hosts
      && task == ScrapeTask(id, targets[id].url, hosts[targets[id].domain], targets[id].spec)
    }

    method ClaimScrape(worker: string, batch: nat, seconds: int, now: Time, locked: set<nat>)
      returns (tasks: seq<ScrapeTask>, ghost picks: seq<nat>)
      requires Valid()
      modifies `leases
      ensures Valid()
      ensures ClaimQuery.Answer(old(Items(targets, leases, specs, now)), locked, batch, picks)
      ensures leases == Frontier.ClaimRows(old(leases), picks, worker, seconds, now) && leases.Keys == old(leases).Keys
      ensures forall id | id in picks ::
                var was := old(leases)[id];
                leases[id]
                == Lease(Leased, Some(worker), Some(now + seconds * SECOND), was.dueAt, was.attempts + 1, was.failures)
      ensures forall id | id in leases && id !in picks :: leases[id] == old(leases)[id]
      ensures |tasks| == |picks| && forall i | 0 <= i < |tasks| :: IsTaskOf(tasks[i], picks[i])
    {
      var selected := ClaimQuery.Select(Items(targets, leases, specs, now), locked, batch);
      picks := selected;
      leases := Frontier.ClaimRows(leases, selected, worker, seconds, now);
      tasks := TasksOf(selected);
    }

    method TasksOf(ids: seq<nat>) returns (tasks: seq<ScrapeTask>)
      requires Valid() && forall i | 0 <= i < |ids| :: ids[i] in targets
      ensures |tasks| == |ids| && forall i | 0 <= i < |tasks| :: IsTaskOf(tasks[i], ids[i])
    {
      tasks := [];
      for i := 0 to |ids|
        invariant |tasks| == i
        invariant forall j | 0 <= j < i :: IsTaskOf(tasks[j], ids[j])
      {
        var t := targets[ids[i]];
        tasks := tasks + [ScrapeTask(ids[i], t.url, hosts[t.domain], t.spec)];
      }
    }

    method SkipScrape(id: nat)
      modifies `leases
      ensures leases == if id in old(leases) then old(leases)[id := SetAside(old(leases)[id])] else old(leases)
    {
      if id in leases {
        leases := leases[id := SetAside(leases[id])];
      }
    }

    method RescheduleScrape(id: nat, now: Time)
      modifies `leases
      ensures leases == if id in old(leases) then old(leases)[id := Settled(old(leases)[id], now)] else old(leases)
    {
      if id in leases {
        leases := leases[id := Settled(leases[id], now)];
      }
    }

    method FailScrape(id: nat, maxFailures: int, now: Time)
      modifies `leases
      ensures leases == if id in old(leases) then old(leases)[id := FailedOnce(old(leases)[id], maxFailures, now)]
                        else old(leases)
    {
      if id in leases {
        leases := leases[id := FailedOnce(leases[id], maxFailures, now)];
      }
    }

    /** Without a row for the target the insert of the record violates its foreign key. */
    method CompleteScrape(task: ScrapeTask, data: string, rawKey: Option<Key>, now: Time) returns (ok: bool)
      modifies `leases, `records
      ensures ok <==> task.id in old(leases)
      ensures ok ==> leases == old(leases)[task.id := Settled(old(leases)[task.id], now)]
                     && records == old(records)[task.id := Record(task.spec, data, rawKey)]
      ensures !ok ==> leases == old(leases) && records == old(records)
    {
      ok := task.id in leases;
      if !ok {
        return;
      }
      leases := leases[task.id := Settled(leases[task.id], now)];
      records := records[task.id := Record(task.spec, data, rawKey)];
    }
  }

  // ---------------------------------------------------------------- the claim

  /** Only due targets of active specs are claimed, each the longest due of its domain among those nobody holds. */
  lemma ClaimedAreActive(targets: map<nat, Target>, leases: map<nat, Lease>, specs: map<nat, Spec>, now: Time,
                         locked: set<nat>, batch: nat, picks: seq<nat>, id: nat)
    requires targets.Keys == leases.Keys
    requires ClaimQuery.Answer(Items(targets, leases, specs, now), locked, batch, picks) && id in picks
    ensures id in targets && Due(leases[id], now) && IsActive(specs, targets[id].spec) && id !in locked
    ensures forall j | j in targets && targets[j].domain == targets[id].domain && j !in locked
                       && Due(leases[j], now) && IsActive(specs, targets[j].spec) :: leases[id].dueAt <= leases[j].dueAt
  {
    var items := Items(targets, leases, specs, now);
    assert ClaimQuery.Best(items, locked, id);
    forall j | j in targets && targets[j].domain == targets[id].domain && j !in locked
               && Due(leases[j], now) && IsActive(specs, targets[j].spec)
      ensures leases[id].dueAt <= leases[j].dueAt
    {
      assert ClaimQuery.Candidate(items, locked, items[id].domain, j);
    }
  }

  /** With no concurrent lock holders the claim fills its batch, as far as there are domains with such targets. */
  lemma ScrapeClaimIsFull(targets: map<nat, Target>, leases: map<nat, Lease>, specs: map<nat, Spec>, now: Time,
                          batch: nat, picks: seq<nat>)
    requires ClaimQuery.Answer(Items(targets, leases, specs, now), {}, batch, picks)
    ensures |picks| == Min(batch, |ActiveDomains(targets, leases, specs, now)|)
  {
    var items := Items(targets, leases, specs, now);
    ClaimQuery.ClaimIsFull(items, batch, picks);
    assert ClaimQuery.ReadyDomains(items) == ActiveDomains(targets, leases, specs, now) by {
      forall d | d in ClaimQuery.ReadyDomains(items) ensures d in ActiveDomains(targets, leases, specs, now) {
        var id :| id in items && items[id].ready && items[id].domain == d;
      }
      forall d | d in ActiveDomains(targets, leases, specs, now) ensures d in ClaimQuery.ReadyDomains(items) {
        var id :| id in targets && id in leases && Due(leases[id], now) && IsActive(specs, targets[id].spec)
                  && targets[id].domain == d;
        assert items[id].ready;
      }
    }
  }

  // ---------------------------------------------------------------- one handler

  datatype Extract = Extract(data: string, links: seq<Link>)

  /** The answers one visit gets; see Visits.Visit. */
  datatype Visit = Visit(
    policyRaises: bool, specRaises: bool, fetched: Visits.Answer<Visits.Fetched>,
    resolver: Option<Visits.Answer<Visits.Resolution>>, extract: Visits.Answer<Option<Extract>>, raw: Visits.PutFault,
    ending: Visits.CallFault, cuts: seq<nat>)

  /** Where a visit ends; `Raising` is an exception nobody catches, before any terminal call has had an effect. */
  datatype End = Raising | Skipping | Failing | Unchanged | Completing(body: string, extract: Extract)

  function Called(end: End, fault: Visits.CallFault): End {
    if fault.NothingDone? then Raising else end
  }

  /** The end of a visit whose spec allows it. */
  function EndOf(v: Visit): End {
    if v.fetched.Raised? then Raising
    else match Visits.Settlement(v.fetched.value, v.resolver)
         case Unhandled => Raising
         case GiveUp => Called(Failing, v.ending)
         case GoOn(r) =>
           if r.outcome == Visits.NotModified then Called(Unchanged, v.ending)
           else if r.outcome != Visits.Ok then Called(Failing, v.ending)
           else if v.extract.Raised? then Raising
           else if v.extract.value.None? then Called(Skipping, v.ending)
           else if r.body != "" && !v.raw.Fine? then Called(Failing, v.ending)
           else Called(Completing(r.body, v.extract.value.value), v.ending)
  }

  /** Something raises outside the blob store before a terminal call has had any effect. */
  predicate RaisesFirst(v: Visit, allowed: bool) {
    || v.policyRaises || v.specRaises || v.ending.NothingDone?
    || (allowed && (v.fetched.Raised? || FetchedRaises(v.fetched.value, v)))
  }

  predicate FetchedRaises(fetched: Visits.Fetched, v: Visit) {
    var course := Visits.Settlement(fetched, v.resolver);
    course.Unhandled? || (course.GoOn? && course.result.outcome == Visits.Ok && v.extract.Raised?)
  }

  lemma RaisingMeansRaisesFirst(v: Visit)
    requires !v.policyRaises && !v.specRaises
    ensures EndOf(v).Raising? <==> RaisesFirst(v, true)
  {
  }

  /** Which end each answer gets, when nothing raises first: unchanged when the page is judged not modified, skipped when it
      has no record, completed when it has and its body was stored or is empty, and failed in all other cases. */
  lemma EndByAnswer(v: Visit)
    requires !RaisesFirst(v, true)
    ensures !EndOf(v).Raising?
    ensures EndOf(v).Unchanged? <==>
            exists r :: Visits.JudgedBy(v.fetched, v.resolver, r) && r.outcome == Visits.NotModified
    ensures EndOf(v).Skipping? <==>
            exists r :: Visits.JudgedBy(v.fetched, v.resolver, r) && r.outcome == Visits.Ok
                        && v.extract == Visits.Returned(None)
    ensures EndOf(v).Completing? <==>
            exists r :: Visits.JudgedBy(v.fetched, v.resolver, r) && r.outcome == Visits.Ok && v.extract.value.Some?
                        && (r.body == "" || v.raw.Fine?)
    ensures EndOf(v).Completing? ==>
              && EndOf(v).extract == v.extract.value.value
              && exists r :: Visits.JudgedBy(v.fetched, v.resolver, r) && EndOf(v).body == r.body
  {
    var course := Visits.Settlement(v.fetched.value, v.resolver);
    if course.GoOn? {
      assert Visits.JudgedBy(v.fetched, v.resolver, course.result);
    } else {
      assert forall r :: !Visits.JudgedBy(v.fetched, v.resolver, r);
    }
  }

  predicate MayFetch(specs: map<nat, Spec>, spec: nat, renderer: bool) {
    IsActive(specs, spec) && (specs[spec].mode == Always ==> renderer)
  }

  function LeaseAfter(l: Lease, end: End, now: Time): Lease {
    match end
    case Raising => l
    case Skipping => SetAside(l)
    case Failing => FailedOnce(l, MAX_FAILURES, now)
    case Unchanged => Settled(l, now)
    case Completing(_, _) => Settled(l, now)
  }

  /** What feeding the links of a target does to the crawl tables: a row for the target, then its links at depth 0; or no
      links when add() is a deadlock victim three times. */
  ghost predicate FedBy(before: Db, after: Db, origin: string, page: seq<Link>, lost: bool, now: Time,
                        hostOf: string -> string)
  {
    Sound(after) &&
    if hostOf(origin) == "" then after == before
    else
      var fed := FeedOrigin(before, origin, now, hostOf);
      && Sound(fed) && origin in fed.urlIdx
      && if lost then HostSort.OnlySerialsMoved(fed, after)
         else var direct := AddLinks(fed, page, fed.urlIdx[origin], 0, now, hostOf).0;
              Sound(direct) && Discovery.SameContent(after, direct)
  }

  /** So when the links were not lost, every one that has a host is known to the crawler, and so is the target. */
  lemma FedIsKnown(before: Db, after: Db, origin: string, page: seq<Link>, lost: bool, now: Time,
                   hostOf: string -> string)
    requires Sound(before) && FedBy(before, after, origin, page, lost, now, hostOf)
    ensures hostOf(origin) != "" ==> origin in after.urlIdx
    ensures hostOf(origin) != "" && !lost ==>
              after.urlIdx.Keys == before.urlIdx.Keys + {origin} + Known.Targets(page, hostOf)
    ensures hostOf(origin) != "" && lost ==> after.urlIdx.Keys == before.urlIdx.Keys + {origin}
    ensures forall u | u in before.urlIdx :: u in after.urlIdx
  {
    if hostOf(origin) != "" {
      var fed := FeedOrigin(before, origin, now, hostOf);
      OriginIsKnown(before, origin, now, hostOf);
      if !lost {
        FedLinksAreKnown(fed, after, origin, page, now, hostOf);
      }
    }
  }

  lemma OriginIsKnown(db: Db, origin: string, now: Time, hostOf: string -> string)
    requires hostOf(origin) != ""
    ensures FeedOrigin(db, origin, now, hostOf).urlIdx.Keys == db.urlIdx.Keys + {origin}
  {
  }

  lemma FedLinksAreKnown(fed: Db, after: Db, origin: string, page: seq<Link>, now: Time, hostOf: string -> string)
    requires Sound(fed) && Sound(after) && origin in fed.urlIdx
    requires var direct := AddLinks(fed, page, fed.urlIdx[origin], 0, now, hostOf).0;
             Sound(direct) && Discovery.SameContent(after, direct)
    ensures after.urlIdx.Keys == fed.urlIdx.Keys + Known.Targets(page, hostOf)
  {
    assert Holds(fed, UrlKeys);
    Known.LinksBecomeKnown(fed, after, page, fed.urlIdx[origin], 0, now, hostOf);
  }

  /** The record of a completed visit: its data, and a blob for its body unless that is empty. */
  predicate Recorded(record: Record, task: ScrapeTask, end: End, blobs: map<Key, string>)
    requires end.Completing?
  {
    && record == Record(task.spec, end.extract.data, if end.body == "" then None else Some(RawKey(task.host, task.id)))
    && (record.rawKey.Some? ==> record.rawKey.value in blobs && blobs[record.rawKey.value] == end.body)
  }

  /** The blobs after the optional snapshot. */
  function BlobsWith(blobs: map<Key, string>, task: ScrapeTask, body: string): map<Key, string> {
    if body == "" then blobs else blobs[RawKey(task.host, task.id) := body]
  }

  class ScrapeWorker {
    const queue: ScrapeFrontier
    const crawl: Frontier.PostgresFrontier
    const store: Worker.BlobStore
    const renderer: bool

    constructor (queue: ScrapeFrontier, crawl: Frontier.PostgresFrontier, store: Worker.BlobStore, renderer: bool)
      ensures this.queue == queue && this.crawl == crawl && this.store == store && this.renderer == renderer
    {
      this.queue, this.crawl, this.store, this.renderer := queue, crawl, store, renderer;
    }

    method Feed(task: ScrapeTask, links: seq<Link>, cuts: seq<nat>, now: Time)
      requires Sound(crawl.Tables())
      modifies crawl
      ensures FedBy(old(crawl.Tables()), crawl.Tables(), task.url, links, |cuts| >= 3, now, crawl.hostOf)
    {
      var _ := crawl.FeedLinksToCrawler(task.url, links, now, cuts);
    }

    /** What a visit that ended so does to the crawl tables. */
    method Follow(task: ScrapeTask, end: End, v: Visit, wanted: bool, now: Time)
      requires Sound(crawl.Tables())
      modifies crawl
      ensures Sound(crawl.Tables())
      ensures if end.Completing? && wanted && end.extract.links != [] && v.ending.NoFault?
              then FedBy(old(crawl.Tables()), crawl.Tables(), task.url, end.extract.links, |v.cuts| >= 3, now, crawl.hostOf)
              else crawl.Tables() == old(crawl.Tables())
    {
      if end.Completing? && v.ending.NoFault? && wanted && end.extract.links != [] {
        Feed(task, end.extract.links, v.cuts, now);
      }
    }

    /** The terminal call that `end` stands for, unless it raises with nothing done. */
    method Call(task: ScrapeTask, end: End, fault: Visits.CallFault, now: Time) returns (reached: End)
      requires task.id in queue.leases && (end.Skipping? || end.Failing? || end.Unchanged?)
      modifies queue`leases
      ensures reached == Called(end, fault)
      ensures queue.leases == old(queue.leases)[task.id := LeaseAfter(old(queue.leases)[task.id], reached, now)]
    {
      if fault.NothingDone? {
        return Raising;
      }
      reached := end;
      match end
      case Skipping => queue.SkipScrape(task.id);
      case Failing => queue.FailScrape(task.id, MAX_FAILURES, now);
      case Unchanged => queue.RescheduleScrape(task.id, now);
    }

    /** A fetched page with content: its blob, unless it is empty, then the record. */
    method Keep(task: ScrapeTask, body: string, extract: Extract, raw: Visits.PutFault, fault: Visits.CallFault, now: Time)
      returns (end: End)
      requires task.id in queue.leases
      modifies queue`leases, queue`records, store
      ensures end == Called(if body != "" && !raw.Fine? then Failing else Completing(body, extract), fault)
      ensures queue.leases == old(queue.leases)[task.id := LeaseAfter(old(queue.leases)[task.id], end, now)]
      ensures !end.Completing? ==> queue.records == old(queue.records)
      ensures end.Completing? ==>
                && task.id in queue.records && Recorded(queue.records[task.id], task, end, store.blobs)
                && queue.records == old(queue.records)[task.id := queue.records[task.id]]
                && store.blobs == BlobsWith(old(store.blobs), task, end.body)
      ensures OnlyAt(old(store.blobs), store.blobs, RawKey(task.host, task.id))
    {
      var rawKey := None;
      if body != "" {
        var stored := store.Put(RawKey(task.host, task.id), body, raw);
        if !stored {
          end := Call(task, Failing, fault, now);
          return;
        }
        rawKey := Some(RawKey(task.host, task.id));
      }
      if fault.NothingDone? {
        return Raising;
      }
      var _ := queue.CompleteScrape(task, extract.data, rawKey, now);
      end := Completing(body, extract);
    }

    /** From the fetch to the end of the lease. */
    method Visited(task: ScrapeTask, v: Visit, now: Time) returns (end: End)
      requires task.id in queue.leases
      modifies queue`leases, queue`records, store
      ensures end == EndOf(v)
      ensures queue.leases == old(queue.leases)[task.id := LeaseAfter(old(queue.leases)[task.id], end, now)]
      ensures !end.Completing? ==> queue.records == old(queue.records)
      ensures end.Completing? ==>
                && task.id in queue.records && Recorded(queue.records[task.id], task, end, store.blobs)
                && queue.records == old(queue.records)[task.id := queue.records[task.id]]
                && store.blobs == BlobsWith(old(store.blobs), task, end.body)
      ensures OnlyAt(old(store.blobs), store.blobs, RawKey(task.host, task.id))
    {
      if v.fetched.Raised? {
        return Raising;
      }
      var result := v.fetched.value;
      if result.challenged && v.resolver.Some? {
        if v.resolver.value.Raised? {
          return Raising;
        } else if v.resolver.value.value.Resolved? {
          if v.resolver.value.value.replacement.Some? {
            result := v.resolver.value.value.replacement.value;
          }
        } else {
          end := Call(task, Failing, v.ending, now);
          return;
        }
      }
      if result.outcome == Visits.NotModified {
        end := Call(task, Unchanged, v.ending, now);
      } else if result.outcome != Visits.Ok {
        end := Call(task, Failing, v.ending, now);
      } else if v.extract.Raised? {
        end := Raising;
      } else if v.extract.value.None? {
        end := Call(task, Skipping, v.ending, now);
      } else {
        end := Keep(task, result.body, v.extract.value.value, v.raw, v.ending, now);
      }
    }

    /** _handle. A target whose spec is gone, switched off, or needs a renderer nobody has is skipped before anything is
        fetched. One call ends the lease if and only if nothing raises first, and otherwise the lease stays as it was; a
        record is written only by a completed visit, and any blob it names is in the store; the crawl tables move only when
        the spec feeds them. */
    method Handle(task: ScrapeTask, v: Visit, now: Time) returns (end: End)
      requires queue.Valid() && task.id in queue.targets && Sound(crawl.Tables())
      modifies queue`leases, queue`records, crawl, store
      ensures queue.Valid() && Sound(crawl.Tables())
      ensures end.Raising? <==> RaisesFirst(v, MayFetch(queue.specs, task.spec, renderer))
      ensures !end.Raising? ==> end == if MayFetch(queue.specs, task.spec, renderer) then EndOf(v) else Skipping
      ensures queue.leases == old(queue.leases)[task.id := LeaseAfter(old(queue.leases)[task.id], end, now)]
      ensures end.Raising? ==> queue.leases == old(queue.leases)
      ensures !end.Raising? ==> queue.leases[task.id].owner == None && queue.leases[task.id].expires == None
      ensures end.Skipping? ==> queue.leases[task.id].status == Skipped
      ensures end.Unchanged? || end.Completing? ==> queue.leases[task.id].status == Done && queue.leases[task.id].failures == 0
      ensures end.Failing? ==>
                && queue.leases[task.id].failures == old(queue.leases)[task.id].failures + 1
                && queue.leases[task.id].status == if queue.leases[task.id].failures >= 5 then Failed else Pending
      ensures MayFetch(queue.specs, task.spec, renderer) <==>
              && task.spec in queue.specs && queue.specs[task.spec].active
              && (queue.specs[task.spec].mode == Always ==> renderer)
      ensures !MayFetch(queue.specs, task.spec, renderer) ==> store.blobs == old(store.blobs)
      ensures !end.Completing? ==> queue.records == old(queue.records) && crawl.Tables() == old(crawl.Tables())
      ensures end.Completing? ==>
                && task.id in queue.records && Recorded(queue.records[task.id], task, end, store.blobs)
                && queue.records == old(queue.records)[task.id := queue.records[task.id]]
                && store.blobs == BlobsWith(old(store.blobs), task, end.body)
      ensures end.Completing? ==>
                if queue.specs[task.spec].feedToCrawler && end.extract.links != [] && v.ending.NoFault?
                then FedBy(old(crawl.Tables()), crawl.Tables(), task.url, end.extract.links, |v.cuts| >= 3, now,
                           crawl.hostOf)
                else crawl.Tables() == old(crawl.Tables())
      ensures OnlyAt(old(store.blobs), store.blobs, RawKey(task.host, task.id))
    {
      if v.policyRaises || v.specRaises {
        return Raising;
      }
      if task.spec !in queue.specs || !queue.specs[task.spec].active
         || (queue.specs[task.spec].mode == Always && !renderer) {
        end := Call(task, Skipping, v.ending, now);
        return;
      }
      RaisingMeansRaisesFirst(v);
      end := Visited(task, v, now);
      Follow(task, end, v, queue.specs[task.spec].feedToCrawler, now);
    }
  }

  /** At most the blob of this key differs. */
  predicate OnlyAt(before: map<Key, string>, after: map<Key, string>, key: Key) {
    after - {key} == before - {key}
  }

  // ---------------------------------------------------------------- as steps of the transition systems

  function QueueStep(h: nat, end: End): Step {
    match end
    case Raising => Die(h)
    case Skipping => Drop(h)
    case Failing => Error(h)
    case Unchanged => Finish(h)
    case Completing(_, _) => Finish(h)
  }

  /** Every end of a visit is a step of the lease queue, so its theorems are about this queue too. */
  lemma EndIsQueueStep(q: Queue, h: nat, end: End)
    requires h in q.holders && q.holders[h].id in q.rows && q.holders[h].id in q.past
    ensures Enabled(q, QueueStep(h, end))
    ensures Next(q, QueueStep(h, end)).rows
            == q.rows[q.holders[h].id := LeaseAfter(q.rows[q.holders[h].id], end, q.now)]
    ensures h !in Next(q, QueueStep(h, end)).holders
  {
  }

  function ScrapeMoves(k: nat, body: string): seq<Crawl.Move> {
    (if body == "" then [] else [Crawl.ScrapePut(k, body)]) + [Crawl.ScrapeCommit(k)]
  }

  /** What a completed visit leaves in the blob store, and the name its record keeps, are those of the crawl's moves for it:
      the optional snapshot, then the commit. */
  lemma CompletingIsScrapeMoves(c: Crawl.State, k: nat, task: ScrapeTask, body: string, hostOf: string -> string)
    requires Crawl.Matched(c) && k in c.scrapers && c.scrapers[k] == Crawl.ScrapeJob(task.id, task.host, None)
    ensures Visits.CanAll(c, ScrapeMoves(k, body), hostOf)
    ensures var n := Visits.DoAll(c, ScrapeMoves(k, body), hostOf);
            && n.db == c.db && n.store == BlobsWith(c.store, task, body)
            && n.records == c.records[task.id := if body == "" then None else Some(RawKey(task.host, task.id))]
  {
    assert Visits.Reached(c, [], c, hostOf);
    if body == "" {
      Visits.OneMove(c, [], c, Crawl.ScrapeCommit(k), hostOf);
      assert ScrapeMoves(k, body) == [] + [Crawl.ScrapeCommit(k)];
    } else {
      Visits.OneMove(c, [], c, Crawl.ScrapePut(k, body), hostOf);
      var d := Crawl.Do(c, Crawl.ScrapePut(k, body), hostOf);
      Visits.OneMove(c, [] + [Crawl.ScrapePut(k, body)], d, Crawl.ScrapeCommit(k), hostOf);
      assert ScrapeMoves(k, body) == [] + [Crawl.ScrapePut(k, body)] + [Crawl.ScrapeCommit(k)];
    }
  }
}
