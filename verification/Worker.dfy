/** crawler/worker.py: what one handler does with one task, as a method over the frontier and the blob store, and why that
    is a run of the transition system of module Crawl. */
module Worker {
  import opened Base
  import opened LeaseQueue
  import opened Tables
  import opened Discovery
  import opened Frontier
  import opened Visits
  import Crawl
  import CrawlSafety
  import HostSort
  import NearDuplicate
  import Outcomes

  // ---------------------------------------------------------------- the handler

  class BlobStore {
    var blobs: map<Key, string>

    constructor ()
      ensures blobs == map[]
    {
      blobs := map[];
    }

    method Put(key: Key, body: string, fault: PutFault) returns (ok: bool)
      modifies this
      ensures ok == fault.Fine?
      ensures blobs == if fault.Lost? then old(blobs) else old(blobs)[key := body]
    {
      ok := fault.Fine?;
      if !fault.Lost? {
        blobs := blobs[key := body];
      }
    }
  }

  /** A handler may end with any call its stage has. */
  lemma MayEnd(c: Crawl.State, h: nat, m: Crawl.Move, hostOf: string -> string)
    requires h in c.jobs && !c.jobs[h].stage.Committed? && Crawl.Ends(m) && m.h == h
    requires c.jobs[h].id in c.db.urls && c.jobs[h].id in c.db.leases
    requires h in c.holders && c.holders[h].id == c.jobs[h].id && c.jobs[h].id in c.past
    requires m.Unchanged? || m.SkipPage? ==> c.jobs[h].stage.Working?
    requires m.Complete? ==> c.jobs[h].stage.Stored?
    ensures Crawl.MoveEnabled(c, m, hostOf)
  {
  }

  lemma MayDie(c: Crawl.State, h: nat, hostOf: string -> string)
    requires h in c.jobs && !c.jobs[h].stage.Committed? && c.jobs[h].id in c.db.leases
    requires h in c.holders && c.holders[h].id == c.jobs[h].id && c.jobs[h].id in c.past
    ensures Crawl.MoveEnabled(c, Crawl.Crash(h), hostOf)
  {
  }

  lemma MayAdd(c: Crawl.State, h: nat, links: seq<Link>, hostOf: string -> string)
    requires Crawl.Matched(c) && h in c.jobs && c.jobs[h].stage.Committed? && c.jobs[h].depth < Crawl.MAX_DEPTH
    ensures Crawl.MoveEnabled(c, Crawl.AddFound(h, links), hostOf)
  {
    assert Holds(c.db, References);
  }

  /** The tables and blobs are those of the crawl in state c, up to the choice of ids. */
  ghost predicate Agree(db: Db, blobs: map<Key, string>, c: Crawl.State) {
    Sound(db) && Sound(c.db) && SameContent(db, c.db) && blobs == c.store
  }

  lemma SameAsItself(db: Db, blobs: map<Key, string>, c: Crawl.State)
    requires Crawl.Matched(c) && db == c.db && blobs == c.store
    ensures Agree(db, blobs, c)
  {
  }

  lemma AgreeAfterSerials(db: Db, moved: Db, blobs: map<Key, string>, c: Crawl.State)
    requires Crawl.Matched(c) && db == c.db && blobs == c.store && HostSort.OnlySerialsMoved(db, moved)
    ensures Agree(moved, blobs, c)
  {
    HostSort.SerialsAreNotContent(db, moved);
    forall u, v, h ensures SameAt(moved, db, u, v, h) {
      assert SameAt(db, moved, u, v, h);
    }
  }

  /** How a handler's last move leaves things. */
  ghost predicate Ended(db: Db, blobs: map<Key, string>, s: Crawl.State, ms: seq<Crawl.Move>, h: nat,
                        hostOf: string -> string)
  {
    CanAll(s, ms, hostOf) && Agree(db, blobs, DoAll(s, ms, hostOf)) && h !in DoAll(s, ms, hostOf).jobs
  }

  /** `after` is what adding the links in page order makes of `before`, up to the choice of ids. */
  ghost predicate Added(before: Db, after: Db, links: seq<Link>, from: nat, depth: nat, now: Time,
                        hostOf: string -> string)
  {
    var direct := AddLinks(before, links, from, depth, now, hostOf).0;
    Sound(after) && Sound(direct) && SameContent(after, direct)
  }

  lemma LinksAdded(s: Crawl.State, done: seq<Crawl.Move>, c: Crawl.State, h: nat, links: seq<Link>, db: Db,
                   hostOf: string -> string)
    requires Reached(s, done, c, hostOf) && h in c.jobs && c.jobs[h].stage.Committed? && c.jobs[h].depth < Crawl.MAX_DEPTH
    requires Added(c.db, db, links, c.jobs[h].id, c.jobs[h].depth + 1, c.now, hostOf)
    ensures Ended(db, c.store, s, done + [Crawl.AddFound(h, links)], h, hostOf)
  {
    MayAdd(c, h, links, hostOf);
    var t := Crawl.Do(c, Crawl.AddFound(h, links), hostOf);
    OneMove(s, done, c, Crawl.AddFound(h, links), hostOf);
    AfterAdd(c, h, links, AddLinks(c.db, links, c.jobs[h].id, c.jobs[h].depth + 1, c.now, hostOf).0, t, hostOf);
    ReachedEnds(s, done + [Crawl.AddFound(h, links)], t, h, db, hostOf);
  }

  lemma AfterAdd(c: Crawl.State, h: nat, links: seq<Link>, direct: Db, t: Crawl.State, hostOf: string -> string)
    requires Crawl.MoveEnabled(c, Crawl.AddFound(h, links), hostOf) && t == Crawl.Do(c, Crawl.AddFound(h, links), hostOf)
    requires direct == AddLinks(c.db, links, c.jobs[h].id, c.jobs[h].depth + 1, c.now, hostOf).0
    ensures t.db == direct && t.store == c.store && h !in t.jobs
  {
    assert t.db == Crawl.TablesAfter(c, Crawl.AddFound(h, links), hostOf);
    assert t.jobs == c.jobs - {h};
  }

  lemma ReachedEnds(s: Crawl.State, ms: seq<Crawl.Move>, t: Crawl.State, h: nat, db: Db, hostOf: string -> string)
    requires Reached(s, ms, t, hostOf) && h !in t.jobs && Sound(db) && Sound(t.db) && SameContent(db, t.db)
    ensures Ended(db, t.store, s, ms, h, hostOf)
  {
  }

  lemma NothingAdded(s: Crawl.State, done: seq<Crawl.Move>, c: Crawl.State, h: nat, db: Db, hostOf: string -> string)
    requires Reached(s, done, c, hostOf) && h in c.jobs && c.jobs[h].stage.Committed?
    requires HostSort.OnlySerialsMoved(c.db, db)
    ensures Ended(db, c.store, s, done + [Crawl.Leave(h)], h, hostOf)
  {
    OneMove(s, done, c, Crawl.Leave(h), hostOf);
    AgreeAfterSerials(c.db, db, c.store, Crawl.Do(c, Crawl.Leave(h), hostOf));
  }

  lemma AfterFail(c: Crawl.State, h: nat, m: Crawl.Move, hostOf: string -> string)
    requires Crawl.MoveEnabled(c, m, hostOf) && m.FailPage? && m.h == h
    ensures var j, t := c.jobs[h], Crawl.Do(c, m, hostOf);
            t.db == Crawl.FailPartly(c.db, j.host, j.id, c.now, m.counted) && t.store == c.store && h !in t.jobs
  {
    assert Crawl.Do(c, m, hostOf).jobs == c.jobs - {h};
  }

  lemma DatabaseStays(c: Crawl.State, h: nat)
    requires Crawl.Matched(c) && h in c.jobs
    ensures Sound(c.db) && c.jobs[h].id in c.db.urls
  {
    assert Crawl.JobOk(c, h);
  }

  ghost predicate Leaves(before: Db, after: Db, links: seq<Link>, from: nat, depth: nat, now: Time, ok: bool,
                         hostOf: string -> string)
  {
    if ok then Added(before, after, links, from, depth, now, hostOf) else HostSort.OnlySerialsMoved(before, after)
  }

  /** What a call of add() leaves behind, successful or not. */
  ghost predicate Tried(before: Db, after: Db, links: seq<Link>, from: nat, depth: nat, now: Time, ok: bool,
                        hostOf: string -> string)
  {
    forall which | which == ok :: Leaves(before, after, links, from, depth, now, which, hostOf)
  }

  lemma ExtensionEnds(s: Crawl.State, done: seq<Crawl.Move>, c: Crawl.State, h: nat, links: seq<Link>, ok: bool, db: Db,
                      hostOf: string -> string)
    requires Reached(s, done, c, hostOf) && h in c.jobs && c.jobs[h].stage.Committed? && c.jobs[h].depth < Crawl.MAX_DEPTH
    requires Tried(c.db, db, links, c.jobs[h].id, c.jobs[h].depth + 1, c.now, ok, hostOf)
    ensures Ended(db, c.store, s, done + [if ok then Crawl.AddFound(h, links) else Crawl.Leave(h)], h, hostOf)
  {
    assert Leaves(c.db, db, links, c.jobs[h].id, c.jobs[h].depth + 1, c.now, ok, hostOf);
    if ok {
      LinksAdded(s, done, c, h, links, db, hostOf);
    } else {
      NothingAdded(s, done, c, h, db, hostOf);
    }
  }

  lemma Regroup(done: seq<Crawl.Move>, m: Crawl.Move, rest: seq<Crawl.Move>)
    ensures done + [m] + rest == done + ([m] + rest)
  {
  }

  /** What a handler's moves come to in the tables. */
  lemma HandleLeaves(s: Crawl.State, h: nat, task: CrawlTask, v: Visit, db: Db, blobs: map<Key, string>,
                     hostOf: string -> string)
    requires AtStart(s, h, task) && Ended(db, blobs, s, Moves(h, task.depth, v), h, hostOf)
    ensures task.id in s.db.urls
    ensures Outcomes.Result(s.db, db, s.db.urls[task.id].url, task.id, task.host, task.depth, v, s.now, hostOf)
    ensures db.urlIdx.Keys == s.db.urlIdx.Keys + Outcomes.Followed(v, task.depth, hostOf)
    ensures Outcomes.Stored(v) ==>
              blobs == s.store[RawKey(task.host, task.id) := CourseOf(v).result.body]
                              [TextKey(task.host, task.id) := v.doc.value.value.text]
  {
    var c := DoAll(s, Moves(h, task.depth, v), hostOf);
    Outcomes.VisitLeaves(s, h, task, v, hostOf);
    var u := s.db.urls[task.id].url;
    Outcomes.ResultIsContent(s.db, c.db, db, u, task.id, task.host, task.depth, v, s.now, hostOf);
    assert Outcomes.Told(s.db, db, u, task.id, task.host, task.depth, v, s.now, hostOf, Outcomes.Known);
    if Outcomes.Stored(v) {
      Outcomes.VisitStores(s, h, task, v, hostOf);
    }
  }

  class CrawlWorker {
    const frontier: PostgresFrontier
    const store: BlobStore

    constructor (frontier: PostgresFrontier, store: BlobStore)
      ensures this.frontier == frontier && this.store == store
    {
      this.frontier, this.store := frontier, store;
    }

    /** The object and the crawl agree exactly. */
    ghost predicate Mirrors(c: Crawl.State, h: nat, task: CrawlTask, stage: Crawl.Stage, now: Time)
      reads frontier, store
    {
      Crawl.Matched(c) && frontier.Tables() == c.db && store.blobs == c.store && c.now == now
      && h in c.jobs && c.jobs[h] == Crawl.Job(task.id, task.host, task.depth, stage)
    }

    /** An exception nobody catches: the handler is gone, everything else stays. */
    ghost method Raise(task: CrawlTask, stage: Crawl.Stage, now: Time, s: Crawl.State, c: Crawl.State, h: nat,
                       done: seq<Crawl.Move>)
      requires !stage.Committed? && Mirrors(c, h, task, stage, now) && Reached(s, done, c, frontier.hostOf)
      ensures Ended(frontier.Tables(), store.blobs, s, done + [Crawl.Crash(h)], h, frontier.hostOf)
    {
      HolderKnown(c, h);
      MayDie(c, h, frontier.hostOf);
      OneMove(s, done, c, Crawl.Crash(h), frontier.hostOf);
      SameAsItself(frontier.Tables(), store.blobs, DoAll(s, done + [Crawl.Crash(h)], frontier.hostOf));
    }

    method Fail(task: CrawlTask, stage: Crawl.Stage, fault: CallFault, now: Time, ghost s: Crawl.State,
                ghost c: Crawl.State, ghost h: nat, ghost done: seq<Crawl.Move>)
      requires !stage.Committed? && Mirrors(c, h, task, stage, now) && Reached(s, done, c, frontier.hostOf)
      modifies frontier
      ensures Ended(frontier.Tables(), store.blobs, s, done + [FailMove(h, fault)], h, frontier.hostOf)
    {
      if fault.NothingDone? {
        Raise(task, stage, now, s, c, h, done);
        return;
      }
      ghost var m := FailMove(h, fault);
      HolderKnown(c, h);
      MayEnd(c, h, m, frontier.hostOf);
      OneMove(s, done, c, m, frontier.hostOf);
      FailOnCrawl(task, fault, now);
      AfterFail(c, h, m, frontier.hostOf);
      SameAsItself(frontier.Tables(), store.blobs, DoAll(s, done + [m], frontier.hostOf));
    }

    /** fail(), when its first statement takes effect. */
    method FailOnCrawl(task: CrawlTask, fault: CallFault, now: Time)
      requires task.id in frontier.leases && !fault.NothingDone?
      modifies frontier
      ensures frontier.Tables() == Crawl.FailPartly(old(frontier.Tables()), task.host, task.id, now, fault.NoFault?)
    {
      if fault.NoFault? {
        var _ := frontier.Fail(task.host, task.id, MAX_FAILURES, now);
      } else {
        var _ := frontier.FailRow(task.id, MAX_FAILURES, now);
      }
    }

    /** The first call of a handler is its last. */
    method FailAtOnce(task: CrawlTask, fault: CallFault, now: Time, ghost s: Crawl.State, ghost h: nat)
      requires Mirrors(s, h, task, Crawl.Working, now)
      modifies frontier
      ensures Ended(frontier.Tables(), store.blobs, s, [FailMove(h, fault)], h, frontier.hostOf)
    {
      Fail(task, Crawl.Working, fault, now, s, s, h, []);
      assert [] + [FailMove(h, fault)] == [FailMove(h, fault)];
    }

    ghost method RaiseAtOnce(task: CrawlTask, now: Time, s: Crawl.State, h: nat)
      requires Mirrors(s, h, task, Crawl.Working, now)
      ensures Ended(frontier.Tables(), store.blobs, s, [Crawl.Crash(h)], h, frontier.hostOf)
    {
      Raise(task, Crawl.Working, now, s, s, h, []);
      assert [] + [Crawl.Crash(h)] == [Crawl.Crash(h)];
    }

    method Reschedule(task: CrawlTask, now: Time, ghost s: Crawl.State, ghost h: nat)
      requires Mirrors(s, h, task, Crawl.Working, now)
      modifies frontier
      ensures Ended(frontier.Tables(), store.blobs, s, [Crawl.Unchanged(h)], h, frontier.hostOf)
    {
      HolderKnown(s, h);
      MayEnd(s, h, Crawl.Unchanged(h), frontier.hostOf);
      OneMove(s, [], s, Crawl.Unchanged(h), frontier.hostOf);
      assert [] + [Crawl.Unchanged(h)] == [Crawl.Unchanged(h)];
      frontier.Reschedule(task.id, now);
      SameAsItself(frontier.Tables(), store.blobs, DoAll(s, [Crawl.Unchanged(h)], frontier.hostOf));
    }

    method Skip(task: CrawlTask, now: Time, ghost s: Crawl.State, ghost h: nat)
      requires Mirrors(s, h, task, Crawl.Working, now)
      modifies frontier
      ensures Ended(frontier.Tables(), store.blobs, s, [Crawl.SkipPage(h)], h, frontier.hostOf)
    {
      HolderKnown(s, h);
      MayEnd(s, h, Crawl.SkipPage(h), frontier.hostOf);
      OneMove(s, [], s, Crawl.SkipPage(h), frontier.hostOf);
      assert [] + [Crawl.SkipPage(h)] == [Crawl.SkipPage(h)];
      frontier.Skip(task.id);
      SameAsItself(frontier.Tables(), store.blobs, DoAll(s, [Crawl.SkipPage(h)], frontier.hostOf));
    }

    method TryAdd(task: CrawlTask, links: seq<Link>, cuts: seq<nat>, now: Time, ghost before: Db) returns (ok: bool)
      requires before == frontier.Tables() && Sound(before) && task.id in before.urls
      modifies frontier
      ensures ok <==> |cuts| < 3
      ensures Tried(before, frontier.Tables(), links, task.id, task.depth + 1, now, ok, frontier.hostOf)
    {
      var inserted := frontier.Add(links, task.id, task.depth + 1, now, cuts);
      ok := inserted.Some?;
    }

    method Extend(task: CrawlTask, links: seq<Link>, cuts: seq<nat>, now: Time, ghost s: Crawl.State,
                  ghost c: Crawl.State, ghost h: nat, ghost done: seq<Crawl.Move>)
      requires Mirrors(c, h, task, Crawl.Committed, now) && Reached(s, done, c, frontier.hostOf)
      requires task.depth < Crawl.MAX_DEPTH
      modifies frontier
      ensures Ended(frontier.Tables(), store.blobs, s,
                    done + [if |cuts| < 3 then Crawl.AddFound(h, links) else Crawl.Leave(h)], h, frontier.hostOf)
    {
      DatabaseStays(c, h);
      var ok := TryAdd(task, links, cuts, now, c.db);
      ExtensionEnds(s, done, c, h, links, ok, frontier.Tables(), frontier.hostOf);
    }

    /** The links of a committed page, unless it is too deep, has none, or add() loses three times. */
    method Expand(task: CrawlTask, doc: Doc, cuts: seq<nat>, now: Time, ghost s: Crawl.State, ghost c: Crawl.State,
                  ghost h: nat, ghost done: seq<Crawl.Move>)
      requires Mirrors(c, h, task, Crawl.Committed, now) && Reached(s, done, c, frontier.hostOf)
      modifies frontier
      ensures Ended(frontier.Tables(), store.blobs, s, done + [LinkMove(h, task.depth, doc, cuts)], h, frontier.hostOf)
    {
      if task.depth < Crawl.MAX_DEPTH && doc.links != [] {
        Extend(task, doc.links, cuts, now, s, c, h, done);
      } else {
        NothingAdded(s, done, c, h, frontier.Tables(), frontier.hostOf);
      }
    }

    /** Both blobs, then the row that names them, then the links. */
    method Keep(task: CrawlTask, v: Visit, body: string, doc: Doc, now: Time, ghost s: Crawl.State, ghost h: nat)
      requires Mirrors(s, h, task, Crawl.Working, now) && Reached(s, [], s, frontier.hostOf)
      modifies frontier, store
      ensures Ended(frontier.Tables(), store.blobs, s, StoreMoves(h, task.depth, v, body, doc), h, frontier.hostOf)
    {
      var rawOk := store.Put(RawKey(task.host, task.id), body, v.raw);
      if v.raw.Lost? {
        FailAtOnce(task, v.ending, now, s, h);
        return;
      }
      ghost var done := [Crawl.PutRaw(h, body)];
      assert [] + done == done;
      OneMove(s, [], s, Crawl.PutRaw(h, body), frontier.hostOf);
      ghost var c := Crawl.Do(s, Crawl.PutRaw(h, body), frontier.hostOf);
      if !rawOk {
        Fail(task, Crawl.RawStored(body), v.ending, now, s, c, h, done);
      } else {
        KeepText(task, v, body, doc, now, s, c, h, done);
      }
    }

    method StoreText(task: CrawlTask, body: string, text: string, fault: PutFault, now: Time, ghost c: Crawl.State,
                     ghost h: nat) returns (ok: bool)
      requires Mirrors(c, h, task, Crawl.RawStored(body), now)
      modifies store
      ensures ok == fault.Fine?
      ensures fault.Lost? ==> Mirrors(c, h, task, Crawl.RawStored(body), now)
      ensures !fault.Lost? ==>
                Crawl.MoveEnabled(c, Crawl.PutText(h, text), frontier.hostOf)
                && Mirrors(Crawl.Do(c, Crawl.PutText(h, text), frontier.hostOf), h, task, Crawl.Stored(body, text), now)
    {
      ok := store.Put(TextKey(task.host, task.id), text, fault);
      if !fault.Lost? {
        CrawlSafety.MatchedKept(c, Crawl.PutText(h, text), frontier.hostOf);
      }
    }

    method KeepText(task: CrawlTask, v: Visit, body: string, doc: Doc, now: Time, ghost s: Crawl.State,
                    ghost c: Crawl.State, ghost h: nat, ghost done: seq<Crawl.Move>)
      requires Mirrors(c, h, task, Crawl.RawStored(body), now) && Reached(s, done, c, frontier.hostOf)
      modifies frontier, store
      ensures Ended(frontier.Tables(), store.blobs, s, done + TextMoves(h, task.depth, v, doc), h, frontier.hostOf)
    {
      var txtOk := StoreText(task, body, doc.text, v.txt, now, c, h);
      if v.txt.Lost? {
        Fail(task, Crawl.RawStored(body), v.ending, now, s, c, h, done);
        return;
      }
      ghost var m := Crawl.PutText(h, doc.text);
      OneMove(s, done, c, m, frontier.hostOf);
      ghost var d := Crawl.Do(c, m, frontier.hostOf);
      if !txtOk {
        Fail(task, Crawl.Stored(body, doc.text), v.ending, now, s, d, h, done + [m]);
        Regroup(done, m, [FailMove(h, v.ending)]);
      } else {
        Commit(task, v, body, doc, now, s, d, h, done + [m]);
        Regroup(done, m, CommitMoves(h, task.depth, v, doc));
      }
    }

    method CommitRow(task: CrawlTask, body: string, doc: Doc, now: Time, ghost c: Crawl.State, ghost h: nat)
      requires Mirrors(c, h, task, Crawl.Stored(body, doc.text), now)
      modifies frontier
      ensures var m := Crawl.Complete(h, NearDuplicate.ToSigned(doc.simhash));
              Crawl.MoveEnabled(c, m, frontier.hostOf)
              && Mirrors(Crawl.Do(c, m, frontier.hostOf), h, task, Crawl.Committed, now)
    {
      ghost var m := Crawl.Complete(h, NearDuplicate.ToSigned(doc.simhash));
      HolderKnown(c, h);
      MayEnd(c, h, m, frontier.hostOf);
      CrawlSafety.MatchedKept(c, m, frontier.hostOf);
      var _ := frontier.Complete(task.host, task.id, doc.simhash, doc.text, RawKey(task.host, task.id),
                                 TextKey(task.host, task.id), now);
    }

    method Commit(task: CrawlTask, v: Visit, body: string, doc: Doc, now: Time, ghost s: Crawl.State,
                  ghost c: Crawl.State, ghost h: nat, ghost done: seq<Crawl.Move>)
      requires Mirrors(c, h, task, Crawl.Stored(body, doc.text), now) && Reached(s, done, c, frontier.hostOf)
      modifies frontier
      ensures Ended(frontier.Tables(), store.blobs, s, done + CommitMoves(h, task.depth, v, doc), h, frontier.hostOf)
    {
      if v.ending.NothingDone? {
        Raise(task, Crawl.Stored(body, doc.text), now, s, c, h, done);
        return;
      }
      ghost var m := Crawl.Complete(h, NearDuplicate.ToSigned(doc.simhash));
      CommitRow(task, body, doc, now, c, h);
      OneMove(s, done, c, m, frontier.hostOf);
      AfterCommit(task, v, doc, now, s, Crawl.Do(c, m, frontier.hostOf), h, done + [m]);
      Regroup(done, m, [if v.ending.NoFault? then LinkMove(h, task.depth, doc, v.cuts) else Crawl.Leave(h)]);
    }

    /** complete() has committed; when it raised nevertheless, the links are lost. */
    method AfterCommit(task: CrawlTask, v: Visit, doc: Doc, now: Time, ghost s: Crawl.State, ghost c: Crawl.State,
                       ghost h: nat, ghost done: seq<Crawl.Move>)
      requires Mirrors(c, h, task, Crawl.Committed, now) && Reached(s, done, c, frontier.hostOf)
      modifies frontier
      ensures Ended(frontier.Tables(), store.blobs, s,
                    done + [if v.ending.NoFault? then LinkMove(h, task.depth, doc, v.cuts) else Crawl.Leave(h)], h,
                    frontier.hostOf)
    {
      if v.ending.NoFault? {
        Expand(task, doc, v.cuts, now, s, c, h, done);
      } else {
        NothingAdded(s, done, c, h, frontier.Tables(), frontier.hostOf);
      }
    }

    /** From the result to the end. */
    method Finish(task: CrawlTask, v: Visit, result: Fetched, now: Time, ghost s: Crawl.State, ghost h: nat)
      requires Mirrors(s, h, task, Crawl.Working, now) && CourseOf(v) == GoOn(result)
      modifies frontier, store
      ensures Ended(frontier.Tables(), store.blobs, s, Moves(h, task.depth, v), h, frontier.hostOf)
    {
      if result.outcome == NotModified {
        if v.ending.NothingDone? {
          RaiseAtOnce(task, now, s, h);
        } else {
          Reschedule(task, now, s, h);
        }
      } else if result.outcome != Ok {
        FailAtOnce(task, v.ending, now, s, h);
      } else if v.doc.Raised? {
        RaiseAtOnce(task, now, s, h);
      } else if v.doc.value.None? {
        if v.ending.NothingDone? {
          RaiseAtOnce(task, now, s, h);
        } else {
          Skip(task, now, s, h);
        }
      } else {
        Keep(task, v, result.body, v.doc.value.value, now, s, h);
      }
    }

    /** The fetched result, or what the challenge resolver makes of it. */
    method Resolve(v: Visit) returns (course: Course)
      requires v.fetched.Returned?
      ensures course == Settlement(v.fetched.value, v.resolver)
    {
      var result := v.fetched.value;
      if result.challenged && v.resolver.Some? {
        if v.resolver.value.Raised? {
          return Unhandled;
        } else if v.resolver.value.value.Resolved? {
          if v.resolver.value.value.replacement.Some? {
            result := v.resolver.value.value.replacement.value;
          }
        } else {
          return GiveUp;
        }
      }
      course := GoOn(result);
    }

    /** _handle. Whatever the outside world answers or raises, the tables and blobs end up as after the listed moves of the
        crawl, up to the choice of ids, and the handler is gone. In the tables: the row and the document of the url are as
        module Outcomes says for these answers; a page that is committed without a fault, is less than six links deep and
        has links makes every link with a host known, and no other visit makes any url known; a committed page has both its
        blobs. */
    method Handle(task: CrawlTask, v: Visit, now: Time, ghost s: Crawl.State, ghost h: nat)
      requires AtStart(s, h, task) && s.now == now && frontier.Tables() == s.db && store.blobs == s.store
      modifies frontier, store
      ensures Ended(frontier.Tables(), store.blobs, s, Moves(h, task.depth, v), h, frontier.hostOf)
      ensures task.id in old(frontier.urls)
      ensures Outcomes.Result(old(frontier.Tables()), frontier.Tables(), old(frontier.urls)[task.id].url, task.id, task.host,
                              task.depth, v, now, frontier.hostOf)
      ensures Follows(v, task.depth) ==>
                forall l | l in v.doc.value.value.links && frontier.hostOf(l.url) != "" :: l.url in frontier.urlIdx
      ensures !Follows(v, task.depth) ==> frontier.urlIdx.Keys == old(frontier.urlIdx).Keys
      ensures Outcomes.Stored(v) ==>
                store.blobs == old(store.blobs)[RawKey(task.host, task.id) := CourseOf(v).result.body]
                                               [TextKey(task.host, task.id) := v.doc.value.value.text]
    {
      var course := Unhandled;
      if !v.policyRaises && v.fetched.Returned? && !v.recordRaises {
        course := Resolve(v);
      }
      Settle(task, v, course, now, s, h);
      HandleLeaves(s, h, task, v, frontier.Tables(), store.blobs, frontier.hostOf);
    }

    method Settle(task: CrawlTask, v: Visit, course: Course, now: Time, ghost s: Crawl.State, ghost h: nat)
      requires Mirrors(s, h, task, Crawl.Working, now) && CourseOf(v) == course
      modifies frontier, store
      ensures Ended(frontier.Tables(), store.blobs, s, Moves(h, task.depth, v), h, frontier.hostOf)
    {
      match course
      case Unhandled => RaiseAtOnce(task, now, s, h);
      case GiveUp => FailAtOnce(task, v.ending, now, s, h);
      case GoOn(result) => Finish(task, v, result, now, s, h);
    }
  }
}
