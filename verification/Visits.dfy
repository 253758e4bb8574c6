/** crawler/worker.py: the courses one visit of a page can take, as moves of the crawl, and what they come to. */
module Visits {
  import opened Base
  import opened LeaseQueue
  import opened Tables
  import opened Discovery
  import Crawl
  import CrawlSafety
  import NearDuplicate
  import Growth
  import Frontier

  // ---------------------------------------------------------------- what the outside world answers

  datatype Outcome = Ok | NotModified | RobotsDenied | HttpError | NetworkError | NonHtml | TooLarge

  datatype Fetched = Fetched(outcome: Outcome, challenged: bool, body: string)

  datatype Resolution = Unresolved | Resolved(replacement: Option<Fetched>)

  datatype Doc = Doc(text: string, simhash: nat, links: seq<Link>)

  /** A call whose exceptions nobody catches: _handle ends there, run() logs the exception and goes on. */
  datatype Answer<+T> = Raised | Returned(value: T)

  /** A put may raise before or after the object is stored; its exceptions are caught. */
  datatype PutFault = Fine | Lost | StoredThenRaised

  /** A terminal call may raise with nothing committed, or after its first statement or its transaction was committed. */
  datatype CallFault = NoFault | NothingDone | DoneThenRaised

  /** The answers one visit of a page gets: whether resolving the policy or recording the attempt raises, what the fetcher
      answers, the challenge resolver if there is one, the extractor and the blob store, what becomes of the terminal call,
      and how often add() is chosen as a deadlock victim; any other exception of add() leaves what the third time does. */
  datatype Visit = Visit(
    policyRaises: bool, fetched: Answer<Fetched>, recordRaises: bool, resolver: Option<Answer<Resolution>>,
    doc: Answer<Option<Doc>>, raw: PutFault, txt: PutFault, ending: CallFault, cuts: seq<nat>)

  /** How far a visit gets before its page is looked at. */
  datatype Course = Unhandled | GiveUp | GoOn(result: Fetched)

  /** The result to go on with, the resolver's in place of the fetcher's if it has one; a challenge that stays unresolved
      is given up. */
  function Settlement(fetched: Fetched, resolver: Option<Answer<Resolution>>): Course {
    if fetched.challenged && resolver.Some?
    then match resolver.value
         case Raised => Unhandled
         case Returned(Unresolved) => GiveUp
         case Returned(Resolved(None)) => GoOn(fetched)
         case Returned(Resolved(Some(r))) => GoOn(r)
    else GoOn(fetched)
  }

  function CourseOf(v: Visit): Course {
    if v.policyRaises || v.fetched.Raised? || v.recordRaises then Unhandled else Settlement(v.fetched.value, v.resolver)
  }

  // ---------------------------------------------------------------- as moves of the crawl

  function FailMove(h: nat, fault: CallFault): Crawl.Move {
    if fault.NothingDone? then Crawl.Crash(h) else Crawl.FailPage(h, fault.NoFault?)
  }

  function LinkMove(h: nat, depth: nat, doc: Doc, cuts: seq<nat>): Crawl.Move {
    if depth < Crawl.MAX_DEPTH && doc.links != [] && |cuts| < 3 then Crawl.AddFound(h, doc.links) else Crawl.Leave(h)
  }

  function CommitMoves(h: nat, depth: nat, v: Visit, doc: Doc): seq<Crawl.Move> {
    if v.ending.NothingDone? then [Crawl.Crash(h)]
    else [Crawl.Complete(h, NearDuplicate.ToSigned(doc.simhash))]
         + [if v.ending.NoFault? then LinkMove(h, depth, doc, v.cuts) else Crawl.Leave(h)]
  }

  function TextMoves(h: nat, depth: nat, v: Visit, doc: Doc): seq<Crawl.Move> {
    if v.txt.Lost? then [FailMove(h, v.ending)]
    else [Crawl.PutText(h, doc.text)] + if v.txt.Fine? then CommitMoves(h, depth, v, doc) else [FailMove(h, v.ending)]
  }

  function StoreMoves(h: nat, depth: nat, v: Visit, body: string, doc: Doc): seq<Crawl.Move> {
    if v.raw.Lost? then [FailMove(h, v.ending)]
    else [Crawl.PutRaw(h, body)] + if v.raw.Fine? then TextMoves(h, depth, v, doc) else [FailMove(h, v.ending)]
  }

  /** The moves handler h makes, given the answers. An exception nobody catches is the end of a handler, as a crash is. */
  function Moves(h: nat, depth: nat, v: Visit): seq<Crawl.Move> {
    match CourseOf(v)
    case Unhandled => [Crawl.Crash(h)]
    case GiveUp => [FailMove(h, v.ending)]
    case GoOn(r) =>
      if r.outcome == NotModified then [if v.ending.NothingDone? then Crawl.Crash(h) else Crawl.Unchanged(h)]
      else if r.outcome != Ok then [FailMove(h, v.ending)]
      else match v.doc
           case Raised => [Crawl.Crash(h)]
           case Returned(None) => [if v.ending.NothingDone? then Crawl.Crash(h) else Crawl.SkipPage(h)]
           case Returned(Some(doc)) => StoreMoves(h, depth, v, r.body, doc)
  }

  // ---------------------------------------------------------------- runs of one handler

  /** `ms` can be made from s, one after the other. */
  ghost predicate CanAll(s: Crawl.State, ms: seq<Crawl.Move>, hostOf: string -> string)
    decreases |ms|, 0
  {
    ms == []
    || (CanAll(s, ms[..|ms| - 1], hostOf)
        && Crawl.MoveEnabled(DoAll(s, ms[..|ms| - 1], hostOf), ms[|ms| - 1], hostOf))
  }

  ghost function DoAll(s: Crawl.State, ms: seq<Crawl.Move>, hostOf: string -> string): Crawl.State
    requires CanAll(s, ms, hostOf)
    decreases |ms|, 1
  {
    if ms == [] then s else Crawl.Do(DoAll(s, ms[..|ms| - 1], hostOf), ms[|ms| - 1], hostOf)
  }

  /** A handler about to visit its page: the tables and blobs are those of the crawl, the job is at its start. */
  ghost predicate AtStart(s: Crawl.State, h: nat, task: Frontier.CrawlTask) {
    Crawl.Matched(s) && h in s.jobs && s.jobs[h] == Crawl.Job(task.id, task.host, task.depth, Crawl.Working)
  }

  /** Where a handler is in between: after `done` moves from s the crawl is in state c. */
  ghost predicate Reached(s: Crawl.State, done: seq<Crawl.Move>, c: Crawl.State, hostOf: string -> string) {
    CanAll(s, done, hostOf) && c == DoAll(s, done, hostOf) && Crawl.Matched(c)
  }

  lemma OneMove(s: Crawl.State, done: seq<Crawl.Move>, c: Crawl.State, m: Crawl.Move, hostOf: string -> string)
    requires Reached(s, done, c, hostOf) && Crawl.MoveEnabled(c, m, hostOf)
    ensures Reached(s, done + [m], Crawl.Do(c, m, hostOf), hostOf)
  {
    assert (done + [m])[..|done|] == done;
    CrawlSafety.MatchedKept(c, m, hostOf);
  }

  /** A job before its terminal call has a row and is in the queue. */
  lemma HolderKnown(c: Crawl.State, h: nat)
    requires Crawl.Matched(c) && h in c.jobs && !c.jobs[h].stage.Committed?
    ensures c.jobs[h].id in c.db.urls && c.jobs[h].id in c.db.leases
    ensures h in c.holders && c.holders[h].id == c.jobs[h].id && c.jobs[h].id in c.past
  {
    assert Crawl.JobOk(c, h) && Holds(c.db, References);
  }

  // ---------------------------------------------------------------- what every visit has in common

  /** Something raises outside the blob store before a terminal call has had any effect. */
  predicate RaisesFirst(v: Visit) {
    || CourseOf(v).Unhandled?
    || (CourseOf(v).GoOn? && CourseOf(v).result.outcome == Ok && v.doc.Raised?)
    || v.ending.NothingDone?
  }

  predicate Stores(m: Crawl.Move, h: nat) {
    (m.PutRaw? || m.PutText?) && m.h == h
  }

  /** When nothing raises first, exactly one call ends the lease: only blobs are written before it and only links after it, a
      commit comes after both blobs it names, and links are added only to a committed page above the depth limit. */
  lemma OneTerminalCall(h: nat, depth: nat, v: Visit) returns (k: nat)
    requires !RaisesFirst(v)
    ensures var ms := Moves(h, depth, v);
            && k < |ms| && Crawl.Ends(ms[k]) && ms[k].h == h
            && (forall i | 0 <= i < |ms| && i != k :: !Crawl.Ends(ms[i]))
            && (forall i | 0 <= i < k :: Stores(ms[i], h))
            && (ms[k].Complete? <==> |ms| == k + 2) && (!ms[k].Complete? <==> |ms| == k + 1)
            && (ms[k].Complete? ==> ms[k + 1].Leave? || (ms[k + 1].AddFound? && depth < Crawl.MAX_DEPTH))
            && (ms[k].Complete? ==> k == 2 && ms[0].PutRaw? && ms[1].PutText?)
  {
    var ms := Moves(h, depth, v);
    k := if |ms| == 4 then 2 else |ms| - 1;
  }

  /** Otherwise none does: the handler is gone, and all it may have done is write blobs. */
  lemma NoTerminalCall(h: nat, depth: nat, v: Visit)
    requires RaisesFirst(v)
    ensures var ms := Moves(h, depth, v);
            && ms != [] && ms[|ms| - 1] == Crawl.Crash(h) && forall i | 0 <= i < |ms| - 1 :: Stores(ms[i], h)
  {
  }

  /** A lease-ending call is made if and only if nothing raises first. */
  lemma EndsUnlessRaised(h: nat, depth: nat, v: Visit)
    ensures (exists m :: m in Moves(h, depth, v) && Crawl.Ends(m)) <==> !RaisesFirst(v)
  {
    var ms := Moves(h, depth, v);
    if RaisesFirst(v) {
      NoTerminalCall(h, depth, v);
    } else {
      var k := OneTerminalCall(h, depth, v);
      assert ms[k] in ms;
    }
  }

  /** The page is committed exactly when it was fetched, possibly by the resolver, has content, was stored, and nothing
      raised on the way. */
  lemma CommittedExactlyWhenStored(h: nat, depth: nat, v: Visit)
    ensures (exists m :: m in Moves(h, depth, v) && m.Complete?)
            <==> && CourseOf(v).GoOn? && CourseOf(v).result.outcome == Ok && v.doc.Returned? && v.doc.value.Some?
                 && v.raw.Fine? && v.txt.Fine? && !v.ending.NothingDone?
  {
    var ms := Moves(h, depth, v);
    if |ms| == 4 {
      assert ms[2] in ms;
    }
  }

  /** r is the result the page is judged by: the resolver's, if a challenge was met and resolved with one, and the
      fetcher's otherwise. */
  predicate JudgedBy(fetched: Answer<Fetched>, resolver: Option<Answer<Resolution>>, r: Fetched) {
    && fetched.Returned?
    && if fetched.value.challenged && resolver.Some?
       then resolver.value == Returned(Resolved(Some(r))) || (resolver.value == Returned(Resolved(None)) && fetched.value == r)
       else fetched.value == r
  }

  predicate Judged(v: Visit, r: Fetched) {
    JudgedBy(v.fetched, v.resolver, r)
  }

  lemma CourseIsJudged(v: Visit)
    ensures CourseOf(v).Unhandled? <==>
            v.policyRaises || v.recordRaises || v.fetched.Raised? || (v.fetched.value.challenged && v.resolver == Some(Raised))
    ensures CourseOf(v).GiveUp? <==>
            && !v.policyRaises && !v.recordRaises && v.fetched.Returned? && v.fetched.value.challenged
            && v.resolver == Some(Returned(Unresolved))
    ensures forall r :: CourseOf(v) == GoOn(r) <==> !v.policyRaises && !v.recordRaises && Judged(v, r)
  {
    forall r ensures CourseOf(v) == GoOn(r) <==> !v.policyRaises && !v.recordRaises && Judged(v, r) {
    }
  }

  /** Which terminal call each answer gets, when nothing raises first: the lease is settled unchanged when the page is judged
      not modified; the page is skipped when it has no content, committed when it has and both blobs were stored, and failed
      in all other cases, with the domain's counter unless that statement raised. */
  lemma EndByAnswer(h: nat, depth: nat, v: Visit) returns (m: Crawl.Move)
    requires !RaisesFirst(v)
    ensures m in Moves(h, depth, v) && Crawl.Ends(m) && m.h == h
    ensures forall n | n in Moves(h, depth, v) && Crawl.Ends(n) :: n == m
    ensures m.Unchanged? <==> exists r :: Judged(v, r) && r.outcome == NotModified
    ensures m.SkipPage? <==> exists r :: Judged(v, r) && r.outcome == Ok && v.doc == Returned(None)
    ensures m.Complete? <==>
            exists r :: Judged(v, r) && r.outcome == Ok && v.doc.value.Some? && v.raw.Fine? && v.txt.Fine?
    ensures m.Complete? ==> m.simhash == NearDuplicate.ToSigned(v.doc.value.value.simhash)
    ensures m.FailPage? ==> (m.counted <==> v.ending.NoFault?)
  {
    CourseIsJudged(v);
    var k := OneTerminalCall(h, depth, v);
    m := Moves(h, depth, v)[k];
    if CourseOf(v).GoOn? {
      assert Judged(v, CourseOf(v).result);
      EndOfResult(h, depth, v, CourseOf(v).result, m, k);
    } else {
      assert forall r :: !Judged(v, r);
    }
  }

  lemma EndOfResult(h: nat, depth: nat, v: Visit, r: Fetched, m: Crawl.Move, k: nat)
    requires !RaisesFirst(v) && CourseOf(v) == GoOn(r) && k < |Moves(h, depth, v)| && m == Moves(h, depth, v)[k]
    requires Crawl.Ends(m)
    ensures m.Unchanged? <==> r.outcome == NotModified
    ensures m.SkipPage? <==> r.outcome == Ok && v.doc == Returned(None)
    ensures m.Complete? <==> r.outcome == Ok && v.doc.value.Some? && v.raw.Fine? && v.txt.Fine?
    ensures m.Complete? ==> m.simhash == NearDuplicate.ToSigned(v.doc.value.value.simhash)
    ensures m.FailPage? ==> (m.counted <==> v.ending.NoFault?)
  {
  }

  /** The page is committed and its links are added. */
  predicate Follows(v: Visit, depth: nat) {
    && CourseOf(v).GoOn? && CourseOf(v).result.outcome == Ok && v.doc.Returned? && v.doc.value.Some?
    && v.raw.Fine? && v.txt.Fine? && v.ending.NoFault?
    && depth < 6 && v.doc.value.value.links != [] && |v.cuts| < 3
  }

  /** Links are added if and only if the page was committed without a fault, is less than six links deep and has any, and
      add() is not a deadlock victim three times; then they are the links of the page, in page order. */
  lemma LinksAddedExactly(h: nat, depth: nat, v: Visit)
    ensures (exists m :: m in Moves(h, depth, v) && m.AddFound?) <==> Follows(v, depth)
    ensures forall m | m in Moves(h, depth, v) && m.AddFound? :: m == Crawl.AddFound(h, v.doc.value.value.links)
  {
    var ms := Moves(h, depth, v);
    if |ms| == 4 {
      assert ms[3] in ms;
    }
  }

  predicate SameJob(j: Crawl.Job, k: Crawl.Job) {
    j.id == k.id && j.host == k.host && j.depth == k.depth
  }

  /** Storing blobs moves neither the tables nor the job to another row. */
  lemma {:induction false} StoringStays(s: Crawl.State, h: nat, ms: seq<Crawl.Move>, hostOf: string -> string)
    requires Crawl.Matched(s) && h in s.jobs && CanAll(s, ms, hostOf)
    requires forall i | 0 <= i < |ms| :: Stores(ms[i], h)
    ensures Reached(s, ms, DoAll(s, ms, hostOf), hostOf)
    ensures h in DoAll(s, ms, hostOf).jobs && SameJob(DoAll(s, ms, hostOf).jobs[h], s.jobs[h])
    ensures DoAll(s, ms, hostOf).db == s.db && DoAll(s, ms, hostOf).now == s.now
    decreases |ms|
  {
    if ms != [] {
      var c := DoAll(s, ms[..|ms| - 1], hostOf);
      StoringStays(s, h, ms[..|ms| - 1], hostOf);
      PutStays(c, h, ms[|ms| - 1], hostOf);
      CrawlSafety.MatchedKept(c, ms[|ms| - 1], hostOf);
    }
  }

  lemma PutStays(c: Crawl.State, h: nat, m: Crawl.Move, hostOf: string -> string)
    requires Crawl.MoveEnabled(c, m, hostOf) && Stores(m, h)
    ensures var n := Crawl.Do(c, m, hostOf); n.db == c.db && n.now == c.now && h in n.jobs && SameJob(n.jobs[h], c.jobs[h])
  {
  }

  ghost predicate LeaseOver(db: Db, id: nat) {
    id in db.leases && db.leases[id].status != Leased && db.leases[id].owner == None && db.leases[id].expires == None
  }

  lemma TerminalCallEndsLease(c: Crawl.State, m: Crawl.Move, hostOf: string -> string)
    requires Crawl.Matched(c) && Crawl.MoveEnabled(c, m, hostOf) && Crawl.Ends(m)
    ensures LeaseOver(Crawl.Do(c, m, hostOf).db, c.jobs[m.h].id)
  {
    HolderKnown(c, m.h);
    Crawl.LeasesFollow(c, m, hostOf);
    StepEndsLease(Crawl.QueueOf(c), Crawl.LeaseStep(c, m, hostOf), c.jobs[m.h].id);
  }

  lemma StepEndsLease(q: Queue, step: Step, id: nat)
    requires Enabled(q, step) && (step.Finish? || step.Drop? || step.Error?) && q.holders[step.h].id == id
    ensures var l := Next(q, step).rows; id in l && l[id].status != Leased && l[id].owner == None && l[id].expires == None
  {
  }

  lemma LinksKeepLeases(c: Crawl.State, m: Crawl.Move, id: nat, hostOf: string -> string)
    requires Crawl.Matched(c) && Crawl.MoveEnabled(c, m, hostOf) && LeaseOver(c.db, id) && (m.AddFound? || m.Leave?)
    ensures LeaseOver(Crawl.TablesAfter(c, m, hostOf), id)
  {
    if m.AddFound? {
      Crawl.MoveGrows(c, m, hostOf);
      GrowthKeepsLease(c.db, Crawl.TablesAfter(c, m, hostOf), Crawl.BirthDepth(c, m), c.now, hostOf, id);
    }
  }

  lemma GrowthKeepsLease(a: Db, b: Db, depth: nat, now: Time, hostOf: string -> string, id: nat)
    requires Sound(a) && Sound(b) && Growth.Grows(a, b, depth, now, hostOf) && LeaseOver(a, id)
    ensures LeaseOver(b, id)
  {
    assert Holds(a, References);
    Growth.LeasesGrowByInsertion(a, b, depth, now, hostOf);
  }

  /** The part of a visit up to its terminal call. */
  lemma EndsAt(s: Crawl.State, h: nat, ms: seq<Crawl.Move>, k: nat, hostOf: string -> string)
    requires Crawl.Matched(s) && h in s.jobs && CanAll(s, ms, hostOf) && |ms| == k + 1
    requires forall i | 0 <= i < k :: Stores(ms[i], h)
    requires Crawl.Ends(ms[k]) && ms[k].h == h
    ensures Reached(s, ms, DoAll(s, ms, hostOf), hostOf) && LeaseOver(DoAll(s, ms, hostOf).db, s.jobs[h].id)
  {
    StoringStays(s, h, ms[..k], hostOf);
    TerminalCallEndsLease(DoAll(s, ms[..k], hostOf), ms[k], hostOf);
    CrawlSafety.MatchedKept(DoAll(s, ms[..k], hostOf), ms[k], hostOf);
  }

  /** A visit in which nothing raises first releases its row. */
  lemma VisitEndsLease(s: Crawl.State, h: nat, task: Frontier.CrawlTask, v: Visit, hostOf: string -> string)
    requires AtStart(s, h, task) && CanAll(s, Moves(h, task.depth, v), hostOf) && !RaisesFirst(v)
    ensures LeaseOver(DoAll(s, Moves(h, task.depth, v), hostOf).db, task.id)
  {
    var ms := Moves(h, task.depth, v);
    var k := OneTerminalCall(h, task.depth, v);
    if k + 1 == |ms| {
      EndsAt(s, h, ms, k, hostOf);
    } else {
      var front := ms[..|ms| - 1];
      EndsAt(s, h, front, k, hostOf);
      LinksKeepLeases(DoAll(s, front, hostOf), ms[|ms| - 1], task.id, hostOf);
    }
  }

  /** Otherwise no table changes: the row keeps its owner, its expiry and its failures, so it neither backs off nor
      retires, and becomes claimable again only when the reaper returns it. */
  lemma RaisingKeepsLease(s: Crawl.State, h: nat, task: Frontier.CrawlTask, v: Visit, hostOf: string -> string)
    requires AtStart(s, h, task) && CanAll(s, Moves(h, task.depth, v), hostOf) && RaisesFirst(v)
    ensures DoAll(s, Moves(h, task.depth, v), hostOf).db == s.db
  {
    NoTerminalCall(h, task.depth, v);
    CrashAfterStoring(s, h, Moves(h, task.depth, v), hostOf);
  }

  lemma CrashAfterStoring(s: Crawl.State, h: nat, ms: seq<Crawl.Move>, hostOf: string -> string)
    requires Crawl.Matched(s) && h in s.jobs && CanAll(s, ms, hostOf)
    requires ms != [] && ms[|ms| - 1] == Crawl.Crash(h) && forall i | 0 <= i < |ms| - 1 :: Stores(ms[i], h)
    ensures DoAll(s, ms, hostOf).db == s.db
  {
    StoringStays(s, h, ms[..|ms| - 1], hostOf);
    CrashStays(DoAll(s, ms[..|ms| - 1], hostOf), h, hostOf);
  }

  lemma CrashStays(c: Crawl.State, h: nat, hostOf: string -> string)
    requires Crawl.MoveEnabled(c, Crawl.Crash(h), hostOf)
    ensures Crawl.Do(c, Crawl.Crash(h), hostOf).db == c.db
  {
  }
}
