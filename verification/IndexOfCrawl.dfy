/** The indexers beside a crawl: the writes that module IndexRuns leaves open are those of module Crawl. */
module IndexOfCrawl {
  import opened Base
  import opened LeaseQueue
  import LeaseSafety
  import opened Tables
  import opened Crawl
  import opened CrawlSafety
  import opened CrawlOnce
  import Indexer
  import IndexRuns

  /** What a move of the crawl is to the indexers. While the crawl stores a text or commits they see that; at any other of
      its moves, of which standing still is one, they may make a move of their own. */
  predicate Matching(s: State, m: Move, x: IndexRuns.Move)
    requires CanMove(s, m)
  {
    if m.PutText? then x == IndexRuns.PutText(s.jobs[m.h].id, m.text)
    else if m.Complete? then x == IndexRuns.Commit(s.jobs[m.h].id)
    else !x.PutText? && !x.Commit?
  }

  /** A crawl and its indexers, move by move. */
  ghost predicate Beside(ss: seq<State>, ms: seq<Move>, ws: seq<IndexRuns.World>, xs: seq<IndexRuns.Move>,
                         hostOf: string -> string)
  {
    && LapseFreeCrawl(ss, ms, hostOf) && IndexRuns.Run(ws, xs) && |xs| == |ms|
    && forall i | 0 <= i < |ms| :: Matching(ss[i], ms[i], xs[i])
  }

  // ---------------------------------------------------------------- both see the same documents

  ghost predicate DocAgrees(s: State, w: IndexRuns.World, id: nat) {
    id in s.db.docs && id in w.texts && s.db.docs[id].textKey in s.store && s.store[s.db.docs[id].textKey] == w.texts[id]
  }

  ghost predicate JobAgrees(w: IndexRuns.World, j: Job) {
    j.stage.Stored? ==> j.id in w.texts && w.texts[j.id] == j.stage.text
  }

  ghost predicate Agree(s: State, w: IndexRuns.World) {
    && w.docs.Keys == s.db.docs.Keys
    && (forall id | id in w.docs :: DocAgrees(s, w, id))
    && (forall h | h in s.jobs :: JobAgrees(w, s.jobs[h]))
  }

  lemma OtherTextsStay(w: IndexRuns.World, x: IndexRuns.Move, id: nat)
    requires IndexRuns.Enabled(w, x) && id in w.texts && !(x.PutText? && x.id == id)
    ensures id in IndexRuns.Next(w, x).texts && IndexRuns.Next(w, x).texts[id] == w.texts[id]
  {
  }

  lemma JobAgreesOn(s: State, m: Move, w: IndexRuns.World, x: IndexRuns.Move, h: nat)
    requires CanMove(s, m) && IndexRuns.Enabled(w, x) && Matching(s, m, x) && Separate(s.jobs, s.expanded)
    requires h in JobsAfter(s, m) && (h in s.jobs ==> JobAgrees(w, s.jobs[h]))
    ensures JobAgrees(IndexRuns.Next(w, x), JobsAfter(s, m)[h])
  {
    if !m.PutText? || h != m.h {
      OtherJobsStay(s, m, h);
      if JobsAfter(s, m)[h].stage.Stored? {
        OtherTextsStay(w, x, s.jobs[h].id);
      }
    }
  }

  lemma OtherJobsStay(s: State, m: Move, h: nat)
    requires CanMove(s, m) && h in JobsAfter(s, m) && (m.PutText? ==> h != m.h)
    ensures JobsAfter(s, m)[h].stage.Stored? ==> h in s.jobs && JobsAfter(s, m)[h] == s.jobs[h]
  {
  }

  lemma DocsOfNext(s: State, m: Move, w: IndexRuns.World, x: IndexRuns.Move, hostOf: string -> string)
    requires Matched(s) && MoveEnabled(s, m, hostOf) && IndexRuns.Enabled(w, x) && Matching(s, m, x)
    requires w.docs.Keys == s.db.docs.Keys
    ensures IndexRuns.Next(w, x).docs.Keys == Do(s, m, hostOf).db.docs.Keys
  {
    CommitAdds(w, x);
    if m.Complete? {
      CompleteAdds(s, m, hostOf);
    } else {
      DocsAfter(s, m, hostOf);
    }
  }

  lemma CommitAdds(w: IndexRuns.World, x: IndexRuns.Move)
    requires IndexRuns.Enabled(w, x)
    ensures IndexRuns.Next(w, x).docs.Keys == w.docs.Keys + if x.Commit? then {x.id} else {}
  {
  }

  lemma CompleteAdds(s: State, m: Move, hostOf: string -> string)
    requires Matched(s) && CanMove(s, m) && m.Complete?
    ensures TablesAfter(s, m, hostOf).docs.Keys == s.db.docs.Keys + {s.jobs[m.h].id}
  {
    assert JobOk(s, m.h);
  }

  /** The document of a commit names the text its job had stored. */
  lemma CommittedAgrees(s: State, m: Move, w: IndexRuns.World, x: IndexRuns.Move, hostOf: string -> string)
    requires Matched(s) && MoveEnabled(s, m, hostOf) && IndexRuns.Enabled(w, x) && Matching(s, m, x) && m.Complete?
    requires TextStored(s.store, s.jobs[m.h]) && JobAgrees(w, s.jobs[m.h])
    ensures DocAgrees(Do(s, m, hostOf), IndexRuns.Next(w, x), s.jobs[m.h].id)
  {
    CommitText(s, m, hostOf);
    DocumentOf(s, m, hostOf);
  }

  lemma DocumentOf(s: State, m: Move, hostOf: string -> string)
    requires Matched(s) && MoveEnabled(s, m, hostOf) && m.Complete?
    ensures var j, n := s.jobs[m.h], Do(s, m, hostOf);
            j.id in n.db.docs && n.db.docs[j.id].textKey == TextKey(j.host, j.id) && n.store == s.store
  {
  }

  lemma OldDocAgrees(s: State, m: Move, w: IndexRuns.World, x: IndexRuns.Move, hostOf: string -> string, id: nat)
    requires Matched(s) && MoveEnabled(s, m, hostOf) && LeaseSafety.Inv(QueueOf(s)) && Once(s) && Texts(s)
    requires IndexRuns.Enabled(w, x) && Matching(s, m, x) && DocAgrees(s, w, id)
    requires m.Complete? ==> s.jobs[m.h].id != id
    ensures DocAgrees(Do(s, m, hostOf), IndexRuns.Next(w, x), id)
  {
    assert TextOf(s.db, s.store, id);
    OldTextKept(s, m, hostOf, id);
    if m.PutText? {
      NoWriterOn(s, m, id);
    }
    OtherTextsStay(w, x, id);
    StillAgrees(s, w, Do(s, m, hostOf), IndexRuns.Next(w, x), id);
  }

  lemma StillAgrees(s: State, w: IndexRuns.World, n: State, v: IndexRuns.World, id: nat)
    requires DocAgrees(s, w, id) && id in n.db.docs && n.db.docs[id] == s.db.docs[id] && id in v.texts
    requires v.texts[id] == w.texts[id] && s.db.docs[id].textKey in n.store
    requires n.store[s.db.docs[id].textKey] == s.store[s.db.docs[id].textKey]
    ensures DocAgrees(n, v, id)
  {
  }

  lemma MoveKeepsAgreement(s: State, m: Move, w: IndexRuns.World, x: IndexRuns.Move, hostOf: string -> string)
    requires Matched(s) && MoveEnabled(s, m, hostOf) && LeaseSafety.Inv(QueueOf(s)) && Once(s) && Texts(s)
    requires IndexRuns.Enabled(w, x) && Matching(s, m, x) && Agree(s, w)
    ensures Agree(Do(s, m, hostOf), IndexRuns.Next(w, x))
  {
    var n, v := Do(s, m, hostOf), IndexRuns.Next(w, x);
    DocsOfNext(s, m, w, x, hostOf);
    assert n.jobs == JobsAfter(s, m);
    forall h | h in n.jobs ensures JobAgrees(v, n.jobs[h]) {
      JobAgreesOn(s, m, w, x, h);
    }
    if m.Complete? {
      DocsOfComplete(s, m, hostOf);
      CommittedAgrees(s, m, w, x, hostOf);
    } else {
      DocsAfter(s, m, hostOf);
    }
    forall id | id in v.docs ensures DocAgrees(n, v, id) {
      if !(m.Complete? && s.jobs[m.h].id == id) {
        assert DocAgrees(s, w, id);
        OldDocAgrees(s, m, w, x, hostOf, id);
      }
    }
  }

  lemma {:induction false} RunKeepsAgreement(ss: seq<State>, ms: seq<Move>, ws: seq<IndexRuns.World>,
                                             xs: seq<IndexRuns.Move>, hostOf: string -> string, i: nat)
    requires Beside(ss, ms, ws, xs, hostOf) && i < |ss|
    ensures Agree(ss[i], ws[i])
  {
    if i > 0 {
      RunKeepsAgreement(ss, ms, ws, xs, hostOf, i - 1);
      RunKeepsOnce(ss, ms, hostOf, i - 1);
      DocumentsKeepTheirText(ss, ms, hostOf, i - 1);
      MoveKeepsAgreement(ss[i - 1], ms[i - 1], ws[i - 1], xs[i - 1], hostOf);
    }
  }

  /** A lapse-free crawl writes the text of a document once. */
  lemma CrawlWritesOnce(ss: seq<State>, ms: seq<Move>, ws: seq<IndexRuns.World>, xs: seq<IndexRuns.Move>,
                        hostOf: string -> string)
    requires Beside(ss, ms, ws, xs, hostOf)
    ensures IndexRuns.WrittenOnce(ws, xs)
  {
    forall i | 0 <= i < |xs| && xs[i].PutText? ensures xs[i].id !in ws[i].docs {
      RunKeepsAgreement(ss, ms, ws, xs, hostOf, i);
      RunKeepsOnce(ss, ms, hostOf, i);
      assert Matching(ss[i], ms[i], xs[i]);
      if xs[i].id in ws[i].docs {
        NoWriterOn(ss[i], ms[i], xs[i].id);
      }
    }
  }

  /** Beside a lapse-free crawl, whatever the indexers do and wherever they stop, a document in state indexed is found
      under the beginning of the text blob its row names. */
  lemma IndexedUnderItsBlob(ss: seq<State>, ms: seq<Move>, ws: seq<IndexRuns.World>, xs: seq<IndexRuns.Move>,
                            hostOf: string -> string, i: nat, id: nat)
    requires Beside(ss, ms, ws, xs, hostOf) && i < |ss| && id in ws[i].docs && ws[i].docs[id] == Indexed
    ensures id in ss[i].db.docs && id in ws[i].entries && ss[i].db.docs[id].textKey in ss[i].store
    ensures ws[i].entries[id] == Indexer.Content(ss[i].store[ss[i].db.docs[id].textKey])
  {
    CrawlWritesOnce(ss, ms, ws, xs, hostOf);
    IndexRuns.IndexShowsTheText(ws, xs, i);
    RunKeepsAgreement(ss, ms, ws, xs, hostOf, i);
    assert DocAgrees(ss[i], ws[i], id);
  }
}
