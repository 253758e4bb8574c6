/** The hash a commit stores stays in its row, so what the duplicate lookup finds in a crawl is a matter of the hashes its
    pages were committed with. */
module CrawlHashes {
  import opened Base
  import opened LeaseQueue
  import LeaseSafety
  import opened Tables
  import opened Growth
  import opened Crawl
  import opened CrawlSafety
  import opened CrawlOnce
  import Bits
  import NearDuplicate

  /** Move k commits the url `id`. */
  predicate Commits(s: State, m: Move, id: nat)
    requires CanMove(s, m)
  {
    m.Complete? && s.jobs[m.h].id == id
  }

  /** Move k is the only commit of `id` among the first i, and the row has the hash it carried. */
  ghost predicate HashFrom(ss: seq<State>, ms: seq<Move>, hostOf: string -> string, i: nat, id: nat, k: nat)
    requires CrawlRun(ss, ms, hostOf) && i < |ss|
  {
    OnlyCommit(ss, ms, hostOf, i, id, k) && HasHash(ss[i].db, id, ms[k].simhash)
  }

  ghost predicate OnlyCommit(ss: seq<State>, ms: seq<Move>, hostOf: string -> string, i: nat, id: nat, k: nat)
    requires CrawlRun(ss, ms, hostOf) && i < |ss|
  {
    k < i && Commits(ss[k], ms[k], id) && forall j | 0 <= j < i && Commits(ss[j], ms[j], id) :: j == k
  }

  predicate HasHash(db: Db, id: nat, simhash: int) {
    id in db.urls && db.urls[id].simhash == Some(simhash)
  }

  ghost predicate NeverCommitted(ss: seq<State>, ms: seq<Move>, hostOf: string -> string, i: nat, id: nat)
    requires CrawlRun(ss, ms, hostOf) && i < |ss|
  {
    forall j | 0 <= j < i :: !Commits(ss[j], ms[j], id)
  }

  ghost predicate Hashed(ss: seq<State>, ms: seq<Move>, hostOf: string -> string, i: nat, id: nat)
    requires CrawlRun(ss, ms, hostOf) && i < |ss|
  {
    if id in ss[i].db.docs then exists k :: HashFrom(ss, ms, hostOf, i, id, k) else NeverCommitted(ss, ms, hostOf, i, id)
  }

  lemma CommitStoresHash(s: State, m: Move, hostOf: string -> string)
    requires Matched(s) && CanMove(s, m) && m.Complete?
    ensures var b, id := TablesAfter(s, m, hostOf), s.jobs[m.h].id;
            id in b.docs && id in b.urls && b.urls[id].simhash == Some(m.simhash)
  {
    assert JobOk(s, m.h);
  }

  lemma CommitHashed(ss: seq<State>, ms: seq<Move>, hostOf: string -> string, i: nat, n: nat, id: nat)
    requires CrawlRun(ss, ms, hostOf) && i < |ms| && n == i + 1 && Matched(ss[i]) && Commits(ss[i], ms[i], id)
    requires NeverCommitted(ss, ms, hostOf, i, id)
    ensures Hashed(ss, ms, hostOf, n, id)
  {
    assert ss[n].db == TablesAfter(ss[i], ms[i], hostOf);
    CommitStoresHash(ss[i], ms[i], hostOf);
    assert HashFrom(ss, ms, hostOf, n, id, i);
  }

  lemma OtherHashed(ss: seq<State>, ms: seq<Move>, hostOf: string -> string, i: nat, n: nat, id: nat, k: nat)
    requires CrawlRun(ss, ms, hostOf) && i < |ms| && n == i + 1 && !Commits(ss[i], ms[i], id)
    requires HashFrom(ss, ms, hostOf, i, id, k) && id in ss[n].db.docs && id in ss[n].db.urls
    requires ss[n].db.urls[id] == ss[i].db.urls[id]
    ensures Hashed(ss, ms, hostOf, n, id)
  {
    OnlyStays(ss, ms, hostOf, i, n, id, k);
    assert HashFrom(ss, ms, hostOf, n, id, k);
  }

  lemma OnlyStays(ss: seq<State>, ms: seq<Move>, hostOf: string -> string, i: nat, n: nat, id: nat, k: nat)
    requires CrawlRun(ss, ms, hostOf) && i < |ms| && n == i + 1 && !Commits(ss[i], ms[i], id)
    requires OnlyCommit(ss, ms, hostOf, i, id, k)
    ensures OnlyCommit(ss, ms, hostOf, n, id, k)
  {
  }

  lemma StillNever(ss: seq<State>, ms: seq<Move>, hostOf: string -> string, i: nat, n: nat, id: nat)
    requires CrawlRun(ss, ms, hostOf) && i < |ms| && n == i + 1 && !Commits(ss[i], ms[i], id)
    requires NeverCommitted(ss, ms, hostOf, i, id) && id !in ss[n].db.docs
    ensures Hashed(ss, ms, hostOf, n, id)
  {
  }

  lemma HashedNext(ss: seq<State>, ms: seq<Move>, hostOf: string -> string, i: nat, n: nat, id: nat)
    requires CrawlRun(ss, ms, hostOf) && i < |ms| && n == i + 1
    requires Matched(ss[i]) && LeaseSafety.Inv(QueueOf(ss[i])) && Once(ss[i]) && Hashed(ss, ms, hostOf, i, id)
    ensures Hashed(ss, ms, hostOf, n, id)
  {
    var s, m := ss[i], ms[i];
    if Commits(s, m, id) {
      CommitIsFirst(s, m);
      CommitHashed(ss, ms, hostOf, i, n, id);
    } else if id in s.db.docs {
      var k: nat :| HashFrom(ss, ms, hostOf, i, id, k);
      OtherRowsStay(s, m, hostOf, id);
      assert ss[n].db == TablesAfter(s, m, hostOf);
      OtherHashed(ss, ms, hostOf, i, n, id, k);
    } else {
      NoNewDoc(s, m, hostOf, id);
      StillNever(ss, ms, hostOf, i, n, id);
    }
  }

  lemma NoNewDoc(s: State, m: Move, hostOf: string -> string, id: nat)
    requires Matched(s) && MoveEnabled(s, m, hostOf) && !Commits(s, m, id) && id !in s.db.docs
    ensures id !in Do(s, m, hostOf).db.docs
  {
    if m.Complete? {
      DocsOfComplete(s, m, hostOf);
    } else {
      DocsAfter(s, m, hostOf);
    }
  }

  lemma {:induction false} RunIsHashed(ss: seq<State>, ms: seq<Move>, hostOf: string -> string, i: nat, id: nat)
    requires LapseFreeCrawl(ss, ms, hostOf) && i < |ss|
    ensures Hashed(ss, ms, hostOf, i, id)
  {
    if i > 0 {
      RunIsHashed(ss, ms, hostOf, i - 1, id);
      RunKeepsOnce(ss, ms, hostOf, i - 1);
      HashedNext(ss, ms, hostOf, i - 1, i, id);
    } else {
      assert ss[0].db.docs == map[];
    }
  }

  /** In lapse-free runs a url has a document exactly when some move committed it; that move is the only one, and the row
      has the hash it carried, at the time of the commit and ever after. */
  lemma DocumentsKeepTheirHash(ss: seq<State>, ms: seq<Move>, hostOf: string -> string, i: nat, id: nat)
    requires LapseFreeCrawl(ss, ms, hostOf) && i < |ss|
    ensures id in ss[i].db.docs <==> exists k | 0 <= k < i :: Commits(ss[k], ms[k], id)
    ensures id in ss[i].db.docs ==> exists k :: HashFrom(ss, ms, hostOf, i, id, k)
  {
    RunIsHashed(ss, ms, hostOf, i, id);
    if id in ss[i].db.docs {
      var k: nat :| HashFrom(ss, ms, hostOf, i, id, k);
      assert 0 <= k < i && Commits(ss[k], ms[k], id);
    }
  }

  /** What the lookup for one committed page says of another: it is near exactly when the hashes the two were committed with
      agree on their top byte and differ in at most d bits. */
  lemma CommittedTwins(ss: seq<State>, ms: seq<Move>, hostOf: string -> string, i: nat, a: nat, b: nat, j: nat, k: nat,
                       x: int, y: int, d: int)
    requires LapseFreeCrawl(ss, ms, hostOf) && i < |ss| && j < i && k < i && a != b
    requires Commits(ss[j], ms[j], a) && ms[j].simhash == NearDuplicate.ToSigned(x) && 0 <= x < Bits.TWO64
    requires Commits(ss[k], ms[k], b) && ms[k].simhash == NearDuplicate.ToSigned(y) && 0 <= y < Bits.TWO64
    ensures a in ss[i].db.urls && b in ss[i].db.urls
    ensures NearDuplicate.IsNear(ss[i].db.urls, ss[i].db.urls[a].simhash, a, b, d) <==>
            (forall bit: nat | 56 <= bit < 64 :: Bits.Bit(y, bit) == Bits.Bit(x, bit)) && Bits.Hamming(y, x) <= d
  {
    DocumentsKeepTheirHash(ss, ms, hostOf, i, a);
    DocumentsKeepTheirHash(ss, ms, hostOf, i, b);
    var p: nat :| HashFrom(ss, ms, hostOf, i, a, p);
    var q: nat :| HashFrom(ss, ms, hostOf, i, b, q);
    assert p == j && q == k;
    NearDuplicate.LookupMeansTopByteAndDistance(ss[i].db.urls, x, a, b, y, d);
  }
}
