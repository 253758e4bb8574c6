/** The asynchronous indexer: crawler/index.py over the queries of crawler/db.py. */
module Indexer {
  import opened Base
  import opened Tables
  import NearDuplicate

  const BATCH := 200
  const DUPLICATE_DISTANCE := 3
  const CONTENT_LIMIT := 50_000

  function Pending(docs: map<nat, DocRow>): set<nat> {
    set id | id in docs && docs[id].state == Queued
  }

  datatype Row = Row(id: nat, textKey: Key, simhash: Option<int>)

  function RowOf(urls: map<nat, UrlRow>, docs: map<nat, DocRow>, id: nat): Row
    requires id in urls && id in docs
  {
    Row(id, docs[id].textKey, urls[id].simhash)
  }

  predicate NoRepeats(rows: seq<Row>) {
    forall i, j | 0 <= i < j < |rows| :: rows[i].id != rows[j].id
  }

  function Ids(rows: seq<Row>): set<nat> {
    set i | 0 <= i < |rows| :: rows[i].id
  }

  ghost predicate PendingRows(urls: map<nat, UrlRow>, docs: map<nat, DocRow>, rows: seq<Row>) {
    docs.Keys <= urls.Keys
    && forall i | 0 <= i < |rows| :: rows[i].id in Pending(docs) && rows[i] == RowOf(urls, docs, rows[i].id)
  }

  /** The time of row i. */
  function TimeOf(docs: map<nat, DocRow>, rows: seq<Row>, i: nat): int {
    if i < |rows| && rows[i].id in docs then docs[rows[i].id].updatedAt else 0
  }

  ghost predicate OldestFirst(docs: map<nat, DocRow>, rows: seq<Row>) {
    forall i, j | 0 <= i < j < |rows| :: TimeOf(docs, rows, i) <= TimeOf(docs, rows, j)
  }

  ghost predicate NoneOlder(docs: map<nat, DocRow>, rows: seq<Row>, rest: set<nat>) {
    forall i, id | 0 <= i < |rows| && id in rest && id in docs :: TimeOf(docs, rows, i) <= docs[id].updatedAt
  }

  /** ORDER BY updated_at LIMIT batch over the pending documents: as many as there are up to the limit, oldest first,
      and none left out that is older than one taken. */
  ghost predicate IsBatch(urls: map<nat, UrlRow>, docs: map<nat, DocRow>, rows: seq<Row>, batch: nat) {
    && PendingRows(urls, docs, rows) && NoRepeats(rows) && |rows| == Min(batch, |Pending(docs)|)
    && OldestFirst(docs, rows) && NoneOlder(docs, rows, Pending(docs) - Ids(rows))
  }

  /** A non-empty set of documents has an oldest one. */
  lemma {:induction false} SomeOldest(docs: map<nat, DocRow>, ids: set<nat>) returns (oldest: nat)
    requires ids != {} && ids <= docs.Keys
    ensures oldest in ids && forall id | id in ids :: docs[oldest].updatedAt <= docs[id].updatedAt
    decreases |ids|
  {
    oldest :| oldest in ids;
    if ids != {oldest} {
      var other := SomeOldest(docs, ids - {oldest});
      if docs[other].updatedAt < docs[oldest].updatedAt {
        oldest := other;
      }
    }
  }

  predicate IsOldest(docs: map<nat, DocRow>, ids: set<nat>, id: nat)
    requires ids <= docs.Keys
  {
    id in ids && forall other | other in ids :: docs[id].updatedAt <= docs[other].updatedAt
  }

  lemma IdsSnoc(rows: seq<Row>, row: Row)
    ensures Ids(rows + [row]) == Ids(rows) + {row.id}
  {
    forall id | id in Ids(rows) + {row.id} ensures id in Ids(rows + [row]) {
      if id == row.id {
        assert (rows + [row])[|rows|].id == id;
      } else {
        var i :| 0 <= i < |rows| && rows[i].id == id;
        assert (rows + [row])[i].id == id;
      }
    }
  }

  /** Taking the oldest of the rest next. */
  lemma TakeOldest(urls: map<nat, UrlRow>, docs: map<nat, DocRow>, rows: seq<Row>, rest: set<nat>, id: nat)
    requires PendingRows(urls, docs, rows) && NoRepeats(rows) && OldestFirst(docs, rows) && NoneOlder(docs, rows, rest)
    requires rest == Pending(docs) - Ids(rows) && IsOldest(docs, rest, id)
    ensures var more := rows + [RowOf(urls, docs, id)];
            && PendingRows(urls, docs, more) && NoRepeats(more) && Ids(more) == Ids(rows) + {id}
            && OldestFirst(docs, more) && NoneOlder(docs, more, rest - {id})
  {
    var row := RowOf(urls, docs, id);
    IdsSnoc(rows, row);
    TakeKeepsOrder(docs, rows, rest, row);
    forall i | 0 <= i < |rows| ensures rows[i].id != id {
      assert rows[i].id in Ids(rows);
    }
  }

  lemma TakeKeepsOrder(docs: map<nat, DocRow>, rows: seq<Row>, rest: set<nat>, row: Row)
    requires OldestFirst(docs, rows) && NoneOlder(docs, rows, rest)
    requires rest <= docs.Keys && IsOldest(docs, rest, row.id)
    ensures OldestFirst(docs, rows + [row]) && NoneOlder(docs, rows + [row], rest - {row.id})
  {
    var more := rows + [row];
    forall i | 0 <= i < |rows| ensures TimeOf(docs, more, i) == TimeOf(docs, rows, i) {
    }
    assert TimeOf(docs, more, |rows|) == docs[row.id].updatedAt;
  }

  // ---------------------------------------------------------------- what the marks do

  function MarkedIndexed(docs: map<nat, DocRow>, ids: set<nat>): map<nat, DocRow> {
    map id | id in docs :: if id in ids then docs[id].(state := Indexed) else docs[id]
  }

  function MarkedFailed(docs: map<nat, DocRow>, ids: set<nat>): map<nat, DocRow> {
    map id | id in docs :: if id in ids then docs[id].(state := IndexFailed) else docs[id]
  }

  function MarkedDuplicates(docs: map<nat, DocRow>, pairs: map<nat, nat>): map<nat, DocRow> {
    map id | id in docs ::
      if id in pairs then docs[id].(state := Suppressed, duplicateOf := Some(pairs[id])) else docs[id]
  }

  class IndexerDB {
    var urls: map<nat, UrlRow>
    var docs: map<nat, DocRow>

    /** documents.url_id references urls(id). */
    predicate Valid()
      reads this
    {
      docs.Keys <= urls.Keys
    }

    constructor (urls: map<nat, UrlRow>, docs: map<nat, DocRow>)
      requires docs.Keys <= urls.Keys
      ensures Valid() && this.urls == urls && this.docs == docs
    {
      this.urls, this.docs := urls, docs;
    }

    method FetchPendingDocuments(batch: nat) returns (rows: seq<Row>)
      requires Valid()
      ensures IsBatch(urls, docs, rows, batch)
    {
      rows := [];
      var rest := Pending(docs);
      while rest != {} && |rows| < batch
        invariant rest == Pending(docs) - Ids(rows) && |rest| + |rows| == |Pending(docs)| && |rows| <= batch
        invariant PendingRows(urls, docs, rows) && NoRepeats(rows)
        invariant OldestFirst(docs, rows) && NoneOlder(docs, rows, rest)
        decreases |rest|
      {
        ghost var oldest := SomeOldest(docs, rest);
        assert IsOldest(docs, rest, oldest);
        var id :| id in rest && IsOldest(docs, rest, id);
        TakeOldest(urls, docs, rows, rest, id);
        rows := rows + [RowOf(urls, docs, id)];
        rest := rest - {id};
      }
    }

    method MarkIndexed(ids: set<nat>)
      modifies this`docs
      ensures docs == MarkedIndexed(old(docs), ids)
    {
      docs := map id | id in docs :: if id in ids then docs[id].(state := Indexed) else docs[id];
    }

    method MarkIndexFailed(ids: set<nat>)
      modifies this`docs
      ensures docs == MarkedFailed(old(docs), ids)
    {
      docs := map id | id in docs :: if id in ids then docs[id].(state := IndexFailed) else docs[id];
    }

    /** One statement for each pair. */
    method MarkDuplicates(pairs: map<nat, nat>)
      modifies this`docs
      ensures docs == MarkedDuplicates(old(docs), pairs)
    {
      var todo := pairs.Keys;
      while todo != {}
        invariant todo <= pairs.Keys && docs == MarkedDuplicates(old(docs), pairs - todo)
        decreases |todo|
      {
        var id :| id in todo;
        if id in docs {
          docs := docs[id := docs[id].(state := Suppressed, duplicateOf := Some(pairs[id]))];
        }
        todo := todo - {id};
      }
      assert pairs - {} == pairs;
    }

    /** The order in which a sequential scan happens to read the rows of urls. */
    method ScanOrder() returns (scan: seq<nat>)
      ensures forall id :: id in scan <==> id in urls
      ensures forall i, j | 0 <= i < j < |scan| :: scan[i] != scan[j]
    {
      scan := [];
      var rest := urls.Keys;
      while rest != {}
        invariant rest <= urls.Keys && forall id :: id in scan <==> id in urls.Keys - rest
        invariant forall i, j | 0 <= i < j < |scan| :: scan[i] != scan[j]
        decreases |rest|
      {
        var id :| id in rest;
        scan, rest := scan + [id], rest - {id};
      }
    }

    method FindNearDuplicate(simhash: Option<int>, self: nat, maxDistance: int) returns (found: Option<nat>)
      ensures IsLookup(urls, simhash, self, maxDistance, found)
    {
      var scan := ScanOrder();
      found := NearDuplicate.FindNearDuplicate(urls, scan, simhash, self, maxDistance);
    }
  }

  /** What a lookup may answer: a near duplicate, or none; none for sure only while the bucket fits the query's limit. */
  ghost predicate IsLookup(urls: map<nat, UrlRow>, simhash: Option<int>, self: nat, maxDistance: int,
                           found: Option<nat>)
  {
    && (found.Some? ==> NearDuplicate.IsNear(urls, simhash, self, found.value, maxDistance))
    && (|NearDuplicate.Bucket(urls, simhash, self)| <= NearDuplicate.CANDIDATE_LIMIT && found.None? ==>
          forall id | id in urls :: !NearDuplicate.IsNear(urls, simhash, self, id, maxDistance))
  }

  // ---------------------------------------------------------------- one batch

  /** A call of add_documents may raise before or after the engine has taken the documents. */
  datatype AddFault = NoFault | Refused | TakenThenRaised

  /** What goes wrong during a batch: blobs that cannot be read, and calls that raise. */
  datatype Faults = Faults(unreadable: set<Key>, add: AddFault, markDuplicates: bool, markIndexed: bool)

  predicate Readable(row: Row, blobs: map<Key, string>, unreadable: set<Key>) {
    row.textKey in blobs && row.textKey !in unreadable
  }

  /** No call of the batch raises. */
  predicate Calm(faults: Faults) {
    faults.add.NoFault? && !faults.markDuplicates && !faults.markIndexed
  }

  function Content(text: string): string {
    if |text| <= CONTENT_LIMIT then text else text[..CONTENT_LIMIT]
  }

  class SearchIndex {
    var entries: map<nat, string>

    constructor ()
      ensures entries == map[]
    {
      entries := map[];
    }

    method AddDocuments(payload: map<nat, string>, fault: AddFault) returns (ok: bool)
      modifies this
      ensures ok == fault.NoFault?
      ensures entries == if fault.Refused? then old(entries) else old(entries) + payload
    {
      if !fault.Refused? {
        entries := entries + payload;
      }
      ok := fault.NoFault?;
    }
  }

  /** The row is in exactly one of the two lists, for the reason the lookup gave. */
  ghost predicate Placed(urls: map<nat, UrlRow>, blobs: map<Key, string>, row: Row,
                         payload: map<nat, string>, suppressed: map<nat, nat>)
  {
    if row.id in suppressed
    then row.id !in payload && NearDuplicate.IsNear(urls, row.simhash, row.id, suppressed[row.id], DUPLICATE_DISTANCE)
    else && row.id in payload && row.textKey in blobs && payload[row.id] == Content(blobs[row.textKey])
         && IsLookup(urls, row.simhash, row.id, DUPLICATE_DISTANCE, None)
  }

  ghost predicate Split(urls: map<nat, UrlRow>, blobs: map<Key, string>, rows: seq<Row>,
                        payload: map<nat, string>, suppressed: map<nat, nat>)
  {
    && payload.Keys + suppressed.Keys == Ids(rows)
    && forall i | 0 <= i < |rows| :: Placed(urls, blobs, rows[i], payload, suppressed)
  }

  lemma SplitSnoc(urls: map<nat, UrlRow>, blobs: map<Key, string>, rows: seq<Row>, row: Row,
                  payload: map<nat, string>, suppressed: map<nat, nat>, p: map<nat, string>, s: map<nat, nat>)
    requires Split(urls, blobs, rows, payload, suppressed) && NoRepeats(rows + [row])
    requires p.Keys + s.Keys == payload.Keys + suppressed.Keys + {row.id}
    requires p - {row.id} == payload && s - {row.id} == suppressed && Placed(urls, blobs, row, p, s)
    ensures Split(urls, blobs, rows + [row], p, s)
  {
    var more := rows + [row];
    IdsSnoc(rows, row);
    forall i | 0 <= i < |more| ensures Placed(urls, blobs, more[i], p, s) {
      if i < |rows| {
        assert more[i].id != more[|rows|].id;
        assert Placed(urls, blobs, rows[i], payload, suppressed);
        assert more[i].id in p <==> more[i].id in payload;
        assert more[i].id in s <==> more[i].id in suppressed;
      }
    }
  }

  class Indexer {
    const db: IndexerDB
    const search: SearchIndex

    constructor (db: IndexerDB, search: SearchIndex)
      ensures this.db == db && this.search == search
    {
      this.db, this.search := db, search;
    }

    /** One turn of the loop of _process. */
    method SortRow(row: Row, blobs: map<Key, string>, unreadable: set<Key>, payload: map<nat, string>,
                   suppressed: map<nat, nat>, ghost seen: seq<Row>)
      returns (ok: bool, p: map<nat, string>, s: map<nat, nat>)
      requires Split(db.urls, blobs, seen, payload, suppressed) && NoRepeats(seen + [row])
      ensures ok ==> Split(db.urls, blobs, seen + [row], p, s)
      ensures !ok ==> p == payload && s == suppressed && !Readable(row, blobs, unreadable)
    {
      NotSeen(seen, row);
      p, s := payload, suppressed;
      var near := db.FindNearDuplicate(row.simhash, row.id, DUPLICATE_DISTANCE);
      if near.Some? {
        s := s[row.id := near.value];
      } else if row.textKey !in blobs || row.textKey in unreadable {
        return false, p, s;
      } else {
        p := p[row.id := Content(blobs[row.textKey])];
      }
      assert p - {row.id} == payload && s - {row.id} == suppressed;
      SplitSnoc(db.urls, blobs, seen, row, payload, suppressed, p, s);
      ok := true;
    }

    /** The loop of _process over the rows; `ok` is false when a blob cannot be read. */
    method Sort(rows: seq<Row>, blobs: map<Key, string>, unreadable: set<Key>)
      returns (ok: bool, payload: map<nat, string>, suppressed: map<nat, nat>)
      requires NoRepeats(rows)
      ensures ok ==> Split(db.urls, blobs, rows, payload, suppressed)
      ensures !ok ==> exists i | 0 <= i < |rows| :: !Readable(rows[i], blobs, unreadable)
      ensures payload.Keys <= Ids(rows)
    {
      payload, suppressed := map[], map[];
      for i := 0 to |rows|
        invariant Split(db.urls, blobs, rows[..i], payload, suppressed)
      {
        assert rows[..i + 1] == rows[..i] + [rows[i]];
        ok, payload, suppressed := SortRow(rows[i], blobs, unreadable, payload, suppressed, rows[..i]);
        if !ok {
          PrefixIds(rows, i);
          return;
        }
      }
      assert rows[..|rows|] == rows;
      ok := true;
    }

    /** _process. When it raises, some of its effects may have happened. */
    method Process(rows: seq<Row>, blobs: map<Key, string>, faults: Faults)
      returns (ok: bool, ghost payload: map<nat, string>, ghost suppressed: map<nat, nat>)
      requires NoRepeats(rows)
      modifies db`docs, search
      ensures ok ==> Split(db.urls, blobs, rows, payload, suppressed)
                     && db.docs == MarkedIndexed(MarkedDuplicates(old(db.docs), suppressed), payload.Keys)
                     && search.entries == old(search.entries) + payload
      ensures ok ==> (payload != map[] ==> faults.add.NoFault? && !faults.markIndexed)
                     && (suppressed != map[] ==> !faults.markDuplicates)
      ensures !ok ==> !Calm(faults) || exists i | 0 <= i < |rows| :: !Readable(rows[i], blobs, faults.unreadable)
      ensures !ok ==> (db.docs == old(db.docs)
                       || (suppressed.Keys <= Ids(rows) && db.docs == MarkedDuplicates(old(db.docs), suppressed)))
                      && payload.Keys <= Ids(rows)
                      && (search.entries == old(search.entries) || search.entries == old(search.entries) + payload)
    {
      var good, p, s := Sort(rows, blobs, faults.unreadable);
      payload, suppressed := p, s;
      if !good {
        return false, payload, suppressed;
      }
      if p != map[] {
        var added := search.AddDocuments(p, faults.add);
        if !added {
          return false, payload, suppressed;
        }
      } else {
        assert search.entries + p == search.entries;
      }
      if s != map[] {
        if faults.markDuplicates {
          return false, payload, suppressed;
        }
        db.MarkDuplicates(s);
      } else {
        assert MarkedDuplicates(db.docs, s) == db.docs;
      }
      if p != map[] {
        if faults.markIndexed {
          return false, payload, suppressed;
        }
        db.MarkIndexed(p.Keys);
      } else {
        assert MarkedIndexed(db.docs, p.Keys) == db.docs;
      }
      ok := true;
    }

    /** One turn of the loop of run(). Exactly the batch leaves pending, each document of it in exactly one way. */
    method Turn(blobs: map<Key, string>, faults: Faults) returns (rows: seq<Row>, ok: bool)
      requires db.Valid()
      modifies db`docs, search
      ensures db.Valid() && IsBatch(db.urls, old(db.docs), rows, BATCH)
      ensures Pending(db.docs) == Pending(old(db.docs)) - Ids(rows)
      ensures db.docs.Keys == old(db.docs).Keys
      ensures forall id | id in db.docs && id !in Ids(rows) :: db.docs[id] == old(db.docs)[id]
      ensures forall i | 0 <= i < |rows| :: rows[i].id in db.docs &&
                Settled(db.urls, blobs, rows[i], db.docs[rows[i].id], search.entries, ok)
      ensures forall id | id in old(search.entries) && id !in Ids(rows) ::
                id in search.entries && search.entries[id] == old(search.entries)[id]
      ensures Searchable(old(db.docs), old(search.entries)) ==> Searchable(db.docs, search.entries)
      ensures !ok ==> !Calm(faults) || exists i | 0 <= i < |rows| :: !Readable(rows[i], blobs, faults.unreadable)
    {
      rows := db.FetchPendingDocuments(BATCH);
      ghost var before := db.docs;
      ghost var payload: map<nat, string>, suppressed: map<nat, nat>;
      ok, payload, suppressed := Process(rows, blobs, faults);
      if !ok {
        db.MarkIndexFailed(set i | 0 <= i < |rows| :: rows[i].id);
        AllFailed(before, rows, suppressed, db.docs);
      } else {
        AllPlaced(db.urls, blobs, before, rows, payload, suppressed, db.docs, search.entries, old(search.entries));
      }
    }

    /** A turn as the loop around it sees it. */
    method NextTurn(blobs: map<Key, string>, faults: Faults) returns (rows: seq<Row>, ok: bool)
      requires db.Valid()
      modifies db`docs, search
      ensures db.Valid() && |rows| == Min(BATCH, |Pending(old(db.docs))|)
      ensures |Pending(db.docs)| == |Pending(old(db.docs))| - |rows| && Pending(db.docs) <= Pending(old(db.docs))
      ensures db.docs.Keys == old(db.docs).Keys
      ensures forall id | id in db.docs && id !in Pending(old(db.docs)) :: db.docs[id] == old(db.docs)[id]
      ensures Searchable(old(db.docs), old(search.entries)) ==> Searchable(db.docs, search.entries)
      ensures Undisturbed(faults) && AllThere(old(db.docs), blobs) ==>
                AllThere(db.docs, blobs) && Resolved(db.docs, Pending(old(db.docs)) - Pending(db.docs))
    {
      rows, ok := Turn(blobs, faults);
      BatchSize(db.urls, old(db.docs), rows);
      if Undisturbed(faults) && AllThere(old(db.docs), blobs) {
        TurnResolves(db.urls, blobs, faults, old(db.docs), rows, db.docs, search.entries, ok);
      }
    }

    /** run() until its first empty fetch, whatever goes wrong on the way: a backlog of n takes ceil(n / 200) turns. When
        nothing goes wrong every document of it ends indexed or suppressed. */
    method Drain(blobs: map<Key, string>, faults: nat -> Faults) returns (turns: nat)
      requires db.Valid()
      modifies db`docs, search
      ensures turns == (|Pending(old(db.docs))| + BATCH - 1) / BATCH
      ensures Pending(db.docs) == {} && db.docs.Keys == old(db.docs).Keys
      ensures forall id | id in db.docs && id !in Pending(old(db.docs)) :: db.docs[id] == old(db.docs)[id]
      ensures Searchable(old(db.docs), old(search.entries)) ==> Searchable(db.docs, search.entries)
      ensures AllUndisturbed(faults) && AllThere(old(db.docs), blobs) ==> Resolved(db.docs, Pending(old(db.docs)))
    {
      ghost var n := |Pending(db.docs)|;
      turns := 0;
      var rows, ok := NextTurn(blobs, faults(0));
      ghost var left := n;
      while rows != []
        invariant db.Valid() && left == Left(n, turns) && (turns > 0 ==> Left(n, turns - 1) > 0)
        invariant |rows| == Min(BATCH, left) && |Pending(db.docs)| == left - |rows|
        invariant Pending(db.docs) <= Pending(old(db.docs)) && db.docs.Keys == old(db.docs).Keys
        invariant forall id | id in db.docs && id !in Pending(old(db.docs)) :: db.docs[id] == old(db.docs)[id]
        invariant Searchable(old(db.docs), old(search.entries)) ==> Searchable(db.docs, search.entries)
        invariant AllUndisturbed(faults) && AllThere(old(db.docs), blobs) ==>
                    AllThere(db.docs, blobs) && Resolved(db.docs, Pending(old(db.docs)) - Pending(db.docs))
        decreases left
      {
        turns := turns + 1;
        left := |Pending(db.docs)|;
        ghost var before := db.docs;
        rows, ok := NextTurn(blobs, faults(turns));
        if AllUndisturbed(faults) && AllThere(old(db.docs), blobs) {
          StillResolved(before, db.docs, Pending(old(db.docs)));
        }
      }
      TurnsNeeded(n, turns);
      assert Pending(old(db.docs)) - Pending(db.docs) == Pending(old(db.docs));
    }
  }

  // ---------------------------------------------------------------- when nothing goes wrong

  predicate Undisturbed(faults: Faults) {
    Calm(faults) && faults.unreadable == {}
  }

  ghost predicate AllUndisturbed(faults: nat -> Faults) {
    forall n :: Undisturbed(faults(n))
  }

  /** The text blob of every pending document is there. */
  predicate AllThere(docs: map<nat, DocRow>, blobs: map<Key, string>) {
    forall id | id in docs && docs[id].state == Queued :: docs[id].textKey in blobs
  }

  predicate Resolved(docs: map<nat, DocRow>, ids: set<nat>) {
    forall id | id in ids :: id in docs && (docs[id].state == Indexed || docs[id].state == Suppressed)
  }

  lemma StillResolved(before: map<nat, DocRow>, after: map<nat, DocRow>, all: set<nat>)
    requires Resolved(before, all - Pending(before)) && Resolved(after, Pending(before) - Pending(after))
    requires after.Keys == before.Keys && forall id | id in after && id !in Pending(before) :: after[id] == before[id]
    ensures Resolved(after, all - Pending(after))
  {
  }

  lemma TurnResolves(urls: map<nat, UrlRow>, blobs: map<Key, string>, faults: Faults, before: map<nat, DocRow>,
                     rows: seq<Row>, after: map<nat, DocRow>, entries: map<nat, string>, ok: bool)
    requires IsBatch(urls, before, rows, BATCH) && Undisturbed(faults) && AllThere(before, blobs)
    requires !ok ==> !Calm(faults) || exists i | 0 <= i < |rows| :: !Readable(rows[i], blobs, faults.unreadable)
    requires Pending(after) == Pending(before) - Ids(rows) && after.Keys == before.Keys
    requires forall id | id in after && id !in Ids(rows) :: after[id] == before[id]
    requires forall i | 0 <= i < |rows| ::
               rows[i].id in after && Settled(urls, blobs, rows[i], after[rows[i].id], entries, ok)
    ensures AllThere(after, blobs) && Resolved(after, Pending(before) - Pending(after))
  {
    forall i | 0 <= i < |rows| ensures Readable(rows[i], blobs, faults.unreadable) {
      assert rows[i].id in Pending(before);
    }
    forall id | id in after && after[id].state == Queued ensures after[id].textKey in blobs {
      assert id in Pending(after);
    }
  }

  /** What is left of n documents after so many turns. */
  function Left(n: nat, turns: nat): nat {
    if n >= BATCH * turns then n - BATCH * turns else 0
  }

  lemma TurnsNeeded(n: nat, turns: nat)
    requires Left(n, turns) == 0 && (turns > 0 ==> Left(n, turns - 1) > 0)
    ensures turns == (n + BATCH - 1) / BATCH
  {
  }

  /** A batch has as many documents as rows, all of them pending. */
  lemma BatchSize(urls: map<nat, UrlRow>, docs: map<nat, DocRow>, rows: seq<Row>)
    requires IsBatch(urls, docs, rows, BATCH)
    ensures |Ids(rows)| == |rows| && Ids(rows) <= Pending(docs)
    ensures |Pending(docs) - Ids(rows)| == |Pending(docs)| - |rows|
  {
    IdsCount(rows);
    forall id | id in Ids(rows) ensures id in Pending(docs) {
    }
  }

  lemma {:induction false} IdsCount(rows: seq<Row>)
    requires NoRepeats(rows)
    ensures |Ids(rows)| == |rows|
  {
    if rows == [] {
      assert Ids(rows) == {};
    } else {
      var front, last := rows[..|rows| - 1], rows[|rows| - 1];
      assert rows == front + [last];
      IdsCount(front);
      IdsSnoc(front, last);
    }
  }

  lemma NotSeen(seen: seq<Row>, row: Row)
    requires NoRepeats(seen + [row])
    ensures row.id !in Ids(seen)
  {
    forall i | 0 <= i < |seen| ensures seen[i].id != row.id {
      assert (seen + [row])[i].id != (seen + [row])[|seen|].id;
    }
  }

  lemma PrefixIds(rows: seq<Row>, n: nat)
    requires n <= |rows|
    ensures Ids(rows[..n]) <= Ids(rows)
  {
    forall i | 0 <= i < n ensures rows[..n][i].id in Ids(rows) {
      assert rows[..n][i] == rows[i];
    }
  }

  /** How a document of a batch ends: failed with its whole batch, or suppressed by a near duplicate, or indexed and
      found by the search engine under the text of its blob. */
  ghost predicate Settled(urls: map<nat, UrlRow>, blobs: map<Key, string>, row: Row, doc: DocRow,
                          entries: map<nat, string>, ok: bool)
  {
    match doc.state
    case Queued => false
    case IndexFailed => !ok
    case Suppressed => ok && doc.duplicateOf.Some?
                       && NearDuplicate.IsNear(urls, row.simhash, row.id, doc.duplicateOf.value, DUPLICATE_DISTANCE)
    case Indexed => ok && row.textKey in blobs && row.id in entries && entries[row.id] == Content(blobs[row.textKey])
                    && IsLookup(urls, row.simhash, row.id, DUPLICATE_DISTANCE, None)
  }

  /** The same in terms of the document's own columns: only pending documents are taken, at most 200 at a time; an indexed
      one is found under the first 50,000 characters of the blob its row names, and then no other url is near it as far as
      a bucket of 500 shows; a suppressed one names a url whose hash is at most 3 bits away. */
  lemma SettledMeans(urls: map<nat, UrlRow>, blobs: map<Key, string>, before: map<nat, DocRow>, rows: seq<Row>, i: nat,
                     doc: DocRow, entries: map<nat, string>, ok: bool)
    requires IsBatch(urls, before, rows, BATCH) && i < |rows| && Settled(urls, blobs, rows[i], doc, entries, ok)
    ensures |rows| <= 200 && rows[i].id in before && rows[i].id in urls && before[rows[i].id].state == Queued
    ensures var id := rows[i].id;
            var key, hash := before[id].textKey, urls[id].simhash;
            && (ok <==> doc.state == Indexed || doc.state == Suppressed) && (!ok <==> doc.state == IndexFailed)
            && (doc.state == Indexed ==>
                  && key in blobs && id in entries && entries[id] <= blobs[key]
                  && |entries[id]| == Min(50_000, |blobs[key]|)
                  && (|NearDuplicate.Bucket(urls, hash, id)| <= 500 ==>
                        forall other | other in urls :: !NearDuplicate.IsNear(urls, hash, id, other, 3)))
            && (doc.state == Suppressed ==>
                  doc.duplicateOf.Some? && NearDuplicate.IsNear(urls, hash, id, doc.duplicateOf.value, 3))
  {
    assert rows[i].id in Pending(before) && rows[i] == RowOf(urls, before, rows[i].id);
  }

  /** Every document in state indexed is in the search index. */
  predicate Searchable(docs: map<nat, DocRow>, entries: map<nat, string>) {
    forall id | id in docs && docs[id].state == Indexed :: id in entries
  }

  lemma AllFailed(before: map<nat, DocRow>, rows: seq<Row>, suppressed: map<nat, nat>, after: map<nat, DocRow>)
    requires forall i | 0 <= i < |rows| :: rows[i].id in Pending(before)
    requires after == MarkedFailed(before, Ids(rows))
             || (suppressed.Keys <= Ids(rows) && after == MarkedFailed(MarkedDuplicates(before, suppressed), Ids(rows)))
    ensures after.Keys == before.Keys && Pending(after) == Pending(before) - Ids(rows)
    ensures forall id | id in after && id !in Ids(rows) :: after[id] == before[id]
    ensures forall i | 0 <= i < |rows| :: rows[i].id in after && after[rows[i].id].state == IndexFailed
    ensures forall entries: map<nat, string>, more: map<nat, string> |
              Searchable(before, entries) && entries.Keys <= more.Keys :: Searchable(after, more)
  {
    forall i | 0 <= i < |rows| ensures rows[i].id in Ids(rows) && rows[i].id in before {
      assert rows[i].id in Pending(before);
    }
  }

  lemma AllPlaced(urls: map<nat, UrlRow>, blobs: map<Key, string>, before: map<nat, DocRow>, rows: seq<Row>,
                  payload: map<nat, string>, suppressed: map<nat, nat>, after: map<nat, DocRow>,
                  entries: map<nat, string>, was: map<nat, string>)
    requires forall i | 0 <= i < |rows| :: rows[i].id in Pending(before)
    requires Split(urls, blobs, rows, payload, suppressed) && entries == was + payload
    requires after == MarkedIndexed(MarkedDuplicates(before, suppressed), payload.Keys)
    ensures after.Keys == before.Keys && Pending(after) == Pending(before) - Ids(rows)
    ensures forall id | id in after && id !in Ids(rows) :: after[id] == before[id]
    ensures forall i | 0 <= i < |rows| ::
              rows[i].id in after && Settled(urls, blobs, rows[i], after[rows[i].id], entries, true)
    ensures forall id | id in was && id !in Ids(rows) :: id in entries && entries[id] == was[id]
    ensures Searchable(before, was) ==> Searchable(after, entries)
  {
    forall i | 0 <= i < |rows| ensures rows[i].id in before {
      assert rows[i].id in Pending(before);
    }
    forall i | 0 <= i < |rows| ensures Settled(urls, blobs, rows[i], after[rows[i].id], entries, true) {
      assert Placed(urls, blobs, rows[i], payload, suppressed);
      PlacedIsSettled(urls, blobs, before, rows[i], payload, suppressed, after, entries, was);
    }
    BatchLeavesPending(before, rows, payload, suppressed, after);
  }

  lemma PlacedIsSettled(urls: map<nat, UrlRow>, blobs: map<Key, string>, before: map<nat, DocRow>, row: Row,
                        payload: map<nat, string>, suppressed: map<nat, nat>, after: map<nat, DocRow>,
                        entries: map<nat, string>, was: map<nat, string>)
    requires row.id in before && Placed(urls, blobs, row, payload, suppressed) && entries == was + payload
    requires after == MarkedIndexed(MarkedDuplicates(before, suppressed), payload.Keys)
    ensures row.id in after && Settled(urls, blobs, row, after[row.id], entries, true)
  {
  }

  lemma BatchLeavesPending(before: map<nat, DocRow>, rows: seq<Row>, payload: map<nat, string>,
                           suppressed: map<nat, nat>, after: map<nat, DocRow>)
    requires payload.Keys + suppressed.Keys == Ids(rows)
    requires after == MarkedIndexed(MarkedDuplicates(before, suppressed), payload.Keys)
    ensures Pending(after) == Pending(before) - Ids(rows)
    ensures forall id | id in after && id !in Ids(rows) :: after[id] == before[id]
  {
    forall id | id in before ensures id in Ids(rows) <==> id in payload || id in suppressed {
    }
  }
}
