/** Indexers and crawl workers side by side: any number of each, stopping anywhere. */
module IndexRuns {
  import opened Tables
  import Indexer

  /** Where an indexer is inside _process, with its batch; `Failing` has caught an exception. */
  datatype Phase =
    | Sorting(rows: set<nat>, payload: map<nat, string>, suppressed: set<nat>)
    | Added(rows: set<nat>, payload: map<nat, string>, suppressed: set<nat>)
    | Marking(rows: set<nat>, payload: map<nat, string>, suppressed: set<nat>)
    | Failing(rows: set<nat>)

  /** `texts` is the text blob of each url, `entries` what the search engine would show for it. An indexer is in
      `indexers` while it works on a batch. */
  datatype World = World(
    docs: map<nat, IndexState>, texts: map<nat, string>, entries: map<nat, string>, indexers: map<nat, Phase>)

  datatype Move =
    | Fetch(i: nat, rows: set<nat>)
    | Suppress(i: nat, id: nat)
    | Read(i: nat, id: nat)
    | AddDocuments(i: nat)
    | AddRaises(i: nat, taken: bool)
    | MarkDuplicates(i: nat)
    | MarkIndexed(i: nat)
    | Raise(i: nat)
    | MarkFailed(i: nat)
    | Stop(i: nat)
    | PutText(id: nat, text: string)
    | Commit(id: nat)
    | Rest

  predicate Open(w: World, i: nat, id: nat) {
    i in w.indexers && w.indexers[i].Sorting?
    && id in w.indexers[i].rows && id !in w.indexers[i].payload && id !in w.indexers[i].suppressed
  }

  predicate AllSorted(w: World, i: nat) {
    i in w.indexers && w.indexers[i].Sorting?
    && w.indexers[i].rows == w.indexers[i].payload.Keys + w.indexers[i].suppressed
  }

  /** The row locks of the fetch end with its statement, so two indexers may work on one document. */
  predicate Enabled(w: World, m: Move) {
    match m
    case Fetch(i, rows) =>
      && i !in w.indexers && rows != {} && |rows| <= Indexer.BATCH
      && forall id | id in rows :: id in w.docs && w.docs[id] == Queued
    case Suppress(i, id) => Open(w, i, id)
    case Read(i, id) => Open(w, i, id) && id in w.texts
    case AddDocuments(i) => AllSorted(w, i)
    case AddRaises(i, _) => AllSorted(w, i)
    case MarkDuplicates(i) => i in w.indexers && w.indexers[i].Added?
    case MarkIndexed(i) => i in w.indexers && w.indexers[i].Marking?
    case Raise(i) => i in w.indexers && !w.indexers[i].Failing?
    case MarkFailed(i) => i in w.indexers && w.indexers[i].Failing?
    case Stop(i) => i in w.indexers
    case PutText(_, _) => true
    case Commit(id) => id in w.texts
    case Rest => true
  }

  /** UPDATE documents SET index_state = s WHERE url_id = ANY(ids). */
  function Marked(docs: map<nat, IndexState>, ids: set<nat>, s: IndexState): map<nat, IndexState> {
    map id | id in docs :: if id in ids then s else docs[id]
  }

  function Next(w: World, m: Move): World
    requires Enabled(w, m)
  {
    match m
    case Fetch(i, rows) => w.(indexers := w.indexers[i := Sorting(rows, map[], {})])
    case Suppress(i, id) =>
      var p := w.indexers[i];
      w.(indexers := w.indexers[i := Sorting(p.rows, p.payload, p.suppressed + {id})])
    case Read(i, id) =>
      var p := w.indexers[i];
      w.(indexers := w.indexers[i := Sorting(p.rows, p.payload[id := Indexer.Content(w.texts[id])], p.suppressed)])
    case AddDocuments(i) =>
      var p := w.indexers[i];
      w.(entries := w.entries + p.payload, indexers := w.indexers[i := Added(p.rows, p.payload, p.suppressed)])
    case AddRaises(i, taken) =>
      var p := w.indexers[i];
      w.(entries := if taken then w.entries + p.payload else w.entries, indexers := w.indexers[i := Failing(p.rows)])
    case MarkDuplicates(i) =>
      var p := w.indexers[i];
      w.(docs := Marked(w.docs, p.suppressed, Suppressed),
         indexers := w.indexers[i := Marking(p.rows, p.payload, p.suppressed)])
    case MarkIndexed(i) =>
      w.(docs := Marked(w.docs, w.indexers[i].payload.Keys, Indexed), indexers := w.indexers - {i})
    case Raise(i) => w.(indexers := w.indexers[i := Failing(w.indexers[i].rows)])
    case MarkFailed(i) =>
      w.(docs := Marked(w.docs, w.indexers[i].rows, IndexFailed), indexers := w.indexers - {i})
    case Stop(i) => w.(indexers := w.indexers - {i})
    case PutText(id, text) => w.(texts := w.texts[id := text])
    case Commit(id) => w.(docs := w.docs[id := Queued])
    case Rest => w
  }

  const NOTHING := World(map[], map[], map[], map[])

  /** A run: from nothing, every move enabled where it is made. */
  ghost predicate Run(ws: seq<World>, ms: seq<Move>) {
    && |ws| == |ms| + 1 && ws[0] == NOTHING
    && forall i | 0 <= i < |ms| :: Enabled(ws[i], ms[i]) && ws[i + 1] == Next(ws[i], ms[i])
  }

  // ---------------------------------------------------------------- what is indexed can be found

  predicate Submitted(p: Phase) {
    p.Added? || p.Marking?
  }

  ghost predicate Inv(w: World) {
    && (forall id | id in w.docs && w.docs[id] == Indexed :: id in w.entries)
    && (forall i | i in w.indexers && Submitted(w.indexers[i]) :: w.indexers[i].payload.Keys <= w.entries.Keys)
  }

  lemma MoveKeepsInv(w: World, m: Move)
    requires Inv(w) && Enabled(w, m)
    ensures Inv(Next(w, m))
  {
  }

  /** In every run, with crashes, exceptions, several indexers and concurrent complete() calls, a document in state indexed
      is in the search index. */
  lemma {:induction false} IndexedCanBeFound(ws: seq<World>, ms: seq<Move>, n: nat)
    requires Run(ws, ms) && n < |ws|
    ensures forall id | id in ws[n].docs && ws[n].docs[id] == Indexed :: id in ws[n].entries
    ensures Inv(ws[n])
  {
    if n > 0 {
      IndexedCanBeFound(ws, ms, n - 1);
      MoveKeepsInv(ws[n - 1], ms[n - 1]);
    }
  }

  // ---------------------------------------------------------------- under which text

  predicate Shown(w: World, id: nat) {
    id in w.entries && id in w.texts && w.entries[id] == Indexer.Content(w.texts[id])
  }

  /** Move k reads the blob of `id`, and what it reads is `text`. */
  predicate ReadsAt(w: World, m: Move, id: nat, text: string) {
    m.Read? && m.id == id && id in w.texts && Indexer.Content(w.texts[id]) == text
  }

  ghost predicate WasRead(ws: seq<World>, ms: seq<Move>, n: nat, id: nat, text: string)
    requires Run(ws, ms) && n < |ws|
  {
    exists k | 0 <= k < n :: ReadsAt(ws[k], ms[k], id, text)
  }

  /** Whatever is shown or about to be shown was read once. */
  ghost predicate AllRead(ws: seq<World>, ms: seq<Move>, n: nat)
    requires Run(ws, ms) && n < |ws|
  {
    && (forall id | id in ws[n].entries :: WasRead(ws, ms, n, id, ws[n].entries[id]))
    && (forall i, id | i in ws[n].indexers && !ws[n].indexers[i].Failing? && id in ws[n].indexers[i].payload ::
          WasRead(ws, ms, n, id, ws[n].indexers[i].payload[id]))
  }

  lemma ReadStays(ws: seq<World>, ms: seq<Move>, n: nat, id: nat, text: string)
    requires Run(ws, ms) && n < |ms| && WasRead(ws, ms, n, id, text)
    ensures WasRead(ws, ms, n + 1, id, text)
  {
    var k :| 0 <= k < n && ReadsAt(ws[k], ms[k], id, text);
    assert k < n + 1;
  }

  /** Where a shown text comes from: it was shown before, or is in the payload that is added. */
  lemma EntryComesFrom(w: World, m: Move, id: nat)
    requires Enabled(w, m) && id in Next(w, m).entries
    ensures (id in w.entries && Next(w, m).entries[id] == w.entries[id])
            || ((m.AddDocuments? || m.AddRaises?) && id in w.indexers[m.i].payload
                && Next(w, m).entries[id] == w.indexers[m.i].payload[id])
  {
  }

  lemma PayloadComesFrom(w: World, m: Move, i: nat, id: nat)
    requires Enabled(w, m) && i in Next(w, m).indexers && !Next(w, m).indexers[i].Failing?
    requires id in Next(w, m).indexers[i].payload
    ensures ReadsAt(w, m, id, Next(w, m).indexers[i].payload[id])
            || (i in w.indexers && !w.indexers[i].Failing? && id in w.indexers[i].payload
                && Next(w, m).indexers[i].payload[id] == w.indexers[i].payload[id])
  {
  }

  lemma ReadsKept(ws: seq<World>, ms: seq<Move>, n: nat)
    requires Run(ws, ms) && n < |ms| && AllRead(ws, ms, n)
    ensures AllRead(ws, ms, n + 1)
  {
    var w, m, v := ws[n], ms[n], ws[n + 1];
    forall id | id in v.entries ensures WasRead(ws, ms, n + 1, id, v.entries[id]) {
      EntryComesFrom(w, m, id);
      ReadStays(ws, ms, n, id, v.entries[id]);
    }
    forall i, id | i in v.indexers && !v.indexers[i].Failing? && id in v.indexers[i].payload
      ensures WasRead(ws, ms, n + 1, id, v.indexers[i].payload[id])
    {
      PayloadComesFrom(w, m, i, id);
      if !ReadsAt(w, m, id, v.indexers[i].payload[id]) {
        ReadStays(ws, ms, n, id, v.indexers[i].payload[id]);
      }
    }
  }

  lemma {:induction false} EntriesWereRead(ws: seq<World>, ms: seq<Move>, n: nat)
    requires Run(ws, ms) && n < |ws|
    ensures AllRead(ws, ms, n)
  {
    if n > 0 {
      EntriesWereRead(ws, ms, n - 1);
      ReadsKept(ws, ms, n - 1);
    }
  }

  predicate Rewrites(m: Move, id: nat) {
    m.PutText? && m.id == id
  }

  lemma {:induction false} TextStays(ws: seq<World>, ms: seq<Move>, k: nat, n: nat, id: nat)
    requires Run(ws, ms) && k <= n < |ws| && id in ws[k].texts
    ensures id in ws[n].texts
    ensures (forall j | k <= j < n :: !Rewrites(ms[j], id)) ==> ws[n].texts[id] == ws[k].texts[id]
  {
    if k < n {
      TextStays(ws, ms, k, n - 1, id);
    }
  }

  /** When an index entry is out of date: it is what some earlier move read of the blob, so it shows the document's text if
      and only if the part of the blob that is indexed is what it was at that read; if the blob was not written since, it
      is. */
  lemma StaleExactlyWhenChanged(ws: seq<World>, ms: seq<Move>, n: nat, id: nat) returns (k: nat)
    requires Run(ws, ms) && n < |ws| && id in ws[n].docs && ws[n].docs[id] == Indexed
    ensures k < n && ms[k].Read? && ms[k].id == id && id in ws[k].texts && id in ws[n].texts && id in ws[n].entries
    ensures ws[n].entries[id] == Indexer.Content(ws[k].texts[id])
    ensures Shown(ws[n], id) <==> Indexer.Content(ws[n].texts[id]) == Indexer.Content(ws[k].texts[id])
    ensures (forall j | k <= j < n :: !Rewrites(ms[j], id)) ==> Shown(ws[n], id)
  {
    IndexedCanBeFound(ws, ms, n);
    EntriesWereRead(ws, ms, n);
    assert WasRead(ws, ms, n, id, ws[n].entries[id]);
    k :| 0 <= k < n && ReadsAt(ws[k], ms[k], id, ws[n].entries[id]);
    TextStays(ws, ms, k, n, id);
  }

  // ---------------------------------------------------------------- under its own text

  /** No text blob is written again once its document has a row. */
  ghost predicate WrittenOnce(ws: seq<World>, ms: seq<Move>)
    requires Run(ws, ms)
  {
    forall i | 0 <= i < |ms| && ms[i].PutText? :: ms[i].id !in ws[i].docs
  }

  /** `payload` holds the current text of documents that have a row. */
  predicate Current(w: World, payload: map<nat, string>) {
    forall id | id in payload :: id in w.docs && id in w.texts && payload[id] == Indexer.Content(w.texts[id])
  }

  predicate RowsKnown(w: World, p: Phase) {
    forall id | id in p.rows :: id in w.docs
  }

  ghost predicate PhaseOk(w: World, p: Phase) {
    RowsKnown(w, p) && (!p.Failing? ==> Current(w, p.payload))
    && (Submitted(p) ==> forall id | id in p.payload :: Shown(w, id))
  }

  ghost predicate Faithful(w: World) {
    && (forall id | id in w.docs && w.docs[id] == Indexed :: Shown(w, id))
    && (forall i | i in w.indexers :: PhaseOk(w, w.indexers[i]))
  }

  lemma MoveKeepsShown(w: World, m: Move, id: nat)
    requires Faithful(w) && Enabled(w, m) && (m.PutText? ==> m.id !in w.docs) && id in w.docs && Shown(w, id)
    ensures id in Next(w, m).docs && Shown(Next(w, m), id)
  {
    assert m.AddDocuments? || m.AddRaises? ==> PhaseOk(w, w.indexers[m.i]);
  }

  lemma MoveKeepsPhase(w: World, m: Move, p: Phase)
    requires Faithful(w) && Enabled(w, m) && (m.PutText? ==> m.id !in w.docs) && PhaseOk(w, p)
    ensures PhaseOk(Next(w, m), p)
  {
    if Submitted(p) {
      forall id | id in p.payload ensures Shown(Next(w, m), id) {
        MoveKeepsShown(w, m, id);
      }
    }
  }

  /** The phase the moving indexer enters. */
  lemma NewPhaseOk(w: World, m: Move, i: nat)
    requires Faithful(w) && Enabled(w, m) && i in Next(w, m).indexers
    requires i !in w.indexers || Next(w, m).indexers[i] != w.indexers[i]
    ensures PhaseOk(Next(w, m), Next(w, m).indexers[i])
  {
    if i in w.indexers {
      assert PhaseOk(w, w.indexers[i]);
    }
  }

  lemma MoveKeepsFaithful(w: World, m: Move)
    requires Faithful(w) && Enabled(w, m) && (m.PutText? ==> m.id !in w.docs)
    ensures Faithful(Next(w, m))
  {
    var v := Next(w, m);
    forall i | i in v.indexers ensures PhaseOk(v, v.indexers[i]) {
      if i in w.indexers && v.indexers[i] == w.indexers[i] {
        MoveKeepsPhase(w, m, w.indexers[i]);
      } else {
        NewPhaseOk(w, m, i);
      }
    }
    forall id | id in v.docs && v.docs[id] == Indexed ensures Shown(v, id) {
      if id in w.docs && w.docs[id] == Indexed {
        MoveKeepsShown(w, m, id);
      } else {
        assert PhaseOk(w, w.indexers[m.i]);
      }
    }
  }

  /** Where text blobs are written once an indexed document is shown under its own text. */
  lemma {:induction false} IndexShowsTheText(ws: seq<World>, ms: seq<Move>, n: nat)
    requires Run(ws, ms) && WrittenOnce(ws, ms) && n < |ws|
    ensures forall id | id in ws[n].docs && ws[n].docs[id] == Indexed :: Shown(ws[n], id)
    ensures Faithful(ws[n])
  {
    if n > 0 {
      IndexShowsTheText(ws, ms, n - 1);
      MoveKeepsFaithful(ws[n - 1], ms[n - 1]);
    }
  }

  // ---------------------------------------------------------------- a run that ends out of date

  lemma Further(ws: seq<World>, ms: seq<Move>, w: World, m: Move) returns (longer: seq<World>, moves: seq<Move>, v: World)
    requires Run(ws, ms) && w == ws[|ms|] && Enabled(w, m)
    ensures Run(longer, moves) && moves == ms + [m] && v == Next(w, m) && v == longer[|moves|]
  {
    v := Next(w, m);
    longer, moves := ws + [v], ms + [m];
    forall i | 0 <= i < |moves| ensures Enabled(longer[i], moves[i]) && longer[i + 1] == Next(longer[i], moves[i]) {
    }
  }

  /** One document, with its blob and one indexer's phase. */
  function Single(state: IndexState, text: string, entries: map<nat, string>, phases: map<nat, Phase>): World {
    World(map[0 := state], map[0 := text], entries, phases)
  }

  lemma ReadOnce(before: string) returns (ws: seq<World>, ms: seq<Move>, w: World)
    requires |before| <= Indexer.CONTENT_LIMIT
    ensures Run(ws, ms) && w == ws[|ms|] && ms == [PutText(0, before), Commit(0), Fetch(7, {0}), Read(7, 0)]
    ensures w == Single(Queued, before, map[], map[7 := Sorting({0}, map[0 := before], {})])
  {
    ws, ms, w := Further([NOTHING], [], NOTHING, PutText(0, before));
    ws, ms, w := Further(ws, ms, w, Commit(0));
    assert w == Single(Queued, before, map[], map[]);
    ws, ms, w := Further(ws, ms, w, Fetch(7, {0}));
    ws, ms, w := Further(ws, ms, w, Read(7, 0));
  }

  lemma Recompleted(ws: seq<World>, ms: seq<Move>, before: string, later: string, phases: map<nat, Phase>)
    returns (longer: seq<World>, moves: seq<Move>, w: World)
    requires Run(ws, ms) && ws[|ms|] == Single(Queued, before, map[], phases)
    ensures Run(longer, moves) && moves == ms + [PutText(0, later), Commit(0)] && w == longer[|moves|]
    ensures w == Single(Queued, later, map[], phases)
  {
    longer, moves, w := Further(ws, ms, ws[|ms|], PutText(0, later));
    assert w == Single(Queued, later, map[], phases);
    longer, moves, w := Further(longer, moves, w, Commit(0));
  }

  lemma Finished(ws: seq<World>, ms: seq<Move>, before: string, later: string)
    returns (longer: seq<World>, moves: seq<Move>, w: World)
    requires Run(ws, ms)
    requires ws[|ms|] == Single(Queued, later, map[], map[7 := Sorting({0}, map[0 := before], {})])
    ensures Run(longer, moves) && moves == ms + [AddDocuments(7), MarkDuplicates(7), MarkIndexed(7)]
    ensures w == longer[|moves|] && w == Single(Indexed, later, map[0 := before], map[])
  {
    longer, moves, w := Further(ws, ms, ws[|ms|], AddDocuments(7));
    assert w == Single(Queued, later, map[0 := before], map[7 := Added({0}, map[0 := before], {})]);
    longer, moves, w := Further(longer, moves, w, MarkDuplicates(7));
    assert w == Single(Queued, later, map[0 := before], map[7 := Marking({0}, map[0 := before], {})]);
    longer, moves, w := Further(longer, moves, w, MarkIndexed(7));
  }

  /** It does happen: a document completed again between the read of its blob and the mark ends indexed under its old text,
      and no longer pending. */
  lemma StaleIndex(before: string, later: string) returns (ws: seq<World>, ms: seq<Move>)
    requires |before| <= Indexer.CONTENT_LIMIT && |later| <= Indexer.CONTENT_LIMIT && before != later
    ensures Run(ws, ms) && ws[|ms|].docs == map[0 := Indexed] && !Shown(ws[|ms|], 0)
    ensures ms == [PutText(0, before), Commit(0), Fetch(7, {0}), Read(7, 0)] + [PutText(0, later), Commit(0)]
                  + [AddDocuments(7), MarkDuplicates(7), MarkIndexed(7)]
  {
    var w: World;
    ws, ms, w := ReadOnce(before);
    ws, ms, w := Recompleted(ws, ms, before, later, w.indexers);
    ws, ms, w := Finished(ws, ms, before, later);
  }
}
