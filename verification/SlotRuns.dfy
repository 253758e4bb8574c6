/** The methods of the renderer, which run alone, as runs of the transition system of module RenderSlots. */
module SlotRuns {
  import opened Base
  import opened RenderSlots

  // ---------------------------------------------------------------- runs

  lemma OneMove(w: World, m: Move)
    requires Enabled(w, m)
    ensures Run(w, [m]) && After(w, [m]) == Next(w, m)
  {
    assert [m][1..] == [];
    assert Run(Next(w, m), []);
  }

  lemma {:induction false} Joined(w: World, ms: seq<Move>, ns: seq<Move>)
    requires Run(w, ms) && Run(After(w, ms), ns)
    ensures Run(w, ms + ns) && After(w, ms + ns) == After(After(w, ms), ns)
    decreases |ms|
  {
    if ms == [] {
      assert ms + ns == ns;
    } else {
      Joined(Next(w, ms[0]), ms[1..], ns);
      Prepended(w, ms[0], ms[1..] + ns);
      assert ms + ns == [ms[0]] + (ms[1..] + ns);
    }
  }

  lemma Prepended(w: World, m: Move, ms: seq<Move>)
    requires Enabled(w, m) && Run(Next(w, m), ms)
    ensures Run(w, [m] + ms) && After(w, [m] + ms) == After(Next(w, m), ms)
  {
    assert ([m] + ms)[1..] == ms;
  }

  /** One more move of a run from w that is at v. */
  lemma Further(w: World, ms: seq<Move>, v: World, m: Move)
    requires Run(w, ms) && v == After(w, ms) && Enabled(v, m)
    ensures Run(w, ms + [m]) && After(w, ms + [m]) == Next(v, m)
  {
    OneMove(v, m);
    Joined(w, ms, [m]);
  }

  // ---------------------------------------------------------------- one coroutine

  /** The world in which coroutine c of process p is in state y and the pool and the locks are these. */
  function With(w: World, p: nat, c: nat, y: Coro, idle: set<nat>, table: LockTable): World
    requires p in w.procs
  {
    World(table, w.procs[p := w.procs[p].(coros := w.procs[p].coros[c := y], idle := idle)], w.started)
  }

  lemma WithTwice(w: World, p: nat, c: nat, y: Coro, z: Coro, idle: set<nat>, pool: set<nat>, t: LockTable, u: LockTable)
    requires p in w.procs
    ensures With(With(w, p, c, y, idle, t), p, c, z, pool, u) == With(w, p, c, z, pool, u)
  {
    assert w.procs[p].coros[c := y][c := z] == w.procs[p].coros[c := z];
  }

  lemma WithSame(w: World, p: nat, c: nat)
    requires In(w, p, c)
    ensures With(w, p, c, CoroOf(w, p, c), w.procs[p].idle, w.table) == w
  {
    assert w.procs[p].coros[c := w.procs[p].coros[c]] == w.procs[p].coros;
  }

  predicate SlotTaken(t: LockTable, i: nat) {
    Taken(t, RENDER_LOCK_BASE_KEY + i)
  }

  lemma Takes(w: World, p: nat, c: nat, conn: nat, i: nat)
    requires In(w, p, c) && CoroOf(w, p, c) == Waiting(i) && conn in w.procs[p].idle
    ensures Enabled(w, Take(p, c, conn))
    ensures Next(w, Take(p, c, conn)) == With(w, p, c, Trying(conn, i), w.procs[p].idle - {conn}, w.table)
  {
  }

  lemma Tries(w: World, p: nat, c: nat, conn: nat, i: nat)
    requires In(w, p, c) && CoroOf(w, p, c) == Trying(conn, i) && HoldsNothing(w.table, Session(p, conn))
    ensures Enabled(w, Try(p, c))
    ensures var key := RENDER_LOCK_BASE_KEY + i;
            Next(w, Try(p, c)) == if SlotTaken(w.table, i) then With(w, p, c, Refused(conn, i), w.procs[p].idle, w.table)
                                  else With(w, p, c, Rendering(conn, i), w.procs[p].idle,
                                            w.table[(Session(p, conn), key) := 1])
  {
    SameVerdict(w.table, Session(p, conn), RENDER_LOCK_BASE_KEY + i);
  }

  lemma PutsBack(w: World, p: nat, c: nat, conn: nat, i: nat)
    requires In(w, p, c) && CoroOf(w, p, c) == Refused(conn, i)
    ensures Enabled(w, PutBack(p, c))
    ensures Next(w, PutBack(p, c))
            == With(w, p, c, Waiting(NextSlot(i, w.procs[p].limit)), w.procs[p].idle + {conn}, w.table)
  {
  }

  // ---------------------------------------------------------------- one pass

  /** Coroutine c is to try slot i next, and `conn` is a connection it can have. */
  ghost predicate AtSlot(w: World, p: nat, c: nat, conn: nat, i: nat) {
    && In(w, p, c) && CoroOf(w, p, c) == Waiting(i) && conn in w.procs[p].idle
    && HoldsNothing(w.table, Session(p, conn))
  }

  /** The first two moves of a turn. */
  lemma TakeAndTry(w: World, p: nat, c: nat, conn: nat, i: nat) returns (ms: seq<Move>)
    requires AtSlot(w, p, c, conn, i)
    ensures Run(w, ms)
    ensures var key, rest := RENDER_LOCK_BASE_KEY + i, w.procs[p].idle - {conn};
            After(w, ms) == if SlotTaken(w.table, i) then With(w, p, c, Refused(conn, i), rest, w.table)
                            else With(w, p, c, Rendering(conn, i), rest, w.table[(Session(p, conn), key) := 1])
  {
    var key, rest := RENDER_LOCK_BASE_KEY + i, w.procs[p].idle - {conn};
    Takes(w, p, c, conn, i);
    OneMove(w, Take(p, c, conn));
    var v := With(w, p, c, Trying(conn, i), rest, w.table);
    Tries(v, p, c, conn, i);
    Further(w, [Take(p, c, conn)], v, Try(p, c));
    WithTwice(w, p, c, Trying(conn, i), Refused(conn, i), rest, rest, w.table, w.table);
    if !SlotTaken(w.table, i) {
      WithTwice(w, p, c, Trying(conn, i), Rendering(conn, i), rest, rest, w.table,
                w.table[(Session(p, conn), key) := 1]);
    }
    ms := [Take(p, c, conn)] + [Try(p, c)];
  }

  /** A turn on a slot that somebody has moves on to the next one and leaves all else alone. */
  lemma RefusedTurn(w: World, p: nat, c: nat, conn: nat, i: nat) returns (ms: seq<Move>)
    requires AtSlot(w, p, c, conn, i) && SlotTaken(w.table, i)
    ensures Run(w, ms)
    ensures After(w, ms) == With(w, p, c, Waiting(NextSlot(i, w.procs[p].limit)), w.procs[p].idle, w.table)
  {
    var rest, next := w.procs[p].idle - {conn}, Waiting(NextSlot(i, w.procs[p].limit));
    ms := TakeAndTry(w, p, c, conn, i);
    var v := With(w, p, c, Refused(conn, i), rest, w.table);
    PutsBack(v, p, c, conn, i);
    Further(w, ms, v, PutBack(p, c));
    WithTwice(w, p, c, Refused(conn, i), next, rest, rest + {conn}, w.table, w.table);
    assert rest + {conn} == w.procs[p].idle;
    ms := ms + [PutBack(p, c)];
  }

  /** From slot i to the first one that nobody has, or past the last. */
  lemma {:induction false} PassFrom(w: World, p: nat, c: nat, conn: nat, i: nat, k: nat) returns (ms: seq<Move>)
    requires AtSlot(w, p, c, conn, i) && i <= k <= w.procs[p].limit && i < w.procs[p].limit
    requires forall j | i <= j < k :: SlotTaken(w.table, j)
    requires k < w.procs[p].limit ==> !SlotTaken(w.table, k)
    ensures Run(w, ms)
    ensures After(w, ms)
            == if k == w.procs[p].limit then With(w, p, c, Waiting(0), w.procs[p].idle, w.table)
               else With(w, p, c, Rendering(conn, k), w.procs[p].idle - {conn},
                         w.table[(Session(p, conn), RENDER_LOCK_BASE_KEY + k) := 1])
    decreases k - i
  {
    if i == k {
      ms := TakeAndTry(w, p, c, conn, i);
    } else {
      ms := RefusedTurn(w, p, c, conn, i);
      if i + 1 < w.procs[p].limit {
        ms := PassOn(w, p, c, conn, i, k, ms);
      }
    }
  }

  lemma {:induction false} PassOn(w: World, p: nat, c: nat, conn: nat, i: nat, k: nat, turn: seq<Move>)
    returns (ms: seq<Move>)
    requires AtSlot(w, p, c, conn, i) && i < k <= w.procs[p].limit && i + 1 < w.procs[p].limit
    requires forall j | i <= j < k :: SlotTaken(w.table, j)
    requires k < w.procs[p].limit ==> !SlotTaken(w.table, k)
    requires Run(w, turn) && After(w, turn) == With(w, p, c, Waiting(i + 1), w.procs[p].idle, w.table)
    ensures Run(w, ms)
    ensures After(w, ms)
            == if k == w.procs[p].limit then With(w, p, c, Waiting(0), w.procs[p].idle, w.table)
               else With(w, p, c, Rendering(conn, k), w.procs[p].idle - {conn},
                         w.table[(Session(p, conn), RENDER_LOCK_BASE_KEY + k) := 1])
    decreases k - i, 0
  {
    var v := With(w, p, c, Waiting(i + 1), w.procs[p].idle, w.table);
    var rest := PassFrom(v, p, c, conn, i + 1, k);
    Joined(w, turn, rest);
    ms := turn + rest;
    if k == w.procs[p].limit {
      WithTwice(w, p, c, Waiting(i + 1), Waiting(0), w.procs[p].idle, w.procs[p].idle, w.table, w.table);
    } else {
      WithTwice(w, p, c, Waiting(i + 1), Rendering(conn, k), w.procs[p].idle, w.procs[p].idle - {conn}, w.table,
                w.table[(Session(p, conn), RENDER_LOCK_BASE_KEY + k) := 1]);
    }
  }

  /** What AcquireSlot says of one pass is a run of the processes in which only this coroutine moves: when the first k keys
      are taken and the next one is not, it ends rendering there, and with all of them taken nothing has changed. */
  lemma AcquireIsRun(w: World, p: nat, c: nat, conn: nat, k: nat) returns (ms: seq<Move>)
    requires Inv(w) && In(w, p, c) && CoroOf(w, p, c) == Waiting(0) && conn in w.procs[p].idle
    requires k <= w.procs[p].limit && AllTaken(w.table, LockKeys(w.procs[p].limit), k)
    requires k < w.procs[p].limit ==> !SlotTaken(w.table, k)
    ensures Run(w, ms)
    ensures After(w, ms) == if k == w.procs[p].limit then w
                            else With(w, p, c, Rendering(conn, k), w.procs[p].idle - {conn},
                                      w.table[(Session(p, conn), LockKeys(w.procs[p].limit)[k]) := 1])
  {
    assert ProcOk(w, p, w.procs[p]);
    IdleHoldsNothing(w, p, w.procs[p]);
    forall j | 0 <= j < k ensures SlotTaken(w.table, j) {
      assert Taken(w.table, LockKeys(w.procs[p].limit)[j]);
    }
    ms := PassFrom(w, p, c, conn, 0, k);
    WithSame(w, p, c);
  }

  // ---------------------------------------------------------------- the end of a page

  /** The world after coroutine c has given its connection back. */
  function Without(w: World, p: nat, c: nat, conn: nat, table: LockTable): World
    requires p in w.procs
  {
    World(table, w.procs[p := w.procs[p].(coros := w.procs[p].coros - {c}, idle := w.procs[p].idle + {conn})], w.started)
  }

  /** And ReleaseSlot is the two moves that end a page: exactly its lock is gone and the connection is back, because in a
      reachable state its session has the lock once. */
  lemma ReleaseIsRun(w: World, p: nat, c: nat, conn: nat, key: int)
    requires Inv(w) && In(w, p, c) && CoroOf(w, p, c).Rendering?
    requires conn == CoroOf(w, p, c).conn && key == RENDER_LOCK_BASE_KEY + CoroOf(w, p, c).slot
    ensures Run(w, [Finish(p, c)] + [Leave(p, c)])
    ensures After(w, [Finish(p, c)] + [Leave(p, c)]) == Without(w, p, c, conn, w.table - {(Session(p, conn), key)})
  {
    PageFacts(w, p, c);
    Ends(w, p, c, conn, w.table - {(Session(p, conn), key)});
  }

  lemma Ends(w: World, p: nat, c: nat, conn: nat, t: LockTable)
    requires NoStacking(w.table) && In(w, p, c) && CoroOf(w, p, c).Rendering? && CoroOf(w, p, c).conn == conn
    requires (Session(p, conn), RENDER_LOCK_BASE_KEY + CoroOf(w, p, c).slot) in w.table
    requires t == w.table - {(Session(p, conn), RENDER_LOCK_BASE_KEY + CoroOf(w, p, c).slot)}
    ensures Run(w, [Finish(p, c)] + [Leave(p, c)])
    ensures After(w, [Finish(p, c)] + [Leave(p, c)]) == Without(w, p, c, conn, t)
  {
    var v := With(w, p, c, Unlocked(conn), w.procs[p].idle, t);
    Finishes(w, p, c, v);
    OneMove(w, Finish(p, c));
    Leaves(w, p, c, conn, v);
    Further(w, [Finish(p, c)], v, Leave(p, c));
  }

  lemma Finishes(w: World, p: nat, c: nat, v: World)
    requires NoStacking(w.table) && In(w, p, c) && CoroOf(w, p, c).Rendering?
    requires (Session(p, CoroOf(w, p, c).conn), RENDER_LOCK_BASE_KEY + CoroOf(w, p, c).slot) in w.table
    requires v == With(w, p, c, Unlocked(CoroOf(w, p, c).conn), w.procs[p].idle,
                       w.table - {(Session(p, CoroOf(w, p, c).conn), RENDER_LOCK_BASE_KEY + CoroOf(w, p, c).slot)})
    ensures Enabled(w, Finish(p, c)) && Next(w, Finish(p, c)) == v
  {
  }

  lemma Leaves(w: World, p: nat, c: nat, conn: nat, v: World)
    requires In(w, p, c) && v == With(w, p, c, Unlocked(conn), w.procs[p].idle, v.table)
    ensures Enabled(v, Leave(p, c))
    ensures Next(v, Leave(p, c)) == Without(w, p, c, conn, v.table)
  {
    assert w.procs[p].coros[c := Unlocked(conn)] - {c} == w.procs[p].coros - {c};
  }
}
