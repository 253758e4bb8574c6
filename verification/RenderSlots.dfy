/** The render slots that independent processes share: session advisory locks on PostgreSQL, which stack within a session
    (section 13.3.5 of the PostgreSQL 16 documentation), taken through a fixed pool of connections in each process. */
module RenderSlots {
  import opened Base

  const MAX_CONCURRENT_PAGES := 4
  const RENDER_LOCK_BASE_KEY := 0x5A9C4E00

  // ---------------------------------------------------------------- the lock server

  /** Connection `conn` of the pool of process `proc`. */
  datatype Session = Session(proc: nat, conn: nat)

  /** How often each session has taken each key and not released it. */
  type LockTable = t: map<(Session, int), nat> | forall e | e in t :: t[e] > 0 witness map[]

  function CountOf(t: LockTable, s: Session, key: int): nat {
    if (s, key) in t then t[(s, key)] else 0
  }

  predicate HeldByOther(t: LockTable, s: Session, key: int) {
    exists e | e in t :: e.1 == key && e.0 != s
  }

  /** pg_try_advisory_lock, when granted: the count of a session that has the key already goes up. */
  function Grant(t: LockTable, s: Session, key: int): LockTable {
    t[(s, key) := CountOf(t, s, key) + 1]
  }

  /** pg_advisory_unlock: one count less; nothing happens when the session does not hold the key. */
  function Unlock(t: LockTable, s: Session, key: int): LockTable {
    if CountOf(t, s, key) > 1 then t[(s, key) := CountOf(t, s, key) - 1] else t - {(s, key)}
  }

  function EndSession(t: LockTable, s: Session): LockTable {
    map e | e in t && e.0 != s :: t[e]
  }

  function Grants(t: LockTable, s: Session, key: int, n: nat): LockTable {
    if n == 0 then t else Grant(Grants(t, s, key, n - 1), s, key)
  }

  function Unlocks(t: LockTable, s: Session, key: int, n: nat): LockTable {
    if n == 0 then t else Unlock(Unlocks(t, s, key, n - 1), s, key)
  }

  lemma {:induction false} GrantsCount(t: LockTable, s: Session, key: int, n: nat)
    ensures CountOf(Grants(t, s, key, n), s, key) == CountOf(t, s, key) + n
    ensures forall e | e != (s, key) :: e in Grants(t, s, key, n) <==> e in t
  {
    if n > 0 {
      GrantsCount(t, s, key, n - 1);
    }
  }

  lemma {:induction false} UnlocksCount(t: LockTable, s: Session, key: int, n: nat)
    ensures CountOf(Unlocks(t, s, key, n), s, key) == if n <= CountOf(t, s, key) then CountOf(t, s, key) - n else 0
    ensures forall e | e != (s, key) :: e in Unlocks(t, s, key, n) <==> e in t
  {
    if n > 0 {
      UnlocksCount(t, s, key, n - 1);
    }
  }

  /** The locks stack: after n grants to a session the key is refused to every other one until the n-th unlock. */
  lemma LocksStack(t: LockTable, s: Session, u: Session, key: int, n: nat, k: nat)
    requires s != u && forall e | e in t :: e.1 != key
    ensures HeldByOther(Unlocks(Grants(t, s, key, n), s, key, k), u, key) <==> k < n
  {
    GrantsCount(t, s, key, n);
    UnlocksCount(Grants(t, s, key, n), s, key, k);
    var after := Unlocks(Grants(t, s, key, n), s, key, k);
    if k < n {
      assert (s, key) in after && (s, key).1 == key;
    }
  }

  ghost predicate OneHolder(t: LockTable) {
    forall e, f | e in t && f in t && e.1 == f.1 :: e == f
  }

  ghost predicate NoStacking(t: LockTable) {
    forall e | e in t :: t[e] == 1
  }

  // ---------------------------------------------------------------- one renderer

  /** The connections of a pool of n. */
  function Connections(n: nat): (s: set<nat>)
    ensures |s| == n && forall j: nat :: j in s <==> j < n
  {
    if n == 0 then {} else Connections(n - 1) + {n - 1}
  }

  class LockServer {
    var table: LockTable

    constructor ()
      ensures table == map[]
    {
      table := map[];
    }

    method TryAdvisoryLock(s: Session, key: int) returns (got: bool)
      modifies this
      ensures got == !HeldByOther(old(table), s, key)
      ensures table == if got then Grant(old(table), s, key) else old(table)
    {
      got := !HeldByOther(table, s, key);
      if got {
        table := Grant(table, s, key);
      }
    }

    method AdvisoryUnlock(s: Session, key: int)
      modifies this
      ensures table == Unlock(old(table), s, key)
    {
      table := Unlock(table, s, key);
    }
  }

  function LockKeys(maxPages: nat): (keys: seq<int>)
    ensures |keys| == maxPages && forall i | 0 <= i < maxPages :: keys[i] == RENDER_LOCK_BASE_KEY + i
  {
    seq(maxPages, i => RENDER_LOCK_BASE_KEY + i)
  }

  predicate Taken(t: LockTable, key: int) {
    exists e | e in t :: e.1 == key
  }

  ghost predicate AllTaken(t: LockTable, keys: seq<int>, i: nat)
    requires i <= |keys|
  {
    forall k | 0 <= k < i :: Taken(t, keys[k])
  }

  predicate HoldsNothing(t: LockTable, s: Session) {
    forall e | e in t :: e.0 != s
  }

  class PlaywrightRenderer {
    const proc: nat
    const lockKeys: seq<int>
    const server: LockServer
    /** The connections in the pool. */
    var idle: set<nat>

    /** A connection in the pool holds no lock. */
    ghost predicate Valid()
      reads this, server
    {
      forall j | j in idle :: HoldsNothing(server.table, Session(proc, j))
    }

    constructor (proc: nat, server: LockServer, maxPages: nat := MAX_CONCURRENT_PAGES)
      requires forall j :: HoldsNothing(server.table, Session(proc, j))
      ensures Valid() && this.proc == proc && this.server == server
      ensures lockKeys == LockKeys(maxPages) && idle == Connections(maxPages)
    {
      this.proc := proc;
      this.server := server;
      lockKeys := LockKeys(maxPages);
      idle := Connections(maxPages);
    }

    /** One pass of _acquire_slot over the keys, by a coroutine that runs alone. None is a coroutine that has to wait:
        for a connection, or for the next pass. Otherwise the slot is the first one nobody has. */
    method AcquireSlot() returns (slot: Option<(nat, int)>)
      requires Valid()
      modifies this, server
      ensures Valid()
      ensures slot.Some? ==> slot.value.0 in old(idle) && idle == old(idle) - {slot.value.0}
      ensures slot.Some? ==> exists i | 0 <= i < |lockKeys| ::
                lockKeys[i] == slot.value.1 && AllTaken(old(server.table), lockKeys, i)
      ensures slot.Some? ==> !Taken(old(server.table), slot.value.1)
                             && server.table == old(server.table)[(Session(proc, slot.value.0), slot.value.1) := 1]
      ensures slot.None? ==> idle == old(idle) && server.table == old(server.table)
      ensures slot.None? <==> old(idle) == {} || AllTaken(old(server.table), lockKeys, |lockKeys|)
    {
      if idle == {} {
        return None;
      }
      for i := 0 to |lockKeys|
        invariant idle == old(idle) && server.table == old(server.table)
        invariant AllTaken(server.table, lockKeys, i)
      {
        var conn :| conn in idle;
        idle := idle - {conn};
        var got := server.TryAdvisoryLock(Session(proc, conn), lockKeys[i]);
        if got {
          return Some((conn, lockKeys[i]));
        }
        idle := idle + {conn};
      }
      return None;
    }

    /** Undoes AcquireSlot for the session that has the slot: the table loses exactly this entry. */
    method ReleaseSlot(conn: nat, key: int)
      requires Valid() && conn !in idle
      requires forall e | e in server.table && e.0 == Session(proc, conn) :: e.1 == key && server.table[e] == 1
      modifies this, server
      ensures Valid()
      ensures server.table == old(server.table) - {(Session(proc, conn), key)} && idle == old(idle) + {conn}
    {
      server.AdvisoryUnlock(Session(proc, conn), key);
      idle := idle + {conn};
    }
  }

  // ---------------------------------------------------------------- all processes

  /** A coroutine inside render(): waiting for a connection to try slot i with, holding one and about to try, refused,
      rendering in slot i, or done and about to give its connection back. */
  datatype Coro = Waiting(slot: nat) | Trying(conn: nat, slot: nat) | Refused(conn: nat, slot: nat)
                | Rendering(conn: nat, slot: nat) | Unlocked(conn: nat)

  datatype Proc = Proc(limit: nat, idle: set<nat>, coros: map<nat, Coro>)

  /** `procs` are the live processes; the sessions of the others last until the server notices. */
  datatype World = World(table: LockTable, procs: map<nat, Proc>, started: nat)

  datatype Move =
    | Start(limit: nat)
    | Arrive(p: nat, c: nat)
    | Take(p: nat, c: nat, conn: nat)
    | Try(p: nat, c: nat)
    | PutBack(p: nat, c: nat)
    | Finish(p: nat, c: nat)
    | Leave(p: nat, c: nat)
    | Crash(p: nat)
    | Disconnect(p: nat, conn: nat)

  predicate In(w: World, p: nat, c: nat) {
    p in w.procs && c in w.procs[p].coros
  }

  function CoroOf(w: World, p: nat, c: nat): Coro
    requires In(w, p, c)
  {
    w.procs[p].coros[c]
  }

  predicate Enabled(w: World, m: Move) {
    match m
    case Start(_) => true
    case Arrive(p, c) => p in w.procs && c !in w.procs[p].coros
    case Take(p, c, conn) => In(w, p, c) && CoroOf(w, p, c).Waiting? && conn in w.procs[p].idle
    case Try(p, c) => In(w, p, c) && CoroOf(w, p, c).Trying?
    case PutBack(p, c) => In(w, p, c) && CoroOf(w, p, c).Refused?
    case Finish(p, c) => In(w, p, c) && CoroOf(w, p, c).Rendering?
    case Leave(p, c) => In(w, p, c) && CoroOf(w, p, c).Unlocked?
    case Crash(p) => p in w.procs
    case Disconnect(p, _) => p !in w.procs && p < w.started
  }

  /** The position after slot i: the next key, or the first one again after a pause. */
  function NextSlot(i: nat, limit: nat): nat {
    if i + 1 < limit then i + 1 else 0
  }

  function Become(x: Proc, c: nat, y: Coro): Proc {
    x.(coros := x.coros[c := y])
  }

  function TableAfter(w: World, m: Move): LockTable
    requires Enabled(w, m)
  {
    match m
    case Try(p, c) =>
      var s, key := Session(p, CoroOf(w, p, c).conn), RENDER_LOCK_BASE_KEY + CoroOf(w, p, c).slot;
      if HeldByOther(w.table, s, key) then w.table else Grant(w.table, s, key)
    case Finish(p, c) => Unlock(w.table, Session(p, CoroOf(w, p, c).conn), RENDER_LOCK_BASE_KEY + CoroOf(w, p, c).slot)
    case Disconnect(p, conn) => EndSession(w.table, Session(p, conn))
    case _ => w.table
  }

  /** What a step of coroutine c does to its own process. */
  function ProcAfter(w: World, m: Move): Proc
    requires Enabled(w, m) && (m.Arrive? || m.Take? || m.Try? || m.PutBack? || m.Finish? || m.Leave?)
  {
    var x := w.procs[m.p];
    match m
    case Arrive(p, c) => Become(x, c, Waiting(0))
    case Take(p, c, conn) => Become(x, c, Trying(conn, x.coros[c].slot)).(idle := x.idle - {conn})
    case Try(p, c) =>
      var y := x.coros[c];
      if HeldByOther(w.table, Session(p, y.conn), RENDER_LOCK_BASE_KEY + y.slot)
      then Become(x, c, Refused(y.conn, y.slot)) else Become(x, c, Rendering(y.conn, y.slot))
    case PutBack(p, c) =>
      Become(x, c, Waiting(NextSlot(x.coros[c].slot, x.limit))).(idle := x.idle + {x.coros[c].conn})
    case Finish(p, c) => Become(x, c, Unlocked(x.coros[c].conn))
    case Leave(p, c) => x.(coros := x.coros - {c}, idle := x.idle + {x.coros[c].conn})
  }

  function Next(w: World, m: Move): World
    requires Enabled(w, m)
  {
    match m
    case Start(limit) =>
      World(w.table, w.procs[w.started := Proc(limit, Connections(limit), map[])], w.started + 1)
    case Crash(p) => w.(procs := w.procs - {p})
    case Disconnect(_, _) => w.(table := TableAfter(w, m))
    case _ => World(TableAfter(w, m), w.procs[m.p := ProcAfter(w, m)], w.started)
  }

  ghost predicate Run(w: World, ms: seq<Move>)
    decreases |ms|
  {
    ms == [] || (Enabled(w, ms[0]) && Run(Next(w, ms[0]), ms[1..]))
  }

  ghost function After(w: World, ms: seq<Move>): World
    requires Run(w, ms)
    decreases |ms|
  {
    if ms == [] then w else After(Next(w, ms[0]), ms[1..])
  }

  const NOTHING := World(map[], map[], 0)

  // ---------------------------------------------------------------- pool membership and lock ownership

  predicate Busy(y: Coro) {
    !y.Waiting?
  }

  predicate Has(x: Proc, c: nat, conn: nat) {
    c in x.coros && Busy(x.coros[c]) && x.coros[c].conn == conn
  }

  ghost predicate Distinct(x: Proc) {
    forall c: nat, d: nat, conn: nat | Has(x, c, conn) && Has(x, d, conn) :: c == d
  }

  ghost predicate Apart(x: Proc) {
    forall c: nat, conn: nat | Has(x, c, conn) :: conn < x.limit && conn !in x.idle
  }

  ghost predicate IdleInRange(x: Proc) {
    forall j | j in x.idle :: j < x.limit
  }

  ghost predicate SlotsInRange(x: Proc) {
    forall c | c in x.coros && !x.coros[c].Unlocked? :: x.coros[c].slot < x.limit || x.coros[c] == Waiting(0)
  }

  /** Every connection of a process is in its pool or with one coroutine. */
  ghost predicate PoolOk(x: Proc) {
    IdleInRange(x) && Distinct(x) && Apart(x) && SlotsInRange(x)
  }

  function BusyCoros(x: Proc): set<nat> {
    set c | c in x.coros && Busy(x.coros[c])
  }

  ghost predicate Conserved(x: Proc) {
    |x.idle| + |BusyCoros(x)| == x.limit
  }

  ghost predicate Locked(w: World, p: nat, x: Proc) {
    forall c | c in x.coros && x.coros[c].Rendering? ::
      (Session(p, x.coros[c].conn), RENDER_LOCK_BASE_KEY + x.coros[c].slot) in w.table
  }

  ghost predicate Backed(w: World, p: nat, x: Proc) {
    forall conn: nat, key: int {:trigger HasRenderer(x, conn, key)} | (Session(p, conn), key) in w.table ::
      HasRenderer(x, conn, key)
  }

  /** The locks of a live process are those of its rendering coroutines. */
  ghost predicate LocksMatch(w: World, p: nat, x: Proc) {
    Locked(w, p, x) && Backed(w, p, x)
  }

  ghost predicate HasRenderer(x: Proc, conn: nat, key: int) {
    exists c :: Has(x, c, conn) && x.coros[c].Rendering? && RENDER_LOCK_BASE_KEY + x.coros[c].slot == key
  }

  ghost predicate ProcOk(w: World, p: nat, x: Proc) {
    PoolOk(x) && Conserved(x) && LocksMatch(w, p, x)
  }

  ghost predicate Inv(w: World) {
    && OneHolder(w.table) && NoStacking(w.table)
    && (forall e | e in w.table :: e.0.proc < w.started)
    && (forall p | p in w.procs :: p < w.started && ProcOk(w, p, w.procs[p]))
  }

  /** The moves of one coroutine in a live process. */
  predicate Local(m: Move) {
    m.Arrive? || m.Take? || m.Try? || m.PutBack? || m.Finish? || m.Leave?
  }

  /** Only Take gives a coroutine a connection. */
  lemma HasAfter(w: World, m: Move, c: nat, conn: nat)
    requires Enabled(w, m) && Local(m)
    ensures Has(ProcAfter(w, m), c, conn) ==> Has(w.procs[m.p], c, conn) || (m.Take? && c == m.c && conn == m.conn)
  {
  }

  lemma DistinctKept(w: World, m: Move)
    requires Enabled(w, m) && Local(m) && Distinct(w.procs[m.p]) && Apart(w.procs[m.p])
    ensures Distinct(ProcAfter(w, m))
  {
    var y := ProcAfter(w, m);
    forall c: nat, d: nat, conn: nat | Has(y, c, conn) && Has(y, d, conn) ensures c == d {
      HasAfter(w, m, c, conn);
      HasAfter(w, m, d, conn);
    }
  }

  lemma ApartKept(w: World, m: Move)
    requires Enabled(w, m) && Local(m) && Distinct(w.procs[m.p]) && Apart(w.procs[m.p]) && IdleInRange(w.procs[m.p])
    ensures Apart(ProcAfter(w, m)) && IdleInRange(ProcAfter(w, m))
  {
    var x, y := w.procs[m.p], ProcAfter(w, m);
    if m.PutBack? || m.Leave? {
      assert Has(x, m.c, x.coros[m.c].conn);
    }
    forall c: nat, conn: nat | Has(y, c, conn) ensures conn < y.limit && conn !in y.idle {
      HasAfter(w, m, c, conn);
    }
  }

  lemma SlotsKept(w: World, m: Move)
    requires Enabled(w, m) && Local(m) && IdleInRange(w.procs[m.p]) && SlotsInRange(w.procs[m.p])
    ensures SlotsInRange(ProcAfter(w, m))
  {
  }

  /** Connection and coroutine counts add up after any move of a coroutine. */
  lemma ConservedKept(w: World, m: Move)
    requires Enabled(w, m) && Local(m) && Apart(w.procs[m.p]) && Conserved(w.procs[m.p])
    ensures Conserved(ProcAfter(w, m))
  {
    var x, y := w.procs[m.p], ProcAfter(w, m);
    if m.Take? {
      ConnectionTaken(x, m.c, m.conn);
    } else if m.PutBack? || m.Leave? {
      assert Has(x, m.c, x.coros[m.c].conn);
      ConnectionReturned(x, m.c);
      ConnectionReturnedWaiting(x, m.c, NextSlot(if m.PutBack? then x.coros[m.c].slot else 0, x.limit));
    } else {
      NoConnectionMoves(x, m.c, y.coros[m.c]);
      assert y == Become(x, m.c, y.coros[m.c]);
    }
  }

  lemma ConnectionTaken(x: Proc, c: nat, conn: nat)
    requires c in x.coros && x.coros[c].Waiting? && conn in x.idle && Conserved(x)
    ensures Conserved(Become(x, c, Trying(conn, x.coros[c].slot)).(idle := x.idle - {conn}))
  {
    assert BusyCoros(Become(x, c, Trying(conn, x.coros[c].slot)).(idle := x.idle - {conn})) == BusyCoros(x) + {c};
  }

  lemma ConnectionReturned(x: Proc, c: nat)
    requires c in x.coros && Busy(x.coros[c]) && x.coros[c].conn !in x.idle && Conserved(x)
    ensures Conserved(x.(coros := x.coros - {c}, idle := x.idle + {x.coros[c].conn}))
  {
    assert BusyCoros(x.(coros := x.coros - {c}, idle := x.idle + {x.coros[c].conn})) == BusyCoros(x) - {c};
  }

  lemma ConnectionReturnedWaiting(x: Proc, c: nat, slot: nat)
    requires c in x.coros && Busy(x.coros[c]) && x.coros[c].conn !in x.idle && Conserved(x)
    ensures Conserved(Become(x, c, Waiting(slot)).(idle := x.idle + {x.coros[c].conn}))
  {
    assert BusyCoros(Become(x, c, Waiting(slot)).(idle := x.idle + {x.coros[c].conn})) == BusyCoros(x) - {c};
  }

  lemma NoConnectionMoves(x: Proc, c: nat, y: Coro)
    requires Conserved(x) && Busy(y) == (c in x.coros && Busy(x.coros[c]))
    ensures Conserved(Become(x, c, y))
  {
    assert BusyCoros(Become(x, c, y)) == BusyCoros(x);
  }

  /** A session that is about to try holds nothing. */
  lemma TryingHoldsNothing(w: World, p: nat, x: Proc, c: nat)
    requires c in x.coros && Busy(x.coros[c]) && !x.coros[c].Rendering? && Distinct(x) && Backed(w, p, x)
    ensures HoldsNothing(w.table, Session(p, x.coros[c].conn))
  {
    assert Has(x, c, x.coros[c].conn);
    forall e | e in w.table ensures e.0 != Session(p, x.coros[c].conn) {
      if e.0.proc == p {
        assert HasRenderer(x, e.0.conn, e.1);
      }
    }
  }

  lemma TableKept(w: World, m: Move)
    requires Inv(w) && Enabled(w, m)
    ensures OneHolder(TableAfter(w, m)) && NoStacking(TableAfter(w, m))
    ensures forall e | e in TableAfter(w, m) :: e.0.proc < w.started
  {
    if m.Try? {
      TryingHoldsNothing(w, m.p, w.procs[m.p], m.c);
    }
  }

  /** What a move changes in the table belongs to its own session. */
  predicate Touches(w: World, m: Move, s: Session)
    requires Enabled(w, m)
  {
    if m.Try? || m.Finish? then s == Session(m.p, CoroOf(w, m.p, m.c).conn)
    else m.Disconnect? && s == Session(m.p, m.conn)
  }

  lemma OthersKeepLocks(w: World, m: Move, e: (Session, int))
    requires Enabled(w, m) && !Touches(w, m, e.0)
    ensures e in w.table <==> e in TableAfter(w, m)
  {
  }

  lemma OtherProcKept(w: World, m: Move, v: World, p: nat)
    requires Enabled(w, m) && v.table == TableAfter(w, m) && p in w.procs && (Local(m) ==> p != m.p)
    requires LocksMatch(w, p, w.procs[p])
    ensures LocksMatch(v, p, w.procs[p])
  {
    forall e: (Session, int) | e.0.proc == p ensures e in w.table <==> e in v.table {
      OthersKeepLocks(w, m, e);
    }
  }

  lemma LockedKept(w: World, m: Move, v: World)
    requires Enabled(w, m) && Local(m) && v.table == TableAfter(w, m)
    requires Locked(w, m.p, w.procs[m.p]) && Distinct(w.procs[m.p])
    ensures Locked(v, m.p, ProcAfter(w, m))
  {
    var x, y := w.procs[m.p], ProcAfter(w, m);
    forall c | c in y.coros && y.coros[c].Rendering?
      ensures (Session(m.p, y.coros[c].conn), RENDER_LOCK_BASE_KEY + y.coros[c].slot) in v.table
    {
      if c != m.c {
        assert Has(x, c, x.coros[c].conn);
        assert m.c in x.coros && Busy(x.coros[m.c]) ==> Has(x, m.c, x.coros[m.c].conn);
        OthersKeepLocks(w, m, (Session(m.p, y.coros[c].conn), RENDER_LOCK_BASE_KEY + y.coros[c].slot));
      }
    }
  }

  /** Before Try the session held nothing, so what it holds afterwards is the slot it tried. */
  lemma TryEntryBacked(w: World, m: Move, x: Proc, e: (Session, int))
    requires Enabled(w, m) && m.Try? && x == w.procs[m.p] && Distinct(x) && Backed(w, m.p, x)
    requires e in TableAfter(w, m) && e.0 == Session(m.p, x.coros[m.c].conn)
    ensures HasRenderer(ProcAfter(w, m), e.0.conn, e.1)
  {
    TryingHoldsNothing(w, m.p, x, m.c);
    assert e !in w.table;
    assert Has(ProcAfter(w, m), m.c, e.0.conn);
  }

  /** A session holds nothing once its coroutine has finished rendering. */
  lemma FinishClears(w: World, m: Move, x: Proc)
    requires Enabled(w, m) && m.Finish? && x == w.procs[m.p] && Distinct(x) && Backed(w, m.p, x) && NoStacking(w.table)
    ensures HoldsNothing(TableAfter(w, m), Session(m.p, x.coros[m.c].conn))
  {
    var s, key := Session(m.p, x.coros[m.c].conn), RENDER_LOCK_BASE_KEY + x.coros[m.c].slot;
    assert Has(x, m.c, s.conn);
    forall e | e in w.table && e.0 == s ensures e.1 == key {
      assert HasRenderer(x, e.0.conn, e.1);
    }
  }

  lemma OtherCoroBacked(w: World, m: Move, x: Proc, conn: nat, key: int)
    requires Enabled(w, m) && Local(m) && x == w.procs[m.p] && HasRenderer(x, conn, key)
    requires (m.Try? || m.Finish?) ==> conn != x.coros[m.c].conn
    ensures HasRenderer(ProcAfter(w, m), conn, key)
  {
    var c :| Has(x, c, conn) && x.coros[c].Rendering? && RENDER_LOCK_BASE_KEY + x.coros[c].slot == key;
    assert Has(ProcAfter(w, m), c, conn);
  }

  lemma BackedKept(w: World, m: Move, v: World, x: Proc)
    requires Enabled(w, m) && Local(m) && v.table == TableAfter(w, m) && x == w.procs[m.p]
    requires Distinct(x) && Backed(w, m.p, x) && NoStacking(w.table)
    ensures Backed(v, m.p, ProcAfter(w, m))
  {
    forall e | e in v.table && e.0.proc == m.p ensures HasRenderer(ProcAfter(w, m), e.0.conn, e.1) {
      if !Touches(w, m, e.0) {
        OthersKeepLocks(w, m, e);
        OtherCoroBacked(w, m, x, e.0.conn, e.1);
      } else if m.Try? {
        TryEntryBacked(w, m, x, e);
      } else {
        FinishClears(w, m, x);
      }
    }
  }

  lemma OwnProcKept(w: World, m: Move, v: World)
    requires Inv(w) && Enabled(w, m) && Local(m) && v.table == TableAfter(w, m)
    ensures ProcOk(v, m.p, ProcAfter(w, m))
  {
    assert ProcOk(w, m.p, w.procs[m.p]);
    DistinctKept(w, m);
    ApartKept(w, m);
    SlotsKept(w, m);
    ConservedKept(w, m);
    LockedKept(w, m, v);
    BackedKept(w, m, v, w.procs[m.p]);
  }

  lemma MoveKeepsInv(w: World, m: Move)
    requires Inv(w) && Enabled(w, m)
    ensures Inv(Next(w, m))
  {
    var v := Next(w, m);
    TableKept(w, m);
    forall p | p in v.procs ensures p < v.started && ProcOk(v, p, v.procs[p]) {
      if p in w.procs {
        assert ProcOk(w, p, w.procs[p]);
        if Local(m) && p == m.p {
          OwnProcKept(w, m, v);
        } else {
          OtherProcKept(w, m, v, p);
        }
      }
    }
  }

  lemma {:induction false} RunKeepsInv(w: World, ms: seq<Move>)
    requires Inv(w) && Run(w, ms)
    ensures Inv(After(w, ms))
    decreases |ms|
  {
    if ms != [] {
      MoveKeepsInv(w, ms[0]);
      RunKeepsInv(Next(w, ms[0]), ms[1..]);
    }
  }

  // ---------------------------------------------------------------- the cap

  /** The pages open in live processes, by process and coroutine. */
  function Pages(w: World): set<(nat, nat)> {
    set p, c | p in w.procs && c in w.procs[p].coros && w.procs[p].coros[c].Rendering? :: (p, c)
  }

  function SlotOf(w: World, page: (nat, nat)): nat
    requires page in Pages(w)
  {
    w.procs[page.0].coros[page.1].slot
  }

  lemma PageFacts(w: World, p: nat, c: nat)
    requires Inv(w) && In(w, p, c) && CoroOf(w, p, c).Rendering?
    ensures CoroOf(w, p, c).slot < w.procs[p].limit
    ensures (Session(p, CoroOf(w, p, c).conn), RENDER_LOCK_BASE_KEY + CoroOf(w, p, c).slot) in w.table
  {
    assert ProcOk(w, p, w.procs[p]);
    RenderingFacts(w, p, w.procs[p], c);
  }

  lemma RenderingFacts(w: World, p: nat, x: Proc, c: nat)
    requires PoolOk(x) && Locked(w, p, x) && c in x.coros && x.coros[c].Rendering?
    ensures x.coros[c].slot < x.limit
    ensures (Session(p, x.coros[c].conn), RENDER_LOCK_BASE_KEY + x.coros[c].slot) in w.table
  {
  }

  lemma OneCoroPerConnection(w: World, p: nat, c: nat, d: nat)
    requires Inv(w) && In(w, p, c) && In(w, p, d) && CoroOf(w, p, c).Rendering? && CoroOf(w, p, d).Rendering?
    requires CoroOf(w, p, c).conn == CoroOf(w, p, d).conn
    ensures c == d
  {
    var x := w.procs[p];
    assert ProcOk(w, p, x);
    assert Has(x, c, x.coros[c].conn) && Has(x, d, x.coros[d].conn);
  }

  ghost predicate SlotsDiffer(w: World) {
    forall a, b | a in Pages(w) && b in Pages(w) && SlotOf(w, a) == SlotOf(w, b) :: a == b
  }

  lemma OneHolderOf(t: LockTable, s: Session, u: Session, key: int)
    requires OneHolder(t) && (s, key) in t && (u, key) in t
    ensures s == u
  {
    assert (s, key).1 == (u, key).1;
  }

  lemma OnePagePerSlot(w: World)
    requires Inv(w)
    ensures SlotsDiffer(w)
  {
    forall a, b | a in Pages(w) && b in Pages(w) && SlotOf(w, a) == SlotOf(w, b) ensures a == b {
      PageFacts(w, a.0, a.1);
      PageFacts(w, b.0, b.1);
      OneHolderOf(w.table, Session(a.0, CoroOf(w, a.0, a.1).conn), Session(b.0, CoroOf(w, b.0, b.1).conn),
                  RENDER_LOCK_BASE_KEY + SlotOf(w, a));
      OneCoroPerConnection(w, a.0, a.1, b.1);
    }
  }

  lemma {:induction false} SlotsBoundPages(w: World, pages: set<(nat, nat)>, bound: nat)
    requires SlotsDiffer(w) && pages <= Pages(w) && forall a | a in pages :: SlotOf(w, a) < bound
    ensures |pages| <= bound
  {
    if bound > 0 {
      if a :| a in pages && SlotOf(w, a) == bound - 1 {
        SlotsBoundPages(w, pages - {a}, bound - 1);
      } else {
        SlotsBoundPages(w, pages, bound - 1);
      }
    } else {
      assert pages == {};
    }
  }

  /** However many processes run, with whatever limits, and whichever of them crash: the pages open at once are never
      more than the largest limit of a live process. */
  lemma CapHolds(ms: seq<Move>, max: nat)
    requires Run(NOTHING, ms)
    requires forall p | p in After(NOTHING, ms).procs :: After(NOTHING, ms).procs[p].limit <= max
    ensures |Pages(After(NOTHING, ms))| <= max
  {
    RunKeepsInv(NOTHING, ms);
    var w := After(NOTHING, ms);
    forall a | a in Pages(w) ensures SlotOf(w, a) < max {
      PageFacts(w, a.0, a.1);
    }
    OnePagePerSlot(w);
    SlotsBoundPages(w, Pages(w), max);
  }

  lemma IdleHoldsNothing(w: World, p: nat, x: Proc)
    requires PoolOk(x) && LocksMatch(w, p, x)
    ensures forall j | j in x.idle :: HoldsNothing(w.table, Session(p, j))
  {
    forall e, j | j in x.idle && e in w.table ensures e.0 != Session(p, j) {
      if e.0.proc == p {
        assert HasRenderer(x, e.0.conn, e.1);
      }
    }
  }

  /** Of every run: no slot has two holders or a stacked count, a connection in a pool holds nothing, and the
      connections of a live process are in its pool or with one coroutine each. */
  lemma SlotsAreSound(ms: seq<Move>)
    requires Run(NOTHING, ms)
    ensures var w := After(NOTHING, ms);
            && OneHolder(w.table) && NoStacking(w.table)
            && forall p | p in w.procs ::
                 && |w.procs[p].idle| + |BusyCoros(w.procs[p])| == w.procs[p].limit
                 && forall j | j in w.procs[p].idle :: HoldsNothing(w.table, Session(p, j))
  {
    RunKeepsInv(NOTHING, ms);
    var w := After(NOTHING, ms);
    forall p | p in w.procs ensures Conserved(w.procs[p])
    ensures forall j | j in w.procs[p].idle :: HoldsNothing(w.table, Session(p, j))
    {
      var x := w.procs[p];
      assert ProcOk(w, p, x);
      IdleHoldsNothing(w, p, x);
    }
  }

  predicate SlotIsOpen(w: World, slot: nat) {
    && (forall a | a in Pages(w) :: SlotOf(w, a) != slot)
    && (forall e | e in w.table && e.0.proc !in w.procs :: e.1 != RENDER_LOCK_BASE_KEY + slot)
  }

  /** The holder of a key renders in its slot or has crashed. */
  lemma HolderIsPage(w: World, e: (Session, int), slot: nat)
    requires Inv(w) && e in w.table && e.1 == RENDER_LOCK_BASE_KEY + slot
    ensures !SlotIsOpen(w, slot)
  {
    if e.0.proc in w.procs {
      var x := w.procs[e.0.proc];
      assert ProcOk(w, e.0.proc, x);
      assert HasRenderer(x, e.0.conn, e.1);
      var d :| Has(x, d, e.0.conn) && x.coros[d].Rendering? && RENDER_LOCK_BASE_KEY + x.coros[d].slot == e.1;
      assert (e.0.proc, d) in Pages(w) && SlotOf(w, (e.0.proc, d)) == slot;
    }
  }

  lemma FreeKeyIsOpenSlot(w: World, slot: nat)
    requires Inv(w)
    ensures !Taken(w.table, RENDER_LOCK_BASE_KEY + slot) <==> SlotIsOpen(w, slot)
  {
    if e :| e in w.table && e.1 == RENDER_LOCK_BASE_KEY + slot {
      HolderIsPage(w, e, slot);
    } else {
      forall a | a in Pages(w) ensures SlotOf(w, a) != slot {
        PageFacts(w, a.0, a.1);
      }
    }
  }

  /** A refusal is never spurious: a try succeeds exactly when nobody renders in that slot, and nobody who crashed doing
      so is still connected. */
  lemma RefusedOnlyWhenTaken(w: World, p: nat, c: nat)
    requires Inv(w) && In(w, p, c) && CoroOf(w, p, c).Trying?
    ensures CoroOf(Next(w, Try(p, c)), p, c).Rendering? <==> SlotIsOpen(w, CoroOf(w, p, c).slot)
  {
    var y := CoroOf(w, p, c);
    TrierHoldsNothing(w, p, c);
    FreeKeyIsOpenSlot(w, y.slot);
    SameVerdict(w.table, Session(p, y.conn), RENDER_LOCK_BASE_KEY + y.slot);
    assert CoroOf(Next(w, Try(p, c)), p, c).Rendering?
           <==> !HeldByOther(w.table, Session(p, y.conn), RENDER_LOCK_BASE_KEY + y.slot);
  }

  lemma TrierHoldsNothing(w: World, p: nat, c: nat)
    requires Inv(w) && In(w, p, c) && CoroOf(w, p, c).Trying?
    ensures HoldsNothing(w.table, Session(p, CoroOf(w, p, c).conn))
  {
    assert ProcOk(w, p, w.procs[p]);
    TryingHoldsNothing(w, p, w.procs[p], c);
  }

  lemma SameVerdict(t: LockTable, s: Session, key: int)
    requires HoldsNothing(t, s)
    ensures HeldByOther(t, s, key) <==> Taken(t, key)
  {
  }

  ghost predicate CanMove(w: World, p: nat) {
    exists m :: Enabled(w, m) && Local(m) && !m.Arrive? && m.p == p
  }

  lemma BusyCanMove(w: World, p: nat, c: nat)
    requires In(w, p, c) && Busy(CoroOf(w, p, c))
    ensures CanMove(w, p)
  {
    var y := CoroOf(w, p, c);
    var m := if y.Trying? then Try(p, c) else if y.Refused? then PutBack(p, c)
             else if y.Rendering? then Finish(p, c) else Leave(p, c);
    assert Enabled(w, m);
  }

  /** Nobody waits while holding: when a coroutine of a process with a slot waits, there is a connection for it, or a
      coroutine that has one can make a move. */
  lemma NoHoldAndWait(w: World, p: nat, c: nat)
    requires Inv(w) && In(w, p, c) && w.procs[p].limit > 0
    ensures CanMove(w, p)
  {
    var x := w.procs[p];
    assert Conserved(x) by {
      assert ProcOk(w, p, x);
    }
    if Busy(x.coros[c]) {
      BusyCanMove(w, p, c);
    } else if j :| j in x.idle {
      assert Enabled(w, Take(p, c, j));
    } else {
      var d :| d in BusyCoros(x);
      BusyCanMove(w, p, d);
    }
  }

  /** A process with one slot that nobody uses, and one that renders. */
  const FREE := Proc(1, {0}, map[])
  const OPEN := Proc(1, {}, map[0 := Rendering(0, 0)])

  ghost predicate CanOpen(w: World, p: nat) {
    && Enabled(w, Arrive(p, 0)) && Enabled(Next(w, Arrive(p, 0)), Take(p, 0, 0))
    && Enabled(Next(Next(w, Arrive(p, 0)), Take(p, 0, 0)), Try(p, 0))
  }

  /** A coroutine arrives at process p, takes connection 0 and tries its first slot. */
  ghost function Opened(w: World, p: nat): World
    requires CanOpen(w, p)
  {
    Next(Next(Next(w, Arrive(p, 0)), Take(p, 0, 0)), Try(p, 0))
  }

  /** With one free slot, and nobody on its key, it opens a page. */
  lemma OpensPage(w: World, p: nat)
    requires p in w.procs && w.procs[p] == FREE && w.table == map[]
    ensures CanOpen(w, p)
    ensures Opened(w, p) == World(map[(Session(p, 0), RENDER_LOCK_BASE_KEY) := 1], w.procs[p := OPEN], w.started)
  {
    var w1 := Next(w, Arrive(p, 0));
    assert w1.procs[p] == Proc(1, {0}, map[0 := Waiting(0)]);
    var w2 := Next(w1, Take(p, 0, 0));
    assert w2.procs[p] == Proc(1, {}, map[0 := Trying(0, 0)]);
    var w3 := Next(w2, Try(p, 0));
    assert w3.procs[p] == OPEN;
    assert w3.procs == w.procs[p := OPEN];
    assert w3.table == map[(Session(p, 0), RENDER_LOCK_BASE_KEY) := 1];
  }

  const TWO_FREE := World(map[], map[0 := FREE, 1 := FREE], 2)

  lemma TwoStarts()
    ensures Next(Next(NOTHING, Start(1)), Start(1)) == TWO_FREE
  {
    assert Connections(1) == {0};
  }

  /** The world after the server has lost the connection of the page that process 0 opened. */
  function Lost(w: World): World {
    w.(table := EndSession(w.table, Session(0, 0)))
  }

  lemma LostFreesTheKey(w: World)
    requires w.table == map[(Session(0, 0), RENDER_LOCK_BASE_KEY) := 1] && w.procs == TWO_FREE.procs[0 := OPEN]
    ensures Lost(w).table == map[] && Lost(w).procs[1] == FREE
  {
  }

  lemma TwoOpen(w: World)
    requires w.procs == TWO_FREE.procs[0 := OPEN][1 := OPEN]
    ensures |Pages(w)| == 2 && forall p | p in w.procs :: w.procs[p].limit == 1
  {
    assert Pages(w) == {(0, 0), (1, 0)};
  }

  predicate RendersWith(x: Proc, conn: nat) {
    exists c | c in x.coros :: x.coros[c].Rendering? && x.coros[c].conn == conn
  }

  /** The server loses a session of a live process: what holds of every run goes on holding if and only if no page is open
      on that connection. */
  lemma LosingConnection(w: World, p: nat, conn: nat)
    requires Inv(w) && p in w.procs
    ensures Inv(w.(table := EndSession(w.table, Session(p, conn)))) <==> !RendersWith(w.procs[p], conn)
  {
    var v := w.(table := EndSession(w.table, Session(p, conn)));
    if c :| c in w.procs[p].coros && w.procs[p].coros[c].Rendering? && w.procs[p].coros[c].conn == conn {
      LostPageBreaks(w, p, c, v);
    } else {
      forall q | q in w.procs ensures ProcOk(v, q, w.procs[q]) {
        assert ProcOk(w, q, w.procs[q]);
        LosingKeeps(w, p, conn, q, v);
      }
    }
  }

  lemma LostPageBreaks(w: World, p: nat, c: nat, v: World)
    requires p in w.procs && c in w.procs[p].coros && w.procs[p].coros[c].Rendering? && v.procs == w.procs
    requires v.table == EndSession(w.table, Session(p, w.procs[p].coros[c].conn))
    ensures !Inv(v)
  {
    assert (Session(p, v.procs[p].coros[c].conn), RENDER_LOCK_BASE_KEY + v.procs[p].coros[c].slot) !in v.table;
    assert !Locked(v, p, v.procs[p]);
    assert !ProcOk(v, p, v.procs[p]);
  }

  lemma LosingKeeps(w: World, p: nat, conn: nat, q: nat, v: World)
    requires q in w.procs && LocksMatch(w, q, w.procs[q]) && (p == q ==> !RendersWith(w.procs[p], conn))
    requires v == w.(table := EndSession(w.table, Session(p, conn)))
    ensures LocksMatch(v, q, w.procs[q])
  {
  }

  /** And then the cap is gone: from two processes with one slot each, when the connection of an open page is lost, the
      server gives its slot away and two pages are open under a limit of one. */
  lemma LostConnectionBreaksCap()
    ensures Next(Next(NOTHING, Start(1)), Start(1)) == TWO_FREE
    ensures CanOpen(TWO_FREE, 0) && CanOpen(Lost(Opened(TWO_FREE, 0)), 1)
    ensures var w := Opened(Lost(Opened(TWO_FREE, 0)), 1);
            |Pages(w)| == 2 && forall p | p in w.procs :: w.procs[p].limit == 1
  {
    TwoStarts();
    OpensPage(TWO_FREE, 0);
    LostFreesTheKey(Opened(TWO_FREE, 0));
    OpensPage(Lost(Opened(TWO_FREE, 0)), 1);
    TwoOpen(Opened(Lost(Opened(TWO_FREE, 0)), 1));
  }
}
