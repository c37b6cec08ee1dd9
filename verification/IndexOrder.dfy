/** The open-room index when cache writes are steps of their own: a use case commits, and its SaveRoom or
    RemoveRoom (internal/infrastructure/redis/room_state_store.go) follows at any later time. */
module IndexOrder {
  import opened Types
  import opened Game
  import opened Store
  import opened StoreInvariant
  import opened Transactions
  import opened Steps
  import opened Persistence
  import opened Runs
  import opened LiveRounds
  import opened Redis
  import opened Listing
  import opened Lobby
  import opened Sessions

  /** A SaveRoom or RemoveRoom on its way: it carries the row that the number-th commit of the room left. */
  datatype Write = Write(room: Id, number: nat)

  /** rows and last are history: the row that each commit of a room left, and which write of the room was
      applied last. */
  datatype Cache = Cache(db: DB, open: map<Id, Summary>, pending: map<nat, Write>, rows: map<Id, seq<RoomRow>>, last: map<Id, nat>)

  const EMPTY_CACHE := Cache(EMPTY, map[], map[], map[], map[])

  /** The use cases that write the summary of their room: all that take a seat, start, settle or end it. */
  predicate Writes(req: Request) {
    req.CreateRoomFor? || req.JoinRoom? || req.StartRound? || req.SettleRound? || req.CloseRoom? || req.AbortRoom?
  }

  function RowsOf(s: Cache, r: Id): seq<RoomRow> {
    if r in s.rows then s.rows[r] else []
  }

  /** A commit that its use case follows with a write. */
  ghost predicate CommitRow(s: Cache, c: nat, req: Request, w: Work, t: Cache) {
    && c !in s.pending && Writes(req) && Transacts(s.db, req, w) && w.answer.Success? && w.answer != Success(Joined(true))
    && req.room in w.after.rooms
    && t == s.(db := w.after, pending := s.pending[c := Write(req.room, |RowsOf(s, req.room)|)],
               rows := s.rows[req.room := RowsOf(s, req.room) + [w.after.rooms[req.room]]])
  }

  /** Every other transaction: failures, bets, wallets, and a join that finds its seat taken by itself. */
  ghost predicate NoWrite(s: Cache, req: Request, w: Work, t: Cache) {
    && Transacts(s.db, req, w) && t == s.(db := w.after)
    && (Writes(req) && w.answer.Success? ==> w.answer == Success(Joined(true)))
  }

  /** SaveRoom, or RemoveRoom for a room that has closed. */
  predicate ApplyWrite(s: Cache, c: nat, t: Cache) {
    && c in s.pending && s.pending[c].room in s.rows && s.pending[c].number < |s.rows[s.pending[c].room]|
    && var r := s.pending[c].room;
    && var row := s.rows[r][s.pending[c].number];
    && t == s.(open := if row.status == Open then s.open[r := SummaryOf(RoomVal(r, row, None))] else s.open - {r},
               pending := s.pending - {c}, last := s.last[r := s.pending[c].number])
  }

  /** A listing that went to the store has read open room r, and will save what it read. */
  predicate ReadRow(s: Cache, c: nat, r: Id, t: Cache) {
    && c !in s.pending && r in s.db.rooms && s.db.rooms[r].status == Open && |RowsOf(s, r)| > 0
    && t == s.(pending := s.pending[c := Write(r, |RowsOf(s, r)| - 1)])
  }

  datatype CacheEvent =
    | OnCommit(c: nat, req: Request, w: Work) | OnNoWrite(req: Request, w: Work) | OnRead(c: nat, r: Id) | OnApply(c: nat)

  ghost predicate CacheNext(s: Cache, e: CacheEvent, t: Cache) {
    match e
    case OnCommit(c, req, w) => CommitRow(s, c, req, w, t)
    case OnNoWrite(req, w) => NoWrite(s, req, w, t)
    case OnRead(c, r) => ReadRow(s, c, r, t)
    case OnApply(c) => ApplyWrite(s, c, t)
  }

  ghost predicate CacheRun(states: seq<Cache>, events: seq<CacheEvent>) {
    && |states| == |events| + 1 && states[0] == EMPTY_CACHE
    && forall i :: 0 <= i < |events| ==> CacheNext(states[i], events[i], states[i + 1])
  }

  // ---- rows only move on -------------------------------------------------------------------

  function Openness(status: RoomStatus): nat {
    match status case Open => 2 case Closing => 1 case Closed => 0
  }

  /** b is a or a later row of the same room. What a summary shows of it tells which. */
  ghost predicate NotBefore(a: RoomRow, b: RoomRow) {
    && b.owner == a.owner && b.createdAt == a.createdAt
    && Openness(b.status) <= Openness(a.status) && a.currentRound <= b.currentRound && |a.seats| <= |b.seats|
    && (b.status == a.status && b.currentRound == a.currentRound && |b.seats| == |a.seats| ==> b == a)
  }

  lemma NotBeforeChains(a: RoomRow, b: RoomRow, c: RoomRow)
    requires NotBefore(a, b) && NotBefore(b, c)
    ensures NotBefore(a, c)
    ensures c == a ==> b == a
  {
  }

  /** Only room r changed, and its row moved on or is new. */
  ghost predicate MovesOn(db: DB, after: DB, r: Id) {
    r in after.rooms && after.rooms == db.rooms[r := after.rooms[r]] && (r in db.rooms ==> NotBefore(db.rooms[r], after.rooms[r]))
  }

  lemma CommitMovesOn(db: DB, req: Request, w: Work)
    requires Reachable(db) && Transacts(db, req, w) && Writes(req) && w.answer.Success?
    ensures MovesOn(db, w.after, req.room) && (w.answer == Success(Joined(true)) ==> w.after.rooms == db.rooms)
  {
    TransactionIs(db, req, w);
    if req.CreateRoomFor? || req.JoinRoom? {
      SeatMovesOn(db, req, w.env);
    } else {
      RoundMovesOn(db, req, w.env);
      RoundsAreNotJoins(db, req, w.env);
    }
  }

  lemma SeatMovesOn(db: DB, req: Request, env: Env)
    requires (req.CreateRoomFor? || req.JoinRoom?) && Perform(db, req, env).Success?
    ensures MovesOn(db, Perform(db, req, env).value.db, req.room)
    ensures Perform(db, req, env).value.reply == Joined(true) ==> Perform(db, req, env).value.db == db
  {
    if req.CreateRoomFor? {
      CreateIs(db, req.room, req.player, env.now);
    } else {
      JoinMovesOn(db, req.room, req.player, env.now);
    }
  }

  lemma RoundsAreNotJoins(db: DB, req: Request, env: Env)
    requires Perform(db, req, env).Success? && (req.StartRound? || req.SettleRound? || req.CloseRoom? || req.AbortRoom?)
    ensures Perform(db, req, env).value.reply != Joined(true)
  {
  }

  lemma OthersLeaveRooms(db: DB, req: Request, w: Work)
    requires Reachable(db) && Transacts(db, req, w)
    requires Writes(req) && w.answer.Success? ==> w.answer == Success(Joined(true))
    ensures w.after.rooms == db.rooms
  {
    TransactionIs(db, req, w);
    if w.answer.Success? {
      if Writes(req) {
        CommitMovesOn(db, req, w);
      } else {
        ReachableStoresAreGood(db);
        RoomsStay(db, req, w.env);
      }
    }
  }

  lemma JoinMovesOn(db: DB, r: Id, p: Id, now: Time)
    requires JoinTx(db, r, p, now).Success?
    ensures var after := JoinTx(db, r, p, now).value.db;
            && MovesOn(db, after, r)
            && (JoinTx(db, r, p, now).value.reply == Joined(true) ==> after == db)
  {
    JoinIs(db, r, p, now);
    if JoinTx(db, r, p, now).value.reply != Joined(true) {
      assert db.rooms[r].seats[p := now].Keys == db.rooms[r].seats.Keys + {p};
      assert |db.rooms[r].seats[p := now].Keys| == |db.rooms[r].seats[p := now]|;
      assert |db.rooms[r].seats.Keys| == |db.rooms[r].seats|;
    }
  }

  lemma RoundMovesOn(db: DB, req: Request, env: Env)
    requires Reachable(db) && Feasible(db, req, env) && Perform(db, req, env).Success?
    requires req.StartRound? || req.SettleRound? || req.CloseRoom? || req.AbortRoom?
    ensures MovesOn(db, Perform(db, req, env).value.db, req.room)
  {
    AggregateIsStored(db, req, env);
    AggregateMovesOn(db, req, env);
  }

  /** The domain operations on a room that is not closed only move its row on. */
  lemma AggregateMovesOn(db: DB, req: Request, env: Env)
    requires Aggregate(db, req, env).Success? && Active(db, req.room)
    requires req.StartRound? || req.SettleRound? || req.CloseRoom? || req.AbortRoom?
    ensures NotBefore(db.rooms[req.room], Aggregate(db, req, env).value.row)
  {
  }

  // ---- the invariant -----------------------------------------------------------------------

  ghost predicate ChainOk(rows: seq<RoomRow>) {
    |rows| > 0 && forall i, j :: 0 <= i <= j < |rows| ==> NotBefore(rows[i], rows[j])
  }

  /** The rows of a room lead up to the stored one, and the index shows the row of the last write applied. */
  ghost predicate RoomKept(s: Cache, r: Id) {
    && (r in s.db.rooms <==> r in s.rows)
    && (r in s.rows ==> ChainOk(s.rows[r]) && s.rows[r][|s.rows[r]| - 1] == s.db.rooms[r])
    && (r in s.last ==> r in s.rows && s.last[r] < |s.rows[r]|)
    && (r in s.open ==> r in s.last)
    && (r in s.last ==> Shown(s, r) == View(r, s.rows[r][s.last[r]]))
  }

  ghost predicate PendingOk(s: Cache, c: nat) {
    c in s.pending ==> s.pending[c].room in s.rows && s.pending[c].number < |s.rows[s.pending[c].room]|
  }

  ghost predicate CacheInv(s: Cache) {
    Reachable(s.db) && (forall r :: RoomKept(s, r)) && (forall c :: PendingOk(s, c))
  }

  /** What the index should show of a room. */
  function View(r: Id, row: RoomRow): Option<Summary> {
    if row.status == Open then Some(SummaryOf(RoomVal(r, row, None))) else None
  }

  function Shown(s: Cache, r: Id): Option<Summary> {
    if r in s.open then Some(s.open[r]) else None
  }

  lemma ChainGrows(rows: seq<RoomRow>, row: RoomRow)
    requires ChainOk(rows) && NotBefore(rows[|rows| - 1], row)
    ensures ChainOk(rows + [row])
  {
    var more := rows + [row];
    forall i, j | 0 <= i <= j < |more|
      ensures NotBefore(more[i], more[j])
    {
      if i < j == |rows| { NotBeforeChains(rows[i], rows[|rows| - 1], row); }
    }
  }

  lemma CommitKeeps(s: Cache, c: nat, req: Request, w: Work, t: Cache)
    requires CacheInv(s) && CommitRow(s, c, req, w, t)
    ensures CacheInv(t)
  {
    TransactionIs(s.db, req, w);
    CommitMovesOn(s.db, req, w);
    RowAppended(s, t, c, req.room);
  }

  /** One more row at the end of a room's rows, with its write. */
  lemma RowAppended(s: Cache, t: Cache, c: nat, r: Id)
    requires (forall x :: RoomKept(s, x)) && (forall d :: PendingOk(s, d)) && MovesOn(s.db, t.db, r)
    requires t.rows == s.rows[r := RowsOf(s, r) + [t.db.rooms[r]]] && t.open == s.open && t.last == s.last
    requires t.pending == s.pending[c := Write(r, |RowsOf(s, r)|)]
    ensures (forall x :: RoomKept(t, x)) && (forall d :: PendingOk(t, d))
  {
    forall x
      ensures RoomKept(t, x)
    {
      assert RoomKept(s, x);
      if x == r && r in s.rows { ChainGrows(s.rows[r], t.db.rooms[r]); }
    }
    forall d
      ensures PendingOk(t, d)
    {
      assert PendingOk(s, d);
    }
  }

  lemma NoWriteKeeps(s: Cache, req: Request, w: Work, t: Cache)
    requires CacheInv(s) && NoWrite(s, req, w, t)
    ensures CacheInv(t)
  {
    TransactionIs(s.db, req, w);
    OthersLeaveRooms(s.db, req, w);
    SameRoomsKept(s, t);
  }

  lemma SameRoomsKept(s: Cache, t: Cache)
    requires CacheInv(s) && t == s.(db := t.db) && Reachable(t.db) && t.db.rooms == s.db.rooms
    ensures CacheInv(t)
  {
    forall r
      ensures RoomKept(t, r)
    {
      assert RoomKept(s, r);
    }
    forall c
      ensures PendingOk(t, c)
    {
      assert PendingOk(s, c);
    }
  }

  lemma ReadKeeps(s: Cache, c: nat, r: Id, t: Cache)
    requires CacheInv(s) && ReadRow(s, c, r, t)
    ensures CacheInv(t)
  {
    forall x
      ensures RoomKept(t, x)
    {
      assert RoomKept(s, x);
    }
    forall d
      ensures PendingOk(t, d)
    {
      assert PendingOk(s, d);
    }
  }

  lemma ApplyKeeps(s: Cache, c: nat, t: Cache)
    requires CacheInv(s) && ApplyWrite(s, c, t)
    ensures CacheInv(t)
  {
    forall r
      ensures RoomKept(t, r)
    {
      assert RoomKept(s, r);
    }
    forall d
      ensures PendingOk(t, d)
    {
      assert PendingOk(s, d);
    }
  }

  lemma CacheNextKeeps(s: Cache, e: CacheEvent, t: Cache)
    requires CacheInv(s) && CacheNext(s, e, t)
    ensures CacheInv(t)
  {
    match e
    case OnCommit(c, req, w) => CommitKeeps(s, c, req, w, t);
    case OnNoWrite(req, w) => NoWriteKeeps(s, req, w, t);
    case OnRead(c, r) => ReadKeeps(s, c, r, t);
    case OnApply(c) => ApplyKeeps(s, c, t);
  }

  ghost predicate KeptAt(states: seq<Cache>, i: nat) {
    i + 1 < |states| && (CacheInv(states[i]) ==> CacheInv(states[i + 1]))
  }

  lemma CacheRunKeepsAt(states: seq<Cache>, events: seq<CacheEvent>, i: nat)
    requires CacheRun(states, events) && i < |events|
    ensures KeptAt(states, i)
  {
    assert CacheNext(states[i], events[i], states[i + 1]);
    if CacheInv(states[i]) { CacheNextKeeps(states[i], events[i], states[i + 1]); }
  }

  lemma {:induction false} CacheKeptAllAlong(states: seq<Cache>, n: nat)
    requires n < |states| && CacheInv(states[0]) && forall i :: 0 <= i < n ==> KeptAt(states, i)
    ensures CacheInv(states[n])
  {
    if n > 0 {
      CacheKeptAllAlong(states, n - 1);
      assert KeptAt(states, n - 1);
    }
  }

  lemma EmptyCacheIsGood()
    ensures CacheInv(EMPTY_CACHE)
  {
    assert Run([EMPTY], []) && [EMPTY][0] == EMPTY;
    assert Reachable(EMPTY);
  }

  lemma CacheRunKeeps(states: seq<Cache>, events: seq<CacheEvent>, n: nat)
    requires CacheRun(states, events) && n <= |events|
    ensures CacheInv(states[n])
  {
    EmptyCacheIsGood();
    forall i | 0 <= i < n
      ensures KeptAt(states, i)
    {
      CacheRunKeepsAt(states, events, i);
    }
    CacheKeptAllAlong(states, n);
  }

  // ---- exactly when the index is right -----------------------------------------------------

  /** No commit after the write applied last has changed the room's row. */
  ghost predicate UpToDate(s: Cache, r: Id) {
    r in s.last && r in s.rows && forall j :: s.last[r] <= j < |s.rows[r]| ==> s.rows[r][j] == s.rows[r][s.last[r]]
  }

  /** The write applied last was one that evicts, or there has been none. */
  predicate Evicted(s: Cache, r: Id)
    requires r in s.last && r in s.rows ==> s.last[r] < |s.rows[r]|
  {
    r in s.last && r in s.rows ==> s.rows[r][s.last[r]].status != Open
  }

  /** In whatever order the writes arrive, the index is right about a room exactly when the write applied last
      is of a commit that no later one has outdated, or when the room takes no players any more and the write
      applied last was an eviction. */
  lemma IndexIsRightIff(states: seq<Cache>, events: seq<CacheEvent>, n: nat, r: Id)
    requires CacheRun(states, events) && n <= |events| && r in states[n].db.rooms
    ensures r in states[n].last && r in states[n].rows ==> states[n].last[r] < |states[n].rows[r]|
    ensures Shown(states[n], r) == View(r, states[n].db.rooms[r]) <==>
            UpToDate(states[n], r) || (states[n].db.rooms[r].status != Open && Evicted(states[n], r))
  {
    CacheRunKeeps(states, events, n);
    assert RoomKept(states[n], r);
    RightIff(states[n], r);
  }

  lemma RightIff(s: Cache, r: Id)
    requires RoomKept(s, r) && r in s.db.rooms
    ensures Shown(s, r) == View(r, s.db.rooms[r]) <==> UpToDate(s, r) || (s.db.rooms[r].status != Open && Evicted(s, r))
  {
    if r in s.last {
      var rows, i := s.rows[r], s.last[r];
      assert NotBefore(rows[i], rows[|rows| - 1]);
      if rows[|rows| - 1] == rows[i] {
        forall j | i <= j < |rows|
          ensures rows[j] == rows[i]
        {
          NotBeforeChains(rows[i], rows[j], rows[|rows| - 1]);
        }
      }
    }
  }

  // ---- writes in commit order --------------------------------------------------------------

  /** The writes of each room are applied in the order of the rows they carry. */
  ghost predicate InOrder(states: seq<Cache>, events: seq<CacheEvent>) {
    forall i :: 0 <= i < |events| && i < |states| ==> InOrderStep(states[i], events[i])
  }

  ghost predicate InOrderStep(s: Cache, e: CacheEvent) {
    e.OnApply? && e.c in s.pending && s.pending[e.c].room in s.last ==> s.last[s.pending[e.c].room] <= s.pending[e.c].number
  }

  predicate IsPending(s: Cache, r: Id, k: nat) {
    exists c :: c in s.pending && s.pending[c] == Write(r, k)
  }

  /** Every write is pending, or it or a later one of its room has been applied. */
  ghost predicate NotLost(s: Cache, r: Id, k: nat) {
    r in s.rows && k < |s.rows[r]| ==> IsPending(s, r, k) || (r in s.last && k <= s.last[r])
  }

  lemma NoneLostStep(s: Cache, e: CacheEvent, t: Cache)
    requires NoneLost(s) && CacheNext(s, e, t) && InOrderStep(s, e)
    ensures NoneLost(t)
  {
    forall r, k
      ensures NotLost(t, r, k)
    {
      assert NotLost(s, r, k);
      match e
      case OnCommit(c, req, w) => CommitLosesNone(s, c, req, w, t, r, k);
      case OnNoWrite(_, _) => assert IsPending(s, r, k) ==> IsPending(t, r, k);
      case OnRead(c, x) => ReadLosesNone(s, c, x, t, r, k);
      case OnApply(c) => ApplyLosesNone(s, c, t, r, k);
    }
  }

  lemma CommitLosesNone(s: Cache, c: nat, req: Request, w: Work, t: Cache, r: Id, k: nat)
    requires NotLost(s, r, k) && CommitRow(s, c, req, w, t)
    ensures NotLost(t, r, k)
  {
    if r == req.room && k == |RowsOf(s, r)| {
      assert t.pending[c] == Write(r, k);
    } else if IsPending(s, r, k) {
      var d :| d in s.pending && s.pending[d] == Write(r, k);
      assert d in t.pending && t.pending[d] == Write(r, k);
    }
  }

  lemma ReadLosesNone(s: Cache, c: nat, x: Id, t: Cache, r: Id, k: nat)
    requires NotLost(s, r, k) && ReadRow(s, c, x, t)
    ensures NotLost(t, r, k)
  {
    if IsPending(s, r, k) {
      var d :| d in s.pending && s.pending[d] == Write(r, k);
      assert d in t.pending && t.pending[d] == Write(r, k);
    }
  }

  lemma ApplyLosesNone(s: Cache, c: nat, t: Cache, r: Id, k: nat)
    requires NotLost(s, r, k) && ApplyWrite(s, c, t) && InOrderStep(s, OnApply(c))
    ensures NotLost(t, r, k)
  {
    if IsPending(s, r, k) {
      var d :| d in s.pending && s.pending[d] == Write(r, k);
      assert d != c ==> d in t.pending && t.pending[d] == Write(r, k);
    }
  }

  ghost predicate NoneLost(s: Cache) {
    forall r, k :: NotLost(s, r, k)
  }

  ghost predicate NoneLostAt(states: seq<Cache>, i: nat) {
    i + 1 < |states| && (NoneLost(states[i]) ==> NoneLost(states[i + 1]))
  }

  lemma RunLosesNoneAt(states: seq<Cache>, events: seq<CacheEvent>, i: nat)
    requires CacheRun(states, events) && InOrder(states, events) && i < |events|
    ensures NoneLostAt(states, i)
  {
    assert CacheNext(states[i], events[i], states[i + 1]) && InOrderStep(states[i], events[i]);
    if NoneLost(states[i]) { NoneLostStep(states[i], events[i], states[i + 1]); }
  }

  lemma {:induction false} NoneLostAllAlong(states: seq<Cache>, n: nat)
    requires n < |states| && NoneLost(states[0]) && forall i :: 0 <= i < n ==> NoneLostAt(states, i)
    ensures NoneLost(states[n])
  {
    if n > 0 {
      NoneLostAllAlong(states, n - 1);
      assert NoneLostAt(states, n - 1);
    }
  }

  lemma RunLosesNone(states: seq<Cache>, events: seq<CacheEvent>, n: nat)
    requires CacheRun(states, events) && InOrder(states, events) && n <= |events|
    ensures NoneLost(states[n])
  {
    forall i | 0 <= i < n
      ensures NoneLostAt(states, i)
    {
      RunLosesNoneAt(states, events, i);
    }
    NoneLostAllAlong(states, n);
  }

  /** When each room's writes arrive in commit order, however they mix with those of other rooms and with
      further commits, then once none is pending the index lists exactly the open rooms. */
  lemma InOrderIndexIsExact(states: seq<Cache>, events: seq<CacheEvent>, n: nat)
    requires CacheRun(states, events) && InOrder(states, events) && n <= |events| && states[n].pending == map[]
    ensures states[n].open == OpenRooms(states[n].db)
  {
    var s := states[n];
    CacheRunKeeps(states, events, n);
    RunLosesNone(states, events, n);
    forall r
      ensures r in s.open <==> r in OpenRooms(s.db)
      ensures r in s.open ==> s.open[r] == OpenRooms(s.db)[r]
    {
      assert RoomKept(s, r);
      if r in s.rows {
        assert NotLost(s, r, |s.rows[r]| - 1) && !IsPending(s, r, |s.rows[r]| - 1);
      }
    }
  }

  // ---- what the index shows of a closed room -----------------------------------------------

  /** Room r is closed and no write of it is on its way. */
  ghost predicate AtRest(s: Cache, r: Id) {
    && r in s.db.rooms && s.db.rooms[r].status == Closed
    && (forall c :: c in s.pending ==> s.pending[c].room != r)
  }

  /** A closed room has no commits that write any more. */
  lemma ClosedRoomsDoNotWrite(db: DB, req: Request, w: Work)
    requires Reachable(db) && Transacts(db, req, w) && Writes(req) && w.answer.Success? && w.answer != Success(Joined(true))
    ensures req.room in db.rooms ==> db.rooms[req.room].status != Closed
  {
    TransactionIs(db, req, w);
    if req.CreateRoomFor? {
      CreateIs(db, req.room, req.player, w.env.now);
    } else if req.JoinRoom? {
      JoinIs(db, req.room, req.player, w.env.now);
    } else {
      AggregateIsStored(db, req, w.env);
    }
  }

  lemma RestStep(s: Cache, e: CacheEvent, t: Cache, r: Id)
    requires CacheInv(s) && CacheNext(s, e, t) && AtRest(s, r)
    ensures AtRest(t, r) && Shown(t, r) == Shown(s, r)
  {
    match e
    case OnCommit(_, req, w) =>
      ClosedRoomsDoNotWrite(s.db, req, w);
      CommitMovesOn(s.db, req, w);
    case OnNoWrite(req, w) => OthersLeaveRooms(s.db, req, w);
    case OnRead(_, _) =>
    case OnApply(_) =>
  }

  ghost predicate RestsAt(states: seq<Cache>, r: Id, i: nat) {
    i + 1 < |states| && (AtRest(states[i], r) ==> AtRest(states[i + 1], r) && Shown(states[i + 1], r) == Shown(states[i], r))
  }

  lemma RunRestsAt(states: seq<Cache>, events: seq<CacheEvent>, r: Id, i: nat)
    requires CacheRun(states, events) && i < |events|
    ensures RestsAt(states, r, i)
  {
    CacheRunKeeps(states, events, i);
    assert CacheNext(states[i], events[i], states[i + 1]);
    if AtRest(states[i], r) { RestStep(states[i], events[i], states[i + 1], r); }
  }

  lemma {:induction false} RestAllAlong(states: seq<Cache>, n: nat, m: nat, r: Id)
    requires n <= m < |states| && AtRest(states[n], r) && forall i :: n <= i < m ==> RestsAt(states, r, i)
    ensures AtRest(states[m], r) && Shown(states[m], r) == Shown(states[n], r)
    decreases m
  {
    if n < m {
      RestAllAlong(states, n, m - 1, r);
      assert RestsAt(states, r, m - 1);
    }
  }

  /** What the index shows of a closed room when its last write has arrived, it shows for good. */
  lemma ClosedRoomsStayAsShown(states: seq<Cache>, events: seq<CacheEvent>, n: nat, m: nat, r: Id)
    requires CacheRun(states, events) && n <= m <= |events| && AtRest(states[n], r)
    ensures AtRest(states[m], r) && Shown(states[m], r) == Shown(states[n], r)
  {
    forall i | n <= i < m
      ensures RestsAt(states, r, i)
    {
      RunRestsAt(states, events, r, i);
    }
    RestAllAlong(states, n, m, r);
  }

  // ---- a late write ------------------------------------------------------------------------

  lemma MoreWrites(states: seq<Cache>, events: seq<CacheEvent>, e: CacheEvent, t: Cache)
    returns (states': seq<Cache>, events': seq<CacheEvent>)
    requires CacheRun(states, events) && CacheNext(states[|events|], e, t)
    ensures CacheRun(states', events') && states'[|events'|] == t
  {
    states', events' := states + [t], events + [e];
    forall i | 0 <= i < |events'|
      ensures CacheNext(states'[i], events'[i], states'[i + 1])
    {
      if i < |events| { EarlierStep(states, events, e, t, i); }
    }
  }

  lemma EarlierStep(states: seq<Cache>, events: seq<CacheEvent>, e: CacheEvent, t: Cache, i: nat)
    requires CacheRun(states, events) && i < |events|
    ensures CacheNext((states + [t])[i], (events + [e])[i], (states + [t])[i + 1])
  {
    assert (states + [t])[i] == states[i] && (events + [e])[i] == events[i] && (states + [t])[i + 1] == states[i + 1];
  }

  /** Players 1 and 2 exist. */
  lemma TwoPlayers() returns (states: seq<Cache>, events: seq<CacheEvent>)
    ensures CacheRun(states, events) && states[|events|] == EMPTY_CACHE.(db := TWO_PLAYERS)
  {
    OpeningTransactions();
    var one := EMPTY.(players := map[1 := 0]);
    states, events := MoreWrites([EMPTY_CACHE], [], OnNoWrite(Register(1), Work(PLAIN, Commits, one, Success(Registered))), EMPTY_CACHE.(db := one));
    states, events := MoreWrites(states, events, OnNoWrite(Register(2), Work(PLAIN, Commits, TWO_PLAYERS, Success(Registered))), EMPTY_CACHE.(db := TWO_PLAYERS));
  }

  /** Room 7 of player 1 is listed; player 2 exists. */
  lemma ListedTable() returns (states: seq<Cache>, events: seq<CacheEvent>)
    ensures CacheRun(states, events)
    ensures var row := ONE_TABLE.rooms[7];
            states[|events|] == Cache(ONE_TABLE, map[7 := SummaryOf(RoomVal(7, row, None))], map[], map[7 := [row]], map[7 := 0])
  {
    OpeningTransactions();
    states, events := TwoPlayers();
    var row := ONE_TABLE.rooms[7];
    var created := Cache(ONE_TABLE, map[], map[0 := Write(7, 0)], map[7 := [row]], map[]);
    assert [] + [row] == [row];
    states, events := MoreWrites(states, events, OnCommit(0, CreateRoomFor(7, 1), Work(PLAIN, Commits, ONE_TABLE, Success(RoomCreated))), created);
    states, events := MoreWrites(states, events, OnApply(0), Cache(ONE_TABLE, map[7 := SummaryOf(RoomVal(7, row, None))], map[], map[7 := [row]], map[7 := 0]));
  }

  /** Player 2 joins and player 1 closes the room. */
  lemma JoinThenClose() returns (join: Work, close: Work)
    ensures Transacts(ONE_TABLE, JoinRoom(7, 2), join) && join.answer == Success(Joined(false))
    ensures 7 in join.after.rooms && join.after.rooms[7].status == Open
    ensures Transacts(join.after, CloseRoom(7, 1), close) && close.answer.Success? && close.answer.value.RoomEnded?
    ensures 7 in close.after.rooms && close.after.rooms[7].status == Closed
  {
    var failed;
    failed, join := GuestTransactions();
    SeatWasFree(join);
    StoreWithTable();
    TransactionIs(ONE_TABLE, JoinRoom(7, 2), join);
    close := OwnerCloses(join.after);
  }

  lemma SeatWasFree(join: Work)
    requires Transacts(ONE_TABLE, JoinRoom(7, 2), join) && join.answer.Success?
    ensures join.answer == Success(Joined(false))
    ensures 7 in join.after.rooms && join.after.rooms[7].status == Open && join.after.rooms[7].owner == 1 && join.after.rounds == map[]
  {
    JoinIs(ONE_TABLE, 7, 2, join.env.now);
  }

  lemma StoreWithTable()
    ensures Reachable(ONE_TABLE)
  {
    var states, events := ListedTable();
    CacheRunKeeps(states, events, |events|);
  }

  lemma OwnerCloses(db: DB) returns (close: Work)
    requires Reachable(db) && 7 in db.rooms && db.rooms[7].status == Open && db.rooms[7].owner == 1 && db.rounds == map[]
    ensures Transacts(db, CloseRoom(7, 1), close) && close.answer.Success? && close.answer.value.RoomEnded?
    ensures 7 in close.after.rooms && close.after.rooms[7].status == Closed
  {
    ReachableStoresAreGood(db);
    CloseRule(db, 7, 1, 0);
    CloseIs(db, 7, 1, 0);
    var outcome := CloseTx(db, 7, 1, 0).value;
    close := Work(PLAIN, Commits, outcome.db, Success(outcome.reply));
  }

  /** A join's SaveRoom that arrives after the RemoveRoom of a close lists a closed room as open. With no write
      left, ClosedRoomsStayAsShown says that it stays so in whatever follows. */
  lemma LateSaveRelistsAClosedRoom() returns (states: seq<Cache>, events: seq<CacheEvent>)
    ensures CacheRun(states, events)
    ensures var s := states[|events|];
            && s.pending == map[] && AtRest(s, 7) && 7 in s.open && s.open[7].status == Open
  {
    states, events := ListedTable();
    var join, close := JoinThenClose();
    var s1, s2, s3, s4 := WritesCross(states[|events|], ONE_TABLE.rooms[7], join, close);
    states, events := MoreWrites(states, events, OnCommit(1, JoinRoom(7, 2), join), s1);
    states, events := MoreWrites(states, events, OnCommit(2, CloseRoom(7, 1), close), s2);
    states, events := MoreWrites(states, events, OnApply(2), s3);
    states, events := MoreWrites(states, events, OnApply(1), s4);
  }

  /** Both commit before either writes, and the second writes first. */
  lemma WritesCross(s: Cache, row: RoomRow, join: Work, close: Work) returns (s1: Cache, s2: Cache, s3: Cache, s4: Cache)
    requires s == Cache(s.db, map[7 := SummaryOf(RoomVal(7, row, None))], map[], map[7 := [row]], map[7 := 0])
    requires join.answer == Success(Joined(false)) && 7 in join.after.rooms && join.after.rooms[7].status == Open
    requires close.answer.Success? && close.answer.value.RoomEnded? && 7 in close.after.rooms && close.after.rooms[7].status == Closed
    ensures Transacts(s.db, JoinRoom(7, 2), join) ==> CommitRow(s, 1, JoinRoom(7, 2), join, s1)
    ensures Transacts(join.after, CloseRoom(7, 1), close) ==> CommitRow(s1, 2, CloseRoom(7, 1), close, s2)
    ensures ApplyWrite(s2, 2, s3) && ApplyWrite(s3, 1, s4)
    ensures s4.db == close.after && s4.pending == map[] && 7 in s4.open && s4.open[7].status == Open
  {
    var row1, row2 := join.after.rooms[7], close.after.rooms[7];
    s1 := s.(db := join.after, pending := s.pending[1 := Write(7, 1)], rows := s.rows[7 := [row] + [row1]]);
    s2 := s1.(db := close.after, pending := s1.pending[2 := Write(7, 2)], rows := s1.rows[7 := [row] + [row1] + [row2]]);
    s3 := s2.(open := s2.open - {7}, pending := s2.pending - {2}, last := s2.last[7 := 2]);
    s4 := s3.(open := s3.open[7 := SummaryOf(RoomVal(7, row1, None))], pending := s3.pending - {1}, last := s3.last[7 := 1]);
    assert s4.pending == map[];
  }
}
