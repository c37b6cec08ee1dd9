/** Runs that end with Redis out of step: each of the unreported commits whose exact conditions are proved in
    Lobby does occur. */
module Stranded {
  import opened Types
  import opened Dice
  import opened Game
  import opened Store
  import opened StoreInvariant
  import opened Transactions
  import opened Steps
  import opened Persistence
  import opened Runs
  import opened LiveRounds
  import opened Redis
  import opened Lobby

  function At(now: Time, roll: Result<(int, int)>): Env {
    Env(now, 15, roll, [], map[])
  }

  const UNROLLED: Result<(int, int)> := Failure(EntropyFailed)

  lemma OneMoreTurn(states: seq<Served>, turns: seq<Turn>, t: Turn, after: Served) returns (states': seq<Served>, turns': seq<Turn>)
    requires ServedRun(states, turns) && TurnTo(states[|turns|], t, after)
    ensures ServedRun(states', turns') && states'[|turns'|] == after
  {
    states', turns' := states + [after], turns + [t];
    forall i | 0 <= i < |turns'|
      ensures TurnTo(states'[i], turns'[i], states'[i + 1])
    {
      if i < |turns| { EarlierTurn(states, turns, t, after, i); }
    }
  }

  lemma EarlierTurn(states: seq<Served>, turns: seq<Turn>, t: Turn, after: Served, i: nat)
    requires ServedRun(states, turns) && i < |turns|
    ensures TurnTo((states + [after])[i], (turns + [t])[i], (states + [after])[i + 1])
  {
    assert (states + [after])[i] == states[i] && (turns + [t])[i] == turns[i] && (states + [after])[i + 1] == states[i + 1];
  }

  // ---- an open table -----------------------------------------------------------------------

  const TABLE := DB(map[1 := 0, 2 := 0], map[7 := NewRoom(7, 1, 0).row], map[], map[], [])

  /** Players 1 and 2 exist, and player 1 has opened room 7. */
  lemma OpenTable() returns (states: seq<Served>, turns: seq<Turn>)
    ensures ServedRun(states, turns)
    ensures states[|turns|] == Served(TABLE, Saved(NO_KEYS.(bound := map[1 := 7]), SummaryOf(NewRoom(7, 1, 0))))
  {
    var one, two := EMPTY.(players := map[1 := 0]), EMPTY.(players := map[1 := 0, 2 := 0]);
    assert map[1 := 0][2 := 0] == map[1 := 0, 2 := 0];
    assert ActiveRooms(two, 1) == {};
    CreateIs(two, 7, 1, 0);
    states, turns := [Served(EMPTY, NO_KEYS)], [];
    states, turns := OneMoreTurn(states, turns, Use(Register(1), Work(At(0, UNROLLED), Commits, one, Success(Registered))), Served(one, NO_KEYS));
    states, turns := OneMoreTurn(states, turns, Use(Register(2), Work(At(0, UNROLLED), Commits, two, Success(Registered))), Served(two, NO_KEYS));
    states, turns := OneMoreTurn(states, turns, Use(CreateRoomFor(7, 1), Work(At(0, UNROLLED), Commits, TABLE, Success(RoomCreated))),
                                 Served(TABLE, Saved(NO_KEYS.(bound := map[1 := 7]), SummaryOf(NewRoom(7, 1, 0)))));
  }

  // ---- an unreported creation and an unreported join ---------------------------------------

  /** Player 2 creates room 8, or joins room 7, and is told that it failed: seated, and not bound. */
  lemma UnseenSeats() returns (states: seq<Served>, turns: seq<Turn>, create: Work, join: Work)
    ensures ServedRun(states, turns)
    ensures var s := states[|turns|];
            && CreateEnds(s.db, s.keys, 8, 2, 0, CommitsUnseen, create.after, s.keys, create.answer) && !InStep(create.after, s.keys)
            && JoinEnds(s.db, s.keys, 7, 2, 0, CommitsUnseen, [false], Undisturbed, join.after, s.keys, join.answer) && !InStep(join.after, s.keys)
  {
    states, turns := OpenTable();
    var s := states[|turns|];
    RedisStaysInStep(states, turns, |turns|);
    assert ActiveRooms(s.db, 2) == {};
    CreateIs(s.db, 8, 2, 0);
    JoinIs(s.db, 7, 2, 0);
    create := Work(At(0, UNROLLED), CommitsUnseen, CreateTx(s.db, 8, 2, 0).value.db, Failure(Infrastructure));
    join := Work(At(0, UNROLLED), CommitsUnseen, JoinTx(s.db, 7, 2, 0).value.db, Failure(Infrastructure));
    assert Acquired([false]) by { assert !([false][0]); }
    CreationOutOfStepIff(s.db, s.keys, 8, 2, create, s.keys);
    JoinOutOfStepIff(s.db, s.keys, 7, 2, join, [false], s.keys);
  }

  // ---- an unreported settlement that closes the room ---------------------------------------

  /** The owner starts a round and then closes the room, which waits for that round. */
  lemma ClosingTable() returns (states: seq<Served>, turns: seq<Turn>)
    ensures ServedRun(states, turns) && InStep(states[|turns|].db, states[|turns|].keys)
    ensures var db := states[|turns|].db;
            Live(db, 7) && db.rooms[7].status == Closing && db.bets == map[] && 1 in db.rooms[7].seats
  {
    states, turns := OpenTable();
    var s := states[|turns|];
    RedisStaysInStep(states, turns, |turns|);
    var start := OwnerStarts(s.db);
    var s1 := Served(start.after, CacheAfter(s.db, s.keys, StartRound(7, 1), start));
    states, turns := OneMoreTurn(states, turns, Use(StartRound(7, 1), start), s1);
    RedisStaysInStep(states, turns, |turns|);
    var close := OwnerCloses(s1.db);
    var s2 := Served(close.after, CacheAfter(s1.db, s1.keys, CloseRoom(7, 1), close));
    states, turns := OneMoreTurn(states, turns, Use(CloseRoom(7, 1), close), s2);
    RedisStaysInStep(states, turns, |turns|);
  }

  lemma OwnerStarts(db: DB) returns (w: Work)
    requires Reachable(db) && db == TABLE
    ensures w.env == At(0, UNROLLED) && w.fate == Commits && Ends(db, Perform(db, StartRound(7, 1), w.env), Commits, w.after, w.answer)
    ensures Live(w.after, 7) && w.after.bets == map[] && w.after.rooms[7].owner == 1 && 1 in w.after.rooms[7].seats
  {
    ReachableStoresAreGood(db);
    assert !Undecided(db, 7);
    StartRule(db, 7, 1, 0, 15);
    StartIs(db, 7, 1, 0, 15);
    var done := StartTx(db, 7, 1, 0, 15).value;
    w := Work(At(0, UNROLLED), Commits, done.db, Success(done.reply));
  }

  lemma OwnerCloses(db: DB) returns (w: Work)
    requires Reachable(db) && Live(db, 7) && db.bets == map[] && db.rooms[7].owner == 1 && 1 in db.rooms[7].seats
    ensures w.env == At(0, UNROLLED) && w.fate == Commits && Ends(db, Perform(db, CloseRoom(7, 1), w.env), Commits, w.after, w.answer)
    ensures Live(w.after, 7) && w.after.bets == map[] && w.after.rooms[7].status == Closing && 1 in w.after.rooms[7].seats
  {
    CloseWaits(db, 7, 1, 0);
    var done := CloseTx(db, 7, 1, 0).value;
    w := Work(At(0, UNROLLED), Commits, done.db, Success(done.reply));
  }

  /** The owner's close of a room with a live round leaves it closing. */
  lemma CloseWaits(db: DB, r: Id, p: Id, now: Time)
    requires Reachable(db) && Live(db, r) && db.rooms[r].owner == p
    ensures CloseTx(db, r, p, now).Success?
    ensures CloseTx(db, r, p, now).value.db == db.(rooms := db.rooms[r := db.rooms[r].(status := Closing)])
    ensures Live(CloseTx(db, r, p, now).value.db, r)
  {
    ReachableStoresAreGood(db);
    CloseRule(db, r, p, now);
    CloseIs(db, r, p, now);
  }

  /** A settlement of a closing room without bets commits whatever the dice, and closes the room. */
  lemma SettlementCloses(db: DB) returns (env: Env)
    requires Reachable(db) && Live(db, 7) && db.rooms[7].status == Closing && db.bets == map[]
    ensures Feasible(db, SettleRound(7), env) && Perform(db, SettleRound(7), env).Success?
    ensures var after := Perform(db, SettleRound(7), env).value.db;
            7 in after.rooms && after.rooms[7].status == Closed && !Undecided(after, 7)
  {
    env := At(20, Success((1, 1)));
    EmptyRoundSettles(db);
    SettlingCloses(db, 7, env.roll, env.now, env.order);
  }

  lemma EmptyRoundSettles(db: DB)
    requires Reachable(db) && Live(db, 7) && db.bets == map[]
    ensures GetCurrent(db, 7).Some? && InTimeOrder([], PlacedAt(GetCurrent(db, 7).value.bets))
    ensures SettleTx(db, 7, Success((1, 1)), 20, []).Success?
  {
    ReachableStoresAreGood(db);
    CurrentRoundIsLast(db, 7);
    var key := CurrentKey(db, 7);
    assert BetsOf(db.bets, key) == map[];
    SettleRule(db, 7, Success((1, 1)), 20, [], key, Even);
  }

  lemma SettlingCloses(db: DB, id: Id, roll: Result<(int, int)>, now: Time, order: seq<Id>)
    requires Reachable(db) && Live(db, id) && db.rooms[id].status == Closing
    requires GetCurrent(db, id).Some? && InTimeOrder(order, PlacedAt(GetCurrent(db, id).value.bets))
    requires SettleTx(db, id, roll, now, order).Success?
    ensures var after := SettleTx(db, id, roll, now, order).value.db;
            id in after.rooms && after.rooms[id].status == Closed && !Undecided(after, id)
  {
    ReachableStoresAreGood(db);
    SettleIs(db, id, roll, now, order);
    FinishedRoomIsClosed(db, SettleTx(db, id, roll, now, order).value.db, id, roll.value.0, roll.value.1,
                         OutcomeOf(roll.value.0, roll.value.1).value, now);
  }

  lemma FinishedRoomIsClosed(db: DB, after: DB, id: Id, die1: int, die2: int, side: Parity, now: Time)
    requires Live(db, id) && db.rooms[id].status == Closing && SettlesRound(db, after, id, die1, die2, side, now)
    ensures id in after.rooms && after.rooms[id].status == Closed && !Undecided(after, id)
  {
  }

  lemma NothingToAbort(db: DB, env: Env)
    requires Reachable(db) && 7 in db.rooms && !Undecided(db, 7)
    ensures Feasible(db, AbortRoom(7), env)
  {
    ReachableStoresAreGood(db);
  }

  /** The owner starts a round and closes the room, the settlement that ends both is reported as an error, and
      the engine's abort is refused: player 1 stays bound to a closed room. */
  lemma UnseenClosingOccurs() returns (states: seq<Served>, turns: seq<Turn>, w: Work, abort: Work)
    ensures ServedRun(states, turns)
    ensures var s := states[|turns|];
            && Serves(s.db, s.keys, SettleRound(7), w, s.keys) && CacheAfter(s.db, s.keys, SettleRound(7), w) == s.keys
            && w.fate == CommitsUnseen && Perform(s.db, SettleRound(7), w.env).Success?
            && 7 in w.after.rooms && w.after.rooms[7].status == Closed && !InStep(w.after, s.keys)
            && Serves(w.after, s.keys, AbortRoom(7), abort, s.keys) && abort.answer == Failure(RoomClosed)
            && 1 in s.keys.bound && s.keys.bound[1] == 7 && !Seated(w.after, 7, 1)
  {
    states, turns := ClosingTable();
    var s := states[|turns|];
    var env := SettlementCloses(s.db);
    w := Work(env, CommitsUnseen, Perform(s.db, SettleRound(7), env).value.db, Failure(Infrastructure));
    ReachableStep(s.db, Step(SettleRound(7), env, CommitsUnseen), w.after);
    NothingToAbort(w.after, At(20, UNROLLED));
    abort := Work(At(20, UNROLLED), Commits, w.after, Failure(RoomClosed));
    RoundOutOfStepIff(s.db, s.keys, SettleRound(7), w);
    assert Seated(s.db, 7, 1);
  }
}
