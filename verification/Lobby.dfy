/** Creating and joining rooms with the session bindings in front of the store
    (internal/application/game/create_room.go, join_room.go), and the agreement of Redis with the
    store over runs in which every write follows its commit. */
module Lobby {
  import opened Types
  import opened Money
  import opened Dice
  import opened Game
  import opened Wallet
  import opened Store
  import opened StoreInvariant
  import opened Transactions
  import opened UseCases
  import opened Preservation
  import opened Steps
  import opened Persistence
  import opened Answers
  import opened Runs
  import opened LiveRounds
  import opened Redis
  import opened Listing

  const JOIN_LOCK_ATTEMPTS := 4

  // ---- what the two use cases leave behind -------------------------------------------------

  /** A refused claim changes nothing; otherwise the transaction decides, and its failure undoes the claim. */
  ghost predicate CreateEnds(db: DB, keys: Keys, id: Id, owner: Id, now: Time, fate: Fate, after: DB, keys': Keys, r: Result<Reply>) {
    if owner in keys.bound then
      after == db && keys' == keys && r == Failure(AlreadyInAnotherRoom)
    else
      && Ends(db, CreateTx(db, id, owner, now), fate, after, r)
      && keys' == if r.Failure? then keys else Saved(keys.(bound := keys.bound[owner := id]), SummaryOf(NewRoom(id, owner, now)))
  }

  predicate Acquired(held: seq<bool>) {
    exists i :: 0 <= i < |held| && i < JOIN_LOCK_ATTEMPTS && !held[i]
  }

  /** Between the read of the binding and the claim, other requests may bind the player anywhere, or
      release the player. */
  datatype Interference = Undisturbed | Rebound(to: Option<Id>)

  function Disturbed(keys: Keys, player: Id, i: Interference): Keys {
    match i
    case Undisturbed => keys
    case Rebound(None) => Released(keys, {player})
    case Rebound(Some(r)) => keys.(bound := keys.bound[player := r])
  }

  /** A join that found the player bound to the room claims nothing. */
  function AfterJoin(keys: Keys, db: DB, id: Id, player: Id, now: Time, claims: bool, answer: Result<Reply>): Keys {
    if answer.Failure? || id !in db.rooms then keys
    else
      var bound := if claims then keys.(bound := keys.bound[player := id]) else keys;
      var joined := RoomJoin(RoomVal(id, db.rooms[id], None), player, now);
      if answer == Success(Joined(false)) && joined.Success? then Saved(bound, SummaryOf(joined.value)) else bound
  }

  predicate BoundElsewhere(keys: Keys, player: Id, room: Id) {
    player in keys.bound && keys.bound[player] != room
  }

  ghost predicate JoinEnds(db: DB, keys: Keys, id: Id, player: Id, now: Time, fate: Fate, held: seq<bool>, i: Interference,
                           after: DB, keys': Keys, r: Result<Reply>) {
    if BoundElsewhere(keys, player, id) then
      after == db && keys' == keys && r == Failure(AlreadyInAnotherRoom)
    else if player in keys.bound && id !in db.rooms then
      after == db && keys' == keys && r == Failure(RoomNotFound)
    else if player in keys.bound && player in db.rooms[id].seats then
      after == db && keys' == keys && r == Success(Joined(true))
    else if !Acquired(held) then
      after == db && keys' == keys && r == Failure(JoinInProgress)
    else if player !in keys.bound && BoundElsewhere(Disturbed(keys, player, i), player, id) then
      after == db && keys' == Disturbed(keys, player, i) && r == Failure(AlreadyInAnotherRoom)
    else
      && Ends(db, JoinTx(db, id, player, now), fate, after, r)
      && keys' == AfterJoin(Disturbed(keys, player, i), db, id, player, now, player !in keys.bound, r)
  }

  ghost predicate WithdrawEnds(db: DB, keys: Keys, player: Id, amount: Cents, fate: Fate, after: DB, r: Result<Reply>) {
    if amount <= 0 then after == db && r == Failure(InvalidAmount)
    else if player in keys.bound then after == db && r == Failure(WithdrawalBlocked)
    else Ends(db, WithdrawTx(db, player, amount), fate, after, r)
  }

  class Lobby {
    const service: Service
    const redis: RedisStore

    constructor (service: Service, redis: RedisStore)
      ensures this.service == service && this.redis == redis
    {
      this.service, this.redis := service, redis;
    }

    method CreateRoom(id: Id, owner: Id, now: Time, fate: Fate) returns (r: Result<Reply>)
      modifies service, redis
      ensures CreateEnds(old(service.db), old(redis.Model()), id, owner, now, fate, service.db, redis.Model(), r)
    {
      var taken := redis.BindPlayerToRoom(owner, id);
      if !taken { return Failure(AlreadyInAnotherRoom); }
      r := service.Create(id, owner, now, fate);
      if r.Failure? {
        redis.ReleasePlayer(owner);
        assert redis.bound == old(redis.bound);
        return;
      }
      redis.SaveRoom(SummaryOf(NewRoom(id, owner, now)));
    }

    /** A withdrawal asks Redis first, and a player bound there never reaches the transaction. */
    method Withdraw(player: Id, amount: Cents, fate: Fate) returns (r: Result<Reply>)
      modifies service
      ensures WithdrawEnds(old(service.db), redis.Model(), player, amount, fate, service.db, r)
    {
      if amount <= 0 { return Failure(InvalidAmount); }
      var room := redis.ActiveRoom(player);
      if room.Some? { return Failure(WithdrawalBlocked); }
      r := service.Withdraw(player, amount, fate);
    }

    /** acquireSeatMutex: held says at which attempts somebody else holds the lock. */
    method AcquireSeatMutex(held: seq<bool>) returns (acquired: bool)
      ensures acquired <==> Acquired(held)
    {
      var attempt := 0;
      while attempt < JOIN_LOCK_ATTEMPTS && attempt < |held|
        invariant 0 <= attempt <= JOIN_LOCK_ATTEMPTS
        invariant forall i :: 0 <= i < attempt && i < |held| ==> held[i]
      {
        if !held[attempt] { return true; }
        attempt := attempt + 1;
      }
      return false;
    }

    method JoinRoom(id: Id, player: Id, now: Time, fate: Fate, held: seq<bool>, i: Interference) returns (r: Result<Reply>)
      modifies service, redis
      ensures JoinEnds(old(service.db), old(redis.Model()), id, player, now, fate, held, i, service.db, redis.Model(), r)
    {
      var current := redis.ActiveRoom(player);
      if current.Some? && current.value != id { return Failure(AlreadyInAnotherRoom); }
      if current == Some(id) {
        var room := LoadRoom(service.db, id);
        if room.Failure? { return Failure(room.error); }
        if player in room.value.row.seats { return Success(Joined(true)); }
      }
      var acquired := AcquireSeatMutex(held);
      if !acquired { return Failure(JoinInProgress); }
      Interfere(player, i);
      r := ClaimAndJoin(id, player, now, fate, current);
    }

    /** What other requests do to the player's binding meanwhile. */
    method Interfere(player: Id, i: Interference)
      modifies redis
      ensures redis.Model() == Disturbed(old(redis.Model()), player, i)
    {
      if i.Undisturbed? { return; }
      redis.ReleasePlayer(player);
      if i.to.Some? {
        var _ := redis.BindPlayerToRoom(player, i.to.value);
      }
    }

    /** From the claim on. */
    method ClaimAndJoin(id: Id, player: Id, now: Time, fate: Fate, current: Option<Id>) returns (r: Result<Reply>)
      requires current == None || current == Some(id)
      modifies service, redis
      ensures if current.None? && BoundElsewhere(old(redis.Model()), player, id) then
                service.db == old(service.db) && redis.Model() == old(redis.Model()) && r == Failure(AlreadyInAnotherRoom)
              else
                && Ends(old(service.db), JoinTx(old(service.db), id, player, now), fate, service.db, r)
                && redis.Model() == AfterJoin(old(redis.Model()), old(service.db), id, player, now, current.None?, r)
    {
      var claimedHere := false;
      if current != Some(id) {
        claimedHere := redis.BindPlayerToRoom(player, id);
        if !claimedHere {
          var place := redis.ActiveRoom(player);
          if place != Some(id) { return Failure(AlreadyInAnotherRoom); }
        }
      }
      var room := LoadRoom(service.db, id);
      r := service.Join(id, player, now, fate);
      if r.Failure? {
        if claimedHere {
          redis.ReleasePlayer(player);
          assert redis.bound == old(redis.bound);
        }
        return;
      }
      if r.value == Joined(false) {
        var joined := RoomJoin(room.value, player, now);
        redis.SaveRoom(SummaryOf(joined.value));
      }
    }
  }

  /** A create or a join that fails leaves every binding as it found it: as it was, but for what other
      requests of the player did in between. */
  lemma FailureKeepsBindings(db: DB, keys: Keys, id: Id, player: Id, now: Time, fate: Fate, held: seq<bool>, i: Interference,
                             after: DB, keys': Keys, r: Result<Reply>)
    requires r.Failure?
    ensures CreateEnds(db, keys, id, player, now, fate, after, keys', r) ==> keys' == keys
    ensures JoinEnds(db, keys, id, player, now, fate, held, i, after, keys', r) ==> keys' == keys || keys' == Disturbed(keys, player, i)
    ensures JoinEnds(db, keys, id, player, now, fate, held, Undisturbed, after, keys', r) ==> keys' == keys
  {
  }

  // ---- Redis and the store agree -----------------------------------------------------------

  /** A player is bound to a room exactly while seated in it, the room not being closed. */
  ghost predicate SessionsOk(db: DB, bound: map<Id, Id>) {
    forall p, r :: (p in bound && bound[p] == r) <==> Seated(db, r, p)
  }

  ghost predicate InStep(db: DB, keys: Keys) {
    Reachable(db) && IndexOk(db, keys) && SessionsOk(db, keys.bound)
  }

  /** The aggregate as a use case leaves it in memory. */
  function Aggregate(db: DB, req: Request, env: Env): Result<RoomVal> {
    match req
    case StartRound(id, _) => (var room :- Attached(db, id); RoomStartRound(room, env.now, env.window))
    case SettleRound(id) => (var room :- Attached(db, id); RoomSettle(room, env.roll, env.now))
    case CloseRoom(id, p) => (var room :- Attached(db, id); RoomClose(room, p, env.now))
    case AbortRoom(id) => (var room :- LoadRoom(db, id); Success(RoomForceClose(room, env.now)))
    case _ => Failure(RoomNotFound)
  }

  /** What the other use cases write to Redis once they have committed. */
  function CacheAfter(db: DB, keys: Keys, req: Request, w: Work): Keys {
    var room := Aggregate(db, req, w.env);
    if w.answer.Failure? || room.Failure? then keys
    else if req.StartRound? then Saved(keys, SummaryOf(room.value))
    else Finalized(keys, SummaryOf(room.value), room.value.row.status == Closed, room.value.row.seats.Keys)
  }

  /** One use case with the Redis writes that follow it. */
  ghost predicate Serves(db: DB, keys: Keys, req: Request, w: Work, keys': Keys) {
    match req
    case CreateRoomFor(id, p) => CreateEnds(db, keys, id, p, w.env.now, w.fate, w.after, keys', w.answer)
    case WithdrawFunds(p, amount) => WithdrawEnds(db, keys, p, amount, w.fate, w.after, w.answer) && keys' == keys
    case JoinRoom(id, p) => exists held :: JoinEnds(db, keys, id, p, w.env.now, w.fate, held, Undisturbed, w.after, keys', w.answer)
    case _ => Feasible(db, req, w.env) && Ends(db, Perform(db, req, w.env), w.fate, w.after, w.answer) && keys' == CacheAfter(db, keys, req, w)
  }

  lemma SavingFollows(db: DB, after: DB, keys: Keys, room: RoomVal)
    requires IndexOk(db, keys) && after.rooms == db.rooms[room.id := room.row]
    ensures IndexOk(after, Saved(keys, SummaryOf(room)))
    ensures forall members :: room.row.status == Closed ==> IndexOk(after, Finalized(keys, SummaryOf(room), true, members))
  {
  }

  /** The seats of a room that goes on are not touched. */
  lemma SameSeats(db: DB, after: DB, keys: Keys, room: RoomVal)
    requires SessionsOk(db, keys.bound) && after.rooms == db.rooms[room.id := room.row]
    requires Active(db, room.id) && room.row.status != Closed && room.row.seats == db.rooms[room.id].seats
    ensures SessionsOk(after, keys.bound)
  {
    forall p, r
      ensures Seated(after, r, p) <==> Seated(db, r, p)
    {
    }
  }

  /** Closing a room releases exactly its members. */
  lemma ClosingReleases(db: DB, after: DB, keys: Keys, room: RoomVal)
    requires SeatsOk(db) && SessionsOk(db, keys.bound) && after.rooms == db.rooms[room.id := room.row]
    requires Active(db, room.id) && room.row.status == Closed && room.row.seats == db.rooms[room.id].seats
    ensures SessionsOk(after, Finalized(keys, SummaryOf(room), true, room.row.seats.Keys).bound)
  {
    var bound := keys.bound - room.row.seats.Keys;
    forall p, r
      ensures (p in bound && bound[p] == r) <==> Seated(after, r, p)
    {
      assert Seated(db, r, p) <==> p in keys.bound && keys.bound[p] == r;
      if p in room.row.seats.Keys {
        assert Seated(db, room.id, p);
        assert Seated(db, r, p) ==> r == room.id;
      }
    }
  }

  lemma ChangeFollows(db: DB, after: DB, keys: Keys, room: RoomVal)
    requires SeatsOk(db) && IndexOk(db, keys) && SessionsOk(db, keys.bound) && after.rooms == db.rooms[room.id := room.row]
    requires Active(db, room.id) && room.row.seats == db.rooms[room.id].seats
    ensures var keys' := Finalized(keys, SummaryOf(room), room.row.status == Closed, room.row.seats.Keys);
            IndexOk(after, keys') && SessionsOk(after, keys'.bound)
  {
    SavingFollows(db, after, keys, room);
    if room.row.status == Closed {
      ClosingReleases(db, after, keys, room);
    } else {
      SameSeats(db, after, keys, room);
    }
  }

  /** The aggregate in memory is the row that was written. */
  lemma AggregateIsStored(db: DB, req: Request, env: Env)
    requires Reachable(db) && Feasible(db, req, env) && Perform(db, req, env).Success?
    requires req.StartRound? || req.SettleRound? || req.CloseRoom? || req.AbortRoom?
    ensures Active(db, req.room) && Aggregate(db, req, env).Success?
    ensures var room := Aggregate(db, req, env).value;
            && room.id == req.room && room.row.seats == db.rooms[req.room].seats
            && (req.StartRound? ==> room.row.status == Open && room.row.currentRound != db.rooms[req.room].currentRound)
            && (!req.StartRound? ==> room.row == db.rooms[req.room] || room.row.status != db.rooms[req.room].status)
            && (room.row.status == Open ==> db.rooms[req.room].status == Open)
            && Perform(db, req, env).value.db.rooms == db.rooms[req.room := room.row]
  {
    ReachableStoresAreGood(db);
    match req
    case StartRound(id, p) => StartIsStored(db, id, p, env.now, env.window);
    case SettleRound(id) => SettleIsStored(db, id, env.roll, env.now, env.order);
    case CloseRoom(id, p) => CloseIsStored(db, id, p, env.now);
    case AbortRoom(id) => AbortIs(db, id, env.now, env.orders);
  }

  lemma StartIsStored(db: DB, id: Id, p: Id, now: Time, window: int)
    requires TablesOk(db) && StartTx(db, id, p, now, window).Success?
    ensures Active(db, id) && Attached(db, id).Success? && RoomStartRound(Attached(db, id).value, now, window).Success?
    ensures var room := RoomStartRound(Attached(db, id).value, now, window).value;
            && room.id == id && room.row.seats == db.rooms[id].seats
            && room.row.status == Open && db.rooms[id].status == Open && room.row.currentRound != db.rooms[id].currentRound
            && StartTx(db, id, p, now, window).value.db.rooms == db.rooms[id := room.row]
  {
  }

  lemma SettleIsStored(db: DB, id: Id, roll: Result<(int, int)>, now: Time, order: seq<Id>)
    requires Inv(db) && SettleTx(db, id, roll, now, order).Success?
    requires GetCurrent(db, id).Some? ==> InTimeOrder(order, PlacedAt(GetCurrent(db, id).value.bets))
    ensures Active(db, id) && Attached(db, id).Success? && RoomSettle(Attached(db, id).value, roll, now).Success?
    ensures var room := RoomSettle(Attached(db, id).value, roll, now).value;
            && room.id == id && room.row.seats == db.rooms[id].seats
            && (room.row == db.rooms[id] || room.row.status == Closed)
            && SettleTx(db, id, roll, now, order).value.db.rooms == db.rooms[id := room.row]
  {
    assert GetCurrent(db, id).Some?;
    SettleIs(db, id, roll, now, order);
    OpenBetsAreUnsettled(db, CurrentKey(db, id));
    SettledAggregate(db, SettleTx(db, id, roll, now, order).value.db, id, roll, OutcomeOf(roll.value.0, roll.value.1).value, now);
  }

  lemma SettledAggregate(db: DB, after: DB, id: Id, roll: Result<(int, int)>, side: Parity, now: Time)
    requires TablesOk(db) && Live(db, id) && AllUnsettled(BetsOf(db.bets, CurrentKey(db, id))) && roll.Success?
    requires SettlesRound(db, after, id, roll.value.0, roll.value.1, side, now)
    ensures Attached(db, id).Success? && RoomSettle(Attached(db, id).value, roll, now).Success?
    ensures var room := RoomSettle(Attached(db, id).value, roll, now).value;
            && room.id == id && room.row.seats == db.rooms[id].seats && after.rooms == db.rooms[id := room.row]
            && (room.row == db.rooms[id] || room.row.status == Closed)
  {
    AttachedIs(db, id);
  }

  lemma CloseIsStored(db: DB, id: Id, p: Id, now: Time)
    requires TablesOk(db) && CloseTx(db, id, p, now).Success?
    ensures Active(db, id) && Attached(db, id).Success? && RoomClose(Attached(db, id).value, p, now).Success?
    ensures var room := RoomClose(Attached(db, id).value, p, now).value;
            && room.id == id && room.row.seats == db.rooms[id].seats
            && room.row.status != Open && (room.row == db.rooms[id] || room.row.status != db.rooms[id].status)
            && CloseTx(db, id, p, now).value.db.rooms == db.rooms[id := room.row]
  {
    CloseIs(db, id, p, now);
    AttachedIs(db, id);
    if db.rooms[id].status == Closing { assert Waiting(db.rooms[id]); }
  }

  /** A use case that Redis and the store both let through, or either refuses, keeps them in step. */
  lemma ServingStaysInStep(db: DB, keys: Keys, req: Request, w: Work, keys': Keys)
    requires InStep(db, keys) && Serves(db, keys, req, w, keys') && w.fate != CommitsUnseen
    ensures InStep(w.after, keys')
  {
    match req
    case CreateRoomFor(id, p) => CreatingStaysInStep(db, keys, id, p, w, keys');
    case JoinRoom(id, p) =>
      var held :| JoinEnds(db, keys, id, p, w.env.now, w.fate, held, Undisturbed, w.after, keys', w.answer);
      JoiningStaysInStep(db, keys, id, p, w, held, keys');
    case StartRound(_, _) => RoundStaysInStep(db, keys, req, w);
    case SettleRound(_) => RoundStaysInStep(db, keys, req, w);
    case CloseRoom(_, _) => RoundStaysInStep(db, keys, req, w);
    case AbortRoom(_) => RoundStaysInStep(db, keys, req, w);
    case WithdrawFunds(p, amount) => WithdrawingStaysInStep(db, keys, p, amount, w);
    case _ => OthersStayInStep(db, keys, req, w);
  }

  lemma RoundStaysInStep(db: DB, keys: Keys, req: Request, w: Work)
    requires InStep(db, keys) && Serves(db, keys, req, w, CacheAfter(db, keys, req, w)) && w.fate != CommitsUnseen
    requires req.StartRound? || req.SettleRound? || req.CloseRoom? || req.AbortRoom?
    ensures InStep(w.after, CacheAfter(db, keys, req, w))
  {
    ReachableStep(db, Step(req, w.env, w.fate), w.after);
    if w.answer.Success? {
      AggregateIsStored(db, req, w.env);
      ReachableStoresAreGood(db);
      ChangeFollows(db, w.after, keys, Aggregate(db, req, w.env).value);
    }
  }

  lemma OthersStayInStep(db: DB, keys: Keys, req: Request, w: Work)
    requires InStep(db, keys) && Serves(db, keys, req, w, CacheAfter(db, keys, req, w)) && w.fate != CommitsUnseen
    requires req.Register? || req.DepositFunds? || req.PlaceBet?
    ensures InStep(w.after, CacheAfter(db, keys, req, w))
  {
    ReachableStep(db, Step(req, w.env, w.fate), w.after);
    if w.answer.Success? {
      ReachableStoresAreGood(db);
      RoomsStay(db, req, w.env);
      SameRoomsInStep(db, w.after, keys);
    }
  }

  lemma WithdrawingStaysInStep(db: DB, keys: Keys, p: Id, amount: Cents, w: Work)
    requires InStep(db, keys) && WithdrawEnds(db, keys, p, amount, w.fate, w.after, w.answer)
    ensures InStep(w.after, keys)
  {
    if w.after != db {
      assert Perform(db, WithdrawFunds(p, amount), w.env) == WithdrawTx(db, p, amount);
      ReachableStep(db, Step(WithdrawFunds(p, amount), w.env, w.fate), w.after);
      ReachableStoresAreGood(db);
      RoomsStay(db, WithdrawFunds(p, amount), w.env);
      SameRoomsInStep(db, w.after, keys);
    }
  }

  lemma RoomsStay(db: DB, req: Request, env: Env)
    requires TablesOk(db) && BalancesOk(db) && Perform(db, req, env).Success?
    requires req.Register? || req.DepositFunds? || req.WithdrawFunds? || req.PlaceBet?
    ensures Perform(db, req, env).value.db.rooms == db.rooms
  {
    match req
    case Register(_) =>
    case DepositFunds(p, amount) => CreditPosts(db, Entry(p, Deposit, amount, None));
    case WithdrawFunds(p, amount) => DebitPosts(db, Entry(p, Withdraw, amount, None));
    case PlaceBet(id, p, choice, amount) => PlaceIs(db, id, p, choice, amount, env.now);
  }

  lemma SameRoomsInStep(db: DB, after: DB, keys: Keys)
    requires IndexOk(db, keys) && SessionsOk(db, keys.bound) && after.rooms == db.rooms
    ensures IndexOk(after, keys) && SessionsOk(after, keys.bound)
  {
    assert OpenRooms(after) == OpenRooms(db);
    forall p, r
      ensures Seated(after, r, p) <==> Seated(db, r, p)
    {
    }
  }

  lemma CreatingStaysInStep(db: DB, keys: Keys, id: Id, p: Id, w: Work, keys': Keys)
    requires InStep(db, keys) && CreateEnds(db, keys, id, p, w.env.now, w.fate, w.after, keys', w.answer) && w.fate != CommitsUnseen
    ensures InStep(w.after, keys')
  {
    if p !in keys.bound {
      assert Perform(db, CreateRoomFor(id, p), w.env) == CreateTx(db, id, p, w.env.now);
      ReachableStep(db, Step(CreateRoomFor(id, p), w.env, w.fate), w.after);
      if w.answer.Success? {
        CreateIs(db, id, p, w.env.now);
        NewRoomFollows(db, w.after, keys, NewRoom(id, p, w.env.now), p);
      }
    }
  }

  lemma NewRoomFollows(db: DB, after: DB, keys: Keys, room: RoomVal, p: Id)
    requires IndexOk(db, keys) && SessionsOk(db, keys.bound) && p !in keys.bound && room.id !in db.rooms
    requires after.rooms == db.rooms[room.id := room.row] && room.row.status == Open && room.row.seats.Keys == {p}
    ensures var keys' := Saved(keys.(bound := keys.bound[p := room.id]), SummaryOf(room));
            IndexOk(after, keys') && SessionsOk(after, keys'.bound)
  {
    SavingFollows(db, after, keys.(bound := keys.bound[p := room.id]), room);
    var bound := keys.bound[p := room.id];
    forall q, r
      ensures (q in bound && bound[q] == r) <==> Seated(after, r, q)
    {
      assert Seated(db, r, q) <==> q in keys.bound && keys.bound[q] == r;
      assert q in room.row.seats <==> q in room.row.seats.Keys;
    }
  }

  lemma JoiningStaysInStep(db: DB, keys: Keys, id: Id, p: Id, w: Work, held: seq<bool>, keys': Keys)
    requires InStep(db, keys) && JoinEnds(db, keys, id, p, w.env.now, w.fate, held, Undisturbed, w.after, keys', w.answer) && w.fate != CommitsUnseen
    ensures InStep(w.after, keys')
  {
    if p in keys.bound {
      assert Seated(db, keys.bound[p], p);
    } else if Acquired(held) {
      assert Perform(db, JoinRoom(id, p), w.env) == JoinTx(db, id, p, w.env.now);
      ReachableStep(db, Step(JoinRoom(id, p), w.env, w.fate), w.after);
      if w.answer.Success? {
        SeatTaken(db, keys, id, p, w.env.now);
        JoinedRoomFollows(db, w.after, keys, id, p, w.env.now);
      }
    }
  }

  /** A player without a binding who joins takes a seat, in every store that Redis is in step with. */
  lemma SeatTaken(db: DB, keys: Keys, id: Id, p: Id, now: Time)
    requires SessionsOk(db, keys.bound) && p !in keys.bound && JoinTx(db, id, p, now).Success?
    ensures JoinTx(db, id, p, now).value.reply == Joined(false)
    ensures id in db.rooms && db.rooms[id].status == Open && p !in db.rooms[id].seats && RoomJoin(RoomVal(id, db.rooms[id], None), p, now).Success?
    ensures JoinTx(db, id, p, now).value.db.rooms == db.rooms[id := db.rooms[id].(seats := db.rooms[id].seats[p := now])]
  {
    JoinIs(db, id, p, now);
    assert !Seated(db, id, p);
  }

  lemma JoinedRoomFollows(db: DB, after: DB, keys: Keys, id: Id, p: Id, now: Time)
    requires IndexOk(db, keys) && SessionsOk(db, keys.bound) && p !in keys.bound
    requires id in db.rooms && db.rooms[id].status == Open && RoomJoin(RoomVal(id, db.rooms[id], None), p, now).Success?
    requires after.rooms == db.rooms[id := db.rooms[id].(seats := db.rooms[id].seats[p := now])]
    ensures var keys' := AfterJoin(keys, db, id, p, now, true, Success(Joined(false)));
            IndexOk(after, keys') && SessionsOk(after, keys'.bound)
  {
    SavingFollows(db, after, keys.(bound := keys.bound[p := id]), RoomJoin(RoomVal(id, db.rooms[id], None), p, now).value);
    SeatIsBound(db, after, keys.bound, id, p, now);
  }

  lemma SeatIsBound(db: DB, after: DB, bound: map<Id, Id>, id: Id, p: Id, now: Time)
    requires SessionsOk(db, bound) && p !in bound && Active(db, id)
    requires after.rooms == db.rooms[id := db.rooms[id].(seats := db.rooms[id].seats[p := now])]
    ensures SessionsOk(after, bound[p := id])
  {
    forall q, r
      ensures (q in bound[p := id] && bound[p := id][q] == r) <==> Seated(after, r, q)
    {
      assert Seated(db, r, q) <==> q in bound && bound[q] == r;
    }
  }

  // ---- runs --------------------------------------------------------------------------------

  datatype Served = Served(db: DB, keys: Keys)

  datatype Turn =
    | Use(req: Request, w: Work)
    | ListOpen(cacheUp: bool, limit: int, offset: int, page: seq<Summary>, fromCache: bool)

  ghost predicate TurnTo(before: Served, t: Turn, after: Served) {
    match t
    case Use(req, w) => w.fate != CommitsUnseen && Serves(before.db, before.keys, req, w, after.keys) && after.db == w.after
    case ListOpen(cacheUp, limit, offset, page, fromCache) =>
      ListingEnds(before.db, before.keys, cacheUp, limit, offset, page, fromCache, after.keys) && after.db == before.db
  }

  /** A run of use cases and listings, one after another, each with its Redis writes. */
  ghost predicate ServedRun(states: seq<Served>, turns: seq<Turn>) {
    && |states| == |turns| + 1 && states[0] == Served(EMPTY, NO_KEYS)
    && forall i :: 0 <= i < |turns| ==> TurnTo(states[i], turns[i], states[i + 1])
  }

  lemma TurnStaysInStep(before: Served, t: Turn, after: Served)
    requires InStep(before.db, before.keys) && TurnTo(before, t, after)
    ensures InStep(after.db, after.keys)
  {
    match t
    case Use(req, w) => ServingStaysInStep(before.db, before.keys, req, w, after.keys);
    case ListOpen(cacheUp, limit, offset, page, fromCache) =>
      if cacheUp && !fromCache {
        ListingKeepsIndex(before.db, before.keys, page, NormalizeLimit(limit), NormalizeOffset(offset));
      }
  }

  /** One request after another, as long as every commit is known to the caller and every Redis write
      succeeds, the index lists exactly the open rooms and the bindings are exactly the seats. */
  lemma {:induction false} RedisStaysInStep(states: seq<Served>, turns: seq<Turn>, n: nat)
    requires ServedRun(states, turns) && n <= |turns|
    ensures InStep(states[n].db, states[n].keys)
  {
    if n == 0 {
      assert Run([EMPTY], []) && [EMPTY][0] == EMPTY;
      assert Reachable(EMPTY);
      assert OpenRooms(EMPTY) == map[];
    } else {
      RedisStaysInStep(states, turns, n - 1);
      assert TurnTo(states[n - 1], turns[n - 1], states[n - 1 + 1]);
      TurnStaysInStep(states[n - 1], turns[n - 1], states[n]);
    }
  }

  /** In such a run every listing, from the cache or from the database, is the page of the open rooms that
      the database would return: different open rooms with their rows' own fields, newest first, as many as limit
      and offset leave. With distinct creation times there is only one such page. */
  lemma ListingsAreExact(states: seq<Served>, turns: seq<Turn>, n: nat, stored: seq<Summary>)
    requires ServedRun(states, turns) && n < |turns| && turns[n].ListOpen?
    requires IsPage(stored, OpenRooms(states[n].db), NormalizeLimit(turns[n].limit), NormalizeOffset(turns[n].offset))
    ensures IsPage(turns[n].page, OpenRooms(states[n].db), NormalizeLimit(turns[n].limit), NormalizeOffset(turns[n].offset))
    ensures RightPage(states[n].db, turns[n].page, NormalizeLimit(turns[n].limit), NormalizeOffset(turns[n].offset))
    ensures DistinctTimes(OpenRooms(states[n].db)) ==> turns[n].page == stored
  {
    RedisStaysInStep(states, turns, n);
    assert TurnTo(states[n], turns[n], states[n + 1]);
    assert OnlyOpen(states[n].keys.open) == OpenRooms(states[n].db);
    PagesAreRight(states[n].db, turns[n].page, NormalizeLimit(turns[n].limit), NormalizeOffset(turns[n].offset));
    if DistinctTimes(OpenRooms(states[n].db)) {
      PathsAgree(states[n].db, states[n].keys, turns[n].page, stored, NormalizeLimit(turns[n].limit), NormalizeOffset(turns[n].offset));
    }
  }

  /** In step, the bindings of Redis and the check in the transaction refuse the same players. */
  lemma RedisRefusesWhatTheStoreRefuses(db: DB, keys: Keys, p: Id)
    requires InStep(db, keys)
    ensures p in keys.bound <==> ActiveRooms(db, p) != {}
    ensures p in keys.bound ==> ActiveRooms(db, p) == {keys.bound[p]}
  {
    ReachableStoresAreGood(db);
    forall r
      ensures r in ActiveRooms(db, p) <==> Seated(db, r, p)
    {
    }
    if p in keys.bound { assert Seated(db, keys.bound[p], p); }
    assert p !in keys.bound ==> forall r :: r !in ActiveRooms(db, p);
  }

  /** In step, a withdrawal succeeds by the rule of the transaction alone: the early check refuses nobody
      whom the transaction would let withdraw. */
  lemma EarlyCheckChangesNothing(db: DB, keys: Keys, p: Id, amount: Cents, fate: Fate, after: DB, r: Result<Reply>)
    requires InStep(db, keys) && WithdrawEnds(db, keys, p, amount, fate, after, r)
    ensures Ends(db, WithdrawTx(db, p, amount), if p in keys.bound then Commits else fate, after, r)
  {
    RedisRefusesWhatTheStoreRefuses(db, keys, p);
  }

  // ---- what a create and a join answer -----------------------------------------------------

  /** In step, a creation succeeds exactly when its transaction commits: for a known player seated nowhere and a
      new room. A seated player is refused by Redis already. */
  lemma CreateAnswers(db: DB, keys: Keys, id: Id, p: Id, now: Time, fate: Fate, after: DB, keys': Keys, r: Result<Reply>)
    requires InStep(db, keys) && CreateEnds(db, keys, id, p, now, fate, after, keys', r)
    ensures r.Success? <==> fate == Commits && id !in db.rooms && p in db.players && forall x :: !Seated(db, x, p)
    ensures (exists x :: Seated(db, x, p)) ==> r == Failure(AlreadyInAnotherRoom) && after == db && keys' == keys
  {
    if p in keys.bound { assert Seated(db, keys.bound[p], p); }
    CreationAnswers(db, id, p, now);
  }

  /** The lock is free at one of four attempts. */
  predicate FreeInTime(held: seq<bool>) {
    exists i :: 0 <= i < |held| && i < 4 && !held[i]
  }

  /** In step, a join by itself succeeds exactly for a player seated in the room, whom it tells so, or, with the
      lock free in time and the commit known, for a known player seated nowhere, in an open room with a free
      seat. A player seated elsewhere and a lock that stays taken have their own errors. */
  lemma JoinAnswers(db: DB, keys: Keys, id: Id, p: Id, now: Time, fate: Fate, held: seq<bool>, after: DB, keys': Keys, r: Result<Reply>)
    requires InStep(db, keys) && JoinEnds(db, keys, id, p, now, fate, held, Undisturbed, after, keys', r)
    ensures r == Success(Joined(true)) <==> Seated(db, id, p)
    ensures r == Success(Joined(false)) <==>
              && FreeInTime(held) && fate == Commits && (forall x :: !Seated(db, x, p)) && p in db.players
              && id in db.rooms && db.rooms[id].status == Open && |db.rooms[id].seats| < 6
    ensures r.Success? ==> r == Success(Joined(true)) || r == Success(Joined(false))
    ensures (exists x :: x != id && Seated(db, x, p)) ==> r == Failure(AlreadyInAnotherRoom)
    ensures (forall x :: !Seated(db, x, p)) && !FreeInTime(held) ==> r == Failure(JoinInProgress)
  {
    ReachableStoresAreGood(db);
    if p in keys.bound {
      assert Seated(db, keys.bound[p], p);
    } else {
      assert forall x :: !Seated(db, x, p);
      JoinRule(db, id, p, now);
      if JoinTx(db, id, p, now).Success? { SeatTaken(db, keys, id, p, now); }
    }
  }

  // ---- exactly when an unreported commit puts Redis out of step ----------------------------

  /** The room was shown in the index or its members were bound, and neither is right any more. */
  lemma ChangedRoomIsOutOfStep(db: DB, after: DB, keys: Keys, id: Id, row: RoomRow)
    requires IndexOk(db, keys) && SessionsOk(db, keys.bound) && Active(db, id) && db.rooms[id].owner in db.rooms[id].seats
    requires after.rooms == db.rooms[id := row]
    requires row.status != db.rooms[id].status || (row.status == Open && row.currentRound != db.rooms[id].currentRound)
    requires row.status == Open ==> db.rooms[id].status == Open
    ensures !(IndexOk(after, keys) && SessionsOk(after, keys.bound))
  {
    if db.rooms[id].status == Open {
      assert id in OpenRooms(db) && OpenRooms(db)[id].currentRound == db.rooms[id].currentRound;
      assert id in OpenRooms(after) ==> OpenRooms(after)[id].currentRound == row.currentRound;
    } else {
      assert Seated(db, id, db.rooms[id].owner) && !Seated(after, id, db.rooms[id].owner);
    }
  }

  /** A start, settlement, close or abort puts Redis out of step exactly when it was committed, reported as
      an error, and changed the room's row. */
  lemma RoundOutOfStepIff(db: DB, keys: Keys, req: Request, w: Work)
    requires InStep(db, keys) && Serves(db, keys, req, w, CacheAfter(db, keys, req, w))
    requires req.StartRound? || req.SettleRound? || req.CloseRoom? || req.AbortRoom?
    ensures InStep(w.after, CacheAfter(db, keys, req, w)) <==>
            !(w.fate == CommitsUnseen && Perform(db, req, w.env).Success? && Perform(db, req, w.env).value.db.rooms != db.rooms)
  {
    if w.fate != CommitsUnseen {
      RoundStaysInStep(db, keys, req, w);
    } else if Perform(db, req, w.env).Success? {
      UnseenRoundOutOfStepIff(db, keys, req, w);
    }
  }

  lemma UnseenRoundOutOfStepIff(db: DB, keys: Keys, req: Request, w: Work)
    requires InStep(db, keys) && Serves(db, keys, req, w, CacheAfter(db, keys, req, w)) && w.fate == CommitsUnseen
    requires Perform(db, req, w.env).Success?
    requires req.StartRound? || req.SettleRound? || req.CloseRoom? || req.AbortRoom?
    ensures InStep(w.after, CacheAfter(db, keys, req, w)) <==> Perform(db, req, w.env).value.db.rooms == db.rooms
  {
    ReachableStep(db, Step(req, w.env, w.fate), w.after);
    if Perform(db, req, w.env).value.db.rooms == db.rooms {
      SameRoomsInStep(db, w.after, keys);
    } else {
      AggregateIsStored(db, req, w.env);
      var row := Aggregate(db, req, w.env).value.row;
      assert row != db.rooms[req.room];
      OwnersAreSeated(db, req.room);
      ChangedRoomIsOutOfStep(db, w.after, keys, req.room, row);
    }
  }

  lemma OwnersAreSeated(db: DB, id: Id)
    requires Reachable(db) && id in db.rooms
    ensures db.rooms[id].owner in db.rooms[id].seats
  {
    ReachableStoresAreGood(db);
    assert RoomOk(db.rooms[id]);
  }

  /** A join does so exactly when it took a seat and was reported as an error: the player is seated
      without a binding. */
  lemma JoinOutOfStepIff(db: DB, keys: Keys, id: Id, p: Id, w: Work, held: seq<bool>, keys': Keys)
    requires InStep(db, keys) && JoinEnds(db, keys, id, p, w.env.now, w.fate, held, Undisturbed, w.after, keys', w.answer)
    ensures InStep(w.after, keys') <==>
            !(p !in keys.bound && Acquired(held) && w.fate == CommitsUnseen && JoinTx(db, id, p, w.env.now).Success?)
  {
    if w.fate != CommitsUnseen {
      JoiningStaysInStep(db, keys, id, p, w, held, keys');
    } else if p in keys.bound {
      assert Seated(db, keys.bound[p], p);
    } else if Acquired(held) && JoinTx(db, id, p, w.env.now).Success? {
      SeatTaken(db, keys, id, p, w.env.now);
      assert Seated(w.after, id, p);
    }
  }

  /** A creation puts Redis out of step exactly when it was committed and reported as an error: the owner
      is seated without a binding, in a room the index does not list. */
  lemma CreationOutOfStepIff(db: DB, keys: Keys, id: Id, p: Id, w: Work, keys': Keys)
    requires InStep(db, keys) && CreateEnds(db, keys, id, p, w.env.now, w.fate, w.after, keys', w.answer)
    ensures InStep(w.after, keys') <==> !(p !in keys.bound && w.fate == CommitsUnseen && CreateTx(db, id, p, w.env.now).Success?)
  {
    if w.fate != CommitsUnseen {
      CreatingStaysInStep(db, keys, id, p, w, keys');
    } else if p !in keys.bound && CreateTx(db, id, p, w.env.now).Success? {
      CreateIs(db, id, p, w.env.now);
      assert Seated(w.after, id, p);
    }
  }

  /** A settlement that closes its room and is reported as an error strands the members: the abort that
      the engine tries next is refused, because the room is closed, and writes nothing to Redis, so every
      member stays bound to a room that is closed and is refused every withdrawal. */
  lemma UnseenClosingStrandsMembers(db: DB, keys: Keys, id: Id, w: Work, abort: Work, p: Id, amount: Cents, fate: Fate,
                                    after: DB, r: Result<Reply>)
    requires InStep(db, keys) && Serves(db, keys, SettleRound(id), w, CacheAfter(db, keys, SettleRound(id), w))
    requires w.fate == CommitsUnseen && Perform(db, SettleRound(id), w.env).Success?
    requires id in db.rooms && p in db.rooms[id].seats && id in w.after.rooms && w.after.rooms[id].status == Closed
    requires Serves(w.after, keys, AbortRoom(id), abort, CacheAfter(w.after, keys, AbortRoom(id), abort))
    requires WithdrawEnds(abort.after, keys, p, amount, fate, after, r)
    ensures CacheAfter(db, keys, SettleRound(id), w) == keys
    ensures AbortTx(w.after, id, abort.env.now, abort.env.orders) == Failure(RoomClosed)
    ensures CacheAfter(w.after, keys, AbortRoom(id), abort) == keys && abort.after == w.after
    ensures p in keys.bound && keys.bound[p] == id && !Seated(w.after, id, p)
    ensures r.Failure? && after == abort.after
  {
    UnreportedWritesNothing(db, keys, SettleRound(id), w);
    AggregateIsStored(db, SettleRound(id), w.env);
    RefusedAbortWritesNothing(w.after, keys, id, abort);
    assert Seated(db, id, p);
    assert !Seated(w.after, id, p);
  }

  lemma UnreportedWritesNothing(db: DB, keys: Keys, req: Request, w: Work)
    requires w.fate == CommitsUnseen && Ends(db, Perform(db, req, w.env), w.fate, w.after, w.answer)
    ensures w.answer.Failure? && CacheAfter(db, keys, req, w) == keys
  {
  }

  lemma RefusedAbortWritesNothing(db: DB, keys: Keys, id: Id, abort: Work)
    requires id in db.rooms && db.rooms[id].status == Closed
    requires Ends(db, Perform(db, AbortRoom(id), abort.env), abort.fate, abort.after, abort.answer)
    ensures AbortTx(db, id, abort.env.now, abort.env.orders) == Failure(RoomClosed)
    ensures CacheAfter(db, keys, AbortRoom(id), abort) == keys && abort.after == db
  {
  }
}
