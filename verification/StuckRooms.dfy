/** A room whose abort cannot succeed: a bettor's balance is so high that the refund would overflow an
    int64. Nothing but a settlement ends this, and nothing prevents it. */
module StuckRooms {
  import opened Types
  import opened Money
  import opened Dice
  import opened Game
  import opened Wallet
  import opened Store
  import opened Transactions
  import opened StoreInvariant
  import opened Preservation
  import opened Steps
  import opened Persistence
  import opened Runs

  /** The room has a live round, and some stake of it does not fit back into its player's balance. */
  ghost predicate Stuck(db: DB, id: Id) {
    Live(db, id) && !RefundsFit(db, id)
  }

  /** The round is still live, its bets are still there, and no bettor of it has become poorer. */
  ghost predicate NotRelieved(before: DB, after: DB, id: Id)
    requires id in before.rooms
  {
    && Live(after, id) && CurrentKey(after, id) == CurrentKey(before, id)
    && forall p :: BetKey(CurrentKey(before, id), p) in before.bets ==> BettorKept(before, after, BetKey(CurrentKey(before, id), p))
  }

  ghost predicate BettorKept(before: DB, after: DB, k: BetKey)
    requires k in before.bets
  {
    && k in after.bets && after.bets[k].amount == before.bets[k].amount
    && (k.player in before.players ==> k.player in after.players && after.players[k.player] >= before.players[k.player])
  }

  lemma NotRelievedIsStuck(before: DB, after: DB, id: Id)
    requires Inv(before) && Stuck(before, id) && NotRelieved(before, after, id)
    ensures Stuck(after, id)
  {
    var key := CurrentKey(before, id);
    var p :| BetKey(key, p) in before.bets &&
             !(p in before.players && before.players[p] + before.bets[BetKey(key, p)].amount <= MAX_CENTS);
    assert BetOk(before, BetKey(key, p));
    assert BettorKept(before, after, BetKey(key, p));
  }

  /** The same rooms, rounds and bets, and nobody with a seat in the room poorer. */
  lemma MoneyMovesElsewhere(before: DB, after: DB, id: Id)
    requires BetsOk(before) && Live(before, id)
    requires after.rooms == before.rooms && after.rounds == before.rounds
    requires forall k :: k in before.bets ==> k in after.bets && after.bets[k] == before.bets[k]
    requires forall p :: p in before.players && p in before.rooms[id].seats ==>
               p in after.players && after.players[p] >= before.players[p]
    ensures NotRelieved(before, after, id)
  {
    forall p | BetKey(CurrentKey(before, id), p) in before.bets
      ensures BettorKept(before, after, BetKey(CurrentKey(before, id), p))
    {
      assert BetOk(before, BetKey(CurrentKey(before, id), p));
    }
  }

  /** No use case but settling or aborting the room relieves it. A member can neither withdraw nor bet
      again, in this room or in another one. */
  lemma UseCaseDoesNotRelieve(db: DB, req: Request, env: Env, id: Id)
    requires Inv(db) && Feasible(db, req, env) && Perform(db, req, env).Success? && Live(db, id)
    requires req != SettleRound(id) && req != AbortRoom(id)
    ensures NotRelieved(db, Perform(db, req, env).value.db, id)
  {
    match req
    case Register(_) => MoneyMovesElsewhere(db, Perform(db, req, env).value.db, id);
    case DepositFunds(_, _) => WalletDoesNotRelieve(db, req, env, id);
    case WithdrawFunds(_, _) => WalletDoesNotRelieve(db, req, env, id);
    case PlaceBet(r, p, choice, amount) => BetDoesNotRelieve(db, r, p, choice, amount, env.now, id);
    case SettleRound(r) => OtherSettlementDoesNotRelieve(db, r, env.roll, env.now, env.order, id);
    case AbortRoom(r) => OtherAbortDoesNotRelieve(db, r, env.now, env.orders, id);
    case _ => RoomsDoNotRelieve(db, req, env, id);
  }

  lemma WalletDoesNotRelieve(db: DB, req: Request, env: Env, id: Id)
    requires BetsOk(db) && BalancesOk(db) && Perform(db, req, env).Success? && Live(db, id)
    requires req.DepositFunds? || req.WithdrawFunds?
    ensures NotRelieved(db, Perform(db, req, env).value.db, id)
  {
    match req
    case DepositFunds(p, amount) => CreditPosts(db, Entry(p, Deposit, amount, None));
    case WithdrawFunds(p, amount) =>
      DebitPosts(db, Entry(p, Withdraw, amount, None));
      assert id !in ActiveRooms(db, p);
    MoneyMovesElsewhere(db, Perform(db, req, env).value.db, id);
  }

  lemma BetDoesNotRelieve(db: DB, r: Id, p: Id, choice: Parity, amount: Cents, now: Time, id: Id)
    requires Inv(db) && PlaceTx(db, r, p, choice, amount, now).Success? && Live(db, id)
    ensures NotRelieved(db, PlaceTx(db, r, p, choice, amount, now).value.db, id)
  {
    PlaceIs(db, r, p, choice, amount, now);
    NewBetDoesNotRelieve(db, PlaceTx(db, r, p, choice, amount, now).value.db, r, p, BetRow(choice, amount, now, None), id);
  }

  lemma NewBetDoesNotRelieve(db: DB, after: DB, r: Id, p: Id, bet: BetRow, id: Id)
    requires BetsOk(db) && SeatsOk(db) && Live(db, id) && Live(db, r) && p in db.rooms[r].seats
    requires BetKey(CurrentKey(db, r), p) !in db.bets
    requires Posted(db.(bets := db.bets[BetKey(CurrentKey(db, r), p) := bet]), after, Entry(p, Stake, bet.amount, Some(CurrentKey(db, r))))
    ensures NotRelieved(db, after, id)
  {
    forall q | BetKey(CurrentKey(db, id), q) in db.bets
      ensures BettorKept(db, after, BetKey(CurrentKey(db, id), q))
    {
      assert BetOk(db, BetKey(CurrentKey(db, id), q));
      assert Seated(db, id, q) && Seated(db, r, p);
      assert q == p ==> r == id;
    }
  }

  lemma OtherSettlementDoesNotRelieve(db: DB, r: Id, roll: Result<(int, int)>, now: Time, order: seq<Id>, id: Id)
    requires Inv(db) && SettleTx(db, r, roll, now, order).Success? && Live(db, id) && r != id
    requires GetCurrent(db, r).Some? ==> InTimeOrder(order, PlacedAt(GetCurrent(db, r).value.bets))
    ensures NotRelieved(db, SettleTx(db, r, roll, now, order).value.db, id)
  {
    assert GetCurrent(db, r).Some?;
    SettleIs(db, r, roll, now, order);
    SettledElsewhere(db, SettleTx(db, r, roll, now, order).value.db, r, roll.value.0, roll.value.1,
                     OutcomeOf(roll.value.0, roll.value.1).value, now, order, id);
  }

  lemma SettledElsewhere(db: DB, after: DB, r: Id, die1: int, die2: int, side: Parity, now: Time, order: seq<Id>, id: Id)
    requires Live(db, r) && Settles(db, after, r, die1, die2, side, now, order) && Live(db, id) && r != id
    ensures NotRelieved(db, after, id)
  {
    PayoutsRaiseBalances(db, after, CurrentKey(db, r), order, side);
    OtherBetsAreKept(db, after, CurrentKey(db, r), order, side);
    OtherRoundsAreKept(db, after, r, die1, die2, side, now, id);
  }

  ghost predicate BetsKeptElsewhere(before: DB, after: DB, key: RoundKey) {
    forall k :: k in before.bets && k.round != key ==> k in after.bets && after.bets[k] == before.bets[k]
  }

  lemma OtherRoundsAreKept(db: DB, after: DB, r: Id, die1: int, die2: int, side: Parity, now: Time, id: Id)
    requires Live(db, r) && SettlesRound(db, after, r, die1, die2, side, now) && Live(db, id) && r != id
    requires NoneLoses(db, after) && BetsKeptElsewhere(db, after, CurrentKey(db, r))
    ensures NotRelieved(db, after, id)
  {
  }

  lemma PayoutsRaiseBalances(db: DB, after: DB, key: RoundKey, order: seq<Id>, side: Parity)
    requires Gave(db.(rooms := after.rooms, rounds := after.rounds), after, key, order, Winnings(BetsOf(db.bets, key), side))
    ensures NoneLoses(db, after)
  {
    forall p | p in db.players
      ensures p in after.players && after.players[p] >= db.players[p]
    {
      assert p in after.players.Keys;
    }
  }

  lemma OtherBetsAreKept(db: DB, after: DB, key: RoundKey, order: seq<Id>, side: Parity)
    requires ResultsRecorded(db, after, key, order, side)
    ensures BetsKeptElsewhere(db, after, key)
  {
    forall k | k in db.bets && k.round != key
      ensures k in after.bets && after.bets[k] == db.bets[k]
    {
      assert k in after.bets.Keys;
    }
  }

  lemma OtherAbortDoesNotRelieve(db: DB, r: Id, now: Time, orders: map<int, seq<Id>>, id: Id)
    requires Inv(db) && OrdersOk(db, r, orders) && AbortTx(db, r, now, orders).Success? && Live(db, id) && r != id
    ensures NotRelieved(db, AbortTx(db, r, now, orders).value.db, id)
  {
    AbortIs(db, r, now, orders);
    AbortedElsewhere(db, AbortTx(db, r, now, orders).value.db, r, now, id);
  }

  lemma AbortedElsewhere(db: DB, after: DB, r: Id, now: Time, id: Id)
    requires r in db.rooms && Aborts(db, after, r, now) && Live(db, id) && r != id
    ensures NotRelieved(db, after, id)
  {
  }

  lemma RoomsDoNotRelieve(db: DB, req: Request, env: Env, id: Id)
    requires TablesOk(db) && Perform(db, req, env).Success? && Live(db, id)
    requires req.CreateRoomFor? || req.JoinRoom? || req.StartRound? || req.CloseRoom?
    ensures NotRelieved(db, Perform(db, req, env).value.db, id)
  {
    if req.CreateRoomFor? || req.JoinRoom? {
      SeatsDoNotRelieve(db, req, env, id);
    } else {
      OwnersDoNotRelieve(db, req, env, id);
    }
    SameMoney(db, Perform(db, req, env).value.db, id);
  }

  lemma SameMoney(before: DB, after: DB, id: Id)
    requires id in before.rooms && Live(after, id) && CurrentKey(after, id) == CurrentKey(before, id)
    requires after.bets == before.bets && after.players == before.players
    ensures NotRelieved(before, after, id)
  {
  }

  lemma SeatsDoNotRelieve(db: DB, req: Request, env: Env, id: Id)
    requires TablesOk(db) && Perform(db, req, env).Success? && Live(db, id) && (req.CreateRoomFor? || req.JoinRoom?)
    ensures var after := Perform(db, req, env).value.db;
            Live(after, id) && CurrentKey(after, id) == CurrentKey(db, id) && after.bets == db.bets && after.players == db.players
  {
    match req
    case CreateRoomFor(r, p) => CreateIs(db, r, p, env.now);
    case JoinRoom(r, p) => JoinIs(db, r, p, env.now);
  }

  lemma OwnersDoNotRelieve(db: DB, req: Request, env: Env, id: Id)
    requires TablesOk(db) && Perform(db, req, env).Success? && Live(db, id) && (req.StartRound? || req.CloseRoom?)
    ensures var after := Perform(db, req, env).value.db;
            Live(after, id) && CurrentKey(after, id) == CurrentKey(db, id) && after.bets == db.bets && after.players == db.players
  {
    match req
    case StartRound(r, p) => StartIs(db, r, p, env.now, env.window);
    case CloseRoom(r, p) => CloseIs(db, r, p, env.now);
  }

  // ---- runs --------------------------------------------------------------------------------

  lemma StepStaysStuck(before: DB, s: Step, after: DB, id: Id)
    requires Reachable(before) && StepTo(before, s, after) && Stuck(before, id)
    requires s.request == SettleRound(id) ==> after == before
    ensures Stuck(after, id)
  {
    if after != before {
      if s.request == AbortRoom(id) {
        StuckCannotAbort(before, id);
      } else {
        OtherUseCaseStaysStuck(before, s.request, s.env, id);
      }
    }
  }

  lemma OtherUseCaseStaysStuck(db: DB, req: Request, env: Env, id: Id)
    requires Reachable(db) && Feasible(db, req, env) && Perform(db, req, env).Success? && Stuck(db, id)
    requires req != SettleRound(id) && req != AbortRoom(id)
    ensures Stuck(Perform(db, req, env).value.db, id)
  {
    ReachableStoresAreGood(db);
    UseCaseDoesNotRelieve(db, req, env, id);
    NotRelievedIsStuck(db, Perform(db, req, env).value.db, id);
  }

  /** A stuck room stays stuck in every run that commits no settlement of it, and every attempt to abort it
      fails, whoever makes it and however often. */
  lemma {:induction false} StuckRoomsStayStuck(stores: seq<DB>, steps: seq<Step>, id: Id, n: nat)
    requires Run(stores, steps) && Reachable(stores[0]) && n <= |steps| && Stuck(stores[0], id)
    requires forall i :: 0 <= i < n && steps[i].request == SettleRound(id) ==> stores[i + 1] == stores[i]
    ensures Stuck(stores[n], id)
    ensures forall now, orders :: OrdersOk(stores[n], id, orders) ==> AbortTx(stores[n], id, now, orders).Failure?
  {
    if n > 0 {
      StuckRoomsStayStuck(stores, steps, id, n - 1);
      RunReaches(stores, steps, n - 1);
      assert StepTo(stores[n - 1], steps[n - 1], stores[n - 1 + 1]);
      StepStaysStuck(stores[n - 1], steps[n - 1], stores[n], id);
    }
    RunReaches(stores, steps, n);
    StuckCannotAbort(stores[n], id);
  }

  lemma StuckCannotAbort(db: DB, id: Id)
    requires Reachable(db) && Stuck(db, id)
    ensures forall now, orders :: OrdersOk(db, id, orders) ==> AbortTx(db, id, now, orders).Failure?
  {
    ReachableStoresAreGood(db);
    forall now, orders | OrdersOk(db, id, orders)
      ensures AbortTx(db, id, now, orders).Failure?
    {
      AbortIs(db, id, now, orders);
    }
  }

  // ---- how a room gets stuck ---------------------------------------------------------------

  lemma CommittedIsReachable(db: DB, req: Request, now: Time, window: int)
    requires Reachable(db) && !req.SettleRound? && !req.AbortRoom?
    requires Perform(db, req, Env(now, window, Failure(EntropyFailed), [], map[])).Success?
    ensures Reachable(Perform(db, req, Env(now, window, Failure(EntropyFailed), [], map[])).value.db)
  {
    var env := Env(now, window, Failure(EntropyFailed), [], map[]);
    ReachableStep(db, Step(req, env, Commits), Perform(db, req, env).value.db);
  }

  /** One player with one cent. */
  lemma PlayerWithACent() returns (db: DB)
    ensures Reachable(db) && db.players == map[1 := 1] && db.rooms == map[] && db.rounds == map[] && db.bets == map[]
  {
    assert Run([EMPTY], []) && [EMPTY][0] == EMPTY;
    assert Reachable(EMPTY);
    CommittedIsReachable(EMPTY, Register(1), 0, 0);
    var registered := RegisterTx(EMPTY, 1).value.db;
    ReachableStoresAreGood(registered);
    CreditPosts(registered, Entry(1, Deposit, 1, None));
    CommittedIsReachable(registered, DepositFunds(1, 1), 0, 0);
    db := DepositTx(registered, 1, 1).value.db;
  }

  /** The player opens a room and starts a round of fifteen seconds. */
  lemma RoundOfOnePlayer() returns (db: DB)
    ensures Reachable(db) && db.players == map[1 := 1] && db.bets == map[] && Live(db, 7)
    ensures 1 in db.rooms[7].seats && db.rounds[CurrentKey(db, 7)].opensAt == 0 && db.rounds[CurrentKey(db, 7)].closesAt == 15
  {
    var before := PlayerWithACent();
    var room := before.(rooms := map[7 := NewRoom(7, 1, 0).row]);
    assert ActiveRooms(before, 1) == {};
    CreateTxIs(before);
    CommittedIsReachable(before, CreateRoomFor(7, 1), 0, 0);
    ReachableStoresAreGood(room);
    assert !Undecided(room, 7);
    StartRule(room, 7, 1, 0, 15);
    StartIs(room, 7, 1, 0, 15);
    CommittedIsReachable(room, StartRound(7, 1), 0, 15);
    db := StartTx(room, 7, 1, 0, 15).value.db;
  }

  lemma CreateTxIs(db: DB)
    requires db.players == map[1 := 1] && db.rooms == map[]
    ensures CreateTx(db, 7, 1, 0) == Success(Done(db.(rooms := map[7 := NewRoom(7, 1, 0).row]), RoomCreated))
  {
    assert ActiveRooms(db, 1) == {};
    CreateIs(db, 7, 1, 0);
  }

  /** And bets the cent. */
  lemma BetOfACent() returns (db: DB)
    ensures Reachable(db) && db.players == map[1 := 0] && Live(db, 7)
    ensures BetKey(CurrentKey(db, 7), 1) in db.bets && db.bets[BetKey(CurrentKey(db, 7), 1)].amount == 1
  {
    var before := RoundOfOnePlayer();
    db := BetOf(before, 7, 1, 1, 0);
    assert db.players == map[1 := 0];
  }

  /** A bet that the rule accepts, from any reachable store. */
  lemma BetOf(before: DB, r: Id, p: Id, amount: Cents, now: Time) returns (db: DB)
    requires Reachable(before) && Live(before, r) && p in before.rooms[r].seats && p in before.players && 0 < amount <= before.players[p]
    requires BetKey(CurrentKey(before, r), p) !in before.bets
    requires before.rounds[CurrentKey(before, r)].opensAt <= now < before.rounds[CurrentKey(before, r)].closesAt
    ensures Reachable(db) && Live(db, r) && db.players == before.players[p := before.players[p] - amount] && db.rooms == before.rooms
    ensures BetKey(CurrentKey(db, r), p) in db.bets && db.bets[BetKey(CurrentKey(db, r), p)].amount == amount
  {
    ReachableStoresAreGood(before);
    PlaceRule(before, r, p, Even, amount, now);
    db := PlaceTx(before, r, p, Even, amount, now).value.db;
    BetReaches(before, r, p, amount, now);
    BetLeaves(before, db, r, p, amount, now);
  }

  lemma BetReaches(before: DB, r: Id, p: Id, amount: Cents, now: Time)
    requires Reachable(before) && PlaceTx(before, r, p, Even, amount, now).Success?
    ensures Reachable(PlaceTx(before, r, p, Even, amount, now).value.db)
  {
    CommittedIsReachable(before, PlaceBet(r, p, Even, amount), now, 0);
  }

  lemma BetLeaves(before: DB, db: DB, r: Id, p: Id, amount: Cents, now: Time)
    requires Inv(before) && PlaceTx(before, r, p, Even, amount, now).Success? && db == PlaceTx(before, r, p, Even, amount, now).value.db
    ensures Live(db, r) && p in before.players && db.players == before.players[p := before.players[p] - amount] && db.rooms == before.rooms
    ensures BetKey(CurrentKey(db, r), p) in db.bets && db.bets[BetKey(CurrentKey(db, r), p)].amount == amount
  {
    PlaceIs(before, r, p, Even, amount, now);
    PostedBet(before, db, r, p, BetRow(Even, amount, now, None));
  }

  lemma PostedBet(before: DB, db: DB, r: Id, p: Id, bet: BetRow)
    requires Live(before, r) && p in before.players
    requires Posted(before.(bets := before.bets[BetKey(CurrentKey(before, r), p) := bet]), db,
                    Entry(p, Stake, bet.amount, Some(CurrentKey(before, r))))
    ensures Live(db, r) && db.players == before.players[p := before.players[p] - bet.amount] && db.rooms == before.rooms
    ensures BetKey(CurrentKey(db, r), p) in db.bets && db.bets[BetKey(CurrentKey(db, r), p)].amount == bet.amount
  {
  }

  /** Rooms do get stuck: a player bets one cent and then deposits up to the largest int64. */
  lemma ARoomGetsStuck() returns (db: DB)
    ensures Reachable(db) && Stuck(db, 7)
  {
    var bet := BetOfACent();
    ReachableStoresAreGood(bet);
    CreditPosts(bet, Entry(1, Deposit, MAX_CENTS, None));
    CommittedIsReachable(bet, DepositFunds(1, MAX_CENTS), 0, 0);
    db := DepositTx(bet, 1, MAX_CENTS).value.db;
    assert BetKey(CurrentKey(db, 7), 1) in db.bets;
  }
}
