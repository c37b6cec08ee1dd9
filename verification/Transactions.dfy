/** What each use case does inside its one transaction (internal/application/game,
    internal/application/wallet), as a function of the store: load the aggregate, run the
    domain operation, write its result through the repositories. */
module Transactions {
  import opened Types
  import opened Money
  import opened Dice
  import opened Game
  import opened Wallet
  import opened Store
  import opened FiniteSets

  datatype CloseReason = MaxRoundsPlayed | OwnerClosed

  datatype Reply =
    | Registered
    | Balance(balance: Cents)
    | RoomCreated
    | Joined(alreadyMember: bool)
    | Started(round: RoundKey, opensAt: Time, closesAt: Time)
    | Placed(round: RoundKey)
    | RoundSettled(round: RoundKey, die1: int, die2: int, outcome: Parity, results: seq<Outcome>, balances: map<Id, Cents>,
                   roomClosed: bool, reason: CloseReason)
    | RoomEnded(closed: bool, balances: map<Id, Cents>)

  datatype Done = Done(db: DB, reply: Reply)

  datatype Request =
    | Register(player: Id)
    | DepositFunds(player: Id, amount: Cents)
    | WithdrawFunds(player: Id, amount: Cents)
    | CreateRoomFor(room: Id, player: Id)
    | JoinRoom(room: Id, player: Id)
    | StartRound(room: Id, player: Id)
    | PlaceBet(room: Id, player: Id, choice: Parity, amount: Cents)
    | SettleRound(room: Id)
    | CloseRoom(room: Id, player: Id)
    | AbortRoom(room: Id)

  /** What a transaction takes from outside the store: the clock, the configured window, the dice,
      and the orders in which Bets() returned the bets of a round. */
  datatype Env = Env(now: Time, window: int, roll: Result<(int, int)>, order: seq<Id>, orders: map<int, seq<Id>>)

  function Attached(db: DB, id: Id): Result<RoomVal> {
    var room :- LoadRoom(db, id);
    Success(RoomAttach(room, GetCurrent(db, id)))
  }

  function MemberBalances(db: DB, members: set<Id>): Result<map<Id, Cents>> {
    if forall p :: p in members ==> p in db.players && db.players[p] >= 0
    then Success(map p | p in members :: db.players[p])
    else Failure(PlayerNotFound)
  }

  function RegisterTx(db: DB, player: Id): Result<Done> {
    var db1 :- CreatePlayer(db, player);
    Success(Done(db1, Registered))
  }

  function DepositTx(db: DB, player: Id, amount: Cents): Result<Done> {
    if amount <= 0 then Failure(InvalidAmount)
    else
      var db1 :- CreditPlayer(db, Entry(player, Deposit, amount, None));
      Success(Done(db1, Balance(db1.players[player])))
  }

  function WithdrawTx(db: DB, player: Id, amount: Cents): Result<Done> {
    if amount <= 0 then Failure(InvalidAmount)
    else if ActiveRooms(db, player) != {} then Failure(WithdrawalBlocked)
    else
      var db1 :- DebitPlayer(db, Entry(player, Withdraw, amount, None));
      Success(Done(db1, Balance(db1.players[player])))
  }

  function CreateTx(db: DB, room: Id, owner: Id, now: Time): Result<Done> {
    if ActiveRooms(db, owner) != {} then Failure(AlreadyInAnotherRoom)
    else
      var db1 :- CreateRoom(db, NewRoom(room, owner, now));
      Success(Done(db1, RoomCreated))
  }

  /** A player already seated in this room gets a success that changes nothing. */
  function JoinTx(db: DB, id: Id, player: Id, now: Time): Result<Done> {
    var room :- LoadRoom(db, id);
    if !(ActiveRooms(db, player) <= {id}) then Failure(AlreadyInAnotherRoom)
    else match RoomJoin(room, player, now)
      case Failure(e) => if e == AlreadyJoined then Success(Done(db, Joined(true))) else Failure(e)
      case Success(_) => match AddPlayer(db, id, player, now)
        case Failure(e) => if e == AlreadyJoined then Success(Done(db, Joined(true))) else Failure(e)
        case Success(db1) => Success(Done(db1, Joined(false)))
  }

  function StartTx(db: DB, id: Id, requester: Id, now: Time, window: int): Result<Done> {
    var room :- Attached(db, id);
    if requester != room.row.owner then Failure(NotOwner)
    else
      var after :- RoomStartRound(room, now, window);
      var round := after.round.value;
      var db1 :- CreateRound(db, round.key, round.row);
      var db2 :- SetCurrentRound(db1, id, after.row.currentRound);
      Success(Done(db2, Started(round.key, round.row.opensAt, round.row.closesAt)))
  }

  function Accepted(db: DB, k: BetKey, bet: BetRow): Result<Done> {
    var db1 :- InsertBet(db, k, bet);
    var db2 :- DebitPlayer(db1, Entry(k.player, Stake, bet.amount, Some(k.round)));
    Success(Done(db2, Placed(k.round)))
  }

  function PlaceTx(db: DB, id: Id, player: Id, choice: Parity, amount: Cents, now: Time): Result<Done> {
    if amount <= 0 then Failure(InvalidAmount)
    else
      var room :- Attached(db, id);
      var current := GetCurrent(db, id);
      if current.None? then Failure(NoActiveRound)
      else
        var key, bet := current.value.key, BetRow(choice, amount, now, None);
        var _ :- RoomPlaceBet(room, player, key, bet, now);
        Accepted(db, BetKey(key, player), bet)
  }

  /** The loop over the results: the bet row first, then the credit of a winner. */
  function PayOne(db: DB, key: RoundKey, o: Outcome): Result<DB> {
    var db1 :- SettleBetRow(db, BetKey(key, o.player), BetResult(o.won, o.payout));
    if !o.won || o.payout <= 0 then Success(db1)
    else CreditPlayer(db1, Entry(o.player, Payback, o.payout, Some(key)))
  }

  function PayAll(db: DB, key: RoundKey, results: seq<Outcome>): Result<DB> {
    if results == [] then Success(db)
    else
      var db1 :- PayAll(db, key, results[..|results| - 1]);
      PayOne(db1, key, results[|results| - 1])
  }

  function SettleTx(db: DB, id: Id, roll: Result<(int, int)>, now: Time, order: seq<Id>): Result<Done> {
    var room :- Attached(db, id);
    var current := GetCurrent(db, id);
    if current.None? then Failure(NoActiveRound)
    else
      var after :- RoomSettle(room, roll, now);
      var key := current.value.key;
      var db1 :- SettleRoundRow(db, key, after.round.value.row);
      if !(forall p :: p in order ==> p in current.value.bets) then Failure(Infrastructure)
      else
        var results := Outcomes(current.value.bets, after.round.value.row.outcome.value, order);
        var db2 :- PayAll(db1, key, results);
        var db3 :- if after.row.status == Closed then UpdateStatus(db2, id, after.row.status, after.row.closedAt) else Success(db2);
        var balances :- MemberBalances(db3, room.row.seats.Keys);
        var row := after.round.value.row;
        Success(Done(db3, RoundSettled(key, row.die1, row.die2, row.outcome.value, results, balances, after.row.status == Closed,
                                       if key.number < MAX_ROUNDS then OwnerClosed else MaxRoundsPlayed)))
  }

  function CloseTx(db: DB, id: Id, requester: Id, now: Time): Result<Done> {
    var room :- Attached(db, id);
    var after :- RoomClose(room, requester, now);
    var db1 :- UpdateStatus(db, id, after.row.status, after.row.closedAt);
    if after.row.status == Closed then
      var balances :- MemberBalances(db1, room.row.seats.Keys);
      Success(Done(db1, RoomEnded(true, balances)))
    else Success(Done(db1, RoomEnded(false, map[])))
  }

  /** The inner loop of an abort: every unsettled stake of one round goes back to its player. */
  function RefundBets(db: DB, key: RoundKey, bets: map<Id, BetRow>, order: seq<Id>): Result<DB> {
    if order == [] then Success(db)
    else
      var db1 :- RefundBets(db, key, bets, order[..|order| - 1]);
      var p := order[|order| - 1];
      if p !in bets || bets[p].result.Some? then Success(db1)
      else CreditPlayer(db1, Entry(p, Payback, bets[p].amount, Some(key)))
  }

  /** The outer loop, over the rounds 1..n of the room as they were read before any refund. */
  function RefundRounds(db: DB, id: Id, n: int, orders: map<int, seq<Id>>): Result<DB>
    decreases n
  {
    if n <= 0 then Success(db)
    else
      var db1 :- RefundRounds(db, id, n - 1, orders);
      var key := RoundKey(id, n);
      if key !in db.rounds || db.rounds[key].status != Betting then Success(db1)
      else RefundBets(db1, key, BetsOf(db.bets, key), if n in orders then orders[n] else [])
  }

  function LastNumber(db: DB, id: Id): int {
    if Numbers(db, id) == {} then 0 else Max(Numbers(db, id))
  }

  function AbortTx(db: DB, id: Id, now: Time, orders: map<int, seq<Id>>): Result<Done> {
    var room :- LoadRoom(db, id);
    if room.row.status == Closed then Failure(RoomClosed)
    else
      var db1 :- RefundRounds(db, id, LastNumber(db, id), orders);
      var after := RoomForceClose(room, now);
      var db2 :- UpdateStatus(db1, id, after.row.status, after.row.closedAt);
      var balances :- MemberBalances(db2, room.row.seats.Keys);
      Success(Done(db2, RoomEnded(true, balances)))
  }

  function Perform(db: DB, r: Request, env: Env): Result<Done> {
    match r
    case Register(player) => RegisterTx(db, player)
    case DepositFunds(player, amount) => DepositTx(db, player, amount)
    case WithdrawFunds(player, amount) => WithdrawTx(db, player, amount)
    case CreateRoomFor(room, player) => CreateTx(db, room, player, env.now)
    case JoinRoom(room, player) => JoinTx(db, room, player, env.now)
    case StartRound(room, player) => StartTx(db, room, player, env.now, env.window)
    case PlaceBet(room, player, choice, amount) => PlaceTx(db, room, player, choice, amount, env.now)
    case SettleRound(room) => SettleTx(db, room, env.roll, env.now, env.order)
    case CloseRoom(room, player) => CloseTx(db, room, player, env.now)
    case AbortRoom(room) => AbortTx(db, room, env.now, env.orders)
  }

  /** The orders are ones that Bets() can return. */
  ghost predicate Feasible(db: DB, r: Request, env: Env) {
    && (r.SettleRound? && GetCurrent(db, r.room).Some? ==>
          InTimeOrder(env.order, PlacedAt(GetCurrent(db, r.room).value.bets)))
    && (r.AbortRoom? ==>
          forall n :: RoundKey(r.room, n) in db.rounds && db.rounds[RoundKey(r.room, n)].status == Betting ==>
            n in env.orders && InTimeOrder(env.orders[n], PlacedAt(BetsOf(db.bets, RoundKey(r.room, n)))))
  }

  // ---- the transaction manager -------------------------------------------------------------

  /** How WithinTx can end: a commit, a rollback, or a commit whose acknowledgement is lost. */
  datatype Fate = Commits | RollsBack | CommitsUnseen

  function Reported(r: Result<Done>, fate: Fate): Result<Reply> {
    match r
    case Failure(e) => Failure(e)
    case Success(done) => if fate == Commits then Success(done.reply) else Failure(Infrastructure)
  }

  function StoreAfter(db: DB, r: Result<Done>, fate: Fate): DB {
    if r.Success? && fate != RollsBack then r.value.db else db
  }

  /** A use case that started in one store has ended in another with the given answer. A database that
      fails can also do so before the use case finds out that the request is not allowed. */
  predicate Ends(before: DB, outcome: Result<Done>, fate: Fate, after: DB, answer: Result<Reply>) {
    && after == StoreAfter(before, outcome, fate)
    && (answer == Reported(outcome, fate) || (fate == RollsBack && answer == Failure(Infrastructure)))
  }
}
