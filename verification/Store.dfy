/** The PostgreSQL tables as maps and a sequence, and the repository statements over them with the
    key, foreign-key and CHECK constraints of the schema (db/migrations/000001_init.up.sql,
    db/queries, internal/infrastructure/postgres). Rounds and bets are identified by the natural
    keys the schema declares unique. */
module Store {
  import opened Types
  import opened Money
  import opened Dice
  import opened Game
  import opened Wallet
  import opened FiniteSets

  datatype DB = DB(players: map<Id, Cents>, rooms: map<Id, RoomRow>, rounds: map<RoundKey, RoundRow>,
                   bets: map<BetKey, BetRow>, ledger: seq<Entry>)

  const EMPTY := DB(map[], map[], map[], map[], [])

  // ---- players and transactions ------------------------------------------------------------

  function CreatePlayer(db: DB, id: Id): Result<DB> {
    if id in db.players then Failure(ConstraintViolation)
    else Success(db.(players := db.players[id := 0]))
  }

  /** GetForUpdate: the locked row, rehydrated, which refuses a negative balance. */
  function GetPlayer(db: DB, id: Id): Result<Cents> {
    if id !in db.players then Failure(PlayerNotFound)
    else if db.players[id] < 0 then Failure(NegativeBalance)
    else Success(db.players[id])
  }

  function UpdateBalance(db: DB, id: Id, balance: Cents): Result<DB> {
    if id !in db.players then Failure(PlayerNotFound)
    else if balance < 0 then Failure(InsufficientBalance)
    else Success(db.(players := db.players[id := balance]))
  }

  function InsertEntry(db: DB, e: Entry): Result<DB> {
    if e.amount <= 0 then Failure(InvalidAmount)
    else Success(db.(ledger := db.ledger + [e]))
  }

  /** Lock the row, credit, write the balance, append the entry: deposits, payouts and refunds. */
  function CreditPlayer(db: DB, e: Entry): Result<DB> {
    var balance :- GetPlayer(db, e.player);
    var after :- Credited(balance, e.amount);
    var db1 :- UpdateBalance(db, e.player, after);
    InsertEntry(db1, e)
  }

  /** The same for withdrawals and stakes. */
  function DebitPlayer(db: DB, e: Entry): Result<DB> {
    var balance :- GetPlayer(db, e.player);
    var after :- Debited(balance, e.amount);
    var db1 :- UpdateBalance(db, e.player, after);
    InsertEntry(db1, e)
  }

  // ---- rooms -------------------------------------------------------------------------------

  /** load: the aggregate without its round. */
  function LoadRoom(db: DB, id: Id): Result<RoomVal> {
    if id in db.rooms then Success(RoomVal(id, db.rooms[id], None)) else Failure(RoomNotFound)
  }

  function UpdateStatus(db: DB, id: Id, status: RoomStatus, closedAt: Option<Time>): Result<DB> {
    if id !in db.rooms then Failure(RoomNotFound)
    else if (status == Closed) != closedAt.Some? then Failure(ConstraintViolation)
    else Success(db.(rooms := db.rooms[id := db.rooms[id].(status := status, closedAt := closedAt)]))
  }

  function SetCurrentRound(db: DB, id: Id, number: int): Result<DB> {
    if id !in db.rooms then Failure(RoomNotFound)
    else if !(0 <= number <= MAX_ROUNDS) then Failure(ConstraintViolation)
    else Success(db.(rooms := db.rooms[id := db.rooms[id].(currentRound := number)]))
  }

  function AddPlayer(db: DB, id: Id, player: Id, joinedAt: Time): Result<DB> {
    if id !in db.rooms || player !in db.players then Failure(RoomNotFound)
    else if player in db.rooms[id].seats then Failure(AlreadyJoined)
    else Success(db.(rooms := db.rooms[id := db.rooms[id].(seats := db.rooms[id].seats[player := joinedAt])]))
  }

  /** Create: the row, then one seat per player of the aggregate, which is the owner alone. */
  function CreateRoom(db: DB, room: RoomVal): Result<DB> {
    if room.id in db.rooms || room.row.owner !in db.players then Failure(ConstraintViolation)
    else AddPlayer(db.(rooms := db.rooms[room.id := room.row.(seats := map[])]), room.id, room.row.owner, room.row.createdAt)
  }

  /** The non-closed rooms a player sits in. FindActiveRoomForPlayer returns one of them. */
  function ActiveRooms(db: DB, player: Id): set<Id> {
    set r | r in db.rooms && db.rooms[r].status != Closed && player in db.rooms[r].seats
  }

  // ---- rounds and bets ---------------------------------------------------------------------

  function CreateRound(db: DB, key: RoundKey, row: RoundRow): Result<DB> {
    if key in db.rounds then Failure(RoundInProgress)
    else if key.room !in db.rooms || key.number < 1 || !(row.closesAt > row.opensAt) then Failure(ConstraintViolation)
    else Success(db.(rounds := db.rounds[key := row]))
  }

  function BetsOf(bets: map<BetKey, BetRow>, key: RoundKey): (m: map<Id, BetRow>)
    ensures forall p :: p in m <==> BetKey(key, p) in bets
    ensures forall p :: p in m ==> m[p] == bets[BetKey(key, p)]
  {
    map k | k in bets && k.round == key :: k.player := bets[k]
  }

  function Hydrate(db: DB, key: RoundKey): RoundVal
    requires key in db.rounds
  {
    RoundVal(key, db.rounds[key], BetsOf(db.bets, key))
  }

  function Numbers(db: DB, room: Id): set<int> {
    set k | k in db.rounds && k.room == room :: k.number
  }

  /** GetCurrent: the highest-numbered round of the room, whatever its status. */
  function GetCurrent(db: DB, room: Id): Option<RoundVal> {
    if Numbers(db, room) == {} then None
    else
      var n := Max(Numbers(db, room));
      assert RoundKey(room, n) in db.rounds;
      Some(Hydrate(db, RoundKey(room, n)))
  }

  /** UPDATE ... WHERE status = 'betting'. */
  function SettleRoundRow(db: DB, key: RoundKey, row: RoundRow): Result<DB> {
    if key !in db.rounds || db.rounds[key].status != Betting || row.settledAt.None? then Failure(RoundAlreadySettled)
    else if !ValidDie(row.die1) || !ValidDie(row.die2) || row.outcome.None? then Failure(ConstraintViolation)
    else Success(db.(rounds := db.rounds[key := db.rounds[key].(status := Settled, die1 := row.die1, die2 := row.die2,
                                                               outcome := row.outcome, settledAt := row.settledAt)]))
  }

  function InsertBet(db: DB, k: BetKey, row: BetRow): Result<DB> {
    if row.amount <= 0 then Failure(InvalidAmount)
    else if k in db.bets then Failure(DuplicateBet)
    else if k.round !in db.rounds || k.player !in db.players then Failure(RoundNotFound)
    else Success(db.(bets := db.bets[k := row]))
  }

  /** UPDATE ... WHERE won IS NULL, with the payout >= 0 constraint. */
  function SettleBetRow(db: DB, k: BetKey, result: BetResult): Result<DB> {
    if k !in db.bets || db.bets[k].result.Some? then Failure(RoundAlreadySettled)
    else if result.payout < 0 then Failure(ConstraintViolation)
    else Success(db.(bets := db.bets[k := db.bets[k].(result := Some(result))]))
  }
}
