/** What holds of every reachable store. */
module StoreInvariant {
  import opened Types
  import opened Money
  import opened Dice
  import opened Game
  import opened FiniteSets
  import opened Wallet
  import opened Store
  import opened Transactions

  predicate Active(db: DB, r: Id) {
    r in db.rooms && db.rooms[r].status != Closed
  }

  function CurrentKey(db: DB, r: Id): RoundKey
    requires r in db.rooms
  {
    RoundKey(r, db.rooms[r].currentRound)
  }

  /** The room's current round is still taking (or has just taken) bets. */
  predicate Undecided(db: DB, r: Id) {
    r in db.rooms && CurrentKey(db, r) in db.rounds && db.rounds[CurrentKey(db, r)].status == Betting
  }

  /** A round that somebody still has to settle or abort. */
  predicate Live(db: DB, r: Id) {
    Active(db, r) && Undecided(db, r)
  }

  // ---- rooms and seats ---------------------------------------------------------------------

  ghost predicate RoomOk(row: RoomRow) {
    && 0 <= row.currentRound <= MAX_ROUNDS
    && (row.status == Closed <==> row.closedAt.Some?)
    && row.owner in row.seats
    && |row.seats| <= MAX_PLAYERS
  }

  ghost predicate RoomsOk(db: DB) {
    forall r :: r in db.rooms ==> RoomOk(db.rooms[r])
  }

  predicate Seated(db: DB, r: Id, p: Id) {
    Active(db, r) && p in db.rooms[r].seats
  }

  /** Seats belong to players, and a player sits in at most one room that is not closed. */
  ghost predicate SeatsOk(db: DB) {
    && (forall r, p :: r in db.rooms && p in db.rooms[r].seats ==> p in db.players)
    && (forall r, s, p :: Seated(db, r, p) && Seated(db, s, p) ==> r == s)
  }

  // ---- rounds ------------------------------------------------------------------------------

  ghost predicate RoundOk(row: RoundRow) {
    && row.opensAt < row.closesAt
    && match row.status
       case Betting => row.outcome.None? && row.settledAt.None?
       case Settled => row.settledAt.Some? && row.outcome.Some? && OutcomeOf(row.die1, row.die2) == Success(row.outcome.value)
  }

  /** Rounds are numbered 1..currentRound without gaps and only the last can be undecided. */
  ghost predicate RoundsOk(db: DB) {
    && (forall k :: k in db.rounds ==>
          && RoundOk(db.rounds[k]) && k.room in db.rooms && 1 <= k.number <= db.rooms[k.room].currentRound
          && (db.rounds[k].status == Betting ==> k.number == db.rooms[k.room].currentRound))
    && (forall r, n :: r in db.rooms && 1 <= n <= db.rooms[r].currentRound ==> RoundKey(r, n) in db.rounds)
  }

  predicate Waiting(row: RoomRow) {
    row.status == Closing || (row.status == Open && row.currentRound == MAX_ROUNDS)
  }

  /** A closing room, and a room at its cap that has not closed, wait for their last round. */
  ghost predicate LifecycleOk(db: DB) {
    forall r :: r in db.rooms && Waiting(db.rooms[r]) ==> Undecided(db, r)
  }

  // ---- bets --------------------------------------------------------------------------------

  ghost predicate BetOk(db: DB, k: BetKey)
    requires k in db.bets
  {
    var bet := db.bets[k];
    && k.round in db.rounds && k.round.room in db.rooms
    && k.player in db.rooms[k.round.room].seats
    && bet.amount > 0
    && db.rounds[k.round].opensAt <= bet.placedAt < db.rounds[k.round].closesAt
    && match db.rounds[k.round].status
       case Betting => bet.result.None?
       case Settled =>
         && db.rounds[k.round].outcome.Some?
         && bet.result == Some(ResultOf(bet, db.rounds[k.round].outcome.value))
         && bet.result.value.payout >= 0
  }

  ghost predicate BetsOk(db: DB) {
    forall k :: k in db.bets ==> BetOk(db, k)
  }

  // ---- money -------------------------------------------------------------------------------

  ghost predicate BalancesOk(db: DB) {
    forall p :: p in db.players ==> db.players[p] >= 0 && db.players[p] == Net(db.ledger, p)
  }

  ghost predicate EntryOk(db: DB, e: Entry) {
    && e.amount > 0 && e.player in db.players
    && match e.kind
       case Deposit => e.round.None?
       case Withdraw => e.round.None?
       case Stake => e.round.Some? && BetKey(e.round.value, e.player) in db.bets
       case Payback => e.round.Some? && BetKey(e.round.value, e.player) in db.bets
  }

  ghost predicate EntriesOk(db: DB) {
    forall e :: e in db.ledger ==> EntryOk(db, e)
  }

  /** What the ledger must have paid back for a bet: the payout of a win once its round is settled,
      the stake itself once its room is closed with the round undecided, nothing before that. */
  function Due(db: DB, k: BetKey): seq<Cents> {
    if k !in db.bets then []
    else match db.bets[k].result
      case Some(result) => if result.won && result.payout > 0 then [result.payout] else []
      case None => if Active(db, k.round.room) then [] else [db.bets[k].amount]
  }

  function Staked(db: DB, k: BetKey): seq<Cents> {
    if k in db.bets then [db.bets[k].amount] else []
  }

  /** Every accepted bet has exactly one "bet" entry, and exactly the "payout" entries it is due. */
  ghost predicate PaidOnce(db: DB) {
    forall k :: Amounts(db.ledger, Stake, k) == Staked(db, k) && Amounts(db.ledger, Payback, k) == Due(db, k)
  }

  ghost predicate TablesOk(db: DB) {
    RoomsOk(db) && SeatsOk(db) && RoundsOk(db) && LifecycleOk(db)
  }

  ghost predicate MoneyOk(db: DB) {
    BalancesOk(db) && EntriesOk(db) && PaidOnce(db)
  }

  ghost predicate Inv(db: DB) {
    TablesOk(db) && BetsOk(db) && MoneyOk(db)
  }

  // ---- reading the store under the invariant ----------------------------------------------

  lemma MaxIs(s: set<int>, m: int)
    requires m in s && forall x :: x in s ==> x <= m
    ensures Max(s) == m
  {
  }

  /** The highest-numbered round is the room's current one. */
  lemma CurrentRoundIsLast(db: DB, r: Id)
    requires RoundsOk(db) && RoomsOk(db) && r in db.rooms
    ensures LastNumber(db, r) == db.rooms[r].currentRound
    ensures db.rooms[r].currentRound == 0 <==> GetCurrent(db, r).None?
    ensures db.rooms[r].currentRound > 0 ==>
              CurrentKey(db, r) in db.rounds && GetCurrent(db, r) == Some(Hydrate(db, CurrentKey(db, r)))
    ensures Undecided(db, r) ==> db.rooms[r].currentRound > 0
  {
    var n := db.rooms[r].currentRound;
    var numbers := Numbers(db, r);
    forall x | x in numbers
      ensures 1 <= x <= n
    {
      assert RoundKey(r, x) in db.rounds;
    }
    if n > 0 {
      assert RoundKey(r, n) in db.rounds;
      assert n in numbers;
      MaxIs(numbers, n);
    } else {
      if numbers != {} {
        var x := Pick(numbers);
        assert false;
      }
    }
  }

  /** The aggregate of a room as every use case sees it. */
  lemma AttachedIs(db: DB, r: Id)
    requires RoundsOk(db) && RoomsOk(db)
    ensures r !in db.rooms ==> Attached(db, r) == Failure(RoomNotFound)
    ensures r in db.rooms ==>
              (Attached(db, r) == Success(RoomVal(r, db.rooms[r], if Undecided(db, r) then Some(Hydrate(db, CurrentKey(db, r))) else None)))
  {
    if r in db.rooms {
      CurrentRoundIsLast(db, r);
      if db.rooms[r].currentRound == 0 {
        assert CurrentKey(db, r) !in db.rounds;
      }
    }
  }

  lemma {:induction false} StrangersHaveNoEntries(ledger: seq<Entry>, p: Id)
    requires forall e :: e in ledger ==> e.player != p
    ensures Net(ledger, p) == 0
  {
    if ledger != [] {
      assert ledger[|ledger| - 1] in ledger;
      StrangersHaveNoEntries(ledger[..|ledger| - 1], p);
    }
  }
}
