/** What the use cases answer and leave in their tables, said in terms of the request, the stored rows and the
    dice alone. Nothing here is stated through the functions that compute a result, a row or a reply. */
module Answers {
  import opened Types
  import opened Money
  import opened Dice
  import opened Game
  import opened Results
  import opened Wallet
  import opened Store
  import opened Transactions
  import opened StoreInvariant
  import opened Preservation
  import opened Steps
  import opened Persistence
  import opened Runs

  // ---- stored results ----------------------------------------------------------------------

  /** A settled round carries two real dice and their parity. */
  lemma SettledRoundsAreRight(db: DB, k: RoundKey)
    requires Reachable(db) && k in db.rounds
    ensures db.rounds[k].opensAt < db.rounds[k].closesAt
    ensures db.rounds[k].status == Betting ==> db.rounds[k].outcome.None? && db.rounds[k].settledAt.None?
    ensures db.rounds[k].status == Settled ==>
              && RealDice(db.rounds[k].die1, db.rounds[k].die2) && db.rounds[k].settledAt.Some?
              && db.rounds[k].outcome.Some? && Called(db.rounds[k].outcome.value, db.rounds[k].die1, db.rounds[k].die2)
  {
    ReachableStoresAreGood(db);
    OutcomeIsParity(db.rounds[k].die1, db.rounds[k].die2);
  }

  /** A bet has a result exactly when its round is settled, and won exactly if its choice called the dice. */
  lemma StoredResultsAreRight(db: DB, k: BetKey)
    requires Reachable(db) && k in db.bets
    ensures k.round in db.rounds
    ensures db.bets[k].result.Some? <==> db.rounds[k.round].status == Settled
    ensures db.rounds[k.round].status == Settled ==>
              && RightResult(db.bets[k].result.value, db.bets[k].choice, db.bets[k].amount, db.rounds[k.round].die1, db.rounds[k.round].die2)
              && db.bets[k].result.value.payout >= 0
  {
    ReachableStoresAreGood(db);
    assert BetOk(db, k);
    OutcomeIsParity(db.rounds[k.round].die1, db.rounds[k.round].die2);
  }

  // ---- balances in replies -----------------------------------------------------------------

  /** The balances are those of the store, of exactly these members. */
  ghost predicate ReportsBalances(db: DB, members: set<Id>, balances: map<Id, Cents>) {
    balances.Keys == members && forall p :: p in members ==> p in db.players && balances[p] == db.players[p]
  }

  lemma BalancesAreReported(db: DB, members: set<Id>)
    requires MemberBalances(db, members).Success?
    ensures ReportsBalances(db, members, MemberBalances(db, members).value)
  {
  }

  // ---- settlement --------------------------------------------------------------------------

  /** The row of a room once its round is settled: closed if it was closing or has played ten rounds. */
  predicate RowAfterSettlement(before: RoomRow, after: RoomRow, now: Time) {
    if before.status == Closing || before.currentRound >= 10 then after == before.(status := Closed, closedAt := Some(now))
    else after == before
  }

  lemma FinishedRowIsRight(row: RoomRow, now: Time)
    ensures RowAfterSettlement(row, FinishedRow(row, now), now)
  {
  }

  /** The tables after a settlement: the dice, their parity and the time in the round's row, the room's row,
      and the results in the bets of that round. */
  ghost predicate TablesAfterSettlement(db: DB, after: DB, id: Id, die1: int, die2: int, side: Parity, now: Time)
    requires id in db.rooms && CurrentKey(db, id) in db.rounds
  {
    var key := CurrentKey(db, id);
    && RealDice(die1, die2) && Called(side, die1, die2)
    && after.rounds == db.rounds[key := RoundRow(db.rounds[key].opensAt, db.rounds[key].closesAt, Settled, die1, die2, Some(side), Some(now))]
    && id in after.rooms && after.rooms == db.rooms[id := after.rooms[id]] && RowAfterSettlement(db.rooms[id], after.rooms[id], now)
    && after.bets.Keys == db.bets.Keys
    && forall k :: k in db.bets ==> BetAfterSettlement(db.bets[k], after.bets[k], k.round == key, die1, die2)
  }

  predicate BetAfterSettlement(before: BetRow, after: BetRow, ofTheRound: bool, die1: int, die2: int) {
    if !ofTheRound then after == before
    else
      && after.result.Some? && after == before.(result := after.result)
      && RightResult(after.result.value, before.choice, before.amount, die1, die2)
  }

  lemma SettledTables(db: DB, id: Id, roll: Result<(int, int)>, now: Time, order: seq<Id>)
    requires Reachable(db) && SettleTx(db, id, roll, now, order).Success?
    requires GetCurrent(db, id).Some? ==> InTimeOrder(order, PlacedAt(GetCurrent(db, id).value.bets))
    ensures Live(db, id) && roll.Success? && OutcomeOf(roll.value.0, roll.value.1).Success?
    ensures TablesAfterSettlement(db, SettleTx(db, id, roll, now, order).value.db, id, roll.value.0, roll.value.1,
                                  OutcomeOf(roll.value.0, roll.value.1).value, now)
  {
    ReachableStoresAreGood(db);
    assert GetCurrent(db, id).Some?;
    SettleIs(db, id, roll, now, order);
    SettlesMeans(db, SettleTx(db, id, roll, now, order).value.db, id, roll.value.0, roll.value.1,
                 OutcomeOf(roll.value.0, roll.value.1).value, now, order);
  }

  lemma SettlesMeans(db: DB, after: DB, id: Id, die1: int, die2: int, side: Parity, now: Time, order: seq<Id>)
    requires Live(db, id) && Settles(db, after, id, die1, die2, side, now, order)
    ensures TablesAfterSettlement(db, after, id, die1, die2, side, now)
  {
    OutcomeIsParity(die1, die2);
    FinishedRowIsRight(db.rooms[id], now);
    var key := CurrentKey(db, id);
    forall k | k in db.bets
      ensures k in after.bets && BetAfterSettlement(db.bets[k], after.bets[k], k.round == key, die1, die2)
    {
      assert k in after.bets.Keys;
      if k.round == key {
        assert k.player in BetsOf(db.bets, key).Keys && k.player in order;
        ResultIsRight(db.bets[k], die1, die2, side);
      }
    }
  }

  /** The whole answer of a settlement: the round with its dice and parity, one right result per bet in the
      order of placing, every member's committed balance, whether the room closed, and why. */
  lemma SettlementAnswers(db: DB, id: Id, roll: Result<(int, int)>, now: Time, order: seq<Id>)
    requires Reachable(db) && SettleTx(db, id, roll, now, order).Success?
    requires GetCurrent(db, id).Some? ==> InTimeOrder(order, PlacedAt(GetCurrent(db, id).value.bets))
    ensures Live(db, id) && roll.Success?
    ensures var done := SettleTx(db, id, roll, now, order).value;
            && done.reply.RoundSettled? && done.reply.round == CurrentKey(db, id)
            && done.reply.die1 == roll.value.0 && done.reply.die2 == roll.value.1 && Called(done.reply.outcome, roll.value.0, roll.value.1)
            && RightResults(done.reply.results, BetsOf(db.bets, CurrentKey(db, id)), roll.value.0, roll.value.1)
            && ReportsBalances(done.db, db.rooms[id].seats.Keys, done.reply.balances)
            && (done.reply.roomClosed <==> !Active(done.db, id))
            && (done.reply.roomClosed ==> done.reply.reason == if db.rooms[id].currentRound < 10 then OwnerClosed else MaxRoundsPlayed)
  {
    ReachableStoresAreGood(db);
    SettledTables(db, id, roll, now, order);
    var key := RoundKey(id, if id in db.rooms then db.rooms[id].currentRound else 0);
    var side := OutcomeOf(roll.value.0, roll.value.1).value;
    SettleUnfolds(db, id, roll, now, order, key, side);
    OutcomesAreRight(BetsOf(db.bets, key), roll.value.0, roll.value.1, side, order);
    BalancesAreReported(SettleTx(db, id, roll, now, order).value.db, db.rooms[id].seats.Keys);
    SettlementReplies(db, id, roll, now, order);
    OutcomeIsParity(roll.value.0, roll.value.1);
  }

  lemma SettlementReplies(db: DB, id: Id, roll: Result<(int, int)>, now: Time, order: seq<Id>)
    requires TablesOk(db) && Live(db, id) && SettleTx(db, id, roll, now, order).Success? && roll.Success?
    requires OutcomeOf(roll.value.0, roll.value.1).Success?
    ensures var reply := SettleTx(db, id, roll, now, order).value.reply;
            && reply.RoundSettled? && reply.die1 == roll.value.0 && reply.die2 == roll.value.1
            && Success(reply.outcome) == OutcomeOf(roll.value.0, roll.value.1)
            && reply.reason == (if db.rooms[id].currentRound < 10 then OwnerClosed else MaxRoundsPlayed)
            && (reply.roomClosed <==> FinishedRow(db.rooms[id], now).status == Closed)
  {
    AttachedIs(db, id);
    CurrentRoundIsLast(db, id);
  }

  // ---- when a settlement succeeds ----------------------------------------------------------

  /** A bet that called the dice has a payout that did not overflow and that fits its player's balance. */
  predicate CanBePaid(db: DB, k: BetKey, die1: int, die2: int)
    requires k in db.bets
  {
    Called(db.bets[k].choice, die1, die2) ==>
      k.player in db.players && Payout(db.bets[k].amount) >= 0 && db.players[k.player] + Payout(db.bets[k].amount) <= MAX_CENTS
  }

  ghost predicate WinnersCanBePaid(db: DB, key: RoundKey, die1: int, die2: int) {
    forall p :: BetKey(key, p) in db.bets ==> CanBePaid(db, BetKey(key, p), die1, die2)
  }

  /** With real dice a live round settles exactly when its winners can be paid, at any time. */
  lemma SettlementSucceedsIff(db: DB, id: Id, roll: Result<(int, int)>, now: Time, order: seq<Id>)
    requires Reachable(db) && Live(db, id) && roll.Success? && RealDice(roll.value.0, roll.value.1)
    requires InTimeOrder(order, PlacedAt(BetsOf(db.bets, CurrentKey(db, id))))
    ensures SettleTx(db, id, roll, now, order).Success? <==> WinnersCanBePaid(db, CurrentKey(db, id), roll.value.0, roll.value.1)
  {
    ReachableStoresAreGood(db);
    OutcomeIsParity(roll.value.0, roll.value.1);
    var key, side := CurrentKey(db, id), OutcomeOf(roll.value.0, roll.value.1).value;
    SettleRule(db, id, roll, now, order, key, side);
    OrderOfBets(db.bets, key, order);
    PayableMeansPaid(db, key, roll.value.0, roll.value.1, side, order);
  }

  /** The same of one player of the round, as the payout loop sees it. */
  ghost predicate PayableTo(db: DB, bets: map<Id, BetRow>, side: Parity, p: Id) {
    && (p in bets ==> ResultOf(bets[p], side).payout >= 0)
    && (p in Winnings(bets, side) ==> p in db.players && db.players[p] + Winnings(bets, side)[p] <= MAX_CENTS)
  }

  lemma PayableToMeansPaid(db: DB, key: RoundKey, die1: int, die2: int, side: Parity, p: Id)
    requires BalancesOk(db) && OutcomeOf(die1, die2) == Success(side) && BetKey(key, p) in db.bets && p in db.players
    ensures PayableTo(db, BetsOf(db.bets, key), side, p) <==> CanBePaid(db, BetKey(key, p), die1, die2)
  {
    ResultIsRight(db.bets[BetKey(key, p)], die1, die2, side);
  }

  lemma PayableMeansPaid(db: DB, key: RoundKey, die1: int, die2: int, side: Parity, order: seq<Id>)
    requires BetsOk(db) && SeatsOk(db) && BalancesOk(db) && OutcomeOf(die1, die2) == Success(side)
    requires forall p :: p in order <==> BetKey(key, p) in db.bets
    ensures Payable(db, BetsOf(db.bets, key), side, order, Winnings(BetsOf(db.bets, key), side)) <==> WinnersCanBePaid(db, key, die1, die2)
  {
    forall p | p in order
      ensures PayableTo(db, BetsOf(db.bets, key), side, p) <==> CanBePaid(db, BetKey(key, p), die1, die2)
    {
      assert BetOk(db, BetKey(key, p));
      PayableToMeansPaid(db, key, die1, die2, side, p);
    }
    PayableMeansEach(db, BetsOf(db.bets, key), side, order);
  }

  lemma PayableMeansEach(db: DB, bets: map<Id, BetRow>, side: Parity, order: seq<Id>)
    ensures Payable(db, bets, side, order, Winnings(bets, side)) <==> forall p :: p in order ==> PayableTo(db, bets, side, p)
  {
    if Payable(db, bets, side, order, Winnings(bets, side)) {
      forall p | p in order
        ensures PayableTo(db, bets, side, p)
      {
      }
    }
    if forall p :: p in order ==> PayableTo(db, bets, side, p) {
      forall p | p in order
        ensures p in bets ==> ResultOf(bets[p], side).payout >= 0
        ensures p in Winnings(bets, side) ==> p in db.players && db.players[p] + Winnings(bets, side)[p] <= MAX_CENTS
      {
        assert PayableTo(db, bets, side, p);
      }
    }
  }

  // ---- closing and aborting ----------------------------------------------------------------

  /** A close says whether the room has closed, and then every member's balance. */
  lemma CloseAnswers(db: DB, id: Id, requester: Id, now: Time)
    requires Reachable(db) && CloseTx(db, id, requester, now).Success?
    ensures Active(db, id) && requester == db.rooms[id].owner
    ensures var done := CloseTx(db, id, requester, now).value;
            && done.reply.RoomEnded? && (done.reply.closed <==> !Active(done.db, id)) && (done.reply.closed <==> !Undecided(db, id))
            && (if done.reply.closed then ReportsBalances(done.db, db.rooms[id].seats.Keys, done.reply.balances) else done.reply.balances == map[])
            && done.db == db.(rooms := db.rooms[id := if Undecided(db, id) then db.rooms[id].(status := Closing)
                                                      else db.rooms[id].(status := Closed, closedAt := Some(now))])
  {
    ReachableStoresAreGood(db);
    CloseIs(db, id, requester, now);
    CloseReplies(db, id, requester, now);
  }

  lemma CloseReplies(db: DB, id: Id, requester: Id, now: Time)
    requires CloseTx(db, id, requester, now).Success? && id in db.rooms
    ensures var done := CloseTx(db, id, requester, now).value;
            done.reply.RoomEnded? && if done.reply.closed then ReportsBalances(done.db, db.rooms[id].seats.Keys, done.reply.balances) else done.reply.balances == map[]
  {
  }

  /** An abort closes the room and reports every member's balance after the refunds. */
  lemma AbortAnswers(db: DB, id: Id, now: Time, orders: map<int, seq<Id>>)
    requires Reachable(db) && OrdersOk(db, id, orders) && AbortTx(db, id, now, orders).Success?
    ensures Active(db, id)
    ensures var done := AbortTx(db, id, now, orders).value;
            && done.reply.RoomEnded? && done.reply.closed
            && ReportsBalances(done.db, db.rooms[id].seats.Keys, done.reply.balances)
            && done.db.rooms == db.rooms[id := db.rooms[id].(status := Closed, closedAt := Some(now))]
            && done.db.rounds == db.rounds && done.db.bets == db.bets
  {
    ReachableStoresAreGood(db);
    AbortIs(db, id, now, orders);
    AbortReplies(db, id, now, orders);
  }

  lemma AbortReplies(db: DB, id: Id, now: Time, orders: map<int, seq<Id>>)
    requires AbortTx(db, id, now, orders).Success?
    ensures id in db.rooms
    ensures var done := AbortTx(db, id, now, orders).value;
            done.reply.RoomEnded? && done.reply.closed && ReportsBalances(done.db, db.rooms[id].seats.Keys, done.reply.balances)
  {
  }

  /** The balance a member is told is the one before, and the stake of an undecided bet on top. */
  lemma AbortReportsRefunds(db: DB, id: Id, now: Time, orders: map<int, seq<Id>>, p: Id)
    requires Reachable(db) && OrdersOk(db, id, orders) && AbortTx(db, id, now, orders).Success? && id in db.rooms && p in db.rooms[id].seats
    ensures p in db.players
    ensures var reply, k := AbortTx(db, id, now, orders).value.reply, BetKey(CurrentKey(db, id), p);
            && reply.RoomEnded? && p in reply.balances
            && reply.balances[p] == db.players[p] as int + if Undecided(db, id) && k in db.bets then db.bets[k].amount as int else 0
  {
    ReachableStoresAreGood(db);
    AbortAnswers(db, id, now, orders);
    RefundsReach(db, id, now, orders, p);
  }

  lemma RefundsReach(db: DB, id: Id, now: Time, orders: map<int, seq<Id>>, p: Id)
    requires Inv(db) && OrdersOk(db, id, orders) && AbortTx(db, id, now, orders).Success? && id in db.rooms && p in db.players
    ensures p in AbortTx(db, id, now, orders).value.db.players
    ensures var k := BetKey(CurrentKey(db, id), p);
            AbortTx(db, id, now, orders).value.db.players[p] ==
              db.players[p] as int + if Undecided(db, id) && k in db.bets then db.bets[k].amount as int else 0
  {
    var key := CurrentKey(db, id);
    RefundsOfRoom(db, id, orders, key);
    AbortPlayers(db, id, now, orders);
    if Undecided(db, id) {
      var bets, order := BetsOf(db.bets, key), orders[key.number];
      BettingRoundRefunds(db, id, key, bets, order);
      if BetKey(key, p) in db.bets { OpenBetsOfRound(db, key, p); }
    }
  }

  /** The status write leaves the players as the refunds left them. */
  lemma AbortPlayers(db: DB, id: Id, now: Time, orders: map<int, seq<Id>>)
    requires AbortTx(db, id, now, orders).Success?
    ensures RefundRounds(db, id, LastNumber(db, id), orders).Success?
    ensures AbortTx(db, id, now, orders).value.db.players == RefundRounds(db, id, LastNumber(db, id), orders).value.players
  {
  }

  // ---- wallet, registration, rooms ---------------------------------------------------------

  lemma RegisterAnswers(db: DB, p: Id)
    ensures RegisterTx(db, p).Success? <==> p !in db.players
    ensures RegisterTx(db, p).Success? ==> RegisterTx(db, p).value == Done(db.(players := db.players[p := 0]), Registered)
  {
  }

  /** A deposit succeeds exactly for a known player whose balance stays an int64, and answers the new balance. */
  lemma DepositAnswers(db: DB, p: Id, amount: Cents)
    requires Reachable(db)
    ensures DepositTx(db, p, amount).Success? <==> amount > 0 && p in db.players && db.players[p] + amount <= MAX_CENTS
    ensures DepositTx(db, p, amount).Success? ==>
              DepositTx(db, p, amount).value ==
                Done(db.(players := db.players[p := db.players[p] + amount], ledger := db.ledger + [Entry(p, Deposit, amount, None)]),
                     Balance(db.players[p] + amount))
  {
    ReachableStoresAreGood(db);
    if amount > 0 { CreditPosts(db, Entry(p, Deposit, amount, None)); }
  }

  lemma WithdrawalAnswers(db: DB, p: Id, amount: Cents)
    requires Reachable(db) && WithdrawTx(db, p, amount).Success?
    ensures p in db.players && 0 < amount <= db.players[p]
    ensures WithdrawTx(db, p, amount).value ==
              Done(db.(players := db.players[p := db.players[p] - amount], ledger := db.ledger + [Entry(p, Withdraw, amount, None)]),
                   Balance(db.players[p] - amount))
  {
    ReachableStoresAreGood(db);
    DebitPosts(db, Entry(p, Withdraw, amount, None));
  }

  /** A room opens exactly for a known player who sits nowhere, with that player alone in it. */
  lemma CreationAnswers(db: DB, id: Id, owner: Id, now: Time)
    ensures CreateTx(db, id, owner, now).Success? <==> id !in db.rooms && owner in db.players && forall r :: !Seated(db, r, owner)
    ensures CreateTx(db, id, owner, now).Success? ==>
              CreateTx(db, id, owner, now).value ==
                Done(db.(rooms := db.rooms[id := RoomRow(owner, Open, 0, now, None, map[owner := now])]), RoomCreated)
  {
    assert forall r :: r in ActiveRooms(db, owner) <==> Seated(db, r, owner);
    if CreateTx(db, id, owner, now).Success? { CreateIs(db, id, owner, now); }
  }

  /** A join answers that the player was a member already exactly for one seated in the open room. */
  lemma RejoinAnswers(db: DB, id: Id, p: Id, now: Time)
    requires Reachable(db)
    ensures JoinTx(db, id, p, now).Success? && JoinTx(db, id, p, now).value.reply == Joined(true) <==>
              id in db.rooms && db.rooms[id].status == Open && p in db.rooms[id].seats
  {
    ReachableStoresAreGood(db);
    assert forall r :: r in ActiveRooms(db, p) <==> Seated(db, r, p);
    if id in db.rooms && db.rooms[id].status == Open && p in db.rooms[id].seats {
      assert Seated(db, id, p);
    }
  }

  // ---- fates -------------------------------------------------------------------------------

  /** A success is reported exactly of a transaction that succeeded and whose commit is known; what the store
      holds afterwards is all of the transaction, or none of it when it failed or was rolled back. */
  lemma FatesMean(before: DB, outcome: Result<Done>, fate: Fate, after: DB, answer: Result<Reply>)
    requires Ends(before, outcome, fate, after, answer)
    ensures answer.Success? <==> outcome.Success? && fate.Commits?
    ensures answer.Success? ==> answer.value == outcome.value.reply
    ensures outcome.Success? && !fate.Commits? ==> answer == Failure(Infrastructure)
    ensures outcome.Failure? ==> answer == Failure(outcome.error) || (fate.RollsBack? && answer == Failure(Infrastructure))
    ensures after == if outcome.Success? && !fate.RollsBack? then outcome.value.db else before
  {
  }
}
