/** Which error each use case answers, said in terms of the request and the stored rows alone: the first that
    applies, in the order of the checks. */
module Refusals {
  import opened Types
  import opened Money
  import opened Dice
  import opened Game
  import opened Wallet
  import opened Store
  import opened Transactions
  import opened StoreInvariant
  import opened Preservation
  import opened Steps
  import opened Persistence
  import opened Runs
  import opened Results
  import opened Answers

  lemma RegistrationRefusal(db: DB, p: Id)
    requires RegisterTx(db, p).Failure?
    ensures RegisterTx(db, p) == Failure(ConstraintViolation) && p in db.players
  {
  }

  lemma DepositRefusal(db: DB, p: Id, amount: Cents)
    requires Reachable(db) && DepositTx(db, p, amount).Failure?
    ensures DepositTx(db, p, amount).error ==
              if amount <= 0 then InvalidAmount else if p !in db.players then PlayerNotFound else InsufficientBalance
  {
    ReachableStoresAreGood(db);
    DepositAnswers(db, p, amount);
  }

  lemma WithdrawalRefusal(db: DB, p: Id, amount: Cents)
    requires Reachable(db) && WithdrawTx(db, p, amount).Failure?
    ensures WithdrawTx(db, p, amount).error ==
              if amount <= 0 then InvalidAmount
              else if exists r :: Seated(db, r, p) then WithdrawalBlocked
              else if p !in db.players then PlayerNotFound
              else InsufficientBalance
  {
    ReachableStoresAreGood(db);
    SeatedSomewhere(db, p);
  }

  lemma SeatedSomewhere(db: DB, p: Id)
    ensures ActiveRooms(db, p) != {} <==> exists r :: Seated(db, r, p)
    ensures forall r :: r in ActiveRooms(db, p) <==> Seated(db, r, p)
  {
    forall r
      ensures r in ActiveRooms(db, p) <==> Seated(db, r, p)
    {
    }
  }

  lemma CreationRefusal(db: DB, id: Id, owner: Id, now: Time)
    requires CreateTx(db, id, owner, now).Failure?
    ensures CreateTx(db, id, owner, now).error == if exists r :: Seated(db, r, owner) then AlreadyInAnotherRoom else ConstraintViolation
  {
    SeatedSomewhere(db, owner);
  }

  lemma JoinRefusal(db: DB, id: Id, p: Id, now: Time)
    requires Reachable(db) && JoinTx(db, id, p, now).Failure?
    ensures JoinTx(db, id, p, now).error ==
              if id !in db.rooms then RoomNotFound
              else if exists r :: r != id && Seated(db, r, p) then AlreadyInAnotherRoom
              else match db.rooms[id].status
                case Closed => RoomClosed
                case Closing => RoomNotOpen
                case Open => if |db.rooms[id].seats| >= 6 then RoomFull else RoomNotFound
  {
    ReachableStoresAreGood(db);
    SeatedSomewhere(db, p);
  }

  /** An open room at its cap has its last round undecided, so no start is ever refused with MaxRoundsReached. */
  lemma StartRefusal(db: DB, id: Id, requester: Id, now: Time, window: int)
    requires Reachable(db) && StartTx(db, id, requester, now, window).Failure?
    ensures StartTx(db, id, requester, now, window).error ==
              if id !in db.rooms then RoomNotFound
              else if requester != db.rooms[id].owner then NotOwner
              else match db.rooms[id].status
                case Closed => RoomClosed
                case Closing => RoomNotOpen
                case Open => if Undecided(db, id) then RoundInProgress else InvalidBettingWindow
  {
    ReachableStoresAreGood(db);
    AttachedIs(db, id);
    StartRule(db, id, requester, now, window);
    if id in db.rooms { assert RoomOk(db.rooms[id]); }
  }

  lemma PlaceRefusal(db: DB, id: Id, p: Id, choice: Parity, amount: Cents, now: Time)
    requires Reachable(db) && PlaceTx(db, id, p, choice, amount, now).Failure?
    ensures PlaceTx(db, id, p, choice, amount, now).error ==
              if amount <= 0 then InvalidAmount
              else if id !in db.rooms then RoomNotFound
              else if db.rooms[id].currentRound == 0 then NoActiveRound
              else if db.rooms[id].status == Closed then RoomClosed
              else if p !in db.rooms[id].seats then NotAMember
              else if !Undecided(db, id) then NoActiveRound
              else RefusalInRound(db, id, p, now)
  {
    ReachableStoresAreGood(db);
    AttachedIs(db, id);
    if id in db.rooms {
      CurrentRoundIsLast(db, id);
      if amount > 0 && Live(db, id) && p in db.rooms[id].seats {
        PlaceRule(db, id, p, choice, amount, now);
        PlaceRefusedInRound(db, id, p, choice, amount, now);
      }
    }
  }

  function RefusalInRound(db: DB, id: Id, p: Id, now: Time): Error
    requires Undecided(db, id)
  {
    var round := db.rounds[CurrentKey(db, id)];
    if now < round.opensAt then BettingNotOpen
    else if now >= round.closesAt then BettingClosed
    else if BetKey(CurrentKey(db, id), p) in db.bets then DuplicateBet
    else InsufficientBalance
  }

  lemma PlaceRefusedInRound(db: DB, id: Id, p: Id, choice: Parity, amount: Cents, now: Time)
    requires Inv(db) && PlaceTx(db, id, p, choice, amount, now).Failure?
    requires amount > 0 && Live(db, id) && p in db.rooms[id].seats
    ensures PlaceTx(db, id, p, choice, amount, now).error == RefusalInRound(db, id, p, now)
  {
    var key, bet := CurrentKey(db, id), BetRow(choice, amount, now, None);
    PlaceUnfolds(db, id, p, bet, key);
    RoundRefusal(db, id, p, bet, key, PlaceTx(db, id, p, choice, amount, now));
  }

  lemma RoundRefusal(db: DB, id: Id, p: Id, bet: BetRow, key: RoundKey, answer: Result<Done>)
    requires BalancesOk(db) && bet.amount > 0 && Undecided(db, id) && key == CurrentKey(db, id) && p in db.players && answer.Failure?
    requires answer == match RoundPlaceBet(Hydrate(db, key), p, key, bet, bet.placedAt)
                       case Failure(e) => Failure(e)
                       case Success(_) => Accepted(db, BetKey(key, p), bet)
    ensures answer.error == RefusalInRound(db, id, p, bet.placedAt)
  {
    if RoundPlaceBet(Hydrate(db, key), p, key, bet, bet.placedAt).Success? { AcceptanceRefusal(db, BetKey(key, p), bet); }
  }

  lemma PlaceUnfolds(db: DB, id: Id, p: Id, bet: BetRow, key: RoundKey)
    requires TablesOk(db) && bet.amount > 0 && Live(db, id) && p in db.rooms[id].seats && key == CurrentKey(db, id) && bet.result.None?
    ensures PlaceTx(db, id, p, bet.choice, bet.amount, bet.placedAt) ==
              match RoundPlaceBet(Hydrate(db, key), p, key, bet, bet.placedAt)
              case Failure(e) => Failure(e)
              case Success(_) => Accepted(db, BetKey(key, p), bet)
  {
    AttachedIs(db, id);
    CurrentRoundIsLast(db, id);
  }

  lemma AcceptanceRefusal(db: DB, k: BetKey, bet: BetRow)
    requires BalancesOk(db) && bet.amount > 0 && k !in db.bets && k.round in db.rounds && k.player in db.players
    requires Accepted(db, k, bet).Failure?
    ensures Accepted(db, k, bet).error == InsufficientBalance
  {
  }

  lemma CloseRefusal(db: DB, id: Id, requester: Id, now: Time)
    requires Reachable(db) && CloseTx(db, id, requester, now).Failure?
    ensures CloseTx(db, id, requester, now).error ==
              if id !in db.rooms then RoomNotFound else if requester != db.rooms[id].owner then NotOwner else RoomClosed
  {
    ReachableStoresAreGood(db);
    CloseRule(db, id, requester, now);
  }

  // ---- settlements and aborts --------------------------------------------------------------

  /** Money that does not fit is refused with the error of the balance check. */
  lemma CreditRefusal(db: DB, e: Entry)
    requires BalancesOk(db) && e.player in db.players && e.amount > 0 && CreditPlayer(db, e).Failure?
    ensures CreditPlayer(db, e).error == InsufficientBalance
  {
  }

  lemma {:induction false} RefundRefusal(db: DB, key: RoundKey, bets: map<Id, BetRow>, order: seq<Id>)
    requires BalancesOk(db) && EntriesOk(db) && Distinct(order)
    requires forall p :: p in order ==> p in bets && bets[p].amount > 0 && BetKey(key, p) in db.bets && p in db.players
    requires RefundBets(db, key, bets, order).Failure?
    ensures RefundBets(db, key, bets, order).error == InsufficientBalance
  {
    if order != [] {
      SplitLast(order);
      var shorter, p := order[..|order| - 1], order[|order| - 1];
      if RefundBets(db, key, bets, shorter).Failure? {
        RefundRefusal(db, key, bets, shorter);
      } else {
        RefundsGive(db, key, bets, shorter);
        var mid := RefundBets(db, key, bets, shorter).value;
        assert p in mid.players.Keys;
        CreditRefusal(mid, Entry(p, Payback, bets[p].amount, Some(key)));
      }
    }
  }

  lemma AbortRefusal(db: DB, id: Id, now: Time, orders: map<int, seq<Id>>)
    requires Reachable(db) && OrdersOk(db, id, orders) && AbortTx(db, id, now, orders).Failure?
    ensures AbortTx(db, id, now, orders).error ==
              if id !in db.rooms then RoomNotFound else if db.rooms[id].status == Closed then RoomClosed else InsufficientBalance
  {
    ReachableStoresAreGood(db);
    AbortIs(db, id, now, orders);
    if Active(db, id) {
      RefundLoop(db, id, orders);
      var refunded := RefundRounds(db, id, LastNumber(db, id), orders);
      assert refunded.Failure?;
      OpenRoundRefusal(db, id, orders);
    }
  }

  lemma OpenRoundRefusal(db: DB, id: Id, orders: map<int, seq<Id>>)
    requires Inv(db) && Active(db, id) && OrdersOk(db, id, orders) && RefundRounds(db, id, LastNumber(db, id), orders).Failure?
    ensures RefundRounds(db, id, LastNumber(db, id), orders).error == InsufficientBalance
  {
    var key := CurrentKey(db, id);
    RefundsOfRoom(db, id, orders, key);
    var bets, order := BetsOf(db.bets, key), orders[key.number];
    forall p | p in order
      ensures p in bets && bets[p].amount > 0 && p in db.players
    {
      OpenBetsOfRound(db, key, p);
    }
    RefundRefusal(db, key, bets, order);
  }

  lemma {:induction false} PayRefusal(db: DB, key: RoundKey, bets: map<Id, BetRow>, side: Parity, order: seq<Id>, results: seq<Outcome>)
    requires BalancesOk(db) && EntriesOk(db) && Distinct(order)
    requires forall p :: p in order ==>
               p in bets && BetKey(key, p) in db.bets && db.bets[BetKey(key, p)] == bets[p] && bets[p].result.None? && p in db.players
    requires results == Outcomes(bets, side, order) && PayAll(db, key, results).Failure?
    ensures PayAll(db, key, results).error == ConstraintViolation || PayAll(db, key, results).error == InsufficientBalance
  {
    if order != [] {
      SplitLast(order);
      var shorter, p := order[..|order| - 1], order[|order| - 1];
      var fewer := results[..|results| - 1];
      assert fewer == Outcomes(bets, side, shorter);
      if PayAll(db, key, fewer).Failure? {
        PayRefusal(db, key, bets, side, shorter, fewer);
      } else {
        PayoutsGive(db, key, bets, side, shorter, fewer, Winnings(bets, side));
        assert results[|results| - 1] == OutcomeView(p, bets[p], side);
        PayOneRefusal(db, PayAll(db, key, fewer).value, key, bets[p], side, shorter, results[|results| - 1], Winnings(bets, side));
      }
    }
  }

  lemma PayOneRefusal(db: DB, mid: DB, key: RoundKey, bet: BetRow, side: Parity, order: seq<Id>, o: Outcome, gifts: map<Id, Cents>)
    requires Gave(db, mid, key, order, gifts) && ResultsRecorded(db, mid, key, order, side) && o.player !in order && o.player in db.players
    requires BetKey(key, o.player) in db.bets && db.bets[BetKey(key, o.player)].result.None?
    requires PayOne(mid, key, o).Failure?
    ensures PayOne(mid, key, o).error == ConstraintViolation || PayOne(mid, key, o).error == InsufficientBalance
  {
    assert o.player in mid.players.Keys && BetKey(key, o.player) in mid.bets.Keys;
    var marked := SettleBetRow(mid, BetKey(key, o.player), BetResult(o.won, o.payout));
    if marked.Success? && o.won && o.payout > 0 {
      CreditRefusal(marked.value, Entry(o.player, Payback, o.payout, Some(key)));
    }
  }

  /** With a live round and real dice only the money can stand in the way: a payout that overflowed, or a balance
      that it does not fit. */
  lemma SettlementRefusal(db: DB, id: Id, roll: Result<(int, int)>, now: Time, order: seq<Id>)
    requires Reachable(db) && SettleTx(db, id, roll, now, order).Failure?
    requires GetCurrent(db, id).Some? ==> InTimeOrder(order, PlacedAt(GetCurrent(db, id).value.bets))
    ensures var error := SettleTx(db, id, roll, now, order).error;
            if id !in db.rooms then error == RoomNotFound
            else if !Undecided(db, id) then error == NoActiveRound
            else if db.rooms[id].status == Closed then error == RoomClosed
            else if roll.Failure? then error == roll.error
            else if !RealDice(roll.value.0, roll.value.1) then error == InvalidDie
            else error == ConstraintViolation || error == InsufficientBalance
  {
    ReachableStoresAreGood(db);
    if !Live(db, id) {
      NothingToSettle(db, id, roll, now, order);
    } else {
      CurrentRoundIsLast(db, id);
      OpenBetsAreUnsettled(db, CurrentKey(db, id));
      if roll.Failure? || !RealDice(roll.value.0, roll.value.1) {
        BadRollRefusal(db, id, roll, now, order);
      } else {
        OutcomeIsParity(roll.value.0, roll.value.1);
        PayoutRefusal(db, id, roll, now, order, CurrentKey(db, id), OutcomeOf(roll.value.0, roll.value.1).value);
      }
    }
  }

  lemma BadRollRefusal(db: DB, id: Id, roll: Result<(int, int)>, now: Time, order: seq<Id>)
    requires TablesOk(db) && Live(db, id) && AllUnsettled(BetsOf(db.bets, CurrentKey(db, id)))
    requires roll.Success? ==> !RealDice(roll.value.0, roll.value.1)
    ensures SettleTx(db, id, roll, now, order) == Failure(if roll.Failure? then roll.error else InvalidDie)
  {
    AttachedIs(db, id);
    CurrentRoundIsLast(db, id);
  }

  lemma PayoutRefusal(db: DB, id: Id, roll: Result<(int, int)>, now: Time, order: seq<Id>, key: RoundKey, side: Parity)
    requires Inv(db) && Live(db, id) && key == CurrentKey(db, id) && InTimeOrder(order, PlacedAt(BetsOf(db.bets, key)))
    requires roll.Success? && OutcomeOf(roll.value.0, roll.value.1) == Success(side) && SettleTx(db, id, roll, now, order).Failure?
    ensures SettleTx(db, id, roll, now, order).error == ConstraintViolation || SettleTx(db, id, roll, now, order).error == InsufficientBalance
  {
    OpenBetsAreUnsettled(db, key);
    var bets, marked := BetsOf(db.bets, key), RoundMarked(db, key, roll.value.0, roll.value.1, side, now);
    OrderOfBets(db.bets, key, order);
    PaidExactlyWhenPayable(db, marked, id, key, side, bets, order);
    SettleSucceedsWhenPaid(db, id, roll, now, order, key, side, bets, PayAll(marked, key, Outcomes(bets, side, order)));
    forall p | p in order
      ensures p in bets && bets[p].result.None? && p in db.players
    {
      assert BetOk(db, BetKey(key, p));
    }
    KeepEntries(db, marked);
    PayRefusal(marked, key, bets, side, order, Outcomes(bets, side, order));
  }
}
