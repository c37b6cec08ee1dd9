/** The store and the aggregates agree: exactly when each use case succeeds, and that reloading a
    room after a commit gives the aggregate as the domain operation left it in memory. */
module Persistence {
  import opened Types
  import opened Money
  import opened Dice
  import opened Game
  import opened Wallet
  import opened Store
  import opened Transactions
  import opened StoreInvariant
  import opened Preservation
  import opened Steps

  /** Reloading drops a settled round: AttachRound treats it as no live round. */
  function Reloaded(room: RoomVal): RoomVal {
    RoomAttach(room, room.round)
  }

  // ---- exactly when a use case succeeds ----------------------------------------------------

  /** A round starts exactly for the owner of an open room, below the cap, with no round undecided. */
  lemma StartRule(db: DB, id: Id, requester: Id, now: Time, window: int)
    requires TablesOk(db)
    ensures StartTx(db, id, requester, now, window).Success? <==>
              && id in db.rooms && db.rooms[id].owner == requester && db.rooms[id].status == Open
              && !Undecided(db, id) && db.rooms[id].currentRound < MAX_ROUNDS && window > 0
  {
    AttachedIs(db, id);
    if id in db.rooms {
      assert RoomOk(db.rooms[id]);
      assert db.rooms[id].owner in db.rooms[id].seats;
      assert RoundKey(id, db.rooms[id].currentRound + 1) !in db.rounds;
    }
  }

  /** A bet is accepted exactly from a member, once per round, inside the half-open window of the
      undecided round of a room that is not closed, with a positive stake the balance covers. */
  lemma PlaceRule(db: DB, id: Id, p: Id, choice: Parity, amount: Cents, now: Time)
    requires TablesOk(db) && BalancesOk(db)
    ensures PlaceTx(db, id, p, choice, amount, now).Success? <==>
              && amount > 0 && Live(db, id) && p in db.rooms[id].seats
              && db.rounds[CurrentKey(db, id)].opensAt <= now < db.rounds[CurrentKey(db, id)].closesAt
              && BetKey(CurrentKey(db, id), p) !in db.bets
              && p in db.players && db.players[p] >= amount
  {
    AttachedIs(db, id);
    if id in db.rooms {
      CurrentRoundIsLast(db, id);
      if amount > 0 && Undecided(db, id) {
        AcceptedRule(db, BetKey(CurrentKey(db, id), p), BetRow(choice, amount, now, None));
      }
    }
  }

  /** The writes of a bet succeed exactly for a new bet of a known player who can afford it. */
  lemma AcceptedRule(db: DB, k: BetKey, bet: BetRow)
    requires BalancesOk(db) && bet.amount > 0 && k.round in db.rounds
    ensures Accepted(db, k, bet).Success? <==> k !in db.bets && k.player in db.players && db.players[k.player] >= bet.amount
  {
  }

  /** A settlement commits exactly for a live round, a working roller with real dice, payouts that did
      not overflow to a negative number, and winnings that fit into the winners' balances. The clock
      does not matter. */
  lemma SettleRule(db: DB, id: Id, roll: Result<(int, int)>, now: Time, order: seq<Id>, key: RoundKey, side: Parity)
    requires Inv(db) && Live(db, id) && key == CurrentKey(db, id)
    requires InTimeOrder(order, PlacedAt(BetsOf(db.bets, key)))
    requires roll.Success? && OutcomeOf(roll.value.0, roll.value.1) == Success(side)
    ensures SettleTx(db, id, roll, now, order).Success? <==>
              Payable(db, BetsOf(db.bets, key), side, order, Winnings(BetsOf(db.bets, key), side))
  {
    var bets := BetsOf(db.bets, key);
    var marked := RoundMarked(db, key, roll.value.0, roll.value.1, side, now);
    OrderOfBets(db.bets, key, order);
    OpenBetsAreUnsettled(db, key);
    PaidExactlyWhenPayable(db, marked, id, key, side, bets, order);
    SettleSucceedsWhenPaid(db, id, roll, now, order, key, side, bets, PayAll(marked, key, Outcomes(bets, side, order)));
  }

  lemma PaidExactlyWhenPayable(db: DB, marked: DB, id: Id, key: RoundKey, side: Parity, bets: map<Id, BetRow>, order: seq<Id>)
    requires BalancesOk(db) && EntriesOk(db) && BetsOk(db) && SeatsOk(db) && id in db.rooms
    requires key in db.rounds && db.rounds[key].status == Betting && marked == db.(rounds := marked.rounds)
    requires bets == BetsOf(db.bets, key) && Distinct(order) && forall p :: p in order <==> BetKey(key, p) in db.bets
    ensures var paid := PayAll(marked, key, Outcomes(bets, side, order));
            && (paid.Success? <==> Payable(db, bets, side, order, Winnings(bets, side)))
            && (paid.Success? ==> id in paid.value.rooms && forall rooms :: MemberBalances(paid.value.(rooms := rooms), db.rooms[id].seats.Keys).Success?)
  {
    SettledBetsPay(db, marked, key, side, order);
    SamePlayersSamePay(db, marked, bets, side, order);
    var paid := PayAll(marked, key, Outcomes(bets, side, order));
    if paid.Success? {
      PaidMembersHaveBalances(db, paid.value, id);
    }
  }

  lemma SamePlayersSamePay(db: DB, db1: DB, bets: map<Id, BetRow>, side: Parity, order: seq<Id>)
    requires db1.players == db.players
    ensures Payable(db1, bets, side, order, Winnings(bets, side)) <==> Payable(db, bets, side, order, Winnings(bets, side))
  {
  }

  lemma SettleSucceedsWhenPaid(db: DB, id: Id, roll: Result<(int, int)>, now: Time, order: seq<Id>, key: RoundKey, side: Parity,
                               bets: map<Id, BetRow>, paid: Result<DB>)
    requires TablesOk(db) && Live(db, id) && key == CurrentKey(db, id) && bets == BetsOf(db.bets, key) && AllUnsettled(bets)
    requires roll.Success? && OutcomeOf(roll.value.0, roll.value.1) == Success(side)
    requires forall p :: p in order ==> p in bets
    requires paid == PayAll(RoundMarked(db, key, roll.value.0, roll.value.1, side, now), key, Outcomes(bets, side, order))
    requires paid.Success? ==>
               && id in paid.value.rooms
               && forall rooms :: MemberBalances(paid.value.(rooms := rooms), db.rooms[id].seats.Keys).Success?
    ensures SettleTx(db, id, roll, now, order).Success? <==> paid.Success?
    ensures paid.Failure? ==> SettleTx(db, id, roll, now, order) == Failure(paid.error)
  {
    AttachedIs(db, id);
    CurrentRoundIsLast(db, id);
    var row := SettledRow(db.rounds[key], roll.value.0, roll.value.1, side, now);
    assert SettleRoundRow(db, key, row) == Success(RoundMarked(db, key, roll.value.0, roll.value.1, side, now));
    if paid.Success? {
      assert paid.value == paid.value.(rooms := paid.value.rooms);
    }
  }

  lemma OpenBetsAreUnsettled(db: DB, key: RoundKey)
    requires BetsOk(db) && key in db.rounds && db.rounds[key].status == Betting
    ensures AllUnsettled(BetsOf(db.bets, key))
  {
  }

  lemma PaidMembersHaveBalances(db: DB, paid: DB, id: Id)
    requires SeatsOk(db) && id in db.rooms && paid.players.Keys == db.players.Keys && BalancesOk(paid)
    ensures forall rooms :: MemberBalances(paid.(rooms := rooms), db.rooms[id].seats.Keys).Success?
  {
  }

  /** Settlement outside a live round is refused. */
  lemma NothingToSettle(db: DB, id: Id, roll: Result<(int, int)>, now: Time, order: seq<Id>)
    requires TablesOk(db) && !Live(db, id)
    ensures SettleTx(db, id, roll, now, order).Failure?
    ensures id !in db.rooms ==> SettleTx(db, id, roll, now, order) == Failure(RoomNotFound)
    ensures id in db.rooms && !Undecided(db, id) ==> SettleTx(db, id, roll, now, order) == Failure(NoActiveRound)
    ensures id in db.rooms && Undecided(db, id) ==> SettleTx(db, id, roll, now, order) == Failure(RoomClosed)
  {
    AttachedIs(db, id);
    if id in db.rooms { CurrentRoundIsLast(db, id); }
  }

  /** A close request succeeds exactly for the owner of a room that is not closed. */
  lemma CloseRule(db: DB, id: Id, requester: Id, now: Time)
    requires TablesOk(db) && BalancesOk(db)
    ensures CloseTx(db, id, requester, now).Success? <==> Active(db, id) && requester == db.rooms[id].owner
  {
  }

  /** A new seat is taken exactly in an open room with a free seat, by a player who sits nowhere. */
  lemma JoinRule(db: DB, id: Id, p: Id, now: Time)
    ensures JoinTx(db, id, p, now).Success? && JoinTx(db, id, p, now).value.reply == Joined(false) <==>
              && id in db.rooms && db.rooms[id].status == Open && |db.rooms[id].seats| < MAX_PLAYERS
              && p in db.players && (forall r :: !Seated(db, r, p))
  {
    assert forall r :: r in ActiveRooms(db, p) <==> Seated(db, r, p);
    if id in db.rooms && db.rooms[id].status == Open && p in db.rooms[id].seats {
      assert Seated(db, id, p);
    }
    if JoinTx(db, id, p, now).Success? {
      JoinIs(db, id, p, now);
    }
  }

  // ---- reloading gives the aggregate back --------------------------------------------------

  lemma NoBetsYet(db: DB, key: RoundKey)
    requires BetsOk(db) && key !in db.rounds
    ensures BetsOf(db.bets, key) == map[]
  {
  }

  lemma StartReloads(db: DB, id: Id, requester: Id, now: Time, window: int)
    requires Inv(db) && StartTx(db, id, requester, now, window).Success?
    ensures Attached(db, id).Success?
    ensures var started := RoomStartRound(Attached(db, id).value, now, window);
            started.Success? && Attached(StartTx(db, id, requester, now, window).value.db, id) == Success(Reloaded(started.value))
  {
    StartIs(db, id, requester, now, window);
    StartKeeps(db, id, requester, now, window);
    var key := RoundKey(id, db.rooms[id].currentRound + 1);
    NoBetsYet(db, key);
    StartedReloads(db, StartTx(db, id, requester, now, window).value.db, key, now, window);
  }

  lemma StartedReloads(db: DB, after: DB, key: RoundKey, now: Time, window: int)
    requires TablesOk(db) && TablesOk(after) && Active(db, key.room) && db.rooms[key.room].status == Open && !Undecided(db, key.room)
    requires db.rooms[key.room].currentRound == key.number - 1 && key.number <= MAX_ROUNDS && window > 0
    requires BetsOf(db.bets, key) == map[] && key !in db.rounds
    requires after == db.(rooms := db.rooms[key.room := db.rooms[key.room].(currentRound := key.number)],
                          rounds := db.rounds[key := RoundRow(now, now + window, Betting, 0, 0, None, None)])
    ensures Attached(db, key.room).Success?
    ensures var started := RoomStartRound(Attached(db, key.room).value, now, window);
            started.Success? && Attached(after, key.room) == Success(Reloaded(started.value))
  {
    AttachedIs(db, key.room);
    AttachedIs(after, key.room);
    assert RoomOk(db.rooms[key.room]);
  }

  lemma PlaceReloads(db: DB, id: Id, p: Id, choice: Parity, amount: Cents, now: Time)
    requires Inv(db) && PlaceTx(db, id, p, choice, amount, now).Success?
    ensures Attached(db, id).Success? && id in db.rooms
    ensures var placed := RoomPlaceBet(Attached(db, id).value, p, CurrentKey(db, id), BetRow(choice, amount, now, None), now);
            placed.Success? && Attached(PlaceTx(db, id, p, choice, amount, now).value.db, id) == Success(Reloaded(placed.value))
  {
    PlaceIs(db, id, p, choice, amount, now);
    BetReloads(db, PlaceTx(db, id, p, choice, amount, now).value.db, id, p, CurrentKey(db, id), BetRow(choice, amount, now, None));
  }

  lemma BetReloads(db: DB, after: DB, id: Id, p: Id, key: RoundKey, bet: BetRow)
    requires TablesOk(db) && Live(db, id) && key == CurrentKey(db, id) && BetKey(key, p) !in db.bets
    requires p in db.rooms[id].seats && db.rounds[key].opensAt <= bet.placedAt < db.rounds[key].closesAt
    requires after.rooms == db.rooms && after.rounds == db.rounds && after.bets == db.bets[BetKey(key, p) := bet]
    requires db.players.Keys <= after.players.Keys
    ensures Attached(db, id).Success?
    ensures var placed := RoomPlaceBet(Attached(db, id).value, p, key, bet, bet.placedAt);
            placed.Success? && Attached(after, id) == Success(Reloaded(placed.value))
  {
    AttachedIs(db, id);
    KeepTables(db, after);
    AttachedIs(after, id);
    OneMoreBet(db.bets, key, p, bet);
  }

  lemma OneMoreBet(bets: map<BetKey, BetRow>, key: RoundKey, p: Id, bet: BetRow)
    ensures BetsOf(bets[BetKey(key, p) := bet], key) == BetsOf(bets, key)[p := bet]
    ensures p in BetsOf(bets, key) <==> BetKey(key, p) in bets
  {
  }

  /** After a settlement the room reloads with its possibly closed row and without a live round. */
  lemma SettleReloads(db: DB, id: Id, roll: Result<(int, int)>, now: Time, order: seq<Id>)
    requires Inv(db) && SettleTx(db, id, roll, now, order).Success? && GetCurrent(db, id).Some?
    requires InTimeOrder(order, PlacedAt(GetCurrent(db, id).value.bets))
    ensures Attached(db, id).Success?
    ensures var settled := RoomSettle(Attached(db, id).value, roll, now);
            settled.Success? && Attached(SettleTx(db, id, roll, now, order).value.db, id) == Success(Reloaded(settled.value))
  {
    SettleIs(db, id, roll, now, order);
    AttachedIs(db, id);
    OpenBetsAreUnsettled(db, CurrentKey(db, id));
    var after := SettleTx(db, id, roll, now, order).value.db;
    SettlesKeepsTables(db, after, id, roll.value.0, roll.value.1, OutcomeOf(roll.value.0, roll.value.1).value, now);
    AttachedIs(after, id);
  }

  /** The settled bets rows are the ones the aggregate holds in memory. */
  lemma SettledBetsReload(db: DB, after: DB, key: RoundKey, side: Parity, order: seq<Id>)
    requires SettlesBets(db, after, key, side, order)
    ensures BetsOf(after.bets, key) == SettledBets(BetsOf(db.bets, key), side)
  {
  }

  lemma CloseReloads(db: DB, id: Id, requester: Id, now: Time)
    requires Inv(db) && CloseTx(db, id, requester, now).Success?
    ensures Attached(db, id).Success?
    ensures var closed := RoomClose(Attached(db, id).value, requester, now);
            closed.Success? && Attached(CloseTx(db, id, requester, now).value.db, id) == Success(Reloaded(closed.value))
  {
  }

  lemma JoinReloads(db: DB, id: Id, p: Id, now: Time)
    requires Inv(db) && JoinTx(db, id, p, now).Success? && JoinTx(db, id, p, now).value.reply == Joined(false)
    ensures Attached(db, id).Success?
    ensures var joined := RoomJoin(Attached(db, id).value, p, now);
            joined.Success? && Attached(JoinTx(db, id, p, now).value.db, id) == Success(Reloaded(joined.value))
  {
  }
}
