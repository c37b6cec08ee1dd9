/** Each use case, case by case: its exact effect on a store that satisfies the invariant, and that
    the invariant survives it. */
module Steps {
  import opened Types
  import opened Money
  import opened Dice
  import opened Game
  import opened Wallet
  import opened Store
  import opened Transactions
  import opened StoreInvariant
  import opened Preservation

  // ---- frames ------------------------------------------------------------------------------

  /** Bets stay good while their rounds are untouched and no seat is lost. */
  lemma KeepBets(before: DB, after: DB)
    requires BetsOk(before) && after.bets == before.bets
    requires forall k :: k in before.rounds ==> k in after.rounds && after.rounds[k] == before.rounds[k]
    requires forall r :: r in before.rooms ==> r in after.rooms && before.rooms[r].seats.Keys <= after.rooms[r].seats.Keys
    ensures BetsOk(after)
  {
  }

  lemma KeepEntries(before: DB, after: DB)
    requires EntriesOk(before) && after.ledger == before.ledger
    requires before.players.Keys <= after.players.Keys && before.bets.Keys <= after.bets.Keys
    ensures EntriesOk(after)
  {
  }

  /** The ledger stays right while no room with bets closes. */
  lemma KeepMoney(before: DB, after: DB)
    requires MoneyOk(before) && BetsOk(before)
    requires after.players == before.players && after.ledger == before.ledger && after.bets == before.bets
    requires forall r :: r in before.rooms ==> (Active(before, r) <==> Active(after, r))
    ensures MoneyOk(after)
  {
  }

  /** Rounds stay in step with their rooms while counters and statuses are untouched. */
  lemma KeepRounds(before: DB, after: DB)
    requires RoundsOk(before) && LifecycleOk(before) && after.rounds == before.rounds
    requires forall r :: r in before.rooms ==>
               && r in after.rooms && after.rooms[r].currentRound == before.rooms[r].currentRound
               && after.rooms[r].status == before.rooms[r].status
    requires forall r :: r in after.rooms && r !in before.rooms ==> after.rooms[r].currentRound == 0 && after.rooms[r].status == Open
    ensures RoundsOk(after) && LifecycleOk(after)
  {
  }

  /** Seats are untouched and no room is reopened. */
  lemma KeepSeats(before: DB, after: DB)
    requires SeatsOk(before) && before.players.Keys <= after.players.Keys
    requires forall r :: r in after.rooms ==>
               && r in before.rooms && after.rooms[r].seats == before.rooms[r].seats
               && (Active(after, r) ==> Active(before, r))
    ensures SeatsOk(after)
  {
    forall r, p | r in after.rooms && p in after.rooms[r].seats
      ensures p in after.players
    {
      assert p in before.rooms[r].seats;
      assert p in before.players.Keys;
    }
    forall r, s, p | Seated(after, r, p) && Seated(after, s, p)
      ensures r == s
    {
      assert Seated(before, r, p) && Seated(before, s, p);
    }
  }

  lemma KeepTables(before: DB, after: DB)
    requires TablesOk(before) && after.rooms == before.rooms && after.rounds == before.rounds
    requires before.players.Keys <= after.players.Keys
    ensures TablesOk(after)
  {
    KeepSeats(before, after);
    KeepRounds(before, after);
  }

  // ---- wallet ------------------------------------------------------------------------------

  lemma NewPlayersAreStrangers(db: DB, p: Id)
    requires EntriesOk(db) && p !in db.players
    ensures Net(db.ledger, p) == 0
  {
    forall e | e in db.ledger
      ensures e.player != p
    {
      assert EntryOk(db, e);
    }
    StrangersHaveNoEntries(db.ledger, p);
  }

  lemma RegisterKeepsMoney(db: DB, p: Id)
    requires MoneyOk(db) && p !in db.players
    ensures MoneyOk(db.(players := db.players[p := 0]))
  {
    var after := db.(players := db.players[p := 0]);
    NewPlayersAreStrangers(db, p);
    KeepEntries(db, after);
    forall k
      ensures Due(after, k) == Due(db, k) && Staked(after, k) == Staked(db, k)
    {
    }
  }

  lemma RegisterKeeps(db: DB, p: Id)
    requires Inv(db) && RegisterTx(db, p).Success?
    ensures Inv(RegisterTx(db, p).value.db)
  {
    var after := RegisterTx(db, p).value.db;
    KeepTables(db, after);
    KeepBets(db, after);
    RegisterKeepsMoney(db, p);
  }

  /** A posting without a round leaves every bet's entries as they were. */
  lemma WalletPostingKeepsMoney(db: DB, after: DB, e: Entry)
    requires MoneyOk(db) && Posted(db, after, e) && e.round.None? && (e.kind == Deposit || e.kind == Withdraw)
    ensures MoneyOk(after)
  {
    PostingKeepsBalances(db, after, e);
    AppendAmounts(db.ledger, e);
    forall k
      ensures Due(after, k) == Due(db, k) && Staked(after, k) == Staked(db, k)
    {
    }
  }

  lemma DepositKeeps(db: DB, p: Id, amount: Cents)
    requires Inv(db) && DepositTx(db, p, amount).Success?
    ensures Inv(DepositTx(db, p, amount).value.db)
  {
    var e, after := Entry(p, Deposit, amount, None), DepositTx(db, p, amount).value.db;
    CreditPosts(db, e);
    KeepTables(db, after);
    KeepBets(db, after);
    WalletPostingKeepsMoney(db, after, e);
  }

  lemma WithdrawKeeps(db: DB, p: Id, amount: Cents)
    requires Inv(db) && WithdrawTx(db, p, amount).Success?
    ensures Inv(WithdrawTx(db, p, amount).value.db)
  {
    var e, after := Entry(p, Withdraw, amount, None), WithdrawTx(db, p, amount).value.db;
    DebitPosts(db, e);
    KeepTables(db, after);
    KeepBets(db, after);
    WalletPostingKeepsMoney(db, after, e);
  }

  // ---- rooms -------------------------------------------------------------------------------

  lemma CreateIs(db: DB, id: Id, owner: Id, now: Time)
    requires CreateTx(db, id, owner, now).Success?
    ensures id !in db.rooms && owner in db.players && ActiveRooms(db, owner) == {}
    ensures CreateTx(db, id, owner, now).value.db == db.(rooms := db.rooms[id := NewRoom(id, owner, now).row])
  {
  }

  lemma UnseatedEverywhere(db: DB, p: Id)
    requires ActiveRooms(db, p) == {}
    ensures forall r :: !Seated(db, r, p)
  {
    forall r
      ensures !Seated(db, r, p)
    {
      assert Seated(db, r, p) <==> r in ActiveRooms(db, p);
    }
  }

  /** Seating a player who sits nowhere, in a new room or in one more seat of an old one. */
  lemma SeatOne(db: DB, after: DB, id: Id, p: Id)
    requires SeatsOk(db) && p in db.players && after.players == db.players
    requires forall r :: !Seated(db, r, p)
    requires id in after.rooms && after.rooms == db.rooms[id := after.rooms[id]]
    requires forall q :: q in after.rooms[id].seats ==> q == p || (id in db.rooms && q in db.rooms[id].seats)
    requires id in db.rooms ==> Active(db, id)
    ensures SeatsOk(after)
  {
    forall r, s, q | Seated(after, r, q) && Seated(after, s, q)
      ensures r == s
    {
      if q != p {
        assert Seated(db, r, q) && Seated(db, s, q);
      } else {
        assert !Seated(db, r, p) && !Seated(db, s, p);
      }
    }
  }

  lemma CreateKeepsTables(db: DB, after: DB, id: Id, owner: Id, now: Time)
    requires TablesOk(db) && id !in db.rooms && owner in db.players && ActiveRooms(db, owner) == {}
    requires after == db.(rooms := db.rooms[id := NewRoom(id, owner, now).row])
    ensures TablesOk(after)
  {
    UnseatedEverywhere(db, owner);
    assert after.rooms[id].seats.Keys == {owner};
    SeatOne(db, after, id, owner);
    KeepRounds(db, after);
  }

  lemma CreateKeeps(db: DB, id: Id, owner: Id, now: Time)
    requires Inv(db) && CreateTx(db, id, owner, now).Success?
    ensures Inv(CreateTx(db, id, owner, now).value.db)
  {
    CreateIs(db, id, owner, now);
    var after := CreateTx(db, id, owner, now).value.db;
    CreateKeepsTables(db, after, id, owner, now);
    KeepBets(db, after);
    KeepMoney(db, after);
  }

  lemma JoinIs(db: DB, id: Id, p: Id, now: Time)
    requires JoinTx(db, id, p, now).Success?
    ensures id in db.rooms
    ensures JoinTx(db, id, p, now).value.reply == Joined(true) ==> JoinTx(db, id, p, now).value.db == db
    ensures JoinTx(db, id, p, now).value.reply != Joined(true) ==>
              && JoinTx(db, id, p, now).value.reply == Joined(false)
              && db.rooms[id].status == Open && p !in db.rooms[id].seats && |db.rooms[id].seats| < MAX_PLAYERS
              && p in db.players && ActiveRooms(db, p) == {}
              && JoinTx(db, id, p, now).value.db == db.(rooms := db.rooms[id := db.rooms[id].(seats := db.rooms[id].seats[p := now])])
  {
  }

  lemma JoinKeepsTables(db: DB, after: DB, id: Id, p: Id, now: Time)
    requires TablesOk(db) && id in db.rooms && db.rooms[id].status == Open && p !in db.rooms[id].seats
    requires |db.rooms[id].seats| < MAX_PLAYERS && p in db.players && ActiveRooms(db, p) == {}
    requires after == db.(rooms := db.rooms[id := db.rooms[id].(seats := db.rooms[id].seats[p := now])])
    ensures TablesOk(after)
  {
    UnseatedEverywhere(db, p);
    SeatOne(db, after, id, p);
    KeepRounds(db, after);
    assert after.rooms[id].seats.Keys == db.rooms[id].seats.Keys + {p};
  }

  lemma JoinKeeps(db: DB, id: Id, p: Id, now: Time)
    requires Inv(db) && JoinTx(db, id, p, now).Success?
    ensures Inv(JoinTx(db, id, p, now).value.db)
  {
    JoinIs(db, id, p, now);
    var after := JoinTx(db, id, p, now).value.db;
    if after != db {
      JoinKeepsTables(db, after, id, p, now);
      KeepBets(db, after);
      KeepMoney(db, after);
    }
  }

  // ---- rounds ------------------------------------------------------------------------------

  lemma StartIs(db: DB, id: Id, requester: Id, now: Time, window: int)
    requires TablesOk(db) && StartTx(db, id, requester, now, window).Success?
    ensures id in db.rooms && db.rooms[id].status == Open && db.rooms[id].currentRound < MAX_ROUNDS && window > 0
    ensures db.rooms[id].owner == requester && !Undecided(db, id)
    ensures var key := RoundKey(id, db.rooms[id].currentRound + 1);
            var row := RoundRow(now, now + window, Betting, 0, 0, None, None);
            && key !in db.rounds
            && StartTx(db, id, requester, now, window).value ==
                 Done(db.(rooms := db.rooms[id := db.rooms[id].(currentRound := key.number)], rounds := db.rounds[key := row]),
                      Started(key, now, now + window))
  {
    AttachedIs(db, id);
  }

  lemma StartKeepsRounds(db: DB, after: DB, id: Id, key: RoundKey, row: RoundRow)
    requires RoundsOk(db) && id in db.rooms && 0 <= db.rooms[id].currentRound < MAX_ROUNDS
    requires !Undecided(db, id) && key == RoundKey(id, db.rooms[id].currentRound + 1)
    requires RoundOk(row) && row.status == Betting
    requires after == db.(rooms := db.rooms[id := db.rooms[id].(currentRound := key.number)], rounds := db.rounds[key := row])
    ensures RoundsOk(after)
  {
    var last := CurrentKey(db, id);
    forall k | k in after.rounds && k != key
      ensures k in db.rounds && (k.room == id && db.rounds[k].status == Betting ==> k == last)
    {
    }
  }

  lemma StartKeepsTables(db: DB, after: DB, id: Id, key: RoundKey, row: RoundRow)
    requires TablesOk(db) && id in db.rooms && db.rooms[id].status == Open && 0 <= db.rooms[id].currentRound < MAX_ROUNDS
    requires !Undecided(db, id) && key == RoundKey(id, db.rooms[id].currentRound + 1)
    requires RoundOk(row) && row.status == Betting
    requires after == db.(rooms := db.rooms[id := db.rooms[id].(currentRound := key.number)], rounds := db.rounds[key := row])
    ensures TablesOk(after)
  {
    StartKeepsRounds(db, after, id, key, row);
    StartKeepsLifecycle(db, after, id, key, row);
    KeepSeats(db, after);
  }

  lemma StartKeepsLifecycle(db: DB, after: DB, id: Id, key: RoundKey, row: RoundRow)
    requires LifecycleOk(db) && id in db.rooms && row.status == Betting
    requires key == RoundKey(id, db.rooms[id].currentRound + 1)
    requires after == db.(rooms := db.rooms[id := db.rooms[id].(currentRound := key.number)], rounds := db.rounds[key := row])
    ensures LifecycleOk(after)
  {
  }

  lemma StartKeeps(db: DB, id: Id, requester: Id, now: Time, window: int)
    requires Inv(db) && StartTx(db, id, requester, now, window).Success?
    ensures Inv(StartTx(db, id, requester, now, window).value.db)
  {
    StartIs(db, id, requester, now, window);
    var after := StartTx(db, id, requester, now, window).value.db;
    var key := RoundKey(id, db.rooms[id].currentRound + 1);
    StartKeepsTables(db, after, id, key, RoundRow(now, now + window, Betting, 0, 0, None, None));
    KeepBets(db, after);
    KeepMoney(db, after);
  }

  // ---- bets --------------------------------------------------------------------------------

  lemma PlaceIs(db: DB, id: Id, p: Id, choice: Parity, amount: Cents, now: Time)
    requires TablesOk(db) && BalancesOk(db) && PlaceTx(db, id, p, choice, amount, now).Success?
    ensures Live(db, id) && p in db.rooms[id].seats && p in db.players
    ensures db.rounds[CurrentKey(db, id)].opensAt <= now < db.rounds[CurrentKey(db, id)].closesAt
    ensures 0 < amount <= db.players[p] && BetKey(CurrentKey(db, id), p) !in db.bets
    ensures var key := CurrentKey(db, id);
            var booked := db.(bets := db.bets[BetKey(key, p) := BetRow(choice, amount, now, None)]);
            && Posted(booked, PlaceTx(db, id, p, choice, amount, now).value.db, Entry(p, Stake, amount, Some(key)))
            && PlaceTx(db, id, p, choice, amount, now).value.reply == Placed(key)
  {
    AttachedIs(db, id);
    CurrentRoundIsLast(db, id);
    var key := CurrentKey(db, id);
    var booked := db.(bets := db.bets[BetKey(key, p) := BetRow(choice, amount, now, None)]);
    DebitPosts(booked, Entry(p, Stake, amount, Some(key)));
  }

  lemma PlaceKeepsBets(db: DB, after: DB, id: Id, k: BetKey, bet: BetRow)
    requires BetsOk(db) && Live(db, id) && k.round == CurrentKey(db, id) && k.player in db.rooms[id].seats
    requires bet.amount > 0 && bet.result.None?
    requires db.rounds[k.round].opensAt <= bet.placedAt < db.rounds[k.round].closesAt
    requires after.rooms == db.rooms && after.rounds == db.rounds && after.bets == db.bets[k := bet]
    ensures BetsOk(after)
  {
  }

  lemma PlaceKeepsMoney(db: DB, after: DB, id: Id, k: BetKey, bet: BetRow)
    requires MoneyOk(db) && Live(db, id) && k.round == CurrentKey(db, id) && k !in db.bets && bet.result.None? && bet.amount > 0
    requires Posted(db.(bets := db.bets[k := bet]), after, Entry(k.player, Stake, bet.amount, Some(k.round)))
    ensures MoneyOk(after)
  {
    var booked, e := db.(bets := db.bets[k := bet]), Entry(k.player, Stake, bet.amount, Some(k.round));
    KeepEntries(db, booked);
    PostingKeepsBalances(booked, after, e);
    AppendAmounts(db.ledger, e);
    forall x
      ensures Amounts(after.ledger, Stake, x) == Staked(after, x) && Amounts(after.ledger, Payback, x) == Due(after, x)
    {
      assert Amounts(db.ledger, Stake, x) == Staked(db, x) && Amounts(db.ledger, Payback, x) == Due(db, x);
    }
  }

  lemma PlaceKeeps(db: DB, id: Id, p: Id, choice: Parity, amount: Cents, now: Time)
    requires Inv(db) && PlaceTx(db, id, p, choice, amount, now).Success?
    ensures Inv(PlaceTx(db, id, p, choice, amount, now).value.db)
  {
    PlaceIs(db, id, p, choice, amount, now);
    var after := PlaceTx(db, id, p, choice, amount, now).value.db;
    var k, bet := BetKey(CurrentKey(db, id), p), BetRow(choice, amount, now, None);
    KeepTables(db, after);
    PlaceKeepsBets(db, after, id, k, bet);
    PlaceKeepsMoney(db, after, id, k, bet);
  }

  // ---- closing -----------------------------------------------------------------------------

  lemma CloseIs(db: DB, id: Id, requester: Id, now: Time)
    requires TablesOk(db) && CloseTx(db, id, requester, now).Success?
    ensures Active(db, id) && requester == db.rooms[id].owner
    ensures var row := if Undecided(db, id) then db.rooms[id].(status := Closing) else ClosedRow(db.rooms[id], now);
            && CloseTx(db, id, requester, now).value.db == db.(rooms := db.rooms[id := row])
            && CloseTx(db, id, requester, now).value.reply.RoomEnded?
            && (CloseTx(db, id, requester, now).value.reply.closed <==> !Undecided(db, id))
  {
    AttachedIs(db, id);
    if db.rooms[id].status == Closing {
      assert Waiting(db.rooms[id]);
      assert db.rooms[id].closedAt.None?;
    }
  }

  lemma ReplaceRowKeepsRounds(db: DB, after: DB, id: Id, row: RoomRow)
    requires RoundsOk(db) && id in db.rooms && row.currentRound == db.rooms[id].currentRound
    requires after.rounds == db.rounds && after.rooms == db.rooms[id := row]
    ensures RoundsOk(after)
  {
  }

  lemma ReplaceRowKeepsLifecycle(db: DB, after: DB, id: Id, row: RoomRow)
    requires LifecycleOk(db) && id in db.rooms && row.currentRound == db.rooms[id].currentRound
    requires after.rounds == db.rounds && after.rooms == db.rooms[id := row]
    requires Waiting(row) ==> Undecided(db, id)
    ensures LifecycleOk(after)
  {
  }

  /** Changing the status of one room that is not reopened, and nothing else of the tables. */
  lemma ReplaceRowKeepsTables(db: DB, after: DB, id: Id, row: RoomRow)
    requires TablesOk(db) && Active(db, id) && row.currentRound == db.rooms[id].currentRound
    requires after.rounds == db.rounds && after.rooms == db.rooms[id := row] && db.players.Keys <= after.players.Keys
    requires RoomOk(row) && row.seats == db.rooms[id].seats && (Waiting(row) ==> Undecided(db, id))
    ensures TablesOk(after)
  {
    ReplaceRowKeepsRounds(db, after, id, row);
    ReplaceRowKeepsLifecycle(db, after, id, row);
    KeepSeats(db, after);
  }

  lemma CloseKeepsMoney(db: DB, after: DB, id: Id, row: RoomRow)
    requires MoneyOk(db) && RoundsOk(db) && BetsOk(db) && Active(db, id) && after == db.(rooms := db.rooms[id := row])
    requires row.status == Closed ==> !Undecided(db, id)
    ensures MoneyOk(after)
  {
    KeepEntries(db, after);
    forall k
      ensures Due(after, k) == Due(db, k)
    {
      CloseKeepsDue(db, after, id, row, k);
    }
    SameDues(db, after);
  }

  /** A room that closes with its rounds settled owes nothing more. */
  lemma CloseKeepsDue(db: DB, after: DB, id: Id, row: RoomRow, k: BetKey)
    requires RoundsOk(db) && BetsOk(db) && Active(db, id) && after == db.(rooms := db.rooms[id := row])
    requires row.status == Closed ==> !Undecided(db, id)
    ensures Due(after, k) == Due(db, k)
  {
    if k in db.bets { assert BetOk(db, k); }
  }

  lemma SameDues(db: DB, after: DB)
    requires MoneyOk(db) && after == db.(rooms := after.rooms) && EntriesOk(after)
    requires forall k :: Due(after, k) == Due(db, k)
    ensures MoneyOk(after)
  {
    forall k
      ensures Amounts(after.ledger, Stake, k) == Staked(after, k) && Amounts(after.ledger, Payback, k) == Due(after, k)
    {
      assert Staked(after, k) == Staked(db, k);
    }
  }

  lemma CloseKeeps(db: DB, id: Id, requester: Id, now: Time)
    requires Inv(db) && CloseTx(db, id, requester, now).Success?
    ensures Inv(CloseTx(db, id, requester, now).value.db)
  {
    CloseIs(db, id, requester, now);
    var after := CloseTx(db, id, requester, now).value.db;
    ReplaceRowKeepsTables(db, after, id, after.rooms[id]);
    KeepBets(db, after);
    CloseKeepsMoney(db, after, id, after.rooms[id]);
  }

  // ---- settlement --------------------------------------------------------------------------

  /** What a committed settlement did to the tables: the round has its result, and the room closed
      if it was waiting for this round. */
  ghost predicate SettlesRound(db: DB, after: DB, id: Id, die1: int, die2: int, side: Parity, now: Time)
    requires Undecided(db, id)
  {
    && OutcomeOf(die1, die2) == Success(side)
    && after.rooms == db.rooms[id := FinishedRow(db.rooms[id], now)]
    && after.rounds == db.rounds[CurrentKey(db, id) := SettledRow(db.rounds[CurrentKey(db, id)], die1, die2, side, now)]
    && after.players.Keys == db.players.Keys
  }

  /** What it did to the bets and the money: every bet of the round has its result and every winner
      was paid once. */
  ghost predicate SettlesBets(db: DB, after: DB, key: RoundKey, side: Parity, order: seq<Id>) {
    && ResultsRecorded(db, after, key, order, side)
    && Gave(db.(rooms := after.rooms, rounds := after.rounds), after, key, order, Winnings(BetsOf(db.bets, key), side))
    && Lists(order, BetsOf(db.bets, key).Keys)
    && NoneNegative(BetsOf(db.bets, key), side, order)
  }

  ghost predicate Settles(db: DB, after: DB, id: Id, die1: int, die2: int, side: Parity, now: Time, order: seq<Id>)
    requires Undecided(db, id)
  {
    SettlesRound(db, after, id, die1, die2, side, now) && SettlesBets(db, after, CurrentKey(db, id), side, order)
  }

  lemma OrderOfBets(bets: map<BetKey, BetRow>, key: RoundKey, order: seq<Id>)
    requires InTimeOrder(order, PlacedAt(BetsOf(bets, key)))
    ensures Lists(order, BetsOf(bets, key).Keys) && Distinct(order)
    ensures forall p :: p in order <==> BetKey(key, p) in bets
  {
  }

  lemma SettledBetsPay(db: DB, db1: DB, key: RoundKey, side: Parity, order: seq<Id>)
    requires BalancesOk(db) && EntriesOk(db) && BetsOk(db) && SeatsOk(db)
    requires key in db.rounds && db.rounds[key].status == Betting && db1 == db.(rounds := db1.rounds)
    requires Distinct(order) && forall p :: p in order <==> BetKey(key, p) in db.bets
    ensures var bets := BetsOf(db.bets, key);
            var paid := PayAll(db1, key, Outcomes(bets, side, order));
            && (paid.Success? <==> Payable(db1, bets, side, order, Winnings(bets, side)))
            && (paid.Success? ==> Gave(db1, paid.value, key, order, Winnings(bets, side)) && ResultsRecorded(db1, paid.value, key, order, side))
  {
    KeepEntries(db, db1);
    var bets := BetsOf(db.bets, key);
    forall p | p in order
      ensures p in bets && bets[p].result.None? && p in db.players
    {
      assert BetOk(db, BetKey(key, p));
    }
    PayoutsGive(db1, key, bets, side, order, Outcomes(bets, side, order), Winnings(bets, side));
  }

  lemma GaveWhateverTheRooms(before: DB, after: DB, key: RoundKey, order: seq<Id>, gifts: map<Id, Cents>, rooms: map<Id, RoomRow>)
    requires Gave(before, after, key, order, gifts)
    ensures Gave(before.(rooms := rooms), after.(rooms := rooms), key, order, gifts)
  {
  }

  /** The store once the round row is settled and before any bet is. */
  function RoundMarked(db: DB, key: RoundKey, die1: int, die2: int, side: Parity, now: Time): DB
    requires key in db.rounds
  {
    db.(rounds := db.rounds[key := SettledRow(db.rounds[key], die1, die2, side, now)])
  }

  /** A settlement needs a live round and a legal roll. */
  lemma SettleNeeds(db: DB, id: Id, roll: Result<(int, int)>, now: Time, order: seq<Id>)
    requires TablesOk(db) && SettleTx(db, id, roll, now, order).Success?
    ensures Live(db, id) && roll.Success? && OutcomeOf(roll.value.0, roll.value.1).Success?
  {
    AttachedIs(db, id);
    if id in db.rooms { CurrentRoundIsLast(db, id); }
  }

  /** A settlement is the round row, then the payout loop, then the status of the room. */
  lemma SettleUnfolds(db: DB, id: Id, roll: Result<(int, int)>, now: Time, order: seq<Id>, key: RoundKey, side: Parity)
    requires TablesOk(db) && SettleTx(db, id, roll, now, order).Success?
    requires key == RoundKey(id, if id in db.rooms then db.rooms[id].currentRound else 0)
    requires roll.Success? && OutcomeOf(roll.value.0, roll.value.1).Success? ==> side == OutcomeOf(roll.value.0, roll.value.1).value
    ensures Live(db, id) && roll.Success? && OutcomeOf(roll.value.0, roll.value.1) == Success(side)
    ensures GetCurrent(db, id) == Some(Hydrate(db, key))
    ensures forall p :: p in order ==> p in BetsOf(db.bets, key)
    ensures var paid := PayAll(RoundMarked(db, key, roll.value.0, roll.value.1, side, now), key, Outcomes(BetsOf(db.bets, key), side, order));
            && paid.Success?
            && SettleTx(db, id, roll, now, order).value.reply.RoundSettled?
            && SettleTx(db, id, roll, now, order).value.reply.round == key
            && SettleTx(db, id, roll, now, order).value.reply.results == Outcomes(BetsOf(db.bets, key), side, order)
            && MemberBalances(SettleTx(db, id, roll, now, order).value.db, db.rooms[id].seats.Keys)
                 == Success(SettleTx(db, id, roll, now, order).value.reply.balances)
            && SettleTx(db, id, roll, now, order).value.reply.roomClosed == (FinishedRow(db.rooms[id], now).status == Closed)
            && (paid.value.rooms == db.rooms ==>
                  SettleTx(db, id, roll, now, order).value.db == paid.value.(rooms := db.rooms[id := FinishedRow(db.rooms[id], now)]))
  {
    SettleNeeds(db, id, roll, now, order);
    AttachedIs(db, id);
    CurrentRoundIsLast(db, id);
    var row := SettledRow(db.rounds[key], roll.value.0, roll.value.1, side, now);
    assert SettleRoundRow(db, key, row) == Success(RoundMarked(db, key, roll.value.0, roll.value.1, side, now));
    var finished := FinishedRow(db.rooms[id], now);
    if finished.status != Closed {
      assert db.rooms[id := finished] == db.rooms;
    }
  }

  lemma SettleIs(db: DB, id: Id, roll: Result<(int, int)>, now: Time, order: seq<Id>)
    requires Inv(db) && SettleTx(db, id, roll, now, order).Success? && GetCurrent(db, id).Some?
    requires InTimeOrder(order, PlacedAt(GetCurrent(db, id).value.bets))
    ensures Live(db, id) && roll.Success? && OutcomeOf(roll.value.0, roll.value.1).Success?
    ensures Settles(db, SettleTx(db, id, roll, now, order).value.db, id, roll.value.0, roll.value.1,
                    OutcomeOf(roll.value.0, roll.value.1).value, now, order)
  {
    var key := RoundKey(id, if id in db.rooms then db.rooms[id].currentRound else 0);
    var side := if roll.Success? && OutcomeOf(roll.value.0, roll.value.1).Success? then OutcomeOf(roll.value.0, roll.value.1).value else Even;
    SettleUnfolds(db, id, roll, now, order, key, side);
    var db1 := RoundMarked(db, key, roll.value.0, roll.value.1, side, now);
    OrderOfBets(db.bets, key, order);
    SettledBetsPay(db, db1, key, side, order);
    var db2 := PayAll(db1, key, Outcomes(BetsOf(db.bets, key), side, order)).value;
    PaidIsSettled(db, db1, db2, id, key, roll.value.0, roll.value.1, side, now, order);
  }

  lemma PaidIsSettled(db: DB, db1: DB, db2: DB, id: Id, key: RoundKey, die1: int, die2: int, side: Parity, now: Time, order: seq<Id>)
    requires Undecided(db, id) && key == CurrentKey(db, id) && OutcomeOf(die1, die2) == Success(side)
    requires db1 == RoundMarked(db, key, die1, die2, side, now)
    requires Gave(db1, db2, key, order, Winnings(BetsOf(db.bets, key), side)) && ResultsRecorded(db1, db2, key, order, side)
    requires Lists(order, BetsOf(db.bets, key).Keys) && NoneNegative(BetsOf(db.bets, key), side, order)
    ensures Settles(db, db2.(rooms := db.rooms[id := FinishedRow(db.rooms[id], now)]), id, die1, die2, side, now, order)
  {
    var rooms := db.rooms[id := FinishedRow(db.rooms[id], now)];
    GaveWhateverTheRooms(db1, db2, key, order, Winnings(BetsOf(db.bets, key), side), rooms);
  }

  lemma SettleKeepsRounds(db: DB, after: DB, id: Id, die1: int, die2: int, side: Parity, now: Time)
    requires RoundsOk(db) && LifecycleOk(db) && RoomsOk(db) && Live(db, id) && OutcomeOf(die1, die2) == Success(side)
    requires after.rooms == db.rooms[id := FinishedRow(db.rooms[id], now)]
    requires after.rounds == db.rounds[CurrentKey(db, id) := SettledRow(db.rounds[CurrentKey(db, id)], die1, die2, side, now)]
    ensures RoundsOk(after) && LifecycleOk(after) && RoomsOk(after)
  {
    SettleKeepsLifecycle(db, after, id, die1, die2, side, now);
    FinishingKeepsRooms(db, after, id, now);
  }

  lemma FinishingKeepsRooms(db: DB, after: DB, id: Id, now: Time)
    requires RoomsOk(db) && id in db.rooms && after.rooms == db.rooms[id := FinishedRow(db.rooms[id], now)]
    ensures RoomsOk(after)
    ensures forall r :: r in after.rooms <==> r in db.rooms
    ensures forall r :: r in db.rooms ==> after.rooms[r].currentRound == db.rooms[r].currentRound
  {
  }

  lemma SettleKeepsLifecycle(db: DB, after: DB, id: Id, die1: int, die2: int, side: Parity, now: Time)
    requires LifecycleOk(db) && Live(db, id)
    requires after.rooms == db.rooms[id := FinishedRow(db.rooms[id], now)]
    requires after.rounds == db.rounds[CurrentKey(db, id) := SettledRow(db.rounds[CurrentKey(db, id)], die1, die2, side, now)]
    requires db.rooms[id].currentRound <= MAX_ROUNDS
    ensures LifecycleOk(after)
  {
  }

  lemma SettleKeepsBets(db: DB, after: DB, id: Id, die1: int, die2: int, side: Parity, now: Time, order: seq<Id>)
    requires BetsOk(db) && Undecided(db, id) && Settles(db, after, id, die1, die2, side, now, order)
    ensures BetsOk(after)
  {
    var key := CurrentKey(db, id);
    forall k | k in after.bets
      ensures BetOk(after, k)
    {
      assert k in db.bets.Keys && BetOk(db, k);
      if k.round == key {
        assert k.player in BetsOf(db.bets, key).Keys && k.player in order;
        BetOfTheRoundIsOk(db, after, id, die1, die2, side, now, k);
      } else {
        OtherBetIsOk(db, after, id, die1, die2, side, now, k);
      }
    }
  }

  lemma BetOfTheRoundIsOk(db: DB, after: DB, id: Id, die1: int, die2: int, side: Parity, now: Time, k: BetKey)
    requires Undecided(db, id) && SettlesRound(db, after, id, die1, die2, side, now)
    requires k in db.bets && k in after.bets && BetOk(db, k) && k.round == CurrentKey(db, id)
    requires after.bets[k] == SettledBet(db.bets[k], side) && ResultOf(db.bets[k], side).payout >= 0
    ensures BetOk(after, k)
  {
  }

  lemma OtherBetIsOk(db: DB, after: DB, id: Id, die1: int, die2: int, side: Parity, now: Time, k: BetKey)
    requires Undecided(db, id) && SettlesRound(db, after, id, die1, die2, side, now)
    requires k in db.bets && k in after.bets && BetOk(db, k) && k.round != CurrentKey(db, id) && after.bets[k] == db.bets[k]
    ensures BetOk(after, k)
  {
  }

  lemma DueOfSettledBet(after: DB, k: BetKey, bet: BetRow, side: Parity, bets: map<Id, BetRow>)
    requires k in after.bets && after.bets[k] == SettledBet(bet, side) && k.player in bets && bets[k.player] == bet
    ensures Due(after, k) == if k.player in Winnings(bets, side) then [Winnings(bets, side)[k.player]] else []
  {
  }

  /** What a settlement adds to one bet's dues is what it paid for that bet. */
  lemma SettlementOfOneBet(db: DB, after: DB, id: Id, side: Parity, order: seq<Id>,
                           k: BetKey, key: RoundKey, bets: map<Id, BetRow>)
    requires BetsOk(db) && Live(db, id) && SettlesBets(db, after, key, side, order)
    requires key == CurrentKey(db, id) && bets == BetsOf(db.bets, key) && k in db.bets && k.round == key
    ensures k in after.bets && after.bets[k].amount == db.bets[k].amount
    ensures k.player in order && Due(db, k) == []
    ensures Due(after, k) == if k.player in Winnings(bets, side) then [Winnings(bets, side)[k.player]] else []
  {
    assert k in after.bets.Keys;
    assert BetOk(db, k);
    assert k.player in bets.Keys;
    DueOfSettledBet(after, k, db.bets[k], side, bets);
  }

  /** It changes no other bet's dues, though it may close the room: all other bets are settled. */
  lemma OtherBetsKeepTheirDues(db: DB, after: DB, id: Id, side: Parity, now: Time, order: seq<Id>, k: BetKey)
    requires BetsOk(db) && RoundsOk(db) && Live(db, id) && ResultsRecorded(db, after, CurrentKey(db, id), order, side)
    requires after.rooms == db.rooms[id := FinishedRow(db.rooms[id], now)]
    requires k in db.bets && k.round != CurrentKey(db, id)
    ensures k in after.bets && after.bets[k] == db.bets[k] && Due(after, k) == Due(db, k)
  {
  }

  lemma SettleKeepsMoney(db: DB, after: DB, id: Id, die1: int, die2: int, side: Parity, now: Time, order: seq<Id>)
    requires PaidOnce(db) && BetsOk(db) && RoundsOk(db) && Live(db, id) && Settles(db, after, id, die1, die2, side, now, order)
    ensures MoneyOk(after)
  {
    var key := CurrentKey(db, id);
    var bets := BetsOf(db.bets, key);
    assert after.bets.Keys == db.bets.Keys;
    forall k
      ensures Amounts(after.ledger, Stake, k) == Staked(after, k) && Amounts(after.ledger, Payback, k) == Due(after, k)
    {
      assert Amounts(db.ledger, Stake, k) == Staked(db, k) && Amounts(db.ledger, Payback, k) == Due(db, k);
      assert k in after.bets <==> k in after.bets.Keys;
      if k in db.bets && k.round == key {
        SettlementOfOneBet(db, after, id, side, order, k, key, bets);
      } else if k in db.bets {
        OtherBetsKeepTheirDues(db, after, id, side, now, order, k);
      } else if k.round == key {
        assert k.player !in bets;
      }
    }
  }

  lemma SettlesKeepsTables(db: DB, after: DB, id: Id, die1: int, die2: int, side: Parity, now: Time)
    requires TablesOk(db) && Live(db, id) && SettlesRound(db, after, id, die1, die2, side, now)
    ensures TablesOk(after)
  {
    SettleKeepsRounds(db, after, id, die1, die2, side, now);
    KeepSeats(db, after);
  }

  lemma SettlesKeeps(db: DB, after: DB, id: Id, die1: int, die2: int, side: Parity, now: Time, order: seq<Id>)
    requires Inv(db) && Live(db, id) && Settles(db, after, id, die1, die2, side, now, order)
    ensures Inv(after)
  {
    SettlesKeepsTables(db, after, id, die1, die2, side, now);
    SettleKeepsBets(db, after, id, die1, die2, side, now, order);
    SettleKeepsMoney(db, after, id, die1, die2, side, now, order);
  }

  lemma SettleKeeps(db: DB, id: Id, roll: Result<(int, int)>, now: Time, order: seq<Id>)
    requires Inv(db) && SettleTx(db, id, roll, now, order).Success? && GetCurrent(db, id).Some?
    requires InTimeOrder(order, PlacedAt(GetCurrent(db, id).value.bets))
    ensures Inv(SettleTx(db, id, roll, now, order).value.db)
  {
    SettleIs(db, id, roll, now, order);
    SettlesKeeps(db, SettleTx(db, id, roll, now, order).value.db, id, roll.value.0, roll.value.1,
                 OutcomeOf(roll.value.0, roll.value.1).value, now, order);
  }

  // ---- abort -------------------------------------------------------------------------------

  /** The rounds before the current one are settled, so an abort passes over them. */
  lemma {:induction false} SettledRoundsAreSkipped(db: DB, id: Id, n: int, orders: map<int, seq<Id>>)
    requires forall i :: 1 <= i <= n ==> RoundKey(id, i) in db.rounds && db.rounds[RoundKey(id, i)].status == Settled
    ensures RefundRounds(db, id, n, orders) == Success(db)
    decreases n
  {
    if n > 0 {
      SettledRoundsAreSkipped(db, id, n - 1, orders);
    }
  }

  /** The orders with which AbortTx visits the bets are ones that Bets() can return. */
  ghost predicate OrdersOk(db: DB, id: Id, orders: map<int, seq<Id>>) {
    forall n :: RoundKey(id, n) in db.rounds && db.rounds[RoundKey(id, n)].status == Betting ==>
      n in orders && InTimeOrder(orders[n], PlacedAt(BetsOf(db.bets, RoundKey(id, n))))
  }

  lemma RefundsOfRoom(db: DB, id: Id, orders: map<int, seq<Id>>, key: RoundKey)
    requires RoomsOk(db) && RoundsOk(db) && id in db.rooms && key == CurrentKey(db, id)
    requires OrdersOk(db, id, orders)
    ensures !Undecided(db, id) ==> RefundRounds(db, id, LastNumber(db, id), orders) == Success(db)
    ensures Undecided(db, id) ==>
              && key.number in orders && Distinct(orders[key.number])
              && (forall p :: p in orders[key.number] <==> BetKey(key, p) in db.bets)
              && RefundRounds(db, id, LastNumber(db, id), orders) == RefundBets(db, key, BetsOf(db.bets, key), orders[key.number])
  {
    CurrentRoundIsLast(db, id);
    EarlierRoundsAreSettled(db, id);
    if Undecided(db, id) {
      RefundsOfLastRound(db, id, orders, key);
    } else {
      SettledRoundsAreSkipped(db, id, db.rooms[id].currentRound, orders);
    }
  }

  lemma RefundsOfLastRound(db: DB, id: Id, orders: map<int, seq<Id>>, key: RoundKey)
    requires Undecided(db, id) && key == CurrentKey(db, id) && key.number > 0 && OrdersOk(db, id, orders)
    requires forall i :: 1 <= i < key.number ==> RoundKey(id, i) in db.rounds && db.rounds[RoundKey(id, i)].status == Settled
    ensures key.number in orders && Distinct(orders[key.number])
    ensures forall p :: p in orders[key.number] <==> BetKey(key, p) in db.bets
    ensures RefundRounds(db, id, key.number, orders) == RefundBets(db, key, BetsOf(db.bets, key), orders[key.number])
  {
    SettledRoundsAreSkipped(db, id, key.number - 1, orders);
    assert RoundKey(id, key.number) in db.rounds;
    OrderOfBets(db.bets, key, orders[key.number]);
  }

  lemma EarlierRoundsAreSettled(db: DB, id: Id)
    requires RoundsOk(db) && id in db.rooms
    ensures forall i :: 1 <= i <= db.rooms[id].currentRound && !(i == db.rooms[id].currentRound && Undecided(db, id)) ==>
              RoundKey(id, i) in db.rounds && db.rounds[RoundKey(id, i)].status == Settled
  {
  }

  /** Nobody's balance is lower afterwards. */
  ghost predicate NoneLoses(before: DB, after: DB) {
    forall p :: p in before.players ==> p in after.players && after.players[p] >= before.players[p]
  }

  /** What a committed abort did: the room is closed, rounds and bets are as they were, and every
      bettor of the undecided round got the stake back once. */
  ghost predicate Aborts(db: DB, after: DB, id: Id, now: Time)
    requires id in db.rooms
  {
    && after.rooms == db.rooms[id := ClosedRow(db.rooms[id], now)]
    && after.rounds == db.rounds && after.bets == db.bets && after.players.Keys == db.players.Keys
    && NoneLoses(db, after)
    && BalancesOk(after) && EntriesOk(after)
    && db.ledger <= after.ledger
    && SameStakes(db, after)
    && if Undecided(db, id) then StakesReturned(db, after, CurrentKey(db, id)) else after.ledger == db.ledger
  }

  /** Every bet of the round got one more payout entry, of exactly its stake; no other bet did. */
  ghost predicate StakesReturned(db: DB, after: DB, key: RoundKey) {
    forall k :: Amounts(after.ledger, Payback, k) == Amounts(db.ledger, Payback, k)
      + if k.round == key && k in db.bets then [db.bets[k].amount] else []
  }

  /** Every open stake of the room can be given back without overflowing an int64. */
  ghost predicate RefundsFit(db: DB, id: Id)
    requires id in db.rooms
  {
    Undecided(db, id) ==>
      forall p :: BetKey(CurrentKey(db, id), p) in db.bets ==>
        p in db.players && db.players[p] + db.bets[BetKey(CurrentKey(db, id), p)].amount <= MAX_CENTS
  }

  lemma OpenBetsOfRound(db: DB, key: RoundKey, p: Id)
    requires BetsOk(db) && SeatsOk(db) && BetKey(key, p) in db.bets && key in db.rounds && db.rounds[key].status == Betting
    ensures p in BetsOf(db.bets, key) && p in db.players
    ensures p in Refunds(BetsOf(db.bets, key)) && Refunds(BetsOf(db.bets, key))[p] == db.bets[BetKey(key, p)].amount > 0
  {
  }

  lemma AffordableMeansFit(db: DB, id: Id, key: RoundKey, bets: map<Id, BetRow>, order: seq<Id>)
    requires Undecided(db, id) && key == CurrentKey(db, id)
    requires forall p :: p in order <==> BetKey(key, p) in db.bets
    requires forall p :: p in order ==> p in Refunds(bets) && Refunds(bets)[p] == db.bets[BetKey(key, p)].amount
    ensures Affordable(db, order, Refunds(bets)) <==> RefundsFit(db, id)
  {
  }

  lemma BettingRoundRefunds(db: DB, id: Id, key: RoundKey, bets: map<Id, BetRow>, order: seq<Id>)
    requires BalancesOk(db) && EntriesOk(db) && BetsOk(db) && SeatsOk(db)
    requires Undecided(db, id) && key == CurrentKey(db, id) && bets == BetsOf(db.bets, key)
    requires Distinct(order) && forall p :: p in order <==> BetKey(key, p) in db.bets
    ensures RefundBets(db, key, bets, order).Success? <==> RefundsFit(db, id)
    ensures RefundBets(db, key, bets, order).Success? ==>
              Gave(db, RefundBets(db, key, bets, order).value, key, order, Refunds(bets)) && RefundBets(db, key, bets, order).value.bets == db.bets
  {
    forall p | p in order
      ensures p in bets && bets[p].amount > 0 && p in db.players && p in Refunds(bets) && Refunds(bets)[p] == db.bets[BetKey(key, p)].amount
    {
      OpenBetsOfRound(db, key, p);
    }
    AffordableMeansFit(db, id, key, bets, order);
    RefundsGive(db, key, bets, order);
  }

  lemma MembersHaveBalances(db: DB, id: Id)
    requires SeatsOk(db) && BalancesOk(db) && id in db.rooms
    ensures MemberBalances(db, db.rooms[id].seats.Keys).Success?
  {
  }

  /** The refund loop as a whole: it succeeds exactly when every refund fits. */
  lemma RefundLoop(db: DB, id: Id, orders: map<int, seq<Id>>)
    requires TablesOk(db) && BetsOk(db) && BalancesOk(db) && EntriesOk(db) && id in db.rooms && OrdersOk(db, id, orders)
    ensures var refunded := RefundRounds(db, id, LastNumber(db, id), orders);
            && (refunded.Success? <==> RefundsFit(db, id))
            && (refunded.Success? ==>
                  && refunded.value.rooms == db.rooms
                  && Aborts(db, refunded.value.(rooms := db.rooms[id := ClosedRow(db.rooms[id], 0)]), id, 0))
  {
    var key := CurrentKey(db, id);
    RefundsOfRoom(db, id, orders, key);
    if Undecided(db, id) {
      var bets, order := BetsOf(db.bets, key), orders[key.number];
      BettingRoundRefunds(db, id, key, bets, order);
      var refunded := RefundBets(db, key, bets, order);
      if refunded.Success? {
        GaveIsAborts(db, refunded.value, id, key, bets, order);
      }
    } else {
      KeepEntries(db, db.(rooms := db.rooms[id := ClosedRow(db.rooms[id], 0)]));
    }
  }

  lemma RefundOfOneBet(db: DB, key: RoundKey, bets: map<Id, BetRow>, order: seq<Id>, k: BetKey)
    requires BetsOk(db) && SeatsOk(db) && key in db.rounds && db.rounds[key].status == Betting && bets == BetsOf(db.bets, key)
    requires k.player in order <==> BetKey(key, k.player) in db.bets
    ensures var gifts := Refunds(bets);
            (if k.round == key && k.player in order && k.player in gifts then [gifts[k.player]] else [])
              == if k.round == key && k in db.bets then [db.bets[k].amount] else []
  {
    if k.round == key {
      assert k == BetKey(key, k.player);
      if k in db.bets { OpenBetsOfRound(db, key, k.player); }
    }
  }

  lemma GaveIsAborts(db: DB, refunded: DB, id: Id, key: RoundKey, bets: map<Id, BetRow>, order: seq<Id>)
    requires BetsOk(db) && SeatsOk(db) && Undecided(db, id) && key == CurrentKey(db, id) && bets == BetsOf(db.bets, key)
    requires Gave(db, refunded, key, order, Refunds(bets)) && refunded.bets == db.bets
    requires forall p :: p in order <==> BetKey(key, p) in db.bets
    ensures Aborts(db, refunded.(rooms := db.rooms[id := ClosedRow(db.rooms[id], 0)]), id, 0)
  {
    GaveReturnsStakes(db, refunded, key, bets, order);
    RefundsRaiseBalances(db, refunded, key, bets, order);
    ReturnedIsAborted(db, refunded, refunded.(rooms := db.rooms[id := ClosedRow(db.rooms[id], 0)]), id, key);
  }

  lemma ReturnedIsAborted(db: DB, refunded: DB, after: DB, id: Id, key: RoundKey)
    requires Undecided(db, id) && key == CurrentKey(db, id) && after == refunded.(rooms := db.rooms[id := ClosedRow(db.rooms[id], 0)])
    requires refunded.rounds == db.rounds && refunded.bets == db.bets && refunded.players.Keys == db.players.Keys
    requires BalancesOk(refunded) && EntriesOk(refunded) && db.ledger <= refunded.ledger
    requires StakesReturned(db, refunded, key) && SameStakes(db, refunded) && NoneLoses(db, refunded)
    ensures Aborts(db, after, id, 0)
  {
    KeepEntries(refunded, after);
  }

  lemma RefundsRaiseBalances(db: DB, refunded: DB, key: RoundKey, bets: map<Id, BetRow>, order: seq<Id>)
    requires BetsOk(db) && bets == BetsOf(db.bets, key) && Gave(db, refunded, key, order, Refunds(bets))
    ensures NoneLoses(db, refunded)
  {
    forall p | p in db.players
      ensures p in refunded.players && refunded.players[p] >= db.players[p]
    {
      assert p in refunded.players.Keys;
      if p in Refunds(bets) { assert BetOk(db, BetKey(key, p)); }
    }
  }

  lemma GaveReturnsStakes(db: DB, refunded: DB, key: RoundKey, bets: map<Id, BetRow>, order: seq<Id>)
    requires BetsOk(db) && SeatsOk(db) && key in db.rounds && db.rounds[key].status == Betting && bets == BetsOf(db.bets, key)
    requires Gave(db, refunded, key, order, Refunds(bets))
    requires forall p :: p in order <==> BetKey(key, p) in db.bets
    ensures StakesReturned(db, refunded, key)
  {
    forall k: BetKey
      ensures Amounts(refunded.ledger, Payback, k) == Amounts(db.ledger, Payback, k)
                + if k.round == key && k in db.bets then [db.bets[k].amount] else []
    {
      RefundOfOneBet(db, key, bets, order, k);
    }
  }

  lemma AbortsWheneverClosed(db: DB, after: DB, later: DB, id: Id, now: Time)
    requires id in db.rooms && Aborts(db, after, id, 0)
    requires later == after.(rooms := db.rooms[id := ClosedRow(db.rooms[id], now)])
    ensures Aborts(db, later, id, now)
  {
  }

  lemma AbortKeepsTables(db: DB, after: DB, id: Id, now: Time)
    requires TablesOk(db) && Active(db, id) && Aborts(db, after, id, now)
    ensures TablesOk(after)
  {
    ReplaceRowKeepsTables(db, after, id, ClosedRow(db.rooms[id], now));
  }

  /** An abort commits exactly for an existing room that is not closed and whose stakes all fit
      back into their players' balances. */
  lemma AbortIs(db: DB, id: Id, now: Time, orders: map<int, seq<Id>>)
    requires Inv(db) && OrdersOk(db, id, orders)
    ensures AbortTx(db, id, now, orders).Success? <==> Active(db, id) && RefundsFit(db, id)
    ensures AbortTx(db, id, now, orders).Success? ==> Aborts(db, AbortTx(db, id, now, orders).value.db, id, now)
    ensures id !in db.rooms ==> AbortTx(db, id, now, orders) == Failure(RoomNotFound)
    ensures id in db.rooms && !Active(db, id) ==> AbortTx(db, id, now, orders) == Failure(RoomClosed)
  {
    if Active(db, id) {
      RefundLoop(db, id, orders);
      var refunded := RefundRounds(db, id, LastNumber(db, id), orders);
      if refunded.Success? {
        var after := refunded.value.(rooms := db.rooms[id := ClosedRow(db.rooms[id], now)]);
        AbortsWheneverClosed(db, refunded.value.(rooms := db.rooms[id := ClosedRow(db.rooms[id], 0)]), after, id, now);
        AbortKeepsTables(db, after, id, now);
        MembersHaveBalances(after, id);
      }
    }
  }

  /** What an abort adds to one bet's dues is its stake, for the bets of the undecided round alone. */
  lemma AbortOfOneBet(db: DB, after: DB, id: Id, now: Time, k: BetKey)
    requires BetsOk(db) && RoundsOk(db) && Active(db, id) && Aborts(db, after, id, now)
    ensures Staked(after, k) == Staked(db, k)
    ensures Due(after, k) == Due(db, k) + if Undecided(db, id) && k.round == CurrentKey(db, id) && k in db.bets then [db.bets[k].amount] else []
  {
  }

  lemma AbortKeepsMoney(db: DB, after: DB, id: Id, now: Time)
    requires PaidOnce(db) && BetsOk(db) && RoundsOk(db) && Active(db, id) && Aborts(db, after, id, now)
    ensures MoneyOk(after)
  {
    forall k
      ensures Amounts(after.ledger, Stake, k) == Staked(after, k) && Amounts(after.ledger, Payback, k) == Due(after, k)
    {
      AbortOfOneBet(db, after, id, now, k);
      assert Amounts(after.ledger, Stake, k) == Amounts(db.ledger, Stake, k);
      assert Amounts(db.ledger, Stake, k) == Staked(db, k) && Amounts(db.ledger, Payback, k) == Due(db, k);
    }
  }

  lemma AbortKeeps(db: DB, id: Id, now: Time, orders: map<int, seq<Id>>)
    requires Inv(db) && OrdersOk(db, id, orders) && AbortTx(db, id, now, orders).Success?
    ensures Inv(AbortTx(db, id, now, orders).value.db)
  {
    AbortIs(db, id, now, orders);
    var after := AbortTx(db, id, now, orders).value.db;
    AbortKeepsTables(db, after, id, now);
    KeepBets(db, after);
    AbortKeepsMoney(db, after, id, now);
  }

  // ---- all of them -------------------------------------------------------------------------

  /** Every use case that succeeds keeps the invariant. */
  lemma PerformKeeps(db: DB, r: Request, env: Env)
    requires Inv(db) && Feasible(db, r, env) && Perform(db, r, env).Success?
    ensures Inv(Perform(db, r, env).value.db)
  {
    match r
    case Register(player) => RegisterKeeps(db, player);
    case DepositFunds(player, amount) => DepositKeeps(db, player, amount);
    case WithdrawFunds(player, amount) => WithdrawKeeps(db, player, amount);
    case CreateRoomFor(room, player) => CreateKeeps(db, room, player, env.now);
    case JoinRoom(room, player) => JoinKeeps(db, room, player, env.now);
    case StartRound(room, player) => StartKeeps(db, room, player, env.now, env.window);
    case PlaceBet(room, player, choice, amount) => PlaceKeeps(db, room, player, choice, amount, env.now);
    case SettleRound(room) => SettleKeeps(db, room, env.roll, env.now, env.order);
    case CloseRoom(room, player) => CloseKeeps(db, room, player, env.now);
    case AbortRoom(room) => AbortKeeps(db, room, env.now, env.orders);
  }
}
