/** The use cases as the step-by-step code they are: each works on a copy of the store through the
    domain objects, leaves at the first error and commits at the end. Each is proved equal to its
    function in Transactions. */
module UseCases {
  import opened Types
  import opened Money
  import opened Dice
  import opened Game
  import opened Aggregates
  import opened Wallet
  import opened Store
  import opened Transactions

  /** An error in the middle of the payout loop ends the whole settlement with that error. */
  lemma {:induction false} PayStops(db: DB, key: RoundKey, results: seq<Outcome>, i: nat)
    requires i <= |results| && PayAll(db, key, results[..i]).Failure?
    ensures PayAll(db, key, results) == PayAll(db, key, results[..i])
    decreases |results|
  {
    if i < |results| {
      var shorter := results[..|results| - 1];
      assert shorter[..i] == results[..i];
      PayStops(db, key, shorter, i);
    } else {
      assert results[..i] == results;
    }
  }

  lemma {:induction false} RefundStops(db: DB, key: RoundKey, bets: map<Id, BetRow>, order: seq<Id>, i: nat)
    requires i <= |order| && RefundBets(db, key, bets, order[..i]).Failure?
    ensures RefundBets(db, key, bets, order) == RefundBets(db, key, bets, order[..i])
    decreases |order|
  {
    if i < |order| {
      var shorter := order[..|order| - 1];
      assert shorter[..i] == order[..i];
      RefundStops(db, key, bets, shorter, i);
    } else {
      assert order[..i] == order;
    }
  }

  lemma {:induction false} RefundRoundsStop(db: DB, id: Id, i: int, n: int, orders: map<int, seq<Id>>)
    requires 0 <= i <= n && RefundRounds(db, id, i, orders).Failure?
    ensures RefundRounds(db, id, n, orders) == RefundRounds(db, id, i, orders)
    decreases n
  {
    if i < n {
      RefundRoundsStop(db, id, i, n - 1, orders);
    }
  }

  /** Orders of later rounds do not matter to the rounds refunded so far. */
  lemma {:induction false} EarlierRoundsOnly(db: DB, id: Id, n: int, orders: map<int, seq<Id>>, more: map<int, seq<Id>>)
    requires forall k :: k in orders ==> k <= n
    requires forall k :: k <= n ==> (k in more <==> k in orders) && (k in orders ==> more[k] == orders[k])
    ensures RefundRounds(db, id, n, more) == RefundRounds(db, id, n, orders)
  {
    SameOrders(db, id, n, n, orders, more);
  }

  lemma {:induction false} SameOrders(db: DB, id: Id, i: int, n: int, orders: map<int, seq<Id>>, more: map<int, seq<Id>>)
    requires i <= n
    requires forall k :: k <= n ==> (k in more <==> k in orders) && (k in orders ==> more[k] == orders[k])
    ensures RefundRounds(db, id, i, more) == RefundRounds(db, id, i, orders)
    decreases i
  {
    if i > 0 {
      SameOrders(db, id, i - 1, n, orders, more);
    }
  }

  class Service {
    var db: DB

    constructor (db: DB)
      ensures this.db == db
    {
      this.db := db;
    }

    /** The end of WithinTx. */
    method Commit(tx: DB, reply: Reply, fate: Fate) returns (r: Result<Reply>)
      modifies this
      ensures Ends(old(db), Success(Done(tx, reply)), fate, db, r)
    {
      match fate {
        case Commits =>
          db := tx;
          return Success(reply);
        case RollsBack =>
          return Failure(Infrastructure);
        case CommitsUnseen =>
          db := tx;
          return Failure(Infrastructure);
      }
    }

    method Credit(tx: DB, e: Entry) returns (r: Result<DB>)
      ensures r == CreditPlayer(tx, e)
    {
      var row := GetPlayer(tx, e.player);
      if row.Failure? { return Failure(row.error); }
      var p := new Player(e.player, row.value);
      var credited := p.Credit(e.amount);
      if credited.Failure? { return Failure(credited.error); }
      var updated := UpdateBalance(tx, p.id, p.balance);
      if updated.Failure? { return updated; }
      return InsertEntry(updated.value, e);
    }

    method Debit(tx: DB, e: Entry) returns (r: Result<DB>)
      ensures r == DebitPlayer(tx, e)
    {
      var row := GetPlayer(tx, e.player);
      if row.Failure? { return Failure(row.error); }
      var p := new Player(e.player, row.value);
      var debited := p.Debit(e.amount);
      if debited.Failure? { return Failure(debited.error); }
      var updated := UpdateBalance(tx, p.id, p.balance);
      if updated.Failure? { return updated; }
      return InsertEntry(updated.value, e);
    }

    method Deposit(player: Id, amount: Cents, fate: Fate) returns (r: Result<Reply>)
      modifies this
      ensures Ends(old(db), DepositTx(old(db), player, amount), fate, db, r)
    {
      if amount <= 0 { return Failure(InvalidAmount); }
      var tx := Credit(db, Entry(player, Kind.Deposit, amount, None));
      if tx.Failure? { return Failure(tx.error); }
      r := Commit(tx.value, Balance(tx.value.players[player]), fate);
    }

    method Withdraw(player: Id, amount: Cents, fate: Fate) returns (r: Result<Reply>)
      modifies this
      ensures Ends(old(db), WithdrawTx(old(db), player, amount), fate, db, r)
    {
      if amount <= 0 { return Failure(InvalidAmount); }
      if ActiveRooms(db, player) != {} { return Failure(WithdrawalBlocked); }
      var tx := Debit(db, Entry(player, Kind.Withdraw, amount, None));
      if tx.Failure? { return Failure(tx.error); }
      r := Commit(tx.value, Balance(tx.value.players[player]), fate);
    }

    method Create(id: Id, owner: Id, now: Time, fate: Fate) returns (r: Result<Reply>)
      modifies this
      ensures Ends(old(db), CreateTx(old(db), id, owner, now), fate, db, r)
    {
      var room := new Room.New(id, owner, now);
      if ActiveRooms(db, owner) != {} { return Failure(AlreadyInAnotherRoom); }
      var tx := CreateRoom(db, RoomVal(id, room.Row(), None));
      if tx.Failure? { return Failure(tx.error); }
      r := Commit(tx.value, RoomCreated, fate);
    }

    method Join(id: Id, player: Id, now: Time, fate: Fate) returns (r: Result<Reply>)
      modifies this
      ensures Ends(old(db), JoinTx(old(db), id, player, now), fate, db, r)
    {
      var loaded := LoadRoom(db, id);
      if loaded.Failure? { return Failure(loaded.error); }
      var room := new Room.Rehydrate(id, loaded.value.row);
      if !(ActiveRooms(db, player) <= {id}) { return Failure(AlreadyInAnotherRoom); }
      var seated := room.Join(player, now);
      if seated.Failure? {
        if seated.error == AlreadyJoined {
          r := Commit(db, Joined(true), fate);
          return;
        }
        return Failure(seated.error);
      }
      var tx := AddPlayer(db, id, player, now);
      if tx.Failure? {
        if tx.error == AlreadyJoined {
          r := Commit(db, Joined(true), fate);
          return;
        }
        return Failure(tx.error);
      }
      r := Commit(tx.value, Joined(false), fate);
    }

    /** attachLiveRound on a room just loaded. */
    method LoadAttached(tx: DB, id: Id) returns (r: Result<Room>)
      ensures match Attached(tx, id)
              case Success(val) => r.Success? && fresh(r.value) && r.value.Valid() && r.value.Model() == val && fresh(r.value.RoundRepr())
              case Failure(e) => r == Failure(e)
    {
      var loaded := LoadRoom(tx, id);
      if loaded.Failure? { return Failure(loaded.error); }
      var room := new Room.Rehydrate(id, loaded.value.row);
      var current := GetCurrent(tx, id);
      if current.Some? {
        var round := new Round(current.value);
        room.AttachRound(round);
      } else {
        room.AttachRound(null);
      }
      return Success(room);
    }

    method StartRound(id: Id, requester: Id, now: Time, window: int, fate: Fate) returns (r: Result<Reply>)
      modifies this
      ensures Ends(old(db), StartTx(old(db), id, requester, now, window), fate, db, r)
    {
      var attached := LoadAttached(db, id);
      if attached.Failure? { return Failure(attached.error); }
      var room := attached.value;
      if requester != room.owner { return Failure(NotOwner); }
      var started := room.StartRound(now, window);
      if started.Failure? { return Failure(started.error); }
      var round := started.value;
      var tx := CreateRound(db, round.key, round.Row());
      if tx.Failure? { return Failure(tx.error); }
      tx := SetCurrentRound(tx.value, id, room.currentRound);
      if tx.Failure? { return Failure(tx.error); }
      r := Commit(tx.value, Started(round.key, round.opensAt, round.closesAt), fate);
    }

    method PlaceBet(id: Id, player: Id, choice: Parity, amount: Cents, now: Time, fate: Fate) returns (r: Result<Reply>)
      modifies this
      ensures Ends(old(db), PlaceTx(old(db), id, player, choice, amount, now), fate, db, r)
    {
      if amount <= 0 { return Failure(InvalidAmount); }
      var attached := LoadAttached(db, id);
      if attached.Failure? { return Failure(attached.error); }
      var current := GetCurrent(db, id);
      if current.None? { return Failure(NoActiveRound); }
      r := PlaceInRound(attached.value, current.value, player, choice, amount, now, fate);
    }

    /** The domain check on the loaded aggregate, then the writes. */
    method PlaceInRound(room: Room, current: RoundVal, player: Id, choice: Parity, amount: Cents, now: Time, fate: Fate)
      returns (r: Result<Reply>)
      requires room.Valid() && room.RoundRepr() !! {this}
      modifies this, room, room.RoundRepr()
      ensures match RoomPlaceBet(old(room.Model()), player, current.key, BetRow(choice, amount, now, None), now)
              case Failure(e) => db == old(db) && r == Failure(e)
              case Success(_) => Ends(old(db), Accepted(old(db), BetKey(current.key, player), BetRow(choice, amount, now, None)), fate, db, r)
    {
      var bet := new Bet(current.key, player, BetRow(choice, amount, now, None));
      var accepted := room.PlaceBet(bet, now);
      if accepted.Failure? { return Failure(accepted.error); }
      r := Accept(BetKey(bet.round, bet.player), bet.Row(), fate);
    }

    /** The bet row first, so a duplicate is refused before any money moves. */
    method Accept(k: BetKey, bet: BetRow, fate: Fate) returns (r: Result<Reply>)
      modifies this
      ensures Ends(old(db), Accepted(old(db), k, bet), fate, db, r)
    {
      var tx := InsertBet(db, k, bet);
      if tx.Failure? { return Failure(tx.error); }
      tx := Debit(tx.value, Entry(k.player, Stake, bet.amount, Some(k.round)));
      if tx.Failure? { return Failure(tx.error); }
      r := Commit(tx.value, Placed(k.round), fate);
    }

    method PayWinners(start: DB, key: RoundKey, results: seq<Outcome>) returns (r: Result<DB>)
      ensures r == PayAll(start, key, results)
    {
      var tx := start;
      for i := 0 to |results|
        invariant PayAll(start, key, results[..i]) == Success(tx)
      {
        var o := results[i];
        assert results[..i + 1][..i] == results[..i];
        var settled := SettleBetRow(tx, BetKey(key, o.player), BetResult(o.won, o.payout));
        if settled.Failure? {
          PayStops(start, key, results, i + 1);
          return settled;
        }
        tx := settled.value;
        if !o.won || o.payout <= 0 { continue; }
        var paid := Credit(tx, Entry(o.player, Payback, o.payout, Some(key)));
        if paid.Failure? {
          PayStops(start, key, results, i + 1);
          return paid;
        }
        tx := paid.value;
      }
      assert results[..|results|] == results;
      return Success(tx);
    }

    /** Settlement also reports, as a ghost, the order in which it visited the bets. */
    method SettleRound(id: Id, roll: Result<(int, int)>, now: Time, fate: Fate) returns (r: Result<Reply>, ghost order: seq<Id>)
      modifies this
      ensures SettleTx(old(db), id, roll, now, order).Success? ==>
                GetCurrent(old(db), id).Some? && InTimeOrder(order, PlacedAt(GetCurrent(old(db), id).value.bets))
      ensures Ends(old(db), SettleTx(old(db), id, roll, now, order), fate, db, r)
    {
      order := [];
      var attached := LoadAttached(db, id);
      if attached.Failure? { return Failure(attached.error), order; }
      var current := GetCurrent(db, id);
      if current.None? { return Failure(NoActiveRound), order; }
      var room := attached.value;
      var settled;
      settled, order := room.SettleRound(roll, now);
      if settled.Failure? { return Failure(settled.error), order; }
      OrderReachesAll(order, current.value.bets);
      r := Record(id, room, room.round, settled.value, order, roll, now, fate);
    }

    /** The writes of a settlement, once the aggregate has settled in memory. */
    method Record(id: Id, room: Room, round: Round, results: seq<Outcome>, ghost order: seq<Id>,
                  ghost roll: Result<(int, int)>, ghost now: Time, fate: Fate) returns (r: Result<Reply>)
      requires Attached(db, id).Success? && GetCurrent(db, id).Some?
      requires room.Valid() && room.round == round
      requires RoomSettle(Attached(db, id).value, roll, now) == Success(room.Model())
      requires InTimeOrder(order, PlacedAt(GetCurrent(db, id).value.bets))
      requires forall p :: p in order ==> p in GetCurrent(db, id).value.bets
      requires results == Outcomes(GetCurrent(db, id).value.bets, OutcomeOf(roll.value.0, roll.value.1).value, order)
      modifies this
      ensures Ends(old(db), SettleTx(old(db), id, roll, now, order), fate, db, r)
    {
      var tx := SettleRoundRow(db, round.key, round.Row());
      if tx.Failure? { return Failure(tx.error); }
      tx := PayWinners(tx.value, round.key, results);
      if tx.Failure? { return Failure(tx.error); }
      if room.status == Closed {
        tx := UpdateStatus(tx.value, id, room.status, room.closedAt);
        if tx.Failure? { return Failure(tx.error); }
      }
      var balances := MemberBalances(tx.value, room.players.Keys);
      if balances.Failure? { return Failure(balances.error); }
      var reason := MaxRoundsPlayed;
      if round.key.number < MAX_ROUNDS { reason := OwnerClosed; }
      var reply := RoundSettled(round.key, round.die1, round.die2, round.outcome.value, results, balances.value, room.status == Closed, reason);
      r := Commit(tx.value, reply, fate);
    }

    method CloseRoom(id: Id, requester: Id, now: Time, fate: Fate) returns (r: Result<Reply>)
      modifies this
      ensures Ends(old(db), CloseTx(old(db), id, requester, now), fate, db, r)
    {
      var attached := LoadAttached(db, id);
      if attached.Failure? { return Failure(attached.error); }
      var room := attached.value;
      var closed := room.Close(requester, now);
      if closed.Failure? { return Failure(closed.error); }
      var tx := UpdateStatus(db, id, room.status, room.closedAt);
      if tx.Failure? { return Failure(tx.error); }
      if room.status == Closed {
        var balances := MemberBalances(tx.value, room.players.Keys);
        if balances.Failure? { return Failure(balances.error); }
        r := Commit(tx.value, RoomEnded(true, balances.value), fate);
        return;
      }
      r := Commit(tx.value, RoomEnded(false, map[]), fate);
    }

    /** The refunds of one round. */
    method RefundRound(start: DB, round: Round) returns (r: Result<DB>, ghost order: seq<Id>)
      requires round.Valid()
      ensures InTimeOrder(order, PlacedAt(round.BetRows()))
      ensures r == RefundBets(start, round.key, round.BetRows(), order)
    {
      var list;
      list, order := round.Bets();
      var tx := start;
      ghost var rows := round.BetRows();
      for i := 0 to |list|
        invariant round.Valid() && round.BetRows() == rows
        invariant RefundBets(start, round.key, rows, order[..i]) == Success(tx)
      {
        var bet := list[i];
        assert order[..i + 1][..i] == order[..i];
        assert bet.Row() == rows[order[i]];
        if bet.result.Some? { continue; }
        var refunded := Credit(tx, Entry(bet.player, Payback, bet.amount, Some(round.key)));
        if refunded.Failure? {
          RefundStops(start, round.key, rows, order, i + 1);
          return refunded, order;
        }
        tx := refunded.value;
      }
      assert order[..|list|] == order;
      return Success(tx), order;
    }

    /** The loop over the rounds of the room, as ListByRoom returned them. */
    method RefundRoom(id: Id) returns (r: Result<DB>, ghost orders: map<int, seq<Id>>)
      ensures r == RefundRounds(db, id, LastNumber(db, id), orders)
      ensures r.Success? ==> forall n :: 1 <= n <= LastNumber(db, id) && RoundKey(id, n) in db.rounds && db.rounds[RoundKey(id, n)].status == Betting ==>
                n in orders && InTimeOrder(orders[n], PlacedAt(BetsOf(db.bets, RoundKey(id, n))))
    {
      var last := LastNumber(db, id);
      var tx := db;
      var i := 0;
      orders := map[];
      while i < last
        invariant 0 <= i && (i <= last || i == 0)
        invariant forall k :: k in orders ==> 1 <= k <= i
        invariant RefundRounds(db, id, i, orders) == Success(tx)
        invariant forall n :: 1 <= n <= i && RoundKey(id, n) in db.rounds && db.rounds[RoundKey(id, n)].status == Betting ==>
                    n in orders && InTimeOrder(orders[n], PlacedAt(BetsOf(db.bets, RoundKey(id, n))))
      {
        i := i + 1;
        ghost var order;
        var refunded;
        refunded, order := RefundNumber(tx, RoundKey(id, i));
        ghost var more := orders[i := order];
        EarlierRoundsOnly(db, id, i - 1, orders, more);
        orders := more;
        if refunded.Failure? {
          RefundRoundsStop(db, id, i, last, orders);
          return refunded, orders;
        }
        tx := refunded.value;
      }
      return Success(tx), orders;
    }

    /** One round of the room: nothing to do unless it is betting. */
    method RefundNumber(start: DB, key: RoundKey) returns (r: Result<DB>, ghost order: seq<Id>)
      ensures if key in db.rounds && db.rounds[key].status == Betting
              then InTimeOrder(order, PlacedAt(BetsOf(db.bets, key))) && r == RefundBets(start, key, BetsOf(db.bets, key), order)
              else r == Success(start)
    {
      if key !in db.rounds || db.rounds[key].status != Betting { return Success(start), []; }
      var round := new Round(Hydrate(db, key));
      r, order := RefundRound(start, round);
    }

    method AbortRoom(id: Id, now: Time, fate: Fate) returns (r: Result<Reply>, ghost orders: map<int, seq<Id>>)
      modifies this
      ensures AbortTx(old(db), id, now, orders).Success? ==>
                forall n :: 1 <= n <= LastNumber(old(db), id) && RoundKey(id, n) in old(db).rounds && old(db).rounds[RoundKey(id, n)].status == Betting ==>
                  n in orders && InTimeOrder(orders[n], PlacedAt(BetsOf(old(db).bets, RoundKey(id, n))))
      ensures Ends(old(db), AbortTx(old(db), id, now, orders), fate, db, r)
    {
      orders := map[];
      var loaded := LoadRoom(db, id);
      if loaded.Failure? { return Failure(loaded.error), orders; }
      var room := new Room.Rehydrate(id, loaded.value.row);
      if room.status == Closed { return Failure(RoomClosed), orders; }
      var tx;
      tx, orders := RefundRoom(id);
      if tx.Failure? { return Failure(tx.error), orders; }
      room.ForceClose(now);
      tx := UpdateStatus(tx.value, id, room.status, room.closedAt);
      if tx.Failure? { return Failure(tx.error), orders; }
      var balances := MemberBalances(tx.value, room.players.Keys);
      if balances.Failure? { return Failure(balances.error), orders; }
      r := Commit(tx.value, RoomEnded(true, balances.value), fate);
    }
  }
}
