/** The domain aggregates as the mutable objects they are (internal/domain/game/bet.go, round.go,
    room.go). Every method is proved against a function of module Game. */
module Aggregates {
  import opened Types
  import opened Money
  import opened Dice
  import opened Game
  import opened Results

  /** The first n elements are in order, except that the one at hole may belong further left. */
  ghost predicate SortedUpTo<T>(s: seq<T>, at: map<T, Time>, n: nat, hole: nat)
    requires n <= |s| && forall x :: x in s ==> x in at
  {
    forall i, j :: 0 <= i < j < n && j != hole ==> at[s[i]] <= at[s[j]]
  }

  /** One inner step: exchanging the element at the hole with its left neighbour. */
  lemma ShiftLeft<T>(s: seq<T>, t: seq<T>, at: map<T, Time>, n: nat, j: nat)
    requires 0 < j < n <= |s| && (forall x :: x in s ==> x in at)
    requires SortedUpTo(s, at, n, j) && at[s[j]] < at[s[j - 1]]
    requires t == s[j - 1 := s[j]][j := s[j - 1]]
    ensures multiset(t) == multiset(s)
    ensures (forall x :: x in t ==> x in at) && SortedUpTo(t, at, n, j - 1)
  {
  }

  /** The insertion sort written out twice in the source, in Players and in Bets. */
  method SortByTime<T>(a: array<T>, at: map<T, Time>)
    requires forall x :: x in a[..] ==> x in at
    modifies a
    ensures multiset(a[..]) == old(multiset(a[..]))
    ensures forall x :: x in a[..] ==> x in at
    ensures SortedBy(a[..], at)
  {
    if a.Length == 0 { return; }
    for i := 1 to a.Length
      invariant multiset(a[..]) == old(multiset(a[..]))
      invariant forall x :: x in a[..] ==> x in at
      invariant SortedUpTo(a[..], at, i, 0)
    {
      InsertLeft(a, at, i);
    }
  }

  /** The inner loop: moves the element at i left past every later one. */
  method InsertLeft<T>(a: array<T>, at: map<T, Time>, i: nat)
    requires i < a.Length && forall x :: x in a[..] ==> x in at
    requires SortedUpTo(a[..], at, i, 0)
    modifies a
    ensures multiset(a[..]) == old(multiset(a[..]))
    ensures forall x :: x in a[..] ==> x in at
    ensures SortedUpTo(a[..], at, i + 1, 0)
  {
    var j := i;
    while j > 0 && at[a[j]] < at[a[j - 1]]
      invariant 0 <= j <= i
      invariant multiset(a[..]) == old(multiset(a[..]))
      invariant forall x :: x in a[..] ==> x in at
      invariant SortedUpTo(a[..], at, i + 1, j)
    {
      ExchangeLeft(a, at, i + 1, j);
      j := j - 1;
    }
  }

  /** One exchange of the inner loop. */
  method ExchangeLeft<T>(a: array<T>, at: map<T, Time>, n: nat, j: nat)
    requires 0 < j < n <= a.Length && forall x :: x in a[..] ==> x in at
    requires SortedUpTo(a[..], at, n, j) && at[a[j]] < at[a[j - 1]]
    modifies a
    ensures a[..] == old(a[..])[j - 1 := old(a[j])][j := old(a[j - 1])]
    ensures multiset(a[..]) == old(multiset(a[..]))
    ensures (forall x :: x in a[..] ==> x in at) && SortedUpTo(a[..], at, n, j - 1)
  {
    ghost var before := a[..];
    a[j], a[j - 1] := a[j - 1], a[j];
    ShiftLeft(before, a[..], at, n, j);
  }

  /** A listing of a finite set in an arbitrary order: Go's iteration over a map. */
  method ListOf<T(==)>(keys: set<T>) returns (a: array<T>)
    ensures fresh(a)
    ensures multiset(a[..]) == multiset(keys)
  {
    var rest, listed := keys, [];
    while rest != {}
      invariant rest <= keys
      invariant multiset(listed) == multiset(keys - rest)
      decreases rest
    {
      var x :| x in rest;
      assert keys - (rest - {x}) == (keys - rest) + {x};
      rest := rest - {x};
      listed := listed + [x];
    }
    assert keys - rest == keys;
    a := new T[|listed|](i requires 0 <= i < |listed| => listed[i]);
    assert a[..] == listed;
  }

  lemma TwiceCountsTwice(order: seq<Id>, i: nat, j: nat)
    requires i < j < |order| && order[i] == order[j]
    ensures multiset(order)[order[j]] >= 2
  {
    assert order == order[..j] + [order[j]] + order[j + 1..];
    assert order[..j][i] == order[j];
  }

  lemma MultisetLists(order: seq<Id>, keys: set<Id>)
    requires multiset(order) == multiset(keys)
    ensures Lists(order, keys)
  {
    forall p
      ensures p in order <==> p in keys
    {
      assert p in order <==> p in multiset(order);
      assert p in keys <==> p in multiset(keys);
    }
    forall i, j | 0 <= i < j < |order|
      ensures order[i] != order[j]
    {
      if order[i] == order[j] {
        TwiceCountsTwice(order, i, j);
        assert false;
      }
    }
  }

  /** The keys of a map in time order: copy them out in iteration order, then insertion-sort. */
  method ListByTime(at: map<Id, Time>) returns (ids: seq<Id>)
    ensures InTimeOrder(ids, at) && |ids| == |at|
  {
    var listed := ListOf(at.Keys);
    MultisetLists(listed[..], at.Keys);
    SortByTime(listed, at);
    ids := listed[..];
    MultisetLists(ids, at.Keys);
    assert |multiset(ids)| == |multiset(at.Keys)|;
  }

  class Bet {
    const round: RoundKey
    const player: Id
    const choice: Parity
    const amount: Cents
    const placedAt: Time
    var result: Option<BetResult>

    constructor (round: RoundKey, player: Id, row: BetRow)
      ensures this.round == round && this.player == player && Row() == row
    {
      this.round, this.player := round, player;
      this.choice, this.amount, this.placedAt, this.result := row.choice, row.amount, row.placedAt, row.result;
    }

    function Row(): BetRow
      reads this
    {
      BetRow(choice, amount, placedAt, result)
    }

    /** Resolves the bet once; a settled bet is refused and keeps its result. */
    method Settle(outcome: Parity) returns (r: Result<BetResult>)
      modifies this
      ensures old(result).Some? ==> r == Failure(RoundAlreadySettled) && Row() == old(Row())
      ensures old(result).None? ==> r == Success(ResultOf(old(Row()), outcome)) && Row() == SettledBet(old(Row()), outcome)
      ensures old(result).None? ==>
                && r.Success? && result == Some(r.value) && (r.value.won <==> choice == outcome)
                && r.value.payout == if choice == outcome then Payout(amount) else 0
    {
      if result.Some? { return Failure(RoundAlreadySettled); }
      var won := choice == outcome;
      var payout: Cents := 0;
      if won { payout := Payout(amount); }
      result := Some(BetResult(won, payout));
      return Success(BetResult(won, payout));
    }
  }

  lemma OrderReachesAll(order: seq<Id>, bets: map<Id, BetRow>)
    requires Lists(order, PlacedAt(bets).Keys)
    ensures forall p :: p in bets ==> p in order
    ensures forall i :: 0 <= i < |order| ==> order[i] in bets
    ensures AllUnsettled(bets) <==> forall i :: 0 <= i < |order| ==> bets[order[i]].result.None?
  {
    forall p | p in bets
      ensures p in order
    {
      assert p in PlacedAt(bets).Keys;
    }
    forall i | 0 <= i < |order|
      ensures order[i] in bets
    {
      assert order[i] in PlacedAt(bets).Keys;
    }
  }

  /** Visiting every bet of the order resolves the whole map. */
  lemma AllResolved(order: seq<Id>, before: map<Id, BetRow>, after: map<Id, BetRow>, results: seq<Outcome>, side: Parity)
    requires Lists(order, PlacedAt(before).Keys)
    requires (forall i :: 0 <= i < |order| ==> order[i] in before) && after.Keys == before.Keys
    requires |results| == |order|
    requires forall i :: 0 <= i < |order| ==>
               && results[i] == OutcomeView(order[i], before[order[i]], side)
               && after[order[i]] == SettledBet(before[order[i]], side)
    ensures after == SettledBets(before, side)
    ensures results == Outcomes(before, side, order)
  {
    forall p | p in before
      ensures after[p] == SettledBet(before[p], side)
    {
      assert p in PlacedAt(before).Keys;
      var k :| 0 <= k < |order| && order[k] == p;
    }
  }

  /** The loop of settleWith: one result per bet, in order. It stops at the first bet that is already
      settled: the bets before it are resolved by then, that one and the later ones untouched. */
  method SettleAll(list: seq<Bet>, side: Parity) returns (r: Result<seq<Outcome>>)
    requires forall i, j :: 0 <= i < j < |list| ==> list[i] != list[j]
    modifies list
    ensures (forall i :: 0 <= i < |list| ==> old(list[i].result).None?) ==>
              && r.Success? && |r.value| == |list|
              && (forall i :: 0 <= i < |list| ==>
                   && r.value[i] == OutcomeView(list[i].player, old(list[i].Row()), side)
                   && (r.value[i].won <==> list[i].choice == side)
                   && list[i].Row() == SettledBet(old(list[i].Row()), side))
    ensures (exists i :: 0 <= i < |list| && old(list[i].result).Some?) ==> r == Failure(RoundAlreadySettled)
    ensures r.Failure? ==>
              exists n :: && 0 <= n < |list| && old(list[n].result).Some?
                          && (forall i :: 0 <= i < n ==> old(list[i].result).None? && list[i].Row() == SettledBet(old(list[i].Row()), side))
                          && (forall i :: n <= i < |list| ==> list[i].Row() == old(list[i].Row()))
  {
    var results := [];
    for i := 0 to |list|
      invariant |results| == i
      invariant forall k :: 0 <= k < i ==>
                  && old(list[k].result).None?
                  && results[k] == OutcomeView(list[k].player, old(list[k].Row()), side)
                  && list[k].Row() == SettledBet(old(list[k].Row()), side)
      invariant forall k :: i <= k < |list| ==> list[k].Row() == old(list[k].Row())
    {
      var b := list[i];
      var settled := b.Settle(side);
      if settled.Failure? {
        return Failure(settled.error);
      }
      results := results + [Outcome(b.player, b.choice, b.amount, settled.value.won, settled.value.payout)];
    }
    return Success(results);
  }

  class Round {
    const key: RoundKey
    const opensAt: Time
    const closesAt: Time
    var status: RoundStatus
    var die1: int
    var die2: int
    var outcome: Option<Parity>
    var settledAt: Option<Time>
    var bets: map<Id, Bet>

    ghost predicate Valid()
      reads this, bets.Values
    {
      forall p :: p in bets ==> bets[p].player == p && bets[p].round == key
    }

    function Row(): RoundRow
      reads this
    {
      RoundRow(opensAt, closesAt, status, die1, die2, outcome, settledAt)
    }

    ghost function BetRows(): map<Id, BetRow>
      reads this, bets.Values
    {
      map p | p in bets :: bets[p].Row()
    }

    ghost function Model(): RoundVal
      reads this, bets.Values
    {
      RoundVal(key, Row(), BetRows())
    }

    /** RehydrateRound: the round as its row and its bets rows describe it. */
    constructor (val: RoundVal)
      ensures Valid() && Model() == val && fresh(bets.Values)
    {
      key, opensAt, closesAt := val.key, val.row.opensAt, val.row.closesAt;
      status, die1, die2 := val.row.status, val.row.die1, val.row.die2;
      outcome, settledAt := val.row.outcome, val.row.settledAt;
      bets := map[];
      new;
      var rest := val.bets.Keys;
      while rest != {}
        invariant Valid() && fresh(bets.Values)
        invariant rest <= val.bets.Keys && bets.Keys == val.bets.Keys - rest
        invariant forall p :: p in bets ==> bets[p].Row() == val.bets[p]
        invariant key == val.key && Row() == val.row
        decreases rest
      {
        var p :| p in rest;
        var bet := new Bet(key, p, val.bets[p]);
        assert bets[p := bet].Values <= bets.Values + {bet};
        bets := bets[p := bet];
        rest := rest - {p};
      }
      assert bets.Keys == val.bets.Keys;
    }

    /** Records the bet in an open window, once per player; refusals leave the round as it was. */
    method PlaceBet(bet: Bet, now: Time) returns (r: Result<()>)
      requires Valid() && bet !in bets.Values
      modifies this
      ensures Valid()
      ensures bets.Values <= old(bets.Values) + {bet}
      ensures match RoundPlaceBet(old(Model()), bet.player, bet.round, bet.Row(), now)
              case Success(after) => r == Success(()) && Model() == after
              case Failure(e) => r == Failure(e) && Model() == old(Model())
      ensures r.Failure? ==>
                r.error == if bet.round != key then InvalidId
                           else if status == Settled then RoundAlreadySettled
                           else if now < opensAt then BettingNotOpen
                           else if now >= closesAt then BettingClosed
                           else DuplicateBet
    {
      if bet.round != key { return Failure(InvalidId); }
      if status == Settled { return Failure(RoundAlreadySettled); }
      if now < opensAt { return Failure(BettingNotOpen); }
      if !(now < closesAt) { return Failure(BettingClosed); }
      if bet.player in bets { return Failure(DuplicateBet); }
      ghost var before := Model();
      bets := bets[bet.player := bet];
      assert Model().bets == before.bets[bet.player := bet.Row()];
      return Success(());
    }

    /** The bets by placement time: each exactly once, ties in the order of the map iteration. */
    method Bets() returns (out: seq<Bet>, ghost order: seq<Id>)
      requires Valid()
      ensures |out| == |order|
      ensures forall i :: 0 <= i < |out| ==> order[i] in bets && out[i] == bets[order[i]] && out[i].player == order[i]
      ensures forall i, j :: 0 <= i < j < |out| ==> out[i] != out[j]
      ensures InTimeOrder(order, PlacedAt(BetRows()))
      ensures forall i, j :: 0 <= i < j < |out| ==> out[i].placedAt <= out[j].placedAt
    {
      var at := map p | p in bets :: bets[p].placedAt;
      var ids := ListByTime(at);
      order := ids;
      assert forall i :: 0 <= i < |ids| ==> ids[i] in at.Keys;
      out := seq(|ids|, i requires 0 <= i < |ids| && ids[i] in bets reads this => bets[ids[i]]);
      assert PlacedAt(BetRows()) == at;
    }

    /** Settlement. When every bet is still open it resolves all of them; a settled round, a failed
        roll or an impossible die changes nothing at all. */
    method Settle(roll: Result<(int, int)>, now: Time) returns (r: Result<seq<Outcome>>, ghost order: seq<Id>)
      requires Valid()
      modifies this, bets.Values
      ensures bets == old(bets) && Valid()
      ensures match RoundSettle(old(Model()), roll, now)
              case Success(after) =>
                && Model() == after
                && InTimeOrder(order, PlacedAt(old(BetRows())))
                && r == Success(Outcomes(old(BetRows()), OutcomeOf(roll.value.0, roll.value.1).value, order))
                && RightResults(r.value, old(BetRows()), roll.value.0, roll.value.1)
              case Failure(e) =>
                && r == Failure(e)
                && Row() == old(Row())
                && (old(status) == Settled || roll.Failure? || OutcomeOf(roll.value.0, roll.value.1).Failure?
                    ==> Model() == old(Model()))
                && (e == if old(status) == Settled then RoundAlreadySettled
                         else if roll.Failure? then roll.error
                         else if !RealDice(roll.value.0, roll.value.1) then InvalidDie
                         else RoundAlreadySettled)
    {
      order := [];
      if status == Settled { return Failure(RoundAlreadySettled), order; }
      if roll.Failure? { return Failure(roll.error), order; }
      var side := OutcomeOf(roll.value.0, roll.value.1);
      if side.Failure? { return Failure(InvalidDie), order; }
      r, order := SettleWith(roll.value.0, roll.value.1, side.value, now);
      if r.Success? { OutcomesAreRight(old(BetRows()), roll.value.0, roll.value.1, side.value, order); }
    }

    /** The bets part of settleWith. */
    method ResolveBets(list: seq<Bet>, ghost order: seq<Id>, side: Parity) returns (r: Result<seq<Outcome>>)
      requires Valid() && Lists(order, PlacedAt(BetRows()).Keys)
      requires |list| == |order| && forall i :: 0 <= i < |list| ==> order[i] in bets && list[i] == bets[order[i]]
      requires forall i, j :: 0 <= i < j < |list| ==> list[i] != list[j]
      modifies bets.Values
      ensures Valid()
      ensures AllUnsettled(old(BetRows())) ==>
                && BetRows() == SettledBets(old(BetRows()), side)
                && r == Success(Outcomes(old(BetRows()), side, order))
      ensures !AllUnsettled(old(BetRows())) ==> r == Failure(RoundAlreadySettled)
    {
      ghost var rows := BetRows();
      OrderReachesAll(order, rows);
      r := SettleAll(list, side);
      if AllUnsettled(rows) {
        AllResolved(order, rows, BetRows(), r.value, side);
      }
    }

    method SettleWith(d1: int, d2: int, side: Parity, now: Time) returns (r: Result<seq<Outcome>>, ghost order: seq<Id>)
      requires Valid()
      modifies this, bets.Values
      ensures bets == old(bets) && Valid()
      ensures AllUnsettled(old(BetRows())) ==>
                && Row() == SettledRow(old(Row()), d1, d2, side, now)
                && BetRows() == SettledBets(old(BetRows()), side)
                && InTimeOrder(order, PlacedAt(old(BetRows())))
                && r == Success(Outcomes(old(BetRows()), side, order))
      ensures !AllUnsettled(old(BetRows())) ==> r == Failure(RoundAlreadySettled) && Row() == old(Row())
    {
      ghost var rows := BetRows();
      var list;
      list, order := Bets();
      r := ResolveBets(list, order, side);
      if r.Success? {
        MarkSettled(d1, d2, side, now);
      }
    }

    method MarkSettled(d1: int, d2: int, side: Parity, now: Time)
      requires Valid()
      modifies this
      ensures Valid() && bets == old(bets) && BetRows() == old(BetRows())
      ensures Row() == SettledRow(old(Row()), d1, d2, side, now)
    {
      die1, die2, outcome, status, settledAt := d1, d2, Some(side), Settled, Some(now);
      assert forall p :: p in bets ==> bets[p].Row() == old(bets[p].Row());
    }
  }

  class Room {
    const id: Id
    const owner: Id
    const createdAt: Time
    var status: RoomStatus
    var currentRound: int
    var closedAt: Option<Time>
    var players: map<Id, Time>
    var round: Round?  // the live round, null when none is in progress

    ghost function RoundRepr(): set<object>
      reads this, round
    {
      if round == null then {} else {round} + round.bets.Values
    }

    ghost predicate Valid()
      reads this, round, RoundRepr()
    {
      round != null ==> round.Valid()
    }

    function Row(): RoomRow
      reads this
    {
      RoomRow(owner, status, currentRound, createdAt, closedAt, players)
    }

    ghost function Model(): RoomVal
      reads this, round, RoundRepr()
    {
      RoomVal(id, Row(), if round == null then None else Some(round.Model()))
    }

    constructor New(id: Id, owner: Id, createdAt: Time)
      ensures Valid() && Model() == NewRoom(id, owner, createdAt)
    {
      this.id, this.owner, this.createdAt := id, owner, createdAt;
      status, currentRound, closedAt, round := Open, 0, None, null;
      players := map[owner := createdAt];
    }

    /** RehydrateRoom: repositories rebuild a room from its row, without a round. */
    constructor Rehydrate(id: Id, row: RoomRow)
      ensures Valid() && Model() == RoomVal(id, row, None)
    {
      this.id, owner, createdAt := id, row.owner, row.createdAt;
      status, currentRound, closedAt, round := row.status, row.currentRound, row.closedAt, null;
      players := row.seats;
    }

    method AttachRound(round: Round?)
      requires round != null ==> round.Valid()
      modifies this
      ensures Valid()
      ensures this.round == if round != null && round.status == Settled then null else round
      ensures Model() == RoomAttach(old(Model()).(round := None), if round == null then None else Some(round.Model()))
    {
      if round == null || round.status == Settled {
        this.round := null;
        return;
      }
      this.round := round;
    }

    /** The seated players in join order. */
    method Players() returns (out: seq<Id>)
      ensures InTimeOrder(out, players)
    {
      out := ListByTime(players);
    }

    method Join(player: Id, now: Time) returns (r: Result<()>)
      requires Valid()
      modifies this
      ensures Valid() && round == old(round)
      ensures match RoomJoin(old(Model()), player, now)
              case Success(after) => r == Success(()) && Model() == after
              case Failure(e) => r == Failure(e) && Model() == old(Model())
      ensures r.Failure? ==>
                r.error == match status
                           case Closed => RoomClosed
                           case Closing => RoomNotOpen
                           case Open => if player in players then AlreadyJoined else RoomFull
    {
      if status == Closed { return Failure(RoomClosed); }
      if status == Closing { return Failure(RoomNotOpen); }
      if player in players { return Failure(AlreadyJoined); }
      if |players| >= MAX_PLAYERS { return Failure(RoomFull); }
      players := players[player := now];
      return Success(());
    }

    method StartRound(now: Time, window: int) returns (r: Result<Round>)
      requires Valid()
      modifies this
      ensures Valid()
      ensures match RoomStartRound(old(Model()), now, window)
              case Success(after) => r.Success? && round == r.value && fresh(round) && Model() == after
              case Failure(e) => r == Failure(e) && round == old(round) && Model() == old(Model())
      ensures r.Failure? ==>
                r.error == match status
                           case Closed => RoomClosed
                           case Closing => RoomNotOpen
                           case Open =>
                             if round != null && round.status != Settled then RoundInProgress
                             else if |players| == 0 then NoPlayers
                             else if currentRound >= 10 then MaxRoundsReached
                             else if currentRound < 0 then InvalidRoundNumber
                             else InvalidBettingWindow
    {
      if status != Open {
        if status == Closed { return Failure(RoomClosed); }
        return Failure(RoomNotOpen);
      }
      if round != null && round.status != Settled { return Failure(RoundInProgress); }
      if |players| == 0 { return Failure(NoPlayers); }
      if currentRound >= MAX_ROUNDS { return Failure(MaxRoundsReached); }
      var next := NewRound(RoundKey(id, currentRound + 1), now, window);
      if next.Failure? { return Failure(next.error); }
      var live := new Round(next.value);
      currentRound := live.key.number;
      round := live;
      return Success(live);
    }

    method PlaceBet(bet: Bet, now: Time) returns (r: Result<()>)
      requires Valid() && bet !in RoundRepr()
      modifies this, round
      ensures Valid() && round == old(round)
      ensures match RoomPlaceBet(old(Model()), bet.player, bet.round, bet.Row(), now)
              case Success(after) => r == Success(()) && Model() == after
              case Failure(e) => r == Failure(e) && Model() == old(Model())
    {
      if status == Closed { return Failure(RoomClosed); }
      if bet.player !in players { return Failure(NotAMember); }
      if round == null { return Failure(NoActiveRound); }
      r := round.PlaceBet(bet, now);
    }

    /** Settles the live round and, when a close was pending or the cap is reached, closes the room. */
    method SettleRound(roll: Result<(int, int)>, now: Time) returns (r: Result<seq<Outcome>>, ghost order: seq<Id>)
      requires Valid()
      modifies this, RoundRepr()
      ensures Valid() && round == old(round)
      ensures match RoomSettle(old(Model()), roll, now)
              case Success(after) =>
                && Model() == after
                && InTimeOrder(order, PlacedAt(old(Model()).round.value.bets))
                && r == Success(Outcomes(old(Model()).round.value.bets, OutcomeOf(roll.value.0, roll.value.1).value, order))
                && RightResults(r.value, old(Model()).round.value.bets, roll.value.0, roll.value.1)
              case Failure(e) => r == Failure(e) && Row() == old(Row())
    {
      order := [];
      if round == null { return Failure(NoActiveRound), order; }
      if status == Closed { return Failure(RoomClosed), order; }
      r, order := round.Settle(roll, now);
      if r.Success? {
        FinishRound(now);
      }
    }

    method FinishRound(now: Time)
      requires Valid()
      modifies this
      ensures Valid() && round == old(round)
      ensures Model() == old(Model()).(row := FinishedRow(old(Row()), now))
    {
      if status == Closing || currentRound >= MAX_ROUNDS {
        MarkClosed(now);
      }
    }

    method Close(requester: Id, now: Time) returns (r: Result<()>)
      requires Valid()
      modifies this
      ensures Valid() && round == old(round)
      ensures match RoomClose(old(Model()), requester, now)
              case Success(after) => r == Success(()) && Model() == after
              case Failure(e) => r == Failure(e) && Model() == old(Model())
    {
      if requester != owner { return Failure(NotOwner); }
      match status {
        case Closed => return Failure(RoomClosed);
        case Closing => return Success(());
        case Open =>
      }
      if round != null && round.status != Settled {
        status := Closing;
        return Success(());
      }
      MarkClosed(now);
      return Success(());
    }

    method ForceClose(now: Time)
      requires Valid()
      modifies this
      ensures Valid() && round == old(round)
      ensures Model() == RoomForceClose(old(Model()), now)
    {
      if status != Closed {
        MarkClosed(now);
      }
    }

    method MarkClosed(now: Time)
      requires Valid()
      modifies this
      ensures Valid() && round == old(round)
      ensures Model() == old(Model()).(row := ClosedRow(old(Row()), now))
    {
      status := Closed;
      closedAt := Some(now);
    }
  }
}
