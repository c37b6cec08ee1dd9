/** What time does to a room: nothing settled or closed ever changes, and every other change uses up
    a bounded supply. */
module Lifetime {
  import opened Types
  import opened Money
  import opened Dice
  import opened Game
  import opened Wallet
  import opened Store
  import opened Transactions
  import opened StoreInvariant
  import opened Preservation
  import opened Steps
  import opened Runs

  /** The room's row, its rounds and their bets are the same in both stores. */
  ghost predicate SameRoom(before: DB, after: DB, r: Id) {
    && r in before.rooms && r in after.rooms && after.rooms[r] == before.rooms[r]
    && (forall k: RoundKey :: k.room == r ==> SameRound(before, after, k))
    && (forall k: BetKey :: k.round.room == r ==> SameBet(before, after, k))
  }

  ghost predicate SameRound(before: DB, after: DB, k: RoundKey) {
    (k in before.rounds <==> k in after.rounds) && (k in before.rounds ==> after.rounds[k] == before.rounds[k])
  }

  ghost predicate SameBet(before: DB, after: DB, k: BetKey) {
    (k in before.bets <==> k in after.bets) && (k in before.bets ==> after.bets[k] == before.bets[k])
  }

  // ---- the rank of a room ------------------------------------------------------------------

  function StatusRank(status: RoomStatus): nat {
    match status case Open => 2 case Closing => 1 case Closed => 0
  }

  /** Two for every round not started, one for a round not decided. */
  function RoundsLeft(db: DB, r: Id): int
    requires r in db.rooms
  {
    2 * (MAX_ROUNDS - db.rooms[r].currentRound) + if Undecided(db, r) then 1 else 0
  }

  function FreeSeats(db: DB, r: Id): int
    requires r in db.rooms
  {
    MAX_PLAYERS - |db.rooms[r].seats|
  }

  function BetsLeft(db: DB, r: Id): set<Id>
    requires r in db.rooms
  {
    set p | p in db.rooms[r].seats && BetKey(CurrentKey(db, r), p) !in db.bets
  }

  /** The lexicographic order of (status, rounds left, free seats, members who can still bet). */
  function Rank(db: DB, r: Id): int
    requires r in db.rooms
  {
    ((StatusRank(db.rooms[r].status) * 22 + RoundsLeft(db, r)) * 7 + FreeSeats(db, r)) * 7 + |BetsLeft(db, r)|
  }

  lemma SubsetsAreSmaller<T>(s: set<T>, t: set<T>)
    requires s <= t
    ensures |s| <= |t|
    ensures s != t ==> |s| < |t|
  {
    assert t == s + (t - s);
    assert s !! t - s;
    if s != t {
      assert t - s != {};
    }
  }

  lemma RankIsBounded(db: DB, r: Id)
    requires TablesOk(db) && r in db.rooms
    ensures 0 <= RoundsLeft(db, r) <= 21 && 0 <= FreeSeats(db, r) <= 6 && |BetsLeft(db, r)| <= 6
    ensures 0 <= Rank(db, r) <= 3233
  {
    assert RoomOk(db.rooms[r]);
    if Undecided(db, r) { CurrentRoundIsLast(db, r); }
    SubsetsAreSmaller(BetsLeft(db, r), db.rooms[r].seats.Keys);
    assert |db.rooms[r].seats.Keys| == |db.rooms[r].seats|;
  }

  lemma SameRoomSameRank(before: DB, after: DB, r: Id)
    requires SameRoom(before, after, r)
    ensures Rank(after, r) == Rank(before, r)
  {
    assert SameRound(before, after, CurrentKey(before, r));
    forall p
      ensures p in BetsLeft(before, r) <==> p in BetsLeft(after, r)
    {
      assert SameBet(before, after, BetKey(CurrentKey(before, r), p));
    }
    assert BetsLeft(before, r) == BetsLeft(after, r);
  }

  lemma Lexicographic(a: int, b: int, c: int, d: int, a': int, b': int, c': int, d': int)
    requires 0 <= b' <= 21 && 0 <= c' <= 6 && 0 <= d' <= 6 && 0 <= b && 0 <= c && 0 <= d
    requires a' < a || (a' == a && (b' < b || (b' == b && (c' < c || (c' == c && d' < d)))))
    ensures ((a' * 22 + b') * 7 + c') * 7 + d' < ((a * 22 + b) * 7 + c) * 7 + d
  {
  }

  ghost predicate Falls(before: DB, after: DB, r: Id)
    requires r in before.rooms && r in after.rooms
  {
    var a, b, c := StatusRank(before.rooms[r].status), RoundsLeft(before, r), FreeSeats(before, r);
    var a', b', c' := StatusRank(after.rooms[r].status), RoundsLeft(after, r), FreeSeats(after, r);
    a' < a || (a' == a && (b' < b || (b' == b && (c' < c || (c' == c && |BetsLeft(after, r)| < |BetsLeft(before, r)|)))))
  }

  lemma FallingLowersRank(before: DB, after: DB, r: Id)
    requires TablesOk(before) && TablesOk(after) && r in before.rooms && r in after.rooms && Falls(before, after, r)
    ensures Rank(after, r) < Rank(before, r)
  {
    RankIsBounded(before, r);
    RankIsBounded(after, r);
    Lexicographic(StatusRank(before.rooms[r].status), RoundsLeft(before, r), FreeSeats(before, r), |BetsLeft(before, r)|,
                  StatusRank(after.rooms[r].status), RoundsLeft(after, r), FreeSeats(after, r), |BetsLeft(after, r)|);
  }

  // ---- one step ----------------------------------------------------------------------------

  /** Nothing settled is touched, and no accepted bet is lost or altered except for its result. */
  ghost predicate HistoryKept(before: DB, after: DB, r: Id) {
    && (forall k: RoundKey :: k.room == r && k in before.rounds && before.rounds[k].status == Settled ==> SameRound(before, after, k))
    && (forall k: BetKey :: k.round.room == r && k in before.bets ==>
          && k in after.bets && after.bets[k].(result := None) == before.bets[k].(result := None)
          && (k.round in before.rounds && before.rounds[k.round].status == Settled ==> SameBet(before, after, k)))
  }

  /** The room is as it was, or it was not closed and is one step nearer its end. */
  ghost predicate Ages(before: DB, after: DB, r: Id)
    requires r in before.rooms
  {
    SameRoom(before, after, r) || (Active(before, r) && r in after.rooms && Falls(before, after, r) && HistoryKept(before, after, r))
  }

  lemma SameTablesAge(before: DB, after: DB, r: Id)
    requires r in before.rooms && r in after.rooms && after.rooms[r] == before.rooms[r]
    requires after.rounds == before.rounds && after.bets == before.bets
    ensures Ages(before, after, r)
  {
  }

  /** A use case touches at most the room it names, and lowers that room's rank when it does. */
  lemma UseCaseAges(db: DB, req: Request, env: Env, r: Id)
    requires Inv(db) && Feasible(db, req, env) && Perform(db, req, env).Success? && r in db.rooms
    ensures Ages(db, Perform(db, req, env).value.db, r)
  {
    match req
    case Register(_) => FlatAges(db, req, env, r);
    case DepositFunds(_, _) => FlatAges(db, req, env, r);
    case WithdrawFunds(_, _) => FlatAges(db, req, env, r);
    case CreateRoomFor(_, _) => FlatAges(db, req, env, r);
    case JoinRoom(id, p) => JoinAges(db, id, p, env.now, r);
    case StartRound(id, p) => StartAges(db, id, p, env.now, env.window, r);
    case PlaceBet(id, p, choice, amount) => PlaceAges(db, id, p, choice, amount, env.now, r);
    case SettleRound(id) => SettleAges(db, id, env.roll, env.now, env.order, r);
    case CloseRoom(id, p) => CloseAges(db, id, p, env.now, r);
    case AbortRoom(id) => AbortAges(db, id, env.now, env.orders, r);
  }

  /** These leave every existing room alone. */
  lemma FlatAges(db: DB, req: Request, env: Env, r: Id)
    requires BalancesOk(db) && Perform(db, req, env).Success? && r in db.rooms
    requires req.Register? || req.DepositFunds? || req.WithdrawFunds? || req.CreateRoomFor?
    ensures Ages(db, Perform(db, req, env).value.db, r)
  {
    match req
    case Register(_) =>
    case DepositFunds(p, amount) => CreditPosts(db, Entry(p, Deposit, amount, None));
    case WithdrawFunds(p, amount) => DebitPosts(db, Entry(p, Withdraw, amount, None));
    case CreateRoomFor(id, p) => CreateIs(db, id, p, env.now);
    SameTablesAge(db, Perform(db, req, env).value.db, r);
  }

  lemma JoinAges(db: DB, id: Id, p: Id, now: Time, r: Id)
    requires JoinTx(db, id, p, now).Success? && r in db.rooms
    ensures Ages(db, JoinTx(db, id, p, now).value.db, r)
  {
  }

  lemma StartAges(db: DB, id: Id, p: Id, now: Time, window: int, r: Id)
    requires TablesOk(db) && StartTx(db, id, p, now, window).Success? && r in db.rooms
    ensures Ages(db, StartTx(db, id, p, now, window).value.db, r)
  {
    StartIs(db, id, p, now, window);
    var key := RoundKey(id, db.rooms[id].currentRound + 1);
    StartedRoomAges(db, StartTx(db, id, p, now, window).value.db, key, RoundRow(now, now + window, Betting, 0, 0, None, None), r);
  }

  lemma StartedRoomAges(db: DB, after: DB, key: RoundKey, row: RoundRow, r: Id)
    requires Active(db, key.room) && db.rooms[key.room].currentRound == key.number - 1 && !Undecided(db, key.room)
    requires key !in db.rounds && row.status == Betting && r in db.rooms
    requires after == db.(rooms := db.rooms[key.room := db.rooms[key.room].(currentRound := key.number)], rounds := db.rounds[key := row])
    ensures Ages(db, after, r)
  {
  }

  lemma PlaceAges(db: DB, id: Id, p: Id, choice: Parity, amount: Cents, now: Time, r: Id)
    requires TablesOk(db) && BalancesOk(db) && PlaceTx(db, id, p, choice, amount, now).Success? && r in db.rooms
    ensures Ages(db, PlaceTx(db, id, p, choice, amount, now).value.db, r)
  {
    PlaceIs(db, id, p, choice, amount, now);
    OneBetAges(db, PlaceTx(db, id, p, choice, amount, now).value.db, id, BetKey(CurrentKey(db, id), p), BetRow(choice, amount, now, None), r);
  }

  lemma OneBetAges(db: DB, after: DB, id: Id, k: BetKey, bet: BetRow, r: Id)
    requires Live(db, id) && r in db.rooms && k.round == CurrentKey(db, id) && k !in db.bets && k.player in db.rooms[id].seats
    requires after.rooms == db.rooms && after.rounds == db.rounds && after.bets == db.bets[k := bet]
    ensures Ages(db, after, r)
  {
    if r == id {
      var p := k.player;
      forall q
        ensures q in BetsLeft(after, r) <==> q in BetsLeft(db, r) && q != p
      {
      }
      assert p in BetsLeft(db, r) && p !in BetsLeft(after, r);
      SubsetsAreSmaller(BetsLeft(after, r), BetsLeft(db, r));
    }
  }

  lemma SettleAges(db: DB, id: Id, roll: Result<(int, int)>, now: Time, order: seq<Id>, r: Id)
    requires Inv(db) && SettleTx(db, id, roll, now, order).Success? && GetCurrent(db, id).Some? && r in db.rooms
    requires InTimeOrder(order, PlacedAt(GetCurrent(db, id).value.bets))
    ensures Ages(db, SettleTx(db, id, roll, now, order).value.db, r)
  {
    SettleIs(db, id, roll, now, order);
    SettledStoreAges(db, SettleTx(db, id, roll, now, order).value.db, id, roll.value.0, roll.value.1,
                     OutcomeOf(roll.value.0, roll.value.1).value, now, order, r);
  }

  lemma SettledStoreAges(db: DB, after: DB, id: Id, die1: int, die2: int, side: Parity, now: Time, order: seq<Id>, r: Id)
    requires Live(db, id) && Settles(db, after, id, die1, die2, side, now, order) && r in db.rooms
    ensures Ages(db, after, r)
  {
    if r == id {
      SettledRoomAges(db, after, id, die1, die2, side, now, order);
    } else {
      OtherRoomsSettleNothing(db, after, CurrentKey(db, id), side, order, r);
    }
  }

  lemma SettledRoomAges(db: DB, after: DB, id: Id, die1: int, die2: int, side: Parity, now: Time, order: seq<Id>)
    requires Live(db, id) && SettlesRound(db, after, id, die1, die2, side, now)
    requires ResultsRecorded(db, after, CurrentKey(db, id), order, side)
    ensures Ages(db, after, id)
  {
  }

  lemma OtherRoomsSettleNothing(db: DB, after: DB, key: RoundKey, side: Parity, order: seq<Id>, r: Id)
    requires ResultsRecorded(db, after, key, order, side) && r in db.rooms && key.room != r
    requires r in after.rooms && after.rooms[r] == db.rooms[r]
    requires forall k :: k != key ==> SameRound(db, after, k)
    ensures Ages(db, after, r)
  {
  }

  lemma CloseAges(db: DB, id: Id, p: Id, now: Time, r: Id)
    requires TablesOk(db) && CloseTx(db, id, p, now).Success? && r in db.rooms
    ensures Ages(db, CloseTx(db, id, p, now).value.db, r)
  {
    CloseIs(db, id, p, now);
  }

  lemma AbortAges(db: DB, id: Id, now: Time, orders: map<int, seq<Id>>, r: Id)
    requires Inv(db) && OrdersOk(db, id, orders) && AbortTx(db, id, now, orders).Success? && r in db.rooms
    ensures Ages(db, AbortTx(db, id, now, orders).value.db, r)
  {
    AbortIs(db, id, now, orders);
    AbortedRoomAges(db, AbortTx(db, id, now, orders).value.db, id, now, r);
  }

  lemma AbortedRoomAges(db: DB, after: DB, id: Id, now: Time, r: Id)
    requires id in db.rooms && Aborts(db, after, id, now) && Active(db, id) && r in db.rooms
    ensures Ages(db, after, r)
  {
  }

  // ---- whole runs --------------------------------------------------------------------------

  /** How many of the first n steps of a run changed the room. */
  ghost function Changes(stores: seq<DB>, r: Id, n: nat): nat
    requires n < |stores|
  {
    if n == 0 then 0
    else Changes(stores, r, n - 1) + if SameRoom(stores[n - 1], stores[n], r) then 0 else 1
  }

  lemma StepAges(before: DB, s: Step, after: DB, r: Id)
    requires Reachable(before) && StepTo(before, s, after) && r in before.rooms
    ensures Ages(before, after, r)
  {
    if after == before {
      assert SameRoom(before, after, r);
    } else {
      ReachableStoresAreGood(before);
      UseCaseAges(before, s.request, s.env, r);
    }
  }

  lemma StepFalls(before: DB, s: Step, after: DB, r: Id)
    requires Reachable(before) && StepTo(before, s, after) && r in before.rooms
    ensures r in after.rooms && (if SameRoom(before, after, r) then Rank(after, r) == Rank(before, r) else Rank(after, r) < Rank(before, r))
  {
    StepAges(before, s, after, r);
    if SameRoom(before, after, r) {
      SameRoomSameRank(before, after, r);
    } else {
      ReachableStoresAreGood(before);
      StepKeeps(before, s, after);
      FallingLowersRank(before, after, r);
    }
  }

  /** The i-th step of a run, if it changed the room, used up some of its rank. */
  ghost predicate FallsAt(stores: seq<DB>, r: Id, i: nat) {
    && i + 1 < |stores|
    && (r in stores[i].rooms ==> r in stores[i + 1].rooms && UsesUp(stores[i], stores[i + 1], r))
  }

  ghost predicate UsesUp(before: DB, after: DB, r: Id)
    requires r in before.rooms && r in after.rooms
  {
    Rank(after, r) + (if SameRoom(before, after, r) then 0 else 1) <= Rank(before, r)
  }

  lemma RunFallsAt(stores: seq<DB>, steps: seq<Step>, r: Id, i: nat)
    requires Run(stores, steps) && Reachable(stores[0]) && i < |steps|
    ensures FallsAt(stores, r, i)
  {
    RunReaches(stores, steps, i);
    assert StepTo(stores[i], steps[i], stores[i + 1]);
    if r in stores[i].rooms { StepFalls(stores[i], steps[i], stores[i + 1], r); }
  }

  lemma {:induction false} ChangesUseUpRank(stores: seq<DB>, r: Id, n: nat)
    requires n < |stores| && r in stores[0].rooms && forall i :: 0 <= i < n ==> FallsAt(stores, r, i)
    ensures r in stores[n].rooms && Changes(stores, r, n) + Rank(stores[n], r) <= Rank(stores[0], r)
  {
    if n > 0 {
      ChangesUseUpRank(stores, r, n - 1);
      assert FallsAt(stores, r, n - 1);
    }
  }

  lemma RankOfReachable(db: DB, r: Id)
    requires Reachable(db) && r in db.rooms
    ensures 0 <= Rank(db, r) <= 3233
  {
    ReachableStoresAreGood(db);
    RankIsBounded(db, r);
  }

  /** A room's life is finite: in any run, however long and whoever drives it, at most 3233 steps
      change a room, its rounds or its bets after it exists. */
  lemma RoomsChangeFinitelyOften(stores: seq<DB>, steps: seq<Step>, r: Id)
    requires Run(stores, steps) && Reachable(stores[0]) && r in stores[0].rooms
    ensures Changes(stores, r, |steps|) <= 3233
  {
    forall i | 0 <= i < |steps|
      ensures FallsAt(stores, r, i)
    {
      RunFallsAt(stores, steps, r, i);
    }
    ChangesUseUpRank(stores, r, |steps|);
    RunReaches(stores, steps, |steps|);
    RankOfReachable(stores[0], r);
    RankOfReachable(stores[|steps|], r);
  }

  // ---- finality ----------------------------------------------------------------------------

  ghost predicate SameEntries(before: DB, after: DB, r: Id) {
    forall k: BetKey :: k.round.room == r ==>
      && Amounts(after.ledger, Stake, k) == Amounts(before.ledger, Stake, k)
      && Amounts(after.ledger, Payback, k) == Amounts(before.ledger, Payback, k)
  }

  lemma ClosedStays(before: DB, s: Step, after: DB, r: Id)
    requires Reachable(before) && StepTo(before, s, after) && r in before.rooms && before.rooms[r].status == Closed
    ensures SameRoom(before, after, r)
  {
    StepAges(before, s, after, r);
  }

  /** Closed is terminal: whatever runs afterwards, the room, its rounds, its bets and everything the
      ledger holds for those bets stay as they were. This is what makes a refund happen once. */
  lemma {:induction false} ClosedIsTerminal(stores: seq<DB>, steps: seq<Step>, r: Id, n: nat)
    requires Run(stores, steps) && Reachable(stores[0]) && n <= |steps|
    requires r in stores[0].rooms && stores[0].rooms[r].status == Closed
    ensures SameRoom(stores[0], stores[n], r) && SameEntries(stores[0], stores[n], r)
  {
    if n > 0 {
      ClosedIsTerminal(stores, steps, r, n - 1);
      RunReaches(stores, steps, n - 1);
      assert StepTo(stores[n - 1], steps[n - 1], stores[n - 1 + 1]);
      ClosedStays(stores[n - 1], steps[n - 1], stores[n], r);
      SameRoomsChain(stores[0], stores[n - 1], stores[n], r);
    }
    RunReaches(stores, steps, n);
    LedgerIsExact(stores[0]);
    LedgerIsExact(stores[n]);
    SameDues(stores[0], stores[n], r);
  }

  lemma SameRoomsChain(a: DB, b: DB, c: DB, r: Id)
    requires SameRoom(a, b, r) && SameRoom(b, c, r)
    ensures SameRoom(a, c, r)
  {
  }

  lemma LedgerIsExact(db: DB)
    requires Reachable(db)
    ensures PaidOnce(db)
  {
    ReachableStoresAreGood(db);
  }

  lemma SameDues(before: DB, after: DB, r: Id)
    requires PaidOnce(before) && PaidOnce(after) && SameRoom(before, after, r)
    ensures SameEntries(before, after, r)
  {
  }

  ghost predicate BetKept(before: DB, after: DB, k: BetKey) {
    && k in before.bets && k in after.bets
    && after.bets[k].(result := None) == before.bets[k].(result := None)
    && (k.round in before.rounds && before.rounds[k.round].status == Settled ==>
          SameRound(before, after, k.round) && SameBet(before, after, k))
  }

  lemma BetStays(before: DB, s: Step, after: DB, k: BetKey)
    requires Reachable(before) && StepTo(before, s, after) && k in before.bets
    ensures BetKept(before, after, k)
  {
    ReachableStoresAreGood(before);
    assert BetOk(before, k);
    var r := k.round.room;
    StepAges(before, s, after, r);
    assert SameRoom(before, after, r) ==> SameBet(before, after, k) && SameRound(before, after, k.round);
  }

  /** A settled round keeps its dice, and every accepted bet its stake, choice and, once it has one,
      its result, whatever runs afterwards. */
  lemma {:induction false} SettledIsFinal(stores: seq<DB>, steps: seq<Step>, k: BetKey, n: nat)
    requires Run(stores, steps) && Reachable(stores[0]) && n <= |steps| && k in stores[0].bets
    ensures BetKept(stores[0], stores[n], k)
  {
    if n > 0 {
      SettledIsFinal(stores, steps, k, n - 1);
      RunReaches(stores, steps, n - 1);
      assert StepTo(stores[n - 1], steps[n - 1], stores[n - 1 + 1]);
      BetStays(stores[n - 1], steps[n - 1], stores[n], k);
      BetKeptChain(stores[0], stores[n - 1], stores[n], k);
    }
  }

  lemma BetKeptChain(a: DB, b: DB, c: DB, k: BetKey)
    requires BetKept(a, b, k) && BetKept(b, c, k)
    ensures BetKept(a, c, k)
  {
  }

  lemma WalletGrows(db: DB, e: Entry)
    requires BalancesOk(db) && e.amount > 0
    ensures CreditPlayer(db, e).Success? ==> db.ledger <= CreditPlayer(db, e).value.ledger
    ensures DebitPlayer(db, e).Success? ==> db.ledger <= DebitPlayer(db, e).value.ledger
  {
  }

  lemma RoundsGrow(db: DB, r: Request, env: Env)
    requires Inv(db) && Feasible(db, r, env) && Perform(db, r, env).Success?
    requires r.SettleRound? || r.AbortRoom? || r.PlaceBet?
    ensures db.ledger <= Perform(db, r, env).value.db.ledger
  {
    match r
    case PlaceBet(id, p, choice, amount) => PlaceIs(db, id, p, choice, amount, env.now);
    case SettleRound(id) => SettleIs(db, id, env.roll, env.now, env.order);
    case AbortRoom(id) => AbortIs(db, id, env.now, env.orders);
  }

  lemma RoomsLeaveTheLedger(db: DB, r: Request, env: Env)
    requires Inv(db) && Perform(db, r, env).Success?
    requires r.Register? || r.CreateRoomFor? || r.JoinRoom? || r.StartRound? || r.CloseRoom?
    ensures Perform(db, r, env).value.db.ledger == db.ledger
  {
    match r
    case Register(_) =>
    case CreateRoomFor(id, p) => CreateIs(db, id, p, env.now);
    case JoinRoom(id, p) => JoinIs(db, id, p, env.now);
    case StartRound(id, p) => StartIs(db, id, p, env.now, env.window);
    case CloseRoom(id, p) => CloseIs(db, id, p, env.now);
  }

  /** The ledger is append-only. */
  lemma LedgerGrows(before: DB, s: Step, after: DB)
    requires Reachable(before) && StepTo(before, s, after)
    ensures before.ledger <= after.ledger
  {
    ReachableStoresAreGood(before);
    if after != before {
      match s.request
      case DepositFunds(p, amount) => WalletGrows(before, Entry(p, Deposit, amount, None));
      case WithdrawFunds(p, amount) => WalletGrows(before, Entry(p, Withdraw, amount, None));
      case PlaceBet(_, _, _, _) => RoundsGrow(before, s.request, s.env);
      case SettleRound(_) => RoundsGrow(before, s.request, s.env);
      case AbortRoom(_) => RoundsGrow(before, s.request, s.env);
      case _ => RoomsLeaveTheLedger(before, s.request, s.env);
    }
  }
}
