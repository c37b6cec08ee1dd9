/** Runs of the whole system over one store: any number of use cases in any order, each committed,
    rolled back, or committed without the caller learning of it. */
module Runs {
  import opened Types
  import opened Money
  import opened Dice
  import opened Game
  import opened FiniteSets
  import opened Wallet
  import opened Store
  import opened Transactions
  import opened StoreInvariant
  import opened Preservation
  import opened Steps

  datatype Step = Step(request: Request, env: Env, fate: Fate)

  ghost predicate StepTo(before: DB, s: Step, after: DB) {
    Feasible(before, s.request, s.env) && after == StoreAfter(before, Perform(before, s.request, s.env), s.fate)
  }

  /** A run from a given store: the stores before, between and after its steps. */
  ghost predicate Run(stores: seq<DB>, steps: seq<Step>) {
    && |stores| == |steps| + 1
    && forall i :: 0 <= i < |steps| ==> StepTo(stores[i], steps[i], stores[i + 1])
  }

  ghost predicate Reachable(db: DB) {
    exists stores, steps :: Run(stores, steps) && stores[0] == EMPTY && stores[|steps|] == db
  }

  lemma StepKeeps(before: DB, s: Step, after: DB)
    requires Inv(before) && StepTo(before, s, after)
    ensures Inv(after)
  {
    if Perform(before, s.request, s.env).Success? {
      PerformKeeps(before, s.request, s.env);
    }
  }

  ghost predicate KeepsAt(stores: seq<DB>, i: nat) {
    i + 1 < |stores| && (Inv(stores[i]) ==> Inv(stores[i + 1]))
  }

  lemma RunKeepsAt(stores: seq<DB>, steps: seq<Step>, i: nat)
    requires Run(stores, steps) && i < |steps|
    ensures KeepsAt(stores, i)
  {
    assert StepTo(stores[i], steps[i], stores[i + 1]);
    if Inv(stores[i]) { StepKeeps(stores[i], steps[i], stores[i + 1]); }
  }

  lemma {:induction false} KeptAllAlong(stores: seq<DB>, n: nat)
    requires n < |stores| && Inv(stores[0]) && forall i :: 0 <= i < n ==> KeepsAt(stores, i)
    ensures Inv(stores[n])
  {
    if n > 0 {
      KeptAllAlong(stores, n - 1);
      assert KeepsAt(stores, n - 1);
    }
  }

  lemma RunKeeps(stores: seq<DB>, steps: seq<Step>, n: nat)
    requires Run(stores, steps) && Inv(stores[0]) && n <= |steps|
    ensures Inv(stores[n])
  {
    forall i | 0 <= i < n
      ensures KeepsAt(stores, i)
    {
      RunKeepsAt(stores, steps, i);
    }
    KeptAllAlong(stores, n);
  }

  /** Every store of every run satisfies the invariant. */
  lemma ReachableStoresAreGood(db: DB)
    requires Reachable(db)
    ensures Inv(db)
  {
    var stores, steps :| Run(stores, steps) && stores[0] == EMPTY && stores[|steps|] == db;
    assert Inv(EMPTY) by {
      assert forall k :: Amounts([], Stake, k) == [] && Amounts([], Payback, k) == [];
    }
    RunKeeps(stores, steps, |steps|);
  }

  /** One more step from a reachable store reaches a reachable store. */
  lemma ReachableStep(before: DB, s: Step, after: DB)
    requires Reachable(before) && StepTo(before, s, after)
    ensures Reachable(after)
  {
    var stores, steps :| Run(stores, steps) && stores[0] == EMPTY && stores[|steps|] == before;
    var stores', steps' := stores + [after], steps + [s];
    forall i | 0 <= i < |steps'|
      ensures StepTo(stores'[i], steps'[i], stores'[i + 1])
    {
      if i < |steps| {
        assert StepTo(stores[i], steps[i], stores[i + 1]);
      }
    }
    assert Run(stores', steps') && stores'[0] == EMPTY && stores'[|steps'|] == after;
  }

  lemma {:induction false} RunReaches(stores: seq<DB>, steps: seq<Step>, n: nat)
    requires Run(stores, steps) && Reachable(stores[0]) && n <= |steps|
    ensures Reachable(stores[n])
  {
    if n > 0 {
      RunReaches(stores, steps, n - 1);
      assert StepTo(stores[n - 1], steps[n - 1], stores[n - 1 + 1]);
      ReachableStep(stores[n - 1], steps[n - 1], stores[n]);
    }
  }

  // ---- exactly once ------------------------------------------------------------------------

  /** The money of one accepted bet, whatever happened so far: one "bet" entry; no "payout" entry
      while it is open or when it lost; exactly one, of Payout(stake), when it won; exactly one, of
      the stake, when its room was closed with the round undecided. */
  lemma EveryBetIsPaidOnce(db: DB, k: BetKey)
    requires Reachable(db) && k in db.bets
    ensures db.bets[k].amount > 0 && Amounts(db.ledger, Stake, k) == [db.bets[k].amount]
    ensures k.round in db.rounds && k.round.room in db.rooms && k.player in db.players
    ensures db.rounds[k.round].status == Betting && Active(db, k.round.room) ==> Amounts(db.ledger, Payback, k) == []
    ensures db.rounds[k.round].status == Betting && !Active(db, k.round.room) ==> Amounts(db.ledger, Payback, k) == [db.bets[k].amount]
    ensures db.rounds[k.round].status == Settled ==>
              var win := OutcomeOf(db.rounds[k.round].die1, db.rounds[k.round].die2) == Success(db.bets[k].choice);
              Amounts(db.ledger, Payback, k) == if win && Payout(db.bets[k].amount) > 0 then [Payout(db.bets[k].amount)] else []
    ensures db.rounds[k.round].status == Settled && db.bets[k].amount <= MAX_EXACT_STAKE &&
            OutcomeOf(db.rounds[k.round].die1, db.rounds[k.round].die2) == Success(db.bets[k].choice)
            ==> Amounts(db.ledger, Payback, k) == [ExactPayout(db.bets[k].amount)]
  {
    ReachableStoresAreGood(db);
    assert BetOk(db, k);
    assert Amounts(db.ledger, Stake, k) == Staked(db, k) && Amounts(db.ledger, Payback, k) == Due(db, k);
    if db.bets[k].amount <= MAX_EXACT_STAKE {
      PayoutIsExactIff(db.bets[k].amount);
      PayoutBounds(db.bets[k].amount);
    }
  }

  /** No entry of the ledger belongs to a bet that was not accepted. */
  lemma NothingForOtherBets(db: DB, k: BetKey)
    requires Reachable(db) && k !in db.bets
    ensures Amounts(db.ledger, Stake, k) == [] && Amounts(db.ledger, Payback, k) == []
  {
    ReachableStoresAreGood(db);
  }

  // ---- reconciliation and conservation -----------------------------------------------------

  /** Every balance is the signed sum of the player's entries, and never negative. */
  lemma BalancesReconcile(db: DB, p: Id)
    requires Reachable(db) && p in db.players
    ensures db.players[p] == Net(db.ledger, p) && db.players[p] >= 0
  {
    ReachableStoresAreGood(db);
  }

  ghost function Total(ledger: seq<Entry>, kind: Kind): int {
    if ledger == [] then 0
    else
      var last := ledger[|ledger| - 1];
      Total(ledger[..|ledger| - 1], kind) + if last.kind == kind then last.amount as int else 0
  }

  ghost function Add(amounts: seq<Cents>): int {
    if amounts == [] then 0 else Add(amounts[..|amounts| - 1]) + amounts[|amounts| - 1] as int
  }

  lemma AddOneMore(amounts: seq<Cents>, a: Cents)
    ensures Add(amounts + [a]) == Add(amounts) + a
  {
  }

  /** Summing the net amounts of all players counts every entry once. */
  lemma {:induction false} NetsAddUp(ledger: seq<Entry>, players: set<Id>)
    requires forall e :: e in ledger ==> e.player in players
    ensures Sum(players, p => Net(ledger, p)) ==
              Total(ledger, Deposit) + Total(ledger, Payback) - Total(ledger, Withdraw) - Total(ledger, Stake)
  {
    if ledger == [] {
      SumOfZeros(players, p => Net(ledger, p));
    } else {
      var shorter, last := ledger[..|ledger| - 1], ledger[|ledger| - 1];
      assert last in ledger && forall e :: e in shorter ==> e in ledger;
      NetsAddUp(shorter, players);
      SumChanges(players, p => Net(shorter, p), p => Net(ledger, p), last.player, Signed(last));
    }
  }

  /** Summing the entries of one kind over all bets counts every such entry once. */
  lemma {:induction false} BetEntriesAddUp(ledger: seq<Entry>, kind: Kind, bets: set<BetKey>)
    requires forall e :: e in ledger && e.kind == kind ==> e.round.Some? && BetKey(e.round.value, e.player) in bets
    ensures Sum(bets, k => Add(Amounts(ledger, kind, k))) == Total(ledger, kind)
  {
    if ledger == [] {
      SumOfZeros(bets, k => Add(Amounts(ledger, kind, k)));
    } else {
      var shorter, last := ledger[..|ledger| - 1], ledger[|ledger| - 1];
      assert last in ledger && forall e :: e in shorter ==> e in ledger;
      BetEntriesAddUp(shorter, kind, bets);
      if last.kind == kind {
        var k := BetKey(last.round.value, last.player);
        AddOneMore(Amounts(shorter, kind, k), last.amount);
        forall x | x in bets && x != k
          ensures Amounts(ledger, kind, x) == Amounts(shorter, kind, x)
        {
        }
        SumChanges(bets, x => Add(Amounts(shorter, kind, x)), x => Add(Amounts(ledger, kind, x)), k, last.amount);
      } else {
        forall x | x in bets
          ensures Amounts(ledger, kind, x) == Amounts(shorter, kind, x)
        {
        }
        SumAgrees(bets, x => Add(Amounts(shorter, kind, x)), x => Add(Amounts(ledger, kind, x)));
      }
    }
  }

  /** What the house holds of one bet: an open stake, the stake less the payout of a settled bet,
      nothing of a refunded one. */
  ghost function Held(db: DB, k: BetKey): int
    requires k in db.bets
  {
    match db.bets[k].result
    case Some(result) => db.bets[k].amount as int - result.payout as int
    case None => if Active(db, k.round.room) then db.bets[k].amount as int else 0
  }

  lemma HeldIsStakedLessPaid(db: DB, k: BetKey)
    requires Inv(db) && k in db.bets
    ensures Held(db, k) == Add(Amounts(db.ledger, Stake, k)) - Add(Amounts(db.ledger, Payback, k))
  {
  }

  /** Conservation: in every reachable store, the balances, the open stakes and what the house won or
      lost on settled rounds add up to the money that came in less the money that went out. */
  lemma MoneyIsConserved(db: DB)
    requires Reachable(db)
    ensures Sum(db.players.Keys, p => if p in db.players then db.players[p] as int else 0)
            + Sum(db.bets.Keys, k => if k in db.bets then Held(db, k) else 0)
            == Total(db.ledger, Deposit) - Total(db.ledger, Withdraw)
  {
    ReachableStoresAreGood(db);
    forall e | e in db.ledger
      ensures e.player in db.players.Keys
      ensures e.kind == Stake || e.kind == Payback ==> e.round.Some? && BetKey(e.round.value, e.player) in db.bets.Keys
    {
      assert EntryOk(db, e);
    }
    NetsAddUp(db.ledger, db.players.Keys);
    SumAgrees(db.players.Keys, p => if p in db.players then db.players[p] as int else 0, p => Net(db.ledger, p));
    BetEntriesAddUp(db.ledger, Stake, db.bets.Keys);
    BetEntriesAddUp(db.ledger, Payback, db.bets.Keys);
    forall k | k in db.bets.Keys
      ensures Held(db, k) == Add(Amounts(db.ledger, Stake, k)) - Add(Amounts(db.ledger, Payback, k))
    {
      HeldIsStakedLessPaid(db, k);
    }
    SumOfDifference(db.bets.Keys, k => Add(Amounts(db.ledger, Stake, k)), k => Add(Amounts(db.ledger, Payback, k)),
                    k => if k in db.bets then Held(db, k) else 0);
  }

  // ---- what every reachable store looks like -----------------------------------------------

  /** Rounds are numbered 1..currentRound, only the last can be undecided, a closing room and an
      unclosed room at its cap wait for exactly that round, closed_at says whether a room is closed,
      and a closed room with an undecided round has refunded all of that round's stakes. */
  lemma ShapeOfRooms(db: DB, r: Id)
    requires Reachable(db) && r in db.rooms
    ensures 0 <= db.rooms[r].currentRound <= MAX_ROUNDS
    ensures forall n :: n in Numbers(db, r) <==> 1 <= n <= db.rooms[r].currentRound
    ensures forall n :: 1 <= n < db.rooms[r].currentRound ==> RoundKey(r, n) in db.rounds && db.rounds[RoundKey(r, n)].status == Settled
    ensures db.rooms[r].status == Closing ==> Undecided(db, r)
    ensures db.rooms[r].status != Closed && db.rooms[r].currentRound == MAX_ROUNDS ==> Undecided(db, r)
    ensures db.rooms[r].status == Closed <==> db.rooms[r].closedAt.Some?
    ensures db.rooms[r].status == Closed && Undecided(db, r) ==>
              forall k :: k in db.bets && k.round == CurrentKey(db, r) ==> Amounts(db.ledger, Payback, k) == [db.bets[k].amount]
  {
    ReachableStoresAreGood(db);
    var n := db.rooms[r].currentRound;
    forall i
      ensures i in Numbers(db, r) <==> 1 <= i <= n
    {
      assert i in Numbers(db, r) <==> RoundKey(r, i) in db.rounds;
    }
    forall i | 1 <= i < n
      ensures RoundKey(r, i) in db.rounds && db.rounds[RoundKey(r, i)].status == Settled
    {
      assert RoundKey(r, i) in db.rounds;
    }
    assert Waiting(db.rooms[r]) ==> Undecided(db, r);
    if db.rooms[r].status == Closed && Undecided(db, r) {
      forall k | k in db.bets && k.round == CurrentKey(db, r)
        ensures Amounts(db.ledger, Payback, k) == [db.bets[k].amount]
      {
        EveryBetIsPaidOnce(db, k);
      }
    }
  }

  /** At most six seats, one room that is not closed per player, and bets only from members. */
  lemma SeatsAreExclusive(db: DB)
    requires Reachable(db)
    ensures forall r :: r in db.rooms ==> 1 <= |db.rooms[r].seats| <= MAX_PLAYERS
    ensures forall r, s, p :: Seated(db, r, p) && Seated(db, s, p) ==> r == s
    ensures forall k :: k in db.bets ==> k.round.room in db.rooms && k.player in db.rooms[k.round.room].seats
  {
    ReachableStoresAreGood(db);
    forall r | r in db.rooms
      ensures 1 <= |db.rooms[r].seats|
    {
      assert db.rooms[r].owner in db.rooms[r].seats;
    }
    forall k | k in db.bets
      ensures k.round.room in db.rooms && k.player in db.rooms[k.round.room].seats
    {
      assert BetOk(db, k);
    }
  }

  /** A player with an open stake cannot withdraw anything. */
  lemma OpenStakeBlocksWithdrawal(db: DB, k: BetKey, amount: Cents)
    requires Reachable(db) && k in db.bets && amount > 0
    requires db.bets[k].result.None? && Active(db, k.round.room)
    ensures WithdrawTx(db, k.player, amount) == Failure(WithdrawalBlocked)
  {
    ReachableStoresAreGood(db);
    assert BetOk(db, k);
    assert k.round.room in ActiveRooms(db, k.player);
  }

  /** A withdrawal succeeds exactly for a player who sits in no room that is not closed and whose
      positive amount the balance covers. */
  lemma WithdrawalRule(db: DB, p: Id, amount: Cents)
    requires Reachable(db)
    ensures WithdrawTx(db, p, amount).Success? <==>
              amount > 0 && (forall r :: !Seated(db, r, p)) && p in db.players && amount <= db.players[p]
  {
    ReachableStoresAreGood(db);
    if amount > 0 { DebitPosts(db, Entry(p, Withdraw, amount, None)); }
    assert forall r :: r in ActiveRooms(db, p) <==> Seated(db, r, p);
    if ActiveRooms(db, p) != {} {
      var r := Pick(ActiveRooms(db, p));
      assert Seated(db, r, p);
    }
  }

  /** Every result a settlement reports, a win among them, belongs to a member whose reported balance
      is the committed one. */
  lemma WinnersAreInTheBalances(db: DB, id: Id, roll: Result<(int, int)>, now: Time, order: seq<Id>, i: nat)
    requires Reachable(db) && SettleTx(db, id, roll, now, order).Success?
    requires SettleTx(db, id, roll, now, order).value.reply.RoundSettled?
    requires i < |SettleTx(db, id, roll, now, order).value.reply.results|
    ensures var done := SettleTx(db, id, roll, now, order).value;
            var p := done.reply.results[i].player;
            p in done.reply.balances && p in done.db.players && done.reply.balances[p] == done.db.players[p]
  {
    ReachableStoresAreGood(db);
    var key := RoundKey(id, if id in db.rooms then db.rooms[id].currentRound else 0);
    var side := if roll.Success? && OutcomeOf(roll.value.0, roll.value.1).Success? then OutcomeOf(roll.value.0, roll.value.1).value else Even;
    SettleUnfolds(db, id, roll, now, order, key, side);
    var p := order[i];
    assert p in order;
    assert BetOk(db, BetKey(key, p));
  }
}
