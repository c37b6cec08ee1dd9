/** How each use case changes which rooms have a live round, and until when. */
module LiveRounds {
  import opened Types
  import opened Money
  import opened Dice
  import opened Game
  import opened Wallet
  import opened Store
  import opened Transactions
  import opened StoreInvariant
  import opened Preservation
  import opened Steps
  import opened Runs
  import opened Persistence

  function ClosesAt(db: DB, r: Id): Time
    requires Live(db, r)
  {
    db.rounds[CurrentKey(db, r)].closesAt
  }

  ghost predicate SameLive(before: DB, after: DB, r: Id) {
    && (Live(before, r) <==> Live(after, r))
    && (Live(before, r) ==> ClosesAt(after, r) == ClosesAt(before, r))
  }

  ghost predicate SameLiveExcept(before: DB, after: DB, id: Id) {
    forall r :: r != id ==> SameLive(before, after, r)
  }

  lemma SameTablesSameLive(before: DB, after: DB)
    requires after.rooms == before.rooms && after.rounds == before.rounds
    ensures forall r :: SameLive(before, after, r)
  {
  }

  /** Nothing but starting, settling and aborting creates or ends a live round. */
  lemma OthersKeepLive(db: DB, req: Request, env: Env)
    requires Inv(db) && Perform(db, req, env).Success?
    requires !req.StartRound? && !req.SettleRound? && !req.AbortRoom?
    ensures forall r :: SameLive(db, Perform(db, req, env).value.db, r)
  {
    match req
    case Register(_) => SameTablesSameLive(db, Perform(db, req, env).value.db);
    case DepositFunds(_, _) => WalletKeepsLive(db, req, env);
    case WithdrawFunds(_, _) => WalletKeepsLive(db, req, env);
    case PlaceBet(_, _, _, _) => WalletKeepsLive(db, req, env);
    case CreateRoomFor(id, p) => CreateKeepsLive(db, id, p, env.now);
    case JoinRoom(id, p) => JoinKeepsLive(db, id, p, env.now);
    case CloseRoom(id, p) => CloseKeepsLive(db, id, p, env.now);
  }

  lemma WalletKeepsLive(db: DB, req: Request, env: Env)
    requires TablesOk(db) && BalancesOk(db) && Perform(db, req, env).Success?
    requires req.DepositFunds? || req.WithdrawFunds? || req.PlaceBet?
    ensures forall r :: SameLive(db, Perform(db, req, env).value.db, r)
  {
    match req
    case DepositFunds(p, amount) => CreditPosts(db, Entry(p, Deposit, amount, None));
    case WithdrawFunds(p, amount) => DebitPosts(db, Entry(p, Withdraw, amount, None));
    case PlaceBet(id, p, choice, amount) => BetKeepsLive(db, id, p, choice, amount, env.now);
    SameTablesSameLive(db, Perform(db, req, env).value.db);
  }

  lemma BetKeepsLive(db: DB, id: Id, p: Id, choice: Parity, amount: Cents, now: Time)
    requires TablesOk(db) && BalancesOk(db) && PlaceTx(db, id, p, choice, amount, now).Success?
    ensures PlaceTx(db, id, p, choice, amount, now).value.db.rooms == db.rooms
    ensures PlaceTx(db, id, p, choice, amount, now).value.db.rounds == db.rounds
  {
    PlaceIs(db, id, p, choice, amount, now);
  }

  lemma CloseKeepsLive(db: DB, id: Id, p: Id, now: Time)
    requires TablesOk(db) && CloseTx(db, id, p, now).Success?
    ensures forall r :: SameLive(db, CloseTx(db, id, p, now).value.db, r)
  {
    CloseIs(db, id, p, now);
  }

  lemma JoinKeepsLive(db: DB, id: Id, p: Id, now: Time)
    requires JoinTx(db, id, p, now).Success?
    ensures forall r :: SameLive(db, JoinTx(db, id, p, now).value.db, r)
  {
    JoinIs(db, id, p, now);
  }

  lemma CreateKeepsLive(db: DB, id: Id, p: Id, now: Time)
    requires TablesOk(db) && CreateTx(db, id, p, now).Success?
    ensures forall r :: SameLive(db, CreateTx(db, id, p, now).value.db, r)
  {
  }

  lemma StartMakesLive(db: DB, id: Id, p: Id, now: Time, window: int)
    requires TablesOk(db) && StartTx(db, id, p, now, window).Success?
    ensures !Live(db, id) && Live(StartTx(db, id, p, now, window).value.db, id)
    ensures StartTx(db, id, p, now, window).value.reply.Started?
    ensures ClosesAt(StartTx(db, id, p, now, window).value.db, id) == StartTx(db, id, p, now, window).value.reply.closesAt
    ensures SameLiveExcept(db, StartTx(db, id, p, now, window).value.db, id)
  {
    StartIs(db, id, p, now, window);
  }

  lemma SettleEndsLive(db: DB, id: Id, roll: Result<(int, int)>, now: Time, order: seq<Id>)
    requires Inv(db) && SettleTx(db, id, roll, now, order).Success? && GetCurrent(db, id).Some?
    requires InTimeOrder(order, PlacedAt(GetCurrent(db, id).value.bets))
    ensures Live(db, id) && !Live(SettleTx(db, id, roll, now, order).value.db, id)
    ensures SameLiveExcept(db, SettleTx(db, id, roll, now, order).value.db, id)
  {
    SettleIs(db, id, roll, now, order);
    SettledRoundEndsLive(db, SettleTx(db, id, roll, now, order).value.db, id, roll.value.0, roll.value.1,
                         OutcomeOf(roll.value.0, roll.value.1).value, now);
  }

  lemma SettledRoundEndsLive(db: DB, after: DB, id: Id, die1: int, die2: int, side: Parity, now: Time)
    requires Live(db, id) && SettlesRound(db, after, id, die1, die2, side, now)
    ensures !Live(after, id) && SameLiveExcept(db, after, id)
  {
  }

  lemma AbortEndsLive(db: DB, id: Id, now: Time, orders: map<int, seq<Id>>)
    requires Inv(db) && OrdersOk(db, id, orders) && AbortTx(db, id, now, orders).Success?
    ensures !Live(AbortTx(db, id, now, orders).value.db, id)
    ensures SameLiveExcept(db, AbortTx(db, id, now, orders).value.db, id)
  {
    AbortIs(db, id, now, orders);
  }

  /** Whatever happens to the store, a closed room and a room without a live round refuse bets. */
  lemma NoBetWithoutLiveRound(db: DB, id: Id, p: Id, choice: Parity, amount: Cents, now: Time)
    requires TablesOk(db) && BalancesOk(db)
    requires Live(db, id) ==> ClosesAt(db, id) <= now
    ensures PlaceTx(db, id, p, choice, amount, now).Failure?
  {
  }

  // ---- use cases as the engine sees them ---------------------------------------------------

  /** One execution of a use case: its surroundings, how its transaction ended, the store it left and
      the answer it gave. */
  datatype Work = Work(env: Env, fate: Fate, after: DB, answer: Result<Reply>)

  ghost predicate Executes(db: DB, now: Time, req: Request, w: Work) {
    && Feasible(db, req, w.env) && w.env.now == now
    && (w.env.roll.Failure? ==> w.env.roll.error == EntropyFailed)
    && Ends(db, Perform(db, req, w.env), w.fate, w.after, w.answer)
  }

  /** The errors after which a loop considers its round taken care of. */
  predicate AlreadyDone(e: Error) {
    e == NoActiveRound || e == RoundAlreadySettled || e == RoomClosed || e == RoomNotFound
  }

  /** All that the engine's bookkeeping depends on. */
  ghost predicate LiveEffect(db: DB, req: Request, w: Work) {
    match req
    case StartRound(r, _) =>
      && SameLiveExcept(db, w.after, r)
      && (Live(db, r) ==> SameLive(db, w.after, r))
      && (w.answer.Success? ==>
            !Live(db, r) && Live(w.after, r) && w.answer.value.Started? && w.answer.value.closesAt == ClosesAt(w.after, r))
    case SettleRound(r) =>
      && SameLiveExcept(db, w.after, r)
      && (w.answer.Success? ==> !Live(w.after, r))
      && (w.answer.Failure? && Live(db, r) ==> !AlreadyDone(w.answer.error))
    case AbortRoom(r) =>
      && SameLiveExcept(db, w.after, r)
      && (Live(w.after, r) ==> SameLive(db, w.after, r))
      && (w.answer.Success? || w.answer.error == RoomClosed ==> !Live(w.after, r))
    case CloseRoom(r, _) =>
      && (forall x :: SameLive(db, w.after, x))
      && (w.answer.Success? ==> w.answer.value.RoomEnded? && (w.answer.value.closed ==> !Live(db, r)))
    case PlaceBet(_, _, _, _) => (forall x :: SameLive(db, w.after, x)) && (w.answer.Success? ==> w.answer.value.Placed?)
    case _ => forall x :: SameLive(db, w.after, x)
  }

  /** Every execution has that effect. */
  lemma ExecutionIs(db: DB, now: Time, req: Request, w: Work)
    requires Reachable(db) && Executes(db, now, req, w)
    ensures Reachable(w.after) && LiveEffect(db, req, w)
  {
    ReachableStep(db, Step(req, w.env, w.fate), w.after);
    match req
    case StartRound(r, p) => StartIsLive(db, now, r, p, w);
    case SettleRound(r) => SettleIsLive(db, now, r, w);
    case AbortRoom(r) => AbortIsLive(db, now, r, w);
    case _ => OtherIsLive(db, now, req, w);
  }

  lemma OtherIsLive(db: DB, now: Time, req: Request, w: Work)
    requires Reachable(db) && Executes(db, now, req, w)
    requires !req.StartRound? && !req.SettleRound? && !req.AbortRoom?
    ensures LiveEffect(db, req, w)
  {
    if Perform(db, req, w.env).Success? {
      ReachableStoresAreGood(db);
      OthersKeepLive(db, req, w.env);
      if req.CloseRoom? { CloseIs(db, req.room, req.player, now); }
    }
  }

  lemma StartIsLive(db: DB, now: Time, r: Id, p: Id, w: Work)
    requires Reachable(db) && Executes(db, now, StartRound(r, p), w)
    ensures LiveEffect(db, StartRound(r, p), w)
  {
    ReachableStoresAreGood(db);
    if StartTx(db, r, p, now, w.env.window).Success? { StartMakesLive(db, r, p, now, w.env.window); }
  }

  lemma SettleIsLive(db: DB, now: Time, r: Id, w: Work)
    requires Reachable(db) && Executes(db, now, SettleRound(r), w)
    ensures LiveEffect(db, SettleRound(r), w)
  {
    ReachableStoresAreGood(db);
    var outcome := SettleTx(db, r, w.env.roll, now, w.env.order);
    if outcome.Success? {
      if GetCurrent(db, r).Some? { SettleEndsLive(db, r, w.env.roll, now, w.env.order); }
    } else if Live(db, r) {
      CurrentRoundIsLast(db, r);
      LiveSettlementErrors(db, r, w.env.roll, now, w.env.order);
    }
  }

  lemma AbortIsLive(db: DB, now: Time, r: Id, w: Work)
    requires Reachable(db) && Executes(db, now, AbortRoom(r), w)
    ensures LiveEffect(db, AbortRoom(r), w)
  {
    ReachableStoresAreGood(db);
    if AbortTx(db, r, now, w.env.orders).Success? {
      AbortEndsLive(db, r, now, w.env.orders);
    } else if Active(db, r) {
      AbortErrors(db, r, now, w.env.orders);
    }
  }

  // ---- which errors a failing settlement or abort of a live room reports --------------------

  lemma CreditErrors(db: DB, e: Entry)
    requires CreditPlayer(db, e).Failure?
    ensures !AlreadyDone(CreditPlayer(db, e).error)
  {
  }

  lemma {:induction false} PaidOnlyTo(db: DB, key: RoundKey, results: seq<Outcome>, k: BetKey)
    requires PayAll(db, key, results).Success? && forall o :: o in results ==> k != BetKey(key, o.player)
    ensures k in db.bets ==> k in PayAll(db, key, results).value.bets && PayAll(db, key, results).value.bets[k] == db.bets[k]
  {
    if results != [] {
      var o := results[|results| - 1];
      assert o in results && forall x :: x in results[..|results| - 1] ==> x in results;
      PaidOnlyTo(db, key, results[..|results| - 1], k);
    }
  }

  lemma {:induction false} PayErrors(db: DB, key: RoundKey, results: seq<Outcome>)
    requires forall i, j :: 0 <= i < j < |results| ==> results[i].player != results[j].player
    requires forall o :: o in results ==> BetKey(key, o.player) in db.bets && db.bets[BetKey(key, o.player)].result.None?
    requires PayAll(db, key, results).Failure?
    ensures !AlreadyDone(PayAll(db, key, results).error)
  {
    if results != [] {
      var before, o := results[..|results| - 1], results[|results| - 1];
      assert o in results && forall x :: x in before ==> x in results;
      if PayAll(db, key, before).Failure? {
        PayErrors(db, key, before);
      } else {
        var k := BetKey(key, o.player);
        PaidOnlyTo(db, key, before, k);
        var marked := SettleBetRow(PayAll(db, key, before).value, k, BetResult(o.won, o.payout));
        if marked.Success? && CreditPlayer(marked.value, Entry(o.player, Payback, o.payout, Some(key))).Failure? {
          CreditErrors(marked.value, Entry(o.player, Payback, o.payout, Some(key)));
        }
      }
    }
  }

  lemma BadRollErrors(db: DB, id: Id, roll: Result<(int, int)>, now: Time, order: seq<Id>)
    requires TablesOk(db) && Live(db, id) && AllUnsettled(BetsOf(db.bets, CurrentKey(db, id)))
    requires roll.Failure? ==> roll.error == EntropyFailed
    requires roll.Success? ==> OutcomeOf(roll.value.0, roll.value.1).Failure?
    ensures SettleTx(db, id, roll, now, order).Failure? && !AlreadyDone(SettleTx(db, id, roll, now, order).error)
  {
    AttachedIs(db, id);
    CurrentRoundIsLast(db, id);
  }

  /** Settling a live round never fails with an error that says there was nothing to settle. */
  lemma LiveSettlementErrors(db: DB, id: Id, roll: Result<(int, int)>, now: Time, order: seq<Id>)
    requires Inv(db) && Live(db, id) && InTimeOrder(order, PlacedAt(BetsOf(db.bets, CurrentKey(db, id))))
    requires roll.Failure? ==> roll.error == EntropyFailed
    requires SettleTx(db, id, roll, now, order).Failure?
    ensures !AlreadyDone(SettleTx(db, id, roll, now, order).error)
  {
    var key := CurrentKey(db, id);
    OpenBetsAreUnsettled(db, key);
    if roll.Success? && OutcomeOf(roll.value.0, roll.value.1).Success? {
      var side := OutcomeOf(roll.value.0, roll.value.1).value;
      var marked := RoundMarked(db, key, roll.value.0, roll.value.1, side, now);
      var bets := BetsOf(db.bets, key);
      OrderOfBets(db.bets, key, order);
      PaidExactlyWhenPayable(db, marked, id, key, side, bets, order);
      SettleSucceedsWhenPaid(db, id, roll, now, order, key, side, bets, PayAll(marked, key, Outcomes(bets, side, order)));
      UnsettledPayErrors(marked, key, side, bets, order);
    } else {
      BadRollErrors(db, id, roll, now, order);
    }
  }

  lemma UnsettledPayErrors(db: DB, key: RoundKey, side: Parity, bets: map<Id, BetRow>, order: seq<Id>)
    requires bets == BetsOf(db.bets, key) && AllUnsettled(bets) && Distinct(order) && forall p :: p in order ==> p in bets
    ensures PayAll(db, key, Outcomes(bets, side, order)).Failure? ==> !AlreadyDone(PayAll(db, key, Outcomes(bets, side, order)).error)
  {
    if PayAll(db, key, Outcomes(bets, side, order)).Failure? { PayErrors(db, key, Outcomes(bets, side, order)); }
  }

  lemma {:induction false} RefundErrors(db: DB, key: RoundKey, bets: map<Id, BetRow>, order: seq<Id>)
    requires RefundBets(db, key, bets, order).Failure?
    ensures !AlreadyDone(RefundBets(db, key, bets, order).error)
  {
    if order != [] && RefundBets(db, key, bets, order[..|order| - 1]).Failure? {
      RefundErrors(db, key, bets, order[..|order| - 1]);
    }
  }

  lemma {:induction false} RefundRoundsErrors(db: DB, id: Id, n: int, orders: map<int, seq<Id>>)
    requires RefundRounds(db, id, n, orders).Failure?
    ensures !AlreadyDone(RefundRounds(db, id, n, orders).error)
    decreases n
  {
    if n > 0 {
      var earlier := RefundRounds(db, id, n - 1, orders);
      if earlier.Failure? {
        RefundRoundsErrors(db, id, n - 1, orders);
      } else {
        var key := RoundKey(id, n);
        RefundErrors(earlier.value, key, BetsOf(db.bets, key), if n in orders then orders[n] else []);
      }
    }
  }

  /** Aborting a room that is not closed never fails with an error that says it was. */
  lemma AbortErrors(db: DB, id: Id, now: Time, orders: map<int, seq<Id>>)
    requires Active(db, id) && AbortTx(db, id, now, orders).Failure?
    ensures AbortTx(db, id, now, orders).error != RoomClosed
  {
    if RefundRounds(db, id, LastNumber(db, id), orders).Failure? {
      RefundRoundsErrors(db, id, LastNumber(db, id), orders);
    }
  }
}
