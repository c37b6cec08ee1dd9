/** What holds of the engine over every interleaving of callers, loops, alarms, cancellations,
    shutdown, crashes and recovery. */
module EngineSafety {
  import opened Types
  import opened Money
  import opened Dice
  import opened Game
  import opened Wallet
  import opened Store
  import opened StoreInvariant
  import opened Transactions
  import opened Runs
  import opened Steps
  import opened Answers
  import opened LiveRounds
  import opened Protocol
  import opened EngineInvariant
  import opened EngineSteps

  predicate ByCaller(e: Event) {
    e.OnNewCall? || e.OnLookUp? || e.OnReceive? || e.OnSendSeesDone? || e.OnCancel? || e.OnTakeReply? || e.OnWaitSeesDone? || e.OnRunDirect?
  }

  predicate ByLoop(e: Event) {
    e.OnExecute? || e.OnArm? || e.OnSendReply? || e.OnAlarm? || e.OnSettle? || e.OnAbort? || e.OnQuit? || e.OnRemove? || e.OnCloseDone? || e.OnWgDone?
  }

  lemma CallerStepKeeps(s: State, e: Event, t: State)
    requires EngineInv(s) && Next(s, e, t) && ByCaller(e)
    ensures EngineInv(t)
  {
    match e
    case OnNewCall(c, req) => NewCallKeeps(s, c, req, t);
    case OnLookUp(c, spare) => LookUpKeeps(s, c, spare, t);
    case OnReceive(c) => ReceiveKeeps(s, c, t);
    case OnSendSeesDone(c) => SendSeesDoneKeeps(s, c, t);
    case OnCancel(c) => CancelKeeps(s, c, t);
    case OnTakeReply(c) => TakeReplyKeeps(s, c, t);
    case OnWaitSeesDone(c) => WaitSeesDoneKeeps(s, c, t);
    case OnRunDirect(c, w) => RunDirectKeeps(s, c, w, t);
  }

  lemma LoopStepKeeps(s: State, e: Event, t: State)
    requires EngineInv(s) && Next(s, e, t) && ByLoop(e)
    ensures EngineInv(t)
  {
    match e
    case OnExecute(l, w) => ExecuteKeeps(s, l, w, t);
    case OnArm(l) => ArmKeeps(s, l, t);
    case OnSendReply(l) => SendReplyKeeps(s, l, t);
    case OnAlarm(l) => AlarmKeeps(s, l, t);
    case OnSettle(l, w) => SettleStepKeeps(s, l, w, t);
    case OnAbort(l, w) => AbortStepKeeps(s, l, w, t);
    case OnQuit(l) => QuitKeeps(s, l, t);
    case OnRemove(l) => RemoveKeeps(s, l, t);
    case OnCloseDone(l) => CloseDoneKeeps(s, l, t);
    case OnWgDone(l) => WgDoneKeeps(s, l, t);
  }

  /** Every step of the protocol keeps the invariant. */
  lemma NextKeeps(s: State, e: Event, t: State)
    requires EngineInv(s) && Next(s, e, t)
    ensures EngineInv(t)
  {
    if ByCaller(e) {
      CallerStepKeeps(s, e, t);
    } else if ByLoop(e) {
      LoopStepKeeps(s, e, t);
    } else {
      match e
      case OnShutdown => ShutdownKeeps(s, t);
      case OnStop(l) => StopKeeps(s, l, t);
      case OnTick(to) => TickKeeps(s, to, t);
      case OnOutside(req, w) => OutsideKeeps(s, req, w, t);
      case OnCrash => CrashKeeps(s, t);
      case OnListRooms => ListRoomsKeeps(s, t);
      case OnRecover(r, w) => RecoverKeeps(s, r, w, t);
      case OnServe => ServeKeeps(s, t);
    }
  }

  lemma StartIsGood()
    ensures EngineInv(START)
  {
    assert Run([EMPTY], []) && [EMPTY][0] == EMPTY;
    assert Reachable(EMPTY);
    assert Running(map[]) == {};
  }

  lemma {:induction false} BehaviourKeeps(states: seq<State>, events: seq<Event>, n: nat)
    requires Behaviour(states, events) && n <= |events|
    ensures EngineInv(states[n])
  {
    if n == 0 {
      StartIsGood();
    } else {
      BehaviourKeeps(states, events, n - 1);
      NextKeeps(states[n - 1], events[n - 1], states[n]);
    }
  }

  lemma OccurringStatesAreGood(s: State)
    requires Occurs(s)
    ensures EngineInv(s)
  {
    var states, events :| Behaviour(states, events) && states[|events|] == s;
    BehaviourKeeps(states, events, |events|);
  }

  lemma StoreOccurs(s: State)
    requires Occurs(s)
    ensures Reachable(s.db)
  {
    OccurringStatesAreGood(s);
  }

  // ---- dispatch ----------------------------------------------------------------------------

  /** A command is executed at most once, whoever executes it; it falls back to direct execution only
      if no loop ever received it; and its caller gets the answer of that one execution, or an error
      that says it was never executed, or that it stopped waiting. */
  lemma DispatchAtMostOnce(s: State, c: CallId)
    requires Occurs(s) && c in s.calls
    ensures var call := s.calls[c];
            && |call.runs| <= 1 && call.replies <= 1
            && (call.stage == Direct ==> call.taken.None? && call.runs == [] && (call.req.PlaceBet? || call.req.CloseRoom?))
            && (call.stage.Returned? ==>
                  || call.stage.answer == Failure(Cancelled)
                  || call.runs == [call.stage.answer]
                  || (call.taken.None? && call.runs == [] && call.stage.answer == Failure(EngineStopped))
                  || (call.taken.None? && call.runs == [] && call.stage.answer == Failure(NoLoop) && call.req.StartRound?))
  {
    OccurringStatesAreGood(s);
    assert CallOk(s.pool, c, s.calls[c]);
  }

  /** A command that a loop received has been executed and answered exactly once by the time the loop
      has left the map, and so before done is closed; the caller, if still waiting, finds that answer in the
      channel. The default branch of the inner select is therefore never taken, and no reply ever waits
      for room in its channel. */
  lemma ReceivedMeansAnsweredOnce(s: State, c: CallId, l: LoopId)
    requires Occurs(s) && c in s.calls && s.calls[c].taken == Some(l)
    ensures l in s.pool
    ensures var call := s.calls[c];
            && (!InMap(s.pool[l]) ==> |call.runs| == 1 && call.replies == 1)
            && (!InMap(s.pool[l]) && call.stage.Waiting? ==> call.stage == Waiting(l) && call.buffer == Some(call.runs[0]))
            && (s.pool[l].phase.Replying? && s.pool[l].phase.call == c ==> call.buffer.None?)
  {
    OccurringStatesAreGood(s);
    assert CallOk(s.pool, c, s.calls[c]);
  }

  /** By the time the reply of a successful start is sent, the window is counting down: the alarm is set for
      the closing time, or for an instant since then if that had passed. */
  lemma ArmedBeforeAnswered(s: State, l: LoopId, t: State)
    requires Occurs(s) && SendReply(s, l, t)
    requires s.pool[l].phase.answer.Success? && s.pool[l].phase.answer.value.Started?
    ensures Live(s.db, s.pool[l].room) && s.pool[l].live && s.pool[l].timer.Some?
    ensures var closes, alarm := ClosesAt(s.db, s.pool[l].room), s.pool[l].timer.value; alarm == closes || closes < alarm <= s.now
  {
    OccurringStatesAreGood(s);
    assert LoopOk(s.db, s.now, s.pool[l]);
  }

  // ---- the registry ------------------------------------------------------------------------

  /** Two loops of one room are never in service together, the map lists exactly the loops in service,
      and the wait group counts exactly the loops that have not finished. */
  lemma OneLoopPerRoom(s: State)
    requires Occurs(s)
    ensures forall k, l :: k in s.pool && l in s.pool && InMap(s.pool[k]) && InMap(s.pool[l]) && s.pool[k].room == s.pool[l].room ==> k == l
    ensures forall r :: r in s.loops ==> s.loops[r] in s.pool && s.pool[s.loops[r]].room == r && InMap(s.pool[s.loops[r]])
    ensures forall l :: l in s.pool && InMap(s.pool[l]) ==> s.pool[l].room in s.loops
    ensures s.wg == |set l | l in s.pool && !s.pool[l].phase.Finished?|
  {
    OccurringStatesAreGood(s);
    assert Running(s.pool) == set l | l in s.pool && !s.pool[l].phase.Finished?;
    forall k, l | k in s.pool && l in s.pool && InMap(s.pool[k]) && InMap(s.pool[l]) && s.pool[k].room == s.pool[l].room
      ensures k == l
    {
      assert s.loops[s.pool[k].room] == k && s.loops[s.pool[l].room] == l;
    }
  }

  /** A loop that removes itself always finds its own entry: it has no successor yet. */
  lemma RemovalIsOwn(s: State, l: LoopId, t: State)
    requires Occurs(s) && Remove(s, l, t)
    ensures s.pool[l].room in s.loops && s.loops[s.pool[l].room] == l && t.loops == s.loops - {s.pool[l].room}
    ensures forall k :: k in s.pool && k != l && InMap(s.pool[k]) ==> s.pool[k].room in t.loops && t.loops[s.pool[k].room] == k
  {
    OccurringStatesAreGood(s);
    assert InMap(s.pool[l]);
  }

  /** Until the process ends, shutting down lets no loop in and leaves none out: the loops only
      become fewer, and each one still in the map has been told to quit or is about to be. */
  lemma NoLoopAfterStopping(s: State, e: Event, t: State)
    requires Occurs(s) && Next(s, e, t) && s.stopped && !e.OnCrash?
    ensures t.stopped && t.pool.Keys == s.pool.Keys && t.loops.Keys <= s.loops.Keys && t.wg <= s.wg
    ensures forall l :: l in t.pool && InMap(t.pool[l]) ==> t.pool[l].quit || l in t.stopping
  {
    OccurringStatesAreGood(s);
    NextKeeps(s, e, t);
    StoppedPoolIsFixed(s, e, t);
  }

  lemma StoppedPoolIsFixed(s: State, e: Event, t: State)
    requires Next(s, e, t) && s.stopped && !e.OnCrash?
    ensures t.stopped && t.pool.Keys == s.pool.Keys && t.loops.Keys <= s.loops.Keys && t.wg <= s.wg
  {
    if ByCaller(e) { StoppedByCaller(s, e, t); }
  }

  lemma StoppedByCaller(s: State, e: Event, t: State)
    requires Next(s, e, t) && s.stopped && ByCaller(e)
    ensures t.stopped && t.pool.Keys == s.pool.Keys && t.loops.Keys <= s.loops.Keys && t.wg <= s.wg
  {
  }

  // ---- timing ------------------------------------------------------------------------------

  /** At the select, the live flag, the timer and the store agree: with a live round the timer is set
      to fire at its closing time, or at an instant since then, and without one there is no timer. */
  lemma LoopHeadsAgree(s: State, l: LoopId)
    requires Occurs(s) && At(s, l, Head) && s.pool[l].room !in s.unattended
    ensures s.pool[l].live <==> s.pool[l].timer.Some?
    ensures s.pool[l].live <==> Live(s.db, s.pool[l].room)
    ensures s.pool[l].live ==>
              var closes, alarm := ClosesAt(s.db, s.pool[l].room), s.pool[l].timer.value; alarm == closes || closes < alarm <= s.now
  {
    OccurringStatesAreGood(s);
    assert LoopOk(s.db, s.now, s.pool[l]);
    assert s.loops[s.pool[l].room] == l;
  }

  /** Without any assumption a loop never believes in a round that is not there, and the two can
      disagree only in a room that something went wrong with. */
  lemma LiveMeansLive(s: State, l: LoopId)
    requires Occurs(s) && At(s, l, Head)
    ensures s.pool[l].live ==> Live(s.db, s.pool[l].room) && s.pool[l].timer.Some?
    ensures Live(s.db, s.pool[l].room) && !s.pool[l].live ==> s.pool[l].room in s.unattended
  {
    OccurringStatesAreGood(s);
    assert LoopOk(s.db, s.now, s.pool[l]);
    assert s.loops[s.pool[l].room] == l;
  }

  /** No round is settled before its window has closed: from the moment a loop turns to settling, its
      room's round is live, its window is over, and no bet of anybody could be accepted now or later. */
  lemma NeverSettledEarly(s: State, l: LoopId, p: Id, choice: Parity, amount: Cents, later: Time)
    requires Occurs(s) && At(s, l, Settling) && later >= s.now
    ensures Live(s.db, s.pool[l].room) && ClosesAt(s.db, s.pool[l].room) <= s.now
    ensures PlaceTx(s.db, s.pool[l].room, p, choice, amount, later).Failure?
  {
    OccurringStatesAreGood(s);
    assert LoopOk(s.db, s.now, s.pool[l]);
    ReachableStoresAreGood(s.db);
    NoBetWithoutLiveRound(s.db, s.pool[l].room, p, choice, amount, later);
  }

  /** The settlement of a loop never takes the branches for a round that somebody else resolved or for a
      room that is gone: it reports success, and the loop leaves exactly if the room has closed, or it reports an
      error upon which the room is aborted. The round is then still live, unless the settlement was committed. */
  lemma SettlementEndsOrAborts(s: State, l: LoopId, w: Work, t: State)
    requires Occurs(s) && Settle(s, l, w, t)
    ensures w.answer.Success? ==>
              !Live(t.db, s.pool[l].room) && t.pool[l].phase == if Active(t.db, s.pool[l].room) then Head else Leaving
    ensures w.answer.Failure? ==> t.pool[l].phase == Aborting
    ensures w.answer.Failure? ==>
              (Live(t.db, s.pool[l].room) <==>
               !(w.fate == CommitsUnseen && SettleTx(s.db, s.pool[l].room, w.env.roll, s.now, w.env.order).Success?))
    ensures !t.pool[l].live && t.pool[l].timer.None?
  {
    OccurringStatesAreGood(s);
    assert LoopOk(s.db, s.now, s.pool[l]);
    ExecutionIs(s.db, s.now, SettleRound(s.pool[l].room), w);
    SettlementClosesIff(s.db, s.now, s.pool[l].room, w);
  }

  lemma SettlementClosesIff(db: DB, now: Time, r: Id, w: Work)
    requires Reachable(db) && Live(db, r) && Executes(db, now, SettleRound(r), w)
    ensures w.answer.Success? ==> w.answer.value.RoundSettled? && (w.answer.value.roomClosed <==> !Active(w.after, r))
    ensures w.answer.Failure? ==>
              (Live(w.after, r) <==> !(w.fate == CommitsUnseen && SettleTx(db, r, w.env.roll, now, w.env.order).Success?))
  {
    ClosesWhenSettled(db, r, now, SettleTx(db, r, w.env.roll, now, w.env.order), w);
  }

  lemma ClosesWhenSettled(db: DB, r: Id, now: Time, outcome: Result<Done>, w: Work)
    requires Reachable(db) && Live(db, r) && outcome == SettleTx(db, r, w.env.roll, now, w.env.order)
    requires GetCurrent(db, r).Some? ==> InTimeOrder(w.env.order, PlacedAt(GetCurrent(db, r).value.bets))
    requires Ends(db, outcome, w.fate, w.after, w.answer)
    ensures w.answer.Success? ==> w.answer.value.RoundSettled? && (w.answer.value.roomClosed <==> !Active(w.after, r))
    ensures w.answer.Failure? ==> (Live(w.after, r) <==> !(w.fate == CommitsUnseen && outcome.Success?))
  {
    if outcome.Success? { SettlementEnds(db, r, w.env.roll, now, w.env.order); }
    WhenSettled(db, r, outcome, w);
  }

  lemma SettlementEnds(db: DB, r: Id, roll: Result<(int, int)>, now: Time, order: seq<Id>)
    requires Reachable(db) && Live(db, r) && SettleTx(db, r, roll, now, order).Success?
    requires GetCurrent(db, r).Some? ==> InTimeOrder(order, PlacedAt(GetCurrent(db, r).value.bets))
    ensures var done := SettleTx(db, r, roll, now, order).value;
            done.reply.RoundSettled? && (done.reply.roomClosed <==> !Active(done.db, r)) && !Live(done.db, r)
  {
    SettlementAnswers(db, r, roll, now, order);
    CurrentIsSome(db, r);
    ReachableStoresAreGood(db);
    SettleEndsLive(db, r, roll, now, order);
  }

  lemma WhenSettled(db: DB, r: Id, outcome: Result<Done>, w: Work)
    requires Live(db, r) && Ends(db, outcome, w.fate, w.after, w.answer)
    requires outcome.Success? ==>
               && outcome.value.reply.RoundSettled? && (outcome.value.reply.roomClosed <==> !Active(outcome.value.db, r))
               && !Live(outcome.value.db, r)
    ensures w.answer.Success? ==> w.answer.value.RoundSettled? && (w.answer.value.roomClosed <==> !Active(w.after, r))
    ensures w.answer.Failure? ==> (Live(w.after, r) <==> !(w.fate == CommitsUnseen && outcome.Success?))
  {
  }

  lemma CurrentIsSome(db: DB, r: Id)
    requires Reachable(db) && Live(db, r)
    ensures GetCurrent(db, r).Some?
  {
    ReachableStoresAreGood(db);
    CurrentRoundIsLast(db, r);
  }

  /** Every live round has somebody who will end it: a loop of its room, in service, that has the alarm
      set or is on its way to arming it, settling or aborting. */
  lemma EveryLiveRoundIsMinded(s: State, r: Id)
    requires Occurs(s) && Live(s.db, r) && r !in s.unattended
    ensures r in s.loops && s.loops[r] in s.pool
    ensures var loop := s.pool[s.loops[r]];
            && InMap(loop)
            && (loop.phase.Head? || loop.phase.Handling? || loop.phase.Replying? ==>
                  loop.timer.Some? && OnTime(s.db, s.now, r, loop.timer.value))
            && (loop.phase.Arming? ==> loop.phase.answer.Success? && loop.phase.answer.value.Started?)
            && loop.phase != Leaving
  {
    OccurringStatesAreGood(s);
    assert Minded(s.loops, s.pool, r);
    assert LoopOk(s.db, s.now, s.pool[s.loops[r]]);
  }

  // ---- crashes and faults ------------------------------------------------------------------

  /** The rooms whose abort succeeded, or found them closed, in part of a run. */
  function Recovered(events: seq<Event>, m: nat, n: nat): set<Id>
    requires m <= n <= |events|
  {
    set i | m <= i < n && events[i].OnRecover? && !AbortFailed(events[i].w.answer) :: events[i].r
  }

  predicate Boots(e: Event) {
    e.OnListRooms? || e.OnRecover? || e.OnTick?
  }

  /** After a crash and until the new process serves, the unattended rooms are exactly those that had a
      live round at the crash and have not been recovered since. */
  lemma BootingAttendsTheRecovered(states: seq<State>, events: seq<Event>, i: nat, n: nat)
    requires Behaviour(states, events) && i < n <= |events|
    requires events[i].OnCrash? && forall j :: i < j < n ==> Boots(events[j])
    ensures states[n].unattended == LiveRooms(states[i].db) - Recovered(events, i + 1, n)
  {
    CrashLeavesLiveRooms(states, events, i);
    forall j | i < j < n
      ensures AttendsRecovered(states, events, j)
    {
      BootStep(states, events, j);
    }
    RecoveredAddUp(states, events, i + 1, n);
  }

  /** Step i removes exactly the room it recovers, if it recovers one. */
  ghost predicate AttendsRecovered(states: seq<State>, events: seq<Event>, i: nat) {
    && i < |events| && i + 1 < |states|
    && states[i + 1].unattended ==
         states[i].unattended - if events[i].OnRecover? && !AbortFailed(events[i].w.answer) then {events[i].r} else {}
  }

  lemma {:induction false} RecoveredAddUp(states: seq<State>, events: seq<Event>, m: nat, n: nat)
    requires m <= n <= |events| && n < |states| && forall j :: m <= j < n ==> AttendsRecovered(states, events, j)
    ensures states[n].unattended == states[m].unattended - Recovered(events, m, n)
  {
    if m < n {
      RecoveredAddUp(states, events, m, n - 1);
      OneMoreRecovered(events, m, n - 1);
      assert AttendsRecovered(states, events, n - 1);
    }
  }

  lemma CrashLeavesLiveRooms(states: seq<State>, events: seq<Event>, i: nat)
    requires Behaviour(states, events) && i < |events| && events[i].OnCrash?
    ensures states[i + 1].unattended == LiveRooms(states[i].db) && Attended(states[i + 1])
  {
    assert Next(states[i], events[i], states[i + 1]);
  }

  lemma BootStep(states: seq<State>, events: seq<Event>, i: nat)
    requires Behaviour(states, events) && i < |events| && Boots(events[i])
    ensures AttendsRecovered(states, events, i)
  {
    assert Next(states[i], events[i], states[i + 1]);
  }

  lemma OneMoreRecovered(events: seq<Event>, m: nat, n: nat)
    requires m <= n < |events|
    ensures Recovered(events, m, n + 1) ==
              Recovered(events, m, n) + if events[n].OnRecover? && !AbortFailed(events[n].w.answer) then {events[n].r} else {}
  {
    var e := events[n];
    forall r
      ensures r in Recovered(events, m, n + 1) <==>
                r in Recovered(events, m, n) || (e.OnRecover? && !AbortFailed(e.w.answer) && r == e.r)
    {
      if r in Recovered(events, m, n) {
        var i :| m <= i < n && events[i].OnRecover? && !AbortFailed(events[i].w.answer) && events[i].r == r;
        assert m <= i < n + 1;
      }
    }
  }

  /** What leaves a room unattended for good: an abort that failed, of a loop or of a recovery pass; a
      start that was committed and reported as an error; a process that serves without having listed the
      rooms. A crash is none, as long as the next process recovers. */
  ghost predicate Fault(s: State, e: Event) {
    match e
    case OnAbort(_, w) => AbortFailed(w.answer)
    case OnRecover(_, w) => AbortFailed(w.answer)
    case OnExecute(l, w) =>
      && l in s.pool && s.pool[l].phase.Handling? && s.pool[l].phase.call in s.calls
      && StartUnseen(s.db, s.calls[s.pool[l].phase.call].req, w)
    case OnServe => s.pending.None?
    case _ => false
  }

  /** While a process serves no room is unattended; while one boots, the unattended rooms are among those
      it is going to abort. */
  ghost predicate Attended(s: State) {
    if !s.booting then s.unattended == {}
    else !s.stopped && s.unattended <= if s.pending.Some? then s.pending.value else LiveRooms(s.db)
  }

  lemma FaultlessRunsAttend(states: seq<State>, events: seq<Event>, m: nat, n: nat)
    requires Behaviour(states, events) && m <= n <= |events| && Attended(states[m])
    requires forall i :: m <= i < n ==> !Fault(states[i], events[i])
    ensures Attended(states[n])
  {
    forall i | m <= i < n
      ensures StepAttends(states, i)
    {
      FaultlessStep(states, events, i);
    }
    StepsAttend(states, m, n);
  }

  ghost predicate StepAttends(states: seq<State>, i: nat) {
    i + 1 < |states| && (Attended(states[i]) ==> Attended(states[i + 1]))
  }

  lemma {:induction false} StepsAttend(states: seq<State>, m: nat, n: nat)
    requires m <= n < |states| && Attended(states[m]) && forall i :: m <= i < n ==> StepAttends(states, i)
    ensures Attended(states[n])
  {
    if m < n {
      StepsAttend(states, m, n - 1);
      assert StepAttends(states, n - 1);
    }
  }

  lemma FaultlessStep(states: seq<State>, events: seq<Event>, i: nat)
    requires Behaviour(states, events) && i < |events| && !Fault(states[i], events[i])
    ensures StepAttends(states, i)
  {
    BehaviourKeeps(states, events, i);
    if Attended(states[i]) { FaultlessStepAttends(states[i], events[i], states[i + 1]); }
  }

  lemma FaultlessStepAttends(s: State, e: Event, t: State)
    requires Next(s, e, t) && !Fault(s, e) && Attended(s) && (s.booting ==> s.pool == map[] && s.calls == map[])
    ensures Attended(t)
  {
    if ByCaller(e) {
      CallersAttend(s, e, t);
    } else if ByLoop(e) {
      LoopsAttend(s, e, t);
    }
  }

  lemma CallersAttend(s: State, e: Event, t: State)
    requires Next(s, e, t) && ByCaller(e) && (s.booting ==> s.calls == map[])
    ensures !s.booting && !t.booting && t.unattended == s.unattended
  {
  }

  lemma LoopsAttend(s: State, e: Event, t: State)
    requires Next(s, e, t) && !Fault(s, e) && ByLoop(e) && (s.booting ==> s.pool == map[])
    ensures !s.booting && !t.booting && t.unattended == s.unattended
  {
  }

  /** Since step m nothing has gone wrong, and m is where the run began or a process crashed, whatever
      went wrong before. */
  ghost predicate FaultlessSince(states: seq<State>, events: seq<Event>, m: nat, n: nat) {
    && Behaviour(states, events) && m <= n <= |events|
    && (m == 0 || events[m - 1].OnCrash?)
    && forall i :: m <= i < n ==> !Fault(states[i], events[i])
  }

  /** A boot whose listing and aborts all succeed leaves no room unattended, and without faults none
      becomes so, through any number of further crashes. */
  lemma CleanBootAttendsAll(states: seq<State>, events: seq<Event>, m: nat, n: nat)
    requires FaultlessSince(states, events, m, n)
    ensures !states[n].booting ==> states[n].unattended == {}
    ensures states[n].stopped ==> !states[n].booting
  {
    if m > 0 { CrashLeavesLiveRooms(states, events, m - 1); }
    FaultlessRunsAttend(states, events, m, n);
  }

  /** In a process life without faults, this one or the first, the engine and the store agree at every
      select of every loop. */
  lemma FaultlessRunsAgree(states: seq<State>, events: seq<Event>, m: nat, n: nat, l: LoopId)
    requires FaultlessSince(states, events, m, n) && At(states[n], l, Head)
    ensures states[n].pool[l].live <==> states[n].pool[l].timer.Some?
    ensures states[n].pool[l].live <==> Live(states[n].db, states[n].pool[l].room)
  {
    CleanBootAttendsAll(states, events, m, n);
    BehaviourKeeps(states, events, n);
    PrefixOccurs(states, events, n);
    LoopHeadsAgree(states[n], l);
  }

  lemma PrefixOccurs(states: seq<State>, events: seq<Event>, n: nat)
    requires Behaviour(states, events) && n <= |events|
    ensures Occurs(states[n])
  {
    var states', events' := states[..n + 1], events[..n];
    forall i | 0 <= i < |events'|
      ensures Next(states'[i], events'[i], states'[i + 1])
    {
      assert Next(states[i], events[i], states[i + 1]);
    }
    assert Behaviour(states', events') && states'[|events'|] == states[n];
  }

  /** When Shutdown has waited for every loop, only rooms something went wrong with still have a live
      round; when there was no fault since the process began to boot, none has. */
  lemma ShutdownLeavesNoLiveRound(states: seq<State>, events: seq<Event>, m: nat, n: nat)
    requires Behaviour(states, events) && m <= n <= |events|
    requires states[n].stopped && states[n].wg == 0
    ensures forall r :: Live(states[n].db, r) ==> r in states[n].unattended
    ensures FaultlessSince(states, events, m, n) ==> forall r :: !Live(states[n].db, r)
  {
    BehaviourKeeps(states, events, n);
    var s := states[n];
    NobodyRunning(s);
    if FaultlessSince(states, events, m, n) { CleanBootAttendsAll(states, events, m, n); }
  }

  lemma NobodyRunning(s: State)
    requires RegistryOk(s) && s.wg == 0
    ensures forall r :: !Minded(s.loops, s.pool, r)
  {
    assert Running(s.pool) == {};
    forall l | l in s.pool
      ensures s.pool[l].phase.Finished?
    {
      assert l !in Running(s.pool);
    }
  }

  // ---- money -------------------------------------------------------------------------------

  /** The guarantees of the store hold through all of this. In every state of the engine each accepted bet
      was staked once and has been paid exactly what it is due: nothing while it is open, Payout(stake)
      once if it won, nothing if it lost, the stake once if its room closed with the round undecided. */
  lemma EngineRunsPayOnce(s: State, k: BetKey)
    requires Occurs(s) && k in s.db.bets
    ensures k.round in s.db.rounds && k.round.room in s.db.rooms && k.player in s.db.players
    ensures s.db.players[k.player] == Net(s.db.ledger, k.player) >= 0
    ensures s.db.bets[k].amount > 0
    ensures Amounts(s.db.ledger, Stake, k) == [s.db.bets[k].amount]
    ensures var round, paid, stake := s.db.rounds[k.round], Amounts(s.db.ledger, Payback, k), s.db.bets[k].amount;
            match round.status
            case Betting => paid == if Active(s.db, k.round.room) then [] else [stake]
            case Settled =>
              var win := OutcomeOf(round.die1, round.die2) == Success(s.db.bets[k].choice);
              && paid == (if win && Payout(stake) > 0 then [Payout(stake)] else [])
              && (win && stake <= MAX_EXACT_STAKE ==> paid == [ExactPayout(stake)])
  {
    StoreOccurs(s);
    EveryBetIsPaidOnce(s.db, k);
    BalancesReconcile(s.db, k.player);
  }

  // ---- exactly which faults leave a round unattended ---------------------------------------

  /** A loop that agreed with the store before a start disagrees after it exactly when the start was
      committed and its commit reported as an error. */
  lemma StartDisagreesIff(s: State, l: LoopId, w: Work, t: State)
    requires Occurs(s) && Execute(s, l, w, t) && s.calls[s.pool[l].phase.call].req.StartRound?
    requires s.pool[l].live <==> Live(s.db, s.pool[l].room)
    ensures var req := s.calls[s.pool[l].phase.call].req;
            (Minds(t.pool[l]) <==> Live(t.db, s.pool[l].room)) <==>
            !(w.fate == CommitsUnseen && StartTx(s.db, s.pool[l].room, req.player, s.now, w.env.window).Success?)
  {
    ServesItsRoom(s, l);
    var c := s.pool[l].phase.call;
    StartDisagreement(s.db, s.now, s.pool[l], c, s.calls[c].req, w);
  }

  lemma ServesItsRoom(s: State, l: LoopId)
    requires Occurs(s) && l in s.pool && s.pool[l].phase.Handling?
    ensures Reachable(s.db) && s.pool[l].phase.call in s.calls
    ensures Dispatched(s.calls[s.pool[l].phase.call].req) && s.calls[s.pool[l].phase.call].req.room == s.pool[l].room
  {
    OccurringStatesAreGood(s);
    assert Serves(s.pool[l].phase, s.pool[l].phase.call);
    assert CallOk(s.pool, s.pool[l].phase.call, s.calls[s.pool[l].phase.call]);
  }

  lemma StartDisagreement(db: DB, now: Time, loop: Loop, c: CallId, req: Request, w: Work)
    requires Reachable(db) && req.StartRound? && req.room == loop.room && Executes(db, now, req, w)
    requires loop.phase.Handling? && (loop.live <==> Live(db, loop.room))
    ensures (Minds(AfterCommand(loop, c, req, w.answer)) <==> Live(w.after, loop.room)) <==>
            !(w.fate == CommitsUnseen && StartTx(db, loop.room, req.player, now, w.env.window).Success?)
  {
    if StartTx(db, loop.room, req.player, now, w.env.window).Success? {
      ReachableStoresAreGood(db);
      StartMakesLive(db, loop.room, req.player, now, w.env.window);
    }
  }

  /** An abort leaves the round of its room behind exactly when it was rolled back or a refund did not
      fit into a balance. */
  lemma AbortLeavesRoundIff(s: State, l: LoopId, w: Work, t: State)
    requires Occurs(s) && Abort(s, l, w, t) && Live(s.db, s.pool[l].room)
    ensures Live(t.db, s.pool[l].room) <==> w.fate == RollsBack || !RefundsFit(s.db, s.pool[l].room)
  {
    StoreOccurs(s);
    AbortOutcome(s.db, s.pool[l].room, s.now, w);
  }

  lemma AbortOutcome(db: DB, r: Id, now: Time, w: Work)
    requires Reachable(db) && Live(db, r) && Executes(db, now, AbortRoom(r), w)
    ensures Live(w.after, r) <==> w.fate == RollsBack || !RefundsFit(db, r)
  {
    AbortOfLive(db, r, now, w.env.orders);
  }

  lemma AbortOfLive(db: DB, r: Id, now: Time, orders: map<int, seq<Id>>)
    requires Reachable(db) && Live(db, r) && OrdersOk(db, r, orders)
    ensures AbortTx(db, r, now, orders).Success? <==> RefundsFit(db, r)
    ensures AbortTx(db, r, now, orders).Success? ==> !Live(AbortTx(db, r, now, orders).value.db, r)
  {
    ReachableStoresAreGood(db);
    AbortIs(db, r, now, orders);
  }

  /** The surroundings of the example: time 0, a window of 15 seconds. */
  const PLAIN := Env(0, 15, Failure(EntropyFailed), [], map[])

  const ONE_PLAYER := DB(map[1 := 0], map[], map[], map[], [])
  const ONE_TABLE := DB(map[1 := 0], map[7 := NewRoom(7, 1, 0).row], map[], map[], [])

  lemma OwnerOpensATable() returns (states: seq<State>, events: seq<Event>)
    ensures Behaviour(states, events) && forall e :: e in events ==> !e.OnAbort? && !e.OnCrash? && !e.OnRecover?
    ensures states[|events|] == START.(booting := false, db := ONE_TABLE)
  {
    var s1 := START.(booting := false);
    OpeningWorks();
    var register := Work(PLAIN, Commits, ONE_PLAYER, Success(Registered));
    var create := Work(PLAIN, Commits, ONE_TABLE, Success(RoomCreated));
    states, events := More([START], [], OnServe, s1);
    states, events := FromOutside(states, events, Register(1), register);
    states, events := FromOutside(states, events, CreateRoomFor(7, 1), create);
  }

  /** A use case outside the engine. */
  lemma FromOutside(states: seq<State>, events: seq<Event>, req: Request, w: Work) returns (states': seq<State>, events': seq<Event>)
    requires Behaviour(states, events) && forall x :: x in events ==> !x.OnAbort? && !x.OnCrash? && !x.OnRecover?
    requires var s := states[|events|]; Outside(s, req, w, s.(db := w.after))
    ensures Behaviour(states', events') && states'[|events'|] == states[|events|].(db := w.after)
    ensures forall x :: x in events' ==> !x.OnAbort? && !x.OnCrash? && !x.OnRecover?
  {
    states', events' := More(states, events, OnOutside(req, w), states[|events|].(db := w.after));
  }

  lemma OpeningWorks()
    ensures Executes(EMPTY, 0, Register(1), Work(PLAIN, Commits, ONE_PLAYER, Success(Registered)))
    ensures Executes(ONE_PLAYER, 0, CreateRoomFor(7, 1), Work(PLAIN, Commits, ONE_TABLE, Success(RoomCreated)))
  {
  }

  /** A start arrives at a room without a loop and is received by a new one. */
  lemma StartArrives(s: State, c: CallId, l: LoopId, req: Request) returns (s1: State, s2: State, s3: State)
    requires !s.booting && !s.stopped && c !in s.calls && l !in s.pool && req.StartRound? && req.room !in s.loops
    ensures NewCall(s, c, req, s1) && LookUp(s1, c, l, s2) && Receive(s2, c, s3)
    ensures s3.db == s.db && s3.now == s.now && l in s3.pool && s3.pool[l] == NewLoop(req.room).(phase := Handling(c))
    ensures c in s3.calls && s3.calls[c] == Call(req, Waiting(l), None, Some(l), [], 0)
  {
    var call := Call(req, Looking, None, None, [], 0);
    s1 := SetCall(s, c, call);
    s2 := SetCall(SetLoop(s1, l, NewLoop(req.room)), c, call.(stage := Sending(l))).(loops := s.loops[req.room := l], wg := s.wg + 1);
    s3 := SetCall(SetLoop(s2, l, s2.pool[l].(phase := Handling(c))), c, s2.calls[c].(stage := Waiting(l), taken := Some(l)));
  }

  /** The start fails, and the loop returns to its select. */
  lemma StartIsAnswered(s: State, c: CallId, l: LoopId, req: Request, w: Work) returns (s1: State, s2: State)
    requires req.StartRound? && l in s.pool && s.pool[l] == NewLoop(req.room).(phase := Handling(c))
    requires c in s.calls && s.calls[c] == Call(req, Waiting(l), None, Some(l), [], 0)
    requires w.answer.Failure?
    ensures Executes(s.db, s.now, req, w) ==> Execute(s, l, w, s1)
    ensures SendReply(s1, l, s2) && At(s2, l, Head) && !s2.pool[l].live && s2.db == w.after
  {
    s1 := AfterExecute(s, l, c, w);
    s2 := SetCall(SetLoop(s1, l, s1.pool[l].(phase := Head)), c, s1.calls[c].(buffer := Some(w.answer), replies := 1));
  }

  /** Even without crashes and failed aborts a loop can sit idle while its room's round is live: the start
      of that round was committed, but its commit was reported as an error. */
  lemma UnseenStartGoesUnnoticed() returns (states: seq<State>, events: seq<Event>)
    ensures Behaviour(states, events) && forall e :: e in events ==> !e.OnAbort? && !e.OnCrash? && !e.OnRecover?
    ensures At(states[|events|], 0, Head) && !states[|events|].pool[0].live && Live(states[|events|].db, 7)
  {
    states, events := OwnerOpensATable();
    var s := states[|events|];
    BehaviourKeeps(states, events, |events|);
    var w := UnseenStart(s.db);
    var s1, s2, s3 := StartArrives(s, 0, 0, StartRound(7, 1));
    var s4, s5 := StartIsAnswered(s3, 0, 0, StartRound(7, 1), w);
    states, events := More(states, events, OnNewCall(0, StartRound(7, 1)), s1);
    states, events := More(states, events, OnLookUp(0, 0), s2);
    states, events := More(states, events, OnReceive(0), s3);
    states, events := More(states, events, OnExecute(0, w), s4);
    states, events := More(states, events, OnSendReply(0), s5);
  }

  lemma UnseenStart(db: DB) returns (w: Work)
    requires db == ONE_TABLE && Reachable(db)
    ensures Executes(db, 0, StartRound(7, 1), w) && w.answer.Failure? && Live(w.after, 7)
  {
    StartOfOpenTable(db);
    w := Work(PLAIN, CommitsUnseen, StartTx(db, 7, 1, 0, 15).value.db, Failure(Infrastructure));
  }

  lemma StartOfOpenTable(db: DB)
    requires db == ONE_TABLE && Reachable(db)
    ensures StartTx(db, 7, 1, 0, 15).Success? && Live(StartTx(db, 7, 1, 0, 15).value.db, 7)
  {
  }

  lemma More(states: seq<State>, events: seq<Event>, e: Event, t: State) returns (states': seq<State>, events': seq<Event>)
    requires Behaviour(states, events) && Next(states[|events|], e, t) && !e.OnAbort? && !e.OnCrash? && !e.OnRecover?
    requires forall x :: x in events ==> !x.OnAbort? && !x.OnCrash? && !x.OnRecover?
    ensures Behaviour(states', events') && states'[|events'|] == t
    ensures forall x :: x in events' ==> !x.OnAbort? && !x.OnCrash? && !x.OnRecover?
  {
    states', events' := states + [t], events + [e];
    forall i | 0 <= i < |events'|
      ensures Next(states'[i], events'[i], states'[i + 1])
    {
      if i < |events| { EarlierStep(states, events, e, t, i); }
    }
  }

  lemma EarlierStep(states: seq<State>, events: seq<Event>, e: Event, t: State, i: nat)
    requires Behaviour(states, events) && i < |events|
    ensures Next((states + [t])[i], (events + [e])[i], (states + [t])[i + 1])
  {
    assert (states + [t])[i] == states[i] && (events + [e])[i] == events[i] && (states + [t])[i + 1] == states[i + 1];
  }
}
