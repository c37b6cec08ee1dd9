/** When a room's alarm is set for, what makes its loop leave, and what a stopped engine refuses, in terms of the
    store, the clock and the answers alone. */
module Loops {
  import opened Types
  import opened Store
  import opened StoreInvariant
  import opened Transactions
  import opened Answers
  import opened Runs
  import opened LiveRounds
  import opened Protocol
  import opened EngineInvariant
  import opened EngineSteps
  import opened EngineSafety

  // ---- alarms ------------------------------------------------------------------------------

  /** A started round is armed for its closing time, or for now if that has passed. */
  lemma ArmingIsExact(s: State, l: LoopId, t: State)
    requires Occurs(s) && Arm(s, l, t)
    ensures Live(s.db, s.pool[l].room) && t.pool[l].live
    ensures var closes := ClosesAt(s.db, s.pool[l].room); t.pool[l].timer == Some(if closes > s.now then closes else s.now)
  {
    OccurringStatesAreGood(s);
    assert LoopOk(s.db, s.now, s.pool[l]);
  }

  /** The alarm of loop l was set by an earlier arming, for the closing time of the round then live or, if that had
      passed, for the instant of arming. */
  ghost predicate SetByArming(states: seq<State>, events: seq<Event>, j: nat, l: LoopId, alarm: Time) {
    && j < |events| && j < |states| && events[j] == OnArm(l) && l in states[j].pool && Live(states[j].db, states[j].pool[l].room)
    && var closes, now := ClosesAt(states[j].db, states[j].pool[l].room), states[j].now;
       alarm == if closes > now then closes else now
  }

  /** A step either arms the loop or leaves it with the alarm that it had, or with none. */
  lemma TimersComeFromArming(s: State, e: Event, t: State, l: LoopId)
    requires Next(s, e, t) && l in t.pool && t.pool[l].timer.Some?
    ensures e == OnArm(l) || (l in s.pool && s.pool[l].timer == t.pool[l].timer)
  {
    if ByCaller(e) {
      CallersKeepTimers(s, e, t, l);
    } else if ByLoop(e) {
      LoopsKeepTimers(s, e, t, l);
    }
  }

  lemma CallersKeepTimers(s: State, e: Event, t: State, l: LoopId)
    requires Next(s, e, t) && ByCaller(e) && l in t.pool && t.pool[l].timer.Some?
    ensures l in s.pool && s.pool[l].timer == t.pool[l].timer
  {
  }

  lemma LoopsKeepTimers(s: State, e: Event, t: State, l: LoopId)
    requires Next(s, e, t) && ByLoop(e) && l in t.pool && t.pool[l].timer.Some?
    ensures e == OnArm(l) || (l in s.pool && s.pool[l].timer == t.pool[l].timer)
  {
    if e.OnExecute? || e.OnArm? || e.OnSendReply? {
      CommandsKeepTimers(s, e, t, l);
    } else {
      RoundsKeepTimers(s, e, t, l);
    }
  }

  lemma CommandsKeepTimers(s: State, e: Event, t: State, l: LoopId)
    requires Next(s, e, t) && (e.OnExecute? || e.OnArm? || e.OnSendReply?) && l in t.pool
    ensures e == OnArm(l) || (l in s.pool && s.pool[l].timer == t.pool[l].timer)
  {
  }

  lemma RoundsKeepTimers(s: State, e: Event, t: State, l: LoopId)
    requires Next(s, e, t) && ByLoop(e) && !e.OnExecute? && !e.OnArm? && !e.OnSendReply? && l in t.pool
    ensures t.pool[l].timer.Some? ==> l in s.pool && s.pool[l].timer == t.pool[l].timer
  {
  }

  ghost predicate TimerKept(states: seq<State>, events: seq<Event>, l: LoopId, i: nat) {
    && i < |events| && i + 1 < |states|
    && (l in states[i + 1].pool && states[i + 1].pool[l].timer.Some? ==>
          || SetByArming(states, events, i, l, states[i + 1].pool[l].timer.value)
          || (l in states[i].pool && states[i].pool[l].timer == states[i + 1].pool[l].timer))
  }

  lemma TimerStep(states: seq<State>, events: seq<Event>, l: LoopId, i: nat)
    requires Behaviour(states, events) && i < |events|
    ensures TimerKept(states, events, l, i)
  {
    assert Next(states[i], events[i], states[i + 1]);
    if l in states[i + 1].pool && states[i + 1].pool[l].timer.Some? {
      TimersComeFromArming(states[i], events[i], states[i + 1], l);
      if events[i] == OnArm(l) {
        PrefixOccurs(states, events, i);
        ArmingIsExact(states[i], l, states[i + 1]);
      }
    }
  }

  lemma {:induction false} TimersKept(states: seq<State>, events: seq<Event>, l: LoopId, n: nat)
    requires n < |states| && l !in states[0].pool && forall i :: 0 <= i < n ==> TimerKept(states, events, l, i)
    requires l in states[n].pool && states[n].pool[l].timer.Some?
    ensures exists j :: 0 <= j < n && SetByArming(states, events, j, l, states[n].pool[l].timer.value)
  {
    assert n > 0 && TimerKept(states, events, l, n - 1);
    if !SetByArming(states, events, n - 1, l, states[n].pool[l].timer.value) {
      TimersKept(states, events, l, n - 1);
    }
  }

  /** In every run, a timer that is set was set by an arming, for the closing time or the instant of arming. */
  lemma EveryAlarmWasArmed(states: seq<State>, events: seq<Event>, n: nat, l: LoopId)
    requires Behaviour(states, events) && n <= |events| && l in states[n].pool && states[n].pool[l].timer.Some?
    ensures exists j :: 0 <= j < n && SetByArming(states, events, j, l, states[n].pool[l].timer.value)
  {
    forall i | 0 <= i < n
      ensures TimerKept(states, events, l, i)
    {
      TimerStep(states, events, l, i);
    }
    TimersKept(states, events, l, n);
  }

  /** At the select of an attended room the alarm goes off exactly when the window of a live round is over. */
  lemma AlarmIsDueIff(s: State, l: LoopId)
    requires Occurs(s) && At(s, l, Head) && s.pool[l].room !in s.unattended
    ensures (exists t :: Alarm(s, l, t)) <==> Live(s.db, s.pool[l].room) && ClosesAt(s.db, s.pool[l].room) <= s.now
  {
    LoopHeadsAgree(s, l);
    if s.pool[l].timer.Some? && s.now >= s.pool[l].timer.value {
      assert Alarm(s, l, SetLoop(s, l, Disarmed(s.pool[l]).(phase := Settling)));
    }
  }

  // ---- where a command goes ----------------------------------------------------------------

  /** What becomes of a caller that looks for the loop of its room. */
  lemma LookingUpLeads(s: State, c: CallId, spare: LoopId, t: State)
    requires LookUp(s, c, spare, t)
    ensures var r, start, stage := s.calls[c].req.room, s.calls[c].req.StartRound?, t.calls[c].stage;
            && (s.stopped ==> stage == Returned(Failure(EngineStopped)))
            && (!s.stopped && r in s.loops ==> stage == Sending(s.loops[r]))
            && (!s.stopped && r !in s.loops && start ==> stage == Sending(spare) && r in t.loops && t.loops[r] == spare)
            && (!s.stopped && r !in s.loops && !start ==> stage == Direct && t.loops == s.loops && t.pool == s.pool)
  {
  }

  /** A caller that stops waiting without cancelling returns the answer of the one execution of its command,
      whether it took the reply from the channel or found it there when done was closed. */
  lemma WaitingEndsWithTheAnswer(s: State, c: CallId, t: State)
    requires Occurs(s) && (TakeReply(s, c, t) || WaitSeesDone(s, c, t))
    ensures |s.calls[c].runs| == 1 && t.calls[c].stage == Returned(s.calls[c].runs[0]) && t.calls[c].runs == s.calls[c].runs
  {
    OccurringStatesAreGood(s);
    assert CallOk(s.pool, c, s.calls[c]);
    if WaitSeesDone(s, c, t) { DoneMeansAnswered(s, c); }
  }

  /** A caller whose loop is done before it took the command is told so if it wants to start a round, and runs the
      use case itself if not. */
  lemma SendingEndsWithoutLoop(s: State, c: CallId, t: State)
    requires Occurs(s) && SendSeesDone(s, c, t)
    ensures s.calls[c].runs == [] && t.calls[c].runs == []
    ensures t.calls[c].stage == if s.calls[c].req.StartRound? then Returned(Failure(NoLoop)) else Direct
  {
    OccurringStatesAreGood(s);
    assert CallOk(s.pool, c, s.calls[c]);
  }

  /** Only a start makes a loop, for its own room, which has none, in an engine that has not stopped. */
  lemma OnlyStartsMakeLoops(s: State, e: Event, t: State, l: LoopId)
    requires Next(s, e, t) && l in t.pool && l !in s.pool
    ensures e.OnLookUp? && e.spare == l && e.c in s.calls && s.calls[e.c].req.StartRound?
    ensures !s.stopped && s.calls[e.c].req.room !in s.loops && t.pool[l].room == s.calls[e.c].req.room
  {
    if ByLoop(e) { LoopsMakeNoLoops(s, e, t, l); }
  }

  lemma LoopsMakeNoLoops(s: State, e: Event, t: State, l: LoopId)
    requires Next(s, e, t) && ByLoop(e)
    ensures l in t.pool ==> l in s.pool
  {
  }

  // ---- what makes a loop leave -------------------------------------------------------------

  /** After a command the loop leaves exactly if the command has closed the room. */
  lemma CommandLeavesIff(s: State, l: LoopId, w: Work, t: State)
    requires Occurs(s) && Execute(s, l, w, t)
    ensures t.pool[l].phase.Replying? ==>
              (t.pool[l].phase.exit <==> s.calls[s.pool[l].phase.call].req.CloseRoom? && w.answer.Success? && !Active(t.db, s.pool[l].room))
    ensures t.pool[l].phase.Arming? <==> s.calls[s.pool[l].phase.call].req.StartRound? && w.answer.Success?
  {
    ServesItsRoom(s, l);
    var req := s.calls[s.pool[l].phase.call].req;
    if req.CloseRoom? && w.answer.Success? { CloseExecution(s.db, s.now, req, w); }
  }

  lemma CloseExecution(db: DB, now: Time, req: Request, w: Work)
    requires Reachable(db) && req.CloseRoom? && Executes(db, now, req, w) && w.answer.Success?
    ensures w.answer.value.RoomEnded? && (w.answer.value.closed <==> !Active(w.after, req.room))
  {
    CloseAnswers(db, req.room, req.player, now);
  }

  /** Sending the reply, the loop of a room that the answer says has closed leaves, any other returns to the select. */
  lemma ReplyLeavesIff(s: State, l: LoopId, t: State)
    requires Occurs(s) && SendReply(s, l, t)
    ensures var answer := s.pool[l].phase.answer;
            t.pool[l].phase == if answer.Success? && answer.value.RoomEnded? && answer.value.closed then Leaving else Head
  {
    OccurringStatesAreGood(s);
    assert LoopOk(s.db, s.now, s.pool[l]);
  }

  /** A loop told to quit aborts its room only if a round is live, and then always in an attended room. */
  lemma QuittingAbortsIff(s: State, l: LoopId, t: State)
    requires Occurs(s) && Quit(s, l, t)
    ensures t.pool[l].phase == Aborting || t.pool[l].phase == Leaving
    ensures t.pool[l].phase == Aborting ==> Live(s.db, s.pool[l].room)
    ensures s.pool[l].room !in s.unattended && Live(s.db, s.pool[l].room) ==> t.pool[l].phase == Aborting
  {
    LiveMeansLive(s, l);
  }

  // ---- what a stopped engine refuses -------------------------------------------------------

  /** A caller that was told that the engine has stopped, without an execution. */
  predicate ToldStopped(s: State, c: CallId) {
    c in s.calls && s.calls[c].stage == Returned(Failure(EngineStopped)) && s.calls[c].runs == []
  }

  ghost predicate StoppedOnlyThen(s: State) {
    forall c :: ToldStopped(s, c) ==> s.stopped
  }

  lemma StepTellsStopped(s: State, e: Event, t: State)
    requires EngineInv(s) && Next(s, e, t) && StoppedOnlyThen(s)
    ensures StoppedOnlyThen(t)
  {
    forall c | ToldStopped(t, c)
      ensures t.stopped
    {
      if !ToldStopped(s, c) { FirstToldStopped(s, e, t, c); }
    }
  }

  lemma FirstToldStopped(s: State, e: Event, t: State, c: CallId)
    requires EngineInv(s) && Next(s, e, t) && ToldStopped(t, c) && !ToldStopped(s, c)
    ensures t.stopped
  {
    if ByCaller(e) {
      if c in s.calls {
        assert CallOk(s.pool, c, s.calls[c]);
        BufferedMeansRun(s.pool, c, s.calls[c]);
      }
      CallerToldStopped(s, e, t, c);
    } else if ByLoop(e) {
      LoopsTellNothing(s, e, t, c);
    }
  }

  lemma LoopsTellNothing(s: State, e: Event, t: State, c: CallId)
    requires Next(s, e, t) && ByLoop(e)
    ensures ToldStopped(t, c) ==> ToldStopped(s, c)
  {
  }

  lemma BufferedMeansRun(pool: map<LoopId, Loop>, c: CallId, call: Call)
    requires CallOk(pool, c, call)
    ensures call.buffer.Some? ==> call.runs != []
  {
  }

  lemma CallerToldStopped(s: State, e: Event, t: State, c: CallId)
    requires Next(s, e, t) && ByCaller(e) && ToldStopped(t, c) && !ToldStopped(s, c)
    requires c in s.calls && s.calls[c].buffer.Some? ==> s.calls[c].runs != []
    ensures t.stopped
  {
    if !e.OnLookUp? { OtherCallersAreNotTold(s, e, t, c); }
  }

  lemma OtherCallersAreNotTold(s: State, e: Event, t: State, c: CallId)
    requires Next(s, e, t) && ByCaller(e) && !e.OnLookUp?
    requires c in s.calls && s.calls[c].buffer.Some? ==> s.calls[c].runs != []
    ensures ToldStopped(t, c) ==> ToldStopped(s, c)
  {
  }

  ghost predicate ToldAt(states: seq<State>, i: nat) {
    i + 1 < |states| && (StoppedOnlyThen(states[i]) ==> StoppedOnlyThen(states[i + 1]))
  }

  lemma BehaviourTellsAt(states: seq<State>, events: seq<Event>, i: nat)
    requires Behaviour(states, events) && i < |events|
    ensures ToldAt(states, i)
  {
    BehaviourKeeps(states, events, i);
    assert Next(states[i], events[i], states[i + 1]);
    if StoppedOnlyThen(states[i]) { StepTellsStopped(states[i], events[i], states[i + 1]); }
  }

  lemma {:induction false} ToldAllAlong(states: seq<State>, n: nat)
    requires n < |states| && StoppedOnlyThen(states[0]) && forall i :: 0 <= i < n ==> ToldAt(states, i)
    ensures StoppedOnlyThen(states[n])
  {
    if n > 0 {
      ToldAllAlong(states, n - 1);
      assert ToldAt(states, n - 1);
    }
  }

  /** Only an engine that has stopped refuses a command unexecuted with that error. */
  lemma RefusedOnlyWhenStopped(s: State, c: CallId)
    requires Occurs(s) && c in s.calls && s.calls[c].stage == Returned(Failure(EngineStopped)) && s.calls[c].runs == []
    ensures s.stopped
  {
    var states, events :| Behaviour(states, events) && states[|events|] == s;
    forall i | 0 <= i < |events|
      ensures ToldAt(states, i)
    {
      BehaviourTellsAt(states, events, i);
    }
    ToldAllAlong(states, |events|);
    assert ToldStopped(s, c);
  }
}
