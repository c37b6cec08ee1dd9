/** Every step of the engine protocol keeps the invariant. */
module EngineSteps {
  import opened Types
  import opened Store
  import opened StoreInvariant
  import opened Transactions
  import opened Runs
  import opened LiveRounds
  import opened Protocol
  import opened EngineInvariant

  // ---- callers -----------------------------------------------------------------------------

  lemma NewCallKeeps(s: State, c: CallId, req: Request, t: State)
    requires EngineInv(s) && NewCall(s, c, req, t)
    ensures EngineInv(t)
  {
    SameRegistry(s, t);
    SameLiveKeepsLoops(s, t);
  }

  lemma CallerMoves(s: State, c: CallId, call: Call)
    requires EngineInv(s) && c in s.calls && call.taken == s.calls[c].taken && CallOk(s.pool, c, call)
    ensures EngineInv(SetCall(s, c, call))
  {
    var t := SetCall(s, c, call);
    SameRegistry(s, t);
    CallerKeepsCalls(s.pool, s.calls, c, call);
    SameLiveKeepsLoops(s, t);
  }

  lemma LookUpKeeps(s: State, c: CallId, spare: LoopId, t: State)
    requires EngineInv(s) && LookUp(s, c, spare, t)
    ensures EngineInv(t)
  {
    var call, r := s.calls[c], s.calls[c].req.room;
    assert CallOk(s.pool, c, call);
    if s.stopped {
      CallerMoves(s, c, call.(stage := Returned(Failure(EngineStopped))));
    } else if r in s.loops {
      CallerMoves(s, c, call.(stage := Sending(s.loops[r])));
    } else if !call.req.StartRound? {
      CallerMoves(s, c, WithoutLoop(call));
    } else {
      CreatingKeepsRegistry(s, t, spare, r);
      CreatingKeepsCalls(s, c, spare, t);
      CreatingKeepsLoops(s, c, spare, t);
    }
  }

  lemma CreatingKeepsCalls(s: State, c: CallId, l: LoopId, t: State)
    requires CallsOk(s.pool, s.calls) && LookUp(s, c, l, t)
    requires !s.stopped && s.calls[c].req.StartRound? && s.calls[c].req.room !in s.loops
    ensures CallsOk(t.pool, t.calls)
  {
  }

  lemma CreatingKeepsLoops(s: State, c: CallId, l: LoopId, t: State)
    requires LoopsOk(s) && NoneForgotten(s) && LookUp(s, c, l, t)
    requires !s.stopped && s.calls[c].req.StartRound? && s.calls[c].req.room !in s.loops
    ensures LoopsOk(t) && NoneForgotten(t)
  {
  }

  lemma ReceiveKeeps(s: State, c: CallId, t: State)
    requires EngineInv(s) && Receive(s, c, t)
    ensures EngineInv(t)
  {
    var l := s.calls[c].stage.loop;
    assert CallOk(s.pool, c, s.calls[c]);
    MovingKeepsRegistry(s, t, l);
    OtherCallsKept(s.pool, s.calls, t.pool, t.calls, l, c);
    assert LoopOk(s.db, s.now, s.pool[l]);
    OtherLoopsKept(s, t, l);
  }

  lemma SendSeesDoneKeeps(s: State, c: CallId, t: State)
    requires EngineInv(s) && SendSeesDone(s, c, t)
    ensures EngineInv(t)
  {
    assert CallOk(s.pool, c, s.calls[c]);
    CallerMoves(s, c, WithoutLoop(s.calls[c]));
  }

  lemma CancelKeeps(s: State, c: CallId, t: State)
    requires EngineInv(s) && Cancel(s, c, t)
    ensures EngineInv(t)
  {
    assert CallOk(s.pool, c, s.calls[c]);
    CallerMoves(s, c, s.calls[c].(stage := Returned(Failure(Cancelled))));
  }

  lemma TakeReplyKeeps(s: State, c: CallId, t: State)
    requires EngineInv(s) && TakeReply(s, c, t)
    ensures EngineInv(t)
  {
    assert CallOk(s.pool, c, s.calls[c]);
    CallerMoves(s, c, s.calls[c].(stage := Returned(s.calls[c].buffer.value), buffer := None));
  }

  /** A caller that sees done closed always finds the reply in the buffer. */
  lemma DoneMeansAnswered(s: State, c: CallId)
    requires EngineInv(s) && c in s.calls && s.calls[c].stage.Waiting?
    requires s.calls[c].stage.loop in s.pool && !InMap(s.pool[s.calls[c].stage.loop])
    ensures s.calls[c].buffer.Some? && s.calls[c].runs == [s.calls[c].buffer.value]
  {
  }

  lemma WaitSeesDoneKeeps(s: State, c: CallId, t: State)
    requires EngineInv(s) && WaitSeesDone(s, c, t)
    ensures EngineInv(t)
  {
    DoneMeansAnswered(s, c);
    assert CallOk(s.pool, c, s.calls[c]);
    CallerMoves(s, c, s.calls[c].(stage := Returned(s.calls[c].buffer.value), buffer := None));
  }

  lemma RunDirectKeeps(s: State, c: CallId, w: Work, t: State)
    requires EngineInv(s) && RunDirect(s, c, w, t)
    ensures EngineInv(t)
  {
    assert CallOk(s.pool, c, s.calls[c]);
    ExecutionIs(s.db, s.now, s.calls[c].req, w);
    var u := SetCall(s, c, s.calls[c].(stage := Returned(w.answer), runs := s.calls[c].runs + [w.answer]));
    CallerMoves(s, c, u.calls[c]);
    StoreMoves(u, t);
  }

  /** The store went on without any live round coming or going. */
  lemma StoreMoves(s: State, t: State)
    requires EngineInv(s) && t == s.(db := t.db) && Reachable(t.db) && forall r :: SameLive(s.db, t.db, r)
    ensures EngineInv(t)
  {
    SameRegistry(s, t);
    SameLiveKeepsLoops(s, t);
  }

  // ---- loops: commands ---------------------------------------------------------------------

  lemma ExecuteKeeps(s: State, l: LoopId, w: Work, t: State)
    requires EngineInv(s) && Execute(s, l, w, t)
    ensures EngineInv(t)
  {
    var c := s.pool[l].phase.call;
    assert CallOk(s.pool, c, s.calls[c]) && s.calls[c].taken == Some(l);
    ExecutionIs(s.db, s.now, s.calls[c].req, w);
    CommandKeeps(s, l, c, w);
  }

  lemma CommandKeeps(s: State, l: LoopId, c: CallId, w: Work)
    requires EngineInv(s) && At(s, l, Handling(c)) && c in s.calls && s.calls[c].taken == Some(l)
    requires Dispatched(s.calls[c].req) && s.calls[c].req.room == s.pool[l].room
    requires Reachable(w.after) && LiveEffect(s.db, s.calls[c].req, w)
    ensures EngineInv(AfterExecute(s, l, c, w))
  {
    var t := AfterExecute(s, l, c, w);
    MovingKeepsRegistry(s, t, l);
    assert CallOk(s.pool, c, s.calls[c]);
    OtherCallsKept(s.pool, s.calls, t.pool, t.calls, l, c);
    assert LoopOk(s.db, s.now, s.pool[l]);
    CommandKeepsLoop(s.db, s.now, s.pool[l], c, s.calls[c].req, w);
    CommandForgetsNothing(s, l, c, w);
    OtherLoopsKept(s, t, l);
  }

  lemma CommandKeepsLoop(db: DB, now: Time, loop: Loop, c: CallId, req: Request, w: Work)
    requires Steady(db, now, loop) && Dispatched(req) && req.room == loop.room && LiveEffect(db, req, w)
    ensures LoopOk(w.after, now, AfterCommand(loop, c, req, w.answer))
    ensures SameLiveExcept(db, w.after, loop.room)
  {
    if !req.StartRound? { assert SameLive(db, w.after, loop.room); }
  }

  lemma CommandForgetsNothing(s: State, l: LoopId, c: CallId, w: Work)
    requires MapOk(s.loops, s.pool) && NoneForgotten(s) && At(s, l, Handling(c)) && c in s.calls && Steady(s.db, s.now, s.pool[l])
    requires Dispatched(s.calls[c].req) && s.calls[c].req.room == s.pool[l].room && LiveEffect(s.db, s.calls[c].req, w)
    ensures var t := AfterExecute(s, l, c, w);
            Live(t.db, s.pool[l].room) ==> s.pool[l].room in t.unattended || Minded(t.loops, t.pool, s.pool[l].room)
  {
    var r := s.pool[l].room;
    var t := AfterExecute(s, l, c, w);
    assert s.loops[r] == l;
    if Live(t.db, r) && r !in t.unattended && !(s.calls[c].req.StartRound? && w.answer.Success?) {
      assert SameLive(s.db, t.db, r);
      assert Minded(s.loops, s.pool, r);
    }
  }

  lemma ArmKeeps(s: State, l: LoopId, t: State)
    requires EngineInv(s) && Arm(s, l, t)
    ensures EngineInv(t)
  {
    var c := s.pool[l].phase.call;
    assert Serves(s.pool[l].phase, c);
    assert CallOk(s.pool, c, s.calls[c]);
    MovingKeepsRegistry(s, t, l);
    OtherCallsKept(s.pool, s.calls, t.pool, t.calls, l, c);
    assert LoopOk(s.db, s.now, s.pool[l]);
    assert s.loops[s.pool[l].room] == l;
    OtherLoopsKept(s, t, l);
  }

  lemma SendReplyKeeps(s: State, l: LoopId, t: State)
    requires EngineInv(s) && SendReply(s, l, t)
    ensures EngineInv(t)
  {
    MovingKeepsRegistry(s, t, l);
    SendReplyKeepsCalls(s, l, t);
    assert LoopOk(s.db, s.now, s.pool[l]);
    assert s.loops[s.pool[l].room] == l;
    assert SameLive(s.db, t.db, s.pool[l].room);
    OtherLoopsKept(s, t, l);
  }

  lemma SendReplyKeepsCalls(s: State, l: LoopId, t: State)
    requires CallsOk(s.pool, s.calls) && SendReply(s, l, t)
    ensures CallsOk(t.pool, t.calls)
  {
    var c := s.pool[l].phase.call;
    assert Serves(s.pool[l].phase, c);
    assert CallOk(s.pool, c, s.calls[c]);
    OtherCallsKept(s.pool, s.calls, t.pool, t.calls, l, c);
  }

  // ---- loops: alarms, settlement, aborts, shutdown -----------------------------------------

  /** A loop that serves nobody moves on while in the map. */
  lemma IdleLoopMoves(s: State, t: State, l: LoopId)
    requires EngineInv(s) && Moves(s, t, l) && OnlyLoop(s, t, l) && t.calls == s.calls && Reachable(t.db)
    requires InMap(s.pool[l]) && forall c :: !Serves(s.pool[l].phase, c) && !Serves(t.pool[l].phase, c)
    requires LoopOk(t.db, t.now, t.pool[l])
    requires Live(t.db, s.pool[l].room) ==> s.pool[l].room in t.unattended || Minded(t.loops, t.pool, s.pool[l].room)
    ensures EngineInv(t)
  {
    MovingKeepsRegistry(s, t, l);
    IdleLoopKeepsCalls(s.pool, s.calls, l, t.pool[l]);
    OtherLoopsKept(s, t, l);
  }

  lemma AlarmKeeps(s: State, l: LoopId, t: State)
    requires EngineInv(s) && Alarm(s, l, t)
    ensures EngineInv(t)
  {
    assert LoopOk(s.db, s.now, s.pool[l]);
    assert s.loops[s.pool[l].room] == l;
    IdleLoopMoves(s, t, l);
  }

  lemma SettleStepKeeps(s: State, l: LoopId, w: Work, t: State)
    requires EngineInv(s) && Settle(s, l, w, t)
    ensures EngineInv(t)
  {
    ExecutionIs(s.db, s.now, SettleRound(s.pool[l].room), w);
    SettlementKeeps(s, l, w, t);
  }

  lemma SettlementKeeps(s: State, l: LoopId, w: Work, t: State)
    requires EngineInv(s) && At(s, l, Settling) && Reachable(w.after) && LiveEffect(s.db, SettleRound(s.pool[l].room), w)
    requires t == SetLoop(s, l, AfterSettlement(s.pool[l], w.answer)).(db := w.after)
    ensures EngineInv(t)
  {
    assert LoopOk(s.db, s.now, s.pool[l]);
    assert s.loops[s.pool[l].room] == l;
    IdleLoopMoves(s, t, l);
  }

  lemma AbortStepKeeps(s: State, l: LoopId, w: Work, t: State)
    requires EngineInv(s) && Abort(s, l, w, t)
    ensures EngineInv(t)
  {
    ExecutionIs(s.db, s.now, AbortRoom(s.pool[l].room), w);
    AbortingKeeps(s, l, w, t);
  }

  lemma AbortingKeeps(s: State, l: LoopId, w: Work, t: State)
    requires EngineInv(s) && At(s, l, Aborting) && Reachable(w.after) && LiveEffect(s.db, AbortRoom(s.pool[l].room), w)
    requires t == AfterAborting(s, l, w)
    ensures EngineInv(t)
  {
    IdleLoopMoves(s, t, l);
  }

  lemma QuitKeeps(s: State, l: LoopId, t: State)
    requires EngineInv(s) && Quit(s, l, t)
    ensures EngineInv(t)
  {
    assert s.loops[s.pool[l].room] == l;
    IdleLoopMoves(s, t, l);
  }

  /** A loop past its last use case moves on. */
  lemma LeavingKeeps(s: State, t: State, l: LoopId)
    requires EngineInv(s) && RegistryOk(t) && l in s.pool && l in t.pool && t.pool == s.pool[l := t.pool[l]]
    requires t.pool[l].room == s.pool[l].room && !Minds(s.pool[l])
    requires forall c :: !Serves(s.pool[l].phase, c) && !Serves(t.pool[l].phase, c)
    requires t.calls == s.calls && t.db == s.db && t.now == s.now && t.unattended == s.unattended
    requires forall r :: r in s.loops && s.loops[r] != l ==> r in t.loops && t.loops[r] == s.loops[r]
    requires LoopOk(t.db, t.now, t.pool[l])
    ensures EngineInv(t)
  {
    IdleLoopKeepsCalls(s.pool, s.calls, l, t.pool[l]);
    forall r | Live(t.db, r)
      ensures r in t.unattended || Minded(t.loops, t.pool, r)
    {
      assert r in s.unattended || Minded(s.loops, s.pool, r);
    }
    forall k | k in t.pool
      ensures LoopOk(t.db, t.now, t.pool[k])
    {
      if k != l { assert LoopOk(s.db, s.now, s.pool[k]); }
    }
  }

  lemma RemoveKeeps(s: State, l: LoopId, t: State)
    requires EngineInv(s) && Remove(s, l, t)
    ensures EngineInv(t)
  {
    RemovingKeepsRegistry(s, l, t);
    LeavingKeeps(s, t, l);
  }

  lemma CloseDoneKeeps(s: State, l: LoopId, t: State)
    requires EngineInv(s) && CloseDone(s, l, t)
    ensures EngineInv(t)
  {
    MovingKeepsRegistry(s, t, l);
    LeavingKeeps(s, t, l);
  }

  lemma WgDoneKeeps(s: State, l: LoopId, t: State)
    requires EngineInv(s) && WgDone(s, l, t)
    ensures EngineInv(t)
  {
    FinishingKeepsRegistry(s, l, t);
    LeavingKeeps(s, t, l);
  }

  // ---- shutdown, crashes, recovery ---------------------------------------------------------

  lemma ShutdownKeeps(s: State, t: State)
    requires EngineInv(s) && Shutdown(s, t)
    ensures EngineInv(t)
  {
  }

  lemma StopKeeps(s: State, l: LoopId, t: State)
    requires EngineInv(s) && Stop(s, l, t)
    ensures EngineInv(t)
  {
    StoppingKeepsRegistry(s, l, t);
    IdleLoopKeepsCalls(s.pool, s.calls, l, t.pool[l]);
    forall k | k in t.pool
      ensures LoopOk(t.db, t.now, t.pool[k])
    {
      assert LoopOk(s.db, s.now, s.pool[k]);
    }
    forall r | Live(t.db, r)
      ensures r in t.unattended || Minded(t.loops, t.pool, r)
    {
      assert r in s.unattended || Minded(s.loops, s.pool, r);
    }
  }

  lemma TickKeeps(s: State, to: Time, t: State)
    requires EngineInv(s) && Tick(s, to, t)
    ensures EngineInv(t)
  {
  }

  lemma OutsideKeeps(s: State, req: Request, w: Work, t: State)
    requires EngineInv(s) && Outside(s, req, w, t)
    ensures EngineInv(t)
  {
    ExecutionIs(s.db, s.now, req, w);
    StoreMoves(s, t);
  }

  lemma CrashKeeps(s: State, t: State)
    requires EngineInv(s) && Crash(s, t)
    ensures EngineInv(t)
  {
  }

  lemma ListRoomsKeeps(s: State, t: State)
    requires EngineInv(s) && ListRooms(s, t)
    ensures EngineInv(t)
  {
    SameRegistry(s, t);
    SameLiveKeepsLoops(s, t);
  }

  lemma RecoverKeeps(s: State, r: Id, w: Work, t: State)
    requires EngineInv(s) && Recover(s, r, w, t)
    ensures EngineInv(t)
  {
    ExecutionIs(s.db, s.now, AbortRoom(r), w);
    SameRegistry(s, t);
    RecoveryForgetsNothing(s, r, w, t);
  }

  lemma RecoveryForgetsNothing(s: State, r: Id, w: Work, t: State)
    requires NoneForgotten(s) && s.pool == map[] && LiveEffect(s.db, AbortRoom(r), w) && t.pool == map[] && t.loops == s.loops
    requires t.db == w.after && t.unattended == if AbortFailed(w.answer) then s.unattended else s.unattended - {r}
    ensures NoneForgotten(t) && LoopsOk(t)
  {
    forall x | Live(t.db, x)
      ensures x in t.unattended
    {
      if x != r { assert SameLive(s.db, t.db, x); }
      assert Live(s.db, x) ==> x in s.unattended;
    }
  }

  lemma ServeKeeps(s: State, t: State)
    requires EngineInv(s) && Serve(s, t)
    ensures EngineInv(t)
  {
  }
}
