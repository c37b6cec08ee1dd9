/** What every reachable state of the engine protocol keeps, and that every step keeps it. */
module EngineInvariant {
  import opened Types
  import opened Store
  import opened StoreInvariant
  import opened Transactions
  import opened Runs
  import opened LiveRounds
  import opened Protocol

  // ---- the registry of loops ---------------------------------------------------------------

  /** The map holds exactly the loops that have not passed removeLoop, each under its own room. */
  ghost predicate MapOk(loops: map<Id, LoopId>, pool: map<LoopId, Loop>) {
    && (forall r :: r in loops ==> loops[r] in pool && pool[loops[r]].room == r && InMap(pool[loops[r]]))
    && (forall l :: l in pool && InMap(pool[l]) ==> pool[l].room in loops && loops[pool[l].room] == l)
  }

  function Running(pool: map<LoopId, Loop>): set<LoopId> {
    set l | l in pool && !pool[l].phase.Finished?
  }

  ghost predicate StopOk(s: State) {
    && (!s.stopped ==> s.stopping == {} && forall l :: l in s.pool ==> !s.pool[l].quit)
    && (s.stopped ==> forall l :: l in s.pool && InMap(s.pool[l]) ==> s.pool[l].quit || l in s.stopping)
    && (s.booting ==> s.pool == map[])
  }

  ghost predicate RegistryOk(s: State) {
    MapOk(s.loops, s.pool) && s.wg == |Running(s.pool)| && StopOk(s)
  }

  // ---- calls -------------------------------------------------------------------------------

  /** A caller the command of which no loop has received: nothing was executed except directly. */
  ghost predicate NotTaken(pool: map<LoopId, Loop>, call: Call)
    requires Dispatched(call.req)
  {
    && call.replies == 0 && call.buffer.None?
    && match call.stage
       case Looking => call.runs == []
       case Sending(l) => call.runs == [] && l in pool && pool[l].room == call.req.room
       case Waiting(_) => false
       case Direct => call.runs == [] && !call.req.StartRound?
       case Returned(a) =>
         || call.runs == [a]
         || (call.runs == [] && (a == Failure(EngineStopped) || a == Failure(Cancelled) || (a == Failure(NoLoop) && call.req.StartRound?)))
  }

  /** What has become of a command its loop received, as long as the loop is busy with it. */
  ghost predicate InHand(phase: Phase, call: Call) {
    && call.replies == 0 && call.buffer.None?
    && match phase
       case Handling(_) => call.runs == []
       case Arming(_, a) => call.runs == [a] && call.req.StartRound? && a.Success? && a.value.Started?
       case Replying(_, a, _) => call.runs == [a]
       case _ => false
  }

  /** And afterwards: executed once and answered once, the answer buffered until it is read. */
  ghost predicate Answered(call: Call) {
    && |call.runs| == 1 && call.replies == 1
    && if call.buffer.Some? then call.buffer.value == call.runs[0] else call.stage.Returned?
  }

  ghost predicate Taken(pool: map<LoopId, Loop>, c: CallId, call: Call, l: LoopId)
    requires Dispatched(call.req)
  {
    && l in pool && pool[l].room == call.req.room
    && (call.stage == Waiting(l) || call.stage.Returned?)
    && (call.stage.Returned? ==> call.stage.answer == Failure(Cancelled) || call.runs == [call.stage.answer])
    && if Serves(pool[l].phase, c) then InHand(pool[l].phase, call) else Answered(call)
  }

  ghost predicate CallOk(pool: map<LoopId, Loop>, c: CallId, call: Call) {
    && Dispatched(call.req)
    && match call.taken
       case None => NotTaken(pool, call)
       case Some(l) => Taken(pool, c, call, l)
  }

  ghost predicate CallsOk(pool: map<LoopId, Loop>, calls: map<CallId, Call>) {
    && (forall c :: c in calls ==> CallOk(pool, c, calls[c]))
    && (forall l, c :: l in pool && Serves(pool[l].phase, c) ==> c in calls && calls[c].taken == Some(l))
  }

  // ---- loops and the store -----------------------------------------------------------------

  /** The alarm is set for the closing time of the room's round, or for an instant since then. */
  ghost predicate OnTime(db: DB, now: Time, r: Id, alarm: Time) {
    Live(db, r) && ClosesAt(db, r) <= alarm && (alarm == ClosesAt(db, r) || alarm <= now)
  }

  /** Between two waits at the select, live, the timer and the store tell the same story. */
  ghost predicate Steady(db: DB, now: Time, loop: Loop) {
    && (loop.live <==> loop.timer.Some?)
    && (loop.live ==> OnTime(db, now, loop.room, loop.timer.value))
  }

  /** An answer after which the loop leaves: the room has closed. */
  predicate SaysClosed(a: Result<Reply>) {
    a.Success? && a.value.RoomEnded? && a.value.closed
  }

  ghost predicate LoopOk(db: DB, now: Time, loop: Loop) {
    match loop.phase
    case Head => Steady(db, now, loop)
    case Handling(_) => Steady(db, now, loop)
    case Replying(_, a, exit) => Steady(db, now, loop) && (exit ==> !loop.live) && (exit <==> SaysClosed(a)) && (a.Success? && a.value.Started? ==> loop.live)
    case Arming(_, a) =>
      && !loop.live && loop.timer.None? && Live(db, loop.room)
      && a.Success? && a.value.Started? && a.value.closesAt == ClosesAt(db, loop.room)
    case Settling => loop.live && loop.timer.None? && Live(db, loop.room) && ClosesAt(db, loop.room) <= now
    case _ => true
  }

  /** The loop will settle or abort its room's live round. */
  predicate Minds(loop: Loop) {
    ((loop.phase.Head? || loop.phase.Handling? || loop.phase.Replying?) && loop.live)
    || loop.phase.Arming? || loop.phase.Settling? || loop.phase.Aborting?
  }

  predicate Minded(loops: map<Id, LoopId>, pool: map<LoopId, Loop>, r: Id) {
    r in loops && loops[r] in pool && Minds(pool[loops[r]])
  }

  ghost predicate LoopsOk(s: State) {
    forall l :: l in s.pool ==> LoopOk(s.db, s.now, s.pool[l])
  }

  /** Every live round is minded by a loop, but for the rooms something has gone wrong with. */
  ghost predicate NoneForgotten(s: State) {
    forall r :: Live(s.db, r) ==> r in s.unattended || Minded(s.loops, s.pool, r)
  }

  ghost predicate EngineInv(s: State) {
    && Reachable(s.db) && RegistryOk(s) && CallsOk(s.pool, s.calls) && LoopsOk(s) && NoneForgotten(s)
    && (s.booting ==> s.calls == map[])
  }

  // ---- how the registry survives -----------------------------------------------------------

  /** Loop l moved on; nothing else about the loops changed. */
  ghost predicate Moves(s: State, t: State, l: LoopId) {
    && l in s.pool && l in t.pool && t.pool == s.pool[l := t.pool[l]] && t.pool[l].room == s.pool[l].room
    && (InMap(s.pool[l]) <==> InMap(t.pool[l])) && t.loops == s.loops
    && (s.pool[l].phase.Finished? <==> t.pool[l].phase.Finished?) && t.wg == s.wg
    && t.pool[l].quit == s.pool[l].quit && t.stopped == s.stopped && t.stopping == s.stopping && t.booting == s.booting
  }

  lemma MovingKeepsRegistry(s: State, t: State, l: LoopId)
    requires RegistryOk(s) && Moves(s, t, l)
    ensures RegistryOk(t)
  {
    assert Running(t.pool) == Running(s.pool);
  }

  lemma SameRegistry(s: State, t: State)
    requires RegistryOk(s) && t.loops == s.loops && t.pool == s.pool && t.wg == s.wg
    requires t.stopped == s.stopped && t.stopping == s.stopping && t.booting == s.booting
    ensures RegistryOk(t)
  {
  }

  lemma CreatingKeepsRegistry(s: State, t: State, l: LoopId, r: Id)
    requires RegistryOk(s) && l !in s.pool && r !in s.loops && !s.stopped && !s.booting
    requires t.pool == s.pool[l := NewLoop(r)] && t.loops == s.loops[r := l] && t.wg == s.wg + 1
    requires t.stopped == s.stopped && t.stopping == s.stopping && t.booting == s.booting
    ensures RegistryOk(t)
  {
    assert Running(t.pool) == Running(s.pool) + {l};
  }

  lemma RemovingKeepsRegistry(s: State, l: LoopId, t: State)
    requires RegistryOk(s) && Remove(s, l, t)
    ensures RegistryOk(t)
  {
    assert Running(t.pool) == Running(s.pool);
  }

  lemma FinishingKeepsRegistry(s: State, l: LoopId, t: State)
    requires RegistryOk(s) && WgDone(s, l, t)
    ensures RegistryOk(t)
  {
    assert Running(t.pool) == Running(s.pool) - {l};
    assert l in Running(s.pool);
  }

  lemma StoppingKeepsRegistry(s: State, l: LoopId, t: State)
    requires RegistryOk(s) && Stop(s, l, t)
    ensures RegistryOk(t)
  {
    assert Running(t.pool) == Running(s.pool);
  }

  // ---- how the calls survive ---------------------------------------------------------------

  /** Loop l stopped or went on serving at most call c, and no other loop or call changed. */
  lemma OtherCallsKept(pool: map<LoopId, Loop>, calls: map<CallId, Call>, pool': map<LoopId, Loop>, calls': map<CallId, Call>,
                       l: LoopId, c: CallId)
    requires CallsOk(pool, calls)
    requires l in pool && l in pool' && pool' == pool[l := pool'[l]] && pool'[l].room == pool[l].room
    requires forall x :: Serves(pool[l].phase, x) || Serves(pool'[l].phase, x) ==> x == c
    requires c in calls' && calls' == calls[c := calls'[c]] && CallOk(pool', c, calls'[c])
    requires Serves(pool'[l].phase, c) ==> calls'[c].taken == Some(l)
    requires c in calls ==> calls'[c].taken == calls[c].taken || calls[c].taken.None?
    ensures CallsOk(pool', calls')
  {
  }

  /** A loop that served nobody still serves nobody. */
  lemma IdleLoopKeepsCalls(pool: map<LoopId, Loop>, calls: map<CallId, Call>, l: LoopId, loop: Loop)
    requires CallsOk(pool, calls) && l in pool && loop.room == pool[l].room
    requires forall x :: Serves(pool[l].phase, x) <==> Serves(loop.phase, x)
    requires forall x :: Serves(loop.phase, x) ==> loop.phase == pool[l].phase
    ensures CallsOk(pool[l := loop], calls)
  {
  }

  /** Only the caller moved. */
  lemma CallerKeepsCalls(pool: map<LoopId, Loop>, calls: map<CallId, Call>, c: CallId, call: Call)
    requires CallsOk(pool, calls) && CallOk(pool, c, call)
    requires c in calls && call.taken == calls[c].taken
    ensures CallsOk(pool, calls[c := call])
  {
  }

  // ---- how the loops and the store agree ---------------------------------------------------

  lemma SameLiveKeepsLoop(before: DB, after: DB, now: Time, now': Time, loop: Loop)
    requires LoopOk(before, now, loop) && SameLive(before, after, loop.room) && now <= now'
    ensures LoopOk(after, now', loop)
  {
  }

  /** Everything but loop l of room r is as it was. */
  ghost predicate OnlyLoop(s: State, t: State, l: LoopId) {
    && l in s.pool && l in t.pool && t.pool == s.pool[l := t.pool[l]] && t.pool[l].room == s.pool[l].room
    && t.now == s.now && s.unattended <= t.unattended
    && SameLiveExcept(s.db, t.db, s.pool[l].room)
    && (forall r :: r != s.pool[l].room ==> (r in s.loops <==> r in t.loops) && (r in s.loops ==> t.loops[r] == s.loops[r]))
  }

  /** A loop past removeLoop asserts nothing, so only the registered loop of the room is concerned. */
  lemma OtherLoopsKept(s: State, t: State, l: LoopId)
    requires MapOk(s.loops, s.pool) && LoopsOk(s) && NoneForgotten(s)
    requires OnlyLoop(s, t, l) && InMap(s.pool[l])
    requires LoopOk(t.db, t.now, t.pool[l])
    requires Live(t.db, s.pool[l].room) ==> s.pool[l].room in t.unattended || Minded(t.loops, t.pool, s.pool[l].room)
    ensures LoopsOk(t) && NoneForgotten(t)
  {
    forall k | k in t.pool
      ensures LoopOk(t.db, t.now, t.pool[k])
    {
      if k != l && InMap(s.pool[k]) {
        assert s.pool[k].room != s.pool[l].room;
        SameLiveKeepsLoop(s.db, t.db, s.now, t.now, s.pool[k]);
      }
    }
    forall r | Live(t.db, r)
      ensures r in t.unattended || Minded(t.loops, t.pool, r)
    {
      if r != s.pool[l].room {
        assert SameLive(s.db, t.db, r);
        if r in s.loops { assert s.loops[r] != l; }
      }
    }
  }

  /** No loop moved and no live round came or went. */
  lemma SameLiveKeepsLoops(s: State, t: State)
    requires LoopsOk(s) && NoneForgotten(s) && t.pool == s.pool && t.loops == s.loops
    requires s.now <= t.now && s.unattended <= t.unattended && forall r :: SameLive(s.db, t.db, r)
    ensures LoopsOk(t) && NoneForgotten(t)
  {
    forall l | l in t.pool
      ensures LoopOk(t.db, t.now, t.pool[l])
    {
      SameLiveKeepsLoop(s.db, t.db, s.now, t.now, s.pool[l]);
    }
    forall r | Live(t.db, r)
      ensures r in t.unattended || Minded(t.loops, t.pool, r)
    {
      assert SameLive(s.db, t.db, r);
    }
  }
}
