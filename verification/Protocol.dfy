/** The round engine as a protocol (internal/application/game/engine.go): the goroutines, channels,
    mutex and wait group as a state machine whose steps interleave in any order. Each use case is one
    step, in which it may commit, roll back, or commit with the acknowledgement lost. */
module Protocol {
  import opened Types
  import opened Store
  import opened StoreInvariant
  import opened Transactions
  import opened LiveRounds

  type LoopId = nat
  type CallId = nat

  // ---- one room's loop ---------------------------------------------------------------------

  /** Where the goroutine of a loop is. */
  datatype Phase =
    | Head                                                              // at the select of run
    | Handling(call: CallId)                                            // received, not yet executed
    | Arming(call: CallId, answer: Result<Reply>)                       // a round started, no alarm yet
    | Replying(call: CallId, answer: Result<Reply>, exit: bool)         // executed, reply not yet sent
    | Settling                                                          // alarm received and disarmed
    | Aborting                                                          // about to abort the room
    | Leaving                                                           // in the deferred function
    | Removed                                                           // past removeLoop
    | DoneClosed                                                        // past close(done)
    | Finished                                                          // past wg.Done

  /** The timer is the earliest time at which its alarm can fire. */
  datatype Loop = Loop(room: Id, phase: Phase, timer: Option<Time>, live: bool, quit: bool)

  predicate Serves(phase: Phase, c: CallId) {
    (phase.Handling? || phase.Arming? || phase.Replying?) && phase.call == c
  }

  /** Not yet past removeLoop. */
  predicate InMap(loop: Loop) {
    !loop.phase.Removed? && !loop.phase.DoneClosed? && !loop.phase.Finished?
  }

  /** The done channel is closed. */
  predicate IsDone(loop: Loop) {
    loop.phase.DoneClosed? || loop.phase.Finished?
  }

  function NewLoop(room: Id): Loop {
    Loop(room, Head, None, false, false)
  }

  /** A timer of d = max(closesAt - now, 0) set at now. */
  function Armed(loop: Loop, closesAt: Time, now: Time): Loop {
    loop.(timer := Some(if closesAt > now then closesAt else now), live := true)
  }

  function Disarmed(loop: Loop): Loop {
    loop.(timer := None)
  }

  predicate Ended(req: Request, answer: Result<Reply>) {
    req.CloseRoom? && answer.Success? && answer.value.RoomEnded? && answer.value.closed
  }

  /** handle, up to the point where it arms the timer or replies. */
  function AfterCommand(loop: Loop, c: CallId, req: Request, answer: Result<Reply>): Loop {
    loop.(phase := if req.StartRound? && answer.Success? then Arming(c, answer)
                   else Replying(c, answer, Ended(req, answer)))
  }

  /** settle: back to the select, out of the loop, or on to an abort. */
  function AfterSettlement(loop: Loop, answer: Result<Reply>): Loop {
    match answer
    case Success(reply) => loop.(live := false, phase := if reply.RoundSettled? && reply.roomClosed then Leaving else Head)
    case Failure(e) =>
      loop.(live := false,
            phase := if e == NoActiveRound || e == RoundAlreadySettled then Head
                     else if e == RoomClosed || e == RoomNotFound then Leaving
                     else Aborting)
  }

  function AfterAbort(loop: Loop, answer: Result<Reply>): Loop {
    loop.(live := if answer.Success? then false else loop.live, phase := Leaving)
  }

  // ---- one caller in dispatch --------------------------------------------------------------

  datatype Stage =
    | Looking                             // before loopFor
    | Sending(loop: LoopId)               // in the first select
    | Waiting(loop: LoopId)               // in the second select
    | Direct                              // got errNoLoop, about to run the use case itself
    | Returned(answer: Result<Reply>)

  /** buffer is the reply channel, of capacity one. The rest is history: which loop received the
      command, what every execution of it answered, and how many replies were sent. */
  datatype Call = Call(req: Request, stage: Stage, buffer: Option<Result<Reply>>,
                       taken: Option<LoopId>, runs: seq<Result<Reply>>, replies: nat)

  predicate Dispatched(req: Request) {
    req.StartRound? || req.PlaceBet? || req.CloseRoom?
  }

  /** What a caller makes of errNoLoop. */
  function WithoutLoop(call: Call): Call {
    call.(stage := if call.req.StartRound? then Returned(Failure(NoLoop)) else Direct)
  }

  // ---- the whole process -------------------------------------------------------------------

  /** stopping holds the loops that Shutdown has yet to stop. While the process boots, pending holds
      the rooms that its recovery pass has listed and not yet aborted, or nothing when it has no
      listing. unattended is history: the rooms that a crash, an abort that failed, or a start whose
      commit was reported as an error has left with a round that nobody times. */
  datatype State = State(db: DB, now: Time, loops: map<Id, LoopId>, pool: map<LoopId, Loop>,
                         stopped: bool, stopping: set<LoopId>, wg: int, calls: map<CallId, Call>,
                         unattended: set<Id>, booting: bool, pending: Option<set<Id>>)

  const START := State(EMPTY, 0, map[], map[], false, {}, 0, map[], {}, true, None)

  function SetLoop(s: State, l: LoopId, loop: Loop): State {
    s.(pool := s.pool[l := loop])
  }

  function SetCall(s: State, c: CallId, call: Call): State {
    s.(calls := s.calls[c := call])
  }

  predicate At(s: State, l: LoopId, phase: Phase) {
    l in s.pool && s.pool[l].phase == phase
  }

  // ---- steps of callers --------------------------------------------------------------------

  predicate NewCall(s: State, c: CallId, req: Request, t: State) {
    !s.booting && c !in s.calls && Dispatched(req) && t == SetCall(s, c, Call(req, Looking, None, None, [], 0))
  }

  datatype Finding = Refused(error: Error) | Existing(loop: LoopId) | Created(loop: LoopId)

  /** loopFor, under the mutex. */
  function LoopFor(loops: map<Id, LoopId>, stopped: bool, room: Id, create: bool, spare: LoopId): Finding {
    if stopped then Refused(EngineStopped)
    else if room in loops then Existing(loops[room])
    else if !create then Refused(NoLoop)
    else Created(spare)
  }

  predicate LookUp(s: State, c: CallId, spare: LoopId, t: State) {
    && !s.booting && c in s.calls && s.calls[c].stage == Looking && Dispatched(s.calls[c].req) && spare !in s.pool
    && var call := s.calls[c];
    t == match LoopFor(s.loops, s.stopped, call.req.room, call.req.StartRound?, spare)
         case Refused(e) => SetCall(s, c, if e == NoLoop then WithoutLoop(call) else call.(stage := Returned(Failure(e))))
         case Existing(l) => SetCall(s, c, call.(stage := Sending(l)))
         case Created(l) =>
           SetCall(SetLoop(s, l, NewLoop(call.req.room)), c, call.(stage := Sending(l)))
             .(loops := s.loops[call.req.room := l], wg := s.wg + 1)
  }

  /** The unbuffered send of the command meets the receive of the loop. */
  predicate Receive(s: State, c: CallId, t: State) {
    && c in s.calls && s.calls[c].stage.Sending?
    && var l := s.calls[c].stage.loop;
    && At(s, l, Head)
    && t == SetCall(SetLoop(s, l, s.pool[l].(phase := Handling(c))), c, s.calls[c].(stage := Waiting(l), taken := Some(l)))
  }

  predicate SendSeesDone(s: State, c: CallId, t: State) {
    && c in s.calls && s.calls[c].stage.Sending?
    && s.calls[c].stage.loop in s.pool && IsDone(s.pool[s.calls[c].stage.loop])
    && t == SetCall(s, c, WithoutLoop(s.calls[c]))
  }

  predicate Cancel(s: State, c: CallId, t: State) {
    && c in s.calls && (s.calls[c].stage.Sending? || s.calls[c].stage.Waiting?)
    && t == SetCall(s, c, s.calls[c].(stage := Returned(Failure(Cancelled))))
  }

  predicate TakeReply(s: State, c: CallId, t: State) {
    && c in s.calls && s.calls[c].stage.Waiting? && s.calls[c].buffer.Some?
    && t == SetCall(s, c, s.calls[c].(stage := Returned(s.calls[c].buffer.value), buffer := None))
  }

  /** The inner select of the done case: a buffered reply, or else errNoLoop. */
  predicate WaitSeesDone(s: State, c: CallId, t: State) {
    && c in s.calls && s.calls[c].stage.Waiting?
    && s.calls[c].stage.loop in s.pool && IsDone(s.pool[s.calls[c].stage.loop])
    && var call := s.calls[c];
    t == if call.buffer.Some? then SetCall(s, c, call.(stage := Returned(call.buffer.value), buffer := None))
         else SetCall(s, c, WithoutLoop(call))
  }

  ghost predicate RunDirect(s: State, c: CallId, w: Work, t: State) {
    && c in s.calls && s.calls[c].stage == Direct
    && Executes(s.db, s.now, s.calls[c].req, w)
    && t == SetCall(s, c, s.calls[c].(stage := Returned(w.answer), runs := s.calls[c].runs + [w.answer])).(db := w.after)
  }

  // ---- steps of loops ----------------------------------------------------------------------

  ghost predicate Execute(s: State, l: LoopId, w: Work, t: State) {
    && l in s.pool && s.pool[l].phase.Handling?
    && var c := s.pool[l].phase.call;
    && c in s.calls
    && Executes(s.db, s.now, s.calls[c].req, w)
    && t == AfterExecute(s, l, c, w)
  }

  /** A start that was reported as an error and yet changed the store. */
  predicate StartUnseen(db: DB, req: Request, w: Work) {
    req.StartRound? && w.answer.Failure? && w.after != db
  }

  function AfterExecute(s: State, l: LoopId, c: CallId, w: Work): State
    requires l in s.pool && c in s.calls
  {
    var call := s.calls[c];
    SetCall(SetLoop(s, l, AfterCommand(s.pool[l], c, call.req, w.answer)), c, call.(runs := call.runs + [w.answer]))
      .(db := w.after, unattended := s.unattended + if StartUnseen(s.db, call.req, w) then {call.req.room} else {})
  }

  predicate Arm(s: State, l: LoopId, t: State) {
    && l in s.pool && s.pool[l].phase.Arming?
    && var answer := s.pool[l].phase.answer;
    && answer.Success? && answer.value.Started?
    && t == SetLoop(s, l, Armed(s.pool[l], answer.value.closesAt, s.now).(phase := Replying(s.pool[l].phase.call, answer, false)))
  }

  /** A send on the reply channel blocks while the channel is full. */
  predicate SendReply(s: State, l: LoopId, t: State) {
    && l in s.pool && s.pool[l].phase.Replying?
    && var phase := s.pool[l].phase;
    && phase.call in s.calls && s.calls[phase.call].buffer.None?
    && var call := s.calls[phase.call];
    && t == SetCall(SetLoop(s, l, s.pool[l].(phase := if phase.exit then Leaving else Head)),
                    phase.call, call.(buffer := Some(phase.answer), replies := call.replies + 1))
  }

  predicate Alarm(s: State, l: LoopId, t: State) {
    && At(s, l, Head) && s.pool[l].timer.Some? && s.now >= s.pool[l].timer.value
    && t == SetLoop(s, l, Disarmed(s.pool[l]).(phase := Settling))
  }

  ghost predicate Settle(s: State, l: LoopId, w: Work, t: State) {
    && At(s, l, Settling) && Executes(s.db, s.now, SettleRound(s.pool[l].room), w)
    && t == SetLoop(s, l, AfterSettlement(s.pool[l], w.answer)).(db := w.after)
  }

  ghost predicate Abort(s: State, l: LoopId, w: Work, t: State) {
    && At(s, l, Aborting) && Executes(s.db, s.now, AbortRoom(s.pool[l].room), w)
    && t == AfterAborting(s, l, w)
  }

  predicate AbortFailed(answer: Result<Reply>) {
    answer.Failure? && answer.error != RoomClosed
  }

  function AfterAborting(s: State, l: LoopId, w: Work): State
    requires l in s.pool
  {
    SetLoop(s, l, AfterAbort(s.pool[l], w.answer))
      .(db := w.after, unattended := s.unattended + if AbortFailed(w.answer) then {s.pool[l].room} else {})
  }

  predicate Quit(s: State, l: LoopId, t: State) {
    && At(s, l, Head) && s.pool[l].quit
    && t == SetLoop(s, l, s.pool[l].(phase := if s.pool[l].live then Aborting else Leaving))
  }

  /** removeLoop, under the mutex: only the loop's own entry is deleted. */
  function Without(loops: map<Id, LoopId>, room: Id, l: LoopId): map<Id, LoopId> {
    if room in loops && loops[room] == l then loops - {room} else loops
  }

  predicate Remove(s: State, l: LoopId, t: State) {
    && At(s, l, Leaving)
    && t == SetLoop(s, l, Disarmed(s.pool[l]).(phase := Removed)).(loops := Without(s.loops, s.pool[l].room, l))
  }

  predicate CloseDone(s: State, l: LoopId, t: State) {
    At(s, l, Removed) && t == SetLoop(s, l, s.pool[l].(phase := DoneClosed))
  }

  predicate WgDone(s: State, l: LoopId, t: State) {
    At(s, l, DoneClosed) && t == SetLoop(s, l, s.pool[l].(phase := Finished)).(wg := s.wg - 1)
  }

  // ---- shutdown, crashes, recovery and everything else -------------------------------------

  /** The critical section of Shutdown. */
  predicate Shutdown(s: State, t: State) {
    !s.stopped && !s.booting && t == s.(stopped := true, stopping := s.loops.Values)
  }

  predicate Stop(s: State, l: LoopId, t: State) {
    l in s.stopping && l in s.pool && t == SetLoop(s, l, s.pool[l].(quit := true)).(stopping := s.stopping - {l})
  }

  predicate Tick(s: State, to: Time, t: State) {
    to >= s.now && t == s.(now := to)
  }

  /** Every other use case: wallet, registration, creating and joining rooms. */
  ghost predicate Outside(s: State, req: Request, w: Work, t: State) {
    && !s.booting && !Dispatched(req) && !req.SettleRound? && !req.AbortRoom?
    && Executes(s.db, s.now, req, w) && t == s.(db := w.after)
  }

  function LiveRooms(db: DB): set<Id> {
    set r | r in db.rooms && Live(db, r)
  }

  function ActiveRoomIds(db: DB): set<Id> {
    set r | r in db.rooms && Active(db, r)
  }

  /** The process is gone with everything it held in memory, and another one boots. */
  predicate Crash(s: State, t: State) {
    t == State(s.db, s.now, map[], map[], false, {}, 0, map[], LiveRooms(s.db), true, None)
  }

  /** The recovery pass lists every room that is not closed. */
  predicate ListRooms(s: State, t: State) {
    s.booting && s.pending.None? && t == s.(pending := Some(ActiveRoomIds(s.db)))
  }

  /** And aborts them one by one, going on after a failure. */
  ghost predicate Recover(s: State, r: Id, w: Work, t: State) {
    && s.booting && s.pending.Some? && r in s.pending.value
    && Executes(s.db, s.now, AbortRoom(r), w)
    && t == s.(db := w.after, pending := Some(s.pending.value - {r}),
               unattended := if AbortFailed(w.answer) then s.unattended else s.unattended - {r})
  }

  /** The process serves once every listed room has had its abort, or at once when the listing failed. */
  predicate Serve(s: State, t: State) {
    s.booting && (s.pending.None? || s.pending == Some({})) && t == s.(booting := false)
  }

  // ---- runs --------------------------------------------------------------------------------

  datatype Event =
    | OnNewCall(c: CallId, req: Request) | OnLookUp(c: CallId, spare: LoopId) | OnReceive(c: CallId)
    | OnSendSeesDone(c: CallId) | OnCancel(c: CallId) | OnTakeReply(c: CallId) | OnWaitSeesDone(c: CallId)
    | OnRunDirect(c: CallId, w: Work)
    | OnExecute(l: LoopId, w: Work) | OnArm(l: LoopId) | OnSendReply(l: LoopId) | OnAlarm(l: LoopId)
    | OnSettle(l: LoopId, w: Work) | OnAbort(l: LoopId, w: Work) | OnQuit(l: LoopId)
    | OnRemove(l: LoopId) | OnCloseDone(l: LoopId) | OnWgDone(l: LoopId)
    | OnShutdown | OnStop(l: LoopId) | OnTick(to: Time) | OnOutside(req: Request, w: Work)
    | OnCrash | OnListRooms | OnRecover(r: Id, w: Work) | OnServe

  ghost predicate Next(s: State, e: Event, t: State) {
    match e
    case OnNewCall(c, req) => NewCall(s, c, req, t)
    case OnLookUp(c, spare) => LookUp(s, c, spare, t)
    case OnReceive(c) => Receive(s, c, t)
    case OnSendSeesDone(c) => SendSeesDone(s, c, t)
    case OnCancel(c) => Cancel(s, c, t)
    case OnTakeReply(c) => TakeReply(s, c, t)
    case OnWaitSeesDone(c) => WaitSeesDone(s, c, t)
    case OnRunDirect(c, w) => RunDirect(s, c, w, t)
    case OnExecute(l, w) => Execute(s, l, w, t)
    case OnArm(l) => Arm(s, l, t)
    case OnSendReply(l) => SendReply(s, l, t)
    case OnAlarm(l) => Alarm(s, l, t)
    case OnSettle(l, w) => Settle(s, l, w, t)
    case OnAbort(l, w) => Abort(s, l, w, t)
    case OnQuit(l) => Quit(s, l, t)
    case OnRemove(l) => Remove(s, l, t)
    case OnCloseDone(l) => CloseDone(s, l, t)
    case OnWgDone(l) => WgDone(s, l, t)
    case OnShutdown => Shutdown(s, t)
    case OnStop(l) => Stop(s, l, t)
    case OnTick(to) => Tick(s, to, t)
    case OnOutside(req, w) => Outside(s, req, w, t)
    case OnCrash => Crash(s, t)
    case OnListRooms => ListRooms(s, t)
    case OnRecover(r, w) => Recover(s, r, w, t)
    case OnServe => Serve(s, t)
  }

  ghost predicate Behaviour(states: seq<State>, events: seq<Event>) {
    && |states| == |events| + 1 && states[0] == START
    && forall i :: 0 <= i < |events| ==> Next(states[i], events[i], states[i + 1])
  }

  ghost predicate Occurs(s: State) {
    exists states, events :: Behaviour(states, events) && states[|events|] == s
  }
}
