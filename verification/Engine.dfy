/** The mutable state of internal/application/game/engine.go: one room's loop with its timer and live
    flag, and the registry of loops. Each method does to the fields what the protocol says of the
    corresponding step. */
module Engine {
  import opened Types
  import opened Store
  import opened Transactions
  import opened UseCases
  import opened Protocol

  /** What settle makes of the answer of the use case: it is closed after a settlement that closed the room, not
      closed when there was nothing to settle, and after any error but these and those of a room that is gone it
      aborts the room. */
  ghost predicate Concludes(room: Id, r: Result<Reply>, closed: bool, mid: DB, after: DB,
                            abortAt: Time, orders: map<int, seq<Id>>, abortFate: Fate, aborted: Result<Reply>) {
    match r
    case Success(reply) => reply.RoundSettled? && (closed <==> reply.roomClosed) && after == mid
    case Failure(e) =>
      && (closed <==> e != NoActiveRound && e != RoundAlreadySettled)
      && if e == NoActiveRound || e == RoundAlreadySettled || e == RoomClosed || e == RoomNotFound then after == mid
         else Ends(mid, AbortTx(mid, room, abortAt, orders), abortFate, after, aborted)
  }

  class RoomLoop {
    const room: Id
    ghost const id: LoopId
    var timer: Option<Time>
    var live: bool
    var quit: bool

    constructor (room: Id, ghost id: LoopId)
      ensures this.room == room && this.id == id && Model(Head) == NewLoop(room)
    {
      this.room, this.id := room, id;
      timer, live, quit := None, false, false;
    }

    ghost function Model(phase: Phase): Loop
      reads this
    {
      Loop(room, phase, timer, live, quit)
    }

    /** once.Do: closing quit a second time would panic. */
    method Stop()
      modifies this
      ensures quit && timer == old(timer) && live == old(live)
    {
      if !quit { quit := true; }
    }

    method Disarm()
      modifies this
      ensures forall phase :: Model(phase) == Disarmed(old(Model(phase)))
    {
      if timer.Some? { timer := None; }
    }

    method Arm(closesAt: Time, now: Time)
      modifies this
      ensures forall phase :: Model(phase) == Armed(old(Model(phase)), closesAt, now)
      ensures timer == Some(if closesAt > now then closesAt else now) && live
    {
      Disarm();
      var d := closesAt - now;
      if d < 0 { d := 0; }
      timer := Some(now + d);
      live := true;
    }

    /** handle: what it did to the store and to the loop, what it replied, and whether the loop exits.
        Time has gone on from now to armedAt when a started round is armed. */
    method Handle(service: Service, ghost c: CallId, cmd: Request, now: Time, armedAt: Time, window: int, fate: Fate)
      returns (reply: Result<Reply>, exit: bool)
      requires Dispatched(cmd)
      modifies this, service
      ensures forall env: Env :: env.now == now && env.window == window ==>
                Ends(old(service.db), Perform(old(service.db), cmd, env), fate, service.db, reply)
      ensures cmd.StartRound? && reply.Success? ==> reply.value.Started?
      ensures var handled := AfterCommand(old(Model(Handling(c))), c, cmd, reply);
              if handled.phase.Arming?
              then !exit && Model(Replying(c, reply, false)) == Armed(handled, reply.value.closesAt, armedAt).(phase := Replying(c, reply, false))
              else Model(Replying(c, reply, exit)) == handled
      ensures exit <==> cmd.CloseRoom? && reply.Success? && reply.value.RoomEnded? && reply.value.closed
      ensures if cmd.StartRound? && reply.Success?
              then live && timer == Some(if reply.value.closesAt > armedAt then reply.value.closesAt else armedAt)
              else live == old(live) && timer == old(timer)
    {
      match cmd {
        case StartRound(id, requester) =>
          reply := service.StartRound(id, requester, now, window, fate);
          if reply.Success? { Arm(reply.value.closesAt, armedAt); }
          exit := false;
        case PlaceBet(id, player, choice, amount) =>
          reply := service.PlaceBet(id, player, choice, amount, now, fate);
          exit := false;
        case CloseRoom(id, requester) =>
          reply := service.CloseRoom(id, requester, now, fate);
          exit := reply.Success? && reply.value.closed;
      }
    }

    /** settle, with the abort that follows a settlement that failed. mid is the store between the two. */
    method Settle(service: Service, roll: Result<(int, int)>, now: Time, fate: Fate, abortAt: Time, abortFate: Fate)
      returns (closed: bool, ghost order: seq<Id>, ghost mid: DB, ghost answer: Result<Reply>, ghost orders: map<int, seq<Id>>, ghost aborted: Result<Reply>)
      modifies this, service
      ensures Ends(old(service.db), SettleTx(old(service.db), room, roll, now, order), fate, mid, answer)
      ensures var settled := AfterSettlement(old(Model(Settling)), answer);
              if settled.phase.Aborting? then
                && closed && Model(Leaving) == AfterAbort(settled, aborted)
                && Ends(mid, AbortTx(mid, room, abortAt, orders), abortFate, service.db, aborted)
              else
                service.db == mid && Model(settled.phase) == settled && (closed <==> settled.phase.Leaving?)
      ensures !live && Concludes(room, answer, closed, mid, service.db, abortAt, orders, abortFate, aborted)
    {
      var r;
      r, order := service.SettleRound(room, roll, now, fate);
      mid, answer := service.db, r;
      live := false;
      closed, orders, aborted := Conclude(service, r, abortAt, abortFate);
    }

    /** What settle makes of the answer of the use case. */
    method Conclude(service: Service, r: Result<Reply>, abortAt: Time, abortFate: Fate)
      returns (closed: bool, ghost orders: map<int, seq<Id>>, ghost aborted: Result<Reply>)
      requires !live && (r.Success? ==> r.value.RoundSettled?)
      modifies this, service
      ensures var settled := AfterSettlement(old(Model(Settling)), r);
              if settled.phase.Aborting? then
                && closed && Model(Leaving) == AfterAbort(settled, aborted)
                && Ends(old(service.db), AbortTx(old(service.db), room, abortAt, orders), abortFate, service.db, aborted)
              else
                service.db == old(service.db) && Model(settled.phase) == settled && (closed <==> settled.phase.Leaving?)
      ensures !live && Concludes(room, r, closed, old(service.db), service.db, abortAt, orders, abortFate, aborted)
    {
      orders, aborted := map[], Failure(NoLoop);
      match r {
        case Failure(NoActiveRound) => closed := false;
        case Failure(RoundAlreadySettled) => closed := false;
        case Failure(RoomClosed) => closed := true;
        case Failure(RoomNotFound) => closed := true;
        case Failure(_) =>
          orders, aborted := Abort(service, abortAt, abortFate);
          closed := true;
        case Success(out) => closed := out.roomClosed;
      }
    }

    method Abort(service: Service, now: Time, fate: Fate) returns (ghost orders: map<int, seq<Id>>, ghost answer: Result<Reply>)
      modifies this, service
      ensures Ends(old(service.db), AbortTx(old(service.db), room, now, orders), fate, service.db, answer)
      ensures Model(Leaving) == AfterAbort(old(Model(Aborting)), answer)
      ensures live == (old(live) && answer.Failure?) && timer == old(timer)
    {
      var r;
      r, orders := service.AbortRoom(room, now, fate);
      answer := r;
      if r.Success? { live := false; }
    }
  }

  class Engine {
    var loops: map<Id, RoomLoop>
    var stopped: bool
    var wg: int
    /** Every loop this engine ever created. */
    ghost var all: map<LoopId, RoomLoop>

    ghost predicate Valid()
      reads this
    {
      && (forall r :: r in loops ==> loops[r].room == r && loops[r].id in all && all[loops[r].id] == loops[r])
      && (forall l :: l in all ==> all[l].id == l)
    }

    ghost function Ids(): map<Id, LoopId>
      reads this
    {
      map r | r in loops :: loops[r].id
    }

    constructor ()
      ensures Valid() && loops == map[] && !stopped && wg == 0 && all == map[]
    {
      loops, stopped, wg, all := map[], false, 0, map[];
    }

    method LoopFor(room: Id, create: bool, ghost spare: LoopId) returns (found: Result<RoomLoop>)
      requires Valid() && spare !in all
      modifies this
      ensures Valid() && stopped == old(stopped)
      ensures match Protocol.LoopFor(old(Ids()), stopped, room, create, spare)
              case Refused(e) => found == Failure(e) && loops == old(loops) && wg == old(wg) && all == old(all)
              case Existing(l) => found.Success? && found.value.id == l && loops == old(loops) && wg == old(wg) && all == old(all)
              case Created(l) =>
                && found.Success? && fresh(found.value) && found.value.id == l && found.value.Model(Head) == NewLoop(room)
                && Ids() == old(Ids())[room := l] && wg == old(wg) + 1 && all == old(all)[l := found.value]
    {
      if stopped { return Failure(EngineStopped); }
      if room in loops { return Success(loops[room]); }
      if !create { return Failure(NoLoop); }
      var l := new RoomLoop(room, spare);
      loops := loops[room := l];
      wg := wg + 1;
      all := all[spare := l];
      return Success(l);
    }

    method RemoveLoop(l: RoomLoop)
      requires Valid() && l.id in all && all[l.id] == l
      modifies this
      ensures Valid() && Ids() == Without(old(Ids()), l.room, l.id)
      ensures stopped == old(stopped) && wg == old(wg) && all == old(all)
    {
      if l.room in loops && loops[l.room] == l {
        loops := loops - {l.room};
      }
    }

    /** Shutdown up to the wait: refuse new loops, then stop every loop of the snapshot. The second call
        does nothing. */
    method Shutdown()
      requires Valid()
      modifies this, loops.Values
      ensures Valid() && stopped && loops == old(loops) && wg == old(wg) && all == old(all)
      ensures !old(stopped) ==> forall r :: r in loops ==> loops[r].quit
      ensures forall r :: r in loops ==> loops[r].timer == old(loops[r].timer) && loops[r].live == old(loops[r].live)
      ensures old(stopped) ==> forall r :: r in loops ==> loops[r].quit == old(loops[r].quit)
    {
      if stopped { return; }
      stopped := true;
      var rest := loops.Keys;
      while rest != {}
        invariant rest <= loops.Keys && stopped
        invariant loops == old(loops) && wg == old(wg) && all == old(all)
        invariant forall r :: r in loops ==> loops[r].timer == old(loops[r].timer) && loops[r].live == old(loops[r].live)
        invariant forall r :: r in loops && r !in rest ==> loops[r].quit
        decreases |rest|
      {
        var r: Id :| r in rest;
        loops[r].Stop();
        rest := rest - {r};
      }
    }
  }
}
