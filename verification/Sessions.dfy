/** Creates, joins and closes as they interleave: every Redis command and every transaction of
    internal/application/game/create_room.go, join_room.go and close_room.go is a step of its own. */
module Sessions {
  import opened Types
  import opened Game
  import opened Store
  import opened StoreInvariant
  import opened Transactions
  import opened Steps
  import opened Runs
  import opened LiveRounds
  import opened Lobby

  type CallId = nat

  datatype Stage =
    | Looking                   // bound to this room when the binding was read, about to look for the seat
    | Locking(bound: bool)      // about to try for the join lock; bound says what was read
    | Claiming(bound: bool)     // holding the lock, about to claim unless bound
    | Checking                  // the claim was refused, about to read the binding again
    | Joining(claimed: bool)    // about to run the transaction; claimed: the binding is this call's own
    | Undoing                   // the transaction failed, about to release the claim
    | Unlocking                 // done but for the lock

  /** A request that has begun: a join at some stage; a create that has claimed its binding and whose
      transaction has or has not failed; a close that has committed and still has members to release. */
  datatype Ongoing =
    | Joins(player: Id, room: Id, stage: Stage)
    | Creates(player: Id, room: Id, failed: bool)
    | Closes(room: Id, rest: set<Id>)

  datatype State = State(db: DB, bound: map<Id, Id>, locks: set<Id>, ongoing: map<CallId, Ongoing>)

  const START := State(EMPTY, map[], {}, map[])

  function To(s: State, c: CallId, call: Ongoing): State {
    s.(ongoing := s.ongoing[c := call])
  }

  function End(s: State, c: CallId): State {
    s.(ongoing := s.ongoing - {c})
  }

  predicate IsJoin(s: State, c: CallId) {
    c in s.ongoing && s.ongoing[c].Joins?
  }

  // ---- steps of a join ---------------------------------------------------------------------

  /** The binding is read. A player bound elsewhere is refused at once. */
  predicate BeginJoin(s: State, c: CallId, p: Id, r: Id, t: State) {
    && c !in s.ongoing
    && t == if p !in s.bound then To(s, c, Joins(p, r, Locking(false)))
            else if s.bound[p] == r then To(s, c, Joins(p, r, Looking))
            else s
  }

  /** GetByID: a missing room and an existing seat both end the call. */
  predicate Look(s: State, c: CallId, t: State) {
    && IsJoin(s, c) && s.ongoing[c].stage == Looking
    && var call := s.ongoing[c];
    t == if call.room in s.db.rooms && call.player !in s.db.rooms[call.room].seats then To(s, c, call.(stage := Locking(true))) else End(s, c)
  }

  predicate Lock(s: State, c: CallId, t: State) {
    && IsJoin(s, c) && s.ongoing[c].stage.Locking? && s.ongoing[c].room !in s.locks
    && var call := s.ongoing[c];
    t == To(s, c, call.(stage := Claiming(call.stage.bound))).(locks := s.locks + {call.room})
  }

  /** Four failed attempts at the lock. */
  predicate GiveUp(s: State, c: CallId, t: State) {
    IsJoin(s, c) && s.ongoing[c].stage.Locking? && t == End(s, c)
  }

  predicate Claim(s: State, c: CallId, t: State) {
    && IsJoin(s, c) && s.ongoing[c].stage.Claiming?
    && var call := s.ongoing[c];
    t == if call.stage.bound then To(s, c, call.(stage := Joining(false)))
         else if call.player in s.bound then To(s, c, call.(stage := Checking))
         else To(s, c, call.(stage := Joining(true))).(bound := s.bound[call.player := call.room])
  }

  predicate Check(s: State, c: CallId, t: State) {
    && IsJoin(s, c) && s.ongoing[c].stage == Checking
    && var call := s.ongoing[c];
    t == To(s, c, call.(stage := if call.player in s.bound && s.bound[call.player] == call.room then Joining(false) else Unlocking))
  }

  /** A transaction of a request: every commit is reported. */
  ghost predicate Transacts(db: DB, req: Request, w: Work) {
    Feasible(db, req, w.env) && w.fate != CommitsUnseen && Ends(db, Perform(db, req, w.env), w.fate, w.after, w.answer)
  }

  ghost predicate Join(s: State, c: CallId, w: Work, t: State) {
    && IsJoin(s, c) && s.ongoing[c].stage.Joining?
    && var call := s.ongoing[c];
    && Transacts(s.db, JoinRoom(call.room, call.player), w)
    && t == To(s, c, call.(stage := if w.answer.Failure? && call.stage.claimed then Undoing else Unlocking)).(db := w.after)
  }

  predicate Undo(s: State, c: CallId, t: State) {
    && IsJoin(s, c) && s.ongoing[c].stage == Undoing
    && t == To(s, c, s.ongoing[c].(stage := Unlocking)).(bound := s.bound - {s.ongoing[c].player})
  }

  predicate Unlock(s: State, c: CallId, t: State) {
    && IsJoin(s, c) && s.ongoing[c].stage == Unlocking
    && t == End(s, c).(locks := s.locks - {s.ongoing[c].room})
  }

  // ---- steps of creates, closes and everything else ----------------------------------------

  /** The room's id is new: no room and no request has it. */
  predicate BeginCreate(s: State, c: CallId, p: Id, r: Id, t: State) {
    && c !in s.ongoing && r !in s.db.rooms && (forall d :: d in s.ongoing ==> s.ongoing[d].room != r)
    && t == if p in s.bound then s else To(s, c, Creates(p, r, false)).(bound := s.bound[p := r])
  }

  ghost predicate Create(s: State, c: CallId, w: Work, t: State) {
    && c in s.ongoing && s.ongoing[c].Creates? && !s.ongoing[c].failed
    && var call := s.ongoing[c];
    && Transacts(s.db, CreateRoomFor(call.room, call.player), w)
    && t == (if w.answer.Failure? then To(s, c, call.(failed := true)) else End(s, c)).(db := w.after)
  }

  predicate Uncreate(s: State, c: CallId, t: State) {
    && c in s.ongoing && s.ongoing[c].Creates? && s.ongoing[c].failed
    && t == End(s, c).(bound := s.bound - {s.ongoing[c].player})
  }

  /** A settlement, close or abort. When it closes the room its members are to be released. */
  ghost predicate Close(s: State, c: CallId, req: Request, w: Work, t: State) {
    && c !in s.ongoing && (req.SettleRound? || req.CloseRoom? || req.AbortRoom?) && Transacts(s.db, req, w)
    && t == if w.answer.Success? && Active(s.db, req.room) && !Active(w.after, req.room)
            then To(s, c, Closes(req.room, s.db.rooms[req.room].seats.Keys)).(db := w.after)
            else s.(db := w.after)
  }

  predicate Release(s: State, c: CallId, p: Id, t: State) {
    && c in s.ongoing && s.ongoing[c].Closes? && p in s.ongoing[c].rest
    && t == To(s, c, s.ongoing[c].(rest := s.ongoing[c].rest - {p})).(bound := s.bound - {p})
  }

  predicate EndClose(s: State, c: CallId, t: State) {
    c in s.ongoing && s.ongoing[c] == Closes(s.ongoing[c].room, {}) && t == End(s, c)
  }

  ghost predicate Other(s: State, req: Request, w: Work, t: State) {
    && (req.Register? || req.DepositFunds? || req.WithdrawFunds? || req.PlaceBet? || req.StartRound?)
    && Transacts(s.db, req, w) && t == s.(db := w.after)
  }

  // ---- runs --------------------------------------------------------------------------------

  datatype Event =
    | OnBeginJoin(c: CallId, p: Id, r: Id) | OnLook(c: CallId) | OnLock(c: CallId) | OnGiveUp(c: CallId) | OnClaim(c: CallId)
    | OnCheck(c: CallId) | OnJoin(c: CallId, w: Work) | OnUndo(c: CallId) | OnUnlock(c: CallId)
    | OnBeginCreate(c: CallId, p: Id, r: Id) | OnCreate(c: CallId, w: Work) | OnUncreate(c: CallId)
    | OnClose(c: CallId, req: Request, w: Work) | OnRelease(c: CallId, p: Id) | OnEndClose(c: CallId)
    | OnOther(req: Request, w: Work)

  ghost predicate Next(s: State, e: Event, t: State) {
    match e
    case OnBeginJoin(c, p, r) => BeginJoin(s, c, p, r, t)
    case OnLook(c) => Look(s, c, t)
    case OnLock(c) => Lock(s, c, t)
    case OnGiveUp(c) => GiveUp(s, c, t)
    case OnClaim(c) => Claim(s, c, t)
    case OnCheck(c) => Check(s, c, t)
    case OnJoin(c, w) => Join(s, c, w, t)
    case OnUndo(c) => Undo(s, c, t)
    case OnUnlock(c) => Unlock(s, c, t)
    case OnBeginCreate(c, p, r) => BeginCreate(s, c, p, r, t)
    case OnCreate(c, w) => Create(s, c, w, t)
    case OnUncreate(c) => Uncreate(s, c, t)
    case OnClose(c, req, w) => Close(s, c, req, w, t)
    case OnRelease(c, p) => Release(s, c, p, t)
    case OnEndClose(c) => EndClose(s, c, t)
    case OnOther(req, w) => Other(s, req, w, t)
  }

  ghost predicate Interleaving(states: seq<State>, events: seq<Event>) {
    && |states| == |events| + 1 && states[0] == START
    && forall i :: 0 <= i < |events| ==> Next(states[i], events[i], states[i + 1])
  }

  // ---- why a player is bound ---------------------------------------------------------------

  /** The request holds p's binding to r: it has claimed and its transaction has not succeeded, or it has
      closed the room and not released p yet. */
  predicate Holds(call: Ongoing, p: Id, r: Id) {
    call.room == r && (Claims(call, p) || (call.Closes? && p in call.rest))
  }

  predicate Claims(call: Ongoing, p: Id) {
    match call
    case Joins(player, _, stage) => player == p && (stage == Joining(true) || stage == Undoing)
    case Creates(player, _, _) => player == p
    case Closes(_, _) => false
  }

  ghost predicate HeldBySome(s: State, p: Id, r: Id) {
    exists c :: c in s.ongoing && Holds(s.ongoing[c], p, r)
  }

  /** A player is bound to a room exactly when seated in it or held by a request. */
  ghost predicate BindingsOk(s: State) {
    forall p, r :: (p in s.bound && s.bound[p] == r) <==> Seated(s.db, r, p) || HeldBySome(s, p, r)
  }

  /** What a request that holds a binding, or has closed a room, can rely on. */
  ghost predicate CallOk(s: State, call: Ongoing) {
    match call
    case Joins(p, _, stage) => stage == Joining(true) || stage == Undoing ==> Unseated(s, p)
    case Creates(p, r, _) => Unseated(s, p) && r !in s.db.rooms
    case Closes(r, rest) => r in s.db.rooms && !Active(s.db, r) && rest <= s.db.rooms[r].seats.Keys
  }

  /** The player sits nowhere and no close is about to release the player. */
  ghost predicate Unseated(s: State, p: Id) {
    && (forall r :: !Seated(s.db, r, p))
    && (forall c :: c in s.ongoing && s.ongoing[c].Closes? ==> p !in s.ongoing[c].rest)
  }

  predicate HoldsAt(s: State, c: CallId, p: Id, r: Id) {
    c in s.ongoing && Holds(s.ongoing[c], p, r)
  }

  predicate ClaimsAt(s: State, c: CallId, p: Id) {
    c in s.ongoing && Claims(s.ongoing[c], p)
  }

  predicate IsClose(s: State, c: CallId) {
    c in s.ongoing && s.ongoing[c].Closes?
  }

  ghost predicate ClosedOnce(s: State) {
    forall c, d :: IsClose(s, c) && IsClose(s, d) && s.ongoing[c].room == s.ongoing[d].room ==> c == d
  }

  /** At most one join or create holds a player's binding. */
  ghost predicate OneClaim(s: State) {
    forall c, d, p :: ClaimsAt(s, c, p) && ClaimsAt(s, d, p) ==> c == d
  }

  ghost predicate CallsOk(s: State) {
    forall c :: c in s.ongoing ==> CallOk(s, s.ongoing[c])
  }

  ghost predicate SessionInv(s: State) {
    Reachable(s.db) && BindingsOk(s) && CallsOk(s) && ClosedOnce(s) && OneClaim(s)
  }

  // ---- locks and fresh rooms ---------------------------------------------------------------

  predicate HasLock(call: Ongoing) {
    call.Joins? && !call.stage.Looking? && !call.stage.Locking?
  }

  predicate HoldsLock(s: State, c: CallId) {
    c in s.ongoing && HasLock(s.ongoing[c])
  }

  /** At most one join per room is past the lock. */
  ghost predicate LocksOk(s: State) {
    && (forall c :: HoldsLock(s, c) ==> s.ongoing[c].room in s.locks)
    && (forall c, d :: HoldsLock(s, c) && HoldsLock(s, d) && s.ongoing[c].room == s.ongoing[d].room ==> c == d)
  }

  predicate IsCreate(s: State, c: CallId) {
    c in s.ongoing && s.ongoing[c].Creates?
  }

  /** Nobody else creates the room of a create. */
  ghost predicate FreshOk(s: State) {
    forall c, d :: IsCreate(s, c) && IsCreate(s, d) && s.ongoing[c].room == s.ongoing[d].room ==> c == d
  }

  /** Going on while holding the lock. */
  predicate Locks(e: Event) {
    e.OnClaim? || e.OnCheck? || e.OnJoin? || e.OnUndo?
  }

  lemma LocksAreKept(s: State, e: Event, t: State)
    requires LocksOk(s) && Next(s, e, t)
    ensures LocksOk(t)
  {
    if e.OnLock? {
      LockTaken(s, e, t);
    } else if e.OnUnlock? {
      LockGivenBack(s, e, t);
    } else if Locks(e) {
      LockedStepKeepsLocks(s, e, t);
    } else {
      LocklessStepKeepsLocks(s, e, t);
    }
  }

  lemma LocklessStepKeepsLocks(s: State, e: Event, t: State)
    requires LocksOk(s) && Next(s, e, t) && !e.OnLock? && !e.OnUnlock? && !Locks(e)
    ensures LocksOk(t)
  {
    assert t.locks == s.locks;
    forall c
      ensures HoldsLock(t, c) ==> HoldsLock(s, c) && t.ongoing[c] == s.ongoing[c]
    {
    }
  }

  lemma LockTaken(s: State, e: Event, t: State)
    requires LocksOk(s) && Next(s, e, t) && e.OnLock?
    ensures LocksOk(t)
  {
  }

  lemma LockGivenBack(s: State, e: Event, t: State)
    requires LocksOk(s) && Next(s, e, t) && e.OnUnlock?
    ensures LocksOk(t)
  {
  }

  lemma LockedStepKeepsLocks(s: State, e: Event, t: State)
    requires LocksOk(s) && Next(s, e, t) && Locks(e)
    ensures LocksOk(t)
  {
  }

  lemma FreshRoomsAreKept(s: State, e: Event, t: State)
    requires FreshOk(s) && Next(s, e, t)
    ensures FreshOk(t)
  {
  }

  // ---- what a transaction does to the seats ------------------------------------------------

  /** Rooms and seats are never taken away, and a closed room stays closed. */
  ghost predicate RowsGrow(before: DB, after: DB) {
    forall r :: r in before.rooms ==>
      && r in after.rooms && before.rooms[r].seats.Keys <= after.rooms[r].seats.Keys
      && (Active(after, r) ==> Active(before, r))
  }

  ghost predicate SameSeated(before: DB, after: DB) {
    forall r, p :: Seated(after, r, p) <==> Seated(before, r, p)
  }

  predicate SameRooms(before: DB, after: DB) {
    after.rooms.Keys == before.rooms.Keys
  }

  /** p took a seat in r and nothing else about seats changed. */
  ghost predicate OneMoreSeated(before: DB, after: DB, r: Id, p: Id) {
    forall x, q :: Seated(after, x, q) <==> Seated(before, x, q) || (x == r && q == p)
  }

  /** r closed and nothing else about seats changed. */
  ghost predicate RoomLeft(before: DB, after: DB, r: Id) {
    && !Active(after, r)
    && (forall x, q :: Seated(after, x, q) <==> Seated(before, x, q) && x != r)
  }

  lemma TransactionIs(db: DB, req: Request, w: Work)
    requires Reachable(db) && Transacts(db, req, w)
    ensures Reachable(w.after)
    ensures w.answer.Failure? ==> w.after == db
    ensures w.answer.Success? ==> Perform(db, req, w.env).Success? && w.after == Perform(db, req, w.env).value.db
  {
    ReachableStep(db, Step(req, w.env, w.fate), w.after);
  }

  lemma JoinSeats(db: DB, r: Id, p: Id, w: Work)
    requires Reachable(db) && Transacts(db, JoinRoom(r, p), w) && w.answer.Success?
    ensures RowsGrow(db, w.after) && SameRooms(db, w.after) && OneMoreSeated(db, w.after, r, p)
    ensures Active(db, r) || Seated(db, r, p)
  {
    TransactionIs(db, JoinRoom(r, p), w);
    JoinIs(db, r, p, w.env.now);
    if w.after == db { AlreadySeated(db, r, p, w.env.now); }
  }

  lemma AlreadySeated(db: DB, r: Id, p: Id, now: Time)
    requires JoinTx(db, r, p, now).Success? && JoinTx(db, r, p, now).value.db == db
    ensures Seated(db, r, p)
  {
    JoinIs(db, r, p, now);
  }

  lemma CreateSeats(db: DB, r: Id, p: Id, w: Work)
    requires Reachable(db) && Transacts(db, CreateRoomFor(r, p), w) && w.answer.Success?
    ensures RowsGrow(db, w.after) && w.after.rooms.Keys == db.rooms.Keys + {r} && OneMoreSeated(db, w.after, r, p)
  {
    TransactionIs(db, CreateRoomFor(r, p), w);
    CreateIs(db, r, p, w.env.now);
  }

  /** A settlement, close or abort either closes its room or touches no seat. */
  lemma CloseSeats(db: DB, req: Request, w: Work)
    requires Reachable(db) && Transacts(db, req, w) && (req.SettleRound? || req.CloseRoom? || req.AbortRoom?)
    ensures RowsGrow(db, w.after) && SameRooms(db, w.after)
    ensures if w.answer.Success? && Active(db, req.room) && !Active(w.after, req.room) then RoomLeft(db, w.after, req.room) else SameSeated(db, w.after)
  {
    TransactionIs(db, req, w);
    if w.answer.Success? {
      AggregateIsStored(db, req, w.env);
      RowReplaced(db, w.after, req.room, Aggregate(db, req, w.env).value.row);
    }
  }

  lemma RowReplaced(db: DB, after: DB, r: Id, row: RoomRow)
    requires Active(db, r) && row.seats == db.rooms[r].seats && after.rooms == db.rooms[r := row]
    ensures RowsGrow(db, after) && SameRooms(db, after)
    ensures if Active(after, r) then SameSeated(db, after) else RoomLeft(db, after, r)
  {
  }

  lemma OtherSeats(db: DB, req: Request, w: Work)
    requires Reachable(db) && Transacts(db, req, w)
    requires req.Register? || req.DepositFunds? || req.WithdrawFunds? || req.PlaceBet? || req.StartRound?
    ensures RowsGrow(db, w.after) && SameRooms(db, w.after) && SameSeated(db, w.after)
  {
    TransactionIs(db, req, w);
    if w.answer.Success? {
      if req.StartRound? {
        AggregateIsStored(db, req, w.env);
        RowReplaced(db, w.after, req.room, Aggregate(db, req, w.env).value.row);
      } else {
        ReachableStoresAreGood(db);
        RoomsStay(db, req, w.env);
      }
    }
  }

  // ---- every step keeps the invariant ------------------------------------------------------

  /** Between s and t call c moved, and no other. */
  ghost predicate OnlyCall(s: State, t: State, c: CallId) {
    forall d :: d != c ==> (d in s.ongoing <==> d in t.ongoing) && (d in s.ongoing ==> t.ongoing[d] == s.ongoing[d])
  }

  /** Claims that only go away leave at most one. */
  lemma FewerClaims(s: State, t: State)
    requires OneClaim(s) && forall c, p :: ClaimsAt(t, c, p) ==> ClaimsAt(s, c, p)
    ensures OneClaim(t)
  {
  }

  /** A call that holds the same as before, and that is not a close, moved. */
  lemma CallMoves(s: State, t: State, c: CallId)
    requires SessionInv(s) && OnlyCall(s, t, c) && t.db == s.db && t.bound == s.bound
    requires forall p, r :: HoldsAt(s, c, p, r) <==> HoldsAt(t, c, p, r)
    requires !IsClose(s, c) && !IsClose(t, c) && (c in t.ongoing ==> CallOk(t, t.ongoing[c]))
    ensures SessionInv(t)
  {
    forall d, q
      ensures ClaimsAt(t, d, q) ==> ClaimsAt(s, d, q)
    {
      assert d == c && ClaimsAt(t, d, q) ==> HoldsAt(t, c, q, t.ongoing[c].room) && HoldsAt(s, c, q, t.ongoing[c].room);
    }
    FewerClaims(s, t);
    forall p, r
      ensures HeldBySome(t, p, r) <==> HeldBySome(s, p, r)
    {
      SameHolders(s, t, c, p, r);
    }
    forall d | d in t.ongoing
      ensures CallOk(t, t.ongoing[d])
    {
      if d != c { assert CallOk(s, s.ongoing[d]); }
    }
  }

  lemma SameHolders(s: State, t: State, c: CallId, p: Id, r: Id)
    requires OnlyCall(s, t, c) && (HoldsAt(s, c, p, r) <==> HoldsAt(t, c, p, r))
    ensures HeldBySome(t, p, r) <==> HeldBySome(s, p, r)
  {
    if HeldBySome(s, p, r) {
      var d :| d in s.ongoing && Holds(s.ongoing[d], p, r);
      assert HoldsAt(s, d, p, r) && HoldsAt(t, d, p, r);
    }
    if HeldBySome(t, p, r) {
      var d :| d in t.ongoing && Holds(t.ongoing[d], p, r);
      assert HoldsAt(t, d, p, r) && HoldsAt(s, d, p, r);
    }
  }

  /** A player without a binding is bound, for a call that now holds the binding. */
  lemma ClaimKeeps(s: State, t: State, c: CallId, p: Id, r: Id)
    requires SessionInv(s) && OnlyCall(s, t, c) && t.db == s.db && p !in s.bound && t.bound == s.bound[p := r]
    requires c in t.ongoing && (t.ongoing[c] == Joins(p, r, Joining(true)) || t.ongoing[c] == Creates(p, r, false))
    requires c in s.ongoing ==> s.ongoing[c].Joins? && s.ongoing[c].stage.Claiming?
    requires t.ongoing[c].Creates? ==> r !in s.db.rooms
    ensures SessionInv(t)
  {
    forall q, x
      ensures (q in t.bound && t.bound[q] == x) <==> Seated(t.db, x, q) || HeldBySome(t, q, x)
    {
      ClaimedHolders(s, t, c, p, r, q, x);
      assert (q in s.bound && s.bound[q] == x) <==> Seated(s.db, x, q) || HeldBySome(s, q, x);
    }
    UnboundIsUnseated(s, p);
    forall d | d in t.ongoing
      ensures CallOk(t, t.ongoing[d])
    {
      if d != c { assert CallOk(s, s.ongoing[d]); }
    }
    UnboundIsUnclaimed(s, p);
    OneMoreClaim(s, t, c, p);
  }

  lemma OneMoreClaim(s: State, t: State, c: CallId, p: Id)
    requires OneClaim(s) && OnlyCall(s, t, c) && (forall d :: !ClaimsAt(s, d, p))
    requires forall q :: ClaimsAt(t, c, q) ==> q == p
    ensures OneClaim(t)
  {
    forall d, q
      ensures ClaimsAt(t, d, q) ==> ClaimsAt(s, d, q) || (d == c && q == p)
    {
    }
  }

  lemma UnboundIsUnclaimed(s: State, p: Id)
    requires BindingsOk(s) && p !in s.bound
    ensures forall d :: !ClaimsAt(s, d, p)
  {
    forall d
      ensures !ClaimsAt(s, d, p)
    {
      assert ClaimsAt(s, d, p) ==> Holds(s.ongoing[d], p, s.ongoing[d].room) && HeldBySome(s, p, s.ongoing[d].room);
    }
  }

  lemma ClaimedHolders(s: State, t: State, c: CallId, p: Id, r: Id, q: Id, x: Id)
    requires OnlyCall(s, t, c) && c in t.ongoing && !HoldsAt(s, c, q, x)
    requires Holds(t.ongoing[c], q, x) <==> q == p && x == r
    ensures HeldBySome(t, q, x) <==> HeldBySome(s, q, x) || (q == p && x == r)
  {
    if HeldBySome(s, q, x) {
      var d :| d in s.ongoing && Holds(s.ongoing[d], q, x);
      assert HoldsAt(s, d, q, x) && HoldsAt(t, d, q, x);
    }
    if HeldBySome(t, q, x) {
      var d :| d in t.ongoing && Holds(t.ongoing[d], q, x);
      assert HoldsAt(t, d, q, x) && (d != c ==> HoldsAt(s, d, q, x));
    }
  }

  lemma UnboundIsUnseated(s: State, p: Id)
    requires BindingsOk(s) && p !in s.bound
    ensures Unseated(s, p)
  {
    forall r
      ensures !Seated(s.db, r, p)
    {
    }
    forall c | c in s.ongoing && s.ongoing[c].Closes?
      ensures p !in s.ongoing[c].rest
    {
      assert p in s.ongoing[c].rest ==> Holds(s.ongoing[c], p, s.ongoing[c].room);
      assert p in s.ongoing[c].rest ==> HeldBySome(s, p, s.ongoing[c].room);
    }
  }

  /** A call that held a binding, and whose player sits nowhere, releases it. */
  lemma GiveBackKeeps(s: State, t: State, c: CallId, p: Id)
    requires SessionInv(s) && OnlyCall(s, t, c) && t.db == s.db && t.bound == s.bound - {p}
    requires c in s.ongoing && Claims(s.ongoing[c], p) && Unseated(s, p) && !IsClose(t, c)
    requires forall q, r :: !HoldsAt(t, c, q, r)
    requires c in t.ongoing ==> CallOk(t, t.ongoing[c])
    ensures SessionInv(t)
  {
    forall d, q
      ensures ClaimsAt(t, d, q) ==> ClaimsAt(s, d, q)
    {
      assert d == c && ClaimsAt(t, d, q) ==> HoldsAt(t, c, q, t.ongoing[c].room);
    }
    FewerClaims(s, t);
    forall q, x
      ensures (q in t.bound && t.bound[q] == x) <==> Seated(t.db, x, q) || HeldBySome(t, q, x)
    {
      GivenBackHolders(s, t, c, p, q, x);
      assert (q in s.bound && s.bound[q] == x) <==> Seated(s.db, x, q) || HeldBySome(s, q, x);
    }
    forall d | d in t.ongoing
      ensures CallOk(t, t.ongoing[d])
    {
      if d != c { assert CallOk(s, s.ongoing[d]); }
    }
  }

  lemma GivenBackHolders(s: State, t: State, c: CallId, p: Id, q: Id, x: Id)
    requires OneClaim(s) && OnlyCall(s, t, c) && c in s.ongoing && Claims(s.ongoing[c], p) && Unseated(s, p)
    requires !HoldsAt(t, c, q, x)
    ensures HeldBySome(t, q, x) <==> HeldBySome(s, q, x) && q != p
  {
    if HeldBySome(s, q, x) && q != p {
      var d :| d in s.ongoing && Holds(s.ongoing[d], q, x);
      assert d != c && HoldsAt(t, d, q, x);
    }
    if HeldBySome(t, q, x) {
      var d :| d in t.ongoing && Holds(t.ongoing[d], q, x);
      assert HoldsAt(t, d, q, x) && d != c && HoldsAt(s, d, q, x);
      assert q == p ==> ClaimsAt(s, c, p) && ClaimsAt(s, d, p);
    }
  }

  /** The transaction of a call that holds a binding seats its player. */
  lemma CommitKeeps(s: State, t: State, c: CallId, p: Id, r: Id)
    requires SessionInv(s) && OnlyCall(s, t, c) && t.bound == s.bound && Reachable(t.db)
    requires c in s.ongoing && Claims(s.ongoing[c], p) && s.ongoing[c].room == r
    requires RowsGrow(s.db, t.db) && NoneCreated(s, t, c) && OneMoreSeated(s.db, t.db, r, p)
    requires (forall q, x :: !HoldsAt(t, c, q, x)) && !IsClose(t, c) && (c in t.ongoing ==> CallOk(t, t.ongoing[c]))
    ensures SessionInv(t)
  {
    forall d, q
      ensures ClaimsAt(t, d, q) ==> ClaimsAt(s, d, q)
    {
      assert d == c && ClaimsAt(t, d, q) ==> HoldsAt(t, c, q, t.ongoing[c].room);
    }
    FewerClaims(s, t);
    forall q, x
      ensures (q in t.bound && t.bound[q] == x) <==> Seated(t.db, x, q) || HeldBySome(t, q, x)
    {
      SeatedInstead(s, t, c, p, r, q, x);
      assert (q in s.bound && s.bound[q] == x) <==> Seated(s.db, x, q) || HeldBySome(s, q, x);
    }
    OthersAreFine(s, t, c, p, r);
  }

  lemma SeatedInstead(s: State, t: State, c: CallId, p: Id, r: Id, q: Id, x: Id)
    requires OnlyCall(s, t, c) && c in s.ongoing && Claims(s.ongoing[c], p) && s.ongoing[c].room == r && !HoldsAt(t, c, q, x)
    ensures HeldBySome(s, q, x) || (q == p && x == r) <==> HeldBySome(t, q, x) || (q == p && x == r)
  {
    if HeldBySome(s, q, x) && !(q == p && x == r) {
      var d :| d in s.ongoing && Holds(s.ongoing[d], q, x);
      assert d != c && HoldsAt(t, d, q, x);
    }
    if HeldBySome(t, q, x) {
      var d :| d in t.ongoing && Holds(t.ongoing[d], q, x);
      assert HoldsAt(t, d, q, x) && HoldsAt(s, d, q, x);
    }
  }

  /** No room appeared that another call is about to create. */
  ghost predicate NoneCreated(s: State, t: State, c: CallId) {
    forall d :: d != c && d in s.ongoing && s.ongoing[d].Creates? && s.ongoing[d].room !in s.db.rooms ==> s.ongoing[d].room !in t.db.rooms
  }

  /** The other calls hold nothing of this player. */
  lemma OthersAreFine(s: State, t: State, c: CallId, p: Id, r: Id)
    requires CallsOk(s) && OneClaim(s) && OnlyCall(s, t, c) && c in s.ongoing && Claims(s.ongoing[c], p) && s.ongoing[c].room == r
    requires t.bound == s.bound && NoneCreated(s, t, c)
    requires RowsGrow(s.db, t.db) && !IsClose(t, c) && (c in t.ongoing ==> CallOk(t, t.ongoing[c]))
    requires forall x, q :: Seated(t.db, x, q) ==> Seated(s.db, x, q) || q == p
    ensures CallsOk(t)
  {
    forall d | d in t.ongoing
      ensures CallOk(t, t.ongoing[d])
    {
      if d != c {
        assert CallOk(s, s.ongoing[d]);
        assert ClaimsAt(s, c, p) && !ClaimsAt(s, d, p);
      }
    }
  }

  /** Nobody's seat changed. */
  lemma StoreKeeps(s: State, t: State)
    requires SessionInv(s) && t == s.(db := t.db) && Reachable(t.db) && RowsGrow(s.db, t.db) && SameRooms(s.db, t.db) && SameSeated(s.db, t.db)
    ensures SessionInv(t)
  {
    forall d, q
      ensures ClaimsAt(t, d, q) ==> ClaimsAt(s, d, q)
    {
    }
    FewerClaims(s, t);
    forall q, x
      ensures (q in t.bound && t.bound[q] == x) <==> Seated(t.db, x, q) || HeldBySome(t, q, x)
    {
      assert HeldBySome(t, q, x) <==> HeldBySome(s, q, x);
      assert (q in s.bound && s.bound[q] == x) <==> Seated(s.db, x, q) || HeldBySome(s, q, x);
    }
    forall d | d in t.ongoing
      ensures CallOk(t, t.ongoing[d])
    {
      assert CallOk(s, s.ongoing[d]);
    }
  }

  /** A room closed, and its members are now bound because they are to be released. */
  lemma RoomClosedKeeps(s: State, t: State, c: CallId, r: Id)
    requires SessionInv(s) && c !in s.ongoing && Active(s.db, r) && Reachable(t.db)
    requires RowsGrow(s.db, t.db) && SameRooms(s.db, t.db) && RoomLeft(s.db, t.db, r)
    requires t == To(s, c, Closes(r, s.db.rooms[r].seats.Keys)).(db := t.db)
    ensures SessionInv(t)
  {
    forall d, q
      ensures ClaimsAt(t, d, q) ==> ClaimsAt(s, d, q)
    {
    }
    FewerClaims(s, t);
    var members := s.db.rooms[r].seats.Keys;
    forall q, x
      ensures (q in t.bound && t.bound[q] == x) <==> Seated(t.db, x, q) || HeldBySome(t, q, x)
    {
      ClosingHolders(s, t, c, r, q, x);
      assert (q in s.bound && s.bound[q] == x) <==> Seated(s.db, x, q) || HeldBySome(s, q, x);
      assert Seated(s.db, r, q) <==> q in members;
    }
    forall d | d in t.ongoing
      ensures CallOk(t, t.ongoing[d])
    {
      if d != c {
        assert CallOk(s, s.ongoing[d]);
        assert forall q :: q in members ==> Seated(s.db, r, q);
      }
    }
  }

  lemma ClosingHolders(s: State, t: State, c: CallId, r: Id, q: Id, x: Id)
    requires OnlyCall(s, t, c) && c !in s.ongoing && c in t.ongoing && t.ongoing[c].Closes? && t.ongoing[c].room == r
    ensures HeldBySome(t, q, x) <==> HeldBySome(s, q, x) || (x == r && q in t.ongoing[c].rest)
  {
    if HeldBySome(s, q, x) {
      var d :| d in s.ongoing && Holds(s.ongoing[d], q, x);
      assert HoldsAt(t, d, q, x);
    }
    if HeldBySome(t, q, x) {
      var d :| d in t.ongoing && Holds(t.ongoing[d], q, x);
      assert HoldsAt(t, d, q, x) && (d != c ==> HoldsAt(s, d, q, x));
    }
    if x == r && q in t.ongoing[c].rest { assert Holds(t.ongoing[c], q, x); }
  }

  /** One member of a closed room is released. */
  lemma ReleaseKeeps(s: State, c: CallId, p: Id, t: State)
    requires SessionInv(s) && Release(s, c, p, t)
    ensures SessionInv(t)
  {
    forall d, q
      ensures ClaimsAt(t, d, q) ==> ClaimsAt(s, d, q)
    {
    }
    FewerClaims(s, t);
    var r := s.ongoing[c].room;
    assert CallOk(s, s.ongoing[c]);
    assert Holds(s.ongoing[c], p, r) && HeldBySome(s, p, r);
    forall q, x
      ensures (q in t.bound && t.bound[q] == x) <==> Seated(t.db, x, q) || HeldBySome(t, q, x)
    {
      ReleasedHolders(s, c, p, t, q, x);
      assert (q in s.bound && s.bound[q] == x) <==> Seated(s.db, x, q) || HeldBySome(s, q, x);
    }
    forall d | d in t.ongoing
      ensures CallOk(t, t.ongoing[d])
    {
      assert CallOk(s, s.ongoing[d]);
    }
  }

  /** Nobody else holds the binding of a player whom a close is to release. */
  lemma ReleasedHolders(s: State, c: CallId, p: Id, t: State, q: Id, x: Id)
    requires SessionInv(s) && Release(s, c, p, t)
    ensures HeldBySome(t, q, x) <==> HeldBySome(s, q, x) && q != p
  {
    if HeldBySome(s, q, x) && q != p {
      var d :| d in s.ongoing && Holds(s.ongoing[d], q, x);
      assert HoldsAt(t, d, q, x);
    }
    if HeldBySome(t, q, x) {
      var d :| d in t.ongoing && Holds(t.ongoing[d], q, x);
      assert Holds(s.ongoing[d], q, x) && HeldBySome(s, q, x);
      assert Holds(s.ongoing[c], p, s.ongoing[c].room) && HeldBySome(s, p, s.ongoing[c].room);
      assert CallOk(s, s.ongoing[d]);
    }
  }

  /** A join whose player is bound to its room when it commits, whether it claimed or not. */
  lemma JoinKeeps(s: State, c: CallId, w: Work, t: State)
    requires SessionInv(s) && LocksOk(s) && Join(s, c, w, t)
    requires w.answer.Success? ==> BoundTo(s, s.ongoing[c])
    ensures SessionInv(t)
  {
    var call := s.ongoing[c];
    assert CallOk(s, call);
    TransactionIs(s.db, JoinRoom(call.room, call.player), w);
    if w.answer.Failure? {
      CallMoves(s, t, c);
    } else {
      JoinSeats(s.db, call.room, call.player, w);
      if call.stage.claimed {
        CommitKeeps(s, t, c, call.player, call.room);
      } else {
        BoundWithoutClaimIsSeated(s, c);
        var u := s.(db := w.after);
        StoreKeeps(s, u);
        CallMoves(u, t, c);
      }
    }
  }

  predicate BoundTo(s: State, call: Ongoing) {
    call.Joins? && call.player in s.bound && s.bound[call.player] == call.room
  }

  /** A join past the lock that holds no claim, of a player bound to its room: the player is seated there, or
      the room does not take players. Nobody else can hold that binding, because of the lock. */
  lemma BoundWithoutClaimIsSeated(s: State, c: CallId)
    requires SessionInv(s) && LocksOk(s) && IsJoin(s, c) && s.ongoing[c].stage == Joining(false) && BoundTo(s, s.ongoing[c])
    ensures Seated(s.db, s.ongoing[c].room, s.ongoing[c].player) || !Active(s.db, s.ongoing[c].room)
  {
    var p, r := s.ongoing[c].player, s.ongoing[c].room;
    if !Seated(s.db, r, p) {
      assert HeldBySome(s, p, r);
      var d :| d in s.ongoing && Holds(s.ongoing[d], p, r);
      assert CallOk(s, s.ongoing[d]);
    }
  }

  lemma CreateKeeps(s: State, c: CallId, w: Work, t: State)
    requires SessionInv(s) && FreshOk(s) && Create(s, c, w, t)
    ensures SessionInv(t)
  {
    var call := s.ongoing[c];
    assert CallOk(s, call);
    TransactionIs(s.db, CreateRoomFor(call.room, call.player), w);
    if w.answer.Failure? {
      CallMoves(s, t, c);
    } else {
      CreateSeats(s.db, call.room, call.player, w);
      CommitKeeps(s, t, c, call.player, call.room);
    }
  }

  lemma CloseKeeps(s: State, c: CallId, req: Request, w: Work, t: State)
    requires SessionInv(s) && Close(s, c, req, w, t)
    ensures SessionInv(t)
  {
    TransactionIs(s.db, req, w);
    CloseSeats(s.db, req, w);
    if w.answer.Success? && Active(s.db, req.room) && !Active(w.after, req.room) {
      RoomClosedKeeps(s, t, c, req.room);
    } else {
      StoreKeeps(s, t);
    }
  }

  lemma OtherKeeps(s: State, req: Request, w: Work, t: State)
    requires SessionInv(s) && Other(s, req, w, t)
    ensures SessionInv(t)
  {
    TransactionIs(s.db, req, w);
    OtherSeats(s.db, req, w);
    StoreKeeps(s, t);
  }

  lemma ClaimStepKeeps(s: State, c: CallId, t: State)
    requires SessionInv(s) && Claim(s, c, t)
    ensures SessionInv(t)
  {
    var call := s.ongoing[c];
    if !call.stage.bound && call.player !in s.bound {
      ClaimKeeps(s, t, c, call.player, call.room);
    } else {
      CallMoves(s, t, c);
    }
  }

  lemma UndoKeeps(s: State, c: CallId, t: State)
    requires SessionInv(s) && Undo(s, c, t)
    ensures SessionInv(t)
  {
    assert CallOk(s, s.ongoing[c]);
    GiveBackKeeps(s, t, c, s.ongoing[c].player);
  }

  lemma UncreateKeeps(s: State, c: CallId, t: State)
    requires SessionInv(s) && Uncreate(s, c, t)
    ensures SessionInv(t)
  {
    assert CallOk(s, s.ongoing[c]);
    GiveBackKeeps(s, t, c, s.ongoing[c].player);
  }

  lemma BeginCreateKeeps(s: State, c: CallId, p: Id, r: Id, t: State)
    requires SessionInv(s) && BeginCreate(s, c, p, r, t)
    ensures SessionInv(t)
  {
    if p !in s.bound { ClaimKeeps(s, t, c, p, r); }
  }

  lemma EndCloseKeeps(s: State, c: CallId, t: State)
    requires SessionInv(s) && EndClose(s, c, t)
    ensures SessionInv(t)
  {
    forall d, q
      ensures ClaimsAt(t, d, q) ==> ClaimsAt(s, d, q)
    {
    }
    FewerClaims(s, t);
    forall p, r
      ensures HeldBySome(t, p, r) <==> HeldBySome(s, p, r)
    {
      SameHolders(s, t, c, p, r);
    }
    forall d | d in t.ongoing
      ensures CallOk(t, t.ongoing[d])
    {
      assert CallOk(s, s.ongoing[d]);
    }
  }

  /** The steps of a join that leave bindings and store alone. */
  lemma LocalStepKeeps(s: State, e: Event, t: State)
    requires SessionInv(s) && Next(s, e, t)
    requires e.OnBeginJoin? || e.OnLook? || e.OnLock? || e.OnGiveUp? || e.OnCheck? || e.OnUnlock?
    ensures SessionInv(t)
  {
    if t != s { CallMoves(s, t, e.c); }
  }

  /** The one step that can seat a player without a binding: a join commits while its player is not bound
      to its room. */
  ghost predicate SeatsUnbound(s: State, e: Event) {
    e.OnJoin? && IsJoin(s, e.c) && e.w.answer.Success? && !BoundTo(s, s.ongoing[e.c])
  }

  ghost predicate GoodState(s: State) {
    SessionInv(s) && LocksOk(s) && FreshOk(s)
  }

  /** Every other step keeps each binding explained by a seat or by the request that holds it. */
  lemma NextKeeps(s: State, e: Event, t: State)
    requires GoodState(s) && Next(s, e, t) && !SeatsUnbound(s, e)
    ensures GoodState(t)
  {
    LocksAreKept(s, e, t);
    FreshRoomsAreKept(s, e, t);
    match e
    case OnClaim(c) => ClaimStepKeeps(s, c, t);
    case OnJoin(c, w) => JoinKeeps(s, c, w, t);
    case OnUndo(c) => UndoKeeps(s, c, t);
    case OnBeginCreate(c, p, r) => BeginCreateKeeps(s, c, p, r, t);
    case OnCreate(c, w) => CreateKeeps(s, c, w, t);
    case OnUncreate(c) => UncreateKeeps(s, c, t);
    case OnClose(c, req, w) => CloseKeeps(s, c, req, w, t);
    case OnRelease(c, p) => ReleaseKeeps(s, c, p, t);
    case OnEndClose(c) => EndCloseKeeps(s, c, t);
    case OnOther(req, w) => OtherKeeps(s, req, w, t);
    case _ => LocalStepKeeps(s, e, t);
  }

  lemma StartIsGood()
    ensures GoodState(START)
  {
    assert Run([EMPTY], []) && [EMPTY][0] == EMPTY;
    assert Reachable(EMPTY);
  }

  ghost predicate GoodAt(states: seq<State>, i: nat) {
    i + 1 < |states| && (GoodState(states[i]) ==> GoodState(states[i + 1]))
  }

  lemma InterleavingIsGoodAt(states: seq<State>, events: seq<Event>, i: nat)
    requires Interleaving(states, events) && i < |events| && !SeatsUnbound(states[i], events[i])
    ensures GoodAt(states, i)
  {
    assert Next(states[i], events[i], states[i + 1]);
    if GoodState(states[i]) { NextKeeps(states[i], events[i], states[i + 1]); }
  }

  lemma {:induction false} GoodAllAlong(states: seq<State>, n: nat)
    requires n < |states| && GoodState(states[0]) && forall i :: 0 <= i < n ==> GoodAt(states, i)
    ensures GoodState(states[n])
  {
    if n > 0 {
      GoodAllAlong(states, n - 1);
      assert GoodAt(states, n - 1);
    }
  }

  lemma InterleavingKeeps(states: seq<State>, events: seq<Event>, n: nat)
    requires Interleaving(states, events) && n <= |events| && forall i :: 0 <= i < n ==> !SeatsUnbound(states[i], events[i])
    ensures GoodState(states[n])
  {
    StartIsGood();
    forall i | 0 <= i < n
      ensures GoodAt(states, i)
    {
      InterleavingIsGoodAt(states, events, i);
    }
    GoodAllAlong(states, n);
  }

  // ---- exactly when every seated player is bound -------------------------------------------

  ghost predicate SeatedAreBound(s: State) {
    forall p, r :: Seated(s.db, r, p) ==> p in s.bound && s.bound[p] == r
  }

  /** However requests interleave, several of one player included: every seated player is bound all along if
      and only if every join that committed had its player bound to its room at that moment. While no request
      is going on, the bindings are then exactly the seats. */
  lemma SeatedPlayersAreBoundIff(states: seq<State>, events: seq<Event>, n: nat)
    requires Interleaving(states, events) && n <= |events|
    ensures (forall i :: 0 <= i <= n ==> SeatedAreBound(states[i])) <==> (forall i :: 0 <= i < n ==> !SeatsUnbound(states[i], events[i]))
    ensures (forall i :: 0 <= i < n ==> !SeatsUnbound(states[i], events[i])) && states[n].ongoing == map[] ==>
              SessionsOk(states[n].db, states[n].bound)
  {
    if forall i :: 0 <= i < n ==> !SeatsUnbound(states[i], events[i]) {
      forall i | 0 <= i <= n
        ensures SeatedAreBound(states[i])
      {
        InterleavingKeeps(states, events, i);
      }
      InterleavingKeeps(states, events, n);
      IdleBindings(states[n]);
    } else {
      var i :| 0 <= i < n && SeatsUnbound(states[i], events[i]);
      FirstUnboundSeat(states, events, i);
    }
  }

  lemma IdleBindings(s: State)
    requires BindingsOk(s)
    ensures s.ongoing == map[] ==> SessionsOk(s.db, s.bound)
  {
    assert s.ongoing == map[] ==> forall p, r :: !HeldBySome(s, p, r);
  }

  /** A join that commits unbound leaves its player seated and unbound. */
  lemma FirstUnboundSeat(states: seq<State>, events: seq<Event>, i: nat)
    requires Interleaving(states, events) && i < |events| && SeatsUnbound(states[i], events[i])
    ensures !SeatedAreBound(states[i + 1])
  {
    assert Next(states[i], events[i], states[i + 1]);
    StoresAreReachable(states, events, i);
    UnboundSeat(states[i], events[i].c, events[i].w, states[i + 1]);
  }

  /** The same for one step from any store whose seated players are bound. */
  lemma JoinBindsIff(s: State, c: CallId, w: Work, t: State)
    requires Reachable(s.db) && SeatedAreBound(s) && Join(s, c, w, t) && w.answer.Success?
    ensures SeatedAreBound(t) <==> BoundTo(s, s.ongoing[c])
  {
    JoinSeats(s.db, s.ongoing[c].room, s.ongoing[c].player, w);
    assert Seated(t.db, s.ongoing[c].room, s.ongoing[c].player);
  }

  lemma UnboundSeat(s: State, c: CallId, w: Work, t: State)
    requires Reachable(s.db) && Join(s, c, w, t) && w.answer.Success? && !BoundTo(s, s.ongoing[c])
    ensures !SeatedAreBound(t)
  {
    JoinSeats(s.db, s.ongoing[c].room, s.ongoing[c].player, w);
    assert Seated(t.db, s.ongoing[c].room, s.ongoing[c].player);
  }

  ghost predicate ReachableAt(states: seq<State>, i: nat) {
    i + 1 < |states| && (Reachable(states[i].db) ==> Reachable(states[i + 1].db))
  }

  lemma InterleavingReachesAt(states: seq<State>, events: seq<Event>, i: nat)
    requires Interleaving(states, events) && i < |events|
    ensures ReachableAt(states, i)
  {
    assert Next(states[i], events[i], states[i + 1]);
    if Reachable(states[i].db) { StoreStaysReachable(states[i], events[i], states[i + 1]); }
  }

  lemma {:induction false} ReachableAllAlong(states: seq<State>, n: nat)
    requires n < |states| && Reachable(states[0].db) && forall i :: 0 <= i < n ==> ReachableAt(states, i)
    ensures Reachable(states[n].db)
  {
    if n > 0 {
      ReachableAllAlong(states, n - 1);
      assert ReachableAt(states, n - 1);
    }
  }

  lemma StoresAreReachable(states: seq<State>, events: seq<Event>, n: nat)
    requires Interleaving(states, events) && n <= |events|
    ensures Reachable(states[n].db)
  {
    StartIsGood();
    forall i | 0 <= i < n
      ensures ReachableAt(states, i)
    {
      InterleavingReachesAt(states, events, i);
    }
    ReachableAllAlong(states, n);
  }

  lemma StoreStaysReachable(s: State, e: Event, t: State)
    requires Reachable(s.db) && Next(s, e, t)
    ensures Reachable(t.db)
  {
    match e
    case OnJoin(c, w) => TransactionIs(s.db, JoinRoom(s.ongoing[c].room, s.ongoing[c].player), w);
    case OnCreate(c, w) => TransactionIs(s.db, CreateRoomFor(s.ongoing[c].room, s.ongoing[c].player), w);
    case OnClose(c, req, w) => TransactionIs(s.db, req, w);
    case OnOther(req, w) => TransactionIs(s.db, req, w);
    case _ =>
  }

  // ---- one request per player --------------------------------------------------------------

  predicate IsOf(call: Ongoing, p: Id) {
    !call.Closes? && call.player == p
  }

  /** No player has two joins or creates going on at once. */
  ghost predicate OnePerPlayer(s: State) {
    forall c, d, p :: c in s.ongoing && d in s.ongoing && IsOf(s.ongoing[c], p) && IsOf(s.ongoing[d], p) ==> c == d
  }

  /** What a join of such a player knows at its stage: it never finds a claim that is not its own. */
  ghost predicate StageOk(s: State, call: Ongoing) {
    match call
    case Joins(p, r, stage) =>
      (match stage
       case Looking => r in s.db.rooms && p in s.db.rooms[r].seats
       case Locking(bound) => !bound && p !in s.bound
       case Claiming(bound) => !bound && p !in s.bound
       case Checking => false
       case Joining(claimed) => claimed
       case Undoing => true
       case Unlocking => true)
    case _ => true
  }

  ghost predicate StagesOk(s: State) {
    forall c :: c in s.ongoing ==> StageOk(s, s.ongoing[c])
  }

  /** A player bound to the room while no other request of the player is going on has a seat there, or had
      one when the room closed: the join finds it when it looks. */
  lemma BoundMeansSeat(s: State, p: Id)
    requires SessionInv(s) && p in s.bound && forall c :: c in s.ongoing ==> !IsOf(s.ongoing[c], p)
    ensures s.bound[p] in s.db.rooms && p in s.db.rooms[s.bound[p]].seats
  {
    var r := s.bound[p];
    if !Seated(s.db, r, p) {
      assert HeldBySome(s, p, r);
      var c :| c in s.ongoing && Holds(s.ongoing[c], p, r);
      assert CallOk(s, s.ongoing[c]) && p in s.db.rooms[r].seats.Keys;
    }
  }

  lemma BeginJoinKeepsStages(s: State, c: CallId, p: Id, r: Id, t: State)
    requires SessionInv(s) && StagesOk(s) && OnePerPlayer(t) && BeginJoin(s, c, p, r, t)
    ensures StagesOk(t)
  {
    if t != s {
      forall d | d in s.ongoing
        ensures !IsOf(s.ongoing[d], p)
      {
        assert d in t.ongoing && IsOf(t.ongoing[c], p);
      }
      if p in s.bound { BoundMeansSeat(s, p); }
    }
  }

  lemma RoomsNeverShrink(s: State, e: Event, t: State)
    requires Reachable(s.db) && Next(s, e, t)
    ensures RowsGrow(s.db, t.db)
  {
    match e
    case OnJoin(c, w) =>
      TransactionIs(s.db, JoinRoom(s.ongoing[c].room, s.ongoing[c].player), w);
      if w.answer.Success? { JoinSeats(s.db, s.ongoing[c].room, s.ongoing[c].player, w); }
    case OnCreate(c, w) =>
      TransactionIs(s.db, CreateRoomFor(s.ongoing[c].room, s.ongoing[c].player), w);
      if w.answer.Success? { CreateSeats(s.db, s.ongoing[c].room, s.ongoing[c].player, w); }
    case OnClose(c, req, w) => CloseSeats(s.db, req, w);
    case OnOther(req, w) => OtherSeats(s.db, req, w);
    case _ =>
  }

  lemma StagesAreKept(s: State, e: Event, t: State)
    requires SessionInv(s) && StagesOk(s) && OnePerPlayer(s) && OnePerPlayer(t) && Next(s, e, t) && RowsGrow(s.db, t.db)
    ensures StagesOk(t)
  {
    if e.OnBeginJoin? {
      BeginJoinKeepsStages(s, e.c, e.p, e.r, t);
    } else {
      forall d | d in t.ongoing
        ensures StageOk(t, t.ongoing[d])
      {
        if d in s.ongoing && t.ongoing[d] == s.ongoing[d] {
          WaitingCallKept(s, e, t, d);
        } else {
          MovingCallKept(s, e, t, d);
        }
      }
    }
  }

  lemma WaitingCallKept(s: State, e: Event, t: State, d: CallId)
    requires StagesOk(s) && Next(s, e, t) && OnePerPlayer(s) && OnePerPlayer(t) && RowsGrow(s.db, t.db)
    requires d in s.ongoing && d in t.ongoing && t.ongoing[d] == s.ongoing[d]
    ensures StageOk(t, t.ongoing[d])
  {
    assert StageOk(s, s.ongoing[d]);
    if s.ongoing[d].Joins? && s.ongoing[d].player !in s.bound { OtherPlayersAreUntouched(s, e, t, d); }
  }

  lemma MovingCallKept(s: State, e: Event, t: State, d: CallId)
    requires StagesOk(s) && Next(s, e, t) && !e.OnBeginJoin? && d in t.ongoing && !(d in s.ongoing && t.ongoing[d] == s.ongoing[d])
    ensures StageOk(t, t.ongoing[d])
  {
    if d in s.ongoing { assert StageOk(s, s.ongoing[d]); }
  }

  /** A player becomes bound only by a request of the player. */
  lemma OtherPlayersAreUntouched(s: State, e: Event, t: State, d: CallId)
    requires Next(s, e, t) && OnePerPlayer(s) && OnePerPlayer(t) && d in s.ongoing && d in t.ongoing && t.ongoing[d] == s.ongoing[d]
    requires s.ongoing[d].Joins? && s.ongoing[d].player !in s.bound
    ensures s.ongoing[d].player !in t.bound
  {
    assert IsOf(s.ongoing[d], s.ongoing[d].player) && IsOf(t.ongoing[d], s.ongoing[d].player);
    match e
    case OnClaim(c) => assert IsOf(s.ongoing[c], s.ongoing[c].player);
    case OnBeginCreate(c, p, _) => assert p !in s.bound ==> IsOf(t.ongoing[c], p);
    case _ =>
  }

  ghost predicate Safe(s: State) {
    GoodState(s) && StagesOk(s)
  }

  lemma SafeStep(s: State, e: Event, t: State)
    requires Safe(s) && OnePerPlayer(s) && OnePerPlayer(t) && Next(s, e, t)
    ensures Safe(t) && !SeatsUnbound(s, e)
  {
    ClaimedJoinsAreBound(s);
    NextKeeps(s, e, t);
    RoomsNeverShrink(s, e, t);
    StagesAreKept(s, e, t);
  }

  ghost predicate SafeAt(states: seq<State>, i: nat) {
    i + 1 < |states| && (Safe(states[i]) ==> Safe(states[i + 1]))
  }

  lemma {:induction false} SafeAllAlong(states: seq<State>, n: nat)
    requires n < |states| && Safe(states[0]) && forall i :: 0 <= i < n ==> SafeAt(states, i)
    ensures Safe(states[n])
  {
    if n > 0 {
      SafeAllAlong(states, n - 1);
      assert SafeAt(states, n - 1);
    }
  }

  lemma InterleavingIsSafeAt(states: seq<State>, events: seq<Event>, i: nat)
    requires Interleaving(states, events) && i < |events| && OnePerPlayer(states[i]) && OnePerPlayer(states[i + 1])
    ensures SafeAt(states, i)
    ensures Safe(states[i]) ==> !SeatsUnbound(states[i], events[i])
  {
    assert Next(states[i], events[i], states[i + 1]);
    if Safe(states[i]) { SafeStep(states[i], events[i], states[i + 1]); }
  }

  /** With one join or create per player at a time, no join ever skips or is refused its claim, so none
      commits unbound: every seated player is bound all along. */
  lemma SeatedPlayersAreBound(states: seq<State>, events: seq<Event>, n: nat)
    requires Interleaving(states, events) && n <= |events| && forall i :: 0 <= i <= n ==> OnePerPlayer(states[i])
    ensures forall i :: 0 <= i < n ==> !SeatsUnbound(states[i], events[i])
    ensures SeatedAreBound(states[n]) && StagesOk(states[n])
    ensures states[n].ongoing == map[] ==> SessionsOk(states[n].db, states[n].bound)
  {
    StartIsGood();
    forall i | 0 <= i < n
      ensures SafeAt(states, i) && !SeatsUnbound(states[i], events[i])
    {
      forall j | 0 <= j <= i
        ensures SafeAt(states, j)
      {
        InterleavingIsSafeAt(states, events, j);
      }
      SafeAllAlong(states, i);
      InterleavingIsSafeAt(states, events, i);
    }
    SafeAllAlong(states, n);
    IdleBindings(states[n]);
  }

  lemma ClaimedJoinsAreBound(s: State)
    requires BindingsOk(s) && StagesOk(s)
    ensures forall c :: IsJoin(s, c) && s.ongoing[c].stage.Joining? ==> BoundTo(s, s.ongoing[c])
  {
    forall c | IsJoin(s, c) && s.ongoing[c].stage.Joining?
      ensures BoundTo(s, s.ongoing[c])
    {
      assert StageOk(s, s.ongoing[c]);
      assert HeldBySome(s, s.ongoing[c].player, s.ongoing[c].room);
    }
  }

  /** Nor is a claim ever refused, or skipped, on the way to such a join's transaction: a join that reaches
      it holds its own claim. */
  lemma JoinsHoldTheirClaim(states: seq<State>, events: seq<Event>, n: nat, c: CallId)
    requires Interleaving(states, events) && n <= |events| && forall i :: 0 <= i <= n ==> OnePerPlayer(states[i])
    requires IsJoin(states[n], c)
    ensures states[n].ongoing[c].stage.Joining? ==> states[n].ongoing[c].stage.claimed
    ensures !states[n].ongoing[c].stage.Checking?
  {
    SeatedPlayersAreBound(states, events, n);
    assert StageOk(states[n], states[n].ongoing[c]);
  }

  // ---- two joins of one player -------------------------------------------------------------

  lemma More(states: seq<State>, events: seq<Event>, e: Event, t: State) returns (states': seq<State>, events': seq<Event>)
    requires Interleaving(states, events) && Next(states[|events|], e, t)
    ensures Interleaving(states', events') && states'[|events'|] == t
  {
    states', events' := states + [t], events + [e];
    forall i | 0 <= i < |events'|
      ensures Next(states'[i], events'[i], states'[i + 1])
    {
      if i < |events| { EarlierStep(states, events, e, t, i); }
    }
  }

  lemma EarlierStep(states: seq<State>, events: seq<Event>, e: Event, t: State, i: nat)
    requires Interleaving(states, events) && i < |events|
    ensures Next((states + [t])[i], (events + [e])[i], (states + [t])[i + 1])
  {
    assert (states + [t])[i] == states[i] && (events + [e])[i] == events[i] && (states + [t])[i + 1] == states[i + 1];
  }

  const PLAIN := Env(0, 15, Failure(EntropyFailed), [], map[])
  const TWO_PLAYERS := DB(map[1 := 0, 2 := 0], map[], map[], map[], [])
  const ONE_TABLE := DB(map[1 := 0, 2 := 0], map[7 := NewRoom(7, 1, 0).row], map[], map[], [])

  lemma OpeningTransactions()
    ensures Transacts(EMPTY, Register(1), Work(PLAIN, Commits, EMPTY.(players := map[1 := 0]), Success(Registered)))
    ensures Transacts(EMPTY.(players := map[1 := 0]), Register(2), Work(PLAIN, Commits, TWO_PLAYERS, Success(Registered)))
    ensures Transacts(TWO_PLAYERS, CreateRoomFor(7, 1), Work(PLAIN, Commits, ONE_TABLE, Success(RoomCreated)))
  {
    assert EMPTY.players[1 := 0] == map[1 := 0];
    assert map[1 := 0][2 := 0] == map[1 := 0, 2 := 0];
    assert ActiveRooms(TWO_PLAYERS, 1) == {};
    CreateIs(TWO_PLAYERS, 7, 1, 0);
  }

  /** Player 1 has opened room 7; player 2 exists. */
  lemma TableForTwo() returns (states: seq<State>, events: seq<Event>)
    ensures Interleaving(states, events) && states[|events|] == State(ONE_TABLE, map[1 := 7], {}, map[])
  {
    OpeningTransactions();
    var one := EMPTY.(players := map[1 := 0]);
    states, events := More([START], [], OnOther(Register(1), Work(PLAIN, Commits, one, Success(Registered))), START.(db := one));
    states, events := More(states, events, OnOther(Register(2), Work(PLAIN, Commits, TWO_PLAYERS, Success(Registered))), START.(db := TWO_PLAYERS));
    var claimed := State(TWO_PLAYERS, map[1 := 7], {}, map[0 := Creates(1, 7, false)]);
    states, events := More(states, events, OnBeginCreate(0, 1, 7), claimed);
    var created := State(ONE_TABLE, map[1 := 7], {}, map[]);
    assert End(claimed, 0).(db := ONE_TABLE) == created;
    states, events := More(states, events, OnCreate(0, Work(PLAIN, Commits, ONE_TABLE, Success(RoomCreated))), created);
  }

  /** The first join claims; the second reads that claim and finds no seat. */
  lemma SecondReadsTheClaim(s: State, p: Id, r: Id) returns (s1: State, s2: State, s3: State, s4: State, s5: State)
    requires s.ongoing == map[] && s.locks == {} && p !in s.bound && r in s.db.rooms && p !in s.db.rooms[r].seats
    ensures BeginJoin(s, 0, p, r, s1) && Lock(s1, 0, s2) && Claim(s2, 0, s3) && BeginJoin(s3, 1, p, r, s4) && Look(s4, 1, s5)
    ensures s5 == State(s.db, s.bound[p := r], {r}, map[0 := Joins(p, r, Joining(true)), 1 := Joins(p, r, Locking(true))])
  {
    s1 := To(s, 0, Joins(p, r, Locking(false)));
    s2 := To(s1, 0, Joins(p, r, Claiming(false))).(locks := {r});
    s3 := To(s2, 0, Joins(p, r, Joining(true))).(bound := s.bound[p := r]);
    s4 := To(s3, 1, Joins(p, r, Looking));
    s5 := To(s4, 1, Joins(p, r, Locking(true)));
  }

  /** The first join's transaction is rolled back, and it takes its claim back and unlocks. */
  lemma FirstTakesItsClaimBack(s: State, bound: map<Id, Id>, p: Id, r: Id, w: Work) returns (s1: State, s2: State, s3: State)
    requires p !in bound
    requires s == State(s.db, bound[p := r], {r}, map[0 := Joins(p, r, Joining(true)), 1 := Joins(p, r, Locking(true))])
    requires w.answer.Failure? && w.after == s.db
    ensures Transacts(s.db, JoinRoom(r, p), w) ==> Join(s, 0, w, s1)
    ensures Undo(s1, 0, s2) && Unlock(s2, 0, s3)
    ensures s3 == State(s.db, bound, {}, map[1 := Joins(p, r, Locking(true))])
  {
    s1 := To(s, 0, Joins(p, r, Undoing));
    s2 := To(s1, 0, Joins(p, r, Unlocking)).(bound := bound);
    assert bound[p := r] - {p} == bound;
    s3 := State(s.db, bound, {}, map[1 := Joins(p, r, Locking(true))]);
    assert End(s2, 0).ongoing == s3.ongoing;
  }

  /** The second takes the lock, skips the claim it believes to hold, commits, and unlocks. */
  lemma SecondCommitsUnbound(s: State, p: Id, r: Id, w: Work) returns (s1: State, s2: State, s3: State, s4: State)
    requires s.locks == {} && s.ongoing == map[1 := Joins(p, r, Locking(true))] && w.answer.Success?
    ensures Lock(s, 1, s1) && Claim(s1, 1, s2)
    ensures Transacts(s.db, JoinRoom(r, p), w) ==> Join(s2, 1, w, s3)
    ensures Unlock(s3, 1, s4) && s4 == State(w.after, s.bound, {}, map[])
  {
    s1 := To(s, 1, Joins(p, r, Claiming(true))).(locks := {r});
    s2 := To(s1, 1, Joins(p, r, Joining(false)));
    s3 := To(s2, 1, Joins(p, r, Unlocking)).(db := w.after);
    s4 := State(w.after, s.bound, {}, map[]);
    assert End(s3, 1).ongoing == map[] && {r} - {r} == {};
  }

  lemma GuestTransactions() returns (failed: Work, seated: Work)
    ensures Transacts(ONE_TABLE, JoinRoom(7, 2), failed) && failed.answer.Failure? && failed.after == ONE_TABLE
    ensures Transacts(ONE_TABLE, JoinRoom(7, 2), seated) && seated.answer.Success? && Seated(seated.after, 7, 2)
  {
    assert ActiveRooms(ONE_TABLE, 2) == {};
    var outcome := JoinTx(ONE_TABLE, 7, 2, 0);
    assert outcome.Success?;
    JoinIs(ONE_TABLE, 7, 2, 0);
    failed := Work(PLAIN, RollsBack, ONE_TABLE, Failure(Infrastructure));
    seated := Work(PLAIN, Commits, outcome.value.db, Success(outcome.value.reply));
  }

  /** With two joins of one player for one room at once, the player can end up seated without a binding,
      though every commit was reported, every Redis command succeeded and nothing is going on any more. */
  lemma TwoJoinsSeatAnUnboundPlayer() returns (states: seq<State>, events: seq<Event>)
    ensures Interleaving(states, events)
    ensures var s := states[|events|]; s.ongoing == map[] && s.locks == {} && Seated(s.db, 7, 2) && 2 !in s.bound
  {
    states, events := TableForTwo();
    var failed, seated := GuestTransactions();
    var s1, s2, s3, s4, s5 := SecondReadsTheClaim(states[|events|], 2, 7);
    var s6, s7, s8 := FirstTakesItsClaimBack(s5, map[1 := 7], 2, 7, failed);
    var s9, s10, s11, s12 := SecondCommitsUnbound(s8, 2, 7, seated);
    states, events := More(states, events, OnBeginJoin(0, 2, 7), s1);
    states, events := More(states, events, OnLock(0), s2);
    states, events := More(states, events, OnClaim(0), s3);
    states, events := More(states, events, OnBeginJoin(1, 2, 7), s4);
    states, events := More(states, events, OnLook(1), s5);
    states, events := More(states, events, OnJoin(0, failed), s6);
    states, events := More(states, events, OnUndo(0), s7);
    states, events := More(states, events, OnUnlock(0), s8);
    states, events := More(states, events, OnLock(1), s9);
    states, events := More(states, events, OnClaim(1), s10);
    states, events := More(states, events, OnJoin(1, seated), s11);
    states, events := More(states, events, OnUnlock(1), s12);
  }
}
