/** The recovery pass (internal/application/game/recover.go): abort every room a previous process left
    behind, one transaction each. */
module Recovery {
  import opened Types
  import opened Game
  import opened Wallet
  import opened Store
  import opened StoreInvariant
  import opened Transactions
  import opened UseCases
  import opened Steps
  import opened Runs
  import opened LiveRounds

  datatype Report = Report(found: nat, closed: nat, failures: nat)

  /** What ListActiveRoomIDs returns: every room that is not closed, once. */
  ghost predicate ListsActive(db: DB, ids: seq<Id>) {
    && (forall i, j :: 0 <= i < j < |ids| ==> ids[i] != ids[j])
    && (forall r :: r in ids <==> Active(db, r))
  }

  ghost predicate OrdersUpToLast(db: DB, id: Id, orders: map<int, seq<Id>>) {
    forall n :: 1 <= n <= LastNumber(db, id) && RoundKey(id, n) in db.rounds && db.rounds[RoundKey(id, n)].status == Betting ==>
      n in orders && InTimeOrder(orders[n], PlacedAt(BetsOf(db.bets, RoundKey(id, n))))
  }

  /** One abort of the pass closes its room or reports a failure, and concerns no other room. */
  lemma OneAbort(before: DB, id: Id, now: Time, orders: map<int, seq<Id>>, fate: Fate, after: DB, answer: Result<Reply>)
    requires Reachable(before) && Active(before, id)
    requires Ends(before, AbortTx(before, id, now, orders), fate, after, answer)
    requires AbortTx(before, id, now, orders).Success? ==> OrdersUpToLast(before, id, orders)
    ensures Reachable(after)
    ensures forall r :: r != id ==> (Active(after, r) <==> Active(before, r))
    ensures answer.Failure? <==> Active(after, id) || fate == CommitsUnseen
    ensures answer.Failure? ==> answer.error != RoomClosed
  {
    if AbortTx(before, id, now, orders).Success? {
      OrdersAreOk(before, id, orders);
      AbortReaches(before, id, now, orders, fate);
      AbortCloses(before, id, now, orders);
    } else {
      AbortErrors(before, id, now, orders);
    }
  }

  lemma OrdersAreOk(db: DB, id: Id, orders: map<int, seq<Id>>)
    requires Reachable(db) && OrdersUpToLast(db, id, orders)
    ensures OrdersOk(db, id, orders)
  {
    ReachableStoresAreGood(db);
    forall n | RoundKey(id, n) in db.rounds
      ensures 1 <= n <= LastNumber(db, id)
    {
      CurrentRoundIsLast(db, id);
    }
  }

  lemma AbortIsAStep(db: DB, id: Id, env: Env, fate: Fate)
    requires OrdersOk(db, id, env.orders)
    ensures StepTo(db, Step(AbortRoom(id), env, fate), StoreAfter(db, AbortTx(db, id, env.now, env.orders), fate))
  {
    assert Perform(db, AbortRoom(id), env) == AbortTx(db, id, env.now, env.orders);
  }

  lemma AbortReaches(db: DB, id: Id, now: Time, orders: map<int, seq<Id>>, fate: Fate)
    requires Reachable(db) && OrdersOk(db, id, orders)
    ensures Reachable(StoreAfter(db, AbortTx(db, id, now, orders), fate))
  {
    var env := Env(now, 0, Failure(EntropyFailed), [], orders);
    AbortIsAStep(db, id, env, fate);
    ReachableStep(db, Step(AbortRoom(id), env, fate), StoreAfter(db, AbortTx(db, id, now, orders), fate));
  }

  lemma AbortCloses(db: DB, id: Id, now: Time, orders: map<int, seq<Id>>)
    requires Reachable(db) && OrdersOk(db, id, orders) && AbortTx(db, id, now, orders).Success?
    ensures !Active(AbortTx(db, id, now, orders).value.db, id)
    ensures forall r :: r != id ==> (Active(AbortTx(db, id, now, orders).value.db, r) <==> Active(db, r))
  {
    ReachableStoresAreGood(db);
    AbortIs(db, id, now, orders);
  }

  /** A store that holds no room to settle any more: every room is closed, every stake whose bet was not
      decided has been given back once, and there is nothing to list. */
  ghost predicate CleanedUp(db: DB) {
    && (forall r :: r in db.rooms ==> db.rooms[r].status == Closed)
    && (forall k :: k in db.bets && db.bets[k].result.None? ==> Amounts(db.ledger, Payback, k) == [db.bets[k].amount])
    && (forall ids :: ListsActive(db, ids) ==> ids == [])
  }

  lemma NoActiveRoomIsClean(db: DB)
    requires Reachable(db) && forall r :: !Active(db, r)
    ensures CleanedUp(db)
  {
    ReachableStoresAreGood(db);
    forall r | r in db.rooms
      ensures db.rooms[r].status == Closed
    {
      assert !Active(db, r);
    }
    forall k | k in db.bets && db.bets[k].result.None?
      ensures Amounts(db.ledger, Payback, k) == [db.bets[k].amount]
    {
      assert Amounts(db.ledger, Payback, k) == Due(db, k);
    }
    forall ids | ListsActive(db, ids)
      ensures ids == []
    {
      EmptyOrNot(ids);
    }
  }

  lemma EmptyOrNot(ids: seq<Id>)
    ensures ids == [] || exists r :: r in ids
  {
    if ids != [] { assert ids[0] in ids; }
  }

  method AbortOne(service: Service, id: Id, now: Time, fate: Fate) returns (answer: Result<Reply>)
    requires Reachable(service.db) && Active(service.db, id)
    modifies service
    ensures Reachable(service.db)
    ensures forall r :: r != id ==> (Active(service.db, r) <==> Active(old(service.db), r))
    ensures answer.Failure? <==> Active(service.db, id) || fate == CommitsUnseen
    ensures answer.Failure? ==> answer.error != RoomClosed
  {
    ghost var orders;
    answer, orders := service.AbortRoom(id, now, fate);
    OneAbort(old(service.db), id, now, orders, fate, service.db, answer);
  }

  /** The abort of this room was committed and reported as an error. */
  predicate Unseen(fates: map<Id, Fate>, id: Id) {
    id in fates && fates[id] == CommitsUnseen
  }

  /** The rooms of a pass that it must report as failures: those that are still not closed, and those whose
      abort was committed and reported as an error. */
  function MustFail(after: DB, ids: seq<Id>, fates: map<Id, Fate>): set<Id> {
    set x | x in ids && (Active(after, x) || Unseen(fates, x))
  }

  /** Execute, run alone: the rooms found are the rooms closed and the failures, whatever became of each
      transaction, and the failures are exactly the rooms that are still not closed and those whose commit was
      reported as an error. A pass that reports no failure leaves every room closed, every undecided stake given
      back, and nothing for another pass. */
  method RecoverRooms(service: Service, listing: Result<seq<Id>>, now: Time, fates: map<Id, Fate>)
    returns (r: Result<Report>, ghost failed: set<Id>)
    requires Reachable(service.db)
    requires listing.Success? ==> ListsActive(service.db, listing.value)
    modifies service
    ensures Reachable(service.db)
    ensures listing.Failure? ==> r == Failure(listing.error) && service.db == old(service.db)
    ensures listing.Success? ==> r.Success? && r.value.found == |listing.value| == r.value.closed + r.value.failures
    ensures r.Success? ==> r.value.failures == |failed| && forall x :: Active(service.db, x) ==> x in failed
    ensures r.Success? ==> failed == MustFail(service.db, listing.value, fates)
    ensures r.Success? && r.value.failures == 0 ==> CleanedUp(service.db)
  {
    failed := {};
    if listing.Failure? { return Failure(listing.error), failed; }
    var closed, failures;
    closed, failures, failed := AbortAll(service, listing.value, now, fates);
    if failures == 0 { NoActiveRoomIsClean(service.db); }
    return Success(Report(|listing.value|, closed, failures)), failed;
  }

  /** After i rooms of the pass: the failures so far, and the rooms still to come. */
  ghost predicate Underway(db: DB, ids: seq<Id>, i: nat, fates: map<Id, Fate>, failed: set<Id>)
    requires i <= |ids|
  {
    && failed == MustFail(db, ids[..i], fates)
    && (forall j :: i <= j < |ids| ==> Active(db, ids[j]))
    && (forall x :: Active(db, x) ==> x in ids)
  }

  lemma OneMoreRoom(db: DB, after: DB, ids: seq<Id>, i: nat, fates: map<Id, Fate>, failed: set<Id>, failed': set<Id>)
    requires i < |ids| && Underway(db, ids, i, fates, failed)
    requires forall j, k :: 0 <= j < k < |ids| ==> ids[j] != ids[k]
    requires forall r :: r != ids[i] ==> (Active(after, r) <==> Active(db, r))
    requires failed' == failed + if Active(after, ids[i]) || Unseen(fates, ids[i]) then {ids[i]} else {}
    ensures Underway(after, ids, i + 1, fates, failed') && ids[i] !in failed
  {
    assert ids[..i + 1] == ids[..i] + [ids[i]];
    assert ids[i] !in ids[..i];
    forall x
      ensures x in failed' <==> x in MustFail(after, ids[..i + 1], fates)
    {
      assert x in ids[..i + 1] <==> x in ids[..i] || x == ids[i];
    }
  }

  /** The i-th room of the pass. */
  method AbortNext(service: Service, ids: seq<Id>, i: nat, now: Time, fates: map<Id, Fate>, ghost failed: set<Id>)
    returns (answer: Result<Reply>, ghost failed': set<Id>)
    requires Reachable(service.db) && i < |ids| && Underway(service.db, ids, i, fates, failed)
    requires forall j, k :: 0 <= j < k < |ids| ==> ids[j] != ids[k]
    modifies service
    ensures Reachable(service.db) && Underway(service.db, ids, i + 1, fates, failed')
    ensures |failed'| == |failed| + if answer.Failure? then 1 else 0
    ensures answer.Failure? ==> answer.error != RoomClosed
  {
    var fate := if ids[i] in fates then fates[ids[i]] else Commits;
    answer := AbortOne(service, ids[i], now, fate);
    failed' := failed + if answer.Failure? then {ids[i]} else {};
    OneMoreRoom(old(service.db), service.db, ids, i, fates, failed, failed');
  }

  /** The loop of the pass, which goes on after a failure. */
  method AbortAll(service: Service, ids: seq<Id>, now: Time, fates: map<Id, Fate>)
    returns (closed: nat, failures: nat, ghost failed: set<Id>)
    requires Reachable(service.db) && ListsActive(service.db, ids)
    modifies service
    ensures Reachable(service.db)
    ensures closed + failures == |ids| && failures == |failed|
    ensures failed == MustFail(service.db, ids, fates) && forall x :: Active(service.db, x) ==> x in failed
  {
    closed, failures, failed := 0, 0, {};
    for i := 0 to |ids|
      invariant Reachable(service.db)
      invariant closed + failures == i && failures == |failed|
      invariant Underway(service.db, ids, i, fates, failed)
    {
      var answer;
      answer, failed := AbortNext(service, ids, i, now, fates, failed);
      if answer.Failure? {
        if answer.error == RoomClosed { continue; }
        failures := failures + 1;
        continue;
      }
      closed := closed + 1;
    }
    AllAreListed(service.db, ids, fates, failed);
  }

  lemma AllAreListed(db: DB, ids: seq<Id>, fates: map<Id, Fate>, failed: set<Id>)
    requires Underway(db, ids, |ids|, fates, failed)
    ensures failed == MustFail(db, ids, fates) && forall x :: Active(db, x) ==> x in failed
  {
    assert ids[..|ids|] == ids;
  }
}
