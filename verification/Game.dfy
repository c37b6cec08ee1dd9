/** Rows and aggregate values of the game, and what each domain operation does to them
    (internal/domain/game/room.go, round.go, bet.go). The classes in Aggregates are proved
    against the functions of this module. */
module Game {
  import opened Types
  import opened Money
  import opened Dice

  const MAX_PLAYERS := 6
  const MAX_ROUNDS := 10

  datatype RoomStatus = Open | Closing | Closed
  datatype RoundStatus = Betting | Settled

  datatype BetResult = BetResult(won: bool, payout: Cents)

  /** A bets row; the (round, player) pair that identifies it is its key. */
  datatype BetRow = BetRow(choice: Parity, amount: Cents, placedAt: Time, result: Option<BetResult>)

  /** rounds_room_number_key: a round is identified by its room and its number. */
  datatype RoundKey = RoundKey(room: Id, number: int)

  datatype RoundRow = RoundRow(opensAt: Time, closesAt: Time, status: RoundStatus,
                               die1: int, die2: int, outcome: Option<Parity>, settledAt: Option<Time>)

  /** A rooms row together with its room_players rows (player to joined_at). */
  datatype RoomRow = RoomRow(owner: Id, status: RoomStatus, currentRound: int, createdAt: Time,
                             closedAt: Option<Time>, seats: map<Id, Time>)

  /** The Round aggregate: its row and the bets by player. */
  datatype RoundVal = RoundVal(key: RoundKey, row: RoundRow, bets: map<Id, BetRow>)

  /** The Room aggregate: its row and the attached round. */
  datatype RoomVal = RoomVal(id: Id, row: RoomRow, round: Option<RoundVal>)

  /** The read-only view of a settled bet that settlement returns. */
  datatype Outcome = Outcome(player: Id, choice: Parity, amount: Cents, won: bool, payout: Cents)

  // ---- rounds ------------------------------------------------------------------------------

  function NewRound(key: RoundKey, opensAt: Time, window: int): Result<RoundVal> {
    if key.number < 1 || key.number > MAX_ROUNDS then Failure(InvalidRoundNumber)
    else if window <= 0 then Failure(InvalidBettingWindow)
    else Success(RoundVal(key, RoundRow(opensAt, opensAt + window, Betting, 0, 0, None, None), map[]))
  }

  /** The betting window is half-open: a bet exactly at the closing instant is refused. */
  function RoundPlaceBet(r: RoundVal, player: Id, key: RoundKey, bet: BetRow, now: Time): Result<RoundVal> {
    if key != r.key then Failure(InvalidId)
    else if r.row.status == Settled then Failure(RoundAlreadySettled)
    else if now < r.row.opensAt then Failure(BettingNotOpen)
    else if !(now < r.row.closesAt) then Failure(BettingClosed)
    else if player in r.bets then Failure(DuplicateBet)
    else Success(r.(bets := r.bets[player := bet]))
  }

  function ResultOf(bet: BetRow, outcome: Parity): BetResult {
    BetResult(bet.choice == outcome, if bet.choice == outcome then Payout(bet.amount) else 0)
  }

  function SettledBet(bet: BetRow, outcome: Parity): BetRow {
    bet.(result := Some(ResultOf(bet, outcome)))
  }

  function SettledBets(bets: map<Id, BetRow>, outcome: Parity): map<Id, BetRow> {
    map p | p in bets :: SettledBet(bets[p], outcome)
  }

  function OutcomeView(player: Id, bet: BetRow, outcome: Parity): Outcome {
    Outcome(player, bet.choice, bet.amount, ResultOf(bet, outcome).won, ResultOf(bet, outcome).payout)
  }

  /** The results of a settlement, in the order in which the bets are visited. */
  function Outcomes(bets: map<Id, BetRow>, outcome: Parity, order: seq<Id>): (s: seq<Outcome>)
    requires forall p :: p in order ==> p in bets
    ensures |s| == |order|
    ensures forall i :: 0 <= i < |order| ==> s[i] == OutcomeView(order[i], bets[order[i]], outcome)
  {
    seq(|order|, i requires 0 <= i < |order| => OutcomeView(order[i], bets[order[i]], outcome))
  }

  predicate AllUnsettled(bets: map<Id, BetRow>) {
    forall p :: p in bets ==> bets[p].result.None?
  }

  function SettledRow(row: RoundRow, die1: int, die2: int, outcome: Parity, now: Time): RoundRow {
    row.(status := Settled, die1 := die1, die2 := die2, outcome := Some(outcome), settledAt := Some(now))
  }

  /** Settle: refuses a settled round, a failed roll and an impossible die, and otherwise resolves
      every bet at once. */
  function RoundSettle(r: RoundVal, roll: Result<(int, int)>, now: Time): Result<RoundVal> {
    if r.row.status == Settled then Failure(RoundAlreadySettled)
    else if roll.Failure? then Failure(roll.error)
    else if OutcomeOf(roll.value.0, roll.value.1).Failure? then Failure(InvalidDie)
    else if !AllUnsettled(r.bets) then Failure(RoundAlreadySettled)
    else
      var (die1, die2) := roll.value;
      var outcome := OutcomeOf(die1, die2).value;
      Success(RoundVal(r.key, SettledRow(r.row, die1, die2, outcome, now),
                       SettledBets(r.bets, outcome)))
  }

  // ---- rooms -------------------------------------------------------------------------------

  function NewRoom(id: Id, owner: Id, createdAt: Time): RoomVal {
    RoomVal(id, RoomRow(owner, Open, 0, createdAt, None, map[owner := createdAt]), None)
  }

  predicate HasLiveRound(r: RoomVal) {
    r.round.Some? && r.round.value.row.status != Settled
  }

  /** AttachRound: a settled round, or none, clears the live round. */
  function RoomAttach(r: RoomVal, round: Option<RoundVal>): RoomVal {
    r.(round := if round.Some? && round.value.row.status == Settled then None else round)
  }

  function RoomJoin(r: RoomVal, player: Id, now: Time): Result<RoomVal> {
    if r.row.status == Closed then Failure(RoomClosed)
    else if r.row.status == Closing then Failure(RoomNotOpen)
    else if player in r.row.seats then Failure(AlreadyJoined)
    else if |r.row.seats| >= MAX_PLAYERS then Failure(RoomFull)
    else Success(r.(row := r.row.(seats := r.row.seats[player := now])))
  }

  function RoomStartRound(r: RoomVal, now: Time, window: int): Result<RoomVal> {
    if r.row.status == Closed then Failure(RoomClosed)
    else if r.row.status != Open then Failure(RoomNotOpen)
    else if HasLiveRound(r) then Failure(RoundInProgress)
    else if |r.row.seats| == 0 then Failure(NoPlayers)
    else if r.row.currentRound >= MAX_ROUNDS then Failure(MaxRoundsReached)
    else
      var round :- NewRound(RoundKey(r.id, r.row.currentRound + 1), now, window);
      Success(r.(row := r.row.(currentRound := round.key.number), round := Some(round)))
  }

  function RoomPlaceBet(r: RoomVal, player: Id, key: RoundKey, bet: BetRow, now: Time): Result<RoomVal> {
    if r.row.status == Closed then Failure(RoomClosed)
    else if player !in r.row.seats then Failure(NotAMember)
    else if r.round.None? then Failure(NoActiveRound)
    else
      var round :- RoundPlaceBet(r.round.value, player, key, bet, now);
      Success(r.(round := Some(round)))
  }

  function ClosedRow(row: RoomRow, now: Time): RoomRow {
    row.(status := Closed, closedAt := Some(now))
  }

  /** A settlement closes a closing room and a room at its round cap. */
  function FinishedRow(row: RoomRow, now: Time): RoomRow {
    if row.status == Closing || row.currentRound >= MAX_ROUNDS then ClosedRow(row, now) else row
  }

  function RoomSettle(r: RoomVal, roll: Result<(int, int)>, now: Time): Result<RoomVal> {
    if r.round.None? then Failure(NoActiveRound)
    else if r.row.status == Closed then Failure(RoomClosed)
    else
      var round :- RoundSettle(r.round.value, roll, now);
      Success(r.(row := FinishedRow(r.row, now), round := Some(round)))
  }

  function RoomClose(r: RoomVal, requester: Id, now: Time): Result<RoomVal> {
    if requester != r.row.owner then Failure(NotOwner)
    else if r.row.status == Closed then Failure(RoomClosed)
    else if r.row.status == Closing then Success(r)
    else if HasLiveRound(r) then Success(r.(row := r.row.(status := Closing)))
    else Success(r.(row := ClosedRow(r.row, now)))
  }

  function RoomForceClose(r: RoomVal, now: Time): RoomVal {
    if r.row.status == Closed then r else r.(row := ClosedRow(r.row, now))
  }

  // ---- orders ------------------------------------------------------------------------------

  /** Some duplicate-free listing of exactly the given keys. */
  ghost predicate Lists(order: seq<Id>, keys: set<Id>) {
    && (forall i, j :: 0 <= i < j < |order| ==> order[i] != order[j])
    && (forall p :: p in order <==> p in keys)
  }

  ghost predicate SortedBy<T>(order: seq<T>, at: map<T, Time>)
    requires forall x :: x in order ==> x in at
  {
    forall i, j :: 0 <= i < j < |order| ==> at[order[i]] <= at[order[j]]
  }

  /** An order in which Players() and Bets() may return their map: by time, ties in any order. */
  ghost predicate InTimeOrder(order: seq<Id>, at: map<Id, Time>) {
    Lists(order, at.Keys) && SortedBy(order, at)
  }

  function PlacedAt(bets: map<Id, BetRow>): map<Id, Time> {
    map p | p in bets :: bets[p].placedAt
  }

  /** With distinct times the order is unique, whatever order the map was iterated in. */
  lemma {:induction false} TimeOrderIsUnique(s: seq<Id>, t: seq<Id>, at: map<Id, Time>)
    requires InTimeOrder(s, at) && InTimeOrder(t, at)
    requires forall p, q :: p in at && q in at && at[p] == at[q] ==> p == q
    ensures s == t
  {
    if t != [] {
      assert t[0] in at.Keys && t[0] in s;
    }
    if s != [] {
      assert s[0] in at.Keys && s[0] in t;
      var i :| 0 <= i < |s| && s[i] == t[0];
      var j :| 0 <= j < |t| && t[j] == s[0];
      assert at[s[0]] <= at[s[i]] && at[t[0]] <= at[t[j]];
      assert s[0] == t[0];
      var rest := at - {s[0]};
      TailListsRest(s, at);
      TailListsRest(t, at);
      TimeOrderIsUnique(s[1..], t[1..], rest);
    }
  }

  lemma TailListsRest(s: seq<Id>, at: map<Id, Time>)
    requires InTimeOrder(s, at) && s != []
    ensures InTimeOrder(s[1..], at - {s[0]})
  {
  }
}
