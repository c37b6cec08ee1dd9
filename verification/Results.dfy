/** What the results of a settlement must say, in terms of the dice and the bets alone
    (internal/domain/game/bet.go, dice.go, internal/application/game/game.go). */
module Results {
  import opened Types
  import opened Money
  import opened Dice
  import opened Game

  predicate RealDice(die1: int, die2: int) {
    1 <= die1 <= 6 && 1 <= die2 <= 6
  }

  /** The choice called the parity of the sum. */
  predicate Called(choice: Parity, die1: int, die2: int) {
    choice == Even <==> (die1 + die2) % 2 == 0
  }

  /** A result that is right for a bet of this choice and amount. */
  predicate RightResult(result: BetResult, choice: Parity, amount: Cents, die1: int, die2: int) {
    && (result.won <==> Called(choice, die1, die2))
    && result.payout == if Called(choice, die1, die2) then Payout(amount) else 0
  }

  lemma OutcomeIsParity(die1: int, die2: int)
    ensures OutcomeOf(die1, die2).Success? <==> RealDice(die1, die2)
    ensures OutcomeOf(die1, die2).Success? ==> forall c :: c == OutcomeOf(die1, die2).value <==> Called(c, die1, die2)
  {
  }

  lemma ResultIsRight(bet: BetRow, die1: int, die2: int, side: Parity)
    requires OutcomeOf(die1, die2) == Success(side)
    ensures RightResult(ResultOf(bet, side), bet.choice, bet.amount, die1, die2)
  {
    OutcomeIsParity(die1, die2);
  }

  /** One reported result, against the bet it is of. */
  predicate RightOutcome(o: Outcome, player: Id, bet: BetRow, die1: int, die2: int) {
    && o.player == player && o.choice == bet.choice && o.amount == bet.amount
    && RightResult(BetResult(o.won, o.payout), bet.choice, bet.amount, die1, die2)
  }

  /** The results are of exactly the bets of the round, each once and in the order in which they were placed. */
  ghost predicate RightResults(results: seq<Outcome>, bets: map<Id, BetRow>, die1: int, die2: int) {
    && (forall p :: p in bets ==> exists i :: 0 <= i < |results| && results[i].player == p)
    && (forall i, j :: 0 <= i < j < |results| ==> results[i].player != results[j].player)
    && (forall i :: 0 <= i < |results| ==>
          results[i].player in bets && RightOutcome(results[i], results[i].player, bets[results[i].player], die1, die2))
    && (forall i, j :: 0 <= i < j < |results| && results[i].player in bets && results[j].player in bets ==>
          bets[results[i].player].placedAt <= bets[results[j].player].placedAt)
  }

  lemma OutcomesAreRight(bets: map<Id, BetRow>, die1: int, die2: int, side: Parity, order: seq<Id>)
    requires OutcomeOf(die1, die2) == Success(side) && InTimeOrder(order, PlacedAt(bets))
    requires forall p :: p in order ==> p in bets
    ensures RightResults(Outcomes(bets, side, order), bets, die1, die2)
  {
    var results := Outcomes(bets, side, order);
    assert PlacedAt(bets).Keys == bets.Keys;
    forall i | 0 <= i < |results|
      ensures results[i].player == order[i] && order[i] in bets && RightOutcome(results[i], order[i], bets[order[i]], die1, die2)
    {
      assert order[i] in order;
      ResultIsRight(bets[order[i]], die1, die2, side);
    }
    forall p | p in bets
      ensures exists i :: 0 <= i < |results| && results[i].player == p
    {
      assert p in bets.Keys && p in order;
      var i :| 0 <= i < |order| && order[i] == p;
      assert results[i].player == p;
    }
  }

  // ---- winners -----------------------------------------------------------------------------

  /** What clients are shown of a settlement: the results of the winners. */
  function OnlyWinners(results: seq<Outcome>): seq<Outcome> {
    if results == [] then []
    else
      var last := results[|results| - 1];
      OnlyWinners(results[..|results| - 1]) + if last.won then [last] else []
  }

  method Winners(results: seq<Outcome>) returns (winners: seq<Outcome>)
    ensures winners == OnlyWinners(results)
  {
    winners := [];
    for i := 0 to |results|
      invariant winners == OnlyWinners(results[..i])
    {
      assert results[..i + 1][..i] == results[..i];
      if results[i].won { winners := winners + [results[i]]; }
    }
    assert results[..|results|] == results;
  }

  lemma {:induction false} ShownMeansWon(results: seq<Outcome>, o: Outcome)
    ensures o in OnlyWinners(results) <==> o in results && o.won
  {
    if results != [] {
      var rest, last := results[..|results| - 1], results[|results| - 1];
      ShownMeansWon(rest, o);
      assert o in results <==> o in rest || o == last;
    }
  }

  /** A bettor is shown as a winner exactly if the bet called the dice. */
  lemma ShownWinnersCalledTheDice(results: seq<Outcome>, bets: map<Id, BetRow>, die1: int, die2: int, p: Id)
    requires RightResults(results, bets, die1, die2)
    ensures (exists o :: o in OnlyWinners(results) && o.player == p) <==> p in bets && Called(bets[p].choice, die1, die2)
  {
    if p in bets {
      var i :| 0 <= i < |results| && results[i].player == p;
      ShownMeansWon(results, results[i]);
    }
    if o :| o in OnlyWinners(results) && o.player == p {
      ShownMeansWon(results, o);
      var i :| 0 <= i < |results| && results[i] == o;
      assert RightOutcome(results[i], p, bets[p], die1, die2);
    }
  }
}
