/** Dice parity (internal/domain/game/dice.go) and the return to player it implies. */
module Dice {
  import opened Types
  import opened Money

  /** Both Choice and Outcome of the source: a choice matches an outcome when they are equal. */
  datatype Parity = Even | Odd

  predicate ValidDie(d: int) {
    1 <= d <= 6
  }

  function OutcomeOf(die1: int, die2: int): Result<Parity> {
    if !ValidDie(die1) || !ValidDie(die2) then Failure(InvalidDie)
    else Success(if (die1 + die2) % 2 == 0 then Even else Odd)
  }

  /** What one bet gets back when the given dice are rolled. */
  function Return(choice: Parity, stake: Cents, die1: int, die2: int): Cents {
    if OutcomeOf(die1, die2) == Success(choice) then Payout(stake) else 0
  }

  /** The number of ordered rolls of two dice. */
  const PAIRS := 36

  /** The n-th of the 36 ordered pairs (1,1), (1,2), ..., (6,6) matches the choice. */
  predicate Matches(choice: Parity, n: nat)
    requires n < PAIRS
  {
    OutcomeOf(n / 6 + 1, n % 6 + 1) == Success(choice)
  }

  /** How many of the first n pairs match the choice. */
  function Wins(choice: Parity, n: nat): nat
    requires n <= PAIRS
  {
    if n == 0 then 0 else Wins(choice, n - 1) + if Matches(choice, n - 1) then 1 else 0
  }

  /** The sum of Return over the first n pairs. */
  function TotalReturn(choice: Parity, stake: Cents, n: nat): int
    requires n <= PAIRS
  {
    if n == 0 then 0
    else TotalReturn(choice, stake, n - 1) + Return(choice, stake, (n - 1) / 6 + 1, (n - 1) % 6 + 1)
  }

  lemma NeighboursSplit(choice: Parity, k: nat)
    requires k < 18
    ensures Matches(choice, 2 * k) <==> !Matches(choice, 2 * k + 1)
  {
  }

  /** Of two neighbouring second dice exactly one matches the choice, so exactly half of every
      even number of pairs wins: 18 of 36, for either choice. */
  lemma {:induction false} HalfOfThePairsWin(choice: Parity, half: nat, pairs: nat)
    requires half <= 18 && pairs == 2 * half
    ensures Wins(choice, pairs) == half
  {
    if half > 0 {
      HalfOfThePairsWin(choice, half - 1, pairs - 2);
      NeighboursSplit(choice, half - 1);
      assert Wins(choice, pairs - 1) == Wins(choice, pairs - 2) + if Matches(choice, pairs - 2) then 1 else 0;
    }
  }

  lemma ReturnOfPair(choice: Parity, stake: Cents, n: nat, payout: int)
    requires n < PAIRS && payout == Payout(stake)
    ensures Return(choice, stake, n / 6 + 1, n % 6 + 1) == if Matches(choice, n) then payout else 0
  {
  }

  lemma OneMore(count: int, payout: int)
    ensures (count + 1) * payout == count * payout + payout
  {
  }

  /** The total return is the number of winning pairs times the payout. */
  lemma {:induction false} ReturnCountsWins(choice: Parity, stake: Cents, n: nat, payout: int)
    requires n <= PAIRS && payout == Payout(stake)
    ensures TotalReturn(choice, stake, n) == Wins(choice, n) * payout
  {
    if n > 0 {
      ReturnCountsWins(choice, stake, n - 1, payout);
      ReturnOfPair(choice, stake, n - 1, payout);
      OneMore(Wins(choice, n - 1), payout);
    }
  }

  lemma ShareOfTurnover(stake: int, payout: int)
    requires 0 <= 192 * stake - 100 * payout < 100
    ensures 0 <= 96 * (36 * stake) - 100 * (18 * payout) < 1800
    ensures 100 * (18 * payout) == 96 * (36 * stake) <==> stake % 25 == 0
  {
  }

  /** Over the 36 equally likely rolls a stake returns 18 payouts: never more than 96% of the
      turnover, short of it by less than 18 cents, and exactly 96% precisely for multiples of 25. */
  lemma ReturnToPlayer(choice: Parity, stake: Cents)
    requires 0 < stake <= MAX_EXACT_STAKE
    ensures TotalReturn(choice, stake, PAIRS) == 18 * Payout(stake)
    ensures 0 <= 96 * (PAIRS * stake) - 100 * TotalReturn(choice, stake, PAIRS) < 1800
    ensures 100 * TotalReturn(choice, stake, PAIRS) == 96 * (PAIRS * stake) <==> stake % 25 == 0
  {
    var payout := Payout(stake);
    PayoutBounds(stake);
    ShareOfTurnover(stake, payout);
    HalfOfThePairsWin(choice, 18, PAIRS);
    ReturnCountsWins(choice, stake, PAIRS, payout);
  }

  datatype Wager = Wager(choice: Parity, stake: Cents)

  function Turnover(bets: seq<Wager>): int {
    if bets == [] then 0 else PAIRS * bets[0].stake + Turnover(bets[1..])
  }

  function Returned(bets: seq<Wager>): int {
    if bets == [] then 0 else TotalReturn(bets[0].choice, bets[0].stake, PAIRS) + Returned(bets[1..])
  }

  /** The house edge lifts to any list of bets, whatever the players choose. */
  lemma {:induction false} HouseKeepsFourPercent(bets: seq<Wager>)
    requires forall b :: b in bets ==> 0 < b.stake <= MAX_EXACT_STAKE
    ensures 0 <= 96 * Turnover(bets) - 100 * Returned(bets) <= 1800 * |bets|
  {
    if bets != [] {
      assert bets[0] in bets;
      ReturnToPlayer(bets[0].choice, bets[0].stake);
      HouseKeepsFourPercent(bets[1..]);
    }
  }
}
