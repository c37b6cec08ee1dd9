/** int64 cents and the 1.92x payout (internal/domain/game/payout.go). */
module Money {

  const TWO63: int := 0x8000_0000_0000_0000
  const TWO64: int := 0x1_0000_0000_0000_0000
  const MAX_CENTS: int := TWO63 - 1

  const PAYOUT_NUMERATOR := 192
  const PAYOUT_DENOMINATOR := 100

  /** The largest stake whose product with the numerator still fits an int64. */
  const MAX_EXACT_STAKE: int := 48038396025285290

  /** Go's int64. */
  type Cents = x: int | -TWO63 <= x < TWO63

  /** Two's complement wrap-around of an int64 operation. */
  function Wrap64(x: int): (r: Cents)
    ensures -TWO63 <= x < TWO63 ==> r == x
  {
    (x + TWO63) % TWO64 - TWO63
  }

  /** Go's integer division, which truncates toward zero. */
  function TruncatedDiv(a: int, b: int): int
    requires b > 0
  {
    if a >= 0 then a / b else -((-a) / b)
  }

  /** The gross amount credited for a winning stake, evaluated in int64 as Go does. */
  function Payout(stake: Cents): Cents {
    if stake <= 0 then 0
    else TruncatedDiv(Wrap64(stake * PAYOUT_NUMERATOR), PAYOUT_DENOMINATOR)
  }

  /** The intended amount: the exact floor of 1.92 times the stake, over unbounded integers. */
  function ExactPayout(stake: int): int
    requires stake > 0
  {
    stake * 192 / 100
  }

  /** The int64 computation is the exact floor precisely up to MAX_EXACT_STAKE. */
  lemma PayoutIsExactIff(stake: Cents)
    requires stake > 0
    ensures Payout(stake) == ExactPayout(stake) <==> stake <= MAX_EXACT_STAKE
  {
  }

  /** What a win returns within the exact range: at least the stake, less than twice the stake, and
      short of 1.92 times the stake by less than one cent. */
  lemma PayoutBounds(stake: Cents)
    requires 0 < stake <= MAX_EXACT_STAKE
    ensures 0 < stake <= Payout(stake) < 2 * stake
    ensures 0 <= 192 * stake - 100 * Payout(stake) < 100
  {
  }

  lemma PayoutIsMonotone(a: Cents, b: Cents)
    requires 0 < a <= b <= MAX_EXACT_STAKE
    ensures Payout(a) <= Payout(b)
  {
  }

  /** Splitting a stake never gains, and loses at most one cent. */
  lemma SplittingAStake(a: Cents, b: Cents)
    requires 0 < a && 0 < b && a + b <= MAX_EXACT_STAKE
    ensures Payout(a) + Payout(b) <= Payout(a + b) <= Payout(a) + Payout(b) + 1
  {
  }

  /** Just above the range the product wraps to a negative payout; further up a win of a huge
      stake pays a single cent. */
  lemma PayoutOverflowExamples()
    ensures Payout(MAX_EXACT_STAKE + 1) < 0
    ensures Payout(96076792050570582) == 1
  {
  }
}
