/** Every transaction keeps the store invariant. */
module Preservation {
  import opened Types
  import opened Money
  import opened Dice
  import opened Game
  import opened Wallet
  import opened Store
  import opened Transactions
  import opened StoreInvariant

  // ---- postings ----------------------------------------------------------------------------

  /** One balance and one ledger entry changed together. */
  ghost predicate Posted(before: DB, after: DB, e: Entry) {
    && e.player in before.players && e.amount > 0
    && 0 <= before.players[e.player] + Signed(e) <= MAX_CENTS
    && after == before.(players := before.players[e.player := before.players[e.player] + Signed(e)],
                        ledger := before.ledger + [e])
  }

  /** A credit succeeds exactly when the player exists and the new balance fits an int64. */
  lemma CreditPosts(db: DB, e: Entry)
    requires BalancesOk(db) && e.amount > 0 && (e.kind == Deposit || e.kind == Payback)
    ensures CreditPlayer(db, e).Success? <==> e.player in db.players && db.players[e.player] + e.amount <= MAX_CENTS
    ensures CreditPlayer(db, e).Success? ==> Posted(db, CreditPlayer(db, e).value, e)
  {
  }

  /** A debit succeeds exactly when the player exists and can afford it. */
  lemma DebitPosts(db: DB, e: Entry)
    requires BalancesOk(db) && e.amount > 0 && (e.kind == Withdraw || e.kind == Stake)
    ensures DebitPlayer(db, e).Success? <==> e.player in db.players && db.players[e.player] >= e.amount
    ensures DebitPlayer(db, e).Success? ==> Posted(db, DebitPlayer(db, e).value, e)
  {
  }

  lemma PostingKeepsBalances(before: DB, after: DB, e: Entry)
    requires BalancesOk(before) && EntriesOk(before) && Posted(before, after, e) && EntryOk(before, e)
    ensures BalancesOk(after) && EntriesOk(after)
  {
  }

  // ---- paying several players of one round -------------------------------------------------

  ghost predicate SameStakes(before: DB, after: DB) {
    forall k :: Amounts(after.ledger, Stake, k) == Amounts(before.ledger, Stake, k)
  }

  /** The players of the order who have a gift were credited it once, for this round; nothing else
      about money, rooms or rounds changed. */
  ghost predicate Gave(before: DB, after: DB, key: RoundKey, order: seq<Id>, gifts: map<Id, Cents>) {
    && after.rooms == before.rooms && after.rounds == before.rounds
    && after.players.Keys == before.players.Keys && after.bets.Keys == before.bets.Keys
    && (forall p :: p in before.players ==>
          after.players[p] as int == before.players[p] as int + if p in order && p in gifts then gifts[p] as int else 0)
    && BalancesOk(after) && EntriesOk(after)
    && before.ledger <= after.ledger
    && SameStakes(before, after)
    && (forall k :: Amounts(after.ledger, Payback, k) == Amounts(before.ledger, Payback, k)
          + if k.round == key && k.player in order && k.player in gifts then [gifts[k.player]] else [])
  }

  lemma GiveOneMore(before: DB, mid: DB, after: DB, key: RoundKey, order: seq<Id>, p: Id, gifts: map<Id, Cents>)
    requires Gave(before, mid, key, order, gifts) && p !in order
    requires BetKey(key, p) in before.bets
    requires p in gifts ==> Posted(mid, after, Entry(p, Payback, gifts[p], Some(key)))
    requires p !in gifts ==> after == mid
    ensures Gave(before, after, key, order + [p], gifts)
  {
    if p in gifts {
      PostingKeepsBalances(mid, after, Entry(p, Payback, gifts[p], Some(key)));
      OneMoreGift(before, mid, after, key, order, p, gifts);
    } else {
      assert forall q :: q in order + [p] && q in gifts <==> q in order && q in gifts;
    }
  }

  /** What the new entry does to the dues of each bet. */
  lemma OneMoreGift(before: DB, mid: DB, after: DB, key: RoundKey, order: seq<Id>, p: Id, gifts: map<Id, Cents>)
    requires Gave(before, mid, key, order, gifts) && p !in order && p in gifts
    requires after.ledger == mid.ledger + [Entry(p, Payback, gifts[p], Some(key))]
    ensures SameStakes(before, after)
    ensures forall k :: Amounts(after.ledger, Payback, k) == Amounts(before.ledger, Payback, k)
              + if k.round == key && k.player in order + [p] && k.player in gifts then [gifts[k.player]] else []
  {
  }

  ghost predicate Distinct(order: seq<Id>) {
    forall i, j :: 0 <= i < j < |order| ==> order[i] != order[j]
  }

  /** Everyone in the order with a gift can take it without overflowing an int64. */
  ghost predicate Affordable(db: DB, order: seq<Id>, gifts: map<Id, Cents>) {
    forall p :: p in order && p in gifts ==> p in db.players && db.players[p] + gifts[p] <= MAX_CENTS
  }

  function Refunds(bets: map<Id, BetRow>): map<Id, Cents> {
    map p | p in bets && bets[p].result.None? :: bets[p].amount
  }

  lemma SplitLast(order: seq<Id>)
    requires order != [] && Distinct(order)
    ensures order == order[..|order| - 1] + [order[|order| - 1]]
    ensures Distinct(order[..|order| - 1]) && order[|order| - 1] !in order[..|order| - 1]
    ensures forall p :: p in order <==> p in order[..|order| - 1] || p == order[|order| - 1]
  {
  }

  /** The refund loop of one round succeeds exactly when every refund fits, and then gives every
      unsettled bettor the stake back once. */
  lemma {:induction false} RefundsGive(db: DB, key: RoundKey, bets: map<Id, BetRow>, order: seq<Id>)
    requires BalancesOk(db) && EntriesOk(db) && Distinct(order)
    requires forall p :: p in order ==> p in bets && bets[p].amount > 0 && BetKey(key, p) in db.bets && p in db.players
    ensures RefundBets(db, key, bets, order).Success? <==> Affordable(db, order, Refunds(bets))
    ensures RefundBets(db, key, bets, order).Success? ==>
              Gave(db, RefundBets(db, key, bets, order).value, key, order, Refunds(bets))
    ensures RefundBets(db, key, bets, order).Success? ==> RefundBets(db, key, bets, order).value.bets == db.bets
  {
    if order != [] {
      SplitLast(order);
      var shorter, p := order[..|order| - 1], order[|order| - 1];
      RefundsGive(db, key, bets, shorter);
      var before := RefundBets(db, key, bets, shorter);
      if before.Success? {
        var gifts := Refunds(bets);
        var mid := before.value;
        if p in gifts {
          CreditPosts(mid, Entry(p, Payback, gifts[p], Some(key)));
        }
        if RefundBets(db, key, bets, order).Success? {
          GiveOneMore(db, mid, RefundBets(db, key, bets, order).value, key, shorter, p, gifts);
        }
      }
    }
  }

  function Winnings(bets: map<Id, BetRow>, side: Parity): map<Id, Cents> {
    map p | p in bets && ResultOf(bets[p], side).won && ResultOf(bets[p], side).payout > 0 :: ResultOf(bets[p], side).payout
  }

  /** The bets of one round with the results of some of its players recorded. */
  ghost predicate ResultsRecorded(before: DB, after: DB, key: RoundKey, order: seq<Id>, side: Parity) {
    && after.bets.Keys == before.bets.Keys
    && forall k :: k in before.bets ==>
         (after.bets[k] == if k.round == key && k.player in order then SettledBet(before.bets[k], side) else before.bets[k])
  }

  /** No result of the given players carries a negative (overflowed) payout. */
  ghost predicate NoneNegative(bets: map<Id, BetRow>, side: Parity, order: seq<Id>) {
    forall p :: p in order && p in bets ==> ResultOf(bets[p], side).payout >= 0
  }

  ghost predicate Payable(db: DB, bets: map<Id, BetRow>, side: Parity, order: seq<Id>, gifts: map<Id, Cents>) {
    Affordable(db, order, gifts) && NoneNegative(bets, side, order)
  }

  lemma PayableSplits(db: DB, bets: map<Id, BetRow>, side: Parity, order: seq<Id>, gifts: map<Id, Cents>, p: Id)
    requires p in bets && p in db.players
    ensures Payable(db, bets, side, order + [p], gifts) <==>
              && Payable(db, bets, side, order, gifts)
              && ResultOf(bets[p], side).payout >= 0
              && (p in gifts ==> db.players[p] + gifts[p] <= MAX_CENTS)
  {
  }

  /** The payout loop succeeds exactly when no payout is negative and every payout fits, and then
      records every result and pays every winner once. */
  lemma {:induction false} PayoutsGive(db: DB, key: RoundKey, bets: map<Id, BetRow>, side: Parity, order: seq<Id>,
                                       results: seq<Outcome>, gifts: map<Id, Cents>)
    requires BalancesOk(db) && EntriesOk(db) && Distinct(order)
    requires forall p :: p in order ==>
               p in bets && BetKey(key, p) in db.bets && db.bets[BetKey(key, p)] == bets[p] && bets[p].result.None? && p in db.players
    requires results == Outcomes(bets, side, order) && gifts == Winnings(bets, side)
    ensures PayAll(db, key, results).Success? <==> Payable(db, bets, side, order, gifts)
    ensures PayAll(db, key, results).Success? ==>
              && Gave(db, PayAll(db, key, results).value, key, order, gifts)
              && ResultsRecorded(db, PayAll(db, key, results).value, key, order, side)
  {
    if order != [] {
      SplitLast(order);
      var shorter, p := order[..|order| - 1], order[|order| - 1];
      var fewer := results[..|results| - 1];
      assert fewer == Outcomes(bets, side, shorter);
      PayoutsGive(db, key, bets, side, shorter, fewer, gifts);
      PayableSplits(db, bets, side, shorter, gifts, p);
      assert shorter + [p] == order;
      var before := PayAll(db, key, fewer);
      if before.Success? {
        assert results[|results| - 1] == OutcomeView(p, bets[p], side);
        PaysNext(db, before.value, key, bets, side, shorter, p, gifts, ResultOf(bets[p], side), results[|results| - 1]);
        assert PayAll(db, key, results) == PayOne(before.value, key, results[|results| - 1]);
      }
    }
  }

  lemma RecordingKeepsMoney(before: DB, mid: DB, after: DB, key: RoundKey, order: seq<Id>, gifts: map<Id, Cents>)
    requires Gave(before, mid, key, order, gifts)
    requires after == mid.(bets := after.bets) && after.bets.Keys == mid.bets.Keys
    ensures Gave(before, after, key, order, gifts)
  {
  }

  lemma RecordingResults(before: DB, mid: DB, after: DB, key: RoundKey, side: Parity, order: seq<Id>, p: Id)
    requires ResultsRecorded(before, mid, key, order, side)
    requires BetKey(key, p) in before.bets && p !in order
    requires after.bets == mid.bets[BetKey(key, p) := SettledBet(before.bets[BetKey(key, p)], side)]
    ensures ResultsRecorded(before, after, key, order + [p], side)
  {
  }

  lemma PaysNext(db: DB, mid: DB, key: RoundKey, bets: map<Id, BetRow>, side: Parity, order: seq<Id>, p: Id,
                 gifts: map<Id, Cents>, result: BetResult, o: Outcome)
    requires gifts == Winnings(bets, side)
    requires Gave(db, mid, key, order, gifts) && ResultsRecorded(db, mid, key, order, side)
    requires p !in order && p in bets && p in db.players
    requires BetKey(key, p) in db.bets && db.bets[BetKey(key, p)] == bets[p] && bets[p].result.None?
    requires result == ResultOf(bets[p], side) && o == OutcomeView(p, bets[p], side)
    ensures PayOne(mid, key, o).Success? <==>
              result.payout >= 0 && (p in gifts ==> db.players[p] + gifts[p] <= MAX_CENTS)
    ensures PayOne(mid, key, o).Success? ==>
              && Gave(db, PayOne(mid, key, o).value, key, order + [p], gifts)
              && ResultsRecorded(db, PayOne(mid, key, o).value, key, order + [p], side)
  {
    var k := BetKey(key, p);
    assert p in gifts <==> result.won && result.payout > 0;
    assert p in gifts ==> gifts[p] == result.payout;
    if result.payout >= 0 {
      var recorded := mid.(bets := mid.bets[k := SettledBet(bets[p], side)]);
      assert recorded.bets.Keys == mid.bets.Keys;
      RecordingKeepsMoney(db, mid, recorded, key, order, gifts);
      RecordingResults(db, mid, recorded, key, side, order, p);
      assert mid.bets[k] == bets[p];
      assert SettleBetRow(mid, k, result) == Success(recorded);
      PaysWinner(db, recorded, key, order, p, gifts);
    }
  }

  lemma PaysWinner(db: DB, recorded: DB, key: RoundKey, order: seq<Id>, p: Id, gifts: map<Id, Cents>)
    requires Gave(db, recorded, key, order, gifts) && p !in order && p in db.players && BetKey(key, p) in db.bets
    requires p in gifts ==> gifts[p] > 0
    ensures p !in gifts ==> Gave(db, recorded, key, order + [p], gifts)
    ensures p in gifts ==>
              var paid := CreditPlayer(recorded, Entry(p, Payback, gifts[p], Some(key)));
              && (paid.Success? <==> db.players[p] + gifts[p] <= MAX_CENTS)
              && (paid.Success? ==> Gave(db, paid.value, key, order + [p], gifts) && paid.value.bets == recorded.bets)
  {
    if p in gifts {
      var e := Entry(p, Payback, gifts[p], Some(key));
      CreditPosts(recorded, e);
      var paid := CreditPlayer(recorded, e);
      if paid.Success? {
        GiveOneMore(db, recorded, paid.value, key, order, p, gifts);
      }
    } else {
      GiveOneMore(db, recorded, recorded, key, order, p, gifts);
    }
  }
}
