/** The player's balance and the append-only ledger (internal/domain/player/player.go,
    db/queries/transactions.sql). */
module Wallet {
  import opened Types
  import opened Money
  import opened Game

  function Credited(balance: Cents, amount: Cents): Result<Cents> {
    if amount <= 0 then Failure(InvalidAmount) else Success(Wrap64(balance + amount))
  }

  function Debited(balance: Cents, amount: Cents): Result<Cents> {
    if amount <= 0 then Failure(InvalidAmount)
    else if balance < amount then Failure(InsufficientBalance)
    else Success(Wrap64(balance - amount))
  }

  /** A credit of a legal balance either is exact or wraps to a negative number, which the
      balance >= 0 constraint of the players table refuses; it is never silently wrong. */
  lemma CreditIsExactOrNegative(balance: Cents, amount: Cents)
    requires balance >= 0 && amount > 0
    ensures balance + amount <= MAX_CENTS ==> Credited(balance, amount) == Success(balance + amount)
    ensures balance + amount > MAX_CENTS ==> Credited(balance, amount).value < 0
  {
  }

  class Player {
    const id: Id
    var balance: Cents

    constructor (id: Id, balance: Cents)
      ensures this.id == id && this.balance == balance
    {
      this.id, this.balance := id, balance;
    }

    method Credit(amount: Cents) returns (r: Result<()>)
      modifies this
      ensures match Credited(old(balance), amount)
              case Success(b) => r == Success(()) && balance == b
              case Failure(e) => r == Failure(e) && balance == old(balance)
    {
      if amount <= 0 { return Failure(InvalidAmount); }
      balance := Wrap64(balance + amount);
      return Success(());
    }

    method Debit(amount: Cents) returns (r: Result<()>)
      modifies this
      ensures match Debited(old(balance), amount)
              case Success(b) => r == Success(()) && balance == b
              case Failure(e) => r == Failure(e) && balance == old(balance)
    {
      if amount <= 0 { return Failure(InvalidAmount); }
      if balance < amount { return Failure(InsufficientBalance); }
      balance := Wrap64(balance - amount);
      return Success(());
    }
  }

  // ---- the ledger --------------------------------------------------------------------------

  datatype Kind = Deposit | Withdraw | Stake | Payback

  /** bets_round_player_key: a bet is identified by its round and its player. */
  datatype BetKey = BetKey(round: RoundKey, player: Id)

  /** A transactions row. The type "bet" is Stake here and the type "payout" is Payback. */
  datatype Entry = Entry(player: Id, kind: Kind, amount: Cents, round: Option<RoundKey>)

  function Signed(e: Entry): int {
    if e.kind == Deposit || e.kind == Payback then e.amount as int else -(e.amount as int)
  }

  /** SumTransactionsByPlayer: deposits and payouts less withdrawals and bets. */
  ghost function Net(ledger: seq<Entry>, player: Id): int {
    if ledger == [] then 0
    else
      var last := ledger[|ledger| - 1];
      Net(ledger[..|ledger| - 1], player) + if last.player == player then Signed(last) else 0
  }

  /** The amounts of one kind written for one bet, oldest first. */
  ghost function Amounts(ledger: seq<Entry>, kind: Kind, bet: BetKey): seq<Cents> {
    if ledger == [] then []
    else
      var last := ledger[|ledger| - 1];
      Amounts(ledger[..|ledger| - 1], kind, bet)
        + if last.kind == kind && last.player == bet.player && last.round == Some(bet.round) then [last.amount] else []
  }

  lemma AppendAmounts(ledger: seq<Entry>, e: Entry)
    ensures forall kind, k :: Amounts(ledger + [e], kind, k) == Amounts(ledger, kind, k)
              + if e.kind == kind && e.player == k.player && e.round == Some(k.round) then [e.amount] else []
  {
  }
}
