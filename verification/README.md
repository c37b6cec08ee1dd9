# Verification of the betting-room engine and its ledger

A Dafny model, with proofs, of the part of cassino that handles money and time: players open a
room, the owner starts up to ten rounds, members bet on the parity of two dice while a window is
open, the engine settles each round when its window closes, and a room that can go no further is
aborted and its open stakes refunded. `dafny verify dfyconfig.toml` checks everything.

The model is built from the bottom up.

- **Values and arithmetic.** `Types`, `Money`, `Dice`, `Game`: int64 cents with wrap-around and
  truncating division, the parity of two dice, rows and aggregates, and what each domain operation
  does to them.
- **Domain classes.** `Aggregates`, `Wallet`: `Bet`, `Round`, `Room` and `Player` as classes whose
  methods update their fields, with the two insertion sorts in place on an array.
- **Store and use cases.** `Store` holds the five tables with their keys, CHECK constraints and
  guarded updates. `Transactions` says what each use case does inside its transaction and how a
  transaction can end: committed, rolled back, or committed while the caller is told it failed.
  `UseCases` is the same use cases as step-by-step code, proved against those functions.
- **What runs keep.** `StoreInvariant`, `Preservation`, `Steps`: an invariant of the store that every
  use case keeps, and the exact effect of every use case. `Results`, `Answers` and `Refusals` say what
  is stored, answered and refused in terms of the request, the rows and the dice alone, without the functions
  that compute it. `Runs` and `Lifetime` draw the conclusions over whole runs; `Persistence` says exactly when each use case succeeds and that reloading a room
  gives the aggregate that was saved.
- **The engine.** `LiveRounds` reduces the store to what timing depends on. `Protocol` is the engine as
  a state machine of 26 kinds of steps: callers in dispatch, the map of loops, each loop with its
  timer and live flag, channels, wait group, shutdown, crashes, and the recovery pass that every
  process runs before it serves (`internal/bootstrap/bootstrap.go:126-135`), interleaved in any
  order. `EngineInvariant` and `EngineSteps` hold its invariant and the proof that each step keeps it,
  `EngineSafety` and `Loops` the guarantees. The protocol keeps, as history, the rooms it calls unattended: those that a crash,
  a failed abort, or a start whose commit was reported as an error may have left with a round that nobody
  times. `Engine` is the same loop and registry as classes with mutable fields.
- **Recovery, cache, sessions.** `Recovery` is the pass over abandoned rooms, `StuckRooms` the rooms it
  cannot close; `Redis`, `Listing` and `Lobby` are the cached summaries, the open-room index, the
  listing's two paths, and the session bindings in front of creating, joining and withdrawing, one
  request after another. `Sessions` lets the steps of creates, joins and closes interleave, `IndexOrder`
  lets the cache writes arrive in any order, and `Stranded` holds runs that leave Redis behind.

`FiniteSets` holds maxima and sums over finite sets.

## Where the code falls short of its documentation

Each of these is a proved statement, not an impression.

- **Payout overflow.** The int64 payout is the exact floor of 1.92 times the stake exactly up to a stake of
  48038396025285290 cents (`Money.PayoutIsExactIff`). The next stake up wraps to a negative payout and a
  stake of 96076792050570582 wins one cent (`Money.PayoutOverflowExamples`). A negative payout makes the
  settlement fail on the CHECK constraint (`Persistence.SettleRule`), and the engine goes on to abort the room
  (`EngineSafety.SettlementEndsOrAborts`).
- **Aborts that can never succeed.** An abort of a room that is not closed commits exactly when every refund
  fits the balance it goes to (`Steps.AbortIs`). A player who bets and then deposits up to the int64 limit makes
  it fail (`StuckRooms.ARoomGetsStuck`), and from then on every abort of the room fails, the recovery pass of
  every later process included, until a settlement of that round commits (`StuckRooms.StuckRoomsStayStuck`).
- **A start reported as an error.** If the commit of a start succeeds but is reported as failed, the room has a
  betting round that no timer watches, with no crash and no failed abort involved
  (`EngineSafety.UnseenStartGoesUnnoticed`, and exactly then: `EngineSafety.StartDisagreesIff`).
- **Settling early.** The comment of `Round.Settle` says settling is legal only after the window; the method does
  not look at the clock (`Persistence.SettleRule` holds for every time). That no round is settled early is a
  property of the engine's timer alone (`EngineSafety.NeverSettledEarly`).
- **Other commits reported as errors** leave Redis behind: exactly those of a start, settlement, close or abort
  that changed the room's row (`Lobby.RoundOutOfStepIff`), of a creation (`Lobby.CreationOutOfStepIff`) and of a
  join that took a seat (`Lobby.JoinOutOfStepIff`). When it is a settlement that closes the room, the abort that
  the engine then tries is refused without touching Redis, and every member stays bound to a closed room and is
  refused every withdrawal (`Lobby.UnseenClosingStrandsMembers`). Runs in which each of these happens:
  `Stranded.UnseenSeats`, `Stranded.UnseenClosingOccurs`.
- **Two joins of one player for one room** at the same time can leave the player seated without a binding, with every
  commit reported and every Redis command successful (`Sessions.TwoJoinsSeatAnUnboundPlayer`): the second reads
  the claim of the first, which is taken back before the second commits. In any interleaving every seated
  player stays bound if and only if no join commits while its player is not bound to its room
  (`Sessions.SeatedPlayersAreBoundIff`).
- **Late cache writes.** The write that follows a commit can arrive after the write of a later commit. A join's
  `SaveRoom` that arrives after the `RemoveRoom` of a close lists the closed room as open
  (`IndexOrder.LateSaveRelistsAClosedRoom`), and nothing that follows takes it off the list
  (`IndexOrder.ClosedRoomsStayAsShown`). What the index shows of a room is right exactly when the write
  applied last carries the room's present row, or when the room takes no players and that write was an eviction
  (`IndexOrder.IndexIsRightIff`).

Within one process on one store, some of the code's own precautions turn out to be unreachable: the guard
of `removeLoop` never finds another loop's entry (`EngineSafety.RemovalIsOwn`), the default branch of the
inner select in `dispatch` is never taken
(`EngineSafety.ReceivedMeansAnsweredOnce`), a start is never refused with the error for the round cap, since an
open room at the cap has its last round undecided (`Refusals.StartRefusal`), and a loop never finds its round already resolved when it settles
(`EngineSafety.SettlementEndsOrAborts`).

## Model

| member | source | states |
|---|---|---|
| Money.PayoutIsExactIff | internal/domain/game/payout.go:55-60 | the int64 payout is the exact floor of 192/100 of the stake if and only if the stake is at most 48038396025285290 |
| Money.PayoutBounds | internal/domain/game/payout.go:50-60 | within that range a win returns at least the stake, less than twice the stake, and less than a cent below 1.92 times it |
| Money.PayoutIsMonotone | internal/domain/game/payout.go:55-60 | a larger stake never pays less |
| Money.SplittingAStake | internal/domain/game/payout.go:24-33 | splitting a stake never gains and loses at most a cent |
| Money.PayoutOverflowExamples | internal/domain/game/payout.go:35-36 | two stakes beyond the range for which the product wraps, to a negative payout and to one cent |
| Dice.HalfOfThePairsWin | internal/domain/game/dice.go:33-43 | among the 36 ordered rolls either choice wins exactly half |
| Dice.ReturnToPlayer | internal/domain/game/payout.go:5-22 | for either choice the total returned over the 36 rolls is 18 payouts, at most 96% of the turnover, short of it by less than 18 cents, equal to it iff 25 divides the stake |
| Dice.HouseKeepsFourPercent | internal/domain/game/payout.go:14-22 | the same bound summed over any list of bets |
| Game.TimeOrderIsUnique | internal/domain/game/round.go:148-161 | with distinct times there is one listing in time order, whatever the map iteration |
| Results.OutcomesAreRight | internal/domain/game/round.go:200-217 | the results of a settlement are of exactly the bets of the round, each once, in the order of placing, with the choice and amount of the bet, won exactly if the choice called the parity of the sum, and with the payout of a win or nothing |
| Results.Winners | internal/application/game/game.go:198-207 | the loop that filters the winners |
| Results.ShownWinnersCalledTheDice | internal/application/game/game.go:198-207 | a bettor is shown as a winner exactly if the bet called the dice |
| Aggregates.InsertLeft | internal/domain/game/room.go:132-136 | one pass of the insertion sort, in place: the sorted prefix grows by one and the array stays a permutation |
| Aggregates.ListByTime | internal/domain/game/room.go:127-138 | the sort lists every key of the map exactly once, in non-decreasing time order |
| Aggregates.Room.Players | internal/domain/game/room.go:127-138 | the players in joining order, each exactly once |
| Aggregates.Round.Bets | internal/domain/game/round.go:148-161 | the bets in placement order, each exactly once |
| Aggregates.SettleAll | internal/domain/game/round.go:200-209 | the loop over the bets resolves all of them when all are open, each won exactly if its choice is the outcome; otherwise it stops at the first that is not, with the earlier ones resolved and the later ones untouched |
| Aggregates.Round.Settle | internal/domain/game/round.go:169-185 | settlement resolves every bet and reports one result per bet in the order of placing, won exactly if the choice called the parity of the sum, with the payout of a win and nothing for a loss; a settled round, a failed roll or an impossible die changes nothing |
| Aggregates.Round.PlaceBet | internal/domain/game/round.go:117-139 | the window is half-open, one bet per player, and a refused bet changes nothing |
| Aggregates.Room.Join | internal/domain/game/room.go:171-189 | the seat is taken or the named refusal leaves the room unchanged |
| Aggregates.Room.StartRound | internal/domain/game/room.go:204-227 | the next round is live and the counter moved, or the named refusal leaves the room unchanged |
| Aggregates.Room.PlaceBet | internal/domain/game/room.go:231-245 | the bet joins the live round of a member's room, or nothing changes |
| Aggregates.Room.SettleRound | internal/domain/game/room.go:251-288 | the live round is settled, with right results, and a closing or tenth-round room closes with it |
| Aggregates.Room.Close | internal/domain/game/room.go:293-309 | closed at once when idle, closing with a live round, unchanged when already closing or refused |
| Wallet.CreditIsExactOrNegative | internal/domain/player/player.go:93-99 | a credit either is exact or wraps to a negative balance, which the CHECK constraint refuses |
| Wallet.Player.Credit | internal/domain/player/player.go:93-99 | the balance after a credit, or an unchanged balance and an error |
| Wallet.Player.Debit | internal/domain/player/player.go:103-112 | the balance after a debit that it covers, or an unchanged balance and an error |
| Preservation.CreditPosts | internal/application/game/settle_round.go:163-180 | a credit with its ledger entry succeeds iff the player exists and the new balance fits an int64, and then changes exactly one balance and appends exactly one entry |
| Preservation.DebitPosts | internal/application/game/place_bet.go:100-121 | the same for debits, iff the balance covers the amount |
| Preservation.RefundsGive | internal/application/game/abort_room.go:111-123 | the refund loop succeeds iff every refund fits, and gives every unsettled bettor the stake exactly once |
| Preservation.PayoutsGive | internal/application/game/settle_round.go:103-116 | the payout loop succeeds iff no payout is negative and every one fits, records every result and pays every winner exactly once |
| UseCases.Service.Commit | internal/infrastructure/postgres/tx.go:39-69 | all of the transaction or none of it, and what the caller is told |
| UseCases.Service.Deposit | internal/application/wallet/deposit.go:43-76 | the deposit as code leaves the store and the answer that its transaction function gives |
| UseCases.Service.Withdraw | internal/application/wallet/withdraw.go:80-118 | the same for a withdrawal |
| UseCases.Service.StartRound | internal/application/game/start_round.go:56-101 | the same for starting a round |
| UseCases.Service.PlaceBet | internal/application/game/place_bet.go:62-137 | the same for a bet: row, debit and entry, or nothing |
| UseCases.Service.PayWinners | internal/application/game/settle_round.go:103-116 | the loop over the results, stopping at the first error |
| UseCases.Service.SettleRound | internal/application/game/settle_round.go:75-155 | the same for a settlement, with an order of the bets that Bets() can return |
| UseCases.Service.CloseRoom | internal/application/game/close_room.go:46-93 | the same for a graceful close |
| UseCases.Service.RefundRoom | internal/application/game/abort_room.go:111-123 | the nested refund loops over the rounds and bets of a room |
| UseCases.Service.AbortRoom | internal/application/game/abort_room.go:84-148 | the same for an abort |
| Steps.StartIs | internal/application/game/start_round.go:65-97 | a committed start adds exactly round N+1 and moves the counter, only for an open room below its cap with nothing undecided |
| Steps.PlaceIs | internal/application/game/place_bet.go:77-132 | a committed bet adds exactly one bet row inside the window, one debit and one entry |
| Steps.SettleIs | internal/application/game/settle_round.go:84-155 | a committed settlement gives the round its result, every bet its result, every winner one payout, and closes the room if it was waiting |
| Steps.AbortIs | internal/application/game/abort_room.go:97-148 | an abort commits iff the room is not closed and every refund fits, and then closes the room and returns every open stake of the undecided round once |
| Steps.PerformKeeps | internal/application/game/engine.go:47-52 | every use case keeps the whole invariant of the store |
| Answers.SettledRoundsAreRight | internal/domain/game/round.go:200-217 | in every reachable store a settled round carries two dice between 1 and 6, their parity and a time, and an open one neither outcome nor time |
| Answers.StoredResultsAreRight | internal/domain/game/bet.go:86-100 | in every reachable store a bet has a result exactly when its round is settled, won exactly if its choice called the dice, with Payout(stake) or nothing |
| Answers.SettledTables | internal/application/game/settle_round.go:90-121 | a committed settlement writes the dice as rolled, their parity and the time to the round and nothing else to it, closes the room exactly if it was closing or has played ten rounds, and gives each bet of the round its right result |
| Answers.SettlementAnswers | internal/application/game/settle_round.go:123-150 | its answer: the round, the dice as rolled and their parity, right results, exactly the members with their committed balances, whether the room closed, and the reason |
| Answers.SettlementSucceedsIff | internal/application/game/settle_round.go:90-127 | with real dice a live round settles, at any time, exactly when every bet that called the dice has a payout that did not overflow and fits its balance |
| Answers.CloseAnswers | internal/application/game/close_room.go:58-87 | a close leaves the room closing exactly while a round is undecided, otherwise closed now with every member's committed balance in the answer |
| Answers.AbortAnswers | internal/application/game/abort_room.go:125-142 | a committed abort closes the room now and answers exactly the members with their committed balances |
| Answers.AbortReportsRefunds | internal/application/game/abort_room.go:104-142 | the balance a member is told is the one before the abort plus the stake of an undecided bet |
| Answers.DepositAnswers | internal/application/wallet/deposit.go:43-76 | a deposit succeeds exactly for a positive amount of a known player whose balance stays an int64, adds it with one entry, and answers the new balance |
| Answers.WithdrawalAnswers | internal/application/wallet/withdraw.go:80-113 | a withdrawal takes the amount with one entry and answers the new balance |
| Answers.CreationAnswers | internal/application/game/create_room.go:60-79 | a room opens exactly for a known player seated nowhere, at round 0, with that player alone in it |
| Answers.RejoinAnswers | internal/application/game/join_room.go:109-141 | a join answers that the player was a member already exactly for one seated in the open room |
| Answers.FatesMean | internal/infrastructure/postgres/tx.go:39-69 | success is reported exactly of a transaction that succeeded and whose commit is known, and the store has all of a transaction or none of it |
| Refusals.StartRefusal | internal/application/game/start_round.go:65-93 | the error of every refused start, first check first |
| Refusals.PlaceRefusal | internal/application/game/place_bet.go:69-121 | the error of every refused bet, first check first |
| Refusals.JoinRefusal | internal/application/game/join_room.go:109-141 | the error of every refused join |
| Refusals.CloseRefusal | internal/application/game/close_room.go:58-70 | the error of every refused close |
| Refusals.AbortRefusal | internal/application/game/abort_room.go:97-129 | the error of every refused abort: a missing room, a closed one, or a refund that does not fit |
| Refusals.SettlementRefusal | internal/application/game/settle_round.go:84-121 | the error of every refused settlement; with a live round and real dice it is one of the two that the money can raise |
| Refusals.WithdrawalRefusal | internal/application/wallet/withdraw.go:65-103 | the error of every withdrawal that the transaction refuses |
| Refusals.DepositRefusal | internal/application/wallet/deposit.go:43-66 | the error of every refused deposit |
| Runs.ReachableStoresAreGood | internal/application/game/game.go:13-20 | the invariant holds in every store that any run of use cases reaches, whatever fails on the way |
| Runs.EveryBetIsPaidOnce | internal/application/game/abort_room.go:22-33 | an accepted bet has one "bet" entry and no "payout" entry while open, exactly one of Payout(stake) iff it won, exactly one of the stake iff its room closed with the round undecided |
| Runs.NothingForOtherBets | internal/application/game/settle_round.go:103-116 | no ledger entry belongs to a bet that was not accepted |
| Runs.BalancesReconcile | db/migrations/000001_init.up.sql:117-119 | every balance is deposits plus payouts less withdrawals less bets, and not negative |
| Runs.MoneyIsConserved | db/queries/transactions.sql:13-22 | balances, open stakes and the house's result on settled rounds add up to deposits less withdrawals |
| Runs.ShapeOfRooms | internal/domain/game/room.go:204-323 | rounds are numbered 1..N without gaps, only the last can be undecided, a closing or full-length room waits for it, closed equals closed_at set, and a closed room with an undecided round has refunded it |
| Runs.SeatsAreExclusive | internal/application/game/join_room.go:39-50 | one to six seats per room, at most one room that is not closed per player, and only members bet |
| Runs.OpenStakeBlocksWithdrawal | internal/application/wallet/withdraw.go:80-90 | a player with an unresolved stake can withdraw nothing |
| Runs.WithdrawalRule | internal/application/wallet/withdraw.go:80-113 | the transaction of a withdrawal succeeds iff the amount is positive, covered, and the player sits in no room that is not closed |
| Runs.WinnersAreInTheBalances | internal/application/game/game.go:243-253 | every reported result belongs to a member whose reported balance is the committed one |
| Lifetime.StepFalls | internal/domain/game/room.go:204-309 | every step that changes a room lowers its lexicographic measure: status, rounds left, free seats, members yet to bet |
| Lifetime.RoomsChangeFinitelyOften | internal/domain/game/room.go:17-40 | in any run at most 3233 steps change a room |
| Lifetime.ClosedIsTerminal | internal/application/game/abort_room.go:22-33 | after a room has closed no run changes it, its rounds, its bets or their ledger entries |
| Lifetime.SettledIsFinal | db/queries/bets.sql:27-33 | in any run an accepted bet is never lost, never altered but by its result, and its result never changes |
| Lifetime.LedgerGrows | db/migrations/000001_init.up.sql:117-119 | every step only appends to the ledger |
| Persistence.StartRule | internal/domain/game/room.go:204-227 | a round starts iff the requester owns an open room below its cap with no round undecided |
| Persistence.PlaceRule | internal/domain/game/round.go:107-139 | a bet is accepted iff a member places it once, inside the half-open window of a live round, with a stake the balance covers |
| Persistence.SettleRule | internal/application/game/settle_round.go:84-155 | with valid dice a live round settles iff no payout overflowed and every one fits, at whatever time |
| Persistence.NothingToSettle | internal/domain/game/room.go:251-256 | a settlement without a live round is refused, with which error |
| Persistence.CloseRule | internal/application/game/close_room.go:59-93 | when an owner's close succeeds |
| Persistence.JoinRule | internal/application/game/join_room.go:109-141 | when a join takes a seat |
| Persistence.StartReloads | internal/infrastructure/postgres/round_repository.go:30-53 | reloading after a start gives the aggregate as it was in memory |
| Persistence.PlaceReloads | internal/infrastructure/postgres/round_repository.go:155-181 | the same after a bet, the bets included |
| Persistence.SettleReloads | internal/infrastructure/postgres/round_repository.go:130-153 | the same after a settlement, where the settled round reads back as no live round |
| Persistence.SettledBetsReload | internal/infrastructure/postgres/round_repository.go:155-181 | the bet rows of a settled round read back as the settled bets of the aggregate |
| Persistence.CloseReloads | internal/infrastructure/postgres/room_repository.go:71-109 | the same after a close |
| Persistence.JoinReloads | internal/infrastructure/postgres/room_repository.go:192-216 | the same after a join |
| LiveRounds.ExecutionIs | internal/application/game/engine.go:368-408 | which rooms get or lose a live round, and which answers are given, in one execution of any use case under any outcome of its transaction |
| LiveRounds.LiveSettlementErrors | internal/application/game/engine.go:417-426 | settling a live round never fails with an error that says there was nothing to settle |
| LiveRounds.NoBetWithoutLiveRound | internal/domain/game/round.go:117-139 | without a live round, or from its closing time on, every bet is refused |
| EngineSafety.NextKeeps | internal/application/game/engine.go:220-454 | every step of callers, loops, shutdown, crash and recovery keeps the invariant of the protocol |
| EngineSafety.DispatchAtMostOnce | internal/application/game/engine.go:106-118 | a command is executed at most once, directly only if no loop received it, and its caller gets that execution's answer, or an error that says it never ran (only a start is told that there is no loop), or stopped waiting |
| EngineSafety.ReceivedMeansAnsweredOnce | internal/application/game/engine.go:235-249 | a received command has one execution and one reply before done closes, and a caller that sees done finds the reply buffered |
| EngineSafety.ArmedBeforeAnswered | internal/application/game/engine.go:378-389 | by the time the reply of a successful start is sent, the alarm is set for exactly the closing time, or for an instant since then if that had passed |
| EngineSafety.OneLoopPerRoom | internal/application/game/engine.go:253-284 | at most one loop per room is in service, the map holds exactly the loops in service, and the wait group counts the loops not finished |
| EngineSafety.RemovalIsOwn | internal/application/game/engine.go:278-284 | a loop that removes itself finds its own entry and no successor's |
| EngineSafety.NoLoopAfterStopping | internal/application/game/engine.go:159-186 | after stopped no loop is added, and every loop in the map has been told to quit or is about to be |
| EngineSafety.LoopHeadsAgree | internal/application/game/engine.go:319-366 | at the select of an attended room the live flag, an armed timer and a live stored round are equivalent, the timer set for the closing time or for an instant since then |
| EngineSafety.LiveMeansLive | internal/application/game/engine.go:319-366 | in any room at all a loop believes in a round only if it is there, and overlooks one only in an unattended room |
| EngineSafety.FaultlessRunsAgree | internal/application/game/engine.go:319-366 | in a process life without a failed abort, a failed listing at boot or a start reported as an error they are equivalent for every loop, whatever crashed or went wrong before |
| EngineSafety.UnseenStartGoesUnnoticed | internal/application/game/engine.go:378-389 | a concrete run without crash or abort in which a loop idles while its room's round is live |
| EngineSafety.StartDisagreesIff | internal/application/game/engine.go:378-389 | a start puts loop and store out of agreement iff it was committed and reported as an error |
| EngineSafety.AbortLeavesRoundIff | internal/application/game/engine.go:441-454 | an abort leaves its room's round behind iff it was rolled back or a refund does not fit |
| EngineSafety.NeverSettledEarly | internal/application/game/engine.go:327-331 | from the moment a loop turns to settling, its round is live, the window is over, and no bet of anybody can be accepted then or later |
| EngineSafety.SettlementEndsOrAborts | internal/application/game/engine.go:412-438 | a settlement ends the live round, and the loop leaves exactly if the room has closed; a failing one goes on to abort the room, whose round is still live unless the settlement was committed |
| EngineSafety.EveryLiveRoundIsMinded | internal/application/game/engine.go:42-46 | every live round of an attended room has a loop in service that has the alarm set, for the closing time or an instant since then, or is arming, settling or aborting |
| EngineSafety.BootingAttendsTheRecovered | internal/bootstrap/bootstrap.go:126-135 | after a crash and until the new process serves, the unattended rooms are exactly those live at the crash less those whose abort succeeded |
| EngineSafety.CleanBootAttendsAll | internal/bootstrap/bootstrap.go:126-135 | a boot whose listing and aborts all succeed leaves no room unattended, and without faults none becomes so afterwards |
| EngineSafety.ShutdownLeavesNoLiveRound | internal/application/game/engine.go:150-186 | when the wait of Shutdown ends only unattended rooms have a live round, and none has if nothing went wrong since the process began to boot |
| EngineSafety.EngineRunsPayOnce | internal/application/game/engine.go:416-454 | in every state of the engine each bet was staked once and paid exactly: nothing while open, Payout(stake) once iff it won, the stake once iff its room closed with the round undecided; and its player's balance reconciles |
| Loops.ArmingIsExact | internal/application/game/engine.go:351-359 | arming sets the timer to the larger of the closing time of the live round and now |
| Loops.EveryAlarmWasArmed | internal/application/game/engine.go:341-366 | in every run a timer that is set was set by an earlier arming, for the closing time of the round then live or for the instant of arming |
| Loops.AlarmIsDueIff | internal/application/game/engine.go:327-331 | at the select of an attended room the alarm can fire exactly when a round is live and its window is over |
| Loops.CommandLeavesIff | internal/application/game/engine.go:373-408 | after a command the loop leaves exactly if it was a close that closed the room, and arms exactly after a successful start |
| Loops.ReplyLeavesIff | internal/application/game/engine.go:396-405 | once the reply is sent the loop leaves exactly if the answer says that the room has closed |
| Loops.QuittingAbortsIff | internal/application/game/engine.go:319-325 | a loop told to quit aborts its room only if a round is live, and always then in an attended room |
| Loops.LookingUpLeads | internal/application/game/engine.go:252-276 | a caller is refused by a stopped engine, sent to the room's loop, given a new one for a start, or left to run the use case itself |
| Loops.WaitingEndsWithTheAnswer | internal/application/game/engine.go:235-249 | a caller that stops waiting without cancelling returns the answer of the one execution of its command |
| Loops.SendingEndsWithoutLoop | internal/application/game/engine.go:227-233 | a caller whose loop is done before taking the command is told so for a start, and runs any other use case itself |
| Loops.OnlyStartsMakeLoops | internal/application/game/engine.go:252-276 | only a start makes a loop, for its own room, which has none, and not once the engine has stopped |
| Loops.RefusedOnlyWhenStopped | internal/application/game/engine.go:256-258 | in every reachable state only an engine that has stopped has refused a command unexecuted with that error |
| Engine.RoomLoop.Arm | internal/application/game/engine.go:351-359 | the timer fires exactly at the closing time, or at once if it has passed, and the live flag is set |
| Engine.RoomLoop.Handle | internal/application/game/engine.go:373-408 | one command: its effect on the store, its reply, the timer of a started round, and that the loop exits exactly after a close that closed the room |
| Engine.RoomLoop.Settle | internal/application/game/engine.go:412-438 | a settlement: the loop is done exactly if the room has closed, and after an error that is not about a settled round or a closed or missing room the abort follows |
| Engine.RoomLoop.Abort | internal/application/game/engine.go:441-454 | the live flag is cleared only by an abort that succeeds |
| Engine.Engine.LoopFor | internal/application/game/engine.go:253-276 | refused when stopped, the room's loop if there is one, a new counted loop if asked to create |
| Engine.Engine.RemoveLoop | internal/application/game/engine.go:278-284 | the loop's own entry goes, another loop's stays |
| Engine.Engine.Shutdown | internal/application/game/engine.go:159-174 | every loop of the map is told to quit once, and a second call does nothing |
| Recovery.RecoverRooms | internal/application/game/recover.go:53-75 | rooms found equal rooms closed plus failures, the failures are exactly the rooms still not closed and those whose abort was committed and reported as an error, and a pass that reports none leaves every room closed, every undecided stake given back and nothing to list |
| StuckRooms.StuckRoomsStayStuck | internal/application/game/abort_room.go:97-148 | in any run that commits no settlement of the room, a live round with a refund that does not fit stays so, and every abort of the room fails |
| StuckRooms.ARoomGetsStuck | internal/application/wallet/deposit.go:43-76 | a reachable store with such a room: one cent bet, then a deposit of the largest int64 |
| StuckRooms.UseCaseDoesNotRelieve | internal/application/game/abort_room.go:156-173 | no other use case makes a bettor of a live round poorer, removes a bet or ends the round |
| Redis.RedisStore.SaveRoom | internal/infrastructure/redis/room_state_store.go:47-63 | an open room is indexed, any other status evicted from the index |
| Redis.RedisStore.FinalizeRoomCache | internal/application/game/close_room.go:105-123 | a closed room is evicted and all its members released, any other is saved |
| Listing.Page | internal/application/game/list_rooms.go:83-92 | the slice is what LIMIT and OFFSET would keep |
| Listing.ListOpenRooms | internal/application/game/list_rooms.go:39-68 | which path answers, with a page of which rooms newest first, and what is written to the cache |
| Listing.PagesAreRight | internal/application/game/game.go:225-237 | a page shows different open rooms, each with the owner, status, round, number of players and creation time of its row and the caps of ten rounds and six players, newest first, as many as limit and offset leave |
| Listing.PathsAgree | internal/application/game/list_rooms.go:36-38 | with an exact index and distinct creation times both paths return the same page for every limit and offset |
| Listing.PathsAgreeUpToPrecision | internal/application/game/list_rooms.go:36-38 | with cached times in nanoseconds and stored ones cut to microseconds both paths return the same rooms in the same order, equal but for that cut, when the stored times are distinct |
| Listing.AgreementNeedsIndex | internal/application/game/list_rooms.go:36-38 | conversely, if both paths give the same whole listing the index is exact |
| Listing.ListingKeepsIndex | internal/application/game/list_rooms.go:62-66 | warming an exact index with a page leaves it exact |
| Listing.PagesConcatenate | internal/application/game/list_rooms.go:83-92 | consecutive pages of any size concatenate to the listing |
| Lobby.Lobby.CreateRoom | internal/application/game/create_room.go:46-96 | claim, transaction, and the claim undone exactly when the transaction failed |
| Lobby.Lobby.AcquireSeatMutex | internal/application/game/join_room.go:160-174 | the lock is taken iff it is free at one of the four attempts |
| Lobby.Lobby.JoinRoom | internal/application/game/join_room.go:52-155 | every way a join can end, with store and Redis afterwards, when other requests bind or release the player between the read and the claim |
| Lobby.FailureKeepsBindings | internal/application/game/join_room.go:83-84 | a create or join that fails leaves every binding as it found it, what other requests did to the player's binding in between included |
| Lobby.CreateAnswers | internal/application/game/create_room.go:46-96 | with Redis in step a creation succeeds exactly for a known player seated nowhere, a new room and a known commit, and a seated player is refused |
| Lobby.JoinAnswers | internal/application/game/join_room.go:57-155 | with Redis in step a join by itself succeeds exactly for a player seated in the room, or with the lock free at one of four attempts and a known commit for a known player seated nowhere and an open room with a free seat; the errors for a player seated elsewhere and for a lock that stays taken |
| Lobby.ServingStaysInStep | internal/application/game/close_room.go:99-104 | a use case whose commit is reported, run with its cache writes before the next begins, keeps the index equal to the open rooms and the bindings equal to the seats |
| Lobby.RedisStaysInStep | internal/application/game/list_rooms.go:30-38 | so do whole runs of use cases and listings, one after another, as long as every commit is reported and every write succeeds |
| Lobby.ListingsAreExact | internal/application/game/list_rooms.go:36-68 | in such a run every listing is the page of the open rooms the database would return: different open rooms with the fields of their rows, newest first, as many as limit and offset leave; with distinct creation times the only such page |
| Lobby.RedisRefusesWhatTheStoreRefuses | internal/application/wallet/withdraw.go:60-78 | the early check in Redis and the check in the transaction agree on who sits in a room |
| Lobby.Lobby.Withdraw | internal/application/wallet/withdraw.go:65-118 | a withdrawal with its early check: a bound player never reaches the transaction |
| Lobby.EarlyCheckChangesNothing | internal/application/wallet/withdraw.go:60-64 | with Redis in step the early check refuses nobody whom the transaction would let withdraw |
| Lobby.CreationOutOfStepIff | internal/application/game/create_room.go:44-79 | a creation breaks that agreement iff it was committed and reported as an error |
| Lobby.RoundOutOfStepIff | internal/application/game/settle_round.go:152-158 | a start, settlement, close or abort breaks that agreement iff it was committed, reported as an error and changed the room's row |
| Lobby.JoinOutOfStepIff | internal/application/game/join_room.go:142-153 | a join breaks it iff it took a seat and was reported as an error |
| Lobby.UnseenClosingStrandsMembers | internal/application/game/engine.go:445-451 | after a settlement that closed the room unreported, the engine's abort is refused and writes nothing, and every member stays bound and is refused every withdrawal |
| Sessions.NextKeeps | internal/application/game/join_room.go:57-155 | with every commit reported and a new id for every created room, each Redis command and transaction of interleaved joins, creates and closes, except the commit of a join whose player is not bound to its room, keeps each binding explained by a seat or by the request that holds it |
| Sessions.SeatedPlayersAreBoundIff | internal/application/game/join_room.go:39-46 | in any such interleaving, several requests of one player included, every seated player is bound to the room in every state up to a point iff no join committed before it while its player was not bound to its room; and then the bindings are exactly the seats when nothing is going on |
| Sessions.JoinBindsIff | internal/application/game/join_room.go:109-147 | the same for one join from any store whose seated players are bound |
| Sessions.SeatedPlayersAreBound | internal/application/game/join_room.go:39-46 | a guard that callers can keep suffices: with one join or create per player at a time, and every commit reported, no join commits unbound and every seated player is bound |
| Sessions.JoinsHoldTheirClaim | internal/application/game/join_room.go:83-103 | under the same guard no join reaches its transaction without a claim of its own, or has its claim refused |
| Sessions.TwoJoinsSeatAnUnboundPlayer | internal/application/game/join_room.go:57-147 | an interleaving of two joins of one player that ends with the player seated and unbound |
| IndexOrder.CacheNextKeeps | internal/application/game/settle_round.go:152-158 | commits with their pending writes, other transactions, listings that read a room to save it, and writes applied at any later time keep the rows of each room in order and the index equal to what the write applied last shows |
| IndexOrder.IndexIsRightIff | internal/infrastructure/redis/room_state_store.go:47-63 | in whatever order writes arrive, the index is right about a room iff no later commit outdated the write applied last, or the room takes no players and that write was an eviction |
| IndexOrder.InOrderIndexIsExact | internal/application/game/close_room.go:105-123 | when the writes of each room, those of listings included, arrive in the order of the rows they carry, once none is pending the index lists exactly the open rooms |
| IndexOrder.ClosedRoomsStayAsShown | internal/infrastructure/redis/room_state_store.go:101-109 | once the last write of a closed room has arrived, whatever the index then shows of it stays, in any continuation |
| IndexOrder.LateSaveRelistsAClosedRoom | internal/application/game/join_room.go:148-153 | a run in which a join's write arrives after that of a close, and a closed room is listed as open with no write left |
| Stranded.UnseenSeats | internal/application/game/create_room.go:66-79 | a run after which an unreported creation, and likewise an unreported join, seats a player who is not bound |
| Stranded.UnseenClosingOccurs | internal/application/game/engine.go:412-454 | a run with a round started and the room closed by its owner, after which a settlement that ends both is reported as an error, the abort is refused, and a player stays bound to a closed room |

## Left out

- Isolation: a transaction is one atomic step. `PlaceBet` reads its room without a row lock, and nothing is claimed of interleavings inside transactions.
- Surrogate keys: rounds, bets and ledger entries are identified by the keys the schema declares unique, (room, number) and (round, player); UUID generation and blank-id checks are not modelled.
- `FindActiveRoomForPlayer` returns one row of a query; the model keeps the set of rooms, which is the same since it never has two.
- `WithdrawFunds` is the transaction of a withdrawal alone; the early session check in front of it is in `Lobby.Lobby.Withdraw`.
- One process: no other engine works on the same store, and recovery runs before its own serves. What settle() says of another process resolving the round is outside the model.
- Map iteration orders, the clock, dice, transaction outcomes and the contention of the join lock are parameters, quantified over in every statement.
- Uniformity of crypto/rand: a roll is any pair or an error; the return to player is a count over the 36 pairs.
- Redis expiry and failing Redis calls: bindings, locks and entries do not expire and writes succeed, except that `Listing.ListOpenRooms` allows the cache to be down.
- Interleaving of requests is modelled for the session bindings (`Sessions`) and for the open-room index (`IndexOrder`), each on its own; `Lobby` has both together for requests that run one after another. Losing the index is not modelled: a listing after it warms one page only and the paths then disagree, as `Listing.AgreementNeedsIndex` implies.
- Precision of times: the clock has nanoseconds (`internal/infrastructure/clock/clock.go:23`) and the TIMESTAMPTZ columns keep microseconds; the model has one time type for both, so what follows compares times only up to a microsecond.
- Persistence.StartReloads: the opening and closing times of the reloaded round are those in memory up to the precision of the columns.
- Persistence.PlaceReloads: the same for the time of placing.
- Persistence.SettleReloads: the same for the time of settling and of closing.
- Persistence.CloseReloads: the same for the time of closing.
- Persistence.JoinReloads: the same for the time of joining.
- Listing.PathsAgree: the summary cached at creation carries nanoseconds that the stored row lacks; `Listing.PathsAgreeUpToPrecision` is what remains.
- Lobby.ListingsAreExact: the same difference in the creation times of listed rooms.
- IndexOrder.IndexIsRightIff: the same difference in the creation times of the summaries.
- IndexOrder.InOrderIndexIsExact: the same.
- Answers leave out what only names things: the list of members in joining order (they are the keys of the balances, and `Aggregates.Room.Players` is the list), surrogate ids, the sum of the dice, and the reason texts of closes and aborts.
- Refusals.SettlementRefusal: which of the two money errors it is, when a settlement would raise both, depends on the order of the bets and is not said.
- `sort.Slice` is modelled by the insertion sort of the domain package: any sort that returns a permutation in order will do.
- `Room.Leave` and the `SettleWithDice` variants have no caller among the use cases.
- Liveness: no scheduler fairness, so nothing says that a loop ever runs or that Shutdown's wait ends; the timeout of that wait and of database operations appears as a use case that fails.
- Dispatch is modelled in `Protocol` as steps over values: channels and goroutines have no counterpart as Dafny objects. `Engine` models the fields the goroutines update.
- Notifications, REST and WebSocket handlers, authentication, audit logging, configuration and migrations: transport and plumbing without an invariant of their own.
