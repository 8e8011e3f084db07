# Money-moving protocols of the colour game

A Dafny model of how money moves in the server and payment applications, with proofs about every run:
any number of engines, workers, administrators and users, in any interleaving, with crashes and lost
replies between any two steps. `dafny verify dfyconfig.toml` checks all of it.

A transaction, a single statement, or a read made outside a transaction is one atomic step. What a running
call remembers between two of its steps may be out of date. The proofs rest on what the code rests on:
conditional updates, unique keys and PENDING filters.

**Coin game.** `Ledger` says what one movement does to the two pots and the append-only ledger, `LedgerLaws`
what every movement keeps, `LedgerKeys` that different keys are different strings. `Bets` has the bets table
and its sums, `Results` the colour of a seed. `Game` is the state machine of rounds, bets, settlements and
running calls. `GameMoney`, `GameRounds` and `GameSafety` prove its invariant; `GameTheorems`,
`GameProgress` and `GameClosure` say what the invariant means for runs. `GameRefinement` and `GamePots` say that
settlement in many crash-prone transactions is settlement in one pass: the first to the last ledger row, while
other calls leave money alone, the second under any interference at all. `GameCorners` shows
where the engine keeps less than one might expect. `GameExact` says in plain terms when each transaction takes
effect and what it leaves, and `GameTicks` the same of the steps of an engine tick. `WalletBook`, `GameStore`, `SettlementService` and `GameServices`
are the services themselves, with their loops and branches, over mutable tables. Every write they make is
proved to be a step of the machine, so what is proved of runs holds of them; between two steps they let
arbitrary other calls act. Their contracts say what holds whatever those calls do, and what exactly happens when
there are none. `EngineLease` is the scheduler's flag and the Redis lease.

**Real-money sandbox.** `RealMoney` has its transactions, `RealMoneyLaws` and `RealMoneySafety` the invariant
behind the available and locked pots, `RealMoneyTheorems` what follows, `RealMoneyExact` what each
transaction does in plain terms, `RealMoneyService` the code.

**Payments.** `Payments` has both services and the worker between them, `PaymentLaws` the invariant,
`PaymentTheorems` exactly-once crediting, `PaymentExact` what each step does in plain terms and that a payment
made in time is credited, `PaymentServices` the code.

**Smaller cores.** `Pagination`, `EventDedupe`, `Sessions`.

A tick may resolve a round before its end time: one it found INIT, or OPEN past its lock time, when another call
has decided it between its first read and the one it makes after opening or locking (`GameCorners.TickCanResolveEarly`
is such a run). `EnsureLifecycle` says that this is the only case.

Where the code keeps less than its documentation or its naming suggests, there is a lemma with a run that
shows it and a lemma that says exactly when it happens:

- A cancelled round can become completed (`GameCorners`): the last update of a forced result is unguarded.
- A finished real-money settlement can be marked failed, and its retry records totals of zero (`RealMoneyTheorems`).
- An engine without a Redis client drives rounds beside one that holds the lease (`EngineLease.LeaseExcludesIff`).
- A delivered outbox row can go back to pending and a credited intent can be marked expired
  (`PaymentTheorems`); neither leads to a second credit.
- A paged walk skips rows written in the same millisecond (`Pagination`): cursors hold milliseconds, the
  database microseconds.
- The dedupe set keeps an empty event id for ever (`EventDedupe`).
- A bet whose client key has more than 113 characters never fits the ledger key column, although the request
  schema accepts 160 (`GameTheorems.BetIsAcceptedIff`).
- A bet can be answered with a conflict of its client key although no bet has that key: when the bettor has no
  wallet and an administrator used the key of the opening coins (`GameCorners.FreshKeyCanConflict`).
- The retry pause of the outbox never reaches its cap of 300 seconds (`PaymentTheorems.DelayDoubles`).

Assumptions: transactions are serializable; ids are unique, and positions in their table; the digest function
of the game is injective (theorems that need it require `ConfigOk`); request amounts have passed the request
schema. Clock tests, random seeds, the provider's answers and what a cache returns are arbitrary values.

## Model

| member | source | states |
|---|---|---|
| LedgerLaws.DebitTakesDepositFirst | apps/server/src/modules/wallet/wallet.service.ts:369-399 | a debit is refused iff it exceeds both pots; it spends winnings only once the deposit pot is empty; a credit lands in one pot and never fails |
| LedgerLaws.MovementAnswers | apps/server/src/modules/wallet/wallet.service.ts:279-355 | every answer of a movement inside a transaction, and exactly when it is given: amount, key already used, opening blocked, wallet inactive, key too long, too little in both pots, or moved |
| LedgerLaws.MovementEffect | apps/server/src/modules/wallet/wallet.service.ts:369-399 | what a movement that went through did to each pot, pot by pot, and the ledger row it wrote, field by field |
| LedgerLaws.StandAloneAnswers | apps/server/src/modules/wallet/wallet.service.ts:145-277 | with a free key the stand-alone form answers like the other; a debit that exceeds both pots commits a FAILED row with the balance as it was, every other refusal commits nothing |
| LedgerLaws.PostKeepsBank | apps/server/src/modules/wallet/wallet.service.ts:279-355 | a movement inside a transaction keeps snapshot, ledger sum, version count, chain of balances and unique keys in agreement for every user |
| LedgerLaws.PostAloneKeepsBank | apps/server/src/modules/wallet/wallet.service.ts:166-215 | so does the stand-alone form, also when it commits a FAILED row |
| LedgerLaws.EveryRunAgrees | apps/server/src/modules/wallet/wallet.service.ts:145-277 | from any state where it holds, the agreement holds after every sequence of stand-alone movements |
| LedgerLaws.NeighbouringRowsChain | apps/server/src/modules/wallet/wallet.repository.ts:152-173 | a user's next ledger row, FAILED ones included, starts from the balance the previous one left |
| LedgerLaws.OneKeyMovesOnce | apps/server/prisma/schema.prisma:332 | one key has at most one row, and once it has one no movement under it, in either form, moves money |
| LedgerLaws.EnsureWalletKeepsBank | apps/server/src/modules/wallet/wallet.repository.ts:61-97 | a wallet and its opening row appear together and agree |
| LedgerKeys.RenderingIsInjective | apps/server/src/modules/game/services/settlement.service.ts:137-142 | keys the services build are equal as strings iff they are the same key, so refund, recovery, settlement, debit and opening keys never collide |
| WalletBook.Book.Apply | apps/server/src/modules/wallet/wallet.service.ts:145-277 | whatever other calls do in between, the answer is true of the row under the key at the end: moved, replayed, failed before, or taken by another operation; "moved" only if the key was free |
| WalletBook.Book.ApplyInTransaction | apps/server/src/modules/wallet/wallet.service.ts:279-355 | the method does to wallets and ledger what the specification of a movement says, branch by branch |
| WalletBook.Book.EnsureWalletForUser | apps/server/src/modules/wallet/wallet.repository.ts:61-97 | creates wallet and opening row, or reports the key conflict and changes nothing |
| GameTheorems.CoinsAreConserved | apps/server/src/modules/bet/services/bet.service.ts:52-121 | in every reachable state a wallet is 1000 plus net adjustments minus all stakes plus payouts of won bets plus stakes of cancelled ones, equals its ledger sum, and both pots are non-negative |
| GameTheorems.OneDispositionPerBet | apps/server/src/modules/game/services/settlement.service.ts:137-144 | every bet has one debit row, and one refund row (under either key, never both) iff it is cancelled; it has a payout, twice the stake, iff it is won |
| GameTheorems.OneCreditPerWinner | apps/server/src/modules/game/services/settlement.service.ts:223-263 | a settlement row for a round and user exists, once, iff the user has won bets there, and pays the sum of their payouts |
| GameTheorems.OneBetPerClientKey | apps/server/src/modules/bet/services/bet.service.ts:123-163 | calls that share a client key leave one bet and one debit row, however they interleave |
| GameTheorems.BetIsAcceptedIff | apps/server/src/modules/bet/services/bet.service.ts:52-121 | a fresh bet is accepted iff the round is open before its lock time and not paused, both caps hold, the wallet is active, or can be opened for a bettor who has none, and covers the stake, and the ledger key fits and is free |
| GameTheorems.ExposureIsBounded | apps/server/src/modules/bet/services/bet.service.ts:65-93 | the stakes of the live bets of a user, and of those on a colour, stay under their caps in every run, and the won bets of a round pay at most twice the colour cap together |
| GameTheorems.PayoutGuardIsUnreachable | apps/server/src/modules/game/services/settlement.service.ts:219-242 | if twice the user cap is a safe integer, no due payout and no stake exceeds one |
| GameTheorems.OneActiveRoundAndNoGap | apps/server/src/modules/game/services/round.service.ts:118-142 | at most one round is active and round numbers are 1..k without a gap, across engines with stale numbers and forced starts |
| GameTheorems.StatusNeverGoesBack | apps/server/src/modules/game/repositories/game.repository.ts:150-166 | a round's status rank never falls and its number, seed, hash and first result never change |
| GameTheorems.NoBetAfterOpen | apps/server/src/modules/bet/repositories/bet.repository.ts:41-58 | a round that has left OPEN never gets another bet |
| GameTheorems.DecidedBetsAreFixed | apps/server/src/modules/game/repositories/game.repository.ts:302-316 | a bet that is won, lost or cancelled never changes again |
| GameTheorems.CommitReveal | apps/server/src/modules/game/services/round.service.ts:190-237 | the seed is shown iff the round is completed, hashes to the committed hash, and unless the result was forced the first four bytes of that hash, as a number modulo three, draw it |
| GameTheorems.OnlyForceResultForces | apps/server/src/modules/admin/admin.service.ts:562-599 | in every run, a round is marked as forced only if some action of the run forced the very result it was decided with, at a time when nobody had decided it |
| GameTheorems.ResultIsColourOfCommittedSeed | apps/server/src/modules/game/services/result.service.ts:14-33 | in every run without a forced result, a completed round reveals the seed it committed to, and the result is the colour that seed draws: red, green or violet by the remainder 0, 1 or 2 of the first four bytes |
| Results.ResultIsDrawn | apps/server/src/modules/game/services/result.service.ts:4-33 | every digest draws exactly one colour, by the remainder modulo three of its first four bytes read as a big-endian number, and that is the result |
| GameTheorems.BadSeedLeadsToRecovery | apps/server/src/modules/game/services/round.service.ts:195-207 | a missing or mismatched seed sends the engine to recovery and leaves the rounds as they are |
| GameTheorems.FinishedSettlementIsExact | apps/server/src/modules/game/services/settlement.service.ts:69-91 | a SUCCESS row records how many bets the round has, how many of them won and how many lost, and what the won ones pay; nothing of the round is pending, winners chose the result and are paid twice their stake, losers did not |
| Bets.CountsAreCardinalities | apps/server/src/modules/game/repositories/game.repository.ts:432-451 | each counting measure is the number of bets of the round with the status its name says |
| Bets.MeasuresAreTotals | apps/server/src/modules/bet/repositories/bet.repository.ts:73-105 | each stake measure is the sum of the stakes of the bets its name says: the live ones of a user, the live ones on a colour; the payout measure sums what won bets pay |
| GameTheorems.SettlersAgree | apps/server/src/modules/game/services/settlement.service.ts:43-53 | all calls settling a round carry the same result as its settlement row, so the result conflict cannot stop them |
| GameTheorems.WinnerIsPaidIff | apps/server/src/modules/game/services/settlement.service.ts:223-263 | if twice the user cap is a safe integer, a winner's transaction goes through iff the wallet is active and no row, which could only be an administrator's, sits under the settlement key |
| GameMoney.PendingCreditIsNeverReplayed | apps/server/src/modules/game/services/settlement.service.ts:244-249 | the settlement credit never takes the replay branch while the user has unpaid winners |
| GameMoney.PendingRefundIsNeverReplayed | apps/server/src/modules/admin/admin.service.ts:1107-1130 | nor does the refund of a pending bet, under either key |
| GameMoney.NewDebitIsNeverReplayed | apps/server/src/modules/bet/services/bet.service.ts:95-108 | nor does the debit of a new bet |
| GameMoney.RefundingEachKeepsBooks | apps/server/src/modules/admin/admin.service.ts:1107-1145 | the refund loops cancel exactly the listed pending bets and keep all books |
| GameSafety.StepKeepsInv | apps/server/src/modules/game/services/round.service.ts:68-111 | every step of every actor keeps the whole invariant |
| GameSafety.ReachableIsOk | apps/server/src/modules/game/services/round.service.ts:68-263 | the invariant holds after every run |
| GameRounds.StaleNumberIsTaken | apps/server/src/modules/game/services/round.service.ts:118-142 | a round number computed from a stale read is free iff the read is not stale |
| GameRounds.ControlActionIsGood | apps/server/src/modules/game/services/round.service.ts:68-263 | engine steps keep the control invariant and touch no bet and no wallet |
| GameProgress.RunOnlyAppends | apps/server/src/modules/wallet/wallet.repository.ts:152-156 | no run changes or removes a ledger row |
| GameProgress.RunOnlyDecides | apps/server/src/modules/game/repositories/game.repository.ts:245-269 | in a closed round bets are only decided, once, and none is added |
| GameProgress.WinnersBecomeFewer | apps/server/src/modules/game/repositories/game.repository.ts:353-430 | pending winners of a closed round never increase, and strictly fall when one is decided |
| GameProgress.FinishedSettlementIsFixed | apps/server/src/modules/game/repositories/game.repository.ts:453-499 | a SUCCESS settlement row never changes, whoever settles the round again |
| GameRefinement.CrashAndRetryEqualsOnePass | apps/server/src/modules/game/services/settlement.service.ts:40-119 | however settlement is cut, refused by inactive wallets, retried, shared and ordered, while users register and wallets are switched off and on: once nothing is pending, the bets are those of one pass, and so are the money and the ledger rows of every user |
| GamePots.SettlementSurvivesInterference | apps/server/src/modules/game/services/settlement.service.ts:40-119 | in every run whatever, with bets, adjustments, refunds and other rounds in between: once nothing of a settled round is pending, each of its bets is decided as in one pass or was refunded, and each wallet is the old one with its winning pot raised once by what the user won there (all that was due, if nothing was refunded), on which the other ledger rows acted as written |
| GamePots.LedgerDeterminesPots | apps/server/src/modules/wallet/wallet.service.ts:369-399 | in every reachable state replaying a user's ledger rows gives both pots of the wallet, not only their sum |
| GamePots.CreditsCommute | apps/server/src/modules/wallet/wallet.service.ts:369-399 | winnings may be credited before or after any other movement: the pots come out the same |
| GameRefinement.AnyTwoSchedulesAgree | apps/server/src/modules/game/services/settlement.service.ts:189-212 | two schedules of the same settlement end with equal bets, and with equal money and ledger rows for every user |
| GameClosure.StepFollowsLifecycle | apps/server/src/modules/game/repositories/game.repository.ts:150-166 | every change of a round status goes along an edge of the lifecycle, taken by the step that edge belongs to |
| GameClosure.NoStakeIsLeftHanging | apps/server/src/modules/game/services/settlement.service.ts:121-148 | in every reachable state a pending bet lies in an active round: completing or cancelling a round leaves no stake behind |
| GameClosure.CancellingEmptiesRound | apps/server/src/modules/admin/admin.service.ts:1092-1163 | a cancelling transaction that commits refunds every pending bet of its rounds |
| GameCorners.TerminalStatusChangesIff | apps/server/src/modules/admin/admin.service.ts:615-622 | a terminal status changes iff a forced result that has settled the round writes COMPLETED over CANCELLED |
| GameCorners.CancelledRoundCanComplete | apps/server/src/modules/admin/admin.service.ts:615-622 | a run on which that happens |
| GameExact.AdjustmentTakesEffectIff | apps/server/src/modules/admin/admin.service.ts:732-775 | an adjustment takes effect iff amount, key, wallet and, for a debit, balance allow it; a credit then raises the wallet by the amount, into the deposit pot, a debit lowers it, deposit pot first, and the row says exactly what was asked for |
| GameExact.AdjustmentIsReported | apps/server/src/modules/admin/admin.service.ts:732-775 | the caller is told "moved" iff it took effect, with the row that is now under the key, and "replayed" iff the same adjustment holds the key already, with that row |
| GameExact.BetIsTakenIff | apps/server/src/modules/bet/services/bet.service.ts:52-121 | a bet is taken iff none of the objections holds: phase, user cap, colour cap, client key, ledger key, wallet, balance; then it is pending in the table and its stake left the pots, deposit pot first; otherwise nothing happens |
| GameExact.RefundingGoesThroughIff | apps/server/src/modules/admin/admin.service.ts:1105-1160 | the refund loop commits iff each listed refund goes through by itself: its wallet is active and its key free |
| GameExact.CancellingCommitsIff | apps/server/src/modules/admin/admin.service.ts:1092-1163 | a cancelling transaction commits iff every pending bet of its rounds can be refunded, cancels exactly those bets, and otherwise leaves everything as it was |
| GameExact.ForceStopTakesEffectIff | apps/server/src/modules/admin/admin.service.ts:474-530 | the active round is cancelled with its pending bets iff there is one and all its stakes can go back |
| GameExact.ForceStartTakesEffectIff | apps/server/src/modules/admin/admin.service.ts:384-461 | active rounds are cancelled and a new open round with the next number and a committed seed follows iff all their stakes can go back |
| GameExact.RecoveryTakesEffectIff | apps/server/src/modules/game/services/settlement.service.ts:121-148 | recovery cancels its round and forgets its result iff the round is still active and all its stakes can go back; otherwise nothing changes |
| GameExact.ForceResultTakesEffectIff | apps/server/src/modules/admin/admin.service.ts:562-599 | a forced result is accepted iff a round is active and has no other result, and the round then is resolving with it |
| GameExact.GoodSeedSettles | apps/server/src/modules/game/services/round.service.ts:190-226 | with the committed seed resolving never recovers: it settles with the recorded result or the colour the seed draws, and stops iff another call has moved the round on |
| GameTicks.BecameResolving | apps/server/src/modules/game/services/round.service.ts:89-106 | a round that is resolving now and was not when a tick began was resolved or forced by another call, unless the tick did it |
| GameCorners.TickCanResolveEarly | apps/server/src/modules/game/services/round.service.ts:97-107 | a run on which a tick that found a round open before its end time settles it, because another call forced a result before the tick read the round back |
| GameCorners.FreshKeyCanConflict | apps/server/src/modules/bet/services/bet.service.ts:113-163 | a state in which a bet under a fresh client key hits a unique constraint, that of the bettor's opening coins, which the service answers with the client key conflict |
| SettlementService.Service.SettleRound | apps/server/src/modules/game/services/settlement.service.ts:40-119 | under interference, with a safe user cap it fails only on a winner whose wallet is inactive or whose settlement key is taken, and names them; on success nothing is pending, the totals are exact, bets are decided and winning pots raised as in one pass, and if others left money alone the whole outcome is the one-pass outcome; undisturbed it reports as many credited users as were owed anything |
| SettlementService.Service.SettleWinningUsers | apps/server/src/modules/game/services/settlement.service.ts:189-212 | the unbounded loop terminates under interference and leaves no pending winner; the credited users are no more than the pending winning bets it removed, and undisturbed exactly the users who were owed anything |
| SettlementService.Service.SettleBatches | apps/server/src/modules/game/services/settlement.service.ts:204-210 | every non-empty batch strictly lowers the number of pending winners, whoever settled them |
| SettlementService.Service.SettleWinnerUser | apps/server/src/modules/game/services/settlement.service.ts:214-263 | without an error the user has no pending winner left |
| SettlementService.Service.RecordTotals | apps/server/src/modules/game/services/settlement.service.ts:69-91 | the incomplete-settlement error is unreachable |
| GameStore.Store.SettleWinnerTx | apps/server/src/modules/game/services/settlement.service.ts:223-263 | the transaction does what the machine's step does and rolls back on every error |
| GameStore.Store.MarkLosingBets | apps/server/src/modules/game/repositories/game.repository.ts:302-316 | marks exactly the pending bets of other colours and counts them |
| GameStore.Store.FindPendingWinners | apps/server/src/modules/game/repositories/game.repository.ts:353-372 | the users with pending winners and what each is owed, in order; whoever is left out comes after all of them and the limit was reached |
| GameStore.Store.LockPendingWinners | apps/server/src/modules/game/repositories/game.repository.ts:374-401 | exactly the user's pending winners, and their payout |
| GameStore.Store.ReadStats | apps/server/src/modules/game/repositories/game.repository.ts:432-451 | the loop returns how many bets the round has, how many are won, lost and pending, and what the won ones pay |
| GameStore.Store.BeginRoundSettlement | apps/server/src/modules/game/repositories/game.repository.ts:281-300 | inserts the row unless there is one and returns the one there is |
| GameStore.Store.CompleteRoundSettlement | apps/server/src/modules/game/repositories/game.repository.ts:453-499 | writes SUCCESS and the counted totals |
| GameStore.Store.CreateRound | apps/server/src/modules/game/services/round.service.ts:125-146 | creates the round, with this number, this seed committed and no result, iff none is active and the number is free |
| GameStore.Store.StartResolving | apps/server/src/modules/game/services/round.service.ts:195-231 | seed checks, recorded or computed result, and the guarded update |
| GameStore.Store.RefundBets | apps/server/src/modules/admin/admin.service.ts:1105-1160 | the loop computes what the fold of single refunds does, and fails iff one of them does |
| GameStore.Store.RecoverRoundTx | apps/server/src/modules/game/services/settlement.service.ts:121-148 | cancels the round and its pending bets iff it is active and all its stakes can go back, or leaves everything as it was; the call goes on unless a refund was refused |
| GameStore.Store.ForceStartTx | apps/server/src/modules/admin/admin.service.ts:384-461 | cancels and refunds whatever is active and opens the next round iff all stakes can go back, or changes nothing |
| GameStore.Store.ForceStopTx | apps/server/src/modules/admin/admin.service.ts:474-530 | cancels and refunds the active round iff there is one and all its stakes can go back, or changes nothing |
| GameStore.Store.ForceResultTx | apps/server/src/modules/admin/admin.service.ts:562-599 | refuses iff no round is active or the active one has another result; otherwise remembers the round and its committed hash |
| GameStore.Store.AdjustWalletTx | apps/server/src/modules/admin/admin.service.ts:732-775 | moves coins iff the adjustment can take effect, answers with the row it wrote or found, and otherwise changes nothing |
| GameStore.Store.CreateBetTx | apps/server/src/modules/bet/services/bet.service.ts:52-121 | takes the bet iff there is no objection, or answers with the first one and changes nothing |
| GameStore.Store.SumUserRoundStake | apps/server/src/modules/bet/repositories/bet.repository.ts:73-88 | the user's live stakes in the round |
| GameStore.Store.SumRoundColorExposure | apps/server/src/modules/bet/repositories/bet.repository.ts:90-105 | the live stakes on the colour |
| GameServices.BetService.PlaceBet | apps/server/src/modules/bet/services/bet.service.ts:20-163 | under interference: a used key is answered with its bet iff that is the same bet, with the conflict otherwise, and nothing changes; a bet is reported only if it is the one asked for under its key, as new only if the key was free; the conflict means that a different bet holds the key, or another user's row the key of the bettor's opening coins; undisturbed, a fresh request is placed iff there is no objection and otherwise gets the first one |
| GameServices.RoundService.EnsureLifecycle | apps/server/src/modules/game/services/round.service.ts:68-111 | every tick is a run of the machine; it reports the game paused iff it read so, and then only reads; without an active round it leaves a newer round behind, whoever made it; otherwise its round ends at least open, and locked once its lock time has passed; it locks nothing before the lock time and resolves nothing before the end time that no other call has resolved; a round it reports resolved or recovered is over with nothing pending and another round after it, resolved only with its own seed, recovered only without it; an error names the refused winner or means that a refund is refused; a tick nobody disturbs has the one outcome that clock, seed and tables determine |
| GameServices.AdminService.ForceResult | apps/server/src/modules/admin/admin.service.ts:562-622 | not found, conflict, wrong seed, refused winner or completed, each told apart; completed means with the forced result and the committed seed and settled with it, whatever happened meanwhile |
| GameServices.AdminService.AdjustWallet | apps/server/src/modules/admin/admin.service.ts:732-775 | moved means that its last step wrote the row asked for, user, direction, amount and reference, under a key that was free, and moved the wallet by that amount in that direction; replayed means that row was there; undisturbed it moves iff the adjustment can take effect and replays iff the same one is there |
| EngineLease.OneEngineWithinItsLease | apps/server/src/modules/game/services/redis-lock.service.ts:7-29 | two engines with a Redis client are inside at once only if one overstays its lease |
| EngineLease.LeaseExcludesIff | apps/server/src/modules/game/services/redis-lock.service.ts:10-13 | the lease keeps two engines apart in every run iff both have a Redis client; one without runs its tick unlocked |
| EngineLease.EnteringMeansOthersOverstayed | apps/server/src/modules/game/services/redis-lock.service.ts:14-21 | an engine with a client gets in iff its own flag is clear and the key is free or lapsed, and then every leased engine inside has overstayed; one without gets in iff its flag is clear |
| EngineLease.EnteringTakesLease | apps/server/src/modules/game/services/redis-lock.service.ts:14-21 | entering with a client takes a lease of the full length under a token nobody inside has |
| EngineLease.LeaseLasts | apps/server/src/modules/game/services/redis-lock.service.ts:14-52 | until its lease lapses or it leaves, no other engine with a client gets in, in any run, even if it crashed |
| EngineLease.LateReleaseIsHarmless | apps/server/src/modules/game/services/redis-lock.service.ts:41-52 | a late release does not take the key from its new holder |
| EngineLease.OverstayingLetsAnotherIn | apps/server/src/modules/game/services/redis-lock.service.ts:7-29 | overlap does happen |
| EngineLease.Scheduler.BeginTick | apps/server/src/modules/game/services/scheduler.service.ts:45-65 | a tick enters iff the scheduler is not running and, if it has a client, the key is not held; the flag says whether it is inside |
| EngineLease.Redis.Release | apps/server/src/modules/game/services/redis-lock.service.ts:41-52 | the key is deleted iff it still carries the caller's token |
| EngineLease.Scheduler.EndTick | apps/server/src/modules/game/services/scheduler.service.ts:62-64 | releases the key if it is still its own and clears the flag |
| RealMoneyTheorems.LockedPotIsExplained | apps/server/src/modules/real-money/real-money.service.ts:237-263 | the locked pot is the pending stakes plus the requested and approved withdrawals, and both pots are non-negative, in every run |
| RealMoneyTheorems.ClosingMovesAlwaysApply | apps/server/src/modules/real-money/real-money.service.ts:237-248 | the balance conflict and the key conflict are unreachable from settlement, refund, rejection and payment |
| RealMoneyTheorems.OneLockOneClosing | apps/server/src/modules/real-money/real-money-settlement.service.ts:23-44 | every bet and withdrawal has one lock row, and one closing row iff it is over, although the closing keys differ |
| RealMoneyTheorems.MoneyIsConserved | apps/server/src/modules/real-money/real-money-settlement.service.ts:11-85 | all wallets together hold deposits minus paid withdrawals plus what won bets gained minus what lost bets staked |
| RealMoneyTheorems.MoneyOfOneUser | apps/server/src/modules/real-money/real-money.service.ts:109-180 | the same for one user |
| RealMoneyTheorems.PayoutIsBounded | apps/server/src/modules/real-money/real-money.service.ts:128-144 | a round that nobody settled before it was closed pays at most the multiplier times the colour cap |
| RealMoneyTheorems.NobodySettlesEarly | apps/server/src/modules/game/services/round.service.ts:213-227 | in every run whose settling calls start on closed rounds, as the engine and a forced result start them, no round is settled early and every payout is bounded |
| RealMoneyTheorems.OneBetAndOneWithdrawalPerKey | apps/server/prisma/schema.prisma:512 | one bet, one withdrawal and one ledger row per key |
| RealMoneyTheorems.EndedBetsAndWithdrawalsAreFixed | apps/server/src/modules/real-money/real-money-admin.service.ts:136-178 | ended bets and withdrawals never change |
| RealMoneyTheorems.StepDecidesOnly | apps/server/src/modules/real-money/real-money-admin.service.ts:144-166 | a withdrawal changes only by a decision: requested to approved, requested or approved to rejected, approved to paid |
| RealMoneyTheorems.RecordedTotalIsExactIff | apps/server/src/modules/real-money/real-money-settlement.service.ts:46-50 | the recorded count is that of the round iff no bet of it had been settled before, the recorded payout iff none of its bets had won before |
| RealMoneyTheorems.SuccessIsLostIff | apps/server/src/modules/real-money/real-money-settlement.service.ts:51-56 | SUCCESS is overwritten iff a call whose own transaction failed is still under way and records that |
| RealMoneyTheorems.SettledTotalsCanBeForgotten | apps/server/src/modules/real-money/real-money-settlement.service.ts:46-56 | a run of two overlapping calls and a retry, which ends with totals of zero recorded for a paid round |
| RealMoneySafety.SettlementSucceedsIff | apps/server/src/modules/real-money/real-money-settlement.service.ts:14-50 | settlement commits unless a failed row carries another result, and then decides exactly the pending bets |
| RealMoneySafety.RefundingWorks | apps/server/src/modules/real-money/real-money-settlement.service.ts:70-85 | the refund loop always commits and refunds exactly the listed bets |
| RealMoneySafety.OpenRoundIsAllPending | apps/server/src/modules/real-money/real-money.service.ts:128-138 | while a round is open and unsettled the cap on pending stakes caps them all |
| RealMoneySafety.RunKeepsInv | apps/server/src/modules/real-money/real-money.service.ts:109-263 | the invariant holds after every run |
| RealMoneyExact.BetIsHeldIff | apps/server/src/modules/real-money/real-money.service.ts:123-151 | a bet is placed iff phase, caps on the pending stakes of the round and of the colour, wallet status, balance and key allow it; its stake then moves from the available to the locked pot |
| RealMoneyExact.WithdrawalIsHeldIff | apps/server/src/modules/real-money/real-money.service.ts:163-180 | a withdrawal is taken iff it is in range, covered and its key is free, whatever the wallet status; its amount then moves to the locked pot |
| RealMoneyExact.DecisionIsDoneIff | apps/server/src/modules/real-money/real-money-admin.service.ts:144-166 | an approval needs a requested withdrawal, a payment an approved one, a rejection either; an allowed decision always goes through, a rejection gives the locked amount back, a payment takes it out, and any other decision changes nothing |
| RealMoneyExact.DepositIsCreditedIff | apps/server/src/modules/payments/payment.service.ts:275-331 | a deposit is credited to the available pot iff it is positive and its event is new |
| RealMoneyExact.BetIsSettledExactly | apps/server/src/modules/real-money/real-money-settlement.service.ts:23-44 | a winning stake leaves the locked pot and the stake times the multiplier enters the available one; a losing stake just leaves |
| RealMoneyExact.BetIsRefundedExactly | apps/server/src/modules/real-money/real-money-settlement.service.ts:74-82 | a refund takes the stake from the locked pot back to the available one |
| RealMoneyExact.FailureIsRecorded | apps/server/src/modules/real-money/real-money-settlement.service.ts:51-56 | the failing branch keeps result and totals of whatever row there is and marks it failed, or makes a row of zeros |
| RealMoneyExact.ExposuresAreTotals | apps/server/src/modules/real-money/real-money.service.ts:128-138 | the two exposures are the sums of the pending stakes of the round and of those on the colour |
| RealMoneyService.Store.MoveWallet | apps/server/src/modules/real-money/real-money.service.ts:227-263 | writes one ledger row and both pots, or reports the conflict and changes nothing |
| RealMoneyService.Store.PlaceBetRequest | apps/server/src/modules/real-money/real-money.service.ts:109-151 | under interference: a stake over the cap is refused; a used key is answered with its bet iff that is the same bet, refused otherwise, and nothing changes; a reported bet is the one asked for; a request that meets no other step is placed iff it can be |
| RealMoneyService.Store.RequestWithdrawalCall | apps/server/src/modules/real-money/real-money.service.ts:163-180 | an amount out of range is refused; an existing request under the key is returned as it is, and nothing changes; a new request is the one asked for; a request that meets no other step is taken iff it can be |
| RealMoneyService.Store.DecideWithdrawal | apps/server/src/modules/real-money/real-money-admin.service.ts:136-178 | replay, not found, invalid transition and decision, each exactly when; a decision changes status, pots and audit as it should, and nothing else changes anything |
| RealMoneyService.Store.SettleBets | apps/server/src/modules/real-money/real-money-settlement.service.ts:22-45 | the loop settles the pending bets in order and its running total is the multiplier times their winning stakes |
| RealMoneyService.Store.SettleRoundCall | apps/server/src/modules/real-money/real-money-settlement.service.ts:11-68 | on any round and under interference: without an aborted transaction it fails iff a failed row carries another result; success decides every pending bet by its colour, no other, and records their number and what they pay; a failure is recorded over whatever is there |
| RealMoneyService.Store.RefundRoundCall | apps/server/src/modules/real-money/real-money-settlement.service.ts:70-85 | refunds exactly the pending bets of any round, always |
| PaymentTheorems.AtMostOneCredit | apps/server/src/modules/payments/payment.service.ts:116-189 | an intent is credited at most once in every run, to its user, for its amount and purpose |
| PaymentTheorems.DeliveredMeansCredited | apps/payment/src/outbox.worker.ts:20-72 | a row marked delivered, or answered with yes, is credited exactly once; a row is credited iff main holds its event |
| PaymentTheorems.CreditsAreBacked | apps/payment/src/payment.service.ts:122-192 | every credit goes back to a verified order and its recorded provider transaction |
| PaymentTheorems.RowIsWrittenIff | apps/payment/src/payment.service.ts:122-217 | an outbox row is written iff the provider confirms the order in full, its first matching payment is new and the order has none |
| PaymentTheorems.BalancesAreCredits | apps/server/src/modules/payments/payment.service.ts:233-331 | premium and real-money balances are the sums of their credits |
| PaymentTheorems.SecondDeliveryChangesNothing | apps/server/src/modules/payments/payment.service.ts:118-126 | an accepted event delivered again is a duplicate and changes nothing |
| PaymentTheorems.CreditsAreAppendOnly | apps/server/src/modules/payments/payment.service.ts:233-331 | no credit is taken back or rewritten |
| PaymentTheorems.DelayDoubles | apps/payment/src/outbox.worker.ts:58-62 | the retry pause doubles from 2 to 256 seconds |
| PaymentTheorems.DeliveredIsUndoneIff | apps/payment/src/outbox.worker.ts:61-67 | DELIVERED is undone iff a worker whose own attempt failed still holds the row |
| PaymentTheorems.DeliveredCanBeUndone | apps/payment/src/outbox.worker.ts:20-72 | a run on which that happens |
| PaymentTheorems.CreditedIsUndoneIff | apps/server/src/modules/payments/payment.service.ts:69-73 | CREDITED is undone iff a reader saw the intent expired before the credit |
| PaymentTheorems.CreditedCanBeUndone | apps/server/src/modules/payments/payment.service.ts:61-78 | a run on which that happens, with one credit |
| PaymentLaws.ProcessingOutcomes | apps/server/src/modules/payments/payment.service.ts:116-189 | an outbox event is a duplicate, paid too late, or credited; the mismatch, conflict and already-credited errors are unreachable |
| PaymentLaws.FindPaymentMatches | apps/payment/src/payment.service.ts:211-216 | the first payment that matches order, currency and amount, iff there is one |
| PaymentLaws.RunKeepsInv | apps/payment/src/payment.service.ts:122-192 | the invariant across both services holds after every run |
| PaymentExact.ReconcilingIsExact | apps/payment/src/payment.service.ts:122-192 | what reconciling leaves, case by case: nothing for an order not confirmed, the mark alone for a payment on record, nothing for a second payment of an order, and otherwise the transaction and an event that carries the completion time of the first matching payment, or now if it has none |
| PaymentExact.PaidInTimeIsCredited | apps/payment/src/payment.service.ts:148-167 | end to end: if the first matching payment was completed by the time the intent expires, then however late the order is reconciled and in every run that follows, the event is never refused and once it arrives the intent has been credited exactly once |
| PaymentExact.PaidTooLateIsRefused | apps/server/src/modules/payments/payment.service.ts:154-156 | an event for a payment completed after the expiry is refused in every run that follows and never credited |
| PaymentExact.EventIsCreditedExactly | apps/server/src/modules/payments/payment.service.ts:116-189 | what an accepted event leaves: the intent credited with its transaction, the event marked, and its user credited the paise, or one premium credit per hundred |
| PaymentExact.IntentIsCreatedIff | apps/server/src/modules/payments/payment.service.ts:26-47 | an intent is created iff the amount is a whole number of rupees from 10 to 10000 and the key is fresh; it expires after 900 seconds |
| PaymentExact.RowIsTakenIff | apps/payment/src/outbox.worker.ts:21-36 | a claim takes the oldest row that is due, iff there is one, and the row is not due again for 30 seconds |
| PaymentExact.RowIsMarked | apps/payment/src/outbox.worker.ts:50-67 | a row whose post failed is due again exactly after a pause of 2 to 256 seconds; one whose post succeeded is delivered |
| PaymentServices.Pipeline.DeliverNextEvent | apps/payment/src/outbox.worker.ts:20-72 | under interference: nothing to do iff no row is due; a row reported delivered is one main holds and has credited exactly once; a row reported for retry is pending again for later, and if its post and the answer got through, its payment came too late |
| PaymentServices.MainService.ProcessVerifiedEvent | apps/server/src/modules/payments/payment.service.ts:116-189 | the method is the transaction, branch by branch |
| PaymentServices.Pipeline.CreateIntent | apps/server/src/modules/payments/payment.service.ts:26-59 | under interference between lookup, insert and second lookup: an intent is returned only if it is the one asked for; otherwise the key belongs to another request; a used key changes nothing |
| PaymentServices.MainService.InsertIntent | apps/server/src/modules/payments/payment.service.ts:36-47 | adds the intent iff the key is free |
| PaymentTheorems.OneIntentPerKey | apps/server/prisma/schema.prisma:469 | requests that share a key leave one intent, however they interleave |
| PaymentTheorems.IntentsKeepTheirTerms | apps/server/src/modules/payments/payment.service.ts:61-78 | no run drops an intent or changes what it asks for |
| PaymentServices.PaymentService.ExchangeSignedIntent | apps/payment/src/payment.service.ts:26-46 | one session per intent, the first one wins and repeats the intent; an expired link is refused |
| PaymentServices.PaymentService.CreateProviderOrder | apps/payment/src/payment.service.ts:66-97 | an order id iff the session is there and has not expired; one order per intent, with the terms of the session, under an id made of purpose and intent |
| PaymentServices.PaymentService.ReconcileOrder | apps/payment/src/payment.service.ts:122-192 | leaves what `PaymentExact.ReconcilingIsExact` says; verified iff the provider confirms the order and its first matching payment is on record or the order has none |
| PaymentServices.PaymentService.ClaimNext | apps/payment/src/outbox.worker.ts:21-36 | claims the oldest row that is due and not under a running lease, for 30 seconds, or there is none |
| PaymentServices.PaymentService.MarkRow | apps/payment/src/outbox.worker.ts:50-67 | both marks go by id alone; a failed post is due again exactly after its pause |
| PaymentServices.FindVerifiedPayment | apps/payment/src/payment.service.ts:195-217 | the loop returns the first matching payment of a fully paid order |
| Pagination.WalkShowsEverythingIff | apps/server/src/common/utils/pagination.ts:39-55 | following the cursors never repeats a row or leaves the order, and shows the whole table iff every page break falls between rows the cursor can tell apart |
| Pagination.EveryLimitWorksIff | apps/server/src/common/utils/pagination.ts:97-119 | every limit shows the whole table iff all neighbours can be told apart |
| Pagination.NeighboursResolveIff | apps/server/src/common/utils/pagination.ts:57-65 | neighbours can be told apart iff the lower one is older than the upper one's millisecond, or on it with a smaller id |
| Pagination.WholeMillisecondsShowEverything | apps/server/src/common/utils/pagination.ts:97-119 | with timestamps of whole milliseconds nothing is skipped |
| Pagination.SameMillisecondIsSkipped | apps/server/src/common/utils/pagination.ts:57-65 | a table with a row that is on no page |
| Pagination.InsertionsAboveDoNotMatter | apps/server/src/common/utils/pagination.ts:97-119 | a row inserted above the cursor does not change the rest of the walk |
| Pagination.NewerRowsAreAbove | apps/server/src/common/utils/pagination.ts:104-117 | rows newer than the last one shown are above its cursor |
| Pagination.PageIsHonest | apps/server/src/common/utils/pagination.ts:39-55 | a page shows the first rows that qualify and says there is more iff there is |
| EventDedupe.EventFilter.ProcessRealtimeEvent | apps/server/src/sockets/socket.events.ts:129-136 | emits an event iff its id is not among those remembered, and the remembered ids are the 5000 emitted last, plus the empty id for ever |
| EventDedupe.EventFilter.RememberEvent | apps/server/src/sockets/socket.events.ts:138-149 | the eviction loop leaves exactly the most recent ids |
| EventDedupe.EmittedIsSpaced | apps/server/src/sockets/socket.events.ts:129-149 | an id is emitted again only after 5000 others, and the empty id never |
| EventDedupe.RecentIsDistinct | apps/server/src/sockets/socket.events.ts:138-149 | the queue holds no id twice |
| EventDedupe.IdIsEmittedIff | apps/server/src/sockets/socket.events.ts:129-149 | an arriving id is emitted iff it is not among the 5000 emitted last; the empty id iff it was never emitted |
| EventDedupe.EveryIdIsEmitted | apps/server/src/sockets/socket.events.ts:129-136 | every id that arrives is emitted, now or before |
| EventDedupe.RepeatIsSwallowed | apps/server/src/sockets/socket.events.ts:129-136 | an immediate repeat is not emitted |
| EventDedupe.SetIsQueueIff | apps/server/src/sockets/socket.events.ts:142-148 | set and queue hold the same ids iff an emitted empty id is still queued |
| EventDedupe.EmptyIdOutlivesTheWindow | apps/server/src/sockets/socket.events.ts:142-148 | a stream of arrivals, of any length over the limit, after which the empty id is in the set and no longer in the queue |
| Sessions.OneExchangePerSession | apps/server/src/modules/auth/repositories/auth.repository.ts:189-286 | a session is replaced at most once, and only by consuming it |
| Sessions.LiveSessionsAreSignIns | apps/server/src/modules/auth/repositories/auth.repository.ts:189-309 | live sessions never outnumber sign-ins |
| Sessions.RefreshIsExchangeOrRevocation | apps/server/src/modules/auth/repositories/auth.repository.ts:189-348 | a token buys a replacement iff its session is the user's, matches, is unrevoked and unexpired and the user is active; that session is then revoked and one follows it; otherwise every live session of the user is revoked, and nobody else's |
| Sessions.SessionsOpenAndEnd | apps/server/src/modules/auth/repositories/auth.repository.ts:147-176 | a sign-in under a fresh hash opens one session; a logout ends the named session iff it is the user's and live; a logout from everywhere and a suspension end all of the user's, and no other |
| Sessions.SpentTokenEndsEverything | apps/server/src/modules/auth/repositories/auth.repository.ts:218-227 | presenting a consumed or revoked token at any later time leaves the user without a live session |
| Sessions.RunOnlyRevokes | apps/server/src/modules/auth/repositories/auth.repository.ts:350-362 | a revoked session never comes back and sessions are never dropped |
| Sessions.AuthRepository.RotateRefreshSession | apps/server/src/modules/auth/repositories/auth.repository.ts:189-286 | the replacement iff the token is good, all sessions of the user revoked otherwise; its race check cannot fail once the earlier checks passed |
| Sessions.AuthRepository.RevokeActiveSessions | apps/server/src/modules/auth/repositories/auth.repository.ts:350-362 | revokes exactly the user's unrevoked sessions and counts them |

## Left out

- Real-money bets in recovered rounds: recovery refunds coin bets only, and no step of the model refunds the others by itself.
- Stand-alone coin movements have no route; they are modelled with the wallet (`LedgerLaws`, `WalletBook`) and not as steps of the game.
- Calls under way when their caller failed: the machine lets the losers' statement and the winners' transactions of a round run whenever its settlement row carries that result, which is more than can happen.
- The transactions of one slice of winners run at the same time in the source; the loop takes them in turn and lets other calls in between.
- Audit rows of coin actions, whose unique key can make an adjustment fail; a failed adjustment changes nothing in the model either.
- The link between coin rounds and real-money rounds: the real-money model takes the phases of a round as given steps.
- Eligibility, daily limits, KYC and the pause after a failed settlement: checked outside the transactions, they only refuse.
- Signatures, hashes, encryption, passwords and JSON: parameters or plain values; the cursor and the token carry their content.
- Amounts from the provider are whole paise; the rounding of decimal rupees is not part of this model.
- The provider order's own fields after creation, checkout pages and the payment session id.
- Sleep and liveness: nothing says that a worker, an engine or a user ever acts.
- Publishing of realtime events, audit contents, logging, alerts, serializers, routes, rate limits and the client application.
- Migration and bootstrap scripts.
