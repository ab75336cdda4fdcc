# Billing ledger verification

A Dafny model of the billing ledger of a model-relay gateway and of the code that draws on it, with proofs of
what they promise. `dafny verify dfyconfig.toml` checks the whole project.

The ledger keeps one account per owner, a five-field balance snapshot per account, an append-only entry log,
reservations (open, then settled or released), settlements and an outbox. The snapshot is a cache: what it
should be is a sum over the history. The relay holds quota for a request in two stores, the ledger and an older
quota column, and compensates in one when the other refuses; a billing session does so for a wallet and a token
at once.

How the project is laid out:

- `LedgerSchema`, `SnapshotAggregation`, `LedgerRuntime`: the rows, what a snapshot should be, and every ledger
  transaction as a function of the state it starts from. `LedgerDatabase` is the same code as it runs, step by
  step over mutable tables with rollback, proved against those functions.
- `LedgerInvariants`, `LedgerOutbox`, `LedgerRuns`, `LedgerAnswers`, `RefundedTotal`: what every transaction keeps and
  answers, and what follows for every run, replays included. `LedgerWorker` and `WorkerEffects` are the outbox worker,
  the repair call and the reconciliation count.
- `LedgerEffects`, `WalletMirror`, `WalletStore`, `WalletOperations`, `WalletStoreObject`, `BootstrapOnce`: a
  quota column mirrored by the ledger, reconciled, debited, credited, adjusted, and bootstrapped once.
- `RelayFunding`, `RelayFundingObject`, `TokenQuota`, `RequestStanding`, `BillingSession`,
  `BillingSessionObject`: the hold, settlement and refund of one request, and the session over wallet and token.
  `RelayAnswers`, `SessionOpening` and `SessionAnswers` say exactly when each of these calls goes through;
  `RequestAccount` and `SessionFaults` what was paid when compensations are refused too, `FirstSession` what the
  first session of a wallet does that the ledger does not know yet.
- `FundingLots`, `FundingEconomics`, `FundingSources`, `FundingRuns`, `FundingOrigins`: where quota came from, drawn
  first in first out, the daily cost report source by source, and what holds of both over runs.
- `ToolPricing`, `PerfMetrics`, `RatioSyncDiff`, `TextQuota` with `TextPricing`: four independent cores.

Conventions. A transaction is one atomic step: a failing one leaves no trace. Generated identifiers of entries,
reservations and settlements are row positions, fresh by construction; generated account identifiers and
operation identifiers are parameters, and where a theorem needs them unused it says so. Every external write
that may fail has a flag that makes it fail. Integers are unbounded; `BalancesFit` and
`RefundedWithinHolds` say when 64 bits suffice.

## What was found

Properties one might expect and that the code does not have, each with an input that shows it and the exact
condition under which it holds:

- A repeated credit of a wallet returns the recorded entry and still raises the column, so ledger and column
  part; they stay equal exactly when the key is new (`CreditInStepIffNew`). A repeated debit lowers the column
  alone, and exactly a repeated one does (`RepeatedDebit`).
- A settlement that asks for more than its hold back moves the column further than the ledger
  (`RelayFunding.SettleInStep`, exact).
- Two funding objects on one open hold both pay the column back (`TwoObjectsRefundTwice`). A refund that goes
  through moves both stores alike exactly when the object believes it holds what the row still frees
  (`RefundPaysWhatIsFreed`).
- A refund marks its session refunded before it tries. When the wallet part is refused and the token part goes
  through, the session can still be settled, and then charges the wallet in full and the token only what goes
  beyond a hold it was already given back (`HalfRefundThenSettled`). A settlement that goes through charges all
  three stores alike exactly when there was something to settle, no token refund went through before, the hold it
  found is the one the session counts, and the slips of all calls sum to nothing (`SettledInAnyRun`). A refund is
  attempted once: the next one reports success and does nothing (`RefundTriedOnce`).
- When the ledger refuses a settlement and the column then refuses to take the difference back, a later settlement
  makes the column pay the difference once more (`PaidAgain`); with every compensation going through nothing slips
  (`CleanRunSlipsNothing`).
- A session whose token part fails on settlement is settled all the same, exactly when the token's column
  refuses the write or does not cover the difference; settling it again reports success and corrects nothing
  (`TokenErrorIsFinal`).
- A trusted session whose late hold was refused by the token and then not given back forgets the hold
  (`HoldIsForgotten`) and charges it when it is settled for nothing (`ForgottenHoldIsCharged`). Settling such a
  session for nothing charges nothing exactly when its row is not open (`ZeroSettlement`).
- A reservation and its settlement run in two transactions outside a caller's one; cut between them, the amount
  stays held (`CutLeavesHold`), and exactly then the operation is not atomic (`OperationIsAtomic`). An adjustment
  moves the ledger alone exactly in that case or when its compensation is refused (`MovesBothOrNeither`).
- Outside a transaction the mirror reads the snapshot first and credits later; a migration in between makes a
  second bootstrap credit (`BothCredited`), and nothing else does (`OvertakenBootstrap`).
- Credits do not ask for the account's row, so events whose account is missing can fill the worker's window and
  keep every event behind them waiting (`OrphansBlockTheWorker`). An event whose account exists is published
  exactly when fewer than a window's worth of such events are before it (`PublishedIffReached`).
- Two price rows "tool:p" and "tool:p*" can make a tool price depend on map order and on the sort. Rebuilds answer
  with each price the table gives and with no other (`AnswersArePrices`); all agree on a tool and a model exactly
  when no model is given or the rows of its longest matching prefix carry one price (`RebuildsAgreeIffOnePriced`).
- More output can cost less where cache writes are inferred from the upstream's cost
  (`MoreOutputCheaperWhenInferred`). Before rounding it does so exactly when what it costs, and the tokens that
  return to the plain prompt, do not make up for the cache writes no longer billed (`MoreOutputAgainstWrites`);
  when they do the quota is no less (`MoreOutputMakesUp`), and when they fall short by a unit it is less
  (`MoreOutputFallsShort`).
- The inference also runs when no cost was reported. It then takes the whole uncached prompt for cache writes, or
  nothing, the former exactly when that is as good as free (`InferredWithoutCost`, `NothingInferredWithoutCost`).
- A request whose settlement is reported again with another amount, as after a failed token part, is recorded with
  the later amount while its lots were drawn on for the first; the report then loses the difference
  (`RecordedAnew`). A row brings its whole cost into the report exactly when it was allocated its own amount or none,
  or costs nothing (`RowBringsItsCost`).

## Model

| member | source | states |
|---|---|---|
| LedgerRuntime.KeyOfIsExact | internal/billing/domain/ledger_runtime.go:366-378 | Texts and their "entry:"-prefixed forms, as entry keys, are told apart exactly: two texts give one key only when they are equal |
| LedgerDatabase.Database.RecordOutboxEvent | internal/billing/domain/outbox.go:24-77 | A new event is appended; one stored under its key is accepted when identical and a conflict otherwise |
| LedgerDatabase.Database.EnsureBillingAccountTx | internal/billing/domain/ledger_runtime.go:177-213 | Finds the owner's account or opens it empty; the step-by-step code does what the specified transaction does |
| LedgerDatabase.Database.CreditAccountTx | internal/billing/domain/ledger_runtime.go:243-292 | A credit replays, conflicts, or posts one grant with its snapshot, entry and event, as specified |
| LedgerDatabase.Database.RecordAdjustmentTx | internal/billing/domain/ledger_runtime.go:119-142 | An adjustment replays, conflicts, or posts one zero entry and its event, as specified (`AdjustReplay` and `AdjustAnswers` say what that is) |
| LedgerDatabase.Database.CreateReservationTx | internal/billing/domain/ledger_runtime.go:326-391 | A reservation replays, conflicts, is refused for want of balance, or moves the hold from available to reserved, as specified |
| LedgerDatabase.Database.ReleaseReservationTx | internal/billing/domain/ledger_runtime.go:426-497 | A release is a no-op on a released row, refused on a settled one, and otherwise moves the hold back, as specified |
| LedgerDatabase.Database.SettleReservationTx | internal/billing/domain/ledger_runtime.go:537-639 | A settlement replays, conflicts, is refused, or turns the hold into the charge with its difference entry, as specified |
| LedgerDatabase.Database.SettleReservation | internal/billing/domain/ledger_runtime.go:500-518 | A transaction that fails at any step leaves every table as it was |
| LedgerInvariants.EnsureKeepsBooks | internal/billing/domain/ledger_runtime.go:177-213 | Opening an account keeps the whole invariant: snapshots, history, rows and keys agree |
| LedgerInvariants.CreditKeepsBooks | internal/billing/domain/ledger_runtime.go:243-292 | A credit, whatever its outcome, keeps the whole invariant |
| LedgerInvariants.AdjustKeepsBooks | internal/billing/domain/ledger_runtime.go:119-142 | An adjustment, whatever its outcome, keeps the whole invariant |
| LedgerInvariants.ReserveKeepsBooks | internal/billing/domain/ledger_runtime.go:326-391 | A reservation, whatever its outcome, keeps the whole invariant |
| LedgerInvariants.ReleaseKeepsBooks | internal/billing/domain/ledger_runtime.go:426-497 | A release, whatever its outcome, keeps the whole invariant |
| LedgerInvariants.SettleKeepsBooks | internal/billing/domain/ledger_runtime.go:537-639 | A settlement, whatever its outcome, keeps the whole invariant |
| LedgerInvariants.OpenReservationIsUnreleased | internal/billing/domain/ledger_runtime.go:439-449 | No release entry refers to an open reservation, so the branch that finds one is never taken |
| LedgerInvariants.NoReservedUnderflow | internal/billing/domain/ledger_runtime.go:451-461 | No open hold exceeds its account's reserved balance |
| LedgerInvariants.NeverUnderflows | internal/billing/domain/ledger_runtime.go:456-565 | Neither the release nor the settlement ever reports "reserved balance underflow" |
| LedgerRuns.ReachableIsConsistent | internal/billing/domain/ledger_runtime.go:88-639 | Every ledger reached by any sequence of transactions, worker attempts and repairs satisfies both invariants |
| LedgerRuns.ReachableAgreement | internal/billing/app/ledger_snapshot_aggregation.go:20-65 | In every reachable ledger each stored snapshot is, in all five fields, the sum over the history |
| LedgerRuns.ReachableConservation | internal/billing/domain/ledger_runtime.go:257-258 | Available plus reserved plus consumed is what was granted, and no balance is negative, in every reachable ledger |
| LedgerRuns.ReachableRunningBalance | internal/billing/domain/ledger_runtime.go:260-275 | Every entry's recorded balance is the signed sum of its account's entries up to it |
| LedgerRuns.ReachableNet | internal/billing/domain/ledger_runtime.go:537-639 | A reservation's entries net to minus its hold while open, nothing when released, minus the charge of its one settlement when settled |
| LedgerRuns.RunExtends | internal/billing/domain/ledger_runtime.go:426-639 | Over any run rows are only appended, a reservation leaves "open" at most once and never a terminal state, a published event stays published |
| LedgerRuns.CreditReplay | internal/billing/domain/ledger_runtime.go:244-251 | After any further run, a credit under a used key returns the recorded row when account and amount are the recorded ones and is refused otherwise; neither changes anything |
| LedgerRuns.ReserveReplay | internal/billing/domain/ledger_runtime.go:328-335 | The same for a reservation, over all compared parameters |
| LedgerRuns.SettleReplay | internal/billing/domain/ledger_runtime.go:539-546 | The same for a settlement |
| LedgerAnswers.AdjustReplay | internal/billing/domain/ledger_runtime.go:119-142 | The same for an adjustment: the recorded row for the same account, a conflict for another one |
| LedgerAnswers.AdjustOverCredit | internal/billing/domain/ledger_runtime.go:119-142 | After any further run, an adjustment under a key that a credit used is a conflict |
| LedgerAnswers.CreditOverAdjust | internal/billing/domain/ledger_runtime.go:243-251 | And a credit under a key that an adjustment used |
| LedgerAnswers.AdjustAnswers | internal/billing/domain/ledger_runtime.go:119-142 | Under an unused key an adjustment goes through for every named account, adds one row and its event, and moves no balance |
| LedgerAnswers.CreditAnswers | internal/billing/domain/ledger_runtime.go:243-292 | Under an unused key a credit goes through for every named account and positive amount; available and granted rise by it, and no other of the five balances of any account moves |
| LedgerAnswers.ReserveAnswers | internal/billing/domain/ledger_runtime.go:326-391 | Under an unused key a reservation goes through exactly when the available balance covers it, and moves it from available to reserved and nothing else |
| LedgerAnswers.ReleaseAnswers | internal/billing/domain/ledger_runtime.go:426-497 | Under an unused key a release answers by its row: done again on a released one, all five balances moved on an open one, the exact error on any other |
| LedgerAnswers.ReleaseUnderUsedKey | internal/billing/domain/ledger_runtime.go:439-449 | Under a key that any entry has used, no open reservation is released: that is a conflict |
| LedgerAnswers.SettleAnswers | internal/billing/domain/ledger_runtime.go:537-639 | Under an unused key a settlement answers by its row and balance, with the exact error, and moves all five balances as hold and charge say |
| LedgerAnswers.EnsureAnswers | internal/billing/domain/ledger_runtime.go:177-213 | An owner's account is found or opened under the new identifier, with the default quota unit, and the exact error otherwise |
| LedgerAnswers.RecordedAgain | internal/billing/domain/outbox.go:24-77 | A new event is appended; a recorded one is accepted again and adds nothing; another one under its key is a conflict, whatever its published flag and attempts |
| LedgerRuns.ReleaseIsFinal | internal/billing/domain/ledger_runtime.go:432-437 | After any further run, releasing again under any key is a successful no-op, and a fresh settlement is refused |
| LedgerRuns.SettleIsFinal | internal/billing/domain/ledger_runtime.go:552-557 | After any further run a settled reservation can be neither released nor settled again |
| LedgerRuns.BalancesFit | internal/billing/schema/ledger_models.go:60-80 | While an account's granted total fits in 64 bits, so do its available, reserved and consumed balances; RefundedTotal bounds the fifth |
| RefundedTotal.RefundedOutgrowsGranted | internal/billing/domain/ledger_runtime.go:571-582 | The refunded total alone has no such bound: some run reaches any given one with a single unit granted |
| RefundedTotal.RefundedWithinHolds | internal/billing/domain/ledger_runtime.go:571-582 | In every reachable ledger no more was refunded to an account than was held of it and settled |
| LedgerOutbox.EventNamesOneOperation | internal/billing/domain/outbox.go:24-77 | An event announces one committed operation |
| LedgerOutbox.OperationAnnouncedOnce | internal/billing/domain/ledger_runtime.go:486-493 | A committed operation is announced by one event |
| LedgerOutbox.KeysAcrossKinds | internal/billing/domain/ledger_runtime.go:380-387 | No two committed operations, of whatever kinds, carry the same idempotency key |
| LedgerOutbox.SettleKeepsMirror | internal/billing/domain/ledger_runtime.go:628-635 | A settlement keeps outbox and operations in bijection |
| LedgerOutbox.ReleaseKeepsMirror | internal/billing/domain/ledger_runtime.go:486-493 | A release keeps outbox and operations in bijection |
| LedgerWorker.AttemptKeepsBooks | internal/billing/app/ledger_worker.go:82-139 | From a sound ledger, processing or failing one event changes no balance and keeps the invariant |
| LedgerWorker.BatchKeepsBalances | internal/billing/app/ledger_worker.go:39-67 | So does a whole batch |
| LedgerWorker.RebuildRestores | internal/billing/app/ledger_worker.go:114-139 | Over a sound history, rebuilding an account of an arbitrarily corrupted snapshot table puts that balance right and touches no other |
| LedgerWorker.RepairAllRestores | internal/billing/app/ledger_reconciliation.go:64-71 | Repairing the accounts whose snapshots are wrong restores agreement everywhere, whatever the corruption |
| LedgerDatabase.Database.RebuildBalanceSnapshot | internal/billing/app/ledger_worker.go:70-80 | A repair in a transaction of its own does the specified rebuild, or fails and changes nothing |
| LedgerWorker.BatchPublishes | internal/billing/app/ledger_worker.go:39-67 | A batch leaves pending exactly the events of its window whose account is missing, and those beyond the window |
| LedgerWorker.PublishedIffReached | internal/billing/app/ledger_worker.go:39-112 | An event whose account exists is published by some number of batches exactly when fewer than a window's worth of the pending events before it are missing theirs |
| LedgerWorker.Drained | internal/billing/app/ledger_worker.go:39-67 | Pending events whose accounts exist are all published by k batches once they number at most k times the limit |
| LedgerWorker.BlockedWindow | internal/billing/app/ledger_worker.go:39-112 | Behind a full window of events without accounts no event is ever published |
| WorkerEffects.BatchDoes | internal/billing/app/ledger_worker.go:39-139 | A batch publishes the events of its window whose account exists, counts one failed attempt for the others, and leaves every other event as it was; it puts right the snapshots of the accounts it publishes for, whatever they held, and no other |
| WorkerEffects.WindowIsOldest | internal/billing/app/ledger_worker.go:39-52 | A window is the oldest pending events: one is left out only when a full window of older ones is taken |
| WorkerEffects.ProcessedAgain | internal/billing/app/ledger_worker.go:82-112 | Processing a published event changes nothing |
| WorkerEffects.RepairAnswers | internal/billing/app/ledger_worker.go:70-80 | A repair puts the named account's snapshot right, whatever it held, and no other; a missing account and an empty name are errors |
| LedgerRuns.OrphansBlockTheWorker | internal/billing/domain/ledger_runtime.go:243-292 | A run of credits to an account that was never opened reaches such a window, and the event of a later credit waits for ever |
| LedgerWorker.CountInconsistencies | internal/billing/app/ledger_reconciliation.go:43-62 | Counts exactly the accounts whose snapshot is not the sum over its history; a missing snapshot is an error |
| LedgerWorker.SoundLedgerHasNoInconsistencies | internal/billing/app/ledger_reconciliation.go:43-62 | On every sound ledger that count is zero |
| LedgerDatabase.Database.RunLedgerWorkerBatch | internal/billing/app/ledger_worker.go:39-67 | The batch loop ends in the specified state and reports how many events it processed |
| WalletMirror.MirroringExisting | internal/billing/app/wallet_store.go:234-265 | Mirroring a balance read through an existing account changes nothing |
| WalletMirror.Bootstrap | internal/billing/app/wallet_store.go:53-76 | After first use, what is read equals the column exactly when the column was zero, or positive and its bootstrap credit went through |
| WalletStore.FreshApply | internal/billing/app/wallet_store.go:392-425 | A fresh operation takes exactly its amount from its account and from no other, and is refused only for want of balance |
| WalletStore.CutLeavesHold | internal/billing/app/wallet_store.go:357-390 | Refused between its two transactions, an operation fails and leaves the amount held |
| WalletStore.OperationIsAtomic | internal/billing/app/wallet_store.go:357-390 | An operation in two transactions does all of its work or reports failure and does none, exactly unless it is cut between them with a hold that the balance covers |
| WalletStore.Reconciles | internal/billing/app/wallet_store.go:315-328 | Whatever the drift, opening and reconciling ends with the ledger at the balance read; it is refused exactly when that is negative |
| WalletOperations.DebitInStep | internal/billing/app/wallet_transfer.go:30-62 | Whatever the drift before it, a fresh debit goes through exactly when the column covers it and ends with ledger and column at the old column less the amount |
| WalletOperations.RepeatedDebit | internal/billing/app/wallet_transfer.go:30-62 | A debit leaves ledger and column equal exactly when its operation was not recorded before |
| WalletOperations.CreditInStepIffNew | internal/billing/app/wallet_store.go:187-232 | A credit that goes through raises the column always and leaves it equal to the ledger exactly when its key is new |
| WalletOperations.CreditGoesThrough | internal/billing/app/wallet_store.go:187-232 | Under a new key a credit goes through exactly when its amount is positive and the column is not negative, with the exact error otherwise, and raises column and ledger to the same balance |
| WalletOperations.MovesBothOrNeither | internal/billing/app/wallet_store.go:168-180 | Wherever the stores refuse, ledger and column both move by delta, exactly when stated, or the column stays and the ledger moves by the stray amount of a cut or of a refused compensation |
| WalletOperations.TokenAdjusted | internal/billing/app/token_store.go:71-102 | Wherever the stores refuse: a token adjustment goes through exactly when stated, token and ledger then both stand at the old column less delta, and what each refusal leaves is stated exactly |
| WalletOperations.WalletAdjusted | internal/billing/app/wallet_store.go:150-185 | With or without an account and wherever the stores refuse: an adjustment goes through exactly when stated, moves the balance read as it moves the column, and leaves it but for the stray amount when it fails; only a call that opens the account and fails to fill it ends with balance zero |
| WalletOperations.SetReachesTarget | internal/billing/app/wallet_store.go:136-148 | Setting a wallet goes through exactly when stated, puts the balance read at the target, and the column there exactly when it was in step |
| WalletStoreObject.ApplyLedgerDelta | internal/billing/app/wallet_store.go:357-390 | The two-transaction operation as it runs is the specified one, cuts included |
| WalletStoreObject.DebitWalletQuota | internal/billing/app/wallet_transfer.go:30-62 | The debit as it runs is the specified one, and a refused one changes neither store |
| WalletStoreObject.CreditWalletQuota | internal/billing/app/wallet_store.go:187-232 | The credit as it runs is the specified one, and a refused one changes neither store |
| WalletStoreObject.AdjustUserWalletQuota | internal/billing/app/wallet_store.go:150-185 | The adjustment with its reconciliation and compensation, as it runs, is the specified one |
| WalletStoreObject.SetUserWalletQuota | internal/billing/app/wallet_store.go:136-148 | The target adjustment as it runs is the specified one |
| WalletStoreObject.AdjustStoredToken | internal/billing/app/token_store.go:71-102 | The token adjustment as it runs is the specified one |
| WalletStoreObject.PreConsumeStoredToken | internal/billing/app/quota_helpers.go:16-31 | The token hold as it runs is the specified one |
| BootstrapOnce.GrantedNeverFalls | internal/billing/domain/ledger_runtime.go:257-258 | The total granted to an account never falls |
| BootstrapOnce.BackfillCredits | cmd/ledger-backfill/main.go:377-397 | The migration opens the owner's account if there is none and credits it exactly when there is something to credit and it has no entry; no other balance moves |
| BootstrapOnce.GuardsAgree | internal/billing/app/wallet_store.go:346-355 | The snapshot is all zero exactly when every entry of the account is an adjustment; so the two guards part only over such accounts |
| BootstrapOnce.GuardsSeeBootstrap | cmd/ledger-backfill/main.go:377-397 | Either guard lets a bootstrap through only when neither bootstrap was recorded |
| BootstrapOnce.BootstrappedOnce | internal/billing/app/wallet_store.go:267-298 | Over any interleaving of the two bootstraps, each atomic, with ordinary traffic, at most one bootstrap credit is recorded |
| BootstrapOnce.OvertakenBootstrap | internal/billing/app/wallet_store.go:234-265 | A bootstrap decided on and posted later is a second one exactly when the migration credited the account in between |
| BootstrapOnce.BothCredited | internal/billing/app/wallet_store.go:245-261 | That interleaving exists: both amounts end up granted |
| RelayFunding.PreConsumeAccounted | internal/billing/app/ledger_relay_funding.go:56-107 | Whatever the stores refuse, a hold call on a wallet with an account moves the column away from the ledger by its slip alone, keeps the invariant and touches no other request's row; RequestStanding.FirstHold states the call that opens the account |
| RelayFunding.SettleAccounted | internal/billing/app/ledger_relay_funding.go:109-149 | The same for a settlement call |
| RelayFunding.RefundAccounted | internal/billing/app/ledger_relay_funding.go:151-175 | The same for a refund call |
| RelayFunding.PreConsumeInStep | internal/billing/app/ledger_relay_funding.go:90-101 | A hold call on a wallet with an account slips exactly when its compensation was needed and refused; the call that opens the account is RequestStanding.FirstHold |
| RelayFunding.SettleInStep | internal/billing/app/ledger_relay_funding.go:113-147 | A settlement call slips exactly when its compensation was refused, or it went through with a delta below minus the hold |
| RelayFunding.RefundInStep | internal/billing/app/ledger_relay_funding.go:151-175 | A refund call slips exactly when its compensation was refused |
| RelayFunding.RunAccounted | internal/billing/app/ledger_relay_funding.go:56-175 | Over any interleaving of calls of any requests with other traffic, the drift between column and ledger moves by the sum of the slips |
| RelayFunding.CleanRunStaysInStep | internal/billing/app/ledger_relay_funding.go:56-175 | So it never moves in a run whose compensations go through and whose settlements ask for no more than their holds back |
| RelayFunding.KeysNeverMeet | internal/billing/app/ledger_relay_funding.go:208-210 | The keys of two requests of one source, and two keys of one request, are all different |
| RelayFunding.RefundPaysWhatIsFreed | internal/billing/app/ledger_relay_funding.go:151-175 | A refund that goes through pays the column what the object believes it holds and frees what the row still holds; the stores stay in step exactly when these agree |
| RelayFunding.TwoObjectsRefundTwice | internal/billing/app/ledger_relay_funding.go:71-80 | Two funding objects on one open hold both pay the column back, the ledger frees it once |
| RelayFundingObject.LedgerRelayFunding.HoldFunds | internal/billing/app/ledger_relay_funding.go:56-107 | The object's hold call does what the specified call does, fields included |
| RelayFundingObject.LedgerRelayFunding.Settle | internal/billing/app/ledger_relay_funding.go:109-149 | The object's settlement call does what the specified call does, fields included |
| RelayFundingObject.LedgerRelayFunding.GiveBack | internal/billing/app/ledger_relay_funding.go:151-175 | The object's refund call does what the specified call does, fields included |
| TokenQuota.TokenMovesExactly | internal/billing/app/token_store.go:71-102 | A token call moves the token column by exactly its amount or not at all, and the wallet column never |
| TokenQuota.TokenLeaves | internal/billing/app/token_store.go:71-196 | Whatever a token call runs into, the wallet account's balance and the request's rows stay as they were |
| TokenQuota.TokenGoesThrough | internal/billing/app/token_store.go:71-102 | With new keys and nothing else refused, a token call goes through exactly when the column accepts the write and covers the amount |
| SessionOpening.TokenPartGoesThrough | internal/billing/app/quota_helpers.go:16-31 | The token's part of a hold goes through exactly when it is a playground's, or its own reading (ledger, or its column) and then its column cover the amount, an unlimited request or token not being asked |
| SessionOpening.TokenRefuses | internal/billing/app/quota_helpers.go:16-31 | A negative amount, a missing row and an amount beyond what the token reads are refused in that order, each with its error, and nothing changes |
| TokenQuota.TokenSpares | internal/billing/app/token_store.go:71-196 | Whatever a token call runs into, it uses no account identifier, owner or key that is kept for the wallet's first request |
| RequestStanding.HoldSeats | internal/billing/app/ledger_relay_funding.go:56-107 | On a wallet with an account, ledger and column both give exactly what the request's standing rises by; on a new request success means the amount asked for is held |
| RequestStanding.HoldGoesThrough | internal/billing/app/ledger_relay_funding.go:56-107 | With nothing refused, a new request's hold goes through exactly when the wallet covers it |
| RequestStanding.OpensOnFirstUse | internal/billing/app/wallet_store.go:234-265 | First use opens the account and takes the column over (nothing of a negative one), exactly unless the bootstrap credit is refused |
| RequestStanding.FirstHold | internal/billing/app/ledger_relay_funding.go:56-107 | The first hold of a wallet: it goes through exactly when nothing is refused and the column covers it, ledger and column then stand at the old column less the amount, and what each refusal leaves is stated exactly |
| RequestStanding.FinishSeats | internal/billing/app/ledger_relay_funding.go:109-149 | A settlement that succeeds leaves the request settled for exactly hold plus delta; one that fails leaves everything as it was; a released request cannot be settled |
| RequestStanding.GiveBackSeats | internal/billing/app/ledger_relay_funding.go:151-175 | A refund that succeeds leaves nothing taken; one that fails leaves everything as it was; a settled request refuses it |
| RequestStanding.FinishGoesThrough | internal/billing/domain/ledger_runtime.go:567-570 | With nothing refused, an open request is settled exactly when the wallet covers what goes beyond the hold |
| RequestStanding.GiveBackGoesThrough | internal/billing/app/ledger_relay_funding.go:160-168 | With nothing refused, an open request is always refunded |
| RelayAnswers.HoldAnswers | internal/billing/app/ledger_relay_funding.go:56-107 | Whatever is found and refused, when a hold succeeds: always with nothing to hold; a repeated hold exactly for the amount held, else a conflict; a row recorded by another object exactly when the account is reached; a new hold exactly when nothing is refused and the balance covers it |
| RelayAnswers.HoldRefused | internal/billing/app/ledger_relay_funding.go:82-90 | A hold that only the balance is in the way of fails for want of it and takes nothing |
| RelayAnswers.RowTakenOver | internal/billing/app/ledger_relay_funding.go:71-81 | Taking over a recorded row takes nothing from the stores; the object then holds the row's amount, and in the column what the row would free |
| RelayAnswers.FinishAnswers | internal/billing/app/ledger_relay_funding.go:109-149 | Whatever is refused, when a settlement succeeds: exactly on a settled request, or on an open one whose writes go through and whose balance covers what the charge asks beyond the hold; without a reservation it names the missing reservation |
| RelayAnswers.SettlementTakenOver | internal/billing/app/ledger_relay_funding.go:117-122 | A settlement recorded by another object is taken over without touching the stores |
| RelayAnswers.GiveBackAnswers | internal/billing/app/ledger_relay_funding.go:151-175 | Whatever is refused, when a refund succeeds: exactly with nothing reserved, or when the writes that the row's status asks for go through; on a settled request never |
| BillingSession.OpensHeldAlike | internal/billing/app/session.go:230-299 | Opening a new request's session on a wallet with an account, for an amount that is not negative and with every rollback going through, holds one amount in wallet ledger, column and token (nothing when trusted), or fails and takes nothing; `OpensExactly` says which of the two |
| SessionOpening.OpensExactly | internal/billing/app/session.go:230-299 | With new keys and nothing refused, a session on an open wallet opens exactly when the balance is positive and covers the amount and, unless it skips its hold, the token is good for it; which sessions skip it is stated by balance, limit, source and token, and what is held is zero or the amount accordingly |
| SessionOpening.FirstOpensExactly | internal/billing/app/session.go:448-489 | The same for the session that opens its wallet's account, by the column; one that holds something opens exactly when none of the writes of its hold is refused either |
| SessionOpening.ReservesWhatItHolds | internal/billing/app/session.go:199-228 | An untrusted session that is neither settled nor refunded has given its hold in ledger, column and token; reserving up to a target succeeds exactly when the target is within that. Any other session answers success, and nothing changes either way |
| SessionFaults.OpeningOutcome | internal/billing/app/session.go:230-299 | For any amount and whatever is refused: a session that is not opened has taken nothing but what a refused rollback left in ledger or token; one that is opened holds one amount in all three stores, or nothing when asked for less than nothing; when it opens is said by `OpensExactly` |
| FirstSession.FirstSessionHeldAlike | internal/billing/app/session.go:230-299 | The same for a wallet whose account this very session opens, for any amount and whatever is refused: ledger, column and token end at the old column and token less one amount, or nothing is taken but what a refused rollback left; `FirstOpensExactly` says which |
| FirstSession.FirstLateHold | internal/billing/app/session.go:87-103 | Once the account opens, the late hold of a trusted first session is that of the same session on the opened wallet, so every statement about settlements holds of it |
| FirstSession.FirstLateHoldRefused | internal/billing/app/session.go:87-103 | When the opening is refused the late hold fails, the session stays as it was, and at most an empty account was opened |
| BillingSession.SettleKeeps | internal/billing/app/session.go:41-103 | With every compensation that is needed going through: a settlement that goes through settles the session, and charges all three stores exactly the amount (negative amounts counting as zero) exactly when there was something to settle and no token refund had gone through; a finished session changes nothing |
| SessionAnswers.SettlesExactly | internal/billing/app/session.go:41-85 | With nothing refused, a session with an open hold is settled exactly when the balance covers what goes beyond the hold, and reports success exactly when the token covers that too; otherwise nothing happens |
| SessionAnswers.LateHoldExactly | internal/billing/app/session.go:87-103 | With nothing refused, the late hold of a trusted session goes through exactly when the balance covers the amount and the token is good for it |
| SessionAnswers.LateSettlement | internal/billing/app/session.go:41-103 | And exactly then such a session is settled for that amount |
| SessionAnswers.RefundDue | internal/billing/app/session.go:182-193 | An untrusted session needs a refund exactly while it is neither settled nor refunded and its wallet has given something; otherwise a refund answers success and touches nothing |
| BillingSession.RefundKeeps | internal/billing/app/session.go:140-174 | With every compensation that is needed going through: a refund that goes through gives all three stores back what the session took, and finishes it |
| BillingSession.RefundIsAttemptedOnce | internal/billing/app/session.go:140-174 | With every compensation that is needed going through: a refund gives back exactly the parts that go through, reports success exactly when both do, and is not tried again |
| BillingSession.HalfRefundThenSettled | internal/billing/app/session.go:41-103 | After a refund whose wallet part was refused and whose token part went through, settling charges the wallet in full and the token short by the hold |
| BillingSession.CallKeeps | internal/billing/app/session.go:41-228 | With every compensation that is needed going through: any call, and any other traffic in between, keeps ledger and column at the request's standing; once finished, no call takes anything |
| BillingSession.RunKeeps | internal/billing/app/session.go:41-228 | The same over every run of calls whose compensations go through |
| BillingSession.SettledExactlyOnce | internal/billing/app/session.go:41-85 | Whatever was called before and is called afterwards, in a run whose compensations go through, wallet, column and token have each paid the amount exactly when there was something to settle and no token refund went through before |
| BillingSession.RefundedForGood | internal/billing/app/session.go:140-174 | Whatever was called before and is called afterwards, in a run whose compensations go through, a refund that goes through leaves all three where they were |
| RequestAccount.HoldMoves | internal/billing/app/ledger_relay_funding.go:56-107 | Whatever is refused, a hold call moves the ledger as the row under the request's key tells, and the column but for the slip; one that succeeds takes up the row there is or holds the amount, and slips nothing |
| RequestAccount.FinishMoves | internal/billing/app/ledger_relay_funding.go:109-149 | The same for a settlement call, with the charge and the slip of one that goes through |
| RequestAccount.BackMoves | internal/billing/app/ledger_relay_funding.go:151-175 | The same for a refund call |
| SessionFaults.CallBooked | internal/billing/app/session.go:41-228 | Any call, whatever it runs into: the ledger has given what its rows tell, the column less by the call's slip; a settled session takes nothing more, a refunded one nothing from ledger and token |
| SessionFaults.RunBooked | internal/billing/app/session.go:41-228 | The same over every run, refused compensations included |
| SessionFaults.SettledInAnyRun | internal/billing/app/session.go:41-103 | Whatever was called before and is called afterwards, and whatever was refused: after the settlement that goes through, all three stores have paid the amount exactly when there was something to settle, no token refund went through before, the hold found is the one counted, and the slips sum to nothing |
| SessionFaults.RefundedInAnyRun | internal/billing/app/session.go:140-174 | Likewise after a refund that goes through: ledger and token have paid nothing, for good, and the column what the slips sum to |
| SessionFaults.RefundTriedOnce | internal/billing/app/session.go:140-174 | Whatever is refused, a refund gives back exactly the parts that go through, the column but for the slip, and the next one reports success and does nothing |
| SessionFaults.CleanRunSlipsNothing | internal/billing/app/session.go:41-228 | A run whose compensations go through slips nothing |
| SessionFaults.PaidAgain | internal/billing/app/ledger_relay_funding.go:123-148 | A settlement refused by the ledger, whose difference the column keeps, is followed by one that makes the column pay the difference again |
| BillingSession.TokenErrorIsFinal | internal/billing/app/session.go:65-84 | A settlement settles the session and reports failure exactly when the token's column refuses the write or does not cover the difference; it is final: the token keeps paying the hold, and settling again succeeds without correcting it |
| BillingSession.LateHoldSettlesWhole | internal/billing/app/session.go:41-103 | Without a hold taken at opening no failing call settles the session |
| BillingSession.ZeroSettlement | internal/billing/app/session.go:41-85 | A trusted session that knows of no hold, settled for nothing, succeeds exactly when its row is open and the ledger does not refuse, and its wallet pays nothing exactly when the row is not open |
| BillingSession.HoldIsForgotten | internal/billing/app/session.go:87-103 | Opening a trusted session, then a settlement whose hold goes through and whose token and give-back are refused, leaves an open hold that the session does not know |
| BillingSession.ForgottenHoldIsCharged | internal/billing/app/session.go:87-103 | After that run, settling for nothing succeeds and charges the wallet the whole hold |
| BillingSessionObject.RelaySession.Open | internal/billing/app/session.go:230-299 | Opening a session as it runs is the specified opening (`OpensExactly` says when it opens), a Claude wallet never trusted |
| BillingSessionObject.RelaySession.SettleQuota | internal/billing/app/session.go:41-85 | Settling as it runs is the specified call, fields and stores |
| BillingSessionObject.RelaySession.ReserveTrustedSettlement | internal/billing/app/session.go:87-103 | The late hold as it runs is the specified one |
| BillingSessionObject.RelaySession.RefundNow | internal/billing/app/session.go:140-174 | Refunding as it runs is the specified call, fields and stores |
| BillingSessionObject.RelaySession.ReserveUpTo | internal/billing/app/session.go:199-228 | Reserving more as it runs is the specified call (`ReservesWhatItHolds` says what it answers): a ledger funding refuses what goes beyond its hold, and nothing changes |
| FundingLots.GivenIsMinimum | internal/billing/app/funding_attribution.go:239-247 | A lot gives the smaller of what it has and what is still wanted, and only lots of the account give |
| FundingLots.EarlierLotsEmpty | internal/billing/app/funding_attribution.go:231-256 | A lot is touched only when every earlier lot of the account ends empty |
| FundingLots.DrawKeepsBalance | internal/billing/app/funding_attribution.go:239-257 | Every lot keeps 0 <= remaining = original minus its allocations, and allocations copy their lot's account, source and multiplier |
| FundingLots.DrawIsExact | internal/billing/app/funding_attribution.go:239-261 | A covered draw allocates exactly the amount to its request and nothing to another, and takes it from its account alone |
| FundingLots.AllocationAlwaysCovered | internal/billing/app/funding_attribution.go:258-286 | With a balance that is not negative the lots always cover the amount, the allocations sum to it, what is left still covers the balance, and the request counts as allocated |
| FundingLots.ReachableNeverShort | internal/billing/app/funding_attribution.go:258-261 | Against a reachable ledger the "balance is lower" error is never returned |
| FundingLots.FundingBook.RecordFundingLot | internal/billing/app/funding_attribution.go:176-211 | A credit records one lot; a repeated key, an empty account or no amount records none |
| FundingLots.FundingBook.DrawOnLots | internal/billing/app/funding_attribution.go:238-257 | The loop over the lots, early exit included, ends with the closed-form draw |
| FundingLots.FundingBook.AllocateSettledFundingFIFO | internal/billing/app/funding_attribution.go:215-264 | Allocates once per request, topping up first; it fails exactly on a missing snapshot or when the topped-up lots fall short, and then changes nothing |
| FundingEconomics.ReportConservesCost | internal/billing/app/funding_attribution.go:131-162 | When every wallet-paid request is allocated in full or not at all, recognised plus unattributed cost is what the day's requests cost |
| FundingEconomics.ReportConservesQuota | internal/billing/app/funding_attribution.go:131-149 | Under the same condition the report's lines account for exactly the quota the day's requests settled |
| FundingSources.LinePerSource | internal/billing/app/funding_attribution.go:131-149 | A source has a line exactly when a record concerns it; the line's quota, revenue and cost are the sums over the records and allocations of that source (subscription records, unallocated records, and each allocation's share of its request), defined without the report's lines |
| FundingSources.TotalsPerSource | internal/billing/app/funding_attribution.go:150-161 | Recognised revenue and cost are those of top-ups, blind boxes and subscriptions; the unattributed cost is that of the two other sources |
| FundingSources.SpoiledSources | internal/billing/app/funding_attribution.go:144-148 | The sources whose figures are no number are exactly those that a record without an amount drew on |
| FundingEconomics.AllocatingKeepsFull | internal/billing/app/funding_attribution.go:239-261 | First-in-first-out allocation of the settled amounts keeps every request allocated in full or not at all |
| FundingRuns.RunAllocates | internal/billing/app/funding_attribution.go:215-264 | Over every run of grants, allocations and snapshots, whatever fails, the lots balance and a request has been allocated exactly what its first allocation was given |
| FundingOrigins.OneLotPerGrant | internal/billing/app/funding_attribution.go:176-211 | Over every run a key carries one lot, with the account, source, amount and multiplier of its first grant, however often it is granted again and whatever is drawn; and none when nothing was granted under it |
| FundingOrigins.LotsAreAccounted | internal/billing/app/funding_attribution.go:266-286 | Over every run each lot is some grant's, or of unknown origin at multiplier zero |
| FundingOrigins.AllocationAnswers | internal/billing/app/funding_attribution.go:215-264 | An allocation fails exactly when there is something to allocate and the balance is unknown, or negative with lots that do not cover the amount; then nothing changes |
| FundingOrigins.OneRowPerRequest | internal/billing/app/funding_attribution.go:36-66 | Over every run a request has one recorded row, its latest accepted snapshot, whatever is recorded of others |
| FundingRuns.RunConserves | internal/billing/app/funding_attribution.go:94-163 | When no request was recorded with another amount than it was allocated, the report of any of the recorded rows accounts for exactly their cost and their quota |
| FundingRuns.RowBringsItsCost | internal/billing/app/funding_attribution.go:131-149 | A recorded row brings its whole cost into the report exactly when a subscription paid it, or it was not allocated, or was allocated its own amount, or costs nothing |
| FundingRuns.RecordedAnew | internal/billing/app/funding_attribution.go:36-66 | A request recorded again with twice the amount brings half its cost into the report |
| FundingEconomics.DailyFundingEconomics | internal/billing/app/funding_attribution.go:94-163 | The report has the specified line per source (`LinePerSource` says which that is); its totals split exactly those lines into recognised and unattributed, in whatever order the lines are visited; the sources it spoils are those of allocated requests recorded with no amount |
| ToolPricing.LookupIsLongestPrefix | internal/billing/toolpricing/prices.go:102-123 | Whatever order the rebuild visited the table in, the lookup answers with the longest matching override's price, else the tool's default, else zero |
| ToolPricing.KeysParsed | internal/billing/toolpricing/prices.go:77-87 | A key without a colon is a tool's default; after the first colon stands a model, or with a star the beginning of one |
| ToolPricing.AnswersArePrices | internal/billing/toolpricing/prices.go:61-123 | Over every visiting order and every outcome of the sort, rebuilds answer with each price that the table gives and with no other |
| ToolPricing.RebuildsAgree | internal/billing/toolpricing/prices.go:61-99 | Any two indexes of a table without conflicting rows agree on every tool and model, in whatever order rows of one length are sorted |
| ToolPricing.RebuildsAgreeIffOnePriced | internal/billing/toolpricing/prices.go:61-123 | For every tool and model: all rebuilds, over every visiting order and every outcome of the sort, agree exactly when no model is given or all rows of its longest matching prefix carry one price |
| ToolPricing.ConflictIsVisible | internal/billing/toolpricing/prices.go:77-96 | Two conflicting rows make some rebuilds differ on the model that is their prefix, exactly unless it is empty |
| ToolPricing.RebuildIndex | internal/billing/toolpricing/prices.go:61-99 | The rebuild collects the merged table's rows in some order and sorts each tool's, longest prefixes first and rows of one length in any order: exactly the table's rows |
| ToolPricing.GetPriceForModel | internal/billing/toolpricing/prices.go:102-123 | The search through the entries returns the index's first match |
| PerfMetrics.MetricStore.Record | internal/audit/projection/metrics.go:54-74 | A recorded sample enters the log under its model, group and bucket; rows and hot buckets still add up to the log |
| PerfMetrics.MetricStore.FlushBucket | internal/audit/projection/flush.go:23-65 | A flush moves a bucket into its row or, refused, puts it back; a bucket without requests is dropped without loss |
| PerfMetrics.MetricStore.FlushCompletedBuckets | internal/audit/projection/flush.go:23-59 | Every completed bucket whose write is not refused ends in its row, every other one stays, and nothing logged is lost |
| PerfMetrics.MetricStore.Query | internal/audit/projection/metrics.go:76-120 | The merged map shows, for exactly the keys of the window with a request, all seven counters of the log |
| PerfMetrics.FlushAgrees | internal/audit/projection/flush.go:31-35 | Taking a bucket over into its row keeps all seven counters, and a bucket without requests counts nothing at all |
| PerfMetrics.AtomicBucket.Add | internal/audit/projection/types.go:111-127 | Adds exactly what the sample counts for, in each of the seven counters |
| PerfMetrics.CountersMean | internal/audit/projection/types.go:111-127 | What a bucket should show, counter by counter: counts and sums over the logged samples that meet each counter's own condition |
| PerfMetrics.CountersInOrder | internal/audit/projection/types.go:111-127 | Neither successes nor first tokens outnumber requests |
| PerfMetrics.BucketContains | internal/audit/projection/metrics.go:470-476 | A time falls in the bucket from the last multiple of the bucket's length, an hour when none is set |
| PerfMetrics.WindowsAddUp | internal/audit/projection/metrics.go:104-111 | A window is its single buckets, both ends included, and shows one group or, without a group, all |
| RatioSyncDiff.CompareField | internal/adminops/app/ratio_sync_diff.go:53-101 | One model and field: every channel's cell, and whether some channel differs from the local value |
| RatioSyncDiff.CellsAndDifferences | internal/adminops/app/ratio_sync_diff.go:62-80 | What a channel's cell shows, and whether it makes a difference, for every combination of values on the two sides; numbers agree to within a billionth |
| RatioSyncDiff.WhenConfident | internal/adminops/app/ratio_sync_diff.go:21-46 | A channel is distrusted on a model exactly when it gives both placeholder ratios |
| RatioSyncDiff.PrunedMeans | internal/adminops/app/ratio_sync_diff.go:104-139 | After pruning, a model and field is reported exactly when some channel differs there, and items show exactly the channels that differ somewhere |
| RatioSyncDiff.BuildDifferences | internal/adminops/app/ratio_sync_diff.go:5-142 | The three passes, in any map order, end in that report when channel names are distinct and no channel supplies the marker as a value |
| TextQuota.PromptBilledOnce | internal/billing/app/text_quota.go:257-301 | In OpenAI-style usage each prompt token is billed once, as plain, cached, written, image or separately priced audio |
| TextQuota.CacheWritesBilledOnce | internal/billing/app/text_quota.go:64-73 | In Claude-style usage the cache writes billed are the cache writes reported, and the prompt is billed beside them |
| TextQuota.OpenRouterBilledOnce | internal/billing/app/text_quota.go:226-236 | On OpenRouter the reported prompt is billed once even when cache writes are inferred; beyond it only the split cache writes that the usage does not count |
| TextQuota.CacheWritesRecovered | internal/billing/app/realtime_quota.go:231-250 | The cache writes that explain the upstream's cost are recovered from it exactly |
| TextQuota.InferredExplainsCost | internal/billing/app/realtime_quota.go:231-250 | With the inferred cache writes, the upstream's prices charge what it reported to within half the premium of one cache write |
| TextQuota.InferredWithoutCost | internal/billing/app/text_quota.go:226-236 | Without a reported cost, or with a cost of zero, the inference takes the whole uncached prompt for cache writes exactly when stated (the prompt so counted costs less than half of what one cache write saves), and else nothing |
| TextQuota.NothingInferredWithoutCost | internal/billing/app/text_quota.go:226-236 | Nothing is inferred without a cost exactly when the inference does not run, no uncached token is there, or that condition fails |
| TextQuota.NoCostNothingInferred | internal/billing/app/text_quota.go:226-236 | So never where a cache write is dearer than a plain token, a negative cost included |
| TextQuota.FreeWritesInferred | internal/billing/app/text_quota.go:226-236 | And always the whole of a prompt without cached and output tokens where cache writes are free |
| TextQuota.AtLeastOne | internal/billing/app/text_quota.go:312-333 | A request with tokens and a ratio costs at least one, one without tokens nothing, and no quota leaves its range |
| TextQuota.OrderDoesNotMatter | internal/billing/app/text_quota.go:307-311 | The quota is the same in whatever order the further ratios come out of their map |
| TextQuota.MoreOutputNeverCheaper | internal/billing/app/text_quota.go:302-333 | With the other billed tokens unchanged, and through ratios, least charge, rounding and clamps, more output never costs less |
| TextQuota.MoreOutputOfUsage | internal/billing/app/text_quota.go:186-336 | The same of whole usages as long as the cache writes counted are the same |
| TextQuota.MoreOutputAgainstWrites | internal/billing/app/text_quota.go:226-304 | Where more output changes the inferred cache writes, split ones included, the amount before rounding is no less exactly when the output's price and the tokens returned to the plain prompt make up for the writes no longer billed |
| TextQuota.MoreOutputMakesUp | internal/billing/app/text_quota.go:226-333 | And then the quota is no less either, through any further ratios that are not negative, least charge, rounding and clamps |
| TextQuota.MoreOutputFallsShort | internal/billing/app/text_quota.go:302-333 | When the amount falls by a whole unit or more between the clamps, the quota falls |
| TextQuota.MoreOutputCheaperWhenInferred | internal/billing/app/text_quota.go:226-304 | A usage whose quota falls from 14 to 13 with one more output token |
| TextQuota.CostsAddUp | internal/billing/app/text_quota.go:257-304 | Before rounding, tokens cost the same together as apart |
| TextQuota.UnitPrices | internal/billing/app/text_quota.go:257-304 | A token of each kind costs what its own ratio says; with additivity that fixes the whole amount |
| TextQuota.ChargedToTheNearest | internal/billing/app/text_quota.go:312-333 | A positive amount within range is charged to the nearest whole number |
| TextPricing.ChargedEverywhere | internal/billing/app/text_quota.go:312-333 | What every amount is charged: the nearest whole number, halves upwards; below a half one, or nothing without a ratio; beyond the range its largest number; without tokens nothing |
| TextPricing.PricedByCall | internal/billing/app/text_quota.go:317-320 | A price per call, less the tool calls, is one when price, group ratio and quota per unit are, grows in proportion to each, and is the same for all tokens and tool calls |
| TextPricing.CallCharged | internal/billing/app/text_quota.go:317-333 | So all requests with tokens are charged alike per call, to the nearest whole number of price, tool calls and further ratios |
| TextPricing.BilledAsReported | internal/billing/app/text_quota.go:203-301 | Except for OpenRouter's Claude, a usage is billed for exactly the tokens it reports of each kind, and the plain prompt is what those leave of it, or all of it but images and audio where the others come on top, by what the usage says of itself |
| TextPricing.EstimateBilled | internal/billing/app/text_quota.go:163-184 | An empty usage, or none, is billed as the estimated prompt, and charged nothing without an estimate |
| TextPricing.WritesInferred | internal/billing/app/text_quota.go:226-236 | On OpenRouter's Claude the writes that explain the cost are billed exactly where none are reported, a write has a price of its own, the model's prices are the standard ones and the uncached prompt has that many |
| TextPricing.OpenRouterCounts | internal/billing/app/text_quota.go:226-236 | Nothing is inferred outside those conditions, whatever the cost; the other counts are the usage's, and plain, cached and written tokens make up its prompt |
| TextQuota.CalculateTextQuota | internal/billing/app/text_quota.go:186-336 | The branching calculation bills the specified tokens and charges the specified quota; `BilledAsReported`, `UnitPrices`, `PricedByCall` and `ChargedEverywhere` say which those are |

## Left out

- Serialisable transactions are assumed. The rebuild locks the account row (`internal/billing/app/ledger_worker.go:116-120`) and the ledger operations the snapshot row (`internal/billing/domain/ledger_runtime.go:658-669`), so the databases' own isolation has to make them one step each.
- Trimming of keys and identifiers: lookups use the raw key and stores the trimmed one; keys are taken as already trimmed.
- Descriptive columns (metadata, operator, reason details, timestamps, expiry) that no branch compares.
- BalancesFit: gives the condition for 64-bit columns (the refunded total's is `RefundedWithinHolds`); wrap-around beyond it is not modelled.
- The asynchronous `Refund` of a session, its locks and goroutines; refund is the one synchronous step `RefundSync`.
- Subscription funding, and the plain wallet funding types that the ledger funding replaces.
- The allocation that a settled hold triggers: its failure is only logged, so it is a step of its own (`FundingLots`).
- Bonus quota credits: provenance rows consumed beside a debit, by the same draw as the funding lots without its error.
- Normalisation of negative legacy wallets, the dry-run counts and the loops over users, tokens and subscriptions of the migration.
- Redis, the quota caches, the token's used-quota column, notifications, logging and audit records.
- FundingEconomics.DailyFundingEconomics: sums are real numbers, so float rounding is not modelled, and a quotient by zero counts as zero and marks its source as spoiled; the sorting of its lines by name, day boundaries and database selection are left out.
- FundingLots: creation order stands for "created_at, lot_id"; the mapping of reason codes to sources is a parameter.
- PerfMetrics: retention cleanup, records that arrive between the counters of one drain, Redis buckets, and the averages and series computed from the merged map.
- RatioSyncDiff.BuildDifferences: values are numbers or texts, already normalised; other JSON kinds are left out, and so is the fetching of channels.
- TextQuota.CalculateTextQuota: the tool-call surcharge and the audio price are parameters, decimals are real numbers rounded once, tiered expressions are left out, and an amount beyond 64 bits saturates.
- ToolPricing: the fixed image and audio price tables, and the lookup before the first rebuild.
- Points, redemption, bounty tasks, access policy, HTTP handlers and every other part of the gateway.
