# Safrod, modelled and proved

Safrod is a payment service in front of a Lightning node and a Bitcoin node. It takes requests to
pay invoices, records every payment and invoice in a database, turns node events into webhook
deliveries, runs simulated cross-currency payouts whose settlement leg is a real Lightning payment,
and watches addresses for deposits. Beside it stands an older two-node settlement protocol, in which
a source pays a Lightning invoice only once the destination's fiat rail has paid out.

What these components promise holds over whole runs: a crash may fall between any two storage calls,
several requests and reconcilers may be in progress, node events are redelivered, messages are lost
and repeated. The project models the code in two layers.

* **Code.** What updates tables or fields in place is a class or a method (`Storage.Database`,
  `Engine.SendPayment`, `NodeEvents.PumpNodeEvents`, `Sandbox.SandboxTables`,
  `SettlementNode.SettlementNode`, `FileStore.FileSettlementStore`, `Watcher.ChainTables`,
  `Webhooks.DeliveryTable`, `Signature.Verify`), proved equal to functions on values.
* **Protocols.** Those functions are the steps of four state machines: `PaymentProtocol`,
  `PayoutProtocol` (which contains it), `SettlementProtocol` and `Webhooks`. The theorems are about
  every run of them.

Conventions. A row's identifier is its position in its table, and tables are in creation order. One
storage call is one step, committed or rolled back as a whole. Fields described as histories are read
by no step; they only let a theorem speak about the past. Integers are unbounded, with every
conversion and column limit of the code written out. Two requests have the same fingerprint exactly
when they are the same request (`Fingerprint.BytesDetermineTheRequest`), so the payment tables compare
requests themselves (`Fingerprint.BeginPaymentComparesDigests`).

Where a property holds only under a condition, the condition is a `requires` and a lemma shows a run
or an input that breaks the property without it: `OutcomeTruth.ReadIsSafeExactlyWhenCareful` (an
exact condition), `OutcomeTruth.SharedHashBreaksTruth`, `OutcomeTruth.SharedHashLosesSuccess`,
`PayoutSafety.ClientCouldTakeTheKey`, `SettlementSafety.StrangerGetsPaid`,
`SettlementSafety.OwnRailGetsPaid`, `Webhooks.TwoWorkersOverrun`, `Fingerprint.LargeAmountCollides`,
`Signature.WrappedClockIsAccepted`. On the source settlement node the condition is that neither its
local `/settlements/:id/payout` route nor its `/peer/settlements/:id/payout` route, which reaches the
same call, is used for source records.

Seven things the code does that its comments do not say:

* The route `/v1/lightning/payments/:id/reconcile` is open while payments are being sent. Used on a
  payment that is still `created` and about to be sent, it can store `failed` for a payment the node
  then accepts (`OutcomeTruth.StaleReadBreaksTruth`); with unshared hashes it is safe on any other
  (`OutcomeTruth.ReadIsSafeExactlyWhenCareful`).
* A success event can be acknowledged and lost when a newer `created` payment carries the same hash
  (`OutcomeTruth.SharedHashLosesSuccess`); with unshared hashes none is
  (`OutcomeDelivery.ReportedOutcomeIsQueuedOrRecorded`).
* `reconcile_all` stops with an error when a success reports a fee above the signed 64-bit range, and
  only then (`Reconcile.ReconcileAllMeetsTable`); the event pump retries such an event for ever.
* A redelivered outcome can move a second, older payment with the same hash, in exactly the cases
  `NodeEvents.RedeliveredOutcome` names.
* The clock check of a webhook signature subtracts and takes an absolute value with 64-bit
  wrap-around (release arithmetic), so far-away timestamps can pass; `Signature.SignedIsAcceptedWhenFresh`
  says for which clocks.
* A deposit whose block is replaced by one at another height, with the same number of blocks on it, keeps
  the old height in its row (`WatcherScan.ReplacedBlockKeepsItsOldHeight`).
* A save of the settlement journal whose directory sync fails reports failure, and the map in memory
  is rolled back, while the disk may already hold the new map (`FileStore.FileSettlementStore.Put`).

Check everything with `dafny verify dfyconfig.toml`.

## Model

| member | source | states |
|---|---|---|
| `Storage.Database.BeginPayment` | crates/safrod-storage/src/payments.rs:52-103 | inserts one `created` row, or returns the stored row for a repeated key, or refuses a reused key with another request, leaving all tables as they were |
| `Storage.Database.TransitionPayment` | crates/safrod-storage/src/payments.rs:171-244 | the dedupe claim, the row and the event commit together; a repeated claim or status is a no-op and every error path rolls the claim back |
| `Storage.Database.EmitEvent` | crates/safrod-storage/src/events.rs:13-44 | appends the event and one delivery for each endpoint of the project enabled at that moment |
| `Storage.Database.ClaimNodeEvent` | crates/safrod-storage/src/events.rs:48-64 | a dedupe key is new exactly once |
| `Storage.Database.MarkInvoicePaid` | crates/safrod-storage/src/invoices.rs:107-153 | claim, paid row and event commit together; already applied or already paid changes nothing; errors roll the claim back |
| `Storage.Database.ExpireInvoices` | crates/safrod-storage/src/invoices.rs:155-176 | expires exactly the overdue open invoices, one event each, and returns that many |
| `Ledger.FindKey` | crates/safrod-storage/src/payments.rs:74-101 | finds the row of a project and key, and finds none only if there is none |
| `Ledger.FindOpen` | crates/safrod-storage/src/payments.rs:152-169 | the newest open row with the hash, and none only if no open row has it |
| `Ledger.UnresolvedPayments` | crates/safrod-storage/src/payments.rs:141-150 | lists exactly the rows that are not final, oldest first |
| `StorageAnswers.PaymentsOnlyMoveOn` | crates/safrod-core/src/state.rs:72-93 | a move is allowed if and only if it goes on in the order created, pending, unknown, final, and a payment never handed to the node can only be pended or fail |
| `StorageAnswers.BeginAnswers` | crates/safrod-storage/src/payments.rs:52-103 | each answer has its own condition, and only a new key changes a table, by one `created` row with the request and nothing else in it |
| `StorageAnswers.TransitionRefuses` | crates/safrod-storage/src/payments.rs:171-207 | each refusal, and each no-op, if and only if its own condition holds; none leaves a trace |
| `StorageAnswers.TransitionStores` | crates/safrod-storage/src/payments.rs:208-244 | a committed move stores the fee, failure and preimage it was given and keeps those it was not, keeps project, key and request, touches no other row, stores its claim, and logs the outcome with the stored fee |
| `StorageAnswers.ReceiptAnswers` | crates/safrod-storage/src/invoices.rs:107-136 | each refusal of an incoming payment if and only if its own condition holds |
| `StorageAnswers.ReceiptStores` | crates/safrod-storage/src/invoices.rs:128-153 | an applied receipt pays its one invoice with the amount that came and logs that amount |
| `StorageAnswers.InvoiceIsInsertedExactlyWhen` | crates/safrod-storage/src/invoices.rs:35-54 | an invoice is inserted, open and as given, if and only if its amount fits and its hash is new |
| `StorageAnswers.ExpiresExactlyTheOverdue` | crates/safrod-storage/src/invoices.rs:155-176 | an invoice ends `expired` if and only if it was so, or was open with an expiry before now; nothing else changes, and what is logged are such expiries with their own project and amount |
| `LedgerInvariants.ApplyKeepsLog` | crates/safrod-storage/src/payments.rs:187-244 | every transaction keeps: the log folds to each row's visible status, with one terminal event for a final row and at most one `unknown` event |
| `LedgerInvariants.ApplyKeepsTotals` | crates/safrod-storage/src/projects.rs:105-124 | every transaction keeps a project's received, sent and fee totals equal to sums over the log |
| `LedgerInvariants.LogTellsTheRows` | crates/safrod-storage/src/events.rs:13-44 | from empty tables, after any sequence of transactions, the log agrees with every payment, invoice and total |
| `LedgerInvariants.EveryEventReachesEnabledEndpoints` | crates/safrod-storage/src/events.rs:24-44 | an event has, ever after, exactly one delivery per endpoint of its project enabled when it was emitted, and no other |
| `LedgerInvariants.DedupeKeysAreExact` | crates/safrod-storage/src/events.rs:46-64 | `recv:h` is stored if and only if invoice h is paid; `sent_ok:p` only if p succeeded, `sent_fail:p` only if it failed, never both |
| `LedgerInvariants.ClaimsAndClosedInvoicesStay` | crates/safrod-storage/src/invoices.rs:107-176 | no transaction ever removes a claim or changes an invoice that has left `open` |
| `LedgerInvariants.RedeliveryIsHarmless` | crates/safrod-storage/src/invoices.rs:104-153 | once an incoming payment is applied, its event redelivered after any further transactions, with any amount, changes nothing |
| `Reconcile.ReconcilePaymentNow` | crates/safrod-api/src/engine.rs:153-207 | the handler's branches do what the decision function and at most two storage moves do |
| `Reconcile.ReconcileAllNow` | crates/safrod-api/src/engine.rs:209-220 | the loop reconciles the open rows in order, counts changed statuses and stops at the first error |
| `Reconcile.ReconcileAllMeetsTable` | crates/safrod-api/src/engine.rs:153-220 | run alone over a fixed node view it never meets an illegal transition; it fails exactly when a success carries a fee the column cannot hold, and otherwise every row ends where a status-by-answer table says and the count is exact |
| `Reconcile.SecondPassChangesNothing` | crates/safrod-api/src/engine.rs:209-220 | after a completed pass a second one over the same view writes nothing and counts zero |
| `Reconcile.ReconciledRowCarries` | crates/safrod-api/src/engine.rs:153-207 | a reconciled row carries the preimage and fee of the node's success, and for a failure whether the node reported it or never saw the payment |
| `Reconcile.PassesOnlyWhereItMust` | crates/safrod-api/src/engine.rs:183-198 | a reconciler passes through `pending` if and only if the move it decided on is not allowed directly |
| `DispatchSafety.StepKeepsDispatches` | crates/safrod-api/src/engine.rs:73-137 | every protocol step keeps: keys unique, one live sender per row, a sent row past `created`, sent once, for the row's invoice and amount |
| `DispatchSafety.AtMostOneSendPerKey` | crates/safrod-api/src/engine.rs:73-111 | in every run with any interleaving and crashes, two sends never share a project and key, and the row of a send has left `created`, so while not final the restart scan finds it |
| `OutcomeTruth.FinalStatusIsWhatTheNodeReported` | crates/safrod-api/src/engine.rs:95-207 | in every careful run with unshared hashes a payment is `succeeded` only after the node reported success, an accepted one `failed` only after it reported failure, and one without a report is `pending` or `unknown` |
| `OutcomeTruth.StepStaysTrue` | crates/safrod-api/src/engine.rs:240-306 | each step keeps every status, every pending verdict of a reconciler and the pump's position true to the node's reports |
| `OutcomeTruth.StartupReconciliationIsCareful` | crates/safrod/src/main.rs:89-94 | a schedule that reconciles only before it accepts traffic, as the startup pass does, satisfies the condition of the theorem above; the reconcile route, open at any time, is outside it |
| `OutcomeTruth.ReadIsSafeExactlyWhenCareful` | crates/safrod-api/src/routes/lightning.rs:278-297 | from any truthful state, a reconciler's read of a row leaves every careful future true if and only if the row is not a `created` one whose send is in progress |
| `OutcomeTruth.StaleReadBreaksTruth` | crates/safrod-api/src/engine.rs:157-188 | reading a `created` row whose sender is live can always be continued to a `failed` payment the node accepted and never failed |
| `OutcomeTruth.FirstRequestCanBeRead` | crates/safrod-api/src/engine.rs:73-93 | the first request of any run reaches a state the row above starts from |
| `OutcomeTruth.SharedHashBreaksTruth` | crates/safrod-api/src/engine.rs:112-137 | a second request for an accepted invoice that the node refuses is stored `failed` under a hash the node accepted and has not failed |
| `OutcomeTruth.FirstSendIsAccepted` | crates/safrod-api/src/engine.rs:95-116 | a first payment the node takes reaches a state the row above starts from |
| `OutcomeTruth.SharedHashLosesSuccess` | crates/safrod-api/src/engine.rs:258-283 | a second request for an accepted invoice makes the pump find the newer row, take the illegal move for a permanent error and acknowledge the success: nothing is queued and the first payment stays open |
| `OutcomeTruth.FirstSuccessIsQueued` | crates/safrod-lightning/src/mock.rs:97-119 | a first payment taken and reported successful reaches a state the row above starts from |
| `OutcomeDelivery.StepKeepsDelivering` | crates/safrod/src/tasks.rs:19-44 | every step keeps: a reported outcome is queued or recorded, and the event about to be acknowledged is recorded |
| `OutcomeDelivery.ReportedOutcomeIsQueuedOrRecorded` | crates/safrod-api/src/engine.rs:231-306 | in every careful run with unshared hashes, a reported outcome whose event is no longer queued is the status of its row: no acknowledged outcome is lost |
| `OutcomeDetails.StepKeepsDetails` | crates/safrod-api/src/engine.rs:95-306 | each step keeps rows, reconcilers' verdicts, node records and queued events carrying what the node reported |
| `OutcomeDetails.FinalPaymentsCarryTheReport` | crates/safrod-api/src/engine.rs:258-304 | in every run, careful or not, a `succeeded` payment carries exactly the preimage and fee the node reported for its hash, a `failed` one a reason and neither of them, and any other none of the three |
| `OutcomeDetails.ReceiptsAreReports` | crates/safrod-lightning/src/mock.rs:97-128 | what counts as reported for a hash is what one success report of it said |
| `NodeEvents.HandleNodeEvent` | crates/safrod-api/src/engine.rs:240-322 | the handler's effect on storage and its verdict are those of the next rows; a retry leaves storage as it was |
| `NodeEvents.VerdictIs` | crates/safrod-api/src/engine.rs:231-322 | an event is retried if and only if it brings an amount or fee no column holds to something that could take it; dropped for good if and only if it is a receipt for no invoice or an expired one, or a success for a payment never handed to the node; a failure is always applied |
| `NodeEvents.ReceiptIsStored` | crates/safrod-api/src/engine.rs:241-257 | a receipt pays its open invoice with the amount that came, and touches no other |
| `NodeEvents.SuccessIsStored` | crates/safrod-api/src/engine.rs:258-283 | a success makes the newest open payment with its hash `succeeded`, with the event's preimage and fee, and touches no other |
| `NodeEvents.FailureIsStored` | crates/safrod-api/src/engine.rs:284-304 | a failure makes the newest open payment with its hash `failed`, with the event's reason, and touches no other |
| `NodeEvents.PumpHandles` | crates/safrod-api/src/engine.rs:240-306 | the protocol's two pump steps on an event leave what the handler leaves, and the pump is about to acknowledge if and only if the handler asks for no retry |
| `NodeEvents.PumpNodeEvents` | crates/safrod/src/tasks.rs:14-45 | events are applied in order, retried while transient and acknowledged only afterwards: what is left is a suffix of the queue, everything before it was applied once, its head had no effect |
| `NodeEvents.RoundsHandleAll` | crates/safrod/src/tasks.rs:14-45 | the protocol's pump, undisturbed over events that are not turned away, is the handler run over them |
| `NodeEvents.RedeliveredOutcome` | crates/safrod-api/src/engine.rs:258-304 | delivering an outcome twice equals delivering it once if and only if the first delivery changed nothing or no older open row with that hash would move |
| `NodeEvents.RedeliveryChangesNothing` | crates/safrod/src/tasks.rs:19-44 | with unshared hashes, repeating each event of any sequence any number of times in a row has exactly the effect of delivering it once |
| `NodeEvents.LateRedeliveryChangesNothing` | crates/safrod/src/tasks.rs:19-44 | with unshared hashes, redeliveries at any later time, between any other transactions and events, can be left out without changing the tables, once storage took the event |
| `NodeEvents.RunIsTxns` | crates/safrod-storage/src/payments.rs:171-207 | the tables of any protocol run are those of a sequence of transactions |
| `NodeEvents.TxnsAreWellKeyed` | crates/safrod-api/src/engine.rs:250-303 | each of those transactions claims only a key that fits its effect |
| `NodeEvents.ProtocolKeepsTheBooks` | crates/safrod-api/src/engine.rs:240-306 | in every protocol run, crashes included, log, totals and dedupe keys agree with the rows |
| `Engine.LightningNode.SendPayment` | crates/safrod-lightning/src/mock.rs:97-119 | a payment is taken, and pending under its hash, exactly when no failure was arranged and the node has no record of the hash; otherwise it is refused with the right error and the node is unchanged |
| `Engine.SendPayment` | crates/safrod-api/src/engine.rs:43-138 | the whole handler leaves what the protocol's begin, pend, send and refuse steps leave; a repeated key sends nothing; a call that sends ends `pending` or, if refused, `failed` |
| `Engine.AmountIsAcceptedExactlyWhen` | crates/safrod-api/src/engine.rs:49-67 | a send goes on if and only if the amount is between a satoshi and the supply and is the invoice's, uncontradicted, or else the request's |
| `Engine.FailureLabelsTellApart` | crates/safrod-api/src/engine.rs:140-147 | two causes of a refusal never share a label |
| `Engine.ReconcilerReconciles` | crates/safrod-api/src/engine.rs:153-207 | a reconciler undisturbed between its read and its last write does to the tables what reconciling that row does |
| `Sandbox.SandboxTables.CreditBalance` | crates/safrod-storage/src/sandbox.rs:244-260 | adds to the balance row or creates it, and refuses an overflow without effect |
| `Sandbox.SandboxTables.Reserve` | crates/safrod-storage/src/sandbox.rs:67-150 | marks the quote used, debits the balance and records the payout together, or replays a prior payout, or changes nothing |
| `Sandbox.SandboxTables.Advance` | crates/safrod-storage/src/sandbox.rs:181-230 | a legal move changes the status and, into `failed`, refunds in the same transaction; anything else changes nothing |
| `SandboxAnswers.PayoutsOnlyMoveOn` | crates/safrod-core/src/state.rs:144-157 | a payout may advance if and only if it goes on in the order reserved, pending, unknown, final, and a reserved one only to pending |
| `SandboxAnswers.ReserveAnswers` | crates/safrod-storage/src/sandbox.rs:67-112 | a payout is created if and only if its key is unused, the quote is the project's, open and not expired now, and the balance covers it; a prior one is replayed if and only if quote and scenario match; each error has its own condition |
| `SandboxAnswers.ReserveStores` | crates/safrod-storage/src/sandbox.rs:113-150 | a reservation marks its quote used, takes exactly its amount from the project's balance and adds one payout |
| `SandboxAnswers.AdvanceAnswers` | crates/safrod-storage/src/sandbox.rs:181-230 | each answer has its own condition; a move changes one status and nothing else of any payout |
| `SandboxAnswers.AdvanceRefunds` | crates/safrod-storage/src/sandbox.rs:205-218 | a failed payout gives its source amount back to the balance it came from, and nothing else moves money |
| `SandboxAnswers.CreditAnswers` | crates/safrod-storage/src/sandbox.rs:244-260 | a credit adds exactly its amount to one balance, or is refused because amount or balance would not fit |
| `SandboxAnswers.QuoteIsInsertedExactlyWhen` | crates/safrod-storage/src/sandbox.rs:33-51 | a quote is stored, open and as given, if and only if its amounts are positive and fit their columns |
| `PayoutSafety.StepKeepsSound` | crates/safrod-api/src/routes/sandbox.rs:147-253 | every handler step, under concurrent reconciles and crashes, keeps the conservation, backing, refund and leg invariants |
| `PayoutSafety.MoneyIsConserved` | crates/safrod-storage/src/sandbox.rs:67-230 | in every run every balance is non-negative and equals credits minus the source amounts of payouts not failed; a quote is used exactly when one payout stands on it; refunds are one for each failed payout |
| `PayoutSafety.LegIsSentOnceAndOnlyOnSuccess` | crates/safrod-api/src/routes/sandbox.rs:197-253 | in every run with clients outside the `sandbox-payout:` keys, a leg is sent at most once, only for a payout that is `succeeded` and never refunded, for exactly the quote's Bitcoin amount on its invoice |
| `PayoutSafety.ClientCouldTakeTheKey` | crates/safrod-api/src/routes/sandbox.rs:224-253 | from any sound state a client request under a payout's key puts a send under that key although the payout has not succeeded |
| `PayoutSafety.ReservedIsReachable` | crates/safrod-storage/src/sandbox.rs:67-150 | a credit, a quote and a reservation reach a state the row above starts from |
| `PayoutRuns.EveryPayoutWasTimely` | crates/safrod-api/src/routes/sandbox.rs:147-195 | in every run each payout was reserved by one step, at a time its quote had not expired, with an invoice for the quote's amount or for none |
| `PayoutRuns.AttachedPaymentIsTheLeg` | crates/safrod-storage/src/sandbox.rs:166-179 | in every run the payment attached to a payout is the one begun under that payout's own key |
| `PayoutRuns.ReserveBegins` | crates/safrod-api/src/routes/sandbox.rs:147-195 | a reservation hands its payout, with the scenario and invoice asked for, to the handler that starts it, with a balance it can be refunded to |
| `PayoutRuns.SuccessStartsTheLeg` | crates/safrod-api/src/routes/sandbox.rs:197-232 | an undisturbed payout that is to succeed ends `succeeded` with its Bitcoin leg to come |
| `PayoutRuns.LegBeginsAndIsAttached` | crates/safrod-api/src/routes/sandbox.rs:224-253 | the leg begins one payment for the quote's amount on the payout's invoice, and it is attached |
| `PayoutRuns.FailureIsRefunded` | crates/safrod-api/src/routes/sandbox.rs:197-222 | an undisturbed payout that is to fail ends `failed` with its source amount back |
| `PayoutRuns.TimeoutStaysUnknown` | crates/safrod-api/src/routes/sandbox.rs:197-222 | one that is to time out ends `unknown`, with nothing refunded or sent |
| `PayoutRuns.UnknownIsReconciled` | crates/safrod-api/src/routes/sandbox.rs:305-334 | an `unknown` payout is resolved as its project's reconcile asks, with leg or refund |
| `PayoutRuns.ReconcileTakesUpExactly` | crates/safrod-api/src/routes/sandbox.rs:305-334 | a reconcile takes up a payout if and only if it is `unknown` and the caller's own |
| `SettlementNode.SettlementNode.AttachInvoice` | legacy/settlement/src/node.rs:190-229 | succeeds exactly for an unexpired record in the right state and an invoice of its amount; stores and caches the invoice, or changes neither |
| `SettlementNode.SettlementNode.RequestPayout` | legacy/settlement/src/node.rs:301-341 | never changes a decision of the rail; each error if and only if its own condition holds; the stored state says what the rail answered, rejected and timed out included |
| `SettlementNode.SettlementNode.ApplyAttestation` | legacy/settlement/src/node.rs:343-381 | evidence from another signer, or in another state, changes nothing |
| `SettlementNode.SettlementNode.ReleaseSettlement` | legacy/settlement/src/node.rs:412-421 | pays the cached invoice exactly when the record is confirmed; only an answered payment forgets the invoice and closes the record |
| `SettlementNode.SettlementNode.Recover` | legacy/settlement/src/node.rs:498-515 | the cache after a restart is exactly the stored invoices of records that still need one |
| `SettlementNode.RecoveredInvoiceIsPaid` | legacy/settlement/src/node.rs:498-515 | from any state in which the payer waits, a restart, recovery, the confirmation and the release pay the stored invoice |
| `SettlementNode.RetriedReleasePaysSameInvoice` | legacy/settlement/src/lightning/cln.rs:174-203 | after a lost answer, and after a restart with recovery, the retried release pays the same invoice |
| `SettlementCalls.TransitionsAreTheWaysIn` | legacy/settlement/src/state.rs:64-98 | the transitions are exactly the ways into each state |
| `SettlementCalls.AwaitsExactlyThePayable` | legacy/settlement/src/node.rs:500-506 | the states in which a restarted payer gets its invoice back are exactly those reachable from the accepted condition and from which release can still be reached |
| `SettlementCalls.AttachAnswers` | legacy/settlement/src/node.rs:190-229 | an invoice is attached if and only if the record is quoted, not expired, and the amount is the record's |
| `SettlementCalls.ApplyAnswers` | legacy/settlement/src/node.rs:343-381 | evidence settles a record as it says, and is kept, if and only if its payout is outstanding |
| `SettlementCalls.MarkUnknownAnswers` | legacy/settlement/src/node.rs:383-392 | a payout becomes unknown if and only if it had not been asked for |
| `SettlementCalls.ReleaseAndRefundAnswer` | legacy/settlement/src/node.rs:412-434 | a record is released if and only if confirmed and refunded if and only if failed |
| `SettlementCalls.RecordAnswers` | legacy/settlement/src/node.rs:457-490 | evidence is kept; if it contradicts what is held the settlement is disputed or, where that is no longer possible, the evidence refused |
| `SettlementCalls.PrepareAnswers` | legacy/settlement/src/node.rs:244-299 | a destination record is prepared if and only if the quote has not expired |
| `SettlementCalls.RequestAnswers` | legacy/settlement/src/node.rs:301-308 | a payout is asked for if and only if the condition stands and there is a reservation |
| `SettlementCalls.ObserveAnswers` | legacy/settlement/src/node.rs:309-341 | a requested record becomes what the rail answered |
| `SettlementCalls.ReconcileAnswers` | legacy/settlement/src/node.rs:394-410 | an unknown record, and no other, becomes what the rail says on asking |
| `SettlementCalls.RailDecidesOnce` | legacy/settlement/src/adapters/simulated.rs:58-90 | without its reservation the rail does nothing; a decided key answers with its decision; a new one is confirmed, rejected, or confirmed behind a timeout |
| `SettlementSafety.AskRailKeeps` | legacy/settlement/src/adapters/simulated.rs:58-90 | asking the rail keeps every signed word equal to the one decision per settlement, even after the rail forgot it |
| `SettlementSafety.RunIsSafe` | legacy/settlement/src/api.rs:338-583 | safety is kept over every permitted run, and no decision is ever remade |
| `SettlementSafety.PaysOnlyWhatTheRailConfirmed` | legacy/settlement/src/node.rs:301-490 | in every run with lost, repeated and delayed messages and crashes between a side effect and its `put`, the source pays only if the rail confirmed and refunds only if it failed, never both; no record is disputed; every `pay` carries the one attached invoice |
| `SettlementSafety.RestartKeepsWhatMayBePaid` | legacy/settlement/src/node.rs:498-515 | from every safe state a restart of the source gives it back exactly the invoices of the records from which release can still be reached |
| `SettlementSafety.DestinationConfirmsAndSigns` | legacy/settlement/src/api.rs:486-546 | an undisturbed destination prepares, asks its rail once, stores and signs the confirmation |
| `SettlementSafety.ConfirmedSettlementIsPaid` | legacy/settlement/src/api.rs:338-416 | an undisturbed source that hears it pays the attached invoice |
| `SettlementSafety.FailedSettlementIsRefunded` | legacy/settlement/src/node.rs:423-434 | an undisturbed refund of a failed settlement is recorded, closes it and forgets its invoice |
| `SettlementSafety.ExpiredQuoteTakesNoInvoice` | legacy/settlement/src/node.rs:109-229 | a settlement begun on a quote keeps its terms; from its expiry on it takes no invoice, and before it takes one of its amount |
| `SettlementSafety.AttachedAndStored` | legacy/settlement/src/node.rs:100-229 | begin, attach and put lead from the initial state, with any peer setting, to the state the next two rows start from |
| `SettlementSafety.StrangerGetsPaid` | legacy/settlement/src/node.rs:343-381 | with no peer configured, a stranger's attestation gets an undecided settlement paid |
| `SettlementSafety.OwnRailGetsPaid` | legacy/settlement/src/api.rs:193-215 | the source's own payout route gets an undecided settlement paid on its own rail's word |
| `FileStore.FileSettlementStore.Save` | legacy/settlement/src/store.rs:63-78 | at every moment of a save, whichever step fails, a power cut opens to what the disk could have held before or to the new map; once complete, only to the new map |
| `FileStore.FileSettlementStore.Put` | legacy/settlement/src/store.rs:133-151 | stores the record, or leaves the map in memory as it was; what the disk may hold in either case |
| `FileStore.PowerCutOpensAllowed` | legacy/settlement/src/store.rs:39-61 | after any power cut the journal opens, and to one of the maps the disk was known to hold |
| `FileStore.CrashOpensOldOrNew` | legacy/settlement/src/store.rs:39-78 | a save stopped after any of its steps by a power cut, then opened again, gives exactly the old map or the new one, and the new one if it had completed |
| `FileStore.Live` | legacy/settlement/src/store.rs:39-151 | over any sequence of puts, stopped anywhere or completed, and power cuts, the journal always opens, to the last map completed or reopened or one in progress since |
| `FileStore.ReopensLastOrInProgress` | legacy/settlement/src/store.rs:63-78 | when a stopped put is always followed by a power cut, each reopening finds the last completed or reopened map, or the one whose put was stopped |
| `Watcher.ChainTables.Record` | crates/safrod-storage/src/onchain.rs:77-144 | inserts or updates the row with one event, or reports no change when confirmations are the same |
| `Watcher.ChainTables.ScanOnce` | crates/safrod-bitcoin/src/watcher.rs:35-94 | the two loops record the watched confirmed outputs and then the mempool outputs not seen confirmed, count the changes and stop at the first error |
| `WatcherScan.RecordAnswers` | crates/safrod-storage/src/onchain.rs:77-144 | each answer has its own condition; what is refused or unchanged leaves no trace |
| `WatcherScan.ConfirmationsCountBlocks` | crates/safrod-bitcoin/src/watcher.rs:46-52 | below 2^31 blocks, confirmations are the blocks from the output's own to the tip, both included |
| `WatcherScan.CompletedScanShowsTheChain` | crates/safrod-bitcoin/src/watcher.rs:35-94 | after a completed scan each watched unspent output has a row counting the blocks that bury it, confirmed if and only if they meet the requirement, with its height unless a row was there with the same count and another height; each watched output only in the mempool has a row with no block; no other row is new or changed, and the count returned is the events logged |
| `WatcherScan.ReplacedBlockKeepsItsOldHeight` | crates/safrod-storage/src/onchain.rs:100-118 | a deposit whose block is replaced by one at the next height keeps the old height |
| `Watcher.SecondScanIsSilent` | crates/safrod-bitcoin/src/watcher.rs:35-94 | for a view that lists each output once per source, a second scan changes nothing, appends no event and reports zero |
| `Watcher.StatusFollowsConfirmations` | crates/safrod-core/src/state.rs:112-121 | a status never falls with more confirmations or a laxer requirement; unmined is unconfirmed, and confirmed needs a block and the requirement |
| `Watcher.EveryRowIsTrue` | crates/safrod-core/src/state.rs:115-121 | after any scans, completed or not, while addresses are added, each row's status is the function of its confirmations and requirement and is what its latest event says; each stored output was announced as new exactly once, and as confirmed exactly when it became so |
| `Webhooks.DeliveryTable.EarliestDue` | crates/safrod-storage/src/webhooks.rs:82-101 | the due delivery with the earliest time not yet picked, and none only if all are picked |
| `Webhooks.DeliveryTable.ClaimDue` | crates/safrod-storage/src/webhooks.rs:74-116 | claims distinct due deliveries, earliest first, up to the batch and all of them if they fit, and leases exactly those |
| `Webhooks.DeliveryTable.RecordDelivery` | crates/safrod-storage/src/webhooks.rs:118-166 | one row's status, time and attempts after an attempt |
| `Webhooks.DeliveryTable.DeliverDue` | crates/safrod-webhooks/src/deliver.rs:50-61 | one round claims a batch and records each attempt in turn, leaving what the protocol's claim and recordings leave |
| `Webhooks.ClaimsAreALeaseApart` | crates/safrod-storage/src/webhooks.rs:74-116 | in every run with any number of workers, deaths and replays, two claims of one delivery with no retry record or replay between them are at least a lease apart |
| `Webhooks.WaitingIsDueAgain` | crates/safrod-storage/src/webhooks.rs:70-116 | in every run a pending delivery on an enabled endpoint is due, and can be claimed, once the longer of lease and maximum backoff has passed |
| `Webhooks.NewDeliveryIsDue` | crates/safrod-storage/src/events.rs:24-44 | a new delivery is due at once |
| `Webhooks.ReplayIsDueAtOnce` | crates/safrod-storage/src/webhooks.rs:186-200 | a replayed delivery waits again and is due at once, with its attempts kept |
| `Webhooks.DisabledIsNotClaimed` | crates/safrod-storage/src/webhooks.rs:53-101 | once its endpoint is disabled a delivery is in no claim |
| `Webhooks.FailedAttemptWaits` | crates/safrod-webhooks/src/deliver.rs:81-96 | a failed attempt short of the maximum is next due after the base delay doubled for each attempt before it, up to the maximum |
| `Webhooks.StatusTellsTheAttempts` | crates/safrod-storage/src/webhooks.rs:118-166 | in every run a delivery is `delivered` only if an attempt succeeded and given up only if one at or past the maximum failed; its status is what the last of these or a replay calls for, and its attempts are those recorded |
| `Webhooks.AttemptsAreBounded` | crates/safrod-webhooks/src/deliver.rs:50-96 | with one worker at a time, recorded attempts never exceed the maximum plus the replays |
| `Webhooks.TwoWorkersOverrun` | crates/safrod-webhooks/src/deliver.rs:81-96 | for every configuration, a run from the start in which two workers overrun that bound |
| `Webhooks.BackoffGrowsToTheMaximum` | crates/safrod-webhooks/src/deliver.rs:157-160 | the delay starts at the base, never shrinks with the attempt, never passes the maximum, and doubles until it reaches it |
| `Quote.ProductsFit` | crates/safrod-sandbox/src/lib.rs:99-103 | no intermediate product leaves 128 bits, for any 64-bit amount |
| `Quote.QuotedExactlyWhen` | crates/safrod-sandbox/src/lib.rs:88-116 | a quote is given if and only if the currencies differ, the amount is worth two target units before the fee, and the Bitcoin leg is within the supply |
| `Quote.QuoteFitsItsColumns` | crates/safrod-storage/src/sandbox.rs:33-51 | every field of a quote and the amount priced are positive where required and fit a signed 64-bit column |
| `Quote.QuoteIsStored` | crates/safrod-storage/src/sandbox.rs:33-51 | storage never refuses a priced quote |
| `Quote.TargetIsTheMostCovered` | crates/safrod-sandbox/src/lib.rs:99-101 | the target amount is the most units covered at the two rates after one percent, stated without division |
| `Quote.LegAndRateAreTheMostCovered` | crates/safrod-sandbox/src/lib.rs:102-103 | the Bitcoin leg and the rate are the largest integers their exact values cover |
| `Quote.PricesAre` | crates/safrod-sandbox/src/lib.rs:48-56 | the price of a dollar in each currency and of sixty dollars in bitcoin, and one quote in full |
| `Quote.SplittingNeverGains` | crates/safrod-sandbox/src/lib.rs:88-116 | however an amount is split, its quoted parts together yield at most one transfer's target |
| `Quote.RouteLosesTheFees` | crates/safrod-sandbox/src/lib.rs:88-116 | after n quotes the value left is at most (99/100)^n of the start, whatever the currencies |
| `Quote.RoundTripLoses` | crates/safrod-sandbox/src/lib.rs:88-116 | a chain of n quotes back to its currency returns at most (99/100)^n of the start, and less than the start |
| `Fingerprint.BytesDetermineTheRequest` | crates/safrod-api/src/engine.rs:62-72 | two accepted requests hash the same bytes if and only if they are the same invoice, amount and metadata |
| `Fingerprint.AcceptedAmountIsSmall` | crates/safrod-core/src/money.rs:8-12 | the supply bound keeps the top amount byte below 0x20 |
| `Fingerprint.DigestMatchesOnlyTheSameRequest` | crates/safrod-api/src/engine.rs:69-72 | with a digest that never collides, a reused key matches only its own request |
| `Fingerprint.BeginPaymentComparesDigests` | crates/safrod-storage/src/payments.rs:74-103 | with a digest that never collides, `begin_payment` refuses a used key exactly when the stored and the given digest differ, as the model's comparison of requests does |
| `Fingerprint.LargeAmountCollides` | crates/safrod-api/src/engine.rs:62-72 | above the supply bound two different requests share their bytes |
| `Signature.ReadParts` | crates/safrod-core/src/webhook.rs:43-56 | the loop keeps the last `t` and exactly the decodable `v1` values |
| `Signature.AnyMatches` | crates/safrod-core/src/webhook.rs:62-66 | true exactly when some candidate equals the expected MAC |
| `Text.SplitIsTheParts` | crates/safrod-core/src/webhook.rs:45-45 | splitting gives the one list of separator-free parts that joins back to the header |
| `Signature.TrimLeavesBare` | crates/safrod-core/src/webhook.rs:46-46 | trimming leaves what stands between white space, with none at its ends |
| `Signature.TrimFindsBare` | crates/safrod-core/src/webhook.rs:46-46 | white space around a part makes no difference |
| `Signature.ReadsExactlyWhen` | crates/safrod-core/src/webhook.rs:47-47 | a time is read if and only if the text is digits with an optional sign that spell it within 64 bits |
| `Signature.HexDigitsAre` | crates/safrod-core/src/webhook.rs:49-49 | a hex digit of either case stands for its place among the sixteen |
| `Signature.DecodesExactlyWhen` | crates/safrod-core/src/webhook.rs:48-52 | a candidate decodes if and only if it is pairs of hex digits, and to the bytes they spell |
| `Signature.Verify` | crates/safrod-core/src/webhook.rs:36-73 | malformed, mismatch, stale or accepted, decided by the last `t`, the candidates offered and the clock |
| `Signature.AcceptedExactlyWhen` | crates/safrod-core/src/webhook.rs:43-72 | accepted if and only if some decodable `v1` is the MAC under the last `t` and the clock check passes |
| `Signature.SignedHeaderIsJudged` | crates/safrod-core/src/webhook.rs:21-34 | the verdict on any header `sign` makes, over any body: only the MAC and the clock matter |
| `Signature.SignedIsAcceptedWhenFresh` | crates/safrod-core/src/webhook.rs:69-72 | `sign`'s header is accepted exactly within tolerance, if and only if the 64-bit difference does not wrap to something fresh |
| `Signature.WrappedClockIsAccepted` | crates/safrod-core/src/webhook.rs:69-71 | a clock and timestamp 2^63 seconds apart are accepted at tolerance 300 |
| `Signature.SignedTextDetermines` | crates/safrod-core/src/webhook.rs:28-34 | the signed text determines both timestamp and body |
| `Signature.ChangedBodyIsRejected` | crates/safrod-core/src/webhook.rs:59-68 | with a MAC that never collides, a header mismatches exactly the bodies it was not made for |
| `BtcAmount.ReadExactlyWhen` | crates/safrod-bitcoin/src/rpc.rs:246-264 | `btc_to_sats` returns n if and only if the text is digits with at most eight decimals standing for n satoshis within 64 bits |
| `BtcAmount.PrintedReadsBack` | crates/safrod-bitcoin/src/rpc.rs:244-264 | the eight-decimal printing of every 64-bit count reads back as that count |
| `BtcAmount.EqualValuesReadAlike` | crates/safrod-bitcoin/src/rpc.rs:246-264 | spellings of one decimal number are read alike, and of two numbers never |
| `Pagination.Wrap` | crates/safrod-api/src/json.rs:87-106 | truncates to the limit; `has_more` exactly when a row was cut off, and then the cursor is the last row kept |
| `Pagination.ListContinues` | crates/safrod-storage/src/invoices.rs:84-102 | the query after the k-th listed row gives exactly the rows that follow it |
| `Pagination.UnknownCursorListsNothing` | crates/safrod-storage/src/payments.rs:117-137 | a cursor naming no row of the project lists nothing |
| `Pagination.ListPage` | crates/safrod-api/src/routes/lightning.rs:187-198 | one request extends what was read by the next rows and says whether any are left |
| `Pagination.FollowCursors` | crates/safrod-api/src/json.rs:73-106 | for every limit a query may give: refused outside 1 to 100, and otherwise following `next_cursor` terminates and the pages together are the project's rows in order |
| `Pagination.WalkReadsEachOnce` | crates/safrod-storage/src/payments.rs:117-137 | that order is descending (created_at, id), and holds each row of the project once and no other |

## Left out

- SQL text, the connection pool and migrations: only transaction atomicity, the unique keys and the column ranges are modelled.
- LDK Node, Core Lightning and Bitcoin Core RPC, BOLT11 decoding: environments whose answers are parameters or steps.
- SHA-256, HMAC and ECDSA: any function, with collision freedom or unforgeability assumed only where a lemma says so.
- Routing, authentication, JSON rendering, error mapping and configuration: single-branch plumbing.
- The URL guard, DNS resolution, the dashboard, the flow builder and the merchant example: no run-level property.
- Row order ties: tables are in creation order, so two payments with the same `created_at` are ordered by insertion; pagination does model ties, with ids ranked by the database's text order.
- Sums beyond a signed 64-bit total in `project_totals`: totals are unbounded sums.
- Payout attachment: the payment may be attached at any step after the leg's row exists, which allows more orders than the handler does.
- The leg's sending steps belong to the payment engine, so the payout handler's wait for them is not modelled.
- `begin_settlement_from_quote`: verification of the quote's signature; the terms of a record are arbitrary.
- `receive_attestation` on the destination and `cancel_reservation`: neither changes what the source pays.
- `prepare_destination`, `mark_payout_unknown`, `reconcile_unknown_payout`, `refund_settlement` and `record_payout_attestation` are steps of `SettlementProtocol` and have no method of their own in `SettlementNode`.
- Liveness of the settlement protocol: the code does not promise it, since a rejected payout returns no attestation.
- Deliveries by several workers staying delivered, and list endpoints that ignore `starting_after`: the code does not provide these.
- Confirmation counts of 2^31 and more, which the signed 32-bit column wraps: `WatcherScan.CompletedScanShowsTheChain` is for chains below that height.
- Reversal of a deposit after a chain reorganisation: not implemented in the watcher.
- `Webhooks.AttemptsAreBounded`: for one worker at a time; with several it is false for every maximum, as `Webhooks.TwoWorkersOverrun` shows.
- `NodeEvents.LateRedeliveryChangesNothing`: of an outcome for which a payment row existed when it was taken; an event about a payment not yet known is taken without effect and may have one later.
- `Signature.Verify`: the header is a sequence of characters, not of UTF-8 bytes, and the comparison's running time is not modelled.
