# Accounts service: verified protocols and decision engines

The accounts service sells proxy subscriptions, refunds them, meters quota, and
decides which users may use which nodes. This project models the parts of it whose
correctness is about whole runs or whole lists, and proves what they keep. It is
written in Dafny 4.11; `dafny verify dfyconfig.toml` covers every file.

| file | what it models |
|---|---|
| `Text.dfy`, `Finance.dfy`, `Calendar.dfy` | trimming, case, string order; ledger rows; UTC months |
| `RefundExecutor.dfy`, `RefundProtocol.dfy`, `RefundService.dfy` | the crash-tolerant refund executor: provider query, step machine, executing methods |
| `RefundLedger.dfy`, `RefundSettlement.dfy` | the append-only ledger and the settlement fold |
| `PurchaseProtocol.dfy`, `PurchaseService.dfy` | reserving, submitting, retrying and releasing a subscription purchase |
| `Webhooks.dfy`, `RefundedAccess.dfy`, `WebhookStore.dfy` | webhook handlers and what they do to a refunded subscription |
| `WebhookRules.dfy`, `RefundRevocation.dfy` | what each handler does, and when a refund takes paid access away, read off the stored rows |
| `WebhookHandlers.dfy`, `WebhookRaces.dfy` | the same handlers step by step, and refunds recorded between their steps |
| `TeamHandoff.dfy` | moving a node from one team to another |
| `NodeScope.dfy`, `NodeAccess.dfy`, `RegionalPools.dfy` | node scopes, authorization against discovery, pool aggregation |
| `NodePools.dfy`, `PoolListing.dfy` | who may use which node, and what a pool listing says, in terms of accounts and reports |
| `AccessLapse.dfy`, `Sweep.dfy` | when paid access lapses, and the sweep that applies it |
| `Entitlements.dfy`, `AnnualQuota.dfy`, `AnnualRule.dfy` | the downgrade to Free, monthly grants of annual plans, and the rule for them |
| `Overlay.dfy`, `OverlayRule.dfy`, `OverlayHosts.dfy`, `OverlayRaces.dfy` | overlay addresses: assignment and the rule for it, hosts behind masks, interleaved registrations |
| `Lockout.dfy`, `LockoutRaces.dfy`, `FirstInvoice.dfy` | verification-code lockout, guesses in flight together, the first paid invoice |

## How to read it

Each protocol has a state, a datatype of steps and a total function `Apply`; a step
that is not enabled changes nothing. `Run` applies a sequence of steps, and the main
theorems hold for every sequence of them. In the refund, purchase and team handoff
protocols a request is split at its store and provider calls, so a sequence covers
interleaved handlers, crashes between any two calls, and lost or repeated messages.
Webhook events, overlay registrations and verification requests are one step each in
their first model and are split the same way in `WebhookRaces`, `OverlayRaces` and
`LockoutRaces`. Ledger operations and sweeps are one step each. Loops of the source are
methods with loops, and stored objects are classes; each is proved equal to a
specification function or to a declarative rule, and the theorems are about those.
Lemmas named `...Exactly` say what a decision means in terms of the stored fields and the
answers it reads, without the functions it is computed with.

Several laws one would expect do not hold of the code as it stands. Each of these has
a concrete run or input that breaks it and the exact condition under which it holds:

- A purchase retried while the request that reserved it is still rechecking the local
  subscription, before anything was submitted, can leave two open purchases
  (`PurchaseProtocol.RetryRacesRelease`); accepting a retry is safe exactly when no such
  recheck is under way (`PurchaseProtocol.RetryIsSafeExactlyWhenItWaits`).
- A refunded row is reopened by a deletion event whose latest invoice is not the refunded
  one, and by a padded owner id (`RefundedAccess.DeletionWithOtherInvoiceReopens`,
  `RefundedAccess.PaddedOwnerReopens`); exact conditions for every kind of event in
  `RefundedAccess.HandleReopensExactly` and `RefundedAccess.HandleAppliesExactly`.
- A handler that looked at the refund guard before the refund was recorded can still undo
  it. The plan can be applied again exactly when a handler is past its second look
  (`WebhookRaces.PaysAgainExactly`), and the row can end up open exactly when a handler
  past its first look has yet to store it (`WebhookRaces.EndsOpenExactly`), without
  failures exactly when that handler does not look again
  (`WebhookRaces.EndsOpenUnfailingExactly`); a run in
  `WebhookRaces.DeletionOvertakesRefund`.
- An annual plan's month is granted twice when a later sweep, or a failed payment before
  it, cannot read the quota (`AnnualQuota.BlindSweepGrantsTwice`,
  `AnnualQuota.BlindFailureGrantsTwice`); exact condition in
  `AnnualQuota.AtMostOneGrantPerMonthExactly`.
- A node that already serves clients when it enrolls keeps them through its first
  approval (`TeamHandoff.SafeExactlyWhenEmptyAtEnrollment`).
- For custom nodes, discovery ignores the 256-address cap and reads the node id
  untrimmed; the two decisions agree exactly on `Coherent` nodes
  (`NodeAccess.AgreementIsExact`).
- The downgrade leaves a settled Free row alone even if it was credited above the
  allowance (`Entitlements.CreditedRowIsLeftAlone`), and a padded quota group survives
  it (`Entitlements.PaddedGroupSurvives`); exact conditions in
  `Entitlements.UsageIsConserved`, `Entitlements.NeverMoreThanFree` and
  `Entitlements.OneQuotaGroup`.
- A lapse is permanent exactly when no manual grant is waiting to start
  (`AccessLapse.LapseIsPermanentExactlyWithoutFutureStart`).
- A device keeps its overlay address on re-registration exactly when the account id is
  trimmed (`Overlay.ReRegistrationKeepsAddress`).
- Overlay addresses are unique as strings, not as hosts: two requests for one host under
  different masks both succeed (`OverlayHosts.SameHostUnderTwoMasks`). Hosts stay unique
  when every request names no address or a host followed by `/32`, with no blank between
  them (`OverlayHosts.HostsStayUnique`), and any other accepted request can be followed by
  a duplicate (`OverlayHosts.OtherMaskBreaks`).
- A registration lists and then writes. A store without the unique index lets two
  registrations take one address (`OverlayRaces.RegistrationsRace`); none is shared as
  long as nobody writes to the network in between
  (`OverlayRaces.SerialRegistrationsKeepUnique`), and such a write can clash
  (`OverlayRaces.WriteInBetweenClashes`).

## Model

| member | source | states |
|---|---|---|
| RefundExecutor.FindOperationRefund | api/billing_refund_operations.go:112-146 | a bound id is looked up directly; otherwise "none" is reported exactly for a complete, empty paged history, and a refund exactly for a complete history holding only that one, with the operation key |
| RefundExecutor.OneCompletion | api/billing_refund_operations.go:121-146 | a paged history ends on one page only, so the query has one answer |
| RefundExecutor.BadHistory | api/billing_refund_operations.go:121-146 | a foreign refund or a second one on any page spoils every completion |
| RefundExecutor.IntentHoldsExactly | api/billing_refund_operations.go:80-110 | the pinned intent loads exactly when a local payment, its invoice and a subscription row carry its amount, currency, account, subscription and key |
| RefundExecutor.ValidatesExactly | api/billing_refund_operations.go:68-78 | a refund passes validation if and only if its amount, payment intent, folded currency and operation key are the pinned ones, it is a dated `re_` refund, no other is bound, and local rows back the intent |
| RefundProtocol.StepKeepsInv | api/billing_refund_operations.go:148-232 | every step, including crashes, lost responses and stale attempts, keeps the invariant of record, handlers, posts and ledger fact |
| RefundProtocol.AtMostOnePost | api/billing_refund_operations.go:148-232 | in every run at most one refund POST is sent per operation |
| RefundProtocol.BoundReferenceWasValidated | api/billing_refund_operations.go:68-110 | in every run a bound id belongs to an accepted refund with the pinned amount, payment intent, currency and key, checked against a local payment, invoice and subscription that carry the same amount, account and subscription |
| RefundProtocol.ValidationAcceptsExactly | api/billing_refund_operations.go:68-78 | in any state, validation accepts a refund exactly when it agrees with the pinned intent in all of these, no other id is bound and local rows back the intent; otherwise the attempt fails |
| RefundProtocol.RecordingBindsExactly | api/stripe_finance.go:66-120 | a reported refund is bound and recorded exactly under the same agreement, for an operation that has not failed and a fact that does not differ |
| RefundProtocol.SuccessIsComplete | api/billing_refund_operations.go:203-232 | in every run "succeeded" implies the ledger fact under the bound reference, remote cancellation and local revocation |
| RefundProtocol.ReferenceIsWriteOnce | internal/store/finance_memory.go:478-537 | from any state, no run rewrites a bound reference, lowers the attempt counter or reopens success |
| RefundProtocol.DoubtOnlyQueries | api/billing_refund_operations.go:157-192 | once the outcome is in doubt no continuation ever posts |
| RefundProtocol.CrashWithoutMarkerNeverPosts | api/billing_refund_operations.go:157-192 | a first attempt that dies anywhere before it saves its marker or outcome, after any other steps, further claims included, is never followed by a POST |
| RefundProtocol.SavedFailureMayPostLater | api/billing_refund_operations.go:157-200 | the partner of the above: a failure saved before the provider call is retried and the second attempt posts |
| RefundProtocol.ClaimKeeps | internal/store/finance_memory.go:378-476 | claiming (new record, or one that is retryable or expired) keeps the invariant and hands out a fresh attempt number |
| RefundProtocol.CheckpointKeeps | internal/store/finance_memory.go:478-490 | the fenced checkpoint keeps the invariant whether it commits, is refused or its acknowledgement is lost |
| RefundProtocol.FinishKeeps | internal/store/finance_memory.go:491-537 | the fenced finish keeps the invariant, committed or not |
| RefundProtocol.ClaimExactly | internal/store/finance_memory.go:378-476 | who may claim, after how long, with which attempt number and in which doubt |
| RefundProtocol.FinishExactly | internal/store/finance_memory.go:491-537 | when the end of an attempt is written, and the record it leaves |
| RefundProtocol.CheckpointExactly | internal/store/finance_memory.go:478-490 | when the marker is saved, and that only an acknowledged save leads to the POST |
| RefundService.Executor.RunSubscriptionRefund | api/billing_refund_operations.go:148-232 | one whole execution is a run of the protocol, keeps its invariant, and reports success only when the refund is complete |
| RefundService.Executor.Begin | internal/store/finance_memory.go:378-476 | the claim equals the protocol's claim step |
| RefundService.Executor.QueryProvider | api/billing_refund_operations.go:185-193 | the outcome is the answer of the paged search, and the branch equals the protocol's query step on it |
| RefundService.Executor.SaveCheckpoint | api/billing_refund_operations.go:193-196 | equals the protocol's checkpoint step |
| RefundService.Executor.PostRefund | api/billing_refund_operations.go:197-200 | equals the protocol's post step |
| RefundService.Executor.ValidateReference | api/billing_refund_operations.go:68-78 | equals the protocol's validation step |
| RefundService.Executor.RecordRefund | api/stripe_finance.go:66-182 | the fact and the reference are bound together, equal to the protocol's record step |
| RefundService.Executor.FinishAttempt | internal/store/finance_memory.go:491-537 | equals the protocol's finish step |
| RefundLedger.RunKeepsInv | internal/store/finance_memory.go:87-537 | every ledger operation keeps ids distinct, rows linked and every payment covered |
| RefundLedger.RefundsNeverExceedPayments | internal/store/finance_memory.go:277-358 | in every run settled refunds plus live reservations stay between zero and the payment |
| RefundLedger.RunOnlyAppends | internal/store/finance_memory.go:87-358 | in every run invoices, payments and refunds are only appended |
| RefundLedger.FullRefundIsFinal | internal/store/finance_memory.go:277-358 | a fully refunded payment stays fully refunded in every continuation |
| RefundLedger.RefundBalances | internal/store/finance_memory.go:312-332 | the guard of a new refund keeps every payment covered, seen from any payment |
| RefundLedger.RestartBalances | internal/store/finance_memory.go:404-476 | restarting a failed refund operation re-reserves its amount without exceeding the payment |
| RefundLedger.CommittedTotal | internal/store/finance_memory.go:316-329 | the two summation loops equal refunded plus reserved |
| RefundLedger.LedgerStore.RecordRefund | internal/store/finance_memory.go:277-358 | the stored ledger becomes what the specification gives, with the same outcome |
| RefundSettlement.RunningTotal | api/billing_refund_review.go:280-289 | the guarded loop equals the guarded fold, errors included |
| RefundSettlement.FoldIsPlainSum | api/stripe_finance.go:144-169 | the guarded fold succeeds exactly when refunds are sound and fit the payment, and then equals the plain sum the webhook paths use |
| RefundSettlement.RunningTotalsStayInRange | api/billing_refund_review.go:280-289 | every running total lies between zero and the payment |
| RefundSettlement.JudgePayment | api/billing_refund_review.go:265-291 | which payments are skipped, contradictory or summed |
| RefundSettlement.RefundReviewSettlement | api/billing_refund_review.go:254-294 | fails exactly on a contradictory payment; settled exactly when there is a positive payment and every one is fully refunded; partial exactly when some refund exists |
| RefundSettlement.SettlementIgnoresOrder | api/billing_refund_review.go:254-294 | failure, settled and partial do not depend on the order of payments or refunds |
| RefundSettlement.ReachableLedgersSettle | api/billing_refund_review.go:254-294 | on every reachable ledger the fold never fails and agrees with the webhook sums |
| RefundSettlement.ContradictionExactly | api/billing_refund_review.go:265-291 | a payment contradicts its refunds exactly when it has no stored invoice, or a refund in another currency or of no positive amount, or more refunded than paid |
| PurchaseProtocol.StepKeepsInv | api/stripe_subscription_purchase.go:262-514 | every step with clean releases keeps the invariant of operations, gate, network and provider |
| PurchaseProtocol.WaitingRunsHaveOneUnsettledPurchase | api/stripe_subscription_purchase.go:262-514 | in every run in which no retry is accepted while that purchase is being rechecked, at most one provider purchase of the account is unsettled |
| PurchaseProtocol.ReservationNeedsSettledPast | internal/store/subscription_lifecycle.go:104-153 | where retries wait, a new reservation implies every earlier purchase is expired, paid and projected, or never sent and never will be |
| PurchaseProtocol.RetryIsSafeExactlyWhenItWaits | api/stripe_subscription_purchase.go:306-403 | at any point of such a run, an accepted retry can be continued to two open purchases if and only if it arrives during a recheck |
| PurchaseProtocol.RushedRetryBreaks | api/stripe_subscription_purchase.go:306-403 | every retry accepted during a recheck has a continuation, itself without such retries, to two open purchases |
| PurchaseProtocol.DirtyReleaseBreaks | api/stripe_subscription_purchase.go:341-403 | any release that is not clean can be continued to two open purchases |
| PurchaseProtocol.RetryRacesRelease | api/stripe_subscription_purchase.go:306-403 | a concrete run with two open purchases |
| PurchaseProtocol.RetryExactly | api/stripe_subscription_purchase.go:300-340 | a retry is accepted exactly for an open operation without a reference, less than twenty minutes old |
| PurchaseProtocol.SaveExactly | internal/store/subscription_purchase.go:35-73 | a reference is stored exactly on an open operation that has none or the same |
| PurchaseProtocol.ObserveExactly | api/stripe_subscription_purchase.go:407-514 | a reconciliation confirms exactly an expired purchase, or a paid one whose projection is in place |
| PurchaseProtocol.ConfirmExactly | internal/store/subscription_lifecycle.go:223-279 | confirming closes the operation as paid or expired and frees the gate exactly while it is open and holds the gate |
| PurchaseProtocol.ExpiredPurchaseIsReleased | api/stripe_subscription_purchase.go:407-514 | an open purchase with a stored reference that expires is released by one reconciliation, and the account may buy again |
| PurchaseProtocol.PaidPurchaseIsReleased | api/stripe_subscription_purchase.go:407-514 | so is a paid one once its projection is in place |
| PurchaseService.CurrentPurchaseSubscription | api/stripe_subscription_purchase.go:85-109 | none, one or a conflict, exactly by the list of unended rows |
| PurchaseService.UnendedIsEmptyExactly | api/stripe_subscription_purchase.go:85-109 | no row is in the way exactly when each is no subscription, Free or in an ended status |
| PurchaseService.ReconcileDecision | api/stripe_subscription_purchase.go:407-514 | over the raw answers: an upgrade is released as paid exactly for a paid invoice, the quoted price, no pending update and the projection in place, as expired exactly for a void one and the old price; a checkout by its session and the active subscription on the quoted price; errs exactly on a foreign quote, a failed call or a foreign answer |
| PurchaseService.PurchaseStore.Reserve | internal/store/subscription_lifecycle.go:104-153 | reserves exactly when the gate is free and nothing is pending, as the protocol's step |
| PurchaseService.PurchaseStore.SaveReference | internal/store/subscription_purchase.go:35-73 | the provider reference is write-once on a pending operation |
| PurchaseService.PurchaseStore.Finish | internal/store/subscription_lifecycle.go:223-279 | finishes exactly when the protocol allows it, and frees the gate |
| Webhooks.EvaluateGuard | api/stripe_finance.go:291-334 | the loop answers exactly whether the latest invoice has positive payments of the owner, all fully refunded |
| Webhooks.PlainTotal | api/stripe_finance.go:144-169 | the plain sum of a payment's refunds |
| Webhooks.StepKeepsSeal | api/stripe_finance.go:291-334 | no ledger operation undoes the full refund of an invoice |
| Webhooks.RecordPaidKeepsSeal | api/stripe.go:1367-1445 | recording a paid invoice and its payment, completely or in part, keeps the refunded invoice refunded |
| RefundedAccess.EventStaysQuiet | api/stripe.go:1073-1362 | one event leaves a refunded subscription's status, plan and quota effects unchanged |
| RefundedAccess.RefundedStaysRefunded | api/stripe.go:1073-1362 | for every sequence of events with any order and replays, the refunded row keeps its status and neither plan nor quota is applied |
| RefundedAccess.GuardedEventRefundsRow | api/stripe.go:1146-1345 | whatever the row said, an event of any kind whose source passes the guard, for a paid invoice also after recording it, leaves the row refunded and applies nothing |
| RefundedAccess.SealedEventRefundsRow | api/stripe.go:1146-1345 | while the invoice is fully refunded in the ledger, every event that carries it marks the row refunded, paid-invoice events included |
| RefundedAccess.RevokeStatus | api/entitlements.go:346-397 | revocation marks the named row, no other, and applies no plan |
| RefundedAccess.UpsertReopensExactly | api/stripe.go:1957-1989 | a refunded row is rewritten if and only if the guard does not see the refund and the object is not an unpaid active one |
| RefundedAccess.SyncAppliesExactly | api/stripe.go:1861-1955 | a plan is applied if and only if the guard does not see a refund, the object is active, paid and resolvable, and the store takes the quota change |
| RefundedAccess.FailedUpsertStopsEvent | api/stripe.go:1970-1990 | an upsert that cannot fetch the invoice, or finds one of another phase, ends the event with nothing changed |
| RefundedAccess.OtherPhaseGrantsNothing | api/stripe.go:1261-1268 | a paid latest invoice that does not match the scheduled phase changes nothing |
| RefundedAccess.RecordingExactly | api/stripe.go:1367-1445 | in terms of the account before the upsert, when a paid invoice is recorded without an error and the ledger it leaves; an out-of-band one leaves no facts |
| RefundedAccess.PaidInvoiceAppliesExactly | api/stripe.go:1248-1345 | a paid invoice applies plan and quota if and only if the upsert before it does not fail, it is recorded or leaves no facts, the ledger then shows no full refund, no update is pending, it is the latest invoice, the plan resolves and the store takes the quota change |
| RefundedAccess.HandleAppliesExactly | api/stripe.go:1073-1362 | for every event a plan or quota effect of a subscription appears if and only if the stated condition on event and ledger holds |
| RefundedAccess.HandleReopensExactly | api/stripe.go:1073-1362 | for every event a refunded row moves on if and only if the stated condition on event and ledger holds |
| RefundedAccess.DeletionWithOtherInvoiceReopens | api/stripe.go:1146-1247 | a deletion event with any latest invoice other than the refunded one, such as a later proration, moves a refunded row |
| RefundedAccess.PaddedOwnerReopens | api/stripe.go:1861-1955 | an owner id with a leading blank passes the guard and the plan is applied again |
| RefundRevocation.RevokeDropsExactly | api/entitlements.go:346-397 | revoking a known subscription drops the account to Free, with one downgrade logged, if and only if no grant is active and no other Stripe row runs, is in the 14 days of grace or past due within them; otherwise plan, quota and arrears stay |
| RefundRevocation.ChargeDropsExactly | api/stripe.go:1176-1217 | the same for a fully refunded charge not in the ledger yet, whose row is stored and marked |
| RefundRevocation.SeenChargeDropsExactly | api/stripe.go:1176-1217 | and for one already in the ledger: the account ends up Free exactly when it pays for nothing else |
| RefundRevocation.ReportDropsExactly | api/stripe_finance.go:134-173 | a reported refund that settles the subscription of a row drops the account exactly when it pays for nothing else; one that settles none only enters the ledger |
| WebhookRules.GuardExactly | api/stripe_finance.go:291-334 | the guard holds exactly when the named owner has positive Stripe payments for the latest invoice and each was refunded in full |
| WebhookRules.UpsertExactly | api/stripe.go:1957-2042 | the row is stored exactly of an own object that is not refunded and, if active, has its paid invoice as proof |
| WebhookRules.UpsertFailsExactly | api/stripe.go:1970-1990 | the upsert fails exactly when the invoice of an own active object cannot be fetched or is paid for another phase |
| WebhookRules.StatusExactly | api/stripe.go:1991-2040 | the stored status: Stripe's cancellation becomes ours, an object ending with its period is canceling, a blank one active |
| WebhookRules.SyncExactly | api/stripe.go:1861-1955 | which objects have their plan applied, with which logged effects, when arrears end and which trials give way, over the raw fields |
| WebhookRules.SettleExactly | api/stripe.go:1298-1350 | the same for a recorded paid invoice |
| WebhookRules.RecordPaidExactly | api/stripe.go:1367-1445 | recording needs a time of payment, the subscription's own invoice and a local Stripe row; a blank or out-of-band invoice is skipped |
| WebhookRules.MissedExactly | api/stripe.go:1268-1281 | a failed payment starts arrears exactly for the owner without a running episode |
| WebhookRules.DeletedExactly | api/stripe.go:1146-1168 | a deletion drops its owner to Free exactly when access has lapsed |
| WebhookStore.AccountStore.RevokeRefundedSubscription | api/entitlements.go:346-397 | the stored account becomes what the revocation function gives |
| WebhookStore.AccountStore.AccessKept | api/entitlements.go:377-395 | the loop answers exactly whether another subscription keeps paid access |
| WebhookStore.AccountStore.UpsertStripeSubscription | api/stripe.go:1957-1989 | the stored account becomes what the upsert function gives, and an error is returned exactly in its two failing cases |
| WebhookStore.AccountStore.SyncSubscriptionEntitlements | api/stripe.go:1861-1955 | the stored account becomes what the sync function gives |
| WebhookStore.AccountStore.RecordStripePaidInvoice | api/stripe.go:1367-1445 | the row search and the two writes leave the ledger and the error the recording function gives |
| WebhookStore.AccountStore.HandlePaidInvoice | api/stripe.go:1248-1345 | the stored account becomes what the event function gives for a paid invoice |
| WebhookHandlers.SoloIsHandle | api/stripe.go:1073-1362 | the steps of a handler, run without interruption, do what the event does as one step, for every kind of event with a subscription |
| WebhookRaces.SoloReport | api/stripe_finance.go:66-173 | the same for a reported refund |
| WebhookRaces.PaysAgainExactly | api/stripe.go:1861-1955 | with the invoice refunded in the ledger and any handlers in flight, some continuation applies its plan or grants its quota if and only if a handler is past its second look at the guard |
| WebhookRaces.EndsOpenExactly | api/stripe.go:1957-2040 | with the row shut as well, some continuation ends with nobody in flight and the row open if and only if a handler past its first look has yet to store it |
| WebhookRaces.EndsOpenUnfailingExactly | api/stripe.go:1146-1345 | without crashes and failing calls, if and only if such a handler does not come to a second look: a deletion, a failed payment, or a paid invoice that may be refused |
| WebhookRaces.DeletionOvertakesRefund | api/stripe.go:1146-1168 | for every deletion and every refund that settles the subscription, a run in which the row is marked refunded and then left open |
| WebhookRaces.SampleIsOvertaken | api/stripe.go:1146-1168 | one such run in full, for a deletion that carries the refunded invoice itself |
| TeamHandoff.RunKeepsInv | api/team_agent_enrollments.go:207-355 | decisions checked and saved in two steps, fetches, installs, and reports delayed or repeated keep the handoff invariant |
| TeamHandoff.HandoffIsSafe | api/team_agent_enrollments.go:207-318 | in every run an approved node serves nobody or the approved team, if it enrolled empty |
| TeamHandoff.DiscoveryShowsOnlyCurrentApproval | api/team_agent_enrollments.go:320-355 | in every run a node counts as ready only when it runs the member list of the current approval |
| TeamHandoff.SafeExactlyWhenEmptyAtEnrollment | api/team_agent_enrollments.go:260-298 | all runs are safe if and only if the node serves nobody at enrollment |
| TeamHandoff.ServingNodeIsUnsafe | api/team_agent_enrollments.go:260-298 | a concrete run for every node that serves anyone at enrollment |
| TeamHandoff.DecisionExactly | api/team_agent_enrollments.go:231-298 | a decision passes exactly on the current version, as a withdrawal, or as an approval for a known team of a node that is that team's, nobody's, or reported empty since its withdrawal |
| TeamHandoff.SavingExactly | internal/store/team_agent_enrollments.go:53-70 | it is saved exactly while its row is unchanged; the version grows and a withdrawal keeps the team on record |
| TeamHandoff.TakeoverNeedsEmptyReport | api/team_agent_enrollments.go:260-298 | in every run an approval after a withdrawal rests on a report, sent by the node, of the empty list of that very withdrawal |
| TeamHandoff.NodeCatchesUp | api/team_agent_enrollments.go:207-355 | from every state five steps lead an approved node to its team's members and readiness, and a withdrawn one to nobody and a clearing report |
| TeamHandoff.ReadyExactly | api/team_agent_enrollments.go:29-38 | ready exactly when the last report runs the member list of this approval, healthy and synced after it |
| TeamHandoff.OverlayDecisions | api/team_agent_enrollments.go:320-355 | rewrites every snapshot in place by the persisted decision |
| TeamHandoff.OverlayOpensOnlyReadyNodes | api/team_agent_enrollments.go:29-38 | a managed node that stays open or carries a team reported the revision of its current approval |
| TeamHandoff.OverlayExactly | api/team_agent_enrollments.go:320-355 | the groups and openness discovery sees, for ready, unready, claimed and unmanaged nodes |
| TeamHandoff.EnrollmentStore.Check | api/team_agent_enrollments.go:231-298 | lets a decision through exactly when version, team, old assignment and clearing report allow it |
| TeamHandoff.EnrollmentStore.Save | internal/store/team_agent_enrollments.go:53-70 | saves exactly when the version is unchanged, and the version strictly grows |
| TeamHandoff.EnrollmentStore.Register | internal/store/team_agent_enrollments.go:30-42 | a heartbeat creates a pending row or changes nothing |
| NodeScope.AgentNetworkScope | api/network_access.go:162-187 | valid exactly by the declarative rule on the set of markers, with the one team it names |
| NodeScope.ResourceMarker | api/network_access.go:51-64 | accepts exactly one known class, and none beside a team |
| NodeScope.AgentResourceScope | api/network_access.go:30-72 | the parsed scope is the one the declarative rule grants, or a refusal |
| NodeScope.ScopeIsUnique | api/network_access.go:30-72 | the rule determines class, team and flag |
| NodeScope.ScopeIgnoresOrderAndRepetition | api/network_access.go:30-72 | reordering or repeating groups changes nothing |
| NodeScope.ScopeDependsOnMarkers | api/network_access.go:30-72 | class, team and validity depend only on the set of trimmed groups, and the whole scope exactly on the free-access flag besides |
| NodeScope.TeamOrPool | api/network_access.go:30-72 | a granted scope is a team or a known pool, never both, and dedicated-only implies a team |
| NodeScope.ScopeExactly | api/network_access.go:30-72 | a credential has a public scope exactly when no group speaks of teams in any spelling and all pool markers agree, a team's exactly for its well-formed marker alone |
| NodeScope.RefusedExactly | api/network_access.go:30-72 | it is refused exactly when it has no scope |
| NodeAccess.MonthlyQuotaGroup | internal/store/store.go:61-74 | the first recognised group wins; blank exactly when there is none |
| NodeAccess.AgentEmailAllowed | api/agent_routes.go:160-173 | allowed exactly by an empty list or a non-blank entry equal up to case and white space |
| NodeAccess.PublicAndTeamAgree | api/agent_routes.go:98-107 | on shared, free, plus, pro and team nodes the two decisions agree for every account |
| NodeAccess.CustomGates | api/agent_server.go:220-348 | the custom and temporary-free gates of both sides, side by side |
| NodeAccess.AgreementIsExact | api/agent_routes.go:59-107 | discovery and authorization agree for every account and time if and only if a custom node is coherent |
| NodeAccess.IncoherentDisagrees | api/agent_server.go:232-262 | for every incoherent node an account on which they differ |
| NodeAccess.AuthorizedAgentClients | api/agent_server.go:87-218 | the loop lists exactly the accounts that pass the base gates, in order |
| NodeAccess.BaseClient | api/agent_server.go:143-206 | one account is listed exactly when it passes the scope, class and standing gates |
| NodeAccess.NarrowClients | api/agent_server.go:236-243 | keeps exactly the listed addresses and collects their ids |
| NodeAccess.CustomTempFreeClients | api/agent_server.go:263-348 | lists exactly the grant holders not already on the static list |
| NodeAccess.AuthorizedForIdentity | api/agent_server.go:220-261 | errors exactly on a refused scope or an unacceptable list, else returns the combined list |
| NodeAccess.ListedWithoutExpiry | api/agent_server.go:220-261 | an entry without expiry exactly for accounts admitted by class and address |
| NodeAccess.ListedWithExpiry | api/agent_server.go:263-348 | an entry with the grant's expiry exactly for grant holders whose id no resident has |
| NodeAccess.ListedIffDiscovered | api/agent_routes.go:59-107 | end to end: on a coherent node a verified account in good standing is in the client list exactly when the pool listing shows it the node |
| NodePools.AuthorizedExactly | api/agent_server.go:87-348 | by the account's groups, package, team and grants: who is authorized for a team, custom or public node |
| NodePools.DiscoveredExactly | api/agent_routes.go:59-107 | the same for discovery, with its own reading of list and node id |
| NodePools.PublicPoolsNest | api/network_access.go:74-103 | for personal accounts the pools nest strictly: all into shared and free, exactly a paid quota group into plus, and exactly those with package pro into pro |
| NodePools.ListedExactly | api/agent_server.go:87-348 | the node's list has exactly the accounts in use it admits for good, and those it admits by grant until the grant expires |
| RegionalPools.KeyIsExact | api/agent_routes.go:108-109 | the joined key separates exactly by region, entry, class and team |
| RegionalPools.Keep | api/agent_routes.go:72-107 | the chain of skips keeps exactly the eligible reports |
| RegionalPools.GroupForUser | api/agent_routes.go:70-137 | the map is a partition of the eligible reports, with open, ids, reasons and name as declared |
| RegionalPools.GroupRegistered | api/regional_pools.go:122-168 | the same for the unfiltered inventory |
| RegionalPools.Finish | api/agent_routes.go:138-149 | counts distinct ids; an open pool has no reason, a closed one exactly its members' reasons, in the fixed order |
| RegionalPools.ClosedPoolsHaveAReason | api/agent_routes.go:138-149 | a closed pool always has a reason |
| RegionalPools.OrderOnlyNamesPools | api/agent_routes.go:70-157 | permuting the kept reports changes nothing but display names |
| RegionalPools.RowsFollowSnapshots | api/agent_routes.go:70-107 | permuted snapshots give permuted kept reports, for one account and for the inventory |
| RegionalPools.SnapshotOrderOnlyNamesPools | api/agent_routes.go:70-149 | permuting the snapshots changes neither which pools an account is shown nor anything but the name of a finished pool |
| RegionalPools.SnapshotOrderOnlyNamesInventory | api/regional_pools.go:122-187 | the same for the unfiltered inventory |
| RegionalPools.ParsedClassIsClean | api/regional_pools.go:196-201 | classes and teams never contain the key separator |
| PoolListing.PoolsExactly | api/agent_routes.go:70-137 | there is a pool for a region, host, class and team exactly when some report is shown there, for an account and for the inventory |
| PoolListing.FinishedExactly | api/agent_routes.go:108-149 | a pool is open exactly when some report there is enabled, healthy, running and at most five minutes old; it counts distinct members and, closed, shows exactly the reasons of its reports in order |
| AccessLapse.ExpiresAt | api/subscription_validity.go:42-50 | the first midnight after the end date |
| AccessLapse.Examine | api/subscription_validity.go:169-228 | one subscription protects, gives a reason, says nothing or errs, exactly by the rule |
| AccessLapse.Scan | api/subscription_validity.go:169-228 | the early-returning loop equals the fold over the list |
| AccessLapse.Reconcile | api/subscription_validity.go:150-235 | downgrades exactly when nothing protects, no manual grant is active, every period is readable and a reason exists; errs exactly on an unreadable period no protector precedes |
| AccessLapse.LapseIgnoresOrder | api/subscription_validity.go:150-235 | the downgrade decision is the same for every permutation |
| AccessLapse.LapseIsPermanentExactlyWithoutFutureStart | api/subscription_validity.go:53-63 | a lapse holds at every later time if and only if no manual grant is waiting to start |
| AccessLapse.WaitingGrantRestoresAccess | api/subscription_validity.go:53-63 | facts under which a lapse is undone by time alone |
| AccessLapse.LapsedExactly | api/subscription_validity.go:150-235 | over the raw fields: an account drops to Free exactly when every Stripe subscription has a readable period and gives no more access by its status, today is in no manual grant, and there is a reason |
| AccessLapse.FailsExactly | api/subscription_validity.go:169-228 | it fails exactly on an unreadable period with no subscription before it that gives access |
| Sweep.ListUsersPage | internal/store/store.go:1981-2003 | the page is the stretch of ids after the cursor, and an error exactly for a limit outside 1 to 500 |
| Sweep.ReconcileBatch | api/subscription_validity.go:83-115 | visits exactly the next users and returns the next cursor; on an error the cursor stands just before the first user not reconciled |
| Sweep.SweepCoversEveryone | api/subscription_validity.go:83-115 | calls from the empty cursor visit every user once in ascending order and wrap after exactly floor(n/max)+1 calls |
| Entitlements.NormalizeGroups | api/admin_users.go:24-46 | trimmed, non-blank, each once, in order of first appearance |
| Entitlements.NormalizedMembers | api/admin_users.go:24-46 | a group is in the result exactly when it is the trimmed form of some value |
| Entitlements.NormalizedIdempotent | api/admin_users.go:24-46 | a normal list is a fixed point |
| Entitlements.RewriteGroups | api/entitlements.go:260-274 | the loop drops the managed groups and adds the Free ones |
| Entitlements.OneQuotaGroup | api/entitlements.go:260-274 | Free is the only managed quota group afterwards if and only if none was padded |
| Entitlements.PaddedGroupSurvives | api/entitlements.go:260-274 | a padded paid group ends up beside Free |
| Entitlements.AccountRows.CarriedOver | api/entitlements.go:308-322 | what is left of the Free allowance after this period's usage |
| Entitlements.AccountRows.DowngradeToFreePlan | api/entitlements.go:252-342 | groups, profile and quota become what the downgrade function gives |
| Entitlements.UsageIsConserved | api/entitlements.go:306-322 | used bytes are carried over, floored at zero, if and only if the row was not settled above its allowance |
| Entitlements.NeverMoreThanFree | api/entitlements.go:298-322 | no more than the Free allowance is left, with the same single exception |
| Entitlements.CreditedRowIsLeftAlone | api/entitlements.go:303-307 | the exception occurs |
| Entitlements.SuspensionAndPriceSurvive | api/entitlements.go:326-342 | a suspension is never lifted and the operator's price is kept |
| Entitlements.RepeatLeavesQuota | api/entitlements.go:303-307 | a repeat in the same month leaves quota and profile untouched after any consumption |
| Entitlements.UsageOverAMonth | api/entitlements.go:252-342 | over any interleaving of downgrades and consumption in a month, used bytes grow by exactly what is consumed |
| Entitlements.LeavesExactly | api/entitlements.go:303-322 | what is left, case by case: all of the allowance without a row or after the recorded Free period, what it has if settled, the allowance less usage, or the smaller balance without a profile |
| Entitlements.WritesExactly | api/entitlements.go:324-342 | the profile and the rest of the quota row |
| Entitlements.GroupsExactly | api/entitlements.go:260-274 | which groups are left |
| Entitlements.MonthsStartAfresh | api/entitlements.go:298-322 | over any run of downgrades and consumption through the months, what is left is the allowance less what was consumed since the current month's first downgrade |
| Entitlements.RolledRowsStartAfresh | api/entitlements.go:306-309 | the same from a Free row whose period is over, or from none |
| Calendar.MonthIsUnique | api/entitlements.go:217-222 | a time falls in exactly one calendar month |
| Calendar.MonthStartExactly | api/entitlements.go:217-222 | every month of every year starts where the Gregorian calendar puts it, in closed form |
| AnnualQuota.NaturalMonthIsExact | api/entitlements.go:217-222 | a time lies in the period of another exactly when both have the same period, and a period ends where the next month starts |
| AnnualQuota.SweepSubscriptions | api/annual_quota.go:36-88 | the loop decides exactly as the fold over subscriptions |
| AnnualQuota.ReconcileAnnualPlanQuotas | api/annual_quota.go:26-94 | every row before the first failed lookup or write is settled, a failed quota read counting as no quota; nothing after it is touched, and the count is the number of grants |
| AnnualQuota.ResetQuotaForPlanOnce | api/entitlements.go:166-181 | dunning ends either way; a row that carries the period keeps what is left and its start, any other gets the allowance and the period |
| AnnualQuota.AtMostOneGrantPerMonthExactly | api/annual_quota.go:26-94 | from any quota row, over any interleaving at nondecreasing times, at most one grant per calendar month if and only if no grant in a month already granted comes from a sweep that cannot read the quota or after a failed payment that could not |
| AnnualQuota.AtMostOneGrantPerMonth | api/annual_quota.go:26-94 | in particular at most one grant per calendar month in every interleaving in which the quota can be read |
| AnnualQuota.BlindSweepGrantsTwice | api/annual_quota.go:56-88 | for all entitled subscriptions a run in which a failed quota read grants the month a second time |
| AnnualQuota.BlindFailureGrantsTwice | api/entitlements.go:228-247 | a run in which a failed payment that cannot read the quota overwrites its row and the month is granted a second time |
| AnnualQuota.OnlyGrantsRaiseTheQuota | api/entitlements.go:136-181 | no other step raises what is left, except that the row such a failed payment writes starts at zero, so the list of grants is complete |
| AnnualQuota.EarlierClockGrantsAgain | api/entitlements.go:166-181 | a run with a clock set back to an earlier month grants that month twice |
| AnnualRule.DecideExactly | api/annual_quota.go:36-88 | the sweep stops at the first yearly Stripe subscription it cannot read or that still runs; it fails on the one, and grants the other's allowance unless the quota's period lasts |
| AnnualRule.SweepExactly | api/annual_quota.go:26-94 | what a sweep writes and when it fails, with a failed read counting as no quota |
| AnnualRule.GrantCountExactly | api/annual_quota.go:26-94 | the returned count is the number of rows granted |
| AnnualRule.ArrearsExactly | api/entitlements.go:228-247 | a failed payment marks arrears and nothing else, keeps the start of an episode, and creates a missing row |
| Overlay.SanitizeIsNormal | api/overlay.go:479-483 | sanitizing is idempotent and leaves no outer white space |
| Overlay.AddressIsNormal | api/overlay.go:499-508 | address normalization is idempotent |
| Overlay.AddressInUse | api/overlay.go:535-550 | answers exactly whether another device of the network holds the normalized address |
| Overlay.AssignAddress | api/overlay.go:132-172 | the requested address if free, else the own one, else the pool's choice |
| Overlay.FreeHost | api/overlay.go:156-168 | the derived host if free, else the lowest free host of the pool |
| Overlay.PoolHostIsFree | api/overlay.go:156-172 | the pool never hands out a taken host and refuses exactly when all 155 are taken |
| Overlay.AutomaticRefusalIsExhaustion | api/overlay.go:139-172 | a device without an address of its own that asks for none is refused exactly when the pool is exhausted |
| Overlay.AutomaticAssignmentSucceeds | api/overlay.go:156-172 | automatic assignment fails only with at least 155 other devices holding addresses |
| Overlay.FewDevicesLeaveAHost | api/overlay.go:161-168 | pigeonhole: with at most 154 others some host is free |
| Overlay.PlannedFits | api/overlay.go:98-118 | the row a registration is about to write clashes with no other row of the listed network |
| Overlay.DeviceStore.Upsert | internal/store/overlay_memory.go:49-89 | one row per user and device is written, others unchanged |
| Overlay.DeviceStore.Register | api/overlay.go:72-130 | a registration is a step of the table and keeps its invariant |
| Overlay.AddressesStayUnique | api/overlay.go:72-172 | after every sequence of registrations no two devices of a network share an address |
| Overlay.ReRegistrationKeepsAddress | api/overlay.go:147-154 | registering again without an address keeps it if and only if the account id is trimmed |
| OverlayRule.RegistrationExactly | api/overlay.go:72-172 | which address a registration gets, from the rows of the table, and the one row it writes |
| OverlayRule.PoolHostExactly | api/overlay.go:156-168 | the derived host 100 + digest mod 100 if free, else the lowest free of 100 to 254, none exactly when all are held |
| OverlayRule.HostAddressExactly | api/overlay.go:493-497 | a pool address is the prefix, a dot, the host in decimal and `/32` |
| OverlayRule.NormalFormsExactly | api/overlay.go:479-508 | identifiers are trimmed, lower case, blanks as hyphens; a blank network is the default; addresses carry a mask |
| OverlayHosts.SameHostUnderTwoMasks | api/overlay.go:499-508 | two registrations of one host, under `/24` and without a mask, both succeed and share the host |
| OverlayHosts.HostsStayUnique | api/overlay.go:499-519 | after every sequence of registrations that name no address or a host followed by `/32`, hosts, trimmed as the source trims them, are unique too |
| OverlayHosts.OtherMaskBreaks | api/overlay.go:139-145 | any accepted registration with another mask, or a blank before the slash, can be followed by one that takes the same host |
| OverlayHosts.PoolHostsDifferExactly | api/overlay.go:493-497 | two pool addresses are two hosts if and only if the configured prefix holds no slash |
| OverlayRaces.IndexedStoreKeepsUnique | sql/schema.sql:175-176 | with listing and writing interleaved in any way, addresses stay unique when the store refuses a clashing row |
| OverlayRaces.SerialRegistrationsKeepUnique | internal/store/overlay_memory.go:49-89 | without that refusal, in every interleaving in which nobody writes to the network between the two calls of a registration |
| OverlayRaces.WriteInBetweenClashes | api/overlay.go:72-172 | in every state, an address that was planned and is held by nobody can be taken twice by such a write |
| OverlayRaces.RegistrationsRace | api/overlay.go:72-172 | from the empty table, a run of two registrations that ends with one address twice, for every plannable request |
| Lockout.Verifications.Enqueue | api/api.go:2323-2356 | reuses an unexpired record, else issues a new one or fails without a code; other addresses untouched |
| Lockout.Verifications.Lookup | api/api.go:2392-2411 | an expired record is dropped |
| Lockout.Verifications.RecordFailure | api/api.go:2416-2442 | counts a failure, and locks on the fifth |
| Lockout.Verifications.Verify | api/api.go:1062-1109 | equals the guess step on the record of that address |
| Lockout.WrongGuessesAreBounded | api/api.go:1094-1109 | in every run one code is compared with at most 5*(floor(TTL/lockout)+1) wrong ones |
| Lockout.BoundIsReached | api/api.go:1094-1109 | the bound is exact: for every code and lifetime some run of six-digit guesses reaches it |
| Lockout.ResendsNeverRefill | api/api.go:2335-2356 | resends before expiry leave code, counter and lock alone |
| Lockout.GuessExactly | api/api.go:1084-1109 | what one guess does to the record, with the limits written out |
| Lockout.ResendExactly | api/api.go:2335-2356 | what a resend does, with the default lifetime of ten minutes |
| LockoutRaces.WrongGuessesAreBounded | api/api.go:1084-1109 | lookup and counting apart, with at most k requests in flight, one code is compared with at most (k+4)*(floor(TTL/lockout)+1) wrong ones, in every interleaving with resends and removals |
| LockoutRaces.BoundIsReached | api/api.go:1084-1109 | that bound is exact for every k, code and lifetime, by six-digit guesses |
| LockoutRaces.OneAtATimeIsSequential | api/api.go:1084-1109 | both halves of a guess with nothing in between are the sequential step, and for k = 1 the bounds agree |
| FirstInvoice.PlanFromInvoice | api/stripe.go:1716-1757 | the loop over price lines equals the fold, errors included |
| FirstInvoice.PlanIsUniform | api/stripe.go:1716-1757 | an invoice has a plan exactly when all lines are shown and all are of that plan |
| FirstInvoice.IsFirstPaidXConnectInvoice | api/stripe.go:1759-1800 | the loop equals the search, with its early answers and errors |
| FirstInvoice.YesMeansFirst | api/stripe.go:1759-1800 | "first" exactly when everything was judged, the invoice is in the history and nothing precedes it |
| FirstInvoice.ExactlyOneFirst | api/stripe.go:1527-1536 | in a history with distinct ids and resolvable plans exactly one qualifying invoice is first: the least by paid time, then id |
| FirstInvoice.QualifiesExactly | api/stripe.go:1716-1800 | an invoice counts exactly when it is on record as paid for a subscription, the fetched one proves collection, and it shows in full only lines of one plan |
| FirstInvoice.UnjudgedExactly | api/stripe.go:1759-1800 | an invoice on record cannot be judged exactly when fetching it fails or its plan cannot be told |
| FirstInvoice.PlanFailsExactly | api/stripe.go:1716-1757 | when the plan of an invoice cannot be told, by its lines |

## Left out

- HTTP binding, JSON, cookies, error texts, mail, logging and audit rows: plumbing around the modelled decisions.
- PostgreSQL variants of the stores: the memory stores' transitions are modelled, each call atomic; of the SQL store only the unique index on overlay addresses is, and SQL isolation is not.
- Hashing and signing: revisions, quotes and digests are values that are equal exactly when their inputs are.
- Case folding: `ToLower`, `ToUpper` and `EqualFold` act on ASCII letters only; `TrimSpace` covers Unicode white space.
- Stripe: answers are arbitrary values or failures; the idempotency key is honoured for the whole retry window.
- Sort orders of client lists and pool listings, and the tie order of pools: only membership and contents are modelled.
- NodeAccess: public e-mail extension membership is one input shared by both decisions, blocklists and quota exhaustion are given facts, free grants are given as parsed and keyed by normalized node id, and the e-mail list discovery reads is taken to be the one the node sends.
- RegionalPools.GroupForUser: the entry host is given; URL parsing in `regionalEntryHost` is not modelled beyond hosts having no separator character.
- Webhooks.EvaluateGuard: requires every payment to have a stored invoice, which every reachable ledger has (`RefundLedger.RunKeepsInv`), so the lookup error of that loop does not occur in the model.
- RefundedAccess.RefundedStaysRefunded: events about the subscription carry its owner and its refunded latest invoice, as the law assumes; what happens otherwise is `HandleReopensExactly` and `HandleAppliesExactly`. One-off checkout rows never use a subscription's id.
- RefundedAccess.HandleAppliesExactly: store calls succeed and the invoice is read once per event; whether the store takes the quota change of an activation or upgrade is given.
- WebhookRaces.EndsOpenExactly: events about the subscription carry its owner and its refunded latest invoice; the recording of an invoice, the application of a plan and a revocation are one step each.
- RefundService.Executor.RunSubscriptionRefund: the provider history is given as at least as many pages as the query may read, and no other handler moves during the one execution; interleavings are the runs of `RefundProtocol`.
- RefundService.Executor.Begin: whether the request conflicts with a stored one and whether the payment has room is one given flag; the room rule itself is `RefundLedger.RestartBalances`.
- RefundService.Executor.RecordRefund: the `pi_` prefix check, a replay without metadata and the room left in the ledger are given flags; the ledger side is `RefundLedger.LedgerStore.RecordRefund`.
- RefundService.Executor.FinishAttempt: a clash with the provider id of another operation is part of the given "committed" flag.
- RefundLedger.RunKeepsInv: the idempotency keys of invoices and payments are dropped; a replay is an equal row, and clashes are found by id and by provider reference.
- RefundLedger.LedgerStore.RecordRefund: reason and time of a replayed refund are not compared.
- PurchaseProtocol.WaitingRunsHaveOneUnsettledPurchase: assumes that retries wait, because the law fails without it (`RetryRacesRelease`, `RushedRetryBreaks`).
- PurchaseService.ReconcileDecision: the local rows and the plan are given as read; errors of those reads are not modelled.
- PurchaseService.PurchaseStore.Reserve: the checks on lifecycle version, cooldown and open refund reviews are not modelled; they only refuse more.
- PurchaseService.PurchaseStore.Finish: the answer to a repeated finish of a closed operation is not modelled; it writes nothing.
- WebhookStore.AccountStore.RevokeRefundedSubscription: stored external ids are compared as they are, because the webhook upsert stores them trimmed; the source trims both sides.
- NodeScope.AgentResourceScope: the e-mail policy fields of the scope are not modelled.
- NodeAccess.AuthorizedAgentClients: the final sort and the revision digest are not modelled.
- NodeAccess.AuthorizedForIdentity: the final sort is not modelled.
- TeamHandoff.HandoffIsSafe: one node with one fetch open at a time, and a node that enrolls empty.
- Entitlements.AccountRows.DowngradeToFreePlan: an uninterrupted call with readable rows, a found Free plan and without the price multipliers; a crash between the profile and the quota write, and concurrent writers of a quota row, are not modelled.
- Entitlements: the extra group rewrite of `reconcileSubscriptionAccessAt` before the downgrade, which the downgrade's own rewrite subsumes.
- AnnualQuota.AtMostOneGrantPerMonth: upgrades and activations, which grant on purpose, are not steps.
- Overlay.DeviceStore.Register: listing and writing are one step here, the store key is a pair, not the joined string, and display fields are dropped.
- Overlay.AddressesStayUnique: registrations follow one another; interleaved ones are `OverlayRaces.IndexedStoreKeepsUnique` and `OverlayRaces.SerialRegistrationsKeepUnique`.
- OverlayHosts.HostsStayUnique: requires a configured prefix without a slash; what a slash does is stated for the pool (`PoolHostsDifferExactly`).
- OverlayHosts.OtherMaskBreaks: requires a non-blank account id, which every authenticated account has.
- Lockout.Verifications.Verify: lookup, comparison and counting are one step; the steps apart are `LockoutRaces`.
- Lockout.WrongGuessesAreBounded: existing-account codes only; a request reads the clock once and is atomic (`LockoutRaces.WrongGuessesAreBounded` splits it).
- LockoutRaces.WrongGuessesAreBounded: a request reads the clock once for its lookup and once for its count.
- FirstInvoice.IsFirstPaidXConnectInvoice: the listing of paid invoices is given whole.
- Referral settlement, the task scheduler, the email queue, top-ups and administrative grants: separate subsystems, left out.
