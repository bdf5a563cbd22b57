# Paid work: money, plans, provider turns

A Dafny model of the paid-work pipeline: how usage is granted, reserved, spent and taken back; how a
plan of invocations is scheduled over workers that crash and race; how paid provider turns are
admitted, metered and reconciled; and three small algorithms beside it (the event-stream parser,
canonical JSON, the admission to the local inference provider) and the leased realtime outbox.
`dafny verify dfyconfig.toml` checks all of it.

How it is laid out:

- **Billing.** `Money`, `Allocation` (the waterfall over buckets), `Books` (buckets, reservations with
  their allocations, ledger, and each operation as one function from books to books),
  `BooksInvariant`, `BooksLaws`, `BooksAnswers` (what each operation grants and refuses), `Payments`,
  `PaymentsInvariant`, `PaymentsLaws`, `PaymentsEffects` (what each event does to the money). `BillingEngine` is
  the class whose methods update the tables row by row; each is proved to leave the books its function
  describes and to keep the invariant.
- **Plan runtime.** `Readiness` (when an invocation may start), `PassLoop` (the dispatcher's fixpoint),
  `PlanRuntime` (each locked transaction as a function), `PlanInvariant`, `PlanLaws`, `PlanMeaning` (what
  statuses say about the reports that led to them), `PlanOrder` (the graph over runs), and the class
  `OrchestrationRuntime`.
- **Provider turns.** `Turns` (the durable records, what they cost the plan, each write),
  `TurnMachine` (executors, crashes and the reconciler interleaved), `TurnInvariant`, `SpendCeiling`,
  `TurnReplay` (what a repeated request is told), `TurnRecovery`, `StrandedHolds` (which reservations the reconciler never sees), `SettledCeiling`,
  `HeldPasses`, `TurnSettlement` and `TurnsAndBooks` (the link to the usage books), `TurnRefinement` (one
  execution is a run of the machine), the class `ProviderTurns`; and the arithmetic that justifies a
  reservation, `Cost` and `Budget`.
- **Small cores.** `Sse` and `SseCuts`, `CanonicalJson` over `JsonNumbers`, with `JsonReader` as its partner,
  `LocalInference`; `Outbox` (the leased outbox under any interleaving), `OutboxLeases` (what a lease is worth) and `RealtimeOutbox` (the dispatcher's pass as a class, with rivals
  acting between its statements).
- `Basics` and `Sorting` are the shared ground: sums over tables and the stable sort.

Conventions. A locked database transaction is one atomic step. Rows are never deleted from the
billing and turn tables, so a row's id is its position; allocations are grouped under their
reservation. Money is an unbounded integer, as `bigint` is. Times are integers passed in. The order in
which the database returns locked bucket rows is a parameter that must be a legal answer to the
query's `ORDER BY` (`Books.IsLockOrder`): ties may come in any order.

What turned out different from what one might expect, and is proved as such:

- **Plan spend ceiling.** A waiting turn passes the spend check under the plan lock but is counted only
  when it is put back to CREATED, later and outside the lock. So the ceiling can be exceeded
  (`SpendCeiling.LateRestoresBreakCeiling`). It holds exactly for the runs in which every such restore
  still fits at its moment (`SpendCeiling.CeilingIffRestoresFit`), and in every run the excess is at most
  one reservation for each executor but one (`SpendCeiling.CeilingWithSlack`). With readmission and
  restore as one step, or merely not interrupted by another executor's, it always holds
  (`SpendCeiling.AtomicRestoresKeepCeiling`, `SpendCeiling.PromptRestoresKeepCeiling`).
- **Stranded reservations.** When `reserveUsage` fails otherwise than by its own answer, the turn is marked
  as failed before the provider and nothing is released. If the turn holds already, from before a crash or
  because only the answer was lost, its reservation stays ACTIVE on a turn the reconciler never selects
  (`StrandedHolds.LostAnswerStrands`, `StrandedHolds.CrashThenFailureStrands`). Without such a failure, and
  only then, every ACTIVE reservation is on a turn the reconciler selects (`StrandedHolds.HoldsAreSeenIff`).
- **Reattached checkout.** `attachProviderCheckout` writes PENDING whatever the status was. It keeps
  payments sound exactly when it does not hit a granted payment
  (`PaymentsLaws.AttachKeepsInvIff`); otherwise the next confirmation grants a second time exactly when
  the payment buys a subscription and the user has none active, the unique bucket source stopping every
  top-up (`PaymentsLaws.ReattachedPaymentIsGrantedAgain`).
- **Cost against reservation.** Three separate ceilings can exceed the reserve's one. Reservations cover
  every answer at every price exactly when the safety margin exceeds 10000 basis points
  (`Cost.MarginCoversIff`); without cache tokens they always do.
- **Line ends.** The stream parser normalises its buffer again on every drain, and normalising is
  idempotent exactly on texts without `\r\r\n` (`Sse.NormalizeIdempotentIff`). So the cut into chunks can
  change the result (`Sse.CutThroughCrCrLfMatters`). It does not, exactly, on texts without `\r\r\n` and on
  those that have it only behind the last blank line, among white space in which dropping the carriage
  returns makes no blank line (`SseCuts.ReadsAlikeIff`).
- **Settled ceiling.** Admission checks it without counting what is reserved, so turns that run side by
  side can exceed it (`SettledCeiling.ConcurrentTurnsBreakSettled`), unless the committed ceiling is no
  higher (`SettledCeiling.AtomicRestoresKeepSettled`).
- **Passes on held turns.** Only staleness keeps the reconciler off turns that an executor holds. A pass on
  such a turn is harmless once the provider is started, and before that it releases the reservation of a
  call that is still made (`HeldPasses.PassReleasesIff`, `HeldPasses.PassBeforeStartIsNeverPaid`).
- **Key order.** `localeCompare` may find different keys equivalent, and then their insertion order
  shows. The canonical text is independent of key order exactly when the comparison ties no two keys
  (`CanonicalJson.KeyOrderForgottenIff`).
- **Half-open circuit.** A probe's permit can be released a second time after an abort. That lets another
  probe out beside the one that is out (`LocalInference.TwoProbes`); one probe at a time is kept exactly
  when it does not happen (`LocalInference.OneProbeAtATime`), and streams that end without an abort never
  do it, although they record and release the same permit (`LocalInference.RecordedStreamsKeepOneProbe`).

## Model

| member | source | states |
|---|---|---|
| `Money.TopupProviderBudget` | packages/billing/src/money.ts:48-57 | The budget of a top-up is the greatest whole amount within the ratio; invalid inputs, and only those, are refused. |
| `Allocation.PriorityIsTotalPreorder` | packages/billing/src/allocation.ts:4-23 | The bucket comparison is total and transitive, so the priority order exists. |
| `Allocation.PlanIsExact` | packages/billing/src/allocation.ts:25-61 | No plan exactly when the amount is not positive or exceeds the sum of positive availabilities; otherwise positive shares of distinct buckets sum to it, each fits, and a bucket is touched only when all before it in priority order are drained. |
| `Allocation.PlanReservationAllocations` | packages/billing/src/allocation.ts:25-61 | The loop computes exactly that waterfall. |
| `BooksAnswers.PriorityTells` | packages/billing/src/allocation.ts:4-23 | Which of two buckets is used first: monthly usage before top-ups, then what expires earlier, with no expiry last, then what was granted earlier. |
| `BooksAnswers.FirstIsDrained` | packages/billing/src/allocation.ts:25-61 | A plan touches a bucket only once every bucket that is used before it is drained. |
| `BooksInvariant.ReserveKeepsInv` | packages/billing/src/billing-engine.ts:47-156 | A reservation keeps the invariant over all tables: 0 <= spent, 0 <= reserved, spent + reserved <= total; reserved is the sum of ACTIVE allocations, spent the sum of settled ones, and the ledger sums to total - spent. |
| `BooksInvariant.SettleKeepsInv` | packages/billing/src/billing-engine.ts:158-367 | A settlement keeps it, with over-settlement and anomaly. |
| `BooksInvariant.ReleaseKeepsInv` | packages/billing/src/billing-engine.ts:369-461 | A release keeps it. |
| `BooksInvariant.GrantKeepsInv` | packages/billing/src/billing-engine.ts:1078-1133 | A grant keeps it. |
| `BooksInvariant.RevokeKeepsInv` | packages/billing/src/billing-engine.ts:1180-1223 | A refund keeps it, also against a partly reserved bucket: only what is neither spent nor held is taken. |
| `BooksLaws.RunKeepsInv` | packages/billing/src/billing-engine.ts:47-461 | The invariant holds over every run of grants, reservations, settlements, releases and refunds. |
| `BooksLaws.RunChargesOnce` | packages/billing/src/billing-engine.ts:281-347 | Over every run the ledger debits each reservation by exactly its settled amount. |
| `BooksLaws.ClosedForever` | packages/billing/src/billing-engine.ts:175-195 | A closed reservation is never changed again. |
| `BooksLaws.SettlementIsExact` | packages/billing/src/billing-engine.ts:208-347 | Settling an ACTIVE reservation succeeds; ANOMALY exactly when the actual cost exceeds the estimate plus all availability in unexpired buckets, and then the estimate is charged, else exactly the actual cost; all buckets together are debited by that. |
| `BooksLaws.SettlementFollowsPriority` | packages/billing/src/billing-engine.ts:281-337 | Within the estimate, allocations are charged in the priority order of their buckets, each only after those before it are charged in full. |
| `BooksLaws.OverSettlementDrainsAll` | packages/billing/src/billing-engine.ts:213-337 | Beyond the estimate every hold, the further drawn ones included, is charged in full. |
| `BooksLaws.ReserveIsIdempotent` | packages/billing/src/billing-engine.ts:58-80 | Repeating a successful reservation finds it and changes nothing. |
| `BooksLaws.SettleIsIdempotent` | packages/billing/src/billing-engine.ts:175-198 | Repeating a settlement changes nothing; another amount, or any repeat of one that ended as an anomaly, is refused. |
| `BooksLaws.ReleaseUndoesReserve` | packages/billing/src/billing-engine.ts:369-461 | Releasing a fresh reservation gives every bucket back exactly what it held. |
| `BooksAnswers.ReserveGrantsIff` | packages/billing/src/billing-engine.ts:47-156 | A new request is granted exactly when its amount is positive and the user's unexpired buckets together still have it; it then holds exactly the amount in them, posted bucket by bucket, and otherwise nothing changes. |
| `BooksAnswers.ReserveAgainAnswers` | packages/billing/src/billing-engine.ts:58-80 | A request that reserved already is found while it is active with the same amount, and is in conflict otherwise. |
| `BooksAnswers.SettleRefuses` | packages/billing/src/billing-engine.ts:158-206 | Which settlements are refused and why; a refused one changes nothing. |
| `BooksAnswers.SettlementIsPosted` | packages/billing/src/billing-engine.ts:281-347 | The ledger tells for every bucket of a settled reservation what it was charged, if anything, and that the rest was freed, if anything. |
| `BooksAnswers.ReleaseAnswers` | packages/billing/src/billing-engine.ts:369-461 | A release frees exactly what an active reservation holds and posts it; it may be repeated, and is refused once the reservation was settled. |
| `BillingEngine.BillingEngine.ReserveUsage` | packages/billing/src/billing-engine.ts:47-156 | The transaction leaves exactly the books and the answer of its specification, errors included, and keeps the invariant. |
| `BillingEngine.BillingEngine.HoldShares` | packages/billing/src/billing-engine.ts:101-136 | The loop holds every share in its bucket and posts it. |
| `BillingEngine.BillingEngine.SettleUsage` | packages/billing/src/billing-engine.ts:158-367 | As for reserveUsage, over all statuses, over-settlement and anomaly. |
| `BillingEngine.BillingEngine.DrawExtra` | packages/billing/src/billing-engine.ts:220-255 | The loop adds every extra share to the row of its bucket or as a new row, and to the bucket's hold. |
| `BillingEngine.BillingEngine.SettleRows` | packages/billing/src/billing-engine.ts:281-337 | The loop charges row after row what is left of the cost, moves holds to spending, frees the rest, and posts both. |
| `BillingEngine.BillingEngine.ReleaseUsage` | packages/billing/src/billing-engine.ts:369-461 | As for reserveUsage. |
| `BillingEngine.BillingEngine.ProcessPaymentEvent` | packages/billing/src/billing-engine.ts:463-714 | One transaction over payments, events, subscriptions and books, undone as a whole when it throws; it leaves exactly the specified state and answer and keeps every payment sound. |
| `BillingEngine.BillingEngine.GrantPayment` | packages/billing/src/billing-engine.ts:1017-1134 | The grant opens the bucket for the snapshot's amount, and the subscription of a plan payment, or fails as specified. |
| `BillingEngine.BillingEngine.ApplyRefundAccounting` | packages/billing/src/billing-engine.ts:1136-1245 | A refund revokes, notes a shortfall, cancels the subscription and moves the status as specified. |
| `Payments.LockPaymentId` | packages/billing/src/billing-engine.ts:1247-1270 | Finds a payment by the id the provider gave it, else by order, and none exactly when neither names a payment. |
| `PaymentsInvariant.ConfirmKeepsInv` | packages/billing/src/billing-engine.ts:564-631 | A confirmation keeps payments sound: granted at most once, for the snapshot's amount, with distinct buckets, unique keys and one active subscription a user. |
| `PaymentsInvariant.RefundKeepsInv` | packages/billing/src/billing-engine.ts:1136-1245 | A refund keeps payments sound: what was granted less what was taken back is the bucket's total. |
| `PaymentsInvariant.FollowStatusKeepsInv` | packages/billing/src/billing-engine.ts:644-671 | Status notifications keep payments sound, through the status table. |
| `PaymentsInvariant.ProcessKeepsInv` | packages/billing/src/billing-engine.ts:463-714 | Every event, duplicated or not, keeps payments sound. |
| `PaymentsLaws.RunKeepsAccounts` | packages/billing/src/billing-engine.ts:463-714 | Over every run of events, book steps and sound checkouts each payment is granted at most once and for its snapshot's amount. |
| `PaymentsLaws.RunProgresses` | packages/billing/src/payment-states.ts:77-133 | Over every run of duplicated and reordered events a payment keeps its terms and its grant, and a status that left CREATED and PENDING never returns. |
| `PaymentsLaws.DuplicateChangesNothing` | packages/billing/src/billing-engine.ts:479-502 | Once an event went through, its key changes nothing again, whatever happened in between. |
| `PaymentsLaws.RefundsStayWithinGrant` | packages/billing/src/billing-engine.ts:1180-1223 | Refunds of a payment together take back at most what was granted and is neither spent nor held. |
| `PaymentsEffects.ConfirmationGrantsIff` | packages/billing/src/billing-engine.ts:564-631 | A confirmation grants exactly when the payment is open, its snapshot has the amount paid and no subscription or provider id stands against it; then one bucket opens with the whole snapshot amount unspent, a top-up's without end, a subscription's for its period, and else nothing changes. |
| `PaymentsEffects.RefundTakesBack` | packages/billing/src/billing-engine.ts:1136-1245 | A refund of a granted payment takes back exactly what it asks for, as far as that is neither spent nor held; a shortfall, and only that, is noted; no other bucket moves. |
| `PaymentsEffects.FullRefundLeavesNothing` | packages/billing/src/billing-engine.ts:1136-1245 | After a full refund nothing is available in the payment's bucket and its subscription is not active. |
| `PaymentsEffects.PartialPlanRefundIsLeft` | packages/billing/src/billing-engine.ts:1145-1170 | A partial refund of a plan payment takes nothing back and needs reconciliation. |
| `PaymentsEffects.OthersMoveNothing` | packages/billing/src/billing-engine.ts:463-714 | An event that is known, finds no payment, disagrees with it, or reports neither success nor refund moves no money. |
| `PaymentsEffects.StatusFollows` | packages/billing/src/payment-states.ts:77-133 | Where each report leads an open payment, and that a payment that succeeded is moved by refunds and disputes only. |
| `PaymentsEffects.OnlyConfirmedConfirms` | packages/billing/src/payment-states.ts:30-75 | What the provider's words mean for money: only CONFIRMED confirms, only refunds refund, and so on; without a word that is understood the type of the event decides. |
| `PaymentsLaws.AttachKeepsInvIff` | packages/billing/src/billing-engine.ts:787-806 | Attaching a checkout keeps payments sound exactly when it does not hit a granted payment. |
| `PaymentsLaws.ReattachedPaymentIsGrantedAgain` | packages/billing/src/billing-engine.ts:787-806 | After such an attachment the next confirmation grants again exactly for a subscription whose user has none active. |
| `Readiness.DecisionIsStable` | packages/orchestration/src/readiness.ts:21-85 | A decision to run or skip stands, whatever other pending invocations become. |
| `Readiness.SettledSourcesDecide` | packages/orchestration/src/readiness.ts:40-85 | Once all sources are terminal, every join policy decides. |
| `Readiness.DecisionTells` | packages/orchestration/src/readiness.ts:21-85 | When an invocation runs and when it is skipped, for every join policy and condition, by how its sources ended. |
| `Readiness.DecisionStands` | packages/orchestration/src/readiness.ts:21-85 | A decision to run or skip stands, whatever becomes of the sources that are not over. |
| `PassLoop.RunPasses` | apps/worker/src/orchestration.ts:276-302 | The pass loop, for any deciding function, ends in the state of n + 1 passes, with no pending invocation still to be decided. |
| `PassLoop.PassesReachFixpoint` | apps/worker/src/orchestration.ts:276-302 | n passes are enough to reach a fixpoint. |
| `PassLoop.DispatchIgnoresOrder` | apps/worker/src/orchestration.ts:276-302 | With stable decisions the result does not depend on the order of visits. |
| `PassLoop.PassesPlace` | apps/worker/src/orchestration.ts:276-302 | With stable decisions every pending invocation ends where the decision over the final statuses puts it. |
| `PlanLaws.DispatchDecidesInAnyOrder` | apps/worker/src/orchestration.ts:276-302 | The worker's own deciding function is stable, so a dispatch decides the same in any order. |
| `PlanInvariant.DispatchKeepsInv` | apps/worker/src/orchestration.ts:228-349 | A dispatch keeps the plan's invariant: attempts 1, 2, 3, ... without gaps, only the latest run open, statuses fitting their runs, parallelism kept, outcome sound. |
| `PlanInvariant.ClaimKeepsInv` | apps/worker/src/orchestration.ts:431-487 | A claim keeps it. |
| `PlanInvariant.PersistKeepsInv` | apps/worker/src/orchestration.ts:489-563 | A reported result keeps it, however late. |
| `PlanInvariant.RecoverKeepsInv` | apps/worker/src/orchestration.ts:625-687 | Recovering a stale run keeps it. |
| `PlanInvariant.FailPlanKeepsInv` | apps/worker/src/orchestration.ts:835-853 | Failing the plan keeps it. |
| `PlanInvariant.StopKeepsInv` | apps/api/src/orchestration/orchestration.service.ts:888-923 | Stopping the plan keeps it. |
| `PlanInvariant.ResolveKeepsInv` | apps/api/src/orchestration/orchestration.service.ts:998-1235 | A human evaluation keeps it. |
| `PlanLaws.RunKeepsInv` | apps/worker/src/orchestration.ts:228-687 | Every interleaving of every step keeps it: once a plan left RUNNING all invocations are terminal; COMPLETED means all COMPLETED or SKIPPED, PARTIAL some FAILED or CANCELED, FAILED a failure under FAIL_PLAN. |
| `PlanLaws.OneRunningRun` | apps/worker/src/orchestration.ts:436-562 | An invocation has at most one running run, its latest; in a running plan it is RUNNING exactly then. |
| `PlanLaws.SupersededRunIsFenced` | apps/worker/src/orchestration.ts:493-511 | A result or recovery of a superseded run changes nothing. |
| `PlanLaws.LateReportChangesNothing` | apps/worker/src/orchestration.ts:493-511 | Once a run ended, no later report on it changes the plan, whatever happened in between. |
| `PlanLaws.RunAdvances` | apps/worker/src/orchestration.ts:228-687 | Over every run, histories only grow, ended runs keep their record, terminal plans and invocations stay. |
| `PlanLaws.AttemptsAreBounded` | apps/worker/src/orchestration.ts:449-561 | At most maxAttempts runs of an invocation fail, and its runs are at most maxAttempts plus its usage waits. |
| `PlanLaws.WorkIsBounded` | apps/worker/src/orchestration.ts:449-561 | A plan of n invocations grants at most n * maxAttempts claims plus one for each result that reported missing usage. |
| `PlanLaws.DispatchMakesProgress` | apps/worker/src/orchestration.ts:276-349 | After a dispatch of a plan without cycles that stays RUNNING, something runs, waits for a user or usage, or an invocation is handed out that can be claimed at once. |
| `PlanLaws.DispatchedFits` | apps/worker/src/orchestration.ts:324-337 | What a dispatch hands out fits beside what is running. |
| `PlanMeaning.RunLeads` | apps/worker/src/orchestration.ts:489-563 | Over every run an invocation is COMPLETED, with the reported outcome, exactly when the last accepted word on it was a completed result or a human's decision; FAILED exactly when that was a failure not to be retried or a stale run at the last attempt; after another failure, or missing usage, it can be claimed again or waits, unless its plan ended. |
| `PlanMeaning.OutcomeFollowsReports` | apps/worker/src/orchestration.ts:304-322 | A plan ends FAILED only over an invocation under FAIL_PLAN that broke, COMPLETED only with everything finished or skipped, and PARTIAL only over one that broke. |
| `PlanMeaning.CompletedReportsComplete` | apps/worker/src/orchestration.ts:489-563 | While no accepted report breaks, as when all are completed results, a plan ends neither FAILED nor PARTIAL. |
| `PlanMeaning.FatalFailuresFailPlan` | apps/worker/src/orchestration.ts:835-853 | Over every run a failure under FAIL_PLAN takes the plan out of RUNNING at once. |
| `PlanOrder.NothingRunsEarly` | packages/orchestration/src/readiness.ts:21-85 | Over every run an invocation is let on only after its sources ended as its join policy and their conditions ask, and is skipped only when they ended so that it never can run. |
| `PlanMeaning.NothingRunsUnapproved` | apps/api/src/orchestration/orchestration.service.ts:925-996 | Over every run an invocation that needs a user's decision has no run before it has one. |
| `PlanMeaning.DecisionsCount` | apps/api/src/orchestration/orchestration.service.ts:925-1235 | A decision lets it go on: an approved invocation can be claimed, and a human evaluation carries the decision. |
| `PlanMeaning.DispatchPlaces` | apps/worker/src/orchestration.ts:276-302 | A dispatch leaves every pending invocation where the worker's decision over the final statuses puts it. |
| `PlanMeaning.HandedOutAreGranted` | apps/worker/src/orchestration.ts:324-337 | What a dispatch hands out is every ready invocation in the plan's order, or as many from the first on as there are places, and all of it can be claimed. |
| `PlanMeaning.StartOpensRoots` | apps/api/src/orchestration/orchestration.service.ts:823-886 | A started plan runs, and what has no sources can be claimed or waits for a user at once. |
| `PlanMeaning.StopEnds` | apps/api/src/orchestration/orchestration.service.ts:888-923 | Stopping cancels what was not over and keeps what was. |
| `PlanLaws.RecheckWindow` | apps/worker/src/orchestration.ts:240-274 | A waiting invocation is rechecked exactly once the base delay, doubled with every attempt before the last and eight times at most, or the maximum has passed. |
| `OrchestrationRuntime.OrchestrationRuntime.DispatchPlan` | apps/worker/src/orchestration.ts:228-349 | The transaction leaves exactly the specified plan, hands out the specified invocations, and keeps the invariant. |
| `OrchestrationRuntime.OrchestrationRuntime.ClaimInvocation` | apps/worker/src/orchestration.ts:431-487 | As for dispatchPlan; a granted claim names its new run. |
| `OrchestrationRuntime.OrchestrationRuntime.PersistExecutionResult` | apps/worker/src/orchestration.ts:489-563 | As for dispatchPlan. |
| `OrchestrationRuntime.OrchestrationRuntime.RecoverStaleRun` | apps/worker/src/orchestration.ts:625-687 | As for dispatchPlan; it reports exactly whether a running run was ended. |
| `ProviderTurns.ProviderTurns.GetPlanSpendState` | apps/worker/src/external-ai-invocation-executor.ts:1416-1495 | The loop sums each turn into its class and counts the turns and paid invocations. |
| `SpendCeiling.SpendIsCommitted` | apps/worker/src/external-ai-invocation-executor.ts:1453-1487 | Every turn counts in exactly one class or in none, so the three sums make up all that is committed. |
| `SpendCeiling.SpendTells` | apps/worker/src/external-ai-invocation-executor.ts:1416-1487 | What one turn takes out of its plan: its estimate from admission on, then what it holds, then what was settled, and nothing while it waits or once it failed. |
| `ProviderTurns.ProviderTurns.BeginOrReuseTurn` | apps/worker/src/external-ai-invocation-executor.ts:1029-1349 | Admission under the plan lock creates, readmits, replays or refuses as specified, and keeps turns unique and within their limits. |
| `TurnReplay.PaidAnswersAreReplayed` | apps/worker/src/external-ai-invocation-executor.ts:1854-1975 | Once a turn was settled without an error of the answer, every later request for it, after any run of executors, crashes and passes, replays it: no turn is added or changed and the provider is not called. |
| `TurnReplay.EndedForever` | apps/worker/src/external-ai-invocation-executor.ts:1854-1975 | A turn that ended stays as it ended, over every run. |
| `TurnReplay.AnswersTell` | apps/worker/src/external-ai-invocation-executor.ts:1854-1975 | What the other answers mean, by the status of the turn: admitted again, in progress, settled with an error, in reconciliation, failed before. |
| `TurnReplay.NewTurnIsAdmittedIff` | apps/worker/src/external-ai-invocation-executor.ts:1163-1330 | A new turn is admitted exactly when all four limits have room and the budget funds it from what is left. |
| `TurnReplay.RefusalsTell` | apps/worker/src/external-ai-invocation-executor.ts:1163-1330 | Why a new turn is refused: the plan's limits, the request's own cost, or missing usage, which is waited for while other reservations may come back. |
| `TurnReplay.ReadmittedIff` | apps/worker/src/external-ai-invocation-executor.ts:1105-1160 | A turn that no provider has seen is taken up again exactly while it fits beside everything else. |
| `TurnInvariant.RunKeepsInv` | apps/worker/src/external-ai-invocation-executor.ts:305-714 | Under every interleaving of executors, crashes and the reconciler every turn stays sound: status, reservation, cost and provider calls fit each other. |
| `TurnInvariant.RunIsBounded` | apps/worker/src/external-ai-invocation-executor.ts:202-714 | Each turn calls the provider at most once, and an invocation settles at most maxTurns times the greatest reservation. |
| `TurnRecovery.ClosedStaysClosed` | apps/worker/src/external-ai-invocation-executor.ts:609-655 | What is settled or released stays exactly so, so a turn is settled at most once. |
| `SpendCeiling.CeilingWithSlack` | apps/worker/src/external-ai-invocation-executor.ts:1097-1337 | In every run the committed spending exceeds the plan ceiling by at most one reservation for each executor but one. |
| `SpendCeiling.CeilingIffRestoresFit` | apps/worker/src/external-ai-invocation-executor.ts:408-419 | A run stays within the ceiling exactly when every restore of a waiting turn fits at its moment. |
| `SpendCeiling.PromptRestoresKeepCeiling` | apps/worker/src/external-ai-invocation-executor.ts:1097-1337 | When no other executor is admitted or restores between a readmission and its restore, no interleaving of workers, crashes and the reconciler exceeds the ceiling. |
| `SpendCeiling.AtomicRestoresKeepCeiling` | apps/worker/src/external-ai-invocation-executor.ts:408-419 | With readmission and restore as one step the ceiling holds in every run. |
| `SpendCeiling.LateRestoresBreakCeiling` | apps/worker/src/external-ai-invocation-executor.ts:1110-1160 | Two workers admitted for waiting turns and restored only then exceed the ceiling. |
| `SettledCeiling.AtomicRestoresKeepSettled` | apps/worker/src/external-ai-invocation-executor.ts:1245-1258 | With readmission and restore as one step, settled spending stays within its ceiling in every run when the committed ceiling is no higher. |
| `SettledCeiling.ConcurrentTurnsBreakSettled` | apps/worker/src/external-ai-invocation-executor.ts:1245-1258 | When it is higher, two turns admitted before either settles take settled spending above its ceiling. |
| `TurnRecovery.CrashesConverge` | packages/ai/src/reconciliation.ts:288-395 | From the moment the actual cost is stored within the estimate, any executor steps, crashes and partial or complete passes leave a turn that one complete pass brings to the same final request and turn. |
| `TurnRecovery.ReconcileReachesOutcome` | packages/ai/src/reconciliation.ts:288-395 | A complete pass reaches that outcome, and an ended turn already is it. |
| `TurnRecovery.PartialPassIsHarmless` | packages/ai/src/reconciliation.ts:343-353 | A pass that crashed after its billing call is repeated without a trace. |
| `TurnRecovery.ReconcileDecides` | packages/ai/src/reconciliation.ts:202-245 | Measured turns are settled, turns before the provider fail with their hold released and the provider never called, all others are held with their reservation unchanged. |
| `TurnRecovery.HoldIsFixedPoint` | packages/ai/src/reconciliation.ts:457-493 | A hold is a fixed point that keeps its reservation. |
| `HeldPasses.PassOnHeldTurnIff` | packages/ai/src/reconciliation.ts:62-105 | A pass on a turn an executor holds leaves that executor where it believes to be exactly when the scan would not select the turn. |
| `HeldPasses.PassReleasesIff` | packages/ai/src/reconciliation.ts:397-455 | It takes the ACTIVE reservation away from under the executor exactly before the start of the provider. |
| `HeldPasses.PassBeforeStartIsNeverPaid` | packages/ai/src/reconciliation.ts:397-455 | The executor then calls the provider without a reservation, and what the provider charges is never settled. |
| `HeldPasses.PassAfterStartLeavesNoTrace` | packages/ai/src/reconciliation.ts:457-493 | Once the provider is started, a pass leaves no trace on how the executor ends the turn. |
| `HeldPasses.PassAroundSettlementIsHarmless` | packages/ai/src/reconciliation.ts:343-394 | A pass that settles before or after the executor brings the turn to the end it would have had. |
| `TurnSettlement.ReserveMatchesBooks` | packages/billing/src/billing-engine.ts:58-93 | A turn's reservation succeeds exactly when the books reserve it, with the same effect. |
| `TurnSettlement.SettleMatchesBooks` | packages/billing/src/billing-engine.ts:158-367 | A turn's settlement is the books' settlement and debits the buckets by the actual cost. |
| `TurnSettlement.ReleaseMatchesBooks` | packages/billing/src/billing-engine.ts:369-461 | A turn's release is the books' release. |
| `TurnSettlement.AttemptsDebitOnce` | packages/ai/src/reconciliation.ts:343-353 | Whatever legal steps of the books come before, between and after, repeated settlements debit the reservation by exactly the measured cost once. |
| `TurnsAndBooks.RunKeepsJoint` | packages/ai/src/reconciliation.ts:288-395 | Turns and usage books as one system, every billing call a step of the books and any other step in between: over every run each turn holds exactly its reservation in the books, and turns, books and ledger stay sound. |
| `TurnsAndBooks.TurnIsDebitedOnce` | packages/ai/src/reconciliation.ts:288-395 | From the moment the actual cost is stored within the estimate, whatever executors, crashes, passes and other users of the books do, the ledger debits the turn nothing or exactly that cost; an ended turn is debited exactly it and in the one outcome, where a complete pass brings it. |
| `ProviderTurns.ProviderTurns.ExecuteTurn` | apps/worker/src/external-ai-invocation-executor.ts:408-686 | One admitted turn, write by write, ends in the specified record and verdict for every answer of the provider and for billing calls that fail before or after they took effect. |
| `ProviderTurns.ProviderTurns.CallProvider` | apps/worker/src/external-ai-invocation-executor.ts:1533-1733 | The provider's part of a turn: refused as misconfigured, or started, called once and streamed, and then settled, released or held, with release and settlement calls that may fail. |
| `ProviderTurns.ProviderTurns.ReleaseReservationAfterSafeFailure` | apps/worker/src/external-ai-invocation-executor.ts:1735-1773 | The turn ends released exactly when the release and its answer went through, and on hold otherwise. |
| `ProviderTurns.ExecutionSettlesExactly` | apps/worker/src/external-ai-invocation-executor.ts:510-660 | A granted reservation and an answer within the estimate end settled at exactly the measured cost after one call. |
| `ProviderTurns.VerdictTells` | apps/worker/src/external-ai-invocation-executor.ts:408-686 | The verdict tells how the turn ended: done exactly when it was settled without tool error or interruption. |
| `ProviderTurns.AnswersEnd` | apps/worker/src/external-ai-invocation-executor.ts:510-686 | Where every answer of the provider, metered or not, leads the turn and its reservation. |
| `ProviderTurns.EarlyEnds` | apps/worker/src/external-ai-invocation-executor.ts:408-505 | Where a turn ends that never reaches the provider. |
| `ProviderTurns.ExecutionKeepsTurn` | apps/worker/src/external-ai-invocation-executor.ts:421-714 | However an execution goes, the turn stays sound; what it still holds is on hold for the reconciler or stranded, and it is stranded exactly when reserveUsage fails otherwise than by its answer while the turn holds already or the failed call took effect. |
| `StrandedHolds.HoldsAreSeenIff` | apps/worker/src/external-ai-invocation-executor.ts:430-471 | After any run every ACTIVE reservation is on a turn the reconciler selects exactly when no reserveUsage call failed on a turn that was already holding. |
| `StrandedHolds.StrandedForever` | packages/ai/src/reconciliation.ts:4-11 | A reservation on a turn that the scan does not select is never changed again, in any run. |
| `StrandedHolds.LostAnswerStrands` | apps/worker/src/external-ai-invocation-executor.ts:421-471 | When only the answer of reserveUsage is lost, its reservation is held for ever. |
| `StrandedHolds.CrashThenFailureStrands` | apps/worker/src/external-ai-invocation-executor.ts:421-471 | So it is when an executor crashed after reserving and its next reserveUsage call fails. |
| `TurnRefinement.ExecutionIsARun` | apps/worker/src/external-ai-invocation-executor.ts:408-655 | Executing a turn is a run of the machine over which invariant, ceiling and convergence are proved. |
| `ProviderTurns.ProviderTurns.ReconcileProviderTurn` | packages/ai/src/reconciliation.ts:202-245 | One turn reconciled as specified, also when the billing call or the record throws; each counter moves exactly as decided. |
| `ProviderTurns.ProviderTurns.ReconcileBatch` | packages/ai/src/reconciliation.ts:47-99 | The scan reconciles exactly the selected turns; an error on one is counted and the others go on. |
| `ProviderTurns.ThrownPassIsRepeated` | packages/ai/src/reconciliation.ts:82-99 | A turn on which a pass threw is brought to the same end by the next one. |
| `Cost.NormalizeUsage` | packages/ai/src/usage.ts:4-54 | The given counts, absent ones as zero, are accepted exactly when they are natural numbers with cached and reasoning tokens within their totals, and are kept as given. |
| `Cost.CostWithinRawReserve` | packages/ai/src/cost.ts:37-91 | Within the funded caps an answer costs at most the unmargined reserve, plus one for cache reads and one for cache writes. |
| `Cost.ReservationCoversCost` | packages/ai/src/cost.ts:26-91 | Hence at most the reservation when no cache tokens are used or raw * safetyBps > 10000. |
| `Cost.MarginCoversIff` | packages/ai/src/cost.ts:26-91 | A margin covers every answer at every price exactly when it exceeds 10000 basis points. |
| `Cost.ReservationGrows` | packages/ai/src/cost.ts:70-91 | A larger output cap never costs less, through both ceilings. |
| `Cost.CostIsExact` | packages/ai/src/cost.ts:50-68 | Provider cost is never under-accounted, nor over-accounted by a whole unit for a class of tokens: the exact cost is covered, with less than one to spare for each charged class. |
| `Cost.CostIsRefusedIff` | packages/ai/src/cost.ts:37-68 | A cost is refused exactly for more cached than input tokens, and for negative counts or prices where they are charged. |
| `Cost.ReservationIsExact` | packages/ai/src/cost.ts:70-91 | The reservation is the worst case, less than two over, with its margin, less than one more over, and never nothing. |
| `Cost.WorstCaseIsReached` | packages/ai/src/cost.ts:70-91 | The worst case that is reserved for is real: some answer within the caps is worth exactly that. |
| `Budget.ResolveAiExecutionBudget` | packages/ai/src/execution-budget.ts:44-145 | The binary search computes the greatest fitting output, on every branch. |
| `Budget.FundedIsGreatest` | packages/ai/src/execution-budget.ts:57-145 | FUNDED exactly when the minimum fits both positive ceilings; then exactly the output sizes up to the selected one fit. |
| `Budget.MoreUsageFundsMore` | packages/ai/src/execution-budget.ts:44-145 | More available usage never funds less. |
| `Budget.BudgetIsSound` | packages/ai/src/execution-budget.ts:44-145 | What admission assumes of a budget, this one meets. |
| `Budget.RefusalTells` | packages/ai/src/execution-budget.ts:57-145 | Which of the two ceilings a refusal names, and when. |
| `Sse.OpenAiCompatSseParser.PushText` | packages/ai/src/sse.ts:9-13 | A push leaves the specified parser state and events, or the parse error. |
| `Sse.OpenAiCompatSseParser.FinishText` | packages/ai/src/sse.ts:15-19 | Finishing flushes what is left, as specified. |
| `Sse.OpenAiCompatSseParser.Drain` | packages/ai/src/sse.ts:21-48 | The loop consumes block after block up to the first done event. |
| `Sse.ChunksDoNotMatter` | packages/ai/src/sse.ts:9-48 | For every cut of a text without `\r\r\n` that parses up to the end of its stream, the pushes and the finish yield exactly the events of normalising once, splitting at blank lines and stopping after the first done event. |
| `Sse.MalformedIsReportedIff` | packages/ai/src/sse.ts:9-48 | However a text without `\r\r\n` is cut, the parser throws exactly when a block before the end of the stream, or a rest that is flushed, does not parse. |
| `Sse.NormalizeIdempotentIff` | packages/ai/src/sse.ts:23 | Normalising is idempotent exactly on texts without `\r\r\n`. |
| `Sse.CutThroughCrCrLfMatters` | packages/ai/src/sse.ts:21-48 | One text with `\r\r\n`, cut in two ways, yields different blocks. |
| `SseCuts.ReadsAlikeIff` | packages/ai/src/sse.ts:9-48 | A text yields the events of the whole however it is cut, for every block parser, exactly when no `\r\r\n` stands in it or only behind its last blank line, among white space in which dropping the carriage returns makes no blank line. |
| `SseCuts.VisibleEndReadsAlikeIff` | packages/ai/src/sse.ts:21-48 | A text that does not end in white space is read alike however it is cut exactly when it has no `\r\r\n`. |
| `CanonicalJson.ShowDiffers` | packages/artifacts/src/fingerprint.ts:28-43 | A text determines the value it starts with and where that value ends. |
| `CanonicalJson.CanonicalTellsApart` | packages/artifacts/src/fingerprint.ts:28-43 | Whatever the key comparison, equal texts come from values equal up to key order. |
| `CanonicalJson.CanonicalIffSame` | packages/artifacts/src/fingerprint.ts:28-43 | With a comparison that ties no keys, texts are equal exactly when values are equal up to key order. |
| `CanonicalJson.KeyOrderForgottenIff` | packages/artifacts/src/fingerprint.ts:41-42 | The text is independent of key order exactly when the comparison ties no two keys. |
| `CanonicalJson.CodePointsForgetKeyOrder` | packages/artifacts/src/fingerprint.ts:41 | A comparison by code points would forget key order entirely. |
| `JsonNumbers.NumberTextDiffers` | packages/artifacts/src/fingerprint.ts:31-36 | Different finite numbers print different texts, in every form Number::toString uses. |
| `JsonNumbers.PlainNumbers` | packages/artifacts/src/fingerprint.ts:31-36 | Exactly numbers from 10^21 on and below 10^-6 are written with an exponent; of the others exactly fractions have a point. |
| `JsonReader.CharsReadBack` | packages/artifacts/src/fingerprint.ts:30 | A string reader written from section 7 of RFC 8259 reads every quoted string back. |
| `JsonReader.EscapesAreShortest` | packages/artifacts/src/fingerprint.ts:30 | A character is escaped only where JSON asks for it, and as briefly as JSON can. |
| `JsonReader.NumberReadsBack` | packages/artifacts/src/fingerprint.ts:31-36 | A number's text is a number of section 6 of RFC 8259 and is read back as it. |
| `JsonReader.CanonicalReadsBack` | packages/artifacts/src/fingerprint.ts:28-43 | The canonical text is JSON, and a reader of its own reads it back as the value with its keys in order. |
| `Outbox.RunKeepsInv` | apps/worker/src/realtime-outbox.ts:94-427 | Under competing dispatchers every row stays sound: leased with a token, waiting with a time, or published by a claimant that sent it. |
| `Outbox.LostTokenChangesNothing` | apps/worker/src/realtime-outbox.ts:259-362 | Once a row no longer carries a token it never does again, over every run, and late updates under that token change nothing. |
| `Outbox.OnlyHolderPublishes` | apps/worker/src/realtime-outbox.ts:125-246 | A row becomes published only under its current token, after that token sent it or without recipients. |
| `Outbox.UnpublishedIsClaimable` | apps/worker/src/realtime-outbox.ts:383-427 | Every unpublished row can be claimed from some time on. |
| `Outbox.SendsAreBounded` | apps/worker/src/realtime-outbox.ts:125-246 | An event is sent at most once per claim, so at most as often as its row was attempted. |
| `Outbox.RowsAreNotLost` | apps/worker/src/realtime-outbox.ts:364-381 | Over every run a row with recipients leaves the table only after a successful send. |
| `OutboxLeases.ClaimRespectsLease` | apps/worker/src/realtime-outbox.ts:402-409 | No claim touches a row whose lease still runs. |
| `OutboxLeases.LeaseExcludes` | apps/worker/src/realtime-outbox.ts:343-409 | From a claim or renewal until its lease ends a row stays with its holder, over every run with clocks within the lease, unless the holder completes it or puts it off. |
| `OutboxLeases.ActsWithinLease` | apps/worker/src/realtime-outbox.ts:259-341 | A dispatcher that acts within its lease never loses it: its completion takes effect, and so does putting off. |
| `OutboxLeases.ClaimLeases` | apps/worker/src/realtime-outbox.ts:383-427 | A claim hands out exactly the eligible rows it chose, each under its new token for one lease. |
| `OutboxLeases.EnqueuedIsClaimable` | apps/worker/src/realtime-outbox.ts:398-405 | A new event can be claimed from the moment it is enqueued, and one that is there is left alone. |
| `OutboxLeases.RenewalLeases` | apps/worker/src/realtime-outbox.ts:343-362 | A renewal under the row's token gives it a whole lease from then on. |
| `OutboxLeases.RowsRest` | apps/worker/src/realtime-outbox.ts:364-427 | A row that was put off is not touched before its back-off is over, and a published one not before its retention is. |
| `OutboxLeases.CompactionRemoves` | apps/worker/src/realtime-outbox.ts:364-381 | A compaction removes exactly the published rows whose retention is over. |
| `RealtimeOutbox.RealtimeOutboxDispatcher.RunOnce` | apps/worker/src/realtime-outbox.ts:94-257 | Whatever rivals do between its statements, a pass is a run of the outbox, sends nothing twice under its token, counts every claimed event once, and what it counts as published was sent or had no recipients; undisturbed it loses no lease and leaves exactly the specified rows. |
| `RealtimeOutbox.RealtimeOutboxDispatcher.HandleEvent` | apps/worker/src/realtime-outbox.ts:125-246 | One event of the batch: skipped when its lease is gone, completed without recipients, published and completed, or put off. |
| `RealtimeOutbox.RealtimeOutboxDispatcher.RenewLease` | apps/worker/src/realtime-outbox.ts:343-362 | The lease moves exactly when the row still carries the token. |
| `LocalInference.LocalInferenceProvider.AcquireSlot` | packages/ai/src/local-inference-provider.ts:528-573 | A request gets a slot, a place in the queue, or is refused; slots are counted exactly and nobody waits while one is free. |
| `LocalInference.LocalInferenceProvider.GiveSlotBack` | packages/ai/src/local-inference-provider.ts:575-583 | A slot given back goes to the request that waits longest. |
| `LocalInference.LocalInferenceProvider.AbandonQueue` | packages/ai/src/local-inference-provider.ts:541-570 | An aborted wait leaves the queue and nothing else. |
| `LocalInference.OneProbeAtATime` | packages/ai/src/local-inference-provider.ts:448-520 | Over every run, one probe at most is out and keeps all others away exactly when no permit of the current generation is released a second time while another probe is out. |
| `LocalInference.RecordedStreamsKeepOneProbe` | packages/ai/src/local-inference-provider.ts:350-410 | Requests that release a permit again only once it was recorded or is of an earlier generation, as every stream that ends without an abort does, keep one probe at a time however interleaved. |
| `LocalInference.TwoProbes` | packages/ai/src/local-inference-provider.ts:313-410 | An aborted probe released twice, the second time after the next probe went out, puts two probes out at once. |
| `LocalInference.SecondReleaseAdmits` | packages/ai/src/local-inference-provider.ts:512-520 | A second release admits a second probe exactly when it is of the generation being probed. |
| `LocalInference.OpensAtThreshold` | packages/ai/src/local-inference-provider.ts:477-510 | Over every run, a closed circuit has seen fewer failures in a row than the threshold, and opens exactly at the threshold-th since the last success. |
| `LocalInference.OpenForResetTime` | packages/ai/src/local-inference-provider.ts:448-520 | Over every run, after an opening no request is admitted before the reset time has passed, and the first one from then on is, as a probe. |
| `LocalInference.ProbesDecide` | packages/ai/src/local-inference-provider.ts:477-520 | A probe that succeeds closes the circuit and one that fails opens it anew. |
| `LocalInference.DeadPermitsStayDead` | packages/ai/src/local-inference-provider.ts:477-520 | Over every run, what a permit of an earlier generation still reports leaves the circuit as it is. |

## Left out

- The database, queues, Redis, HTTP and their failures, other than a transaction that does not happen and a billing call whose answer is lost; `withRetry` (a retried transaction is another step).
- Economics of payments (`attachEconomicsSafely`, refund and chargeback economics), payment methods, logging and telemetry.
- `parseCheckoutSnapshot`: a payment carries its parsed snapshot, whose grant is a natural number as checkout builds it.
- Upper-casing of provider statuses: events carry the upper-cased text, and that is what the payment keeps.
- `initializeHostedCheckout`, which writes what `attachProviderCheckout` writes but only while no payment URL is stored; creation of payments; expiry of subscriptions.
- PLANNING plans and `recoverStalePlanningShells`, context snapshots, queue publishing; a dispatch's row updates are written after its pass loop rather than during it, inside the same transaction.
- `Legacy` requests without a provider turn, batch limits and staleness of the reconciler's scan: the machine lets the reconciler act on any turn no executor holds, at any time.
- TurnInvariant.RunIsBounded: assumes one live executor per invocation and a reconciler that acts only on turns no executor holds; in the code only staleness keeps them apart, and module `HeldPasses` says what happens when it does not.
- The user's usage as seen by an admission (`getSpendableUsageState`) is a parameter; token estimation, context limits, model choice, tool calls and artifacts are not modelled.
- `parseSseBlock` and the UTF-8 decoder: the block parser is a parameter and chunks are already text.
- White space and surrogate escapes in the JSON reader, which canonical text does not have.
- Numbers in canonical JSON are shortest decimals, of which the finite doubles are a part; finding the shortest digits of a double, the error on non-finite numbers, lone surrogates and undefined values, and the hash over the text are not modelled.
- The batch limit and the locks of the outbox claim: any eligible rows may be claimed; event ids are not reused after compaction; publishing and decoding are a parameter, and a failed publish is not a send, though it may have reached some recipients.
- Fetching, timeouts and probes of the local inference provider; abort signals appear as abandoned waits and released permits.
