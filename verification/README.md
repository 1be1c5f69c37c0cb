# Verified model of the Tonatiuh trading platform

The platform runs trading bots for paying organizations. This project models the parts of it whose
guarantees span several functions, and proves those guarantees in Dafny for every input, every run and
every reachable state:

- **API compatibility checker** (`OpenApiSchema`, `SchemaCompare`, `SchemaReport`, `SchemaPreorder`,
  `SchemaSoundness`,
  `ApiCompatibility`, `ApiPolicy`). Schemas get a meaning over JSON values: JSON Schema Validation
  2020-12, sections 6.1.1, 6.1.2, 6.2.2, 6.2.4, 6.3.1 to 6.3.3 and 6.5.3; JSON Schema Core 2020-12,
  sections 10.3.1.2, 10.3.2.1 and 10.3.2.3; `nullable` as in the Schema Object section of OpenAPI 3.0.3.
  The checker's loops and recursion are proved to report exactly the specified issues, an empty report
  is a preorder, and it implies that old requests are still accepted and new responses still understood.
- **Billing** (`Plans`, `BillingModel`, `BillingLedger`, `BillingInvariants`, `BillingRows`,
  `BillingDunning`, `BillingCharges`,
  `BillingStore`). Webhooks,
  the renewal worker, reconciliation, the expiry sweep, user requests and refunds are atomic steps on the
  same tables, in any order; provider snapshots are arbitrary and possibly stale.
- **Trading sessions** (`Positions`, `TradingMath`, `AveragingDown`, `TrailingStop`, `PositionClosing`,
  `SessionProfit`, `SessionRecovery`). Prices, balances, executions and crashes are arbitrary sequences.
- **Bot commands and seats** (`BotCommands`, `BotSupervision`, `Seats`). Enqueueing, metering, claiming,
  leader crashes and child processes; invitations and memberships.
- **Two small protocols** (`RefreshTokens`, `RateLimiter`).

State that the program updates in place is a class whose methods are proved equal to a step function;
the theorems are about that function and about all runs of it. `dafny verify dfyconfig.toml` checks
everything.

Properties that turned out not to hold as documented or expected have a lemma with a concrete input, and
the condition under which they do hold:

- Breaks that the API checker reports as compatible: `SchemaSoundness.AddedItemsGap`, `AddedPropertyGap`,
  `UntypedGap`, `DroppedBoundGap`, `ClosedObjectGap`. `InputCovered` and `OutputCovered` describe the pairs
  on which a clean report can be trusted.
- A subscription can be charged before the period it has paid for is over:
  `BillingCharges.AbandonedIsChargedEarly`, `LateFailureIsChargedEarly`. `ChargedEarlyExactlyWhen` says when.
- A command whose first query fails leaves the bot at the target of an older command:
  `BotSupervision.LostWrite`. `DesiredExactlyUnlessOvertaken` says when, and `DesiredDiffersOnlyOnFailure`
  what the tables alone show.
- Restart can take a flat session for an open one: `PositionClosing.LateFillIsNotRecognised`; or an open one
  for a closed one, within the tolerance that grows with the amounts: `RecognisedThoughExposed`.
  `SessionRecovery.RestartAfterClose` says when it does which.
- A close overlooks an order held only in memory while the exchange does not answer for it:
  `PositionClosing.FreshEntryIsOverlooked`. `CloseMissesOverlooked` says by how much it is off.
- A closing row that could not be stored, or a closing order that the exchange does not answer for, makes the
  next close submit the whole amount again: `PositionClosing.SecondCloseAfterRestart`, `SecondClose`.
- Crashes while a session is being ended lose the sale delta (`SessionRecovery.CrashLosesDelta`) or count a
  profit once per crash (`CrashesRepeatProfit`). `RecoveryEndsSession` and `RecoveryCountsProfitOnce` say when.
- The profit formula is wrong for a session closed in more than one order:
  `SessionProfit.TwoClosesAreMisreported`. `ProfitIsCashExactlyWhen` says when it is right.
- An entry whose row could not be stored is averaged once more after a restart:
  `AveragingDown.LostRowIsPaidFor`. An entry that was neither stored nor closed is still held when the worker
  starts its next round: `AbandonedEntryStaysHeld`. `EntriesAreBounded` counts both.

## Model

| member | source | states |
|---|---|---|
| `OpenApiSchema.ResolvedSchema` | scripts/check-openapi-compatibility.js:14 | the reference-following loop ends on every document, cyclic ones included, and returns the resolution of the schema |
| `OpenApiSchema.ResolveEnds` | scripts/check-openapi-compatibility.js:14 | on an acyclic document resolution ends at a node without a reference, whose own references rank lower |
| `OpenApiSchema.ResolveUnfolds` | scripts/check-openapi-compatibility.js:14 | there a node with a reference stands for the node it names, or for nothing, and any other for itself |
| `OpenApiSchema.NameAfterSlash` | scripts/check-openapi-compatibility.js:14 | the name in a reference is what follows its last slash |
| `SchemaCompare.PushEnumIssues` | scripts/check-openapi-compatibility.js:18-20 | exactly the enum values lost (input) or gained (output), or the added or dropped constraint, are reported |
| `SchemaCompare.PushKeywordIssues` | scripts/check-openapi-compatibility.js:18-25 | exactly the specified enum, nullable, bound and pattern issues of the mode are added |
| `SchemaCompare.PushRequiredIssues` | scripts/check-openapi-compatibility.js:29-31 | exactly the required names without counterpart, and the closing of an open input object, are added |
| `SchemaCompare.CompareProperties` | scripts/check-openapi-compatibility.js:27-28 | the loop over the old properties adds the issues of each of them and nothing else |
| `SchemaCompare.CompareSchema` | scripts/check-openapi-compatibility.js:15-33 | the recursive comparison ends on acyclic documents and adds exactly the specified issues to the list |
| `SchemaReport.ReportIsWhatIsShown` | scripts/check-openapi-compatibility.js:15-33 | an issue of a kind at a path is reported exactly when the old and new nodes found by following the same items and shared properties to that path show that break on their own keywords, with the enum value, property name or types it names |
| `ApiCompatibility.ByKeyIsLast` | scripts/check-openapi-compatibility.js:37 | under place and name stands the last parameter that has them |
| `ApiCompatibility.ReportIsTheBreaks` | scripts/check-openapi-compatibility.js:35-43 | the report of two snapshots holds exactly the breaks of their operations, parameters, bodies, responses and schemas, named one by one |
| `ApiCompatibility.FindIssues` | scripts/check-openapi-compatibility.js:35-43 | the list returned for two snapshots holds exactly these breaks |
| `SchemaPreorder.EmptyReportIffClean` | scripts/check-openapi-compatibility.js:15-33 | nothing is reported exactly when types, keywords, items and properties are kept all the way down |
| `SchemaPreorder.CleanReflexive` | scripts/check-openapi-compatibility.js:15-33 | every schema is clean against itself |
| `SchemaPreorder.CleanTransitive` | scripts/check-openapi-compatibility.js:15-33 | clean steps compose, across three documents with different references |
| `SchemaSoundness.InputSound` | scripts/check-openapi-compatibility.js:14-33 | where what input mode does not compare narrows nothing (`InputCovered`), a clean comparison means that every value valid under the old schema is valid under the new one |
| `SchemaSoundness.OutputSound` | scripts/check-openapi-compatibility.js:14-33 | where what output mode does not compare widens nothing (`OutputCovered`: old bounds, patterns and closings are kept), a clean comparison means that every value valid under the new schema is valid under the old one |
| `SchemaSoundness.AddedItemsGap` | scripts/check-openapi-compatibility.js:16 | giving any old array without items and enum an item schema is not reported, and harmless exactly when that schema accepts everything |
| `SchemaSoundness.AddedPropertyGap` | scripts/check-openapi-compatibility.js:27-28 | declaring a further property on any open object that has a value and no enum is not reported, and harmless exactly when its schema accepts everything |
| `SchemaSoundness.UntypedGap` | scripts/check-openapi-compatibility.js:17 | stating the type of an untyped object schema is not reported, although null is then refused |
| `SchemaSoundness.DroppedBoundGap` | scripts/check-openapi-compatibility.js:21-25 | a response may outgrow the old length limit unreported, for every limit |
| `SchemaSoundness.ClosedObjectGap` | scripts/check-openapi-compatibility.js:31 | a response may gain a property of a closed object unreported |
| `ApiPolicy.EmptyApiReport` | scripts/check-openapi-compatibility.js:35-43 | no issue on two snapshots exactly when every old operation is kept clean |
| `ApiPolicy.ReportReflexive` | scripts/check-openapi-compatibility.js:35-43 | a snapshot is compatible with itself |
| `ApiPolicy.ReportTransitive` | scripts/check-openapi-compatibility.js:35-43 | clean a→b and b→c give clean a→c, so step-by-step baseline updates hide no break |
| `ApiPolicy.OldRequestsStillAccepted` | docs/api-versioning.md:19-22 | after an empty report every request the old operation accepted, at the same method and path, is accepted by the new one, for operations whose parameter and body schemas are covered (`RequestsCovered`) |
| `ApiPolicy.NewResponsesStillUnderstood` | docs/api-versioning.md:19-22 | after an empty report every new response under a documented status satisfies the old contract, for covered response schemas (`OutputPairCovered`) |
| `BillingStore.Store.ApplyPaymentLifecycle` | src/saas/billing/lifecycle.ts:11-29 | the marker-guarded writes have the effect of the lifecycle function on all tables |
| `BillingStore.Store.ApplyRefundLifecycle` | src/saas/billing/lifecycle.ts:31-34 | a successful refund marks its row once and ends the subscriptions whose last payment it repays in full |
| `BillingStore.Store.HandleWebhook` | src/saas/billing/router.ts:39-52 | a notification is the webhook step: unknown payments and repeated events change nothing |
| `BillingStore.Store.ReconcilePayment` | src/saas/billing/renewals.ts:48 | reconciliation applies the provider's snapshot to the stored payment |
| `BillingStore.Store.TakeRenewal` | src/saas/billing/renewals.ts:19-28 | a renewal is claimed exactly when the subscription is due, renewable and has a method, and its next attempt moves 15 minutes on |
| `BillingStore.Store.CommitRenewalPayment` | src/saas/billing/renewals.ts:30-39 | the renewal transaction inserts or refreshes the payment and applies it, or changes nothing on a key clash |
| `BillingStore.Store.ExpireGrace` | src/saas/billing/renewals.ts:55-56 | the sweep cancels exactly the past-due rows whose grace has ended |
| `BillingStore.Store.ReserveFullRefund` | src/saas/admin/router.ts:99-105 | a reservation is returned exactly for a succeeded payment whose key already holds it, or whose key is new while no refund of it is live |
| `BillingStore.Store.CommitRefundAnswer` | src/saas/admin/router.ts:106-107 | the provider's answer is stored under its reservation and applied |
| `BillingStore.Store.ReconcileRefundStatus` | src/saas/billing/renewals.ts:52-53 | the reconciled status is stored and applied |
| `BillingRows.SuccessRow` | src/saas/billing/lifecycle.ts:14-20 | by any route a new success makes the row PRO, ACTIVE and free of dunning for a month from the later of now and its period end, with method, renewal and next charge as stated field by field |
| `BillingRows.RefusalRow` | src/saas/billing/lifecycle.ts:21-28 | by any route a new refusal of a renewal makes the row PAST_DUE, everything kept and the next attempt as scheduled, exactly if that attempt comes before the grace end; otherwise CANCELLED, FREE and not renewing |
| `BillingRows.StoredSnapshot` | src/saas/billing/lifecycle.ts:12-13 | any other snapshot is only stored |
| `BillingRows.IgnoredSteps` | src/saas/billing/router.ts:34-52 | unknown, repeated or pending notifications, unknown reconciliations and key clashes change nothing at all |
| `BillingRows.ClaimRow` | src/saas/billing/renewals.ts:19-28 | a claim moves the next attempt of a due, renewing row by 15 minutes and nothing else |
| `BillingRows.SweepRow` | src/saas/billing/renewals.ts:55-56 | the sweep changes exactly the past-due rows whose grace is over |
| `BillingRows.ResumeRow` | src/saas/billing/router.ts:88-91 | resuming needs a method and a running period, and sets the next charge to its end |
| `BillingRows.CancelRow` | src/saas/billing/router.ts:87 | cancelling ends the renewals and keeps the rest |
| `BillingRows.RenewalRow` | src/saas/billing/renewals.ts:31-39 | a renewal's payment is stored with its key, attempt and price |
| `BillingRows.CheckoutRow` | src/saas/billing/router.ts:73-83 | a checkout stores a first payment unless its key or id is known |
| `BillingRows.RefundRow` | src/saas/billing/lifecycle.ts:31-34 | a full refund of the last payment ends the subscription at that moment |
| `BillingRows.PartialRefundKeepsPlan` | src/saas/billing/lifecycle.ts:33 | a refund of less than a payment changes no subscription |
| `BillingRows.ReservationRow` | src/saas/admin/router.ts:99-105 | what a reservation stores, and when it stores nothing |
| `BillingDunning.ScheduleIsUsed` | src/saas/billing/renewals.ts:19-44 | n refusals that each leave another attempt in time are followed by n + 1 claims, under exactly the keys 1 to n + 1, for every n up to the length of the schedule |
| `BillingLedger.PaymentsCountOnce` | src/saas/billing/lifecycle.ts:11-29 | over every run each payment extends a period at most once and fails at most once, and its markers say exactly whether it has |
| `BillingLedger.RefundsCountOnce` | src/saas/billing/lifecycle.ts:31-34 | over every run each refund acts at most once, as its marker says |
| `BillingLedger.ReplayIsSilent` | docs/billing-lifecycle.md:25-28 | once applied, a success or failure delivered again by any route, after anything else, leaves all subscriptions unchanged |
| `BillingLedger.OnlyExtensionsMovePeriods` | src/saas/billing/lifecycle.ts:14-20 | outside refunds a period end moves only by a granted payment, by one month from the later of it and now |
| `BillingLedger.GrantedAreDistinct` | src/saas/billing/lifecycle.ts:14 | the payments turned into paid time are pairwise distinct |
| `BillingLedger.PaidTimeConserved` | src/saas/billing/lifecycle.ts:14-20 | without refunds the period end is the maximum over the k granted payments of the time applied plus the months from it on, whatever comes between |
| `BillingInvariants.ReachableWellFormed` | src/saas/billing/lifecycle.ts:17-34 | in every reachable state ACTIVE means PRO with no retries and no grace, PRO means ACTIVE or PAST_DUE, PAST_DUE has a grace end, and a grace end is the period end plus the grace days |
| `BillingInvariants.ProUntil` | src/saas/entitlements/service.ts:6-7 | in every reachable state an organization has PRO exactly until its grace end, or its period end when there is none |
| `BillingInvariants.SweepIsNeutral` | src/saas/billing/renewals.ts:55-56 | the expiry sweep never changes the plan reported, at that moment or later |
| `BillingInvariants.DunningRun` | src/saas/billing/lifecycle.ts:21-28 | while a renewal is neither settled nor cancelled its period stands still and its retry count moves only with recorded failures, within the schedule |
| `BillingInvariants.DunningIsBounded` | src/saas/billing/renewals.ts:19-44 | from an ACTIVE subscription at most len(schedule)+1 distinct renewal keys are claimed before a success or cancellation |
| `BillingInvariants.KeyIsStable` | src/saas/billing/renewals.ts:30-44 | until a failure is recorded every claim reuses the same key, whatever errors and re-claims come between |
| `BillingCharges.StepEarly` | src/saas/billing/renewals.ts:19-44 | after any step the next attempt is due within the paid period exactly when the step moved it there, or it was there and the step left it |
| `BillingCharges.ChargedEarlyExactlyWhen` | src/saas/billing/lifecycle.ts:14-28 | in every reachable state a subscription can be charged before its paid period ends exactly when it renews itself and an abandonment or failure moved the next attempt into that period |
| `BillingCharges.EarlyAfterFailure` | src/saas/billing/lifecycle.ts:22-28 | a failure moves it there exactly when the card is not revoked and the scheduled retry falls before both the period end and the grace deadline |
| `BillingCharges.NoEarlyCharge` | src/saas/billing/lifecycle.ts:15-20 | otherwise every claim comes at or after the end of the period |
| `BillingCharges.EarlyChargeHasCause` | src/saas/billing/renewals.ts:40-43 | an early charge goes back to an abandoned renewal or a recorded failure since the last paid period, for an ACTIVE subscription to an abandoned renewal |
| `BillingCharges.AbandonedIsChargedEarly` | src/saas/billing/renewals.ts:40-43 | a run in which a claimed renewal fails after the customer paid by hand, and the ACTIVE subscription is due one hour later at the beginning of its paid period |
| `BillingCharges.LateFailureIsChargedEarly` | src/saas/billing/lifecycle.ts:21-28 | a run in which the late refusal of an earlier attempt makes a subscription that was paid by hand PAST_DUE and due again |
| `BillingInvariants.FailureKeepsProUntilRetry` | src/saas/billing/lifecycle.ts:22-28 | a failure of a PRO renewal either ends PRO at once with no further attempt, or keeps it until after the next attempt, which falls within the grace period |
| `BillingInvariants.CancelStopsCharges` | src/saas/billing/router.ts:87-91 | after a cancellation no run claims another charge until the customer resumes or pays |
| `BillingInvariants.ReachableOneLiveRefund` | src/saas/admin/router.ts:98-108 | if the provider's canceled is final, each payment has at most one live refund in every reachable state |
| `BillingInvariants.OlderRefundKeepsPeriod` | docs/billing-lifecycle.md:20-22 | refunding a payment other than the last leaves the subscription unchanged |
| `BillingInvariants.FullRefundEndsPro` | docs/billing-lifecycle.md:20-21 | a full refund of the last payment ends PRO at once, and over every later run only another paid period brings it back |
| `TradingMath.BuyBackOrderAmount` | src/trading-service/trading-math.ts:46-62 | an averaging order is empty or positive and paid for by the available balance |
| `TradingMath.ShareSize` | src/trading-service/trading-math.ts:55-61 | as a share of the balance it is that share, and placed exactly if the share is positive and at most the whole |
| `TradingMath.MultipleSize` | src/trading-service/trading-math.ts:55-61 | as a multiple it is the position size times the step, and placed exactly if positive and paid for |
| `TradingMath.AveragingStopsAtLoss` | src/trading-service/trading-math.ts:18-44 | deep enough for step n but above the stop-loss implies n times the step is below the stop-loss |
| `AveragingDown.Strategy.WatchingProcess` | src/trading-service/abstract.trading.ts:291-435 | the loop over any ticks has the specified result, and its step counter equals the length of the order list |
| `AveragingDown.Strategy.Judge` | src/trading-service/abstract.trading.ts:299-415 | one pass takes the specified branch: error, emergency, stop-loss, profit, tracking, averaging or waiting |
| `AveragingDown.Strategy.TryProfit` | src/trading-service/TradingVectorProfitService/TradingVectorProfitService.ts:36-64 | the take-profit logic, with the price tracker or without, has the specified outcome |
| `AveragingDown.OpensOnlyAboveStopLoss` | src/trading-service/abstract.trading.ts:380-435 | an entry is opened only while entries times step is below the stop-loss, on the position's side, with money available |
| `AveragingDown.ClosesByShareOfInvestment` | src/trading-service/abstract.trading.ts:309-435 | an emergency stop always closes; otherwise the stop-loss closes exactly when the summed loss of the entries reaches its share of their cost; otherwise profit is taken exactly when the summed gain reaches its share, the close makes an order and the tracker, if used, hits its stop; otherwise an entry of the stated size is opened exactly when the loss reaches the step times the number of steps and it can be paid |
| `AveragingDown.VerdictsSpelledOut` | src/trading-service/abstract.trading.ts:340-430 | what each branch of a pass does to the order list, the amount and the step |
| `AveragingDown.FailsOnBadInput` | src/trading-service/trading-math.ts:9-44 | a pass without side, positive price, step or counter fails and changes nothing |
| `AveragingDown.WatchedConcat` | src/trading-service/abstract.trading.ts:298-444 | the loop goes on from the state it reached, tick by tick |
| `AveragingDown.TrackerFollowsPosition` | src/trading-service/TradingVectorProfitService/TradingVectorProfitService.ts:44-47 | the tracker of a long position follows the highest price and sells, that of a short one the lowest and buys |
| `AveragingDown.RestartSpelledOut` | src/utils/OrdersOperationService/OrdersOperationService.ts:176-203 | what a restart resumes with |
| `AveragingDown.RunStaysBounded` | src/trading-service/abstract.trading.ts:291-435 | over every run with rounds, restarts and lost rows: stored entries are held and within the stop-loss, rows that look closed leave the whole list within it, and executed is at most stored plus lost |
| `AveragingDown.EntriesAreBounded` | src/worker.ts:38-40 | for every price path and any rounds, restarts and lost rows a session holds at most ⌈stop-loss / step⌉ entries, or else one more than the orders it began with; what it holds and what it has executed are at most ⌈stop-loss / step⌉ plus the rows lost |
| `AveragingDown.HeldWithinStopLoss` | src/utils/OrdersOperationService/OrdersOperationService.ts:176-203 | without a further round in the same process a session holds at most ⌈stop-loss / step⌉ entries, whatever rows are lost and however often it is resumed |
| `AveragingDown.AbandonedEntryStaysHeld` | src/worker.ts:38-40 | a concrete run in which an entry that was neither stored nor closed is still held when the next round enters again |
| `AveragingDown.LostRowIsPaidFor` | src/repository/repository/order.repository.ts:120-133 | a concrete run in which an entry whose row was not stored makes the session execute one entry more |
| `TrailingStop.TrackPrice` | src/trading-service/abstract.trading.ts:167-228 | selling, it closes only at a price one indent or more below the highest so far, and by the first price two indents below it; buying, the same above the lowest; until the price runs a whole indent either way the stop is where it was first set |
| `TrailingStop.MoveRestartsTracking` | src/trading-service/abstract.trading.ts:212-219 | a price that runs a whole indent ahead is the start of a new track at the same indent |
| `TrailingStop.AnchorTrailsPeak` | src/trading-service/abstract.trading.ts:175-219 | anchor ≤ running maximum < anchor + indent, for every price sequence |
| `TrailingStop.StopNeverRetreats` | src/trading-service/abstract.trading.ts:212-219 | the stop never moves back |
| `TrailingStop.MovesAreBounded` | src/trading-service/abstract.trading.ts:212-219 | the number of moves times the indent is at most maximum minus first price |
| `TrailingStop.ClosesBetweenIdealStops` | src/trading-service/abstract.trading.ts:202-210 | it closes only where an ideal stop at one indent would, and no later than an ideal stop at two indents |
| `PositionClosing.FirstSourceDecides` | src/utils/OrdersOperationService/OrdersOperationService.ts:322-337 | an order counts with what it executed exactly when the first source that names a positive amount says so: reported fill, amount reported closed, stored fill, stored amount; with zero exactly when none does |
| `PositionClosing.CloseIsExactWhen` | src/utils/OrdersOperationService/OrdersOperationService.ts:281-292 | a close acts on the actual fills exactly when for every order the deciding source is right |
| `PositionClosing.CloseMissesOverlooked` | src/utils/OrdersOperationService/OrdersOperationService.ts:281-292 | where the answers given are right, it is the actual exposure less that of the orders nobody vouches for; its fills are the actual ones exactly when there are none |
| `PositionClosing.FreshEntryIsOverlooked` | src/utils/OrdersOperationService/OrdersOperationService.ts:284-293 | for a fresh entry without an answer a close finds nothing to close, whatever was executed |
| `PositionClosing.WaitForExecution` | src/utils/OrdersOperationService/OrdersOperationService.ts:368-396 | the polling loop returns the first settling report of at most 60 polls and a last one after cancelling |
| `PositionClosing.SettledHasFill` | src/utils/OrdersOperationService/OrdersOperationService.ts:376-395 | only reports with a positive fill are returned, and an open one only after the last poll |
| `PositionClosing.DecidedByFirst` | src/utils/OrdersOperationService/OrdersOperationService.ts:376-395 | the first deciding poll, or the last, is returned if it shows a fill, canceled and expired orders included, and otherwise the wait fails |
| `PositionClosing.RowSpelledOut` | src/utils/OrdersOperationService/OrdersOperationService.ts:307-317 | the row records the average price, else the order's, else the one asked for, and the executed amount |
| `PositionClosing.OrdersService.OpenPosition` | src/utils/OrdersOperationService/OrdersOperationService.ts:339-366 | an entry is held only if something was executed, and recorded unless its row is lost; recorded amounts stay positive |
| `PositionClosing.OrdersService.CloseFilledPosition` | src/utils/OrdersOperationService/OrdersOperationService.ts:277-320 | one reverse order for the resolved net exposure is submitted, or none; what executes is held, and recorded with a positive amount unless its row is lost |
| `PositionClosing.SecondClose` | src/utils/OrdersOperationService/OrdersOperationService.ts:277-320 | after a full execution a second close in the same process submits nothing if the exchange answers for the closing order, and otherwise the whole amount again |
| `PositionClosing.SecondCloseAfterRestart` | src/repository/repository/order.repository.ts:120-133 | after a full execution and a restart a second close submits nothing exactly when the closing row was stored, and otherwise the whole amount again |
| `PositionClosing.FullFillCloses` | src/utils/OrdersOperationService/position-exposure.ts:13-26 | where rows and exchange agree, a full execution leaves no exposure, nothing to submit, and rows that restart recognises as closed |
| `PositionClosing.RecognisedExactlyWhen` | src/utils/SessionTrading/session-reconciliation.ts:8-19 | after any execution of the closing order the stored rows count as closed exactly when they show both sides and their difference from the exchange's fills plus what is left is within the tolerance |
| `PositionClosing.FullFillRecognisedExactlyWhen` | src/utils/SessionTrading/session-reconciliation.ts:8-19 | after a full execution: exactly when they show both sides and differ from the exchange's fills by no more than the tolerance |
| `PositionClosing.LateFillIsNotRecognised` | src/utils/OrdersOperationService/OrdersOperationService.ts:391-395 | an entry stored with a partial fill that grew later: the close executes in full and the rows are not recognised |
| `PositionClosing.ClosedExactlyWhen` | src/utils/SessionTrading/session-reconciliation.ts:8-19 | where rows and exchange agree, for any fill f of a close of c: nothing more to submit iff f is within EPSILON of c; recognised iff within the tolerance |
| `PositionClosing.SilentCloseIsRecognised` | src/utils/SessionTrading/session-reconciliation.ts:8-19 | two-sided rows that a close would leave alone are recognised as closed |
| `PositionClosing.RecognisedThoughExposed` | src/utils/SessionTrading/session-reconciliation.ts:17-18 | rows recognised as closed for which a close would still submit an order |
| `PositionClosing.NeverClosed` | src/utils/SessionTrading/session-reconciliation.ts:9-10 | one side alone, or an amount that is not positive, never counts as closed |
| `SessionProfit.GainIsAggregate` | src/repository/repository/order.repository.ts:36-48 | the aggregate formula is the sum of the single orders' gains at the closing price |
| `SessionProfit.ProfitOfOneSidedEntries` | src/repository/repository/order.repository.ts:12-53 | for one-sided entries the recorded profit, closing row included, is the sum over entries and the profit from the weighted average price |
| `SessionProfit.ProfitAgainstWorth` | src/repository/repository/order.repository.ts:36-48 | for any rows the formula exceeds their worth at the closing price by twice the gain of the closing-side rows |
| `SessionProfit.ProfitIsCashExactlyWhen` | src/repository/repository/order.repository.ts:17-18 | after a full close the recorded profit is the cash brought in iff the closing-side rows show no gain |
| `SessionProfit.OneCloseIsCash` | src/repository/repository/order.repository.ts:17-18 | a session closed by one order for the whole amount is recorded with the cash it brought in |
| `SessionProfit.TwoClosesAreMisreported` | src/repository/repository/order.repository.ts:36-48 | a concrete session closed in two orders that brought in 3 and is recorded with 1 |
| `SessionRecovery.SessionTables.EndTradeSession` | src/trading-service/abstract.trading.ts:475-490 | balance, session row and order rows are written in that order, or nothing when the closing row is missing |
| `SessionRecovery.SessionTables.InitTradeSession` | src/utils/SessionTrading/SessionTradingService.ts:38-67 | a start resumes an open session, completes a closed one, ends an empty one, and otherwise begins a new one |
| `SessionRecovery.SessionTables.SaveBalanceState` | src/utils/SessionTrading/SessionTradingService.ts:79-118 | the first save starts the running profit at zero, a later one adds the profit of a long session |
| `SessionRecovery.ProfitAtEnd` | src/utils/SessionTrading/SessionTradingService.ts:69-77 | the profit depends on the stored rows alone, so crashed and recovering runs compute the same |
| `SessionRecovery.OnlyActiveCount` | src/repository/repository/order.repository.ts:43-47 | only active rows count towards the profit |
| `SessionRecovery.EmptySessionEnds` | src/utils/SessionTrading/SessionTradingService.ts:54-58 | an active session without rows is ended with profit zero and a new one begun |
| `SessionRecovery.CrashesLeave` | src/utils/SessionTrading/SessionTradingService.ts:131-144 | the database after any sequence of crashes: how often the balance was saved, whether the session row was ended and with which profit |
| `SessionRecovery.RecoveryEndsSession` | src/utils/SessionTrading/SessionTradingService.ts:38-67 | after any sequence of crashes the first uninterrupted start begins a new session, ends the old one and touches no other; the profit is the undisturbed one iff the ending run wrote the session row or the sale delta is zero |
| `SessionRecovery.RecoveryCountsProfitOnce` | src/utils/SessionTrading/SessionTradingService.ts:131-144 | the running profit after any sequence of crashes as a function of the completed balance writes; it is the undisturbed one exactly when the session was short, its profit is zero or one run saved the balance |
| `SessionRecovery.CrashLosesDelta` | src/trading-service/abstract.trading.ts:447-484 | a short session that averaged once is recorded with 5 instead of 5.1: its sale delta is lost |
| `SessionRecovery.CrashesRepeatProfit` | src/trading-service/abstract.trading.ts:482-484 | n crashes behind the balance write put the profit of 2 into the total n + 1 times |
| `SessionRecovery.RestartAfterClose` | src/utils/SessionTrading/SessionTradingService.ts:60-66 | from the orders' resolved exposure, the executed closing order and the stored rows, exactly when a restart begins a new session and when it resumes the old one, with the closing row stored or lost |
| `SessionRecovery.RecognisedIsAboutToEnd` | src/utils/SessionTrading/SessionTradingService.ts:60-64 | the rows recognised after the close are exactly those that recovery completes |
| `BotCommands.CommandTables.Submit` | src/saas/trading/bots.router.ts:78-87 | only an accepted command changes queue, counter or bot; it leaves the bot STOPPED and stopping after STOP and EMERGENCY_STOP, RUNNING and starting after START and RESTART, and counts the latter two |
| `BotCommands.DecisionsSpelledOut` | src/saas/trading/bots.router.ts:78-87 | exactly when each answer is given |
| `BotCommands.DeletionAccepted` | src/saas/trading/bots.router.ts:44-66 | exactly when a deletion is accepted, and what it writes |
| `BotCommands.ClaimsOldest` | src/saas/worker.ts:356-365 | a free leader claims the oldest pending command and no other |
| `BotCommands.LeaderWrites` | src/saas/worker.ts:367-385 | what is written when a command is carried out, succeeds or fails |
| `BotCommands.ChildStops` | src/worker.ts:49-72 | a child closes its position at the first stop it is sent and at no suspension |
| `BotCommands.CommandTables.ConsumeBotCommand` | src/saas/entitlements/service.ts:20-24 | the counter grows by one within the plan's limit and is unchanged when the plan or limit refuses |
| `BotCommands.MeteringIsExact` | src/saas/entitlements/service.ts:20-24 | in every reachable state the month's counter equals the START and RESTART commands accepted and is within the PRO limit |
| `BotCommands.ReachableInOrder` | src/saas/worker.ts:356-365 | whatever is pending is younger than everything claimed, across crashes and failovers |
| `BotCommands.ClaimedAtMostOnce` | src/saas/worker.ts:356-385 | no command is claimed twice, and claims follow the order of creation |
| `BotSupervision.DesiredIsNewestTarget` | src/saas/worker.ts:367-385 | if the newest command of a bot succeeded, or failed after its write, the desired state is its target |
| `BotSupervision.DesiredByKind` | src/saas/worker.ts:369-371 | then it is STOPPED exactly after STOP, EMERGENCY_STOP and DELETE |
| `BotSupervision.DesiredExactlyUnlessOvertaken` | src/saas/worker.ts:367-385 | in every reachable state the desired state is the newest command's target exactly unless an older command with another target was carried out after it and its own write never happened |
| `BotSupervision.DesiredDiffersOnlyOnFailure` | src/saas/worker.ts:367-385 | when no command of a bot is pending or in execution, its desired state differs from the newest command's target only if that command is FAILED |
| `BotSupervision.LostWrite` | src/saas/worker.ts:371-383 | a run from two accepted commands in which a STOP whose first query fails leaves the bot wanted running |
| `BotSupervision.PositionsCloseOnlyInEmergency` | src/worker.ts:49-72 | in every reachable state a child closed its position at most once, and only after an EMERGENCY_STOP for its bot was claimed |
| `Seats.Workspace.SeatFree` | src/saas/entitlements/service.ts:15-18 | a seat is free exactly when members plus live invitations are below the plan's limit |
| `Seats.Workspace.InviteMember` | src/saas/organizations/router.ts:45-54 | an invitation is stored exactly when the address is no member and has a live invitation or a free seat |
| `Seats.Workspace.AcceptInvitation` | src/saas/organizations/router.ts:56-62 | accepting succeeds exactly for a live invitation with the right token, and turns it into a membership |
| `Seats.InviteTakesOneSeat` | src/saas/organizations/router.ts:47-51 | an invitation takes one seat, or none when it renews a live one |
| `Seats.AcceptTakesNoSeat` | src/saas/organizations/router.ts:56-62 | accepting never raises the seats taken |
| `Seats.LeavingRows` | src/saas/organizations/router.ts:37-40 | removal ends a membership other than the owner's, revocation an invitation not yet accepted |
| `Seats.RaisesOnlyWithinQuota` | src/saas/entitlements/service.ts:15-18 | any step that raises the seats taken leaves them within the current plan's limit |
| `Seats.SeatsAreBounded` | src/saas/organizations/router.ts:37-64 | in every reachable state, through plan changes, seats stay within the largest plan's limit |
| `RefreshTokens.TokenTable.SaveRefresh` | src/saas/auth/router.ts:68-74 | a login opens a family with one live token |
| `RefreshTokens.TokenTable.Rotate` | src/saas/auth/router.ts:163-201 | a token is exchanged exactly if it is stored, unrevoked, not expired and its holder an active member; the new one has its user, organization and family and lives one lifetime; reuse revokes the family; nothing else changes the table |
| `RefreshTokens.FamiliesGrowByUse` | src/saas/auth/router.ts:163-193 | a token joins a known family only by a refresh that presents a usable token of it |
| `RefreshTokens.ReachableFamiliesGrowByUse` | src/saas/auth/router.ts:163-193 | so in every reachable state |
| `RefreshTokens.RevocationsReach` | src/saas/organizations/router.ts:33-38 | administrative revocations reach exactly the tokens they name |
| `RefreshTokens.TokenTable.LogOut` | src/saas/auth/router.ts:203-213 | logging out revokes the presented token and keeps an earlier revocation time |
| `RefreshTokens.FamiliesAreLinear` | src/saas/auth/router.ts:163-213 | in every reachable state a family has at most one unrevoked token, its newest, and replacement links form a chain without forks |
| `RefreshTokens.ReuseKills` | src/saas/auth/router.ts:163-201 | presenting a revoked token revokes the whole family |
| `RefreshTokens.ReuseIsFinal` | src/saas/auth/router.ts:163-201 | after that no step whatever makes a token of the family usable |
| `RateLimiter.Limiter.Handle` | src/saas/http/rate-limit.ts:11-31 | a request is counted in its window after a due cleanup and admitted exactly while the count is within the limit |
| `RateLimiter.Limiter.Cleanup` | src/saas/http/rate-limit.ts:15 | the deletion loop keeps exactly the windows that have not run out |
| `RateLimiter.LazyAgrees` | src/saas/http/rate-limit.ts:13-21 | what the cleaned map still stores is what an uncleaned one stores, and what it dropped has run out |
| `RateLimiter.CleaningIsInvisible` | src/saas/http/rate-limit.ts:8-32 | on every trace the limiter decides as one that never deletes |
| `RateLimiter.WindowCounts` | src/saas/http/rate-limit.ts:18-29 | the current window has admitted its count up to the limit, and the stretch of a window before it at most the limit |
| `RateLimiter.AtMostTwiceTheLimit` | src/saas/http/rate-limit.ts:8-32 | no interval of one window length admits more than twice the limit for a key |

## Left out

- Checker keywords that are not compared (oneOf, anyOf, allOf, const, format, exclusiveMinimum, schema-valued additionalProperties), type arrays and boolean schemas: outside the model of a schema.
- Recursive schema graphs in comparisons: `compareSchema` does not terminate on them; resolution alone is modelled on them.
- Checker details: the order of issues, messages as text, key order in stringified enum values, inherited names seen by `name in newProperties`, the extraction and writing of snapshots. A reference that leads nowhere constrains nothing.
- Floating point: quantities are reals, the tolerances are kept as constants; NaN and infinite values appear only as missing numbers.
- PostgreSQL below the transaction level: every transaction is atomic, hashes are injective, a calendar month is a fixed length.
- Billing environment: when a renewal is abandoned (after any step, not only after its claim), which payment is reconciled when (any known payment may be, at any time), the leader loop and its lock, receipts, the amount and metadata checks of webhooks, which only reject.
- BillingStore.Store.ReserveFullRefund: the reserved sum is modelled as the existence of a live refund, because all amounts are full and positive.
- Checkout, cancel, resume, an abandoned renewal, a closed workspace and the refund webhook are steps of `BillingModel.Next` without a method of their own: each is a single statement.
- Seats: an account is identified by its email address; roles, other resource quotas and email delivery are not modelled.
- Bot supervision: starting children, restarts with back-off, log buffers and file handling; at most one child per bot depends on scheduling and is not claimed; a deletion that fails after the bot row is gone is not modelled.
- BotCommands.ClaimedAtMostOnce: commands are ordered by creation, so equal creation times are not modelled.
- BotSupervision.DesiredExactlyUnlessOvertaken: a single leader executes commands at a time, which the advisory lock is relied on for.
- AveragingDown.Strategy.WatchingProcess: sale deltas, logging and the grid logic are not modelled; prices read by a tracker that has not closed yet end the observation.
- AveragingDown.EntriesAreBounded: rows are read back in the order of insertion, and a closing row is on the other side than the entries; fills that the exchange made and the process never learned of are not counted.
- TrailingStop.TrackPrice: ends with the price that hits the stop; the close it then asks for is modelled in `PositionClosing`.
- PositionClosing.OrdersService.CloseFilledPosition: a position is not claimed to be flat after a partial fill.
- SessionRecovery.SessionTables.InitTradeSession: one configuration; a start that crashes after it began a new session is the beginning of that session's own history; the total of all session profits in the balance row is not modelled.
- Grid strategies and order-checking services, which the live strategy does not use; the SDK generator, validators, encryption, JWT, email, metrics, compliance, retention and deployment scripts, which are input and output or wrap libraries.
