# Verified model of the order backend's money, stock and promise protocols

This project models the state machines of a food-order backend and proves what they keep over every run: the final
card charge, the incoming stock ledger, the fulfillment calendar and its signed selections, the packing planner with
its publication gate, shipping prices and catch-weight totals, institutional receivables and credit, order promises,
and the retention of delivery evidence.

`dafny verify dfyconfig.toml` checks everything. Shared lists, sums, sorting and text helpers are in `Base`,
`Permutations`, `RealSums`, `Sums`, `Sorting` and `Text`; the rest is one group of modules per subject.

* **Final charge** (`ChargeModel`, `ChargeSafety`, `ChargeTheorems`, `ChargeDoubleCharge`, `ChargeDesk`). Any number of
  callers race to charge one packed order. Each locked transaction and each unlocked read or write is an event of its
  own; callers stall and die anywhere, leases expire, staff edit the order, order metadata may be overwritten by an
  older copy, and Stripe settles intents on its own. Stripe is assumed to keep one fixed intent per idempotency key
  and never to pay a card-declined intent later. The write of the intent id at `final-charge-execution.ts:403` carries
  no claim token; the run theorems are stated for runs in which it happens only under `IntentWriteGuard` (the caller's
  row is the newest, or the finalization does not name the newest row). `IntentWriteSafeIff` shows that guard to be
  exactly what keeps the invariant, and `DoubleCharge` is a concrete run without it that charges one order twice.
  `ChargeDesk` is the imperative code: the claim and settle transactions, and one caller's whole run, proved to take
  exactly steps of the protocol and to release the order exactly when it is paid and the release can be recorded.
* **Incoming stock** (`Stock`, `StockLaws`, `StockCommands`, `StockDesk`). Batches, demands, commitments and the request
  log, changed by idempotent commands; rows are named by position, random ids by an arbitrary order `rank`.
* **Calendar** (`Clock`, `Calendar`, `CalendarLaws`, `CalendarPromises`, `CalendarGap`). Dates are day numbers, instants milliseconds, and
  Eastern time is an offset function of which only three facts are assumed (`Clock.Eastern`): it is four or five hours
  behind UTC, its changes are more than an hour apart, and the civil date never runs backwards. A token does not always
  outlive the calendar it came from: `TokenHolds` gives the exact condition, and `TokenTurnedAway` a token refused
  before it expires, when midnight brings a date into sight whose cutoff falls in the skipped spring hour.
* **Packing** (`PackingPolicy`, `PackingPolicyLaws`, `PublicationPromises`, `Packing`, `PackingLaws`, `PlanPromises`).
  Weights and fit units are exact reals; the planner's 1e-9 tolerance is explicit.
* **From calendar to packing** (`PackingHandover`, `PackingRefusal`). A calendar choice states its packing exposure in
  hours to four decimals, and packing holds that figure against the choice's own instants to a millionth of an hour.
  `ShownSelects` shows the two to agree exactly when the exposure is a positive multiple of three minutes: a choice off
  that grid can be shown and signed, but is never packed (`OffGridIsNeverPacked`), and `ShownThenRefused` is one.
* **Prices and totals** (`ShippingPrice`, `ShippingPromises`, `FinalTotals`). Money is whole cents.
* **Institutional accounts** (`Collections`, `CollectionPromises`, `Exposure`, `ExposureLaws`, `ExposurePromises`). The
  event reducer, and credit reservations under an account's lock.
* **Order promises** (`OrderPromise`, `OrderPromiseLaws`, `AcceptancePromises`) and **evidence** (`EvidenceSweep`,
  `EvidencePromises`).

The modules named for promises, with `StockCommands`, say what each operation needs and leaves in terms of the stored
rows' own fields, apart from the functions that compute it, and prove the two to agree for all inputs.

Hashes and signatures are injective: a digest stands for its content, a sealed token for what was sealed.

## Model

| member | source | states |
|---|---|---|
| ChargeTheorems.AtMostOneCharge | src/lib/final-charge-execution.ts:249-411 | over every guarded interleaving of any number of callers, with crashes, stalls and expired leases, at most one PaymentIntent of a finalization succeeds, and it is the newest attempt's |
| ChargeTheorems.StepKeepsInv | src/lib/final-charge-execution.ts:110-731 | every event, taken in any state of the invariant under the line 403 guard, leads to a state of the invariant |
| ChargeTheorems.OlderKeysDeclined | src/lib/catch-weight-finalization.ts:2727-2794 | an intent under any key but the newest attempt's is terminally card-declined |
| ChargeTheorems.AttemptList | src/lib/catch-weight-finalization.ts:2590-2618 | the i-th attempt row carries decline generation i, and all rows but the last are confirmed declines of their own intent |
| ChargeTheorems.RunHistory | src/lib/catch-weight-finalization.ts:2834-2846 | over any run confirmed declines never change, a success is never downgraded, rows keep their terms and key, and nothing is added after a success |
| ChargeTheorems.StepHistory | src/lib/catch-weight-finalization.ts:2746-2794 | a row is added only behind a confirmed decline, and its key has never been sent to Stripe |
| ChargeTheorems.OneKeyOneCharge | src/lib/final-charge-execution.ts:283-292 | every create call issued under one key carries the same amount, currency, customer and card |
| ChargeTheorems.ReleasedMeansPaid | src/lib/final-charge-execution.ts:448-507 | a finalization or order says charged only when the newest attempt's intent has succeeded |
| ChargeTheorems.IntentWriteSafeIff | src/lib/final-charge-execution.ts:403-411 | the unguarded write of the intent id keeps the invariant if and only if the caller's row is the newest or the finalization does not name the newest row |
| ChargeTheorems.ClaimLaw | src/lib/catch-weight-finalization.ts:2680-2790 | the claim is refused exactly while another caller's work on the newest row is younger than its lease, by that row's status and times; what it opens or takes over is given field by field |
| ChargeTheorems.OpensNext | src/lib/catch-weight-finalization.ts:2746-2794 | on any table an opened row is numbered one behind the highest and its generation is the number of distinct generations finally declined |
| ChargeDoubleCharge.DoubleCharge | src/lib/final-charge-execution.ts:304-320 | a run that breaks that guard: two intents of one order succeed |
| ChargeSafety.AdoptsOwnIntent | src/lib/final-charge-execution.ts:293-320 | the adoption rule only ever picks up the claimed row's own intent |
| ChargeSafety.GenerationsCounted | src/lib/catch-weight-finalization.ts:2748-2760 | the number of distinct declined keys is the number of rows, so the next generation is a fresh one |
| ChargeSafety.SettledLedger | src/lib/catch-weight-finalization.ts:2798-2872 | a settlement backed by Stripe's word keeps the attempt table sound |
| ChargeDesk.KeysOfGenerationsDiffer | src/lib/catch-weight-finalization.ts:2590-2598 | two decline generations of one finalization never share an idempotency key |
| ChargeDesk.Desk.ClaimFinalChargeAttempt | src/lib/catch-weight-finalization.ts:2642-2795 | a claim is refused if and only if the newest row is freshly held, on its own times and the lease; otherwise it opens a row behind none or a final decline, or takes the newest over, and each field left is given |
| ChargeDesk.Desk.SettleFinalChargeAttempt | src/lib/catch-weight-finalization.ts:2798-2872 | settling changes only the claimed row, only under its claim token, never downgrades a success, and leaves in each field what is newly known or what was |
| ChargeDesk.Desk.RunFinalChargeAndRelease | src/lib/final-charge-execution.ts:110-731 | one caller's run is a guarded sequence of protocol events; it is rejected, in progress or linked exactly by status and claim; a linked run is charged if and only if Stripe answered, the row's own intent has succeeded and booking does not fail, a recording failure if and only if it is paid and booking fails, in progress exactly when a settled success gets no answer, and a failed charge otherwise; the records left are given |
| ChargeDesk.Desk.RecordFailure | src/lib/final-charge-execution.ts:587-692 | the failure path settles, then holds both records, and reports a recording failure exactly when the payment had succeeded |
| ChargeDesk.Desk.RecordSuccess | src/lib/final-charge-execution.ts:450-507 | a succeeded intent is settled before goods are released, and a lost claim releases nothing |
| StockLaws.UnflaggedPromiseIsCovered | src/lib/incoming-stock.ts:194-222 | after any stream of commands, an open promise without an exception has a confirmed or received batch, usable by its deadline, that holds at least everything committed from it |
| StockLaws.RunKeepsInv | src/lib/incoming-stock.ts:260-289 | every stream of commands keeps promises covered or flagged, and an exception once set is never cleared |
| StockLaws.QuantitiesBalance | src/lib/incoming-stock.ts:455-492 | each demand's remaining quantity is the sum of its commitments' |
| StockLaws.ReleaseReconciles | src/lib/incoming-stock.ts:422-494 | a release fails if and only if it asks for more than remains: the reconcile error cannot happen |
| StockLaws.PreviewAgreesWithReserve | src/lib/incoming-stock.ts:324-416 | a reservation succeeds if and only if the preview shows enough, and lowers that preview by exactly the units reserved |
| StockLaws.SupplyLaw | src/lib/incoming-stock.ts:294-321 | the supply list is exactly the confirmed batches of the identity usable in time, each once, earliest first |
| StockLaws.EarliestFirst | src/lib/incoming-stock.ts:383-416 | a batch is used only when every earlier one has given all it had |
| StockLaws.LargestIdFirst | src/lib/incoming-stock.ts:455-480 | a release empties the demand's open rows of larger id before it touches a smaller one |
| StockLaws.FullReleaseRestores | src/lib/incoming-stock.ts:422-494 | releasing everything just reserved restores every batch's committed total and every other demand |
| StockLaws.ExactlyOnce | src/lib/incoming-stock.ts:76-120 | a stream with retries ends in the state of its first successes; no request id takes effect twice, and what was logged never changes |
| StockLaws.ReplayOrRefuse | src/lib/incoming-stock.ts:76-120 | a replay returns the stored result; a reused id with other data, or any failure, changes nothing |
| StockLaws.ChangedBatchLaw | src/lib/incoming-stock.ts:224-292 | rewriting a batch and flagging what it no longer covers keeps every promise covered or flagged |
| StockCommands.CreateIff | src/lib/incoming-stock.ts:122-185 | a batch is created exactly when its variant is on order under no other identity and its source reference is new, with the command's own quantity as expected and nothing confirmed |
| StockCommands.BatchCommandIff | src/lib/incoming-stock.ts:224-292 | a confirmation, revision, cancellation or receipt succeeds exactly when the revision is current and the status is the one it needs; the batch then holds the command's own quantity, time and next revision, the demands it no longer covers are flagged for the right reason and listed, and every other batch, the commitments and other receipts are unchanged |
| StockCommands.ReserveIff | src/lib/incoming-stock.ts:340-419 | a reservation succeeds exactly for a new demand of a matching identity within what the usable batches offer, and adds that demand and commitments that sum to it |
| StockCommands.ReleaseIff | src/lib/incoming-stock.ts:422-494 | a release succeeds exactly within what remains, and takes that many units off the demand and its commitments and nothing else |
| StockCommands.PreviewIsOffers | src/lib/incoming-stock.ts:324-338 | the preview is the sum over the confirmed batches of the identity usable in time of confirmed less open, none from a batch with a flagged promise |
| StockCommands.ConfirmRaisesPreview | src/lib/incoming-stock.ts:260-289 | over any run, confirming q units usable at a time raises the identity's preview by exactly q for every deadline from that time on and by nothing for an earlier one or another identity |
| StockCommands.ExecuteLaw | src/lib/incoming-stock.ts:76-120 | a request out of order is invalid and changes nothing; a known id is answered from the log or refused; a new one does exactly what its command does and is logged when it succeeds |
| StockDesk.Desk.AffectedDemands | src/lib/incoming-stock.ts:194-222 | the flagging loop leaves exactly the demands the specification flags |
| StockDesk.Desk.SupplyRows | src/lib/incoming-stock.ts:294-321 | the query and its loop give the specified supply list, and beside each batch exactly what it has available |
| StockDesk.Desk.ReserveIncomingStock | src/lib/incoming-stock.ts:340-419 | the reserving loop leaves the tables and returns the receipt of the specified reservation, or changes nothing |
| StockDesk.Desk.ReleaseIncomingStock | src/lib/incoming-stock.ts:422-494 | the releasing loop leaves the tables and returns the receipt of the specified release, or changes nothing |
| StockDesk.Desk.StageIncomingReceipt | src/lib/incoming-stock.ts:497-572 | staging a receipt leaves the specified tables, or changes nothing |
| StockDesk.Desk.Submit | src/lib/incoming-stock.ts:76-120 | a command under its request id leaves the specified state: replay, refusal or one change |
| Clock.EasternInstant | src/lib/fulfillment-calendar.ts:217-238 | the offset search finds the earliest of all instants that show the local time, and none exactly when no instant does |
| Clock.AdvanceExact | src/lib/fulfillment-calendar.ts:258-272 | the search returns a date if and only if it is open, within 365 days, with exactly the asked number of open dates passed |
| Clock.AdvanceBack | src/lib/fulfillment-calendar.ts:258-272 | stepping back the same number of open dates returns to an open start |
| Clock.AdvanceOpenDate | src/lib/fulfillment-calendar.ts:258-272 | the loop computes the specified search |
| Clock.BeforeMidnight | src/lib/fulfillment-calendar.ts:298-305 | every instant before the expiry computed for the day after coverage still falls on a covered date |
| Calendar.ComputeFulfillmentCalendar | src/lib/fulfillment-calendar.ts:274-487 | the loops over days and windows compute the specified calendar, errors included |
| CalendarPromises.ExactlyThePromises | src/lib/fulfillment-calendar.ts:274-483 | the calendar lists exactly the choices that keep the policy's own lists: coverage, weekdays and blackouts of plant and carrier counted day by day, the carrier's dates and hold rule, preparation, cutoff, horizon, exposure and rounding, on each of the four routes |
| CalendarPromises.ChoicesInOrder | src/lib/fulfillment-calendar.ts:345-483 | choices come in order of their dispatch date from today on, and none twice |
| CalendarPromises.CalendarAround | src/lib/fulfillment-calendar.ts:274-311 | an unknown mode, a malformed policy and one out of force are refused, each as such; an answered calendar carries its policy, request and time, the reason there is nothing to choose, and expires at the earliest of the policy's seconds, the end of its coverage and the carrier's answer |
| CalendarPromises.UnsoundIff | src/lib/fulfillment-calendar.ts:61-120 | a policy is malformed exactly when one of its own fields breaks its rule: ranges, weekdays, repeated rows or windows, reversed coverage |
| CalendarPromises.IssueIff | src/lib/fulfillment-calendar-selection.ts:85-126 | a token is issued for a calendar's choice of the arrival date and window asked, before its cutoff and the calendar's expiry, and seals that choice with the cart, request, policy and the earlier of the two times |
| CalendarPromises.ValidateIff | src/lib/fulfillment-calendar-selection.ts:127-202 | a token validates exactly when it has not expired, the cart, option, policy and request are unchanged, the calendar computed now still offers its choice, and its cutoff is ahead; anything changed is refused |
| CalendarLaws.QuoteStability | src/lib/fulfillment-calendar.ts:286-344 | at a later instant, with the same policy, request and carrier promise, the choices that arrive within the earlier horizon are exactly the earlier choices whose cutoff has not passed |
| CalendarLaws.RecomputesIff | src/lib/fulfillment-calendar.ts:219-256 | a calendar can be computed again later if and only if the policy still covers the date and no newly visible date needs a nonexistent local time |
| CalendarLaws.TokenHolds | src/lib/fulfillment-calendar-selection.ts:85-202 | a token issued for an unchanged cart validates at an instant before its expiry if and only if no newly visible date needs a nonexistent local time |
| CalendarGap.TokenTurnedAway | src/lib/fulfillment-calendar.ts:234-236 | a half-hour token refused after fifteen minutes: the exception the condition above shuts out |
| PackingPolicyLaws.BlocksNeverDecrease | src/lib/seasonal-packing-policy.ts:132-150 | for a parsed policy, longer exposure never selects fewer dry-ice blocks for a service and box |
| PackingPolicyLaws.SelectsShortest | src/lib/seasonal-packing-policy.ts:312-316 | the rule chosen is the shortest that lasts long enough, and none is chosen only when no rule does |
| PackingPolicyLaws.ParsedListOk | src/lib/seasonal-packing-policy.ts:68-179 | a successful parse gives sound, sorted, uncontradictory policies with distinct revisions and no overlap |
| PackingPolicyLaws.AtMostOneApplies | src/lib/seasonal-packing-policy.ts:166-178 | for a service and a span of dates at most one parsed policy applies |
| PackingPolicyLaws.SelectIff | src/lib/seasonal-packing-policy.ts:261-309 | selection returns a policy if and only if it covers the service, the whole span, and the delayed exposure and arrival |
| PackingPolicyLaws.PublishedOk | src/lib/seasonal-packing-policy.ts:182-248 | a passed gate leaves sound boxes of distinct tiers and, for every policy and service, a box that covers the longest exposure |
| PackingPolicyLaws.GateCoversRuntime | src/lib/seasonal-packing-policy.ts:233-246 | whatever shipment a published setting accepts finds a box that may travel the exposure and has weight room and fit room beside the minimum of ice and beside the blocks of the shortest lasting rule |
| PackingPolicy.ValidatePackingPublication | src/lib/seasonal-packing-policy.ts:182-248 | the gate, with its loop over a growing set of tiers, computes the verdict that `PublishIff` characterises |
| PackingPolicy.CheckBoxes | src/lib/seasonal-packing-policy.ts:202-232 | the box loop accepts exactly sound rows of distinct tiers |
| PackingPolicy.PeriodsOverlap | src/lib/seasonal-packing-policy.ts:169-178 | the pairwise loop finds an overlap exactly when there is one |
| PublicationPromises.ParseIff | src/lib/seasonal-packing-policy.ts:75-163 | a policy row is read exactly when it is complete, approved by now, within its limits, and its rules cover each allowed service for the longest exposure and rise by service and box |
| PublicationPromises.ParseReads | src/lib/seasonal-packing-policy.ts:148-162 | a policy read says what its row says: dates, limits, permissions, and exactly its rules |
| PublicationPromises.ListIff | src/lib/seasonal-packing-policy.ts:68-179 | a list is accepted exactly when its active rows, each as often as listed, are some, all sound, and no two of one revision or for one service on one day; the policies are those rows in order |
| PublicationPromises.RulesCheck | src/lib/seasonal-packing-policy.ts:134-147 | the group-by-group check of adjacent rules holds exactly when any two rules of a service and box step up together |
| PublicationPromises.PublishIff | src/lib/seasonal-packing-policy.ts:182-248 | a setting is published exactly when it is switched on and priced, its active policies approvable together, its active boxes sound and of distinct tiers, every rule has its box, and every policy and service a box with room beside the minimum of ice and beside its longest rule's blocks that may travel that long; what is in force says what those rows say |
| Packing.PackUnits | src/lib/shipping-packing-plan.ts:225-260 | the packing loop is first fit, and fails exactly as specified |
| Packing.CreateShippingPackingPlan | src/lib/shipping-packing-plan.ts:89-328 | the planner computes the plan or error that `PlanIff` characterises |
| PackingLaws.FirstFit | src/lib/shipping-packing-plan.ts:228-252 | a unit joins the first package it fits and no other, or opens a new one when it fits none |
| PackingLaws.PlanIsRight | src/lib/shipping-packing-plan.ts:193-285 | every plan packs each variant's units and the order's weight and fit exactly, keeps every package within the box, policy and carrier limits up to 1e-9, and no box that can hold every unit costs less |
| PackingLaws.BoxCountBound | src/lib/shipping-packing-plan.ts:198-260 | with n boxes, n at least 2, floor(n/2) is less than total weight over weight room plus total fit over fit room |
| PackingLaws.PlaceKeepsSound | src/lib/shipping-packing-plan.ts:228-259 | placing a unit keeps packages within room and no two of them mergeable |
| PackingLaws.PlanExists | src/lib/shipping-packing-plan.ts:269-288 | accepted inputs have a plan if and only if some published box can hold every unit on its own |
| PackingLaws.PublishedBoxHasRoom | src/lib/shipping-packing-plan.ts:170-210 | a load that passed publication and selection always finds a box with room, given its fit rule and a carrier cap above ice and tare |
| PlanPromises.PlanIff | src/lib/shipping-packing-plan.ts:89-328 | a plan is made exactly when the inputs are as asked, the setting is published with every box counted, a policy selects the shipment and some box can take the order; it then packs first fit, largest units first, in a box that no other beats on cost, count and name, and its ice and cost are those of its packages |
| PlanPromises.FittingIff | src/lib/shipping-packing-plan.ts:170-210 | each package's ice is the least amount that reaches the minimum and the blocks of the shortest lasting rule, and its room is exactly the product weight and fit that keep within every limit |
| PlanPromises.IceNeverDecreases | src/lib/shipping-packing-plan.ts:181 | longer exposure never means less ice by weight |
| PlanPromises.SelectsIff | src/lib/seasonal-packing-policy.ts:261-309 | a shipment is selected exactly by a listed policy for its service that covers its local dates, its stated hours, its exposure with delay and its delayed arrival |
| PlanPromises.RefusedRightly | src/lib/shipping-packing-plan.ts:96-168 | each refusal names a fault the inputs have |
| PackingHandover.ShownSelects | src/lib/seasonal-packing-policy.ts:261-309 | for a choice the calendar shows, selection reports an inconsistent exposure if and only if the exposure is not a positive multiple of three minutes; otherwise it returns a policy exactly when that policy covers the choice's own dates and exposure |
| PackingHandover.ShownDaysAgree | src/lib/shipping-packing-plan.ts:115-126 | the planner's check of stated hours against stated packing days refuses a calendar's choice only when it lasts no time at all |
| PackingHandover.OffGridIsNeverPacked | src/lib/fulfillment-calendar-selection.ts:239-259 | a shown choice whose exposure is off the three-minute grid gets no packing plan, whatever the order, setting and carrier limit |
| PackingHandover.ContextIff | src/lib/fulfillment-calendar-selection.ts:239-259 | a choice is handed to packing exactly when it is a carrier's shipment, with its own service, transit, instants, days and hours |
| PackingRefusal.ShownThenRefused | src/lib/fulfillment-calendar.ts:329-343 | a concrete choice of eighteen hours and twenty minutes: shown by the calendar, refused under every list of policies |
| ShippingPrice.QuoteAddsUp | src/lib/shipping-price-contract.ts:75-141 | a quote's total is its rate plus what packaging adds, within the policy's limit, and its adjustment is the rate over the carrier's freight |
| ShippingPrice.TokenReads | src/lib/shipping-price-contract.ts:230-273 | an unexpired token reads back to its quote, for the same cart, plan and policy in force, if and only if the policy is given with its limit in whole cents |
| ShippingPrice.TokenReadsUnderReadPolicy | src/lib/shipping-price-policy.ts:26-78 | under the policy as it is read, which rounds its limit to cents, a token reads back if and only if the limit does not round to nothing |
| ShippingPrice.FractionalLimitRefused | src/lib/shipping-price-contract.ts:245-273 | a concrete policy taken unrounded: it prices a quote, and a moment later refuses its token |
| ShippingPrice.CentsRoundTrip | src/lib/shipping-price-contract.ts:54-74 | cents survive the trip through dollars |
| ShippingPrice.AcceptedReads | src/lib/shipping-price-contract.ts:281-338 | an accepted price reads back on an order if and only if the order is its cart's, in its currency, and still shows the accepted shipping total, which is the quote less its discount; any other order is refused |
| ShippingPromises.ComposeIff | src/lib/shipping-price-contract.ts:75-141 | a price is composed exactly when the policy is in force, the plan is packed and its cents add up, and the quote is the one right for the rate, freight, packaging and limit, field by field |
| ShippingPromises.ReadIff | src/lib/shipping-price-contract.ts:245-273 | a token reads back exactly when it is bound to the cart, plan and items, unexpired within a quarter of an hour, under this very policy, and its quote is still right at its own rate and freight |
| ShippingPromises.IssueIff | src/lib/shipping-price-contract.ts:201-244 | a token is issued exactly for a cart that can be bound, and then lasts a quarter of an hour |
| ShippingPromises.AcceptIff | src/lib/shipping-price-contract.ts:281-320 | a price is accepted exactly when all amounts are whole cents, the totals still show the quote, and the ledger closes; what is accepted is given |
| FinalTotals.CalculateLine | src/lib/catch-weight-finalization.ts:2196-2335 | a removed line costs nothing and an unready one has no amount; a weighed per-pound line costs the nearest cent, halves up, of its weight times its price; a fixed line keeps its persisted amount unless its quantity changed or it is nothing for a worthwhile line, and else costs quantity times price; tax is the nearest cent at the estimated rate; the errors are exactly the line's faults, in the source's order |
| FinalTotals.CostsIff | src/lib/catch-weight-finalization.ts:2232-2303 | the amount computed for a line is the one amount its fields call for, branch by branch |
| FinalTotals.TaxedIff | src/lib/catch-weight-finalization.ts:2205-2312 | the tax is the nearest cent, halves up, of the subtotal at the estimated rate, and none on a line estimated at nothing |
| FinalTotals.PreviewTotals | src/lib/catch-weight-finalization.ts:2347-2465 | totals are given exactly when every line has an amount and, where packing problems are shown, nothing is wrong; they are the sums of the lines' amounts, with the tax estimated beside the lines, and shipping and discount from the accepted price or from what the estimate leaves |
| FinalTotals.DeltaIsLineChanges | src/lib/catch-weight-finalization.ts:2399-2465 | without an accepted price the order changes by the sum of its lines' subtotal and tax changes if and only if the lines' estimates account for the order's items and tax, apart from offsetting errors |
| FinalTotals.AcceptedPathAgrees | src/lib/catch-weight-finalization.ts:2437-2461 | the accepted-shipping total equals the plain one if and only if the order keeps what its cart had beside items and tax |
| FinalTotals.FrozenOrderDelta | src/lib/catch-weight-finalization.ts:2399-2465 | an order that keeps its cart's totals changes by its lines' changes on either path |
| FinalTotals.AsEstimatedCostsTheSame | src/lib/catch-weight-finalization.ts:2307-2465 | an order finished line by line as it was estimated costs exactly its cart's total, on the accepted-shipping path and on the plain one |
| FinalTotals.UnchangedLineKeepsTax | src/lib/catch-weight-finalization.ts:2307-2312 | a line finished as estimated is taxed as estimated |
| Collections.EveryStream | src/lib/gp-institutional-collections.ts:82-219 | over any event stream receipts plus credits never exceed the invoice, a held readback equals invoice minus applied, and a cancelled order is never invoiced |
| Collections.EffectKeepsMoney | src/lib/gp-institutional-collections.ts:96-212 | each accepted event keeps those three |
| Collections.QuarantineIsPermanent | src/lib/gp-institutional-collections.ts:53-94 | once quarantined, reasons are only added and no event moves money |
| Collections.DuplicateChangesNothing | src/lib/gp-institutional-collections.ts:87-93 | inserting a duplicate of any earlier event anywhere later changes nothing, malformed and conflicting events included |
| Collections.ConfirmationsCommute | src/lib/gp-institutional-collections.ts:131-192 | two confirmations with event ids, documents and requests of their own give the same state in either order, or quarantine in both |
| Collections.ViewIsHonest | src/lib/gp-institutional-collections.ts:221-242 | a verified balance equals the expected one, and paid in full means the whole invoice is applied with nothing pending |
| CollectionPromises.EffectIs | src/lib/gp-institutional-collections.ts:95-215 | each event is taken exactly when its own fields and the state allow it, and then changes exactly the fields it should |
| CollectionPromises.RefusedRightly | src/lib/gp-institutional-collections.ts:95-218 | a refused event is refused for a reason that is so |
| CollectionPromises.ApplyLeaves | src/lib/gp-institutional-collections.ts:82-219 | an event leaves the state marked, taken, noted or unchanged, by its id, its content and the reasons on record |
| CollectionPromises.ViewShows | src/lib/gp-institutional-collections.ts:221-242 | exactly one status holds of a state, and it and the amounts are the ones shown |
| Exposure.CalculateInstitutionalExposure | src/lib/gp-institutional-exposure.ts:42-115 | the two scanning loops compute the specified exposure or error |
| Exposure.Account.ReserveInstitutionalCredit | src/lib/gp-institutional-exposure.ts:142-206 | a reservation decides and stores as `ReserveRight` says, and an error undoes its refresh |
| ExposureLaws.CalculateIff | src/lib/gp-institutional-exposure.ts:42-115 | exposure is computed exactly for well-formed lists of safe total, and is the sum of the books and of what they do not show |
| ExposureLaws.OrderDoesNotMatter | src/lib/gp-institutional-exposure.ts:42-115 | in any order of the lists the cents and the quarantine reasons are the same |
| ExposureLaws.InvoiceReplacesCommitment | src/lib/gp-institutional-exposure.ts:73-90 | when the books show an order's invoice, its balance takes the commitment's place: no credit is counted twice |
| ExposureLaws.NewOrderWithinLimit | src/lib/gp-institutional-exposure.ts:162-205 | a new order is admitted only if exposure with it stays within the limit; otherwise the store is as it was |
| ExposureLaws.RunStaysWithinLimit | src/lib/gp-institutional-exposure.ts:162-205 | over any run against the same books and limit, exposure passes the limit or its start by no more than refreshes of stored orders raised it |
| ExposureLaws.RunKeepsOneRow | src/lib/gp-institutional-exposure.ts:199-203 | an order has at most one row after any run |
| ExposurePromises.ReserveRight | src/lib/gp-institutional-exposure.ts:142-206 | credit is reserved exactly when the account and order are named and valid, the order is storable, the books fresh and sound, nothing is in doubt and the exposure with the order is within the limit; otherwise it is held for the first reason that applies; a stored order takes the new amount even when held, a new one only when reserved |
| ExposurePromises.ExposureIff | src/lib/gp-institutional-exposure.ts:42-115 | exposure is computed exactly for lists without missing, repeated or shared ids and within range; it adds to the books every commitment they do not show that is still owed, with exactly the reasons to doubt it |
| OrderPromise.Tables.CreateOrderPromiseReview | src/lib/order-promise.ts:259-306 | a review is added, replayed or refused as specified |
| OrderPromise.Tables.AcceptOrderPromiseReview | src/lib/order-promise.ts:311-386 | an acceptance adds one snapshot and moves the cart's pointer to it, is replayed, or is refused, as specified |
| OrderPromise.Tables.BindOrderPromise | src/lib/order-promise.ts:463-524 | a binding is added once, replayed or refused as specified |
| OrderPromiseLaws.EveryRun | src/lib/order-promise.ts:325-386 | over every run a cart's revisions are 1 to k in order, its pointer names the highest, each review is accepted at most once, and stored evidence always verifies |
| OrderPromiseLaws.RunKeeps | src/lib/order-promise.ts:279-306 | tables only grow, and once a cart is placed nothing is added to it and its pointer stays |
| OrderPromiseLaws.OriginalNeverChanges | src/lib/order-promise.ts:527-551 | once an order's original promise can be read it reads the same after any run |
| OrderPromiseLaws.BoundReadsHighest | src/lib/order-promise.ts:463-551 | a bound order reads back, and reads the highest revision its cart ever had |
| OrderPromiseLaws.HashIgnoresOrder | src/lib/order-promise.ts:216-234 | two complete promises hash alike if and only if they differ at most in the order of lines and assignments |
| OrderPromiseLaws.RetryFindsTheSame | src/lib/order-promise.ts:325-334 | after any operations in between, a retried acceptance adds nothing, and returns the first one's snapshot if and only if the cart still points to it; otherwise it is superseded |
| AcceptancePromises.CompleteIff | src/lib/order-promise.ts:41-184 | the modelled schema holds exactly of promises with given ids, distinct priced lines, one assignment an experiment, and the terms of their payment mode |
| AcceptancePromises.CreateIff | src/lib/order-promise.ts:259-306 | a review is created exactly for a complete promise of the owner's open cart, within a quarter of an hour, under a new request; an earlier one is found exactly when it is of the same promise and verifies |
| AcceptancePromises.AcceptIff | src/lib/order-promise.ts:311-386 | a promise is accepted anew exactly by an unexpired, verified, unused review of this promise, cart and customer; an earlier acceptance is found exactly while it stands |
| AcceptancePromises.AcceptAddsOne | src/lib/order-promise.ts:361-386 | an acceptance adds one snapshot of the reviewed promise under the next revision and points the cart to it, and nothing else |
| AcceptancePromises.BindIff | src/lib/order-promise.ts:463-524 | a binding is made exactly for a confirmed, linked order whose pointers agree on a verified snapshot of its own |
| AcceptancePromises.ReadIff | src/lib/order-promise.ts:527-549 | an original promise is read exactly when order, link, binding and snapshot agree and the snapshot verifies |
| EvidenceSweep.Vault.SweepStatus | src/lib/local-evidence-storage.ts:139-192 | the paged loop ends, visits the swept rows once each in order, leaves each as specified, and counts deletions and failures |
| EvidenceSweep.Vault.PruneExpiredEvidence | src/lib/local-evidence-storage.ts:126-201 | a prune leaves the specified table and counts, and fails exactly when some deletion failed |
| EvidenceSweep.Vault.Prepare | src/lib/local-evidence-storage.ts:66-80 | an upload id has one row; a repeat finds it unchanged, other content is refused |
| EvidenceSweep.Vault.Complete | src/lib/local-evidence-storage.ts:82-104 | completion stores the row once; repeats and failures change nothing |
| EvidenceSweep.RowAfterPrune | src/lib/local-evidence-storage.ts:146-188 | no status is touched before it is due, and each due row is deleted or left due for the next run |
| EvidenceSweep.NothingDeletedEarly | src/lib/local-evidence-storage.ts:126-201 | over any run of uploads and prunes, an upload never stored is deleted no sooner than seven days after it was prepared, and a stored one no sooner than 120 days after it was stored |
| EvidenceSweep.VisitedOnce | src/lib/local-evidence-storage.ts:139-150 | across pages each selected row is visited exactly once, in rising order |
| EvidenceSweep.PruneTwice | src/lib/local-evidence-storage.ts:194-201 | after a prune without failures, pruning again at the same time finds nothing due and changes nothing |
| EvidenceSweep.RunMovesOn | src/lib/local-evidence-storage.ts:66-104 | over any run of uploads and prunes an upload keeps its one row and object, and its status only moves on: pending, stored, deleted |
| EvidencePromises.PruneIs | src/lib/local-evidence-storage.ts:126-201 | a prune deletes exactly the uploads pending for seven days and the photos past their policy's days, unless the provider fails, stamps every other stored photo with its end, and counts both |
| EvidencePromises.CompleteLeaves | src/lib/local-evidence-storage.ts:82-104 | a completion succeeds exactly for the order's own, undeleted upload with matching bytes that is stored or now written, and stamps it as stored now |

## Left out

- ChargeTheorems.AtMostOneCharge: stated for runs whose line 403 writes meet `IntentWriteGuard`; without the guard it is false, as `DoubleCharge` shows.
- ChargeTheorems.ReleasedMeansPaid: stated under the same guard, starting from no attempts.
- ChargeDesk.Desk.RunFinalChargeAndRelease: one caller that nobody interleaves with; interleavings are the transition system's.
- CalendarLaws.TokenHolds: the code's own promise, that an unchanged quote stays valid until it expires, fails in the case `TokenTurnedAway` gives; the condition is exact.
- PackingLaws.PlanIsRight: limits are stated on the weights and fit units packed, before output is rounded to four decimals; dollar amounts are compared unrounded.
- PackingHandover.ShownSelects: hours are exact reals; the language's own rounding of them is far below the millionth of an hour that is tested.
- Packing.CreateShippingPackingPlan: starts from resolved physical lines; output rounding and the plan's hash are not modelled.
- FinalTotals.CalculateLine: rounding is of exact products, half up; the machine epsilon added before rounding is not modelled.
- EvidenceSweep.Vault.SweepStatus: no concurrent writers, so no row is skipped because it is locked.
- EvidenceSweep.Vault.PruneExpiredEvidence: no concurrent writers; whether the provider refuses to delete is fixed per object, and the report's error codes are not modelled.
- Collections.DuplicateChangesNothing: event ids named like members of the language's own object prototype are not modelled.
- EvidenceSweep.Vault.Complete: the retention policy is taken as configured, and so within its range.
- OrderPromise.Tables.CreateOrderPromiseReview: ids are taken as already trimmed, as the source's parsing leaves them; text fields that are only carried along are not checked.
- FinalTotals.PreviewTotals: unit weights are taken as already cleaned and rounded to thousandths.
- Attempt rows from before the claim protocol, and `recordFinalChargeAttempt`: the charge model starts with no attempts.
- Charge ids, audit fields, alerts, emails, QuickBooks posting and WWEX booking beyond whether it fails: no part in the safety of the charge.
- Preview recomputation inside the charge run: the preview is one read of the finalization row; its totals are modelled in `FinalTotals`.
- Random identifiers: rows are named by position, and where an order of ids matters it is an arbitrary one.
- White space inside stock texts and policy texts, locale rules for comparing ids, and JSON number parsing: texts are compared as they are, ordered by a given rank, and fields are typed.
- Time-zone tables and calendar arithmetic of civil dates: dates are day numbers and the zone is a parameter.
- Cryptography: SHA-256, HMAC and AES are treated as injective; key configuration errors are not modelled.
- Cart address clean-up in the calendar's cart revision: the address is part of an opaque context.
- The error for a nonpositive ice quantity in the planner: after the publication gate it cannot be raised.
- Shipping weight resolution and its provenance checks: the planner starts from resolved physical lines.
- Line snapshots, reconciliation, repair, staff workflow status and package capture in catch-weight finalization: long branch lists beside the totals.
- `validateOrderPromiseSnapshot`, the analytics projection and the native completion's own receipt checks: the completion is a parameter.
- Other writers of cart and order metadata in the order promise model: only acceptance moves a cart's pointer.
- Signed downloads and order listings of evidence: reads without state.
- Listing queries, HTTP routes, jobs, subscribers and role checks: plumbing around these protocols.
