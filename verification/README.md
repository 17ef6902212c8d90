# DealFlow: a verified model of planning, risk, approval and settlement

DealFlow governs B2B quotations: it scores a deal's risk, routes it for approval, locks and confirms the order behind it,
plans from which warehouses to ship it, and bills it. This project models the parts of DealFlow that decide something, in
the form the program itself has (loops as methods with invariants, services and adapters as classes updated in place, each
proved against a specification function), and proves what a user of DealFlow relies on.

`dafny verify dfyconfig.toml` checks everything.

| modules | what they model |
|---|---|
| Fulfillment{Raw,Model,Search,Greedy,Bound,Fill,Planner} | the multi-warehouse planner: full coverage, exhaustive search, greedy cover and its bound, line-by-line fill; its promises on all lines and all warehouses |
| Risk{Model,Scoring,Meaning,Signs,Monotone,Floor} | the risk score, what it is made of, its explanation by factors, severity and required approval |
| Approval{Model,Desk,Laws,Runs,Locks} | evaluation, routing, decisions, customer confirmation, negotiation, the order's lock |
| OrderTerms, OrderLaws, NegotiationTerms, Quote{Model,Desk,Runs} | the order's lines, what negotiations change in them, and the deal evaluated on the order as it stands |
| Inventory{Model,Adapter,Laws,Runs} | the standalone inventory adapter: split and apply, batches, stock |
| Plan{Model,Desk,Laws,Runs,Shipments} | stored fulfillment plans, the pickings that applying them creates, and what they ship |
| Outbox, OutboxLaws | the transactional outbox and its retries |
| Billing{Calendar,Model,Adapters,Laws,Runs} | billing dates, invoices, payments, renewals |
| Prelude, Sums, Sorting, Decimals | shared vocabulary |

The modules whose name ends in Raw, Meaning or Laws say what every operation does from its input to its output, in terms that
the specification functions do not share.

Conventions. Rows of a table are identified by their position, oldest first. A gateway call that can fail and whose failure
the service swallows is a Boolean parameter (`Gateway`). In the approval modules the verdict of a re-evaluation is a parameter,
so their invariants hold whatever the score is. The quote modules close that gap: there the verdict is the risk of the order
as it stands, with the counter-offers that are open at that moment, and `QuoteRuns.RunIsDealRun` shows that every such run is
a run of the approval modules. Decimals are exact reals with the program's rounding written out (`HalfUp`, half away from zero);
inventory quantities are integers in units of 0.0001 and money is in cents.

## Where the code and its promises differ

Each of these is proved of the model, which follows the code at the lines named here.

- The risk score can drop when a discount is raised: at no net revenue the margin reads 0 instead of falling without bound
  (`app/guardian/risk.py:156`). `RiskFloor.ScoreNeverDropsExactly` gives the exact condition on the settings, and
  `DefaultFloors` evaluates it: the default margin floor of 20 meets it, a policy floor below 24.995 / 3 does not.
- The counter-offer trap is not closed for every deal. Accepting a counter-discount closes it before the deal is evaluated
  (`app/services/negotiation_service.py:153-154`, `app/guardian/evaluator.py:89-99`), so the 5 points that an open counter adds to
  the score are gone by then. On deeper terms than those signed the approval is kept if and only if discount and margin points
  rise by no more than the points that closed counters free, or the signed score was 100 already, and no line reaches a higher
  stage (`QuoteRuns.AcceptedCounterExactly`). If no counter has closed since signing, that means equal discount and equal
  margin points (`NegotiationTerms.NothingFreedExactly`). Three ways through follow:
  a deal signed while the counter was open (`QuoteRuns.DeeperDiscountConfirmed`: signed at 12 percent, confirmed at 12.5); a
  deal signed with capped discount and margin points at the highest level (`SaturatedTermsKeep`; `SaturatedDeal` is one under the
  default settings, signed at 50 percent and open to 60); and a deal signed at 100.
- A customer's confirmation marks the deal CONFIRMED even when the order system refuses (`app/services/portal_service.py:137-142`).
  `ApprovalLocks.LostUnlockConfirmsNothing` is a run with one lost governance write that ends CONFIRMED over a locked quotation;
  `StepKeepsLockExactly` says exactly which lost writes make lock and state disagree, and `SafeConfirmation` what holds
  when none is lost.
- The inventory adapter checks each allocation against live stock by itself, so a plan that lists a product and warehouse
  twice can oversell (`InventoryRuns.RepeatedPairOversells`); `NonNegativeExactly` is the exact condition.
- A warehouse numbered 0 is planned for and counted as a shipment, but the order system takes id 0 for no warehouse
  (`app/odoo/fake.py:707-708`) and creates no picking for it: `PlanRuns.AppliedShipsExactly` is the exact condition over runs, and
  `PlanShipments.WarehouseZeroShipsNothing` a plan applied without any picking.
- Only proposed plans are superseded (`app/services/fulfillment_service.py:103-113`), so two plans that were both accepted can
  both be applied and ship a line twice: `PlanShipments.AcceptedTwiceShipsTwice`. `ShippedAtMost` bounds what a run can ship.
- The part of the excess that is reported for the worst line can be negative (`RiskSigns.NegativeCorrection`); `SignsExactly` says
  when no part is.
- The repository's README describes the counter-offer scenario as resetting the deal to PENDING_FINANCE with the approval
  INVALIDATED. The code starts again at the sales manager's stage (PENDING_MANAGER) and never sets a deal's state to
  INVALIDATED; the model follows the code.
- A billing day lost to a short month never comes back: from 31 January, monthly renewals settle on the 28th or 29th
  (`BillingCalendar.MonthlyClosedForm`).

## Model

| member | source | states |
|---|---|---|
| FulfillmentPlanner.CalculateFulfillmentPlan | app/guardian/fulfillment.py:44-256 | on all lines and all warehouses: every plan ships only from active warehouses and only for wanted lines, gives every line what it wants, and backorders of each product exactly what all active warehouses together lack; the strategy is the one that lines, warehouses, stock and force call for; with at most 6 active warehouses, enough stock and no choice skipped by a forced strategy, it uses the fewest warehouses that can cover the demand, at the least shipping cost and then the least total priority number among those, with no backorder and every chosen warehouse used; a greedy plan reorders a selection that made the greedy progress with its tie-breaks, and is bounded as in GreedyIsFew |
| FulfillmentPlanner.FitsOnRaw | app/guardian/fulfillment.py:60-237 | a plan that fits the active warehouses and the wanted lines fits all warehouses and lines: sums over the arguments themselves, with no other warehouse or line in play |
| FulfillmentPlanner.StrategyOnRaw | app/guardian/fulfillment.py:60-183 | NO_STOCKABLE_ITEMS exactly when nothing is wanted, NO_ACTIVE_WAREHOUSES exactly when something is and no warehouse is active, FULL_COVERAGE exactly when unforced and one active warehouse covers alone (the first of those in shipping order), GREEDY exactly for more than 6 active ones or when forced |
| FulfillmentPlanner.OptimalOnRaw | app/guardian/fulfillment.py:109-237 | an optimal plan is optimal among all sets of active warehouses whose stock covers what the lines want |
| FulfillmentRaw.CoversIsCovering | app/guardian/fulfillment.py:60-113 | covering by active warehouses and wanted lines is covering as summed over all of both |
| FulfillmentRaw.HeldIsSupply | app/guardian/fulfillment.py:70-99 | stock counts exactly the active warehouses, and nothing below zero |
| FulfillmentRaw.WantedIsDemand | app/guardian/fulfillment.py:60-67 | demand counts exactly the lines with a positive quantity |
| FulfillmentPlanner.PlanFrom | app/guardian/fulfillment.py:94-256 | the same for a non-empty order and at least one active warehouse: choice, fill, shipment count and cost fit together |
| FulfillmentPlanner.PlanOver | app/guardian/fulfillment.py:185-256 | over any choice that lacks no stock, the fill, the shipments and the cost fit together |
| FulfillmentPlanner.ChooseWarehouses | app/guardian/fulfillment.py:106-183 | FULL_COVERAGE exactly when unforced and some warehouse covers alone; the choice lacks no stock that any active warehouse could have given; it is a best cover when the search is exhaustive, and a greedy choice otherwise |
| FulfillmentPlanner.TotalDemand | app/guardian/fulfillment.py:94-96 | the table lists every wanted product once with the sum over its lines |
| FulfillmentPlanner.FullCoverageCandidates | app/guardian/fulfillment.py:111-115 | the candidates are exactly the warehouses that cover every product alone |
| FulfillmentPlanner.LeastByKey | app/guardian/fulfillment.py:117-123 | the chosen candidate has the least (cost, priority, id) |
| FulfillmentPlanner.RelevantWarehouses | app/guardian/fulfillment.py:151-156 | keeps exactly the warehouses that hold something wanted, or all when none does, and leaves every product's shortfall as it was |
| FulfillmentPlanner.GreedyOrAll | app/guardian/fulfillment.py:157-183 | the greedy choice falls short on each product exactly as far as all warehouses would, and is a selection with greedy progress, or all warehouses when none holds anything wanted |
| FulfillmentPlanner.BackorderAll | app/guardian/fulfillment.py:71-92 | without warehouses every line is backordered in full |
| FulfillmentPlanner.SingleIsBest | app/guardian/fulfillment.py:109-123 | a single covering warehouse of least key is a cover of fewest warehouses and least cost |
| FulfillmentPlanner.FoundIsBest | app/guardian/fulfillment.py:126-150 | the first size found by the search is the smallest of any covering set |
| FulfillmentPlanner.NothingFound | app/guardian/fulfillment.py:126-156 | the search comes back empty only when all warehouses together cannot cover the demand |
| FulfillmentPlanner.UselessOnesLeftOut | app/guardian/fulfillment.py:151-183 | leaving out warehouses that cannot help on anything uncovered changes no shortfall |
| FulfillmentPlanner.UnusedCanGo | app/guardian/fulfillment.py:185-237 | a chosen warehouse whose share is zero for every product could have been left out of the cover |
| FulfillmentPlanner.BestCoverAllUsed | app/guardian/fulfillment.py:185-237 | a plan over a best cover ships from every warehouse of it |
| FulfillmentPlanner.BestPlanIsOptimal | app/guardian/fulfillment.py:109-237 | hence shipments and cost reported are the optimal ones and nothing is backordered |
| FulfillmentPlanner.DearerOnlyWhenCheaperEmpty | app/guardian/fulfillment.py:185-220 | a warehouse ships a product only when every cheaper chosen one has shipped all it had of it |
| FulfillmentSearch.MeetsNeeds | app/guardian/fulfillment.py:139-142 | true exactly when the warehouses' stock meets every entry of the demand table |
| FulfillmentSearch.RankedCombinations | app/guardian/fulfillment.py:131-137 | all k-subsets, in ascending total cost and then total priority |
| FulfillmentSearch.CheapestCoverOfSize | app/guardian/fulfillment.py:131-147 | finds a covering k-subset that leads all covering choices of k warehouses in cost, and then in total priority, or there is none |
| FulfillmentSearch.FewestCheapest | app/guardian/fulfillment.py:128-149 | finds the smallest size from 2 on that can cover, with its cheapest cover, ties broken by total priority, or no size can |
| FulfillmentSearch.SubsetIsCombination | app/guardian/fulfillment.py:131 | every set of k warehouse ids is one of the enumerated combinations |
| FulfillmentSearch.CombinationShape | app/guardian/fulfillment.py:131 | every combination consists of k different warehouses |
| FulfillmentSearch.CombinationTotals | app/guardian/fulfillment.py:133-142 | a combination's stock and cost are those of its set of ids |
| FulfillmentGreedy.GreedyCover | app/guardian/fulfillment.py:158-183 | each selected warehouse reduced the outstanding demand by the most that any left could, ties broken by cost and then priority, and by at least one part in m if some m warehouses can cover it all; the loop stops only when all is covered or nothing left helps |
| FulfillmentGreedy.BestOfPool | app/guardian/fulfillment.py:164-174 | the first pool warehouse that none beats on gain, then cost, then priority |
| FulfillmentGreedy.DrawDown | app/guardian/fulfillment.py:179-180 | every remaining quantity falls by exactly what the selected warehouse gives |
| FulfillmentGreedy.AnyLeft | app/guardian/fulfillment.py:163 | true exactly when some remaining quantity is positive |
| FulfillmentGreedy.SelectStep | app/guardian/fulfillment.py:178-181 | a selection removes exactly its gain from the outstanding demand |
| FulfillmentGreedy.RoundProgress | app/guardian/fulfillment.py:163-181 | the best gain is at least the outstanding demand divided by the size of any covering set |
| FulfillmentGreedy.GreedyBound | app/guardian/fulfillment.py:158-183 | after t rounds R * m^t <= D * (m - 1)^t for every covering set of m warehouses |
| FulfillmentBound.GreedyIsFew | app/guardian/fulfillment.py:158-183 | if m warehouses can cover a demand of D units, the T chosen ones satisfy m^(T-1) <= D * (m-1)^(T-1) |
| FulfillmentBound.TallyTotal | app/guardian/fulfillment.py:94-96 | the demand table adds up to all that the lines request |
| FulfillmentGreedy.NothingHelps | app/guardian/fulfillment.py:163-176 | when the loop stops no unselected warehouse holds anything uncovered |
| FulfillmentFill.FillLines | app/guardian/fulfillment.py:187-233 | each chosen warehouse ships min(stock, max(0, demand - earlier stock)) of each product, however demand is split over lines; the rest is backordered; each line gets allocations plus backorder equal to its request |
| FulfillmentFill.FillLine | app/guardian/fulfillment.py:197-220 | one line moves every share from the demand served before it to the demand with it, and returns the rise in shortfall |
| FulfillmentFill.Draw | app/guardian/fulfillment.py:202-217 | one allocation is booked to its line and warehouse and taken off the running stock, and nothing else changes |
| FulfillmentFill.OpeningStock | app/guardian/fulfillment.py:187-190 | the running table starts with every chosen warehouse's stock of every wanted product |
| FulfillmentFill.ShareStep | app/guardian/fulfillment.py:200-217 | the quantity drawn at a warehouse is exactly the growth of its closed-form share |
| FulfillmentModel.CoverByTally | app/guardian/fulfillment.py:94-113 | checking the demand table is checking every product of every line |
| FulfillmentModel.SortByKeyKeeps | app/guardian/fulfillment.py:101-104 | sorting by (cost, priority, id) orders the warehouses and keeps their stock |
| Decimals.Round2Near | app/services/deal_context_builder.py:13-18 | rounding to cents moves a value by at most half a cent, keeps its sign and gives whole cents |
| RiskScoring.CalculateDealRisk | app/guardian/risk.py:33-259 | the contributions of the reported factors add up to the score before its final rounding and cap; no approval exactly when nothing exceeds its ceiling and the score is below the manager's threshold, otherwise finance exactly when the score exceeds its threshold or a line is far enough over; severity by the same thresholds; the factors are one for each violating line in order, then those for margin, stock and counter-offer |
| RiskMeaning.ResultMeaning | app/guardian/risk.py:33-259 | the result means, on the deal and the settings alone: a score that is the capped total below, the largest excess, the margin, and level and severity by their thresholds |
| RiskMeaning.LineMeaning | app/guardian/risk.py:55-83 | each line's discount after the order's, its ceiling, the excess over it to four places, and its part of the list total |
| RiskMeaning.DiscountMeaning | app/guardian/risk.py:85-102 | discount points are weights on the largest excess, the weighted sum and the share of lines over their ceiling, capped and to cents |
| RiskMeaning.MarginMeaning | app/guardian/risk.py:149-157 | the margin is what is left of net revenue after costs, in percent to cents, and 0 without net revenue |
| RiskMeaning.MarginChargeMeaning | app/guardian/risk.py:159-179 | nothing at or above the floor; below it weight times gap to cents, up to the cap |
| RiskMeaning.InventoryMeaning | app/guardian/risk.py:181-197 | backorder points if a stockable line asks for more whole units than there are, else split points if one needs several warehouses, else none, capped |
| RiskMeaning.OthersMeaning | app/guardian/risk.py:159-223 | which factors are reported besides the discounts', with raw value, weight and contribution |
| RiskMeaning.ScoreMeaning | app/guardian/risk.py:225-227 | the score is the sum of the four, to cents and up to 100 |
| RiskMeaning.ExampleScore | app/guardian/risk.py:33-259 | a worked deal under the default settings: 29 + 15 + 20 + 5 = 69, with finance |
| RiskMeaning.HighScore | app/guardian/risk.py:238-246 | one line 8 points over its ceiling scores 60 and needs finance by its score alone |
| RiskScoring.AddOthers | app/guardian/risk.py:159-223 | appends the factors for margin, stock and counter-offer, and no others |
| RiskScoring.LineOverages | app/guardian/risk.py:55-83 | every line gets its effective discount, ceiling, excess and weight |
| RiskScoring.ApportionExcess | app/guardian/risk.py:100-147 | the parts add up exactly to the excess; each is the rounded share of its line, except that the first line with the highest overage carries what the others leave, off by at most half a cent per violating line |
| RiskScoring.RoundedFactors | app/guardian/risk.py:105-142 | before the correction every violating line has its rounded share, and the first line with the highest overage is found |
| RiskScoring.DiscountFactors | app/guardian/risk.py:91-147 | discount factors add up to the discount points, one for each violating line in order with its excess, or there are none |
| RiskScoring.ScanInventory | app/guardian/risk.py:181-197 | the worst shortage of any stockable line, capped |
| RiskScoring.AllFactors | app/guardian/risk.py:91-226 | the four kinds of factor together contribute exactly the specified points |
| RiskScoring.ShareSumStep | app/guardian/risk.py:103-116 | shares before rounding add up to 1 |
| RiskScoring.RoundedSumNear | app/guardian/risk.py:109-117 | rounded shares are off by at most half a cent each from the exact ones |
| RiskSigns.SignsExactly | app/guardian/risk.py:144-147 | no contribution is negative if and only if the rounded shares of the lines other than the worst do not exceed the excess |
| RiskSigns.OthersLeaveEnough | app/guardian/risk.py:144-147 | they do not when the worst line's own share is at least half a cent for each other line |
| RiskSigns.NegativeCorrection | app/guardian/risk.py:144-147 | fifty equal lines under the default settings, where the worst line is reported with -0.01 |
| RiskScoring.ScoreIsExactSum | app/guardian/risk.py:225-227 | with whole-cent caps the score is exactly min(100, excess + margin + inventory + negotiation) |
| RiskModel.NoViolationNoExcess | app/guardian/risk.py:85-102 | a positive excess always has a violating line to carry it |
| RiskModel.ScoreRange | app/guardian/risk.py:226-227 | the score lies in 0..100 |
| RiskModel.MarginPointsRange | app/guardian/risk.py:159-161 | margin points lie between 0 and their cap |
| RiskMonotone.RaisedIsAbove | app/guardian/risk.py:58-83 | raising line or order discounts never lowers a line's effective discount or overage, and leaves weights alone |
| RiskMonotone.DiscountMonotone | app/guardian/risk.py:85-98 | nor the discount points, through maximum, weighted sum, ratio, cap and rounding |
| RiskMonotone.MarginAntitone | app/guardian/risk.py:149-157 | nor raises the margin percentage while there is net revenue |
| RiskMonotone.MarginFactorMonotone | app/guardian/risk.py:149-161 | nor lowers the margin points, unless the last net revenue goes and the margin floor does not saturate |
| RiskMonotone.ScoreMonotone | app/guardian/risk.py:55-227 | raising discounts never lowers the score under that condition |
| RiskMonotone.RoutingMonotone | app/guardian/risk.py:229-246 | severity and required level follow score and largest overage upward |
| RiskMonotone.ApprovalMonotone | app/guardian/risk.py:55-246 | raising discounts never lowers severity or the required approval level |
| RiskFloor.ScoreNeverDropsExactly | app/guardian/risk.py:156-161 | with a whole-cent margin cap of at most 100, no raised discount ever lowers any score if and only if the margin floor saturates |
| RiskFloor.UnsaturatedDrops | app/guardian/risk.py:156-161 | otherwise a one-line deal at 99 and then 100 percent discount shows the drop |
| RiskFloor.DefaultFloors | app/guardian/evaluator.py:62-87 | with the default weights the condition is 3 * floor >= 24.995 |
| ApprovalDesk.OrderSystem.SetGovernance | app/odoo/fake.py:624-635 | sets the lock when reached, and only the lock |
| ApprovalDesk.OrderSystem.Confirm | app/odoo/fake.py:637-646 | makes an unlocked, reachable order a sale and refuses a locked one |
| ApprovalDesk.DealRecord.constructor | app/services/deal_service.py:39-66 | a newly synchronised deal is a draft, not evaluated, with no assessment, request or approval |
| ApprovalDesk.DealRecord.ApplyApprovalRouting | app/guardian/approval_routing.py:11-72 | keeps a covered approval; otherwise supersedes what is pending and opens a sales manager's request when the level needs one |
| ApprovalDesk.DealRecord.EvaluateDeal | app/guardian/evaluator.py:112-231 | stores the verdict, routes it by coverage, makes it current and locks the order unless no approval is needed or it still stands |
| ApprovalLaws.Evaluating | app/guardian/evaluator.py:112-231 | a covered approval stands; otherwise pending requests are superseded and the sales manager's is opened unless none is needed; the order is locked exactly when approval is needed and does not stand, so not when none is needed |
| ApprovalDesk.DealRecord.SettleRequest | app/services/approval_service.py:136-139 | settles one request for one actor and touches no other |
| ApprovalDesk.DealRecord.GrantFinal | app/services/approval_service.py:178-215 | the last grant signs the request's assessment, unlocks, and confirms a deal the customer accepted before |
| ApprovalDesk.DealRecord.DecideApprovalRequest | app/services/approval_service.py:82-339 | refuses settled requests, owners and wrong roles without change; otherwise does what approve, reject, return and escalate promise |
| ApprovalLaws.RefusedDecision | app/services/approval_service.py:90-119 | refused, without any change, exactly for an unknown or settled request, the deal's own owner, or a role that the stage does not allow, in this order |
| ApprovalLaws.Returning | app/services/approval_service.py:271-311 | the request is sent back, the deal RETURNED, the order unlocked when the write gets through, and nothing else changes |
| ApprovalLaws.Rejecting | app/services/approval_service.py:229-269 | the request is refused, the deal REJECTED, the order locked when the write gets through, and nothing else changes |
| ApprovalLaws.Escalating | app/services/approval_service.py:313-335 | only the decision log changes |
| ApprovalLaws.GrantingFirstStage | app/services/approval_service.py:135-178 | the finance request on the same assessment is opened, and the order stays as it is |
| ApprovalLaws.GrantingLastStage | app/services/approval_service.py:180-227 | the request's assessment is signed and the order unlocked; a deal the customer had accepted is confirmed when the order system can do it |
| ApprovalLaws.ReturnedIsUnlocked | app/services/approval_service.py:280-286 | over runs whose governance writes get through, a RETURNED deal's order is unlocked |
| ApprovalDesk.DealRecord.ConfirmDealByCustomer | app/services/portal_service.py:118-182 | confirms an approved deal, marks any other as accepted, and leaves a confirmed one alone |
| ApprovalLaws.Confirming | app/services/portal_service.py:118-182 | an approved deal is confirmed, with its order if that is unlocked and reachable; on any other open deal the acceptance is noted and nothing else changes; nothing on a closed one |
| ApprovalDesk.DealRecord.SubmitNegotiationRequest | app/services/negotiation_service.py:27-98 | opens a negotiation on a deal that is not closed |
| ApprovalDesk.DealRecord.RespondNegotiationRequest | app/services/negotiation_service.py:126-217 | answers an open negotiation once; acceptance re-evaluates the changed terms |
| ApprovalLaws.Answering | app/services/negotiation_service.py:126-233 | accepting closes the negotiation, evaluates and sends; declining sends; countering keeps it going; an answered one is refused |
| ApprovalLaws.Negotiating | app/services/negotiation_service.py:27-60 | opened by the deal's customer only, and not on a deal that is confirmed, cancelled or expired |
| ApprovalLaws.Moving | app/services/fulfillment_service.py:325-372 | sending, cancelling, and applying a plan: in fulfillment only from confirmed or in fulfillment |
| ApprovalRuns.RunGoverned | app/services/approval_service.py:82-339 | every reachable deal has at most one pending request, a standing current assessment, grants on record and no drift |
| ApprovalRuns.StepGoverned | app/services/approval_service.py:82-339 | every single operation keeps all of that |
| ApprovalRuns.EvaluateGoverned | app/guardian/evaluator.py:125-231 | re-evaluation keeps it |
| ApprovalRuns.DecideGoverned | app/services/approval_service.py:135-335 | every decision keeps it |
| ApprovalRuns.NoApprovalDrift | app/guardian/material_change.py:73-90 | whenever a reachable deal is APPROVED, its score and level are at most those of the signed assessment, which was granted at every stage its level demands, by entitled people other than the owner |
| ApprovalRuns.RequestTable | app/guardian/approval_routing.py:24-72 | exactly one request is pending when the deal waits and none otherwise; it matches stage, current assessment and required level |
| ApprovalRuns.HistoryIsFinal | app/services/approval_service.py:94-98 | over any run a request that left PENDING never changes, and assessments and decisions are only added |
| ApprovalRuns.StepExtends | app/services/approval_service.py:94-98 | the same for one operation |
| ApprovalLocks.StepKeepsLockExactly | app/guardian/evaluator.py:216-231 | an operation keeps lock and approval state in agreement, for every approval state, if and only if its governance write gets through or is not needed |
| ApprovalLocks.RunKeepsLock | app/guardian/evaluator.py:216-231 | when every governance write gets through, waiting and rejected deals are locked, and approved and returned ones and those that need no approval unlocked, over every run |
| ApprovalLocks.OnlyApprovedConfirms | app/services/portal_service.py:135-142 | every step into CONFIRMED is a confirmation of an approved deal without drift |
| ApprovalLocks.IssuedConfirmSucceeds | app/services/approval_service.py:199-205 | with lock agreement and a reachable order system every confirmation issued succeeds |
| ApprovalLocks.SafeConfirmation | app/services/portal_service.py:135-142 | over every run whose gateway calls get through, a step into CONFIRMED leaves an unlocked sale order and an approved deal within its signed terms |
| ApprovalLocks.CustomerConfirmExactly | app/services/portal_service.py:135-142 | the customer's confirmation always marks the deal, and makes the order a sale if and only if the order system accepts or it was one |
| ApprovalLocks.LostUnlockConfirmsNothing | app/services/portal_service.py:135-142 | a run with one lost unlock that ends CONFIRMED over a locked quotation |
| ApprovalLocks.ReevaluationExactly | app/guardian/approval_routing.py:20-72 | an approved deal stays approved if and only if the signed assessment covers the new verdict; otherwise it waits for a sales manager at once, locked |
| ApprovalLocks.ImprovementKeepsApproval | app/guardian/material_change.py:73-90 | re-evaluating with every discount at or below the signed one keeps the approval and opens no request |
| ApprovalLocks.NoGrantNoStep | app/services/approval_service.py:135-205 | without a grant an unapproved deal becomes neither approved nor CONFIRMED |
| ApprovalLocks.NoGrantNoConfirmation | app/services/approval_service.py:135-205 | nor over any run without grants |
| ApprovalLocks.RiskierCounterRevokes | README.md:97-121 | accepting a counter-offer beyond the signed terms revokes the approval and locks the order, and no later run confirms the deal before a new grant |
| OrderTerms.OrderLines.ApplyLineChanges | app/odoo/fake.py:581-599 | each change sets discount and quantity of every line with its id, in order |
| OrderTerms.OrderLines.AddLine | app/odoo/fake.py:601-622 | appends one unit of the product at its list price with the next line id |
| OrderTerms.OrderLines.ApplyTerms | app/services/negotiation_service.py:156-186 | carries out accepted terms of any kind; incomplete terms change nothing and an unknown product is refused |
| OrderLaws.ChangingQuantity | app/services/negotiation_service.py:156-186 | a quantity change sets the quantity of the line it names, and of no other |
| OrderLaws.RemovingLine | app/services/negotiation_service.py:156-186 | a removed line stays, with quantity 0 |
| OrderLaws.Discounting | app/services/negotiation_service.py:156-186 | a counter-discount sets the discount of the line it names, or of every line |
| OrderLaws.AddingProduct | app/odoo/fake.py:602-622 | one unit at list price without discount, under the next line id |
| OrderLaws.ChangingNothing | app/services/negotiation_service.py:156-186 | comments, and terms that leave out what they are about, change no line |
| OrderTerms.BuildContext | app/services/deal_context_builder.py:117-227 | the risk context of the order, rounded to cents, with the ceiling of each line and the policy resolved for the last |
| OrderLaws.LineRead | app/services/deal_context_builder.py:117-227 | each scored line is the order's line to cents, with its product's cost and stock, short when the main warehouse alone cannot serve it |
| OrderLaws.CeilingRead | app/guardian/evaluator.py:62-87 | a line's ceiling is that of its product's policy, or of the fallback |
| OrderLaws.PolicyRead | app/guardian/evaluator.py:62-87 | floor and thresholds are those of the last line's product |
| OrderTerms.CounterSets | app/services/negotiation_service.py:175-186 | an accepted counter-discount sets its value on the named line, or on all, and changes nothing else |
| OrderTerms.ChangedProducts | app/odoo/fake.py:586-597 | changes leave every line its id, product and price |
| NegotiationTerms.CoveredExactly | app/guardian/material_change.py:73-90 | a verdict is covered if and only if its points are no higher than the signed ones, or the signed score was 100, and its largest overage reaches no higher stage |
| NegotiationTerms.DeeperTermsExactly | app/guardian/material_change.py:73-90 | deeper terms keep the approval if and only if the rise in discount and margin points is at most what closed counter-offers free, or the signed score was 100, and no line reaches a higher stage |
| NegotiationTerms.NothingFreedExactly | app/guardian/material_change.py:73-90 | while no counter-offer has closed since signing, that means equal discount points and equal margin points |
| NegotiationTerms.TermsMonotone | app/guardian/risk.py:91-161 | neither discount nor margin points fall on deeper terms, whatever happened to counter-offers |
| NegotiationTerms.SaturatedTermsKeep | app/guardian/material_change.py:73-90 | an approval signed with both kinds of points capped, at the highest level, survives any deeper discount |
| NegotiationTerms.SaturatedDeal | app/guardian/risk.py:36-48 | with the default weights and caps a one-line deal signed at 50 percent is of that kind |
| QuoteDesk.QuoteRecord.AssessOrder | app/guardian/evaluator.py:54-110 | the verdict is the risk of the order as it stands, with the counter-offers open now |
| QuoteDesk.QuoteRecord.HasOpenCounter | app/guardian/evaluator.py:89-99 | true exactly when some counter-discount is open |
| QuoteDesk.QuoteRecord.Evaluate | app/guardian/evaluator.py:27-231 | scores the order and routes the deal on the result |
| QuoteDesk.QuoteRecord.SubmitNegotiation | app/services/negotiation_service.py:27-98 | opens a negotiation with its type and requested change |
| QuoteDesk.QuoteRecord.Respond | app/services/negotiation_service.py:126-217 | acceptance changes the order and closes the negotiation before the deal is scored again; other answers leave the order alone |
| QuoteRuns.RunIsDealRun | app/guardian/evaluator.py:101-231 | every run whose verdicts come from the order is a run of the deal, so all its invariants hold |
| QuoteRuns.QuoteGoverned | app/guardian/evaluator.py:101-231 | in particular no such run drifts |
| QuoteRuns.HighScoresNeedFinance | app/guardian/risk.py:238-246 | over every run a deal approved on a score above the finance thresholds in force has a grant of finance, or an administrator's, on record for that assessment |
| QuoteRuns.LinesMove | app/services/negotiation_service.py:126-186 | an order's lines change only by an edit or by the terms of a negotiation that is accepted while open |
| QuoteRuns.AcceptingCloses | app/services/negotiation_service.py:153-154 | after acceptance the pressure of open counter-offers is left only if another one is open |
| QuoteRuns.CounterDeepens | app/services/negotiation_service.py:175-186 | a counter at least as deep as the lines it sets makes the order's terms deeper and leaves the policy alone, whatever else changed since signing |
| QuoteRuns.AcceptedCounterExactly | app/services/negotiation_service.py:153-206 | accepting a counter-discount on terms deeper than signed keeps the approval exactly as DeeperTermsExactly says, for the changed order and the closed counter; otherwise the deal waits again, locked |
| QuoteRuns.DeeperDiscountConfirmed | app/services/negotiation_service.py:153-206 | a run under the default settings, signed at 12 percent while a counter-offer was open and confirmed at 12.5 |
| InventoryAdapter.Adapter.ApplyFulfillmentPlan | dealflow_odoo/services/inventory_adapter.py:433-730 | checks, batch lookup, stock checks and reservation in order; a failed or repeated call changes nothing |
| InventoryLaws.BatchIs | dealflow_odoo/services/inventory_adapter.py:548-553 | a call works under the caller's batch id unless that is missing or empty, then under the plan's, and only then under a generated one |
| InventoryLaws.CallerBatchOnce | dealflow_odoo/services/inventory_adapter.py:548-588 | after a call with the caller's batch id b was applied, any later call with b, whatever its plan and generated id and whatever happened between, changes nothing and is refused or returns the first call's picking ids |
| InventoryLaws.PlanBatchOnce | dealflow_odoo/services/inventory_adapter.py:548-588 | the same for a batch id carried by the plan, when the caller gives none or an empty one |
| InventoryLaws.AppliesExactly | dealflow_odoo/services/inventory_adapter.py:470-611 | applied exactly when well formed, the order open, the batch not on record and every item in stock; already applied exactly when the batch is on record and the call idempotent; and the error otherwise |
| InventoryLaws.RefusedForStock | dealflow_odoo/services/inventory_adapter.py:590-611 | the first item not in stock decides the error: invalid product, unknown warehouse, or too little stock |
| InventoryLaws.ApplyingMoves | dealflow_odoo/services/inventory_adapter.py:689-730 | one picking per item, in order, with consecutive ids and the call's batch and order; available stock falls by exactly what the items take, at every product and warehouse |
| InventoryAdapter.Adapter.CheckPlan | dealflow_odoo/services/inventory_adapter.py:458-546 | the first applicable error of the parameter, tampering and order-state checks |
| InventoryAdapter.Adapter.CheckStock | dealflow_odoo/services/inventory_adapter.py:590-611 | the first item that live stock cannot serve |
| InventoryAdapter.Adapter.WarehouseStock | dealflow_odoo/services/inventory_adapter.py:159-165 | the level of a known warehouse, and none for an unknown one |
| InventoryAdapter.Adapter.ExistingPickings | dealflow_odoo/services/inventory_adapter.py:563-566 | the ids of the pickings of a batch, in order |
| InventoryAdapter.Adapter.ReserveItems | dealflow_odoo/services/inventory_adapter.py:689-719 | moves every item from available to reserved with a picking of consecutive id |
| InventoryAdapter.Adapter.CalculateFulfillmentSplit | dealflow_odoo/services/inventory_adapter.py:329-431 | succeeds exactly for a positive request within total stock, and its closing check of the sum never fires |
| InventoryLaws.SplitsExactly | dealflow_odoo/services/inventory_adapter.py:329-431 | succeeds exactly for positive ids and a positive quantity within the product's total stock |
| InventoryLaws.SplitGoesInSequence | dealflow_odoo/services/inventory_adapter.py:363-403 | warehouses are used by sequence, then id: one that ships leaves no earlier one with stock of its own |
| InventoryAdapter.Adapter.AllocateOver | dealflow_odoo/services/inventory_adapter.py:382-403 | takes from each warehouse in routing order until the request is met |
| InventoryRuns.RunConserves | dealflow_odoo/services/inventory_adapter.py:689-719 | over any run available plus reserved is constant per product and warehouse, and reserved rises by what pickings carry |
| InventoryRuns.CallConserves | dealflow_odoo/services/inventory_adapter.py:433-719 | the same for one call, and a failed call changes nothing |
| InventoryRuns.ReserveAllEffect | dealflow_odoo/services/inventory_adapter.py:689-719 | reserving a plan moves exactly its total at each product and warehouse |
| InventoryRuns.FirstPickings | dealflow_odoo/services/inventory_adapter.py:697-719 | the ids returned are exactly the batch's pickings |
| InventoryRuns.BatchFrozenOverRun | dealflow_odoo/services/inventory_adapter.py:555-588 | once a batch has pickings no run adds any to it |
| InventoryRuns.BatchAppliesOnce | dealflow_odoo/services/inventory_adapter.py:568-588 | a batch, whichever id it works under, deducts once; its repeat, whenever it comes, changes nothing and returns the same pickings |
| InventoryRuns.NonNegativeExactly | dealflow_odoo/services/inventory_adapter.py:590-695 | a successful apply leaves non-negative stock if and only if the items of each pair together fit the stock |
| InventoryRuns.DistinctPairsFit | dealflow_odoo/services/inventory_adapter.py:590-611 | for distinct pairs the item-by-item check is enough |
| InventoryRuns.RunStaysNonNegative | dealflow_odoo/services/inventory_adapter.py:590-695 | so stock stays non-negative over every run of plans with distinct pairs |
| InventoryRuns.RepeatedPairOversells | dealflow_odoo/services/inventory_adapter.py:590-611 | 6 + 6 out of 10 passes the check and leaves -2 |
| InventoryRuns.SplitAddsUp | dealflow_odoo/services/inventory_adapter.py:382-403 | the greedy split adds up to the request whenever positive stock suffices |
| InventoryRuns.SplitDrains | dealflow_odoo/services/inventory_adapter.py:386-403 | each part is positive and in stock, and all but the last drain their warehouse |
| InventoryRuns.SplitIsExact | dealflow_odoo/services/inventory_adapter.py:363-415 | a successful split adds up exactly to the request, even where some stock is negative |
| InventoryRuns.SplitThenApply | dealflow_odoo/services/inventory_adapter.py:363-611 | a split applied to unchanged stock under a new batch always succeeds and leaves stock non-negative |
| PlanDesk.PlanTable.ProposeFulfillmentPlan | app/services/fulfillment_service.py:92-169 | stores a plan with all of the planner's guarantees on all lines and warehouses, its conditional optimality and greedy bound included, in place of earlier proposals |
| PlanLaws.ProposingPlan | app/services/fulfillment_service.py:103-153 | earlier proposals, and nothing else, are superseded; the new row carries the result's shipments, cost, allocations and backorders |
| PlanDesk.PlanTable.AcceptFulfillmentPlan | app/services/fulfillment_service.py:172-211 | only a proposed plan is accepted |
| PlanLaws.AcceptingPlan | app/services/fulfillment_service.py:172-211 | a proposed plan changes to accepted and nothing else does; any other plan is refused |
| PlanDesk.PlanTable.OverrideFulfillmentPlan | app/services/fulfillment_service.py:214-314 | replaces a plan's lines by hand, or keeps everything on an unknown line or missing reason |
| PlanLaws.OverridingPlan | app/services/fulfillment_service.py:214-314 | only with a reason, on a proposed or accepted plan, for lines of the order; one line for each item with something to ship or backorder, shipments and cost counted over the warehouses that ship |
| PlanLaws.ItemsCarriedOut | app/services/fulfillment_service.py:241-295 | each manual item becomes a line with its quantities, its product or the line's, and its warehouse's weight on file |
| PlanDesk.PlanTable.ApplyPlan | app/services/fulfillment_service.py:317-389 | sends the shippable lines of an accepted or overridden plan of a confirmed deal to the order system and records its pickings |
| PlanLaws.ApplyingPlan | app/services/fulfillment_service.py:317-389 | only an accepted or overridden plan of a confirmed deal; it is marked with one picking id for each warehouse that ships, and the deal is in fulfillment |
| PlanLaws.ApplyingPicks | app/odoo/fake.py:696-738 | the order system keeps its pickings and adds exactly those |
| PlanLaws.PickingOf | app/odoo/fake.py:703-736 | what is sent from a warehouse is exactly the plan's lines that ship from it |
| PlanLaws.PlanRefusals | app/services/fulfillment_service.py:172-340 | which reason refuses an acceptance, an application or an override |
| PlanDesk.OrderDepot.ApplyFulfillmentPlan | app/odoo/fake.py:696-738 | one picking per warehouse in order of first appearance, with consecutive ids |
| PlanDesk.OrderDepot.GroupByWarehouse | app/odoo/fake.py:705-711 | the warehouses that the allocations name, without repeats |
| PlanDesk.OrderDepot.CreatePicking | app/odoo/fake.py:713-736 | deducts the group's quantities from known stock, not below zero |
| PlanRuns.RunKeeps | app/services/fulfillment_service.py:103-153 | over any run at most one plan is proposed and every stored line has allocated + backorder = requested |
| PlanRuns.AppliedIsFinal | app/services/fulfillment_service.py:336-370 | no run changes an applied plan |
| PlanRuns.AppliedShipsExactly | app/services/fulfillment_service.py:353-370 | every applied plan of every run created exactly its estimated number of pickings if and only if it was overridden or ships from no warehouse 0 |
| PlanRuns.ComputedShipsExactly | app/odoo/fake.py:703-738 | a computed plan creates as many pickings as estimated if and only if it does not ship from warehouse 0 |
| PlanRuns.ComputedRowFits | app/services/fulfillment_service.py:115-153 | a stored computed plan counts the warehouses its lines ship from |
| PlanRuns.PickingCount | app/odoo/fake.py:703-711 | applying creates one picking for each warehouse that ships something |
| PlanRuns.PickAllPickings | app/odoo/fake.py:713-736 | each picking carries its warehouse's allocations, in order |
| PlanRuns.PickAllStock | app/odoo/fake.py:717-722 | stock falls at each warehouse by what the plan takes there, but not below zero |
| PlanRuns.ComputedPlanShipsItsStock | app/odoo/fake.py:717-722 | applied to the stock it was computed from, a plan takes exactly its allocations: the clamp at zero hides no shortage |
| PlanShipments.ProposalStaysOptimal | app/services/fulfillment_service.py:115-140 | a proposal that was optimal for its stock is stored so and stays so over every run that does not override it |
| PlanShipments.ContentsStay | app/services/fulfillment_service.py:241-295 | only an override changes what a stored plan says |
| PlanShipments.WarehouseZeroShipsNothing | app/odoo/fake.py:706-708 | a computed plan from warehouse 0 is applied without a picking, though one was estimated |
| PlanShipments.RunShips | app/services/fulfillment_service.py:342-370 | over any run the pickings carry of each order line exactly what the applied plans send of it |
| PlanShipments.ShippedAtMost | app/services/fulfillment_service.py:342-370 | with computed plans only, a line is shipped at most once for each applied plan |
| PlanShipments.AcceptedTwiceShipsTwice | app/services/fulfillment_service.py:103-113 | proposing and accepting twice and applying both ships a line for five twice |
| Outbox.OutboxTable.QueueMutation | app/odoo/outbox.py:25-37 | adds a pending record without attempts |
| Outbox.OutboxTable.EligibleRecords | app/odoo/outbox.py:42-49 | the oldest unprocessed records with attempts left, up to the limit |
| Outbox.OutboxTable.DrainOutbox | app/odoo/outbox.py:40-75 | attempts each of them once and returns how many calls succeeded |
| OutboxLaws.Draining | app/odoo/outbox.py:40-75 | exactly the open records with fewer than limit open ones before them are attempted, once each: processed by a success, failed when the capability is missing, else pending until the fifth attempt fails |
| OutboxLaws.SelectedMeans | app/odoo/outbox.py:42-49 | the selection is the open records with fewer than limit open ones before them |
| OutboxLaws.MissingIsRetried | app/odoo/outbox.py:42-72 | a record failed for a missing capability is tried again as long as attempts are left |
| Outbox.DrainEffect | app/odoo/outbox.py:52-72 | a drain attempts eligible records only, each once, and leaves all others alone |
| Outbox.SucceedsAtMostOnce | app/odoo/outbox.py:40-75 | over any run of queueing and draining a record is called at most five times and its call succeeds at most once, exactly when it is processed |
| Outbox.FiveDrainsEachSettle | app/odoo/outbox.py:40-75 | five drains per record leave each processed or failed with exactly five attempts, whatever the gateway does |
| Outbox.SettledStays | app/odoo/outbox.py:44-45 | a settled record is never touched or called again |
| Outbox.DrainProgress | app/odoo/outbox.py:42-53 | every drain uses up an attempt as long as there is one |
| BillingCalendar.MonthStep | dealflow_odoo/services/subscription_adapter.py:73-78 | a month on: a valid, later date in the next month, its day cut to the month's length |
| BillingCalendar.YearStep | dealflow_odoo/services/subscription_adapter.py:67-72 | a year on: the same day, except 29 February to 28 |
| BillingCalendar.MonthlyClosedForm | dealflow_odoo/services/subscription_adapter.py:73-80 | n months on: the month advances by n and the day is the least of the start day and all month lengths met |
| BillingCalendar.YearlyClosedForm | dealflow_odoo/services/subscription_adapter.py:67-72 | n years on: the day stays, except 29 February to 28 for good |
| BillingCalendar.MonthsMeetFebruary | dealflow_odoo/services/subscription_adapter.py:73-80 | a year of monthly renewals cuts the day to at most 29 and keeps days up to 28 |
| BillingAdapters.Accounting.CreateInvoice | dealflow_odoo/services/accounting_adapter.py:94-302 | invoices a confirmed order's total unless its invoices already cover it |
| BillingLaws.Invoicing | dealflow_odoo/services/accounting_adapter.py:94-302 | adds one open invoice of the whole order total, exactly when the order is a sale or done and not covered by its invoices already |
| BillingAdapters.Accounting.RecordPayment | dealflow_odoo/services/accounting_adapter.py:593-654 | an accepted payment of a on a residual of r books a if a <= r and r otherwise, r too when no amount is given; the residual falls by that; nothing is booked on an unknown or cancelled invoice or for a negative amount |
| BillingLaws.Paying | dealflow_odoo/services/accounting_adapter.py:593-654 | the amount booked, the residual left, never below zero, the payment recorded, and the state: paid exactly when nothing is left, else in payment; no other invoice changes |
| BillingLaws.RefusedPayment | dealflow_odoo/services/accounting_adapter.py:593-620 | a negative amount, an unknown invoice and a cancelled one change nothing |
| BillingLaws.PartialPayments | dealflow_odoo/services/accounting_adapter.py:614-646 | over a run, payments that do not exceed the residual leave exactly the residual less their sum, each recorded as made |
| BillingLaws.LedgerRefusals | dealflow_odoo/services/accounting_adapter.py:94-160 | which reason refuses an invoice or a payment |
| BillingAdapters.Accounting.GetPaymentStatus | dealflow_odoo/services/accounting_adapter.py:478-587 | paid, due and state of an order over its invoices that are not cancelled |
| BillingLaws.Standings | dealflow_odoo/services/accounting_adapter.py:478-587 | due, paid and state from the totals and residuals of the order's invoices that are not cancelled, refunds counted negatively; the whole order total is due when there is none |
| BillingAdapters.Accounting.Aggregate | dealflow_odoo/services/accounting_adapter.py:555-587 | paid, due and state over invoices that are not cancelled |
| BillingAdapters.Accounting.TotalsOf | dealflow_odoo/services/accounting_adapter.py:555-563 | invoiced and due amounts with refunds counted negatively |
| BillingAdapters.SubscriptionAdapter.TriggerRenewal | dealflow_odoo/services/subscription_adapter.py:442-619 | bills one period of an active subscription and moves its date on by one, or changes nothing |
| BillingLaws.Renewing | dealflow_odoo/services/subscription_adapter.py:442-619 | bills monthly revenue of a monthly subscription and yearly revenue of a yearly one, and moves the stored date, or one period after the order, on by one period, exactly when the subscription recurs, is active and has such dates |
| BillingLaws.RenewalRefusals | dealflow_odoo/services/subscription_adapter.py:442-500 | which reason refuses a renewal |
| BillingRuns.RunBalanced | dealflow_odoo/services/accounting_adapter.py:614-646 | over any run residual plus payments equals the total, for every invoice and every order |
| BillingRuns.InvoiceAddsUp | dealflow_odoo/services/accounting_adapter.py:621-625 | the same stated for one invoice |
| BillingRuns.RunNonNegative | dealflow_odoo/services/accounting_adapter.py:621-625 | residuals stay between 0 and the total |
| BillingRuns.StatusAddsUp | dealflow_odoo/services/accounting_adapter.py:529-587 | for an order with invoices and no refunds the reported amount paid is the sum of payments recorded on it, and paid plus due is what was invoiced |
| BillingRuns.OwnInvoiceBlocks | dealflow_odoo/services/accounting_adapter.py:115-142 | an order invoiced once counts as fully invoiced |
| BillingRuns.NoDoubleInvoicing | dealflow_odoo/services/accounting_adapter.py:115-142 | over any run no order gets two invoices of its own total |
| BillingRuns.RenewalsClosedForm | dealflow_odoo/services/subscription_adapter.py:469-606 | n renewals bill the period's amount n times and advance the date by n periods |

## Left out

- FulfillmentPlanner.CalculateFulfillmentPlan: assumes that active warehouses have distinct ids, as the database guarantees; optimality is not claimed when EXHAUSTIVE is forced and one warehouse would cover alone, because the code then starts at pairs (line 130), nor for a greedy plan, which has the bound of FulfillmentBound.GreedyIsFew instead.
- FulfillmentGreedy.BestOfPool: compares exact costs where the code compares `-float(cost)`.
- RiskScoring.CalculateDealRisk: decimals are exact reals, without the 28-digit context precision; the product type is a Boolean (stockable or not); the unused `days_pending_approval`, reasons and details are not modelled.
- RiskFloor.ScoreNeverDropsExactly: stated for margin caps of at most 100 in whole cents; the program uses 25.
- RiskFloor.DefaultFloors: policy resolution is not modelled; the resolved margin floor, thresholds and ceilings are parameters.
- ApprovalLocks.ImprovementKeepsApproval: excludes the case of RiskFloor in which the signed terms had given away all net revenue under a floor that does not saturate.
- NegotiationTerms.NothingFreedExactly: excludes the same case; DeeperTermsExactly covers it.
- NegotiationTerms.CoveredExactly: the caps and inventory points are whole cents, as the evaluator's always are.
- OrderTerms.BuildContext: every product of the order is in the catalogue, since the order system cannot hold another; the catalogue and the resolved policies are parameters of each evaluation, and an order-level discount is always 0, as the builder sets it.
- OrderTerms.OrderLines.ApplyTerms: the line id that a failed addition uses up is not modelled; requested values are numbers already.
- QuoteDesk.QuoteRecord.Respond: a failure between the commit of the changed order and the end of the evaluation is not modelled.
- ApprovalDesk.OrderSystem.Confirm: the invoices and subscriptions that the fake order system seeds on confirmation are not modelled.
- ApprovalDesk.DealRecord.EvaluateDeal: `is_material_change` always answers yes here (it is called without the old context) and decides nothing, so it is left out; the stored severity and the factor rows are not part of the deal's state, though RiskScoring.CalculateDealRisk computes both.
- ApprovalDesk.DealRecord.SubmitNegotiationRequest: the request's type and requested change are in QuoteDesk.QuoteRecord.SubmitNegotiation.
- ApprovalDesk.DealRecord.RespondNegotiationRequest: the verdict is a parameter here; QuoteDesk.QuoteRecord.Respond computes it from the changed order.
- ApprovalDesk.DealRecord.DecideApprovalRequest: roles other than the five of the program and request levels other than the two that it creates are not modelled.
- InventoryAdapter.Adapter.ApplyFulfillmentPlan: a generated batch id is a parameter; writing it back into the caller's plan object is not modelled, nor are checks of Python types.
- InventoryAdapter.Adapter.CalculateFulfillmentSplit: quantities are whole units of 0.0001, so float residue below 1e-6 does not occur.
- InventoryRuns.SplitThenApply: needs distinct positive warehouse ids and an order that is open, as every check of the apply operation does.
- Outbox.OutboxTable.DrainOutbox: the outcome of a call is a function of record and attempt; creation times are distinct and the limit is not negative.
- PlanDesk.PlanTable.ProposeFulfillmentPlan: selecting the order's stockable lines and their availability is not modelled; both are parameters, and availability is the depot's stock.
- PlanDesk.OrderDepot.ApplyFulfillmentPlan: allocations always name a warehouse, as the service's query guarantees.
- BillingAdapters.Accounting.CreateInvoice: invoice ids are consecutive; registering orders and invoices by hand, which may overwrite either, is not modelled.
- BillingAdapters.SubscriptionAdapter.TriggerRenewal: parsing an order into recurring revenue is not modelled (its results are parameters), and dates are valid dates, without the fallback to the current day.
- BillingRuns.StatusAddsUp: refunds and cancelled invoices are excluded, since the reported amounts are then clamped at zero.
- Update of plan lines, requests and invoices inside lists of database rows is modelled as reassigning a sequence field of the class.
- FastAPI routes, sessions, migrations, schemas, audit events, notifications and timestamps: they decide nothing modelled here.
- The XML-RPC gateway, the branches of the adapters that call Odoo, and the add-on models: Odoo itself is not part of this model.
- Tokens, signatures, webhook checks and the portal's field whitelist: security rather than business logic.
- Next best action, health, recommendations, what-if simulation, reports and backorder consolidation: threshold chains and aggregates with little to prove about them.
- Expiry of approval requests, the INVALIDATED deal state and the EXPIRED and FULFILLED deal states: declared, but no modelled operation sets them.
