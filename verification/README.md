# A verified model of the procurement agents

This project models the parts of the repository where several pieces of state have to stay in step: the bartering and
the auction, the negotiation bandit, the blackboard mesh, the event-driven swarm with its governed execution tail, the
closed-loop policy learner, the hash-chained ledger and the supplier memory. Each source file becomes one module or a
few; code that changes fields becomes a class whose methods are proved against a specification function, and what the
repository promises is then proved about that function or about every run of a transition system built on it.

`dafny verify dfyconfig.toml` covers the whole project.

## How to read it

| file | models |
|---|---|
| `LinearAlgebra.dfy`, `Bandit.dfy`, `Reward.dfy` | the LinUCB bandit over exact reals, any dimension and any history; its reward |
| `Barter.dfy` | the message-counting state machine, the supplier's response rule, the buyer's loop, the supplier's own bid |
| `Auction.dfy` | the auction's state machine, compliance, scoring, the sealed-bid auction and the award after bartering |
| `Blackboard.dfy`, `MeshBuyer.dfy`, `Mesh.dfy`, `MeshReasoning.dfy`, `MeshSafety.dfy`, `MeshFaults.dfy` | the blackboard actor and its permissions, the buyer's reasoning, all actors stepping in any order, what each step takes up, and what exceptions, refusals and restarts do |
| `MeshWitness.dfy`, `MeshOverlap.dfy`, `Kernel.dfy` | a whole run of the mesh to an award, the buyer's steps overlapping, and the safety kernel's validation |
| `SwarmState.dfy`, `EventBus.dfy`, `Completion.dfy` | shared state, the bus with its recorder, and the completion tracker under interleaved handlers |
| `Decision.dfy`, `Governance.dfy`, `Execution.dfy`, `ExecutionWitness.dfy` | ranking and explanation, the governance rule, approval, ordering and tracking by any number of agents, and one such run in full |
| `Params.dfy`, `Routing.dfy`, `RuleOrder.dfy`, `Policy.dfy`, `Learner.dfy` | the clamps, rule selection and when the order of the rules matters, the candidate grid, and the policy store under learning and promotion |
| `Ledger.dfy`, `LedgerPayloads.dfy`, `SupplierMemory.dfy` | the hash chain and its verification; which payload texts survive being read back; the running means and the history adjustment |
| `Basics.dfy`, `Text.dfy`, `StableSort.dfy` | optional values and clipping, string order, decimal text, and Python's stable sort |

Floats are exact reals. Rounding is any monotone function where the property mentions it and is left out where it does
not. A matrix inverse is any function that inverts what can be inverted. A hash is any function, and where a collision
would matter the hypothesis is that the finitely many texts at hand do not collide. Ids are given and only assumed
fresh. Everything another system answers (language models, market data, connectors, evaluation by replay) is an
arbitrary input.

## What the code turned out not to do

Some properties the code suggests are false of it. Each is kept as it is, with the input that shows it and, where there
is one, the exact condition.

- A barter thread closes exactly when the opening meets the floor, for every opening, if and only if rounding leaves the
  floor alone: `Barter.RuleHoldsIffFloorUnrounded`. With a negative floor some threads that open below it close too:
  `Barter.ClosesExactly` is the full condition.
- Suppliers bid at most 15% over their floor and buyers open at 92% of the bid or less, so from a floor of 20 cents on the
  early acceptance at 110% of the floor never happens between the shipped agents, however prices are rounded within half
  a cent and however many turns there are; below it, it can: `Barter.PatientIff`, and with cents
  `Barter.TinyFloorAcceptsEarly`.
- Sealed bids name no quantity, so neither the budget nor the bond rule can reject one: `Auction.SealedBidsEscapeBudget`.
- The price sub-score of a bid is documented as one at the spot price or below; it is one half there and one only for
  nothing: `Auction.SubScorePoints`.
- The mesh buyer's price sub-score does not depend on the price: `MeshBuyer.CompositeIgnoresPrice`. Its tie-break is meant
  to let the lower supplier id win; among the best-scored candidates that holds in every order exactly when no other one
  shares the initial of the lowest id, and in a given order exactly when none that does is listed before it:
  `MeshBuyer.LeastIdWinsIff`.
- The mesh buyer marks a correlation id as decided before it writes the award. The shipped kernel approves every step of
  the mesh, since what it checks never stands at the top level of what the actors hand over (`Kernel.StepsAreApproved`),
  so an award is lost exactly if the buyer raises in between: `MeshFaults.ApprovedArrivesUnlessRaised`, with a run in
  `MeshWitness.AwardCanBeLost`. Under any other kernel a refusal loses it too: `MeshFaults.DecidedArrivesUnlessDropped`.
  What is lost is never made up for: `MeshFaults.InterruptedAwardIsLost`. Failure reports of buyers and negotiators go
  to a channel that refuses them: `MeshFaults.FailureReportRefused`.
- What the kernel approves it clamps afterwards, which can carry the total over the budget it has just checked:
  `Kernel.ClampedPassesAgainIff`, `Kernel.ClampBreaksBudget`.
- Scouts, evaluators and negotiators are restarted when they die and then have no record of what they did. One actor of
  an archetype does nothing twice while it is not restarted (`MeshSafety.NothingTwice`), and does the same work again
  when it is (`MeshFaults.RestartRepeats`, with a whole run in `MeshFaults.RestartedScoutRepeats`). The buyer never is.
- Without the high-risk flag, governance is milder on a high risk than on a medium one:
  `Governance.MonotoneIffHighNeedsApproval`. The policy's purchase ceiling is documented as driving the approval
  threshold; it plays no part in the verdict: `Governance.VerdictOnRisk`. Any unknown governance status is authorized:
  `Execution.AuthorizeMeans`.
- The idempotency guards of the ordering and tracking agents never decide anything: `Execution.GuardsMakeNoDifference`.
- Clamping weights twice can differ from clamping once: `Params.WeightClampIdempotentIff`. The grid clamps the base's
  weights once, those of a moved threshold or another strategy twice and moved weights three times:
  `Policy.GridIsExactly`.
- The shipped baseline policy lies outside the threshold band but within reach of it, so its clamped form is in the grid
  and is added as the base as well; the list holds it twice exactly when the sampler keeps it
  (`Policy.DistinctIffInBand`), which above the cap is the sampler's choice (`Policy.SamplerDecides`). Nor can that
  baseline be rolled back to (`Learner.ShippedBaselineCannotReturn`), although it is documented as the rollback target.
- Of a rule table without explicit ids the order can decide which rule is chosen, exactly when two different matching
  rules are equal in priority and number of conditions: `RuleOrder.OrderIrrelevantIff`.
- Routing overrides take effect for the first trace of an evaluation only: `Routing.OverrideContext.ApplyToTraces`.
- A ledger built by appending need not verify: it does exactly when every stored payload text is written again unchanged
  after being read back (`Ledger.AppendedVerifiesIffStable`). An object with integer keys is, exactly when its keys
  compare as texts the way they compare as numbers (`LedgerPayloads.IntKeysSurviveIff`); the keys 9 and 10 do not, and a
  ledger that holds them fails verification (`LedgerPayloads.NineAndTenFail`).
- With several quotes of one supplier the decision's explanation can describe the wrong one, and does so exactly when a
  non-compliant quote of the selected supplier undercuts its compliant ones: `Decision.DescribedIsSelectedIff`,
  `Decision.TwoQuotesMisexplained`. A false reason is then given to another supplier exactly if such a quote is strictly
  cheaper than the selected one and that supplier ties with the selected one: `Decision.ReasonsTrueIff`,
  `Decision.TieMisexplained`.

## Main results

- Bandit: `Bandit.AlwaysSolved`, `Bandit.ThetaMinimisesRidgeLoss`, `Bandit.WidthDrop`, `Bandit.BonusNeverGrows`.
- Bartering and auction: `Barter.ClosesExactly`, `Barter.RuleHoldsIffFloorUnrounded`, `Barter.PatientIff`,
  `Barter.EstimateDecides`, `Auction.EveryReplyFiledOnce`, `Auction.BarteredAwardSaves`, `Auction.WeightsBuy`.
- Mesh: `MeshSafety.EveryStateIsGood`, `MeshSafety.RootedInRequirement`, `MeshSafety.AwardIsBest`,
  `MeshFaults.DecidedArrivesUnlessDropped`, `MeshOverlap.AtMostOneAwardOverlapping`, `MeshBuyer.LeastIdWinsIff`,
  `MeshBuyer.RiskierIsNotAwarded`, `MeshReasoning.EvaluatorTakesUp`.
- Swarm: `Completion.ClosedAndAnnouncedOnce`, `Completion.FinishedPassMissesNothing`, `Execution.OneOrderOneSubmission`,
  `Execution.TracksTheOrder`, `Execution.AuthorizationsComeFromVerdicts`, `Execution.GuardsMakeNoDifference`,
  `Decision.DescribedIsSelectedIff`, `Governance.MonotoneIffHighNeedsApproval`.
- Learning: `Learner.EveryRunIsSound`, `Learner.EveryScoreWasMeasured`, `Learner.UnforcedPromotionsClimb`,
  `Learner.DriftIsBounded`, `Policy.GridIsExactly`, `Policy.DistinctUnlessMoved`, `RuleOrder.OrderIrrelevantIff`.
- Ledger and memory: `Ledger.SameLastHashSameChain`, `Ledger.AppendNeverRefused`, `LedgerPayloads.IntKeysSurviveIff`,
  `SupplierMemory.AveragesAreMeans`.

## Model

| member | source | states |
|---|---|---|
| Bandit.LinUCBBandit.constructor | mesh/neuro/bandits.py:188-221 | a fresh bandit holds, for every strategy, the state its empty history calls for, and all strategies when none is named |
| Bandit.LinUCBBandit.Update | mesh/neuro/bandits.py:248-262 | matrix, inverse, solution and counts stay those of the history, which grows by this observation for this one strategy |
| Bandit.LinUCBBandit.SelectAction | mesh/neuro/bandits.py:223-246 | the first strategy with the highest upper confidence bound, noise for untried ones included |
| Bandit.LinUCBBandit.SaveState | mesh/neuro/bandits.py:280-295 | what is saved determines the history's matrices, without the inverse and the solution |
| Bandit.LinUCBBandit.Load | mesh/neuro/bandits.py:296-319 | loading rebuilds every arm of the saved history exactly, inverse and solution included |
| Bandit.AccumulatedSums | mesh/neuro/bandits.py:248-262 | after any updates A is lambda times the identity plus the sum of x x^T, and b the sum of reward times x |
| Bandit.StatisticsAreTotals | mesh/neuro/bandits.py:259-262 | the count and the total kept for a strategy are the number of its observations and the sum of their rewards |
| Bandit.AlwaysSolved | mesh/neuro/bandits.py:201-262 | for lambda > 0 and any history A is positive definite, A_inv its two-sided inverse and A theta = b |
| Bandit.WidthDrop | mesh/neuro/bandits.py:248-262 | one update lowers the confidence width of every vector by exactly (v A_inv x)^2 / (1 + x A_inv x) |
| Bandit.WidthNeverGrows | mesh/neuro/bandits.py:223-262 | along any further history no vector's width grows, and it is always between zero and the squared length over lambda |
| Bandit.WidthSign | mesh/neuro/bandits.py:233-236 | a width is never negative, so the clip under the square root is idle |
| Bandit.BonusNeverGrows | mesh/neuro/bandits.py:223-246 | the bound is never under the predicted reward, and its bonus over that prediction never grows with further observations, in any context |
| Bandit.RidgeLossQuadratic | mesh/neuro/bandits.py:248-262 | the regularised squared error of any weights over a history equals the quadratic form in A and b the bandit keeps |
| Bandit.ThetaMinimisesRidgeLoss | mesh/neuro/bandits.py:248-262 | the solution kept is the unique minimiser of the regularised squared error over the history |
| Bandit.RestoreSave | mesh/neuro/bandits.py:280-319 | restoring a saved arm of any history gives that arm back |
| Reward.ClipIsIdle | mesh/neuro/bandits.py:321-365 | for real rounds and a unit composite score the reward needs no clip and lies in [0.06, 1] |
| Reward.RewardInUnit | mesh/neuro/bandits.py:357-365 | whatever the deal, the reward is in the unit interval |
| Reward.CheaperAndQuickerPays | mesh/neuro/bandits.py:335-365 | a cheaper or quicker deal on equal terms never earns less, and a cheaper one within budget strictly more |
| Reward.PartsEarn | mesh/neuro/bandits.py:335-365 | what each part of a deal is worth: cost as its share of the budget, each round, the score, and each of the payment terms |
| Barter.BilateralFSM.constructor | core/protocol/fsm.py:70-75 | a new thread has sent nothing |
| Barter.BilateralFSM.ValidateMessage | core/protocol/fsm.py:77-91 | legal exactly before the end, within the budget and after an offer where one is needed; running out ends the thread |
| Barter.BilateralFSM.RecordMessage | core/protocol/fsm.py:93-117 | refines the one-message step on values |
| Barter.AnyMessagesStayLegal | core/protocol/fsm.py:77-117 | whatever messages are tried, the history stays legal: within budget, numbered, nothing before an offer, nothing after the end |
| Barter.LegalMessagesAreRecorded | core/protocol/fsm.py:77-117 | and conversely every legal sequence of messages is recorded in full, as it was sent |
| Barter.BarterWithSupplier | core/agents/buyer.py:126-196 | the loop over a message-counting machine produces exactly the recursive thread; no message is refused; nothing is sent for no turns |
| Barter.ThreadShape | core/agents/buyer.py:106-196 | one OFFER, then COUNTERs, then one ACCEPT or REJECT at the end, within the doubled budget |
| Barter.RestLength | core/agents/buyer.py:137-186 | two messages per offer less one, the deal price is the rounded last offer, success exactly on ACCEPT |
| Barter.ClosesFromAbove | core/agents/supplier.py:92-162 | from an offer at the floor or above every thread closes, at offers never below the floor |
| Barter.ClosesFromBelow | core/agents/supplier.py:92-162 | the exact condition under which a thread below the floor still closes |
| Barter.ClosesExactly | core/agents/buyer.py:137-186 | for any floor rounding leaves alone: closes exactly if the opening meets the floor, or a negative floor's early-accept mark is reached by halving the gap in time |
| Barter.ClosesIffOpeningMeetsFloor | core/agents/buyer.py:137-186 | for a floor of at least zero: closes exactly when the opening meets it |
| Barter.FailureHalvesGap | core/agents/supplier.py:130-162 | below a non-negative floor every turn is used, every offer stays below and the gap halves |
| Barter.RoundedFloorMisjudges | core/agents/supplier.py:130-162 | a floor that rounding moves makes some opening come out wrong |
| Barter.RuleHoldsIffFloorUnrounded | core/agents/supplier.py:92-162 | the rule holds of all openings exactly when rounding leaves the floor alone |
| Barter.CentsNeverLift | core/agents/supplier.py:140-150 | rounding to cents never lifts a counter above the offer it answers, for whole-cent floors from 25 cents |
| Barter.SuccessPricesAndLength | core/agents/buyer.py:137-186 | on success offers never rise, the price lies between floor and opening, and the thread takes one exchange from 1.1 floors on and every turn otherwise |
| Barter.DealBeatsBid | core/agents/buyer.py:112-124 | the buyer opens between 80% and 92% of the bid, and a deal costs between the floor and the opening |
| Barter.OpeningFollowsEstimate | core/agents/buyer.py:112-124 | the opening is the remembered estimate where it lies from 80% to 92% of the bid, 80% for a lower one, 92% for a higher one or none |
| Barter.EstimateDecides | core/agents/buyer.py:112-196 | a remembered supplier's thread closes exactly when the estimate meets the floor if it lies in that range, and at its ends exactly when the end does |
| Barter.DealKeepsMargin | core/agents/supplier.py:38-41 | a closed thread keeps at least the minimum margin over the supplier's cost |
| Barter.BidBounds | core/agents/supplier.py:60-80 | a rounded bid is within half a cent of a price between the floor and 1.15 floors, never under a whole-cent floor, and over the buyer's room, before rounding or if that is whole cents too, exactly when the floor is |
| Barter.OwnBidsTakeEveryTurn | core/agents/supplier.py:60-162 | with every price rounded to within half a cent and a floor from 20 cents on, a supplier bidding by its own rule never accepts early: every thread takes every turn, and closes, for a whole-cent floor, exactly when 92% of the bid covers it |
| Barter.PatientIff | core/agents/supplier.py:60-162 | no early acceptance under any rounding within half a cent and any number of turns, exactly for floors from 20 cents on |
| Barter.TinyFloorAcceptsEarly | core/agents/supplier.py:60-137 | a floor of 0.6 cents is bid as one cent and the opening is accepted at once |
| Barter.ExactBidsTakeEveryTurn | core/agents/supplier.py:60-162 | with exact prices no floor is too small |
| Auction.AuctionsOnlyAdvance | core/protocol/fsm.py:19-58 | whatever transitions are requested, at most five happen, always forward, none after the end |
| Auction.FiveMovesAtMostAreMade | core/protocol/fsm.py:19-58 | all five can be made, to either end, and refused ones do not count |
| Auction.GlobalAuctionFSM.Transition | core/protocol/fsm.py:47-52 | moves exactly along the table and counts the moves |
| Auction.SealedBidsEscapeBudget | core/protocol/policy_engine.py:22-49 | a bid without a quantity passes exactly on blacklist, unit price and carbon |
| Auction.PolicyEngine.Evaluate | core/protocol/policy_engine.py:22-49 | the rules in the order of the source compute the specified verdict |
| Auction.RejectedForFirstBroken | core/protocol/policy_engine.py:22-49 | a rejection is for the first rule in order that the bid breaks, and a bid that breaks none passes |
| Auction.SubScorePoints | core/evaluator/scoring.py:47-80 | where each sub-score is one, zero and in between; the price sub-score is one half at the spot price |
| Auction.SubScoreFallbacks | core/evaluator/scoring.py:47-76 | what counts where the spot price, the quantity or the target is missing |
| Auction.ScoreInUnit | core/evaluator/scoring.py:36-102 | with weights adding up to one a score is in the unit interval, whatever reliability is claimed |
| Auction.WeightsBuy | core/evaluator/scoring.py:82-102 | each weight goes with its own criterion: at what rate moving the price, the delay, the carbon or the reliability moves the score |
| Auction.SubScoresOrdered | core/evaluator/scoring.py:47-80 | a bid no worse on every criterion has no lower sub-score on any |
| Auction.DominanceRespected | core/evaluator/scoring.py:82-102 | and no lower composite, for any non-negative weights and monotone rounding |
| Auction.CollectReplies | core/protocol/auction_orchestrator.py:82-112 | replies split into bids, self rejections and failures, in order |
| Auction.ScreenBids | core/protocol/auction_orchestrator.py:114-132 | bids split into valid ones and policy rejections, in order |
| Auction.RunSealedBidAuction | core/protocol/auction_orchestrator.py:44-240 | winner, losers, shortlist, rejections and final state, as functions of the replies |
| Auction.EveryReplyFiledOnce | core/protocol/auction_orchestrator.py:85-240 | winner, losers, policy rejections, self rejections and failures together are exactly the replies, with multiplicity |
| Auction.ExactlyOneOutcome | core/protocol/auction_orchestrator.py:85-240 | with distinct ids each supplier is in exactly one of the five lists |
| Auction.WinnerIsEarliestBest | core/evaluator/scoring.py:104-121 | the winner's score is maximal among valid bids and the earliest such bid wins |
| Auction.RunBilateralBartering | core/protocol/auction_orchestrator.py:242-365 | one thread per shortlisted bid, the cheapest deal of all, and the final state |
| Auction.CheapestDeal | core/protocol/auction_orchestrator.py:295-311 | the lowest successful price, the earliest on a tie, none when no thread succeeds |
| Auction.BarteredAwardSaves | core/protocol/auction_orchestrator.py:295-311 | the award costs at most 92% of that supplier's bid, at least its floor, and no more than any other deal |
| Blackboard.DistributedBlackboard.Write | mesh/blackboard.py:62-107 | refused exactly without permission, otherwise appended to that channel only |
| Blackboard.DistributedBlackboard.Read | mesh/blackboard.py:109-144 | refused exactly without permission, otherwise the newest traces first |
| Blackboard.DistributedBlackboard.ReadMulti | mesh/blackboard.py:146-169 | refused as a whole if any channel is refused |
| Blackboard.DistributedBlackboard.ClearChannel | mesh/blackboard.py:200-209 | empties one channel, leaves the others and the write counter |
| Blackboard.RecentShape | mesh/blackboard.py:137-143 | a positive limit bounds the answer, limit zero returns everything |
| MeshBuyer.CompositeIgnoresPrice | mesh/actors/buyer.py:275-303 | two quotes for one quantity, whatever it is, score alike whatever their prices, if these have one sign |
| MeshBuyer.RiskTakesItsShare | mesh/actors/buyer.py:298-303 | a risk assessment takes three tenths of its overall risk off the composite, as a share of it |
| MeshBuyer.CompositeParts | mesh/actors/buyer.py:280-296 | what a rise in lead time, ESG or reliability adds to a composite, and what the quantity does |
| MeshBuyer.RiskierNeverOutscores | mesh/actors/buyer.py:124-156 | of two pooled candidates that only the risk tells apart the riskier has no higher composite under any rounding that keeps order, and with exact scores the lower one exactly when these are positive |
| MeshBuyer.RiskierIsNotAwarded | mesh/actors/buyer.py:158-211 | the riskier of two such suppliers is never awarded when the other passes the policy |
| MeshBuyer.RankedInOrder | mesh/actors/buyer.py:183-198 | an award ranks the whole pool by composite, then supplier id |
| MeshBuyer.ParentsAreExactly | mesh/actors/buyer.py:199-243 | a decision names as parents exactly the non-empty ids of the quotes, evaluations and risks its ranked candidates were built from |
| MeshBuyer.BuyerActor.PassesPolicyFilter | mesh/actors/buyer.py:305-323 | the hard filter, check by check |
| MeshBuyer.OldestReadWins | mesh/actors/buyer.py:80-112 | of several traces of one supplier the last indexed, that is the oldest read, is used |
| MeshBuyer.WinnerMeans | mesh/actors/buyer.py:174-181 | the first candidate whose key no other exceeds |
| MeshBuyer.TieGoesToFirstListed | mesh/actors/buyer.py:174-181 | a candidate wins exactly when it is the first listed of the best-scored ones with the least initial |
| MeshBuyer.TieGoesToLeastLetter | mesh/actors/buyer.py:174-181 | the winner is best-scored, and of those its id starts with the least letter |
| MeshBuyer.LeastIdWinsIff | mesh/actors/buyer.py:174-181 | the lowest id among the best-scored wins in a given order exactly when none of its initial is listed before it, and in every order exactly when no other has its initial |
| MeshBuyer.ChoosesAmongDistinct | mesh/actors/buyer.py:124-181 | the candidates the winner is chosen among have distinct ids |
| MeshBuyer.PoolMeans | mesh/actors/buyer.py:114-156 | the pool holds exactly one candidate per supplier with a quote and an evaluation read under the id, built from them |
| MeshBuyer.ReasonMeans | mesh/actors/buyer.py:70-213 | one decision per id quoted and not yet awarded; an award names the best composite of all that pass the policy; none exactly when none passes |
| MeshBuyer.BuyerActor.BuildPool | mesh/actors/buyer.py:124-156 | the pool built from the indexes is the specified one |
| MeshBuyer.BuyerActor.Deliberate | mesh/actors/buyer.py:70-213 | the indexing, scoring, filtering and deciding loops compute the specified proposals and mark exactly the awarded ids |
| Mesh.ScoutPlanOk | mesh/actors/scout.py:137-222 | whatever requirements were read, every write the scout plans is justified by the board, its chained parents included |
| Mesh.EvaluatorPlanOk | mesh/actors/evaluator.py:70-203 | the same of the evaluator's scores and the risks chained to them |
| Mesh.NegotiatorPlanOk | mesh/actors/negotiator.py:94-194 | the same of the negotiator's quotes |
| Mesh.BuyerPlanOk | mesh/actors/buyer.py:70-257 | the same of the buyer's decisions |
| MeshReasoning.ScoutTakesUp | mesh/actors/scout.py:137-222 | a scout takes up each request once, from the first requirement read for it, and plans its list and every supplier of it |
| MeshReasoning.PoolFound | mesh/actors/evaluator.py:88-112 | the pool an evaluator uses is the first list the discovery names, else the first of its request |
| MeshReasoning.EvaluatorTakesUp | mesh/actors/evaluator.py:70-203 | an evaluator takes up exactly the suppliers it has not done that a pool lists, each once, from the first discovery, and plans score and risk of that one |
| MeshReasoning.NegotiatorTakesUp | mesh/actors/negotiator.py:94-194 | the same of a negotiator, with one quote under the evaluation and the pool |
| MeshReasoning.StepTakesUpNewest | mesh/actors/evaluator.py:65-171 | after a step nothing is left undone that could be done among the newest 10 requirements, 50 discoveries or 50 evaluations, and no more is planned than that |
| MeshReasoning.BuyingDecidesNewest | mesh/actors/buyer.py:58-213 | an approved step of the buyer decides on every request quoted for among the newest 100 quotes that it has not awarded |
| MeshReasoning.LookupSees | mesh/actors/evaluator.py:88-98 | pools are looked up among the newest 20 discoveries |
| MeshReasoning.PermissionsFit | mesh/channels.py:42-74 | every archetype may read what it reasons from; quotes and risks are read by the buyer alone, decisions by no actor; each channel has one writer |
| MeshSafety.EveryStateIsGood | mesh/actors/base.py:116-188 | under any interleaving of reads, reasoning, writes, exceptions and restarts of others the state satisfies the invariant, bookkeeping of the unrestarted archetype included, and the board only grows |
| MeshSafety.EveryStateIsSound | mesh/actors/base.py:116-188 | and whoever is restarted: the board is justified, attributed and has distinct ids, and every remaining plan is justified |
| MeshSafety.ChannelsOnlyGrow | mesh/blackboard.py:62-107 | what a channel held earlier is a prefix of what it holds later |
| MeshSafety.EveryTraceIsAttributed | mesh/channels.py:42-74 | every trace was written by an archetype its channel admits |
| MeshSafety.ParentsAreEarlier | mesh/actors/evaluator.py:173-203 | a parent id names exactly one trace, written strictly earlier, so lineage is acyclic |
| MeshSafety.RootedInRequirement | mesh/actors/scout.py:192-222 | every path of parents from a discovery, score, risk, quote or award goes back in time under one correlation id, can be continued to a requirement and ends nowhere else |
| MeshSafety.LineageIsTyped | mesh/actors/negotiator.py:177-194 | every trace is in the channel of its kind, and its parents are earlier traces of the kind it is derived from, for the same supplier and correlation id |
| MeshSafety.NothingTwice | mesh/actors/evaluator.py:70-171 | of an archetype with one actor that is not restarted: one list and one award per correlation id, one evaluation and one quote per supplier, over any run |
| MeshSafety.AtMostOneAward | mesh/actors/buyer.py:114-211 | with one buyer, at most one award per correlation id over any run, restarts of others included |
| MeshOverlap.AtMostOneAwardOverlapping | mesh/actors/buyer.py:70-243 | and with any number of the buyer's steps overlapping, whatever each read and wherever it ends |
| MeshOverlap.NothingLostOverlapping | mesh/actors/buyer.py:70-243 | where every step is approved and runs to its end, each id marked as decided has its award written or in flight, and in the end exactly those are written |
| MeshOverlap.StepMarks | mesh/actors/buyer.py:114-211 | a step marks every id it read a quote for under which a candidate passes, and writes nothing if it is refused |
| MeshSafety.AwardIsBest | mesh/actors/buyer.py:60-211 | every award on the board is the buyer's decision on the candidates it read at some moments before, ranks exactly those, each backed by traces on the board, passes the policy and has the highest composite of those that pass |
| MeshSafety.RefusalIsRight | mesh/actors/buyer.py:146-171 | every refusal to award follows from candidates read before, none of which passes the policy |
| MeshFaults.FailureReportRefused | mesh/actors/base.py:164-187 | a failure report reaches the board exactly for scouts and evaluators |
| MeshFaults.DecidedArrivesUnlessDropped | mesh/actors/base.py:127-187 | in every run an id marked as awarded has its award on the board or still to be written, exactly unless an earlier exception or refused proposal of the buyer dropped it |
| MeshFaults.ApprovedArrivesUnlessRaised | mesh/actors/base.py:127-187 | where the kernel approves, an exception of the buyer in between is the only thing that drops an award |
| MeshWitness.AwardIsReachable | mesh/actors/buyer.py:70-243 | under any policy a run with one actor of each archetype reaches an award |
| MeshWitness.AwardCanBeLost | mesh/actors/base.py:164-187 | the same run, interrupted before its last write, loses it |
| MeshFaults.InterruptedAwardIsLost | mesh/actors/buyer.py:199-243 | an award so dropped is never made under that id |
| MeshFaults.RestartRepeats | mesh/actors/evaluator.py:38-63 | a restarted scout, evaluator or negotiator does again the work its newest trace calls for, and the board holds it twice |
| MeshFaults.RestartedScoutRepeats | mesh/actors/scout.py:82-105 | a run with one scout, one restart and two lists for one requirement |
| Kernel.SafetyKernel.Validate | mesh/actors/base.py:45-71 | the verdict is that of validation, and both counters follow |
| Kernel.StepsAreApproved | mesh/neuro/kernel.py:37-101 | a payload with nothing that is checked at its top level is approved exactly from the least confidence on |
| Kernel.ClearIff | mesh/neuro/kernel.py:37-92 | nothing is objected to exactly when every given field is within its bounds, the total within the budget and the confidence at least a half |
| Kernel.ClampedIsBounded | mesh/neuro/kernel.py:88-101 | clamping brings prices and lead time within their bounds, moves nothing that was, and nothing else |
| Kernel.ClampedPassesAgainIff | mesh/neuro/kernel.py:37-101 | an approved payload, once clamped, is approved again exactly unless clamping its price carries the total over the budget |
| Kernel.ClampBreaksBudget | mesh/neuro/kernel.py:68-101 | an approved payload whose clamped form is over budget |
| SwarmStates.SwarmState.GetArtifact | swarm/core/state.py:35-41 | refines the latest-version lookup |
| SwarmStates.LatestMeans | swarm/core/state.py:35-41 | the latest is the first recorded of the highest version under the name |
| SwarmStates.SwarmState.FindArtifacts | swarm/core/state.py:47-77 | exactly the artifacts of the kind and conversation, oldest first |
| SwarmStates.SwarmState.ExpectArtifact | swarm/core/state.py:79-96 | declares under the given or the default id, refused without either |
| SwarmStates.SwarmState.CompleteArtifact | swarm/core/state.py:110-116 | idempotent completion under the given or the default id |
| EventBus.Bus.Publish | swarm/core/event.py:116-133 | logs the event, and records it unless it is a replay |
| EventBus.Bus.Replay | swarm/core/event.py:146-177 | leaves the log alone and delivers the selected events in order |
| EventBus.HistoryIsLog | swarm/core/__init__.py:77-86 | under read-only replays the recorded history is the log's originals, in order |
| EventBus.DeliverRepeatsHistory | swarm/core/event.py:157-177 | replaying everything in deliver mode records it all again |
| EventBus.DeliverRepeatsKind | swarm/core/event.py:146-177 | replaying one kind in deliver mode records again exactly what history holds of that kind |
| Completion.ClosedAndAnnouncedOnce | swarm/core/completion.py:54-106 | under every interleaving a group is announced at most once, with as many artifacts as expected then; completions hold no duplicate; exactly the closed groups with a completion event are announced |
| Completion.FinishedPassMissesNothing | swarm/core/completion.py:72-106 | a finished pass leaves no group open that was due throughout it |
| Completion.DecisionSeesAllQuotes | swarm/domain/agents/supplier_discovery_agent.py:189-208 | with quotes declared once, the decision starts and stays with at least that many quotes |
| Completion.AnnouncementIsReachable | swarm/core/completion.py:54-106 | a run in which one artifact closes its group and announces it, after a replayed event that does nothing |
| Completion.OriginalsStartHandlers | swarm/core/completion.py:72-78 | a replayed event starts nothing, any other one handler |
| Completion.CompletionTracker.MarkIfComplete | swarm/core/completion.py:54-70 | closes exactly a group that is due and not yet closed |
| Completion.CompletionTracker.CheckGroup | swarm/core/completion.py:77-106 | one check is the step of the transition system |
| Completion.CompletionTracker.OnEvent | swarm/core/completion.py:72-106 | an uninterrupted delivery closes and announces exactly the groups due, in any order; a replayed one does nothing |
| Decision.Reason | swarm/domain/agents/decision_agent.py:96-200 | ranking, selection and explanation refine the specification |
| Decision.SelectedIsBest | swarm/domain/agents/decision_agent.py:118-120 | someone is selected exactly when a quote complies, and no compliant quote beats the selected one |
| Decision.ExplanationIsTruthful | swarm/domain/agents/decision_agent.py:154-211 | with one quote per supplier everyone but the selected supplier is rejected exactly once, for a reason that is true, a policy reason in its own words |
| Decision.DescribedIsSelectedIff | swarm/domain/agents/decision_agent.py:96-186 | with any number of quotes per supplier the quote described is the one selected exactly when no non-compliant quote of that supplier is cheaper than its compliant ones, or as cheap and earlier |
| Decision.ReasonsTrueIff | swarm/domain/agents/decision_agent.py:96-200 | every reason given is true exactly when no non-compliant quote of the selected supplier is strictly cheaper than its first best compliant one, or no compliant quote of another supplier ties with that one |
| Decision.ReasonsByDescribed | swarm/domain/agents/decision_agent.py:182-200 | the same by the price of the described quote, with the reason each rejected quote is given |
| Decision.TwoQuotesMisexplained | swarm/domain/agents/decision_agent.py:98-186 | two equally scored quotes of one supplier of which the non-compliant one is described as the winner |
| Decision.TieMisexplained | swarm/domain/agents/decision_agent.py:98-200 | three quotes of which one, tied with the selected one, is told that it costs more |
| Governance.MonotoneIffHighNeedsApproval | swarm/domain/governance.py:84-161 | a worse risk never gets a milder decision, for all risks, exactly when high risks need approval |
| Governance.LimitsAreInclusive | swarm/domain/governance.py:84-161 | which side of each limit is approved, needs approval or is rejected |
| Governance.VerdictOnRisk | swarm/domain/governance.py:84-161 | for every risk and policy: when it is rejected or approved, on whose decision, supplier and amount, and when an approver is named; the purchase ceiling plays no part |
| Governance.GovernanceAgent.Perceive | swarm/domain/agents/governance_agent.py:63-80 | what an event makes the agent remember; replays change nothing |
| Governance.GovernanceAgent.Reason | swarm/domain/agents/governance_agent.py:82-117 | the policy's verdict on the assessment, or a rejection for a rejected contract |
| Governance.GovernanceAgent.StepOnRejection | swarm/domain/agents/governance_agent.py:70-101 | a rejected contract ends in a rejection whatever the risk |
| Execution.ApprovalAgent.Act | swarm/domain/agents/approval_agent.py:69-149 | the authorization recorded, and when the agent stays pending: one turn of the transition system |
| Execution.ApprovalAgent.Approve | swarm/domain/agents/approval_agent.py:151-184 | grants exactly a pending latest authorization |
| Execution.AuthorizeMeans | swarm/domain/agents/approval_agent.py:69-118 | which status gives no, a pending or a granted authorization, and when an approver is named |
| Execution.PurchaseOrderAgent.SubmitOrder | swarm/domain/agents/purchase_order_agent.py:207-252 | refines the guarded submission |
| Execution.PurchaseOrderAgent.CreateOrder | swarm/domain/agents/purchase_order_agent.py:145-205 | refines order creation |
| Execution.PurchaseOrderAgent.Act | swarm/domain/agents/purchase_order_agent.py:114-143 | one turn of the transition system: acts only when pending, and stays pending while it announces |
| Execution.ExecutionTrackingAgent.TrackOrder | swarm/domain/agents/execution_agent.py:172-209 | refines the guarded status query |
| Execution.ExecutionTrackingAgent.Track | swarm/domain/agents/execution_agent.py:124-170 | refines tracking: the order's own id is queried and recorded |
| Execution.ExecutionTrackingAgent.Act | swarm/domain/agents/execution_agent.py:92-122 | one turn of the transition system |
| Execution.OrdersTheDecision | swarm/domain/agents/purchase_order_agent.py:172-252 | in every run the first order is for the decision in force, under the id derived from it, with the connector's answer for that id and the one record of its submission |
| Execution.TracksTheOrder | swarm/domain/agents/execution_agent.py:124-209 | in every run the first status is that of the order tracked, with the connector's answer for that order and the one record of its query |
| Execution.AuthorizationsComeFromVerdicts | swarm/domain/agents/approval_agent.py:69-184 | in every run every authorization goes back to an announced verdict that was no rejection, with the state and approver it calls for, and approving grants the pending one for the same decision under the approver's name |
| ExecutionWitness.StatusIsReachable | swarm/domain/agents/execution_agent.py:92-209 | whatever the connectors answer, a run from a decision through approval to one order, one submission, one query and one status, in full |
| Execution.OneOrderOneSubmission | swarm/domain/agents/purchase_order_agent.py:145-252 | under any interleaving of acts and direct calls by any agents: at most one order and one status, one submission per order and one query per status |
| Execution.AuthorizationNeverRegresses | swarm/domain/agents/approval_agent.py:69-184 | the latest authorization only moves from none to pending to granted, and an order exists only once it is granted |
| Execution.RejectionMeansNoOrder | swarm/domain/agents/approval_agent.py:82-101 | when every governance decision is a rejection there is no authorization, no order and no submission |
| Execution.CallsBelongToOrders | swarm/domain/agents/purchase_order_agent.py:172-205 | in every run an order carries the id derived from a recorded decision, a status that of a recorded order or none, and each recorded call is that of a recorded order or status |
| Execution.GuardsMakeNoDifference | swarm/domain/agents/purchase_order_agent.py:219-228 | no reachable state tells agents with different guards apart |
| Execution.PendingRules | swarm/domain/agents/purchase_order_agent.py:114-143 | an agent that is not pending does nothing on its turn, one that finds nothing to act on stops being pending, and a direct call leaves that as it is |
| Params.WeightClamp | swarm/learning/policy.py:260-276 | clamped weights sum to one, each in [1/9, 2/3], in the original order |
| Params.WeightFixedPoints | swarm/learning/policy.py:260-276 | the weights left alone are exactly those in the safe band that sum to one |
| Params.WeightClampIdempotentIff | swarm/learning/policy.py:260-276 | clamping twice is clamping once exactly when no clipped weight is under a fifth of the total |
| Params.ClampingTwiceDiffers | swarm/learning/policy.py:260-276 | weights for which it is not, and which leave the safe band |
| Routing.FirstPrecedesAll | swarm/learning/routing.py:153-190 | the chain of stable sorts puts first a rule least by priority, condition count and id |
| Routing.OrderIrrelevantWithDistinctIds | swarm/learning/routing.py:264-277 | with distinct explicit ids the order of the rule list does not matter |
| Routing.FirstListedWinsWithoutIds | swarm/learning/routing.py:153-190 | without explicit ids the first listed of two equal rules wins |
| RuleOrder.ChosenAtPlace | swarm/learning/routing.py:153-190 | which place of the list is chosen depends on priorities, condition counts, ids and matches alone |
| RuleOrder.ChosenLeads | swarm/learning/routing.py:153-190 | the chosen rule leads all matching ones, and none is chosen exactly when none matches |
| RuleOrder.OrderIrrelevantIff | swarm/learning/routing.py:153-277 | with explicit ids on all rules or on none, reordering the list changes nothing exactly when no two different rules lead |
| Routing.ValidStrategySelectsKnown | swarm/learning/routing.py:348-406 | a valid strategy always yields a known type and overrides within bounds |
| Routing.ValidateParamOverrides | swarm/learning/routing.py:315-345 | the loop over the deltas accepts exactly at most two known parameters with deltas in bounds, whatever order they come in |
| Routing.ValidateRoutingStrategy | swarm/learning/routing.py:348-406 | the checks of the source accept exactly the valid strategies |
| Routing.ValidMeans | swarm/learning/routing.py:315-345 | the exact bounds on one delta and on two together |
| Routing.ValidTableMeans | swarm/learning/routing.py:348-406 | when a table of one rule is valid, and that it may have it three times and no more |
| Routing.SelectionMeans | swarm/learning/routing.py:153-190 | the strategy and overrides of the chosen rule, the default without one or for an unknown strategy, and balanced where that is unknown too |
| Routing.KeyMovesItsOwn | swarm/learning/routing.py:225-237 | each override key moves its own parameter by its delta, an unknown one moves nothing, and several add up |
| Routing.OverrideContext.ApplyParamOverrides | swarm/learning/routing.py:193-242 | overrides are applied once per context, the same in whatever order the keys come |
| Routing.OverrideContext.ApplyToTraces | swarm/learning/learner.py:309-343 | over the traces of one evaluation only the first non-empty overrides take effect |
| Policy.SafeIsFixed | swarm/learning/policy.py:431-462 | safe policies summing to exactly one are those the clamps leave alone with a known strategy |
| Policy.IsSafePolicy | swarm/learning/policy.py:431-462 | the guardrail, check by check |
| Policy.ParamVariants | swarm/learning/policy.py:355-386 | every one-parameter move, duplicates dropped, in order |
| Policy.CollectGrid | swarm/learning/policy.py:334-406 | the nested loops build the specified grid |
| Policy.CollectMeans | swarm/learning/policy.py:337-345 | grid entries have distinct signatures, are clamped and near the base, come from an input, and no near input is missing |
| Policy.EveryMoveTried | swarm/learning/policy.py:355-393 | written out: under every strategy each threshold moved by each delta, and the price and score weight with carbon making up the sum, is in the grid unless clamping took it too far |
| Policy.GridIsExactly | swarm/learning/policy.py:313-406 | the grid holds exactly the clamped base, those moves, and the base under the other strategies and routing tables, as far as they are within 0.20 of the base in every parameter |
| Policy.GenerateCandidates | swarm/learning/policy.py:313-423 | the method computes the specified candidate list |
| Policy.CandidatesHold | swarm/learning/policy.py:408-423 | at most the maximum of clamped candidates; around a fixed base distinct, the base among them, none beyond the delta |
| Policy.CandidatesSorted | swarm/learning/policy.py:420-423 | the candidates come in the order of their signatures |
| Policy.DistinctUnlessMoved | swarm/learning/policy.py:408-423 | no duplicates exactly when the base is in the list, or its clamped form is out of reach, or the sampler did not keep that form; below the cap nothing is sampled away |
| Policy.DistinctIffInBand | swarm/learning/policy.py:408-423 | with proper weights that is exactly when the base's thresholds are in the band or out of reach, or the sampler did not keep the clamped form |
| Policy.SamplerDecides | swarm/learning/policy.py:415-423 | above the cap a base so moved has duplicates with one sampler and none with another |
| Policy.CandidatesNear | swarm/learning/policy.py:296-310 | no candidate is beyond the delta from a base the clamps move no further |
| Policy.SameCandidates | swarm/learning/policy.py:313-423 | the candidates do not depend on the base's scores |
| Learner.PolicyStore.StorePolicy | swarm/storage/event_store.py:418-485 | insert or ignore on version and active flag |
| Learner.PolicyStore.LoadActive | swarm/storage/event_store.py:525-560 | the first active row |
| Learner.PolicyStore.SetActive | swarm/storage/event_store.py:563-592 | exactly the named version becomes active, or nothing changes |
| Learner.PolicyStore.EnsureBaseline | swarm/learning/learner.py:451-511 | the active policy, or the default with the baseline stored if the store was empty |
| Learner.PolicyStore.LearnCandidates | swarm/learning/learner.py:542-704 | refines one learning round |
| Learner.PolicyStore.CanPromote | swarm/learning/learner.py:720-751 | strict improvement by more than the margin and no loss of stability, with what stands in for missing scores |
| Learner.EvaluateStores | swarm/learning/learner.py:654-671 | every row a round adds holds the parameters of a safe candidate and the metric, success rate and stability it got |
| Learner.EveryScoreWasMeasured | swarm/learning/learner.py:602-671 | over every run every stored score but the baseline's zeros is what the row's own parameters were given in one of the run's learning rounds |
| Learner.PolicyStore.PromotePolicy | swarm/learning/learner.py:754-831 | refines promotion, with its reasons for refusal |
| Learner.EveryRunIsSound | swarm/learning/learner.py:542-831 | over every run of learning, promotion and forced promotion: one active row, distinct versions, all but the baseline safe and scored, rows never changed but in the active flag |
| Learner.PromotedIsSafe | swarm/learning/learner.py:754-831 | what is promoted is safe, stored and then active |
| Learner.PromotedIff | swarm/learning/learner.py:720-818 | without force a version is promoted exactly when stored, safe, and its stored metric is above the active one's by more than the margin and its stored stability no lower |
| Learner.LearnedIsFixed | swarm/learning/policy.py:431-462 | every stored policy but the baseline is left alone by the clamps |
| Learner.RollbackIff | swarm/learning/learner.py:801-831 | a forced promotion of a stored version succeeds exactly unless it names an unsafe baseline |
| Learner.ShippedBaselineCannotReturn | swarm/learning/learner.py:451-462 | with the shipped stability threshold the baseline is refused as unsafe |
| Learner.UnforcedPromotionsClimb | swarm/learning/learner.py:720-751 | without force each promotion beats all before it by more than the margin at no loss of stability, so none recurs |
| Learner.LearningIsIdempotent | swarm/learning/learner.py:602-704 | learning again adds no row and returns the same best, whatever the evaluation says |
| Learner.LearnedIsBest | swarm/learning/learner.py:680-704 | the best returned is safe, stored and maximal by score, then version; none only when no candidate is safe |
| Learner.DriftIsBounded | swarm/learning/policy.py:296-310 | after n rounds every stored policy is within n deltas of the baseline, whatever was promoted |
| Ledger.PostgresLedger.GetLastHash | core/ledger/repository.py:47-57 | the hash of the session's newest event, or the genesis value |
| Ledger.PostgresLedger.AppendEvent | core/ledger/repository.py:59-86 | appends the sealed event, refused on a repeated hash |
| Ledger.PostgresLedger.GetEvents | core/ledger/repository.py:88-110 | exactly the session's events, in order |
| Ledger.PostgresLedger.VerifyChain | core/ledger/repository.py:112-136 | accepts exactly the chains whose links and hashes hold |
| Ledger.RawInjective | core/ledger/repository.py:70-71 | with colon-free fields the hashed text determines the event |
| Ledger.SameLastHashSameChain | core/ledger/repository.py:112-136 | two verifying chains of a session with one last hash are the same events |
| Ledger.StableVerifies | core/ledger/repository.py:59-136 | an appended ledger whose payload texts survive being read and written again verifies, whatever the hash |
| Ledger.AppendedVerifiesIffStable | core/ledger/repository.py:59-136 | without collisions it verifies exactly then |
| LedgerPayloads.TextInjective | core/ledger/repository.py:69 | the text of an object determines its members and their order |
| LedgerPayloads.TextLooks | core/ledger/repository.py:69 | the text of an object is in braces and starts with its first member |
| LedgerPayloads.MemberLooks | core/ledger/repository.py:69 | a member is its key in quotes, a colon, a space and its number |
| LedgerPayloads.IntKeysSurviveIff | core/ledger/repository.py:69-134 | an object with integer keys survives exactly when its keys sort as texts as they do as numbers |
| LedgerPayloads.TextKeysSurvive | core/ledger/repository.py:69-134 | one with text keys always does |
| LedgerPayloads.NineAndTen | core/ledger/repository.py:69-134 | one integer key survives, the keys 9 and 10 do not |
| LedgerPayloads.SurvivingPayloadsVerify | core/ledger/repository.py:59-136 | a ledger of payloads that survive verifies |
| LedgerPayloads.NineAndTenFail | core/ledger/repository.py:59-136 | a ledger of one event with the keys 9 and 10 does not, unless hashes collide |
| Ledger.AppendNeverRefused | core/ledger/repository.py:28-86 | with colon-free fields and no collision the unique hash column never refuses an append, across all sessions |
| SupplierMemory.AveragesAreMeans | swarm/domain/supplier.py:33-85 | every average is the mean over all outcomes, and the delivery average the successful fraction |
| SupplierMemory.RecordAveragesReports | swarm/memory/supplier.py:46-74 | in terms of the reports: each average of a supplier's record, times their number, is the total of that figure over its own reports |
| SupplierMemory.RecordPermuted | swarm/domain/supplier.py:33-85 | a record does not depend on the order of its outcomes |
| SupplierMemory.AdjustmentShape | swarm/memory/supplier.py:89-107 | within 0.05, at the ends exactly from 0.9 up and 0.4 down, zero exactly at 0.65, monotone and strictly so between |
| SupplierMemory.CompetitivenessMeans | swarm/memory/supplier.py:76-86 | for all prices: perfect exactly when no more than the quote was paid or nothing can be compared, nothing exactly for a negative quote, otherwise the ratio |
| SupplierMemory.SupplierMemoryStore.Get | swarm/memory/supplier.py:37-39 | the record of the supplier's own reports, none without any |
| SupplierMemory.SupplierMemoryStore.UpdateFromOutcome | swarm/memory/supplier.py:46-74 | the supplier's record is that of all its reports, and no other record changes |
| StableSort.SortRefines | swarm/learning/routing.py:153-190 | a stable sort of a list already in one order yields the lexicographic order of both keys |

## Left out

- Web routers, process start-up, database and message transports, connectors to other systems, prompts and language models: they only pass on what the model takes as arbitrary input.
- Floating-point error, wall-clock timestamps and the generation of ids.
- Context vectors of the bandit (mesh/neuro/bandits.py:99-175): any vector of the right length stands for one.
- Concurrent appends to one ledger session: appends are modelled one after another; two that read the same last hash would fork the chain.
- Agent lifecycle status and the routing of events by capability (swarm/core/agent.py, swarm/core/registry.py).
- The buyer's second filter over bids (core/agents/buyer.py:59-88) repeats the orchestrator's screening and is not modelled again.
- MeshSafety.EveryStateIsGood: what evaluators, negotiators and scouts compute (scores, risks, quotes, pools) is arbitrary, and so is the safety kernel's verdict; of the actors' reasoning their filtering, bookkeeping, writes and parents are modelled. Runs do not clear channels. An actor's steps follow one another, and an exception inside reasoning is taken before or after it.
- MeshSafety.NothingTwice: restarts are modelled and excluded for the archetype it speaks of; that at most three happen is not modelled. Overlapping steps of one actor are excluded too: scouts, evaluators and negotiators wait between looking work up and marking it, so two overlapping steps can do the same work twice. The buyer does not wait there, and its awards stay unique (MeshOverlap.AtMostOneAwardOverlapping).
- RuleOrder.OrderIrrelevantIff: lists in which only some rules have explicit ids are left out; there an implicit id, which names a position, is compared with explicit ones.
- Kernel.StepsAreApproved: numbers that do not parse, for which validation raises, are left out.
- MeshBuyer.BuyerActor.Deliberate: fields missing from a payload, for which the source has defaults, are taken as present.
- Completion.DecisionSeesAllQuotes: that discovery declares a request's quotes once is a hypothesis; the strategy and supplier-intelligence agents that trigger it are not part of this model.
- Completion.CompletionTracker.OnEvent: the uninterrupted pass lists the requests and groups up front; the interleaved passes are the transition system's.
- Execution.OneOrderOneSubmission: connectors answer every call; a connector that raises would leave the order unrecorded.
- Execution.PurchaseOrderAgent.CreateOrder: amounts, suppliers and quotes copied into the order are not modelled, nor are the legacy connector's status words.
- Governance.VerdictOnRisk: the reasons given in words are left out.
- Learner.PolicyStore.LearnCandidates: evaluation by replay is any function of the candidate; the average and feedback scores stored beside metric and stability are left out.
- Learner.PolicyStore.LoadActive: the order by creation time is the order of insertion; at most one row is active in any run, so it never matters.
- Routing.FirstPrecedesAll: whether a rule's conditions match the context is any predicate of the rule.
- Policy.GenerateCandidates: the routing tables proposed around a base and the seeded sampler are given, the sampler as any choice of distinct positions.
- SupplierMemory.RecordPermuted: the timestamp of a record is not modelled.
- LedgerPayloads.IntKeysSurviveIff: objects have integer values and keys that need no escaping; nesting and other values are left out.
- Ledger.SameLastHashSameChain: events are compared as read back, with the payload's canonical text.
- Decision.Reason: how scores and compliance verdicts of the entries come about is left out.
