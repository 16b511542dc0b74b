# Verified model of the order pipeline

This project models, in Dafny, the parts of the trading system that decide what rests on a
venue and what the system believes about it, and proves what holds of them over all inputs
and all runs.

- **Orders and the OMS** (`Types`, `StateMachine`, `Order`, `FillAccounting`,
  `ExecutionAlgos`, `OmsModel`, `OmsInvariants`, `Accumulation`, `SelfTrade`, `Convergence`,
  `AmendRecovery`, `Quotes`, `ChildOrders`, `Withdrawals`, `VenueSync`, `Shutdown`,
  `OmsEngine`). `OmsModel` gives each handler of the engine as a function on the engine's
  state; `OmsEngine` is the engine as a class whose methods work in place and are proved to
  compute those functions. The other files prove properties of runs: orders do not pile up,
  re-sent signals are silent, strategies do not trade with each other, quotes and slices
  follow the legs last approved, lost amend responses are recovered in bounded time, nothing
  is placed after the kill switch without an approval.
- **The futures protocol** (`BinanceGateway`, `FuturesProtocol`, `FuturesAgreement`,
  `FuturesAmends`, `FuturesAnswers`, `FuturesSystem`, `FuturesCounterexamples`). OMS, gateway and venue exchange messages over
  first-in-first-out queues shared by all orders; the gateway handles one request at a time
  and is suspended at REST calls; calls may time out and take effect later or never; the
  user-data stream may drop reports. The system is projected onto one order at a time, and
  the invariant is proved there.
- **Depth books** (`OrderBook`, `DepthBook`). The venue is a history of absolute level
  updates; diffs and snapshots are truthful about it; everything may interleave.
- **Backtests** (`SimulatedClock`, `BacktestMatching`, `BacktestPrices`, `BacktestTimeline`, `BacktestGateway`,
  `BacktestEngine`). The matching rules, the schedule, and the replay loop that drives them.
  Whatever strategies and market data deliver while the loop yields is an arbitrary script.
- **Statistics, VPIN, rate limits, risk** (`TradeStats`, `Vpin`, `VpinBuckets`, `RateLimiter`, `RiskEngine`,
  `RiskState`).

Prices, quantities and volumes are reals, times are integers in nanoseconds. Where an
operation works in place, a class method is proved equal to a function, and the theorems are
about the function. Exceptions are results (`ok`, `None`, an outcome).

Assumptions, besides those each theorem states: order ids and client order ids are fresh,
fill quantities are positive, the clock does not go back, and the bus drops nothing except
where the model says so.

Every lemma switches automatic induction off and does its inductions by hand.

## Where the code differs from its comments

The model follows the code.

- A PENDING_NEW order cannot be cancelled (`src/trading/oms/state_machine.py:27`), so
  `cancel_order` skips it without an error.
- Exact matching in reconcile is greedy and ignores status: an earlier leg may take, as its
  fallback, the order a later leg matches exactly. The fixpoint theorems hold regardless.
- An amend sets the total quantity to the leg's quantity while matching compares what is
  left, so a part-filled order that is amended ends short of its leg.
  `Convergence.SnapshotReachedIffNothingMissing` gives the exact condition.
- VWAP's slices need not add up to the parent: the running total of the rounded shares is
  rounded at every addition. `ExecutionAlgos.VwapSlicesSumToParent` gives the difference
  exactly, and `ExecutionAlgos.RoundedUpVwapSellsTooMuch` a profile whose last bucket comes out
  negative. `next_slice` may recurse through any number of empty buckets, not just one.
- The sweep that gives a pending amend up is called safe because a late response is handled,
  but a late confirmation meets an ACKNOWLEDGED order and is dropped
  (`src/trading/oms/engine.py:466-560`): the OMS keeps the old quantity for good
  (`FuturesCounterexamples.SweptAmendGoesAstray`). So does a fill that overtakes a confirmation,
  and an amend that times out and is applied all the same. `FuturesSystem.QuietSystemAgrees` and
  `FuturesSystem.QuietOrderStaysInStepIffSameQuantity` say what holds then.
- Pausing a strategy retires only those of its algorithms that have placed a child: the legs
  are found through the orders (`src/trading/oms/engine.py:944-953`). Another goes on
  (`Shutdown.PausedStrategyMayStillPlace`).
- The kill switch cancels what rests, but a leg approved before the leg that kills, or a
  decision already queued, is placed afterwards (`Shutdown.ApprovedLegOutlivesKill`); nothing
  else is (`Shutdown.OnlyApprovalsPlaceAfterKill`).
- `_replay_buffer` checks only its first diff; `DepthBooks.NeverWrongIffNoHole` says when
  that is enough.
- `trade_statistics` closes the oldest open lot, although its comment speaks of the most
  recent.
- `signals_in_window` evicts for the window it was asked about, so a wider window asked
  later counts too few; `RiskStates.CountIsRightIffNothingEvicted` says when.
- A resync that finds an order EXPIRED at the venue is taken to be late when the move is
  illegal, but it is illegal for any order that waits for the venue
  (`src/trading/oms/engine.py:1222-1226`): the order stays live (`VenueSync.ResyncEndsOrder`).
- On -5027 the gateway publishes nothing, so the order waits for an amend until the sweep
  (`FuturesAnswers.NoChangeIsNotReported`).
- In a backtest an IOC or FOK order is filled whatever its limit, and slippage may carry any
  order past it (`BacktestPrices.ImmediateOrderIgnoresItsLimit`,
  `BacktestPrices.SlippageMayPassTheLimit`).
- A partial-fill fraction is not checked to be nonnegative;
  `BacktestMatching.SplitsConserveIffMinFractionNonnegative` says what depends on it.

## Model

| member | source | states |
|---|---|---|
| `StateMachine.LegalPathEndpoints` | src/trading/oms/state_machine.py:25-93 | along any legal history a terminal status comes last and PENDING_NEW first |
| `StateMachine.CancelNeedsAnAckedOrder` | src/trading/oms/state_machine.py:25-69 | exactly which statuses admit a cancel or an amend: none before the first ack or fill |
| `Orders.Order.TransitionTo` | src/trading/oms/order.py:87-91 | raises and changes nothing exactly when the move is not in the table |
| `Orders.Order.RecordFill` | src/trading/oms/order.py:93-116 | accounting for a new fill id, nothing for a repeated one; status untouched |
| `Orders.Order.ApplyFill` | src/trading/oms/order.py:118-135 | on a live order never raises, and ends FILLED exactly when nothing is left |
| `Orders.FillEvolves` | src/trading/oms/order.py:118-135 | a fill, live or late, moves the status along the table and never lowers the filled quantity |
| `Orders.ResponseEvolves` | src/trading/oms/engine.py:377-504 | the same for every venue response |
| `Orders.ResponseEffect` | src/trading/oms/engine.py:377-504 | every response, status by status: which statuses it moves, where to, and what the order takes over from it |
| `Orders.FillEffect` | src/trading/oms/engine.py:327-373 | a fill counts once; it fills a live order exactly when it brings it to its quantity, and is only accounted for on a finished one |
| `FillAccounting.AccountingIsTheSumOfDistinctFills` | src/trading/oms/engine.py:327-373 | whatever is interleaved and repeated, filled is the sum over distinct fill ids and average times filled their cost |
| `FillAccounting.DeliveryOrderIsIrrelevant` | src/trading/oms/engine.py:327-373 | histories delivering the same set of fills, in any order and multiplicity, end with the same totals |
| `ExecutionAlgos.TwapAlgo.Next` | src/trading/oms/execution_algos/twap.py:74-90 | the in-place counter follows the schedule of slices |
| `ExecutionAlgos.VwapAlgo.Next` | src/trading/oms/execution_algos/vwap.py:84-105 | the in-place counter follows the schedule, skipping empty buckets |
| `ExecutionAlgos.PollFollowsSchedule` | src/trading/oms/execution_algos/vwap.py:84-105 | a poll hands out the next nonempty slice, never early, passing over empty ones only; it hands out nothing only if the algorithm is cancelled, at its end, or not due |
| `ExecutionAlgos.AnyPollingFollowsSchedule` | src/trading/oms/execution_algos/twap.py:74-90 | for any polling times: each slice at most once, in order, in full, never before start + k * interval |
| `ExecutionAlgos.TwapSlicesSumToParent` | src/trading/oms/execution_algos/twap.py:65-69 | however the share was rounded, the slices miss the parent by exactly what the last product and difference round, and hit it exactly when these err alike |
| `ExecutionAlgos.VwapSlicesSumToParent` | src/trading/oms/execution_algos/vwap.py:66-72 | the same with the rounding of the running total of the shares |
| `ExecutionAlgos.CompletedAlgoSendsParentQuantity` | src/trading/oms/execution_algos/vwap.py:84-105 | an algorithm polled to its end has sent exactly the sum of its slices |
| `ExecutionAlgos.LatePollingCompletes` | src/trading/oms/execution_algos/vwap.py:84-105 | nothing is held back: polled when all is due, an algorithm advances at every poll until it has ended, unless cancelled |
| `ExecutionAlgos.TwapSharesAreEqual` | src/trading/oms/execution_algos/twap.py:65-69 | all slices but the last are the rounded n-th of the parent, and in exact arithmetic all are its n-th |
| `ExecutionAlgos.VwapSlicesFollowProfile` | src/trading/oms/execution_algos/vwap.py:66-72 | in exact arithmetic each slice, the last included, is to the parent as its weight to all weights |
| `ExecutionAlgos.VwapOvershootsIffSharesRoundUp` | src/trading/oms/execution_algos/vwap.py:66-72 | for any sign-keeping rounding: running totals stay within the whole exactly when the rounded total of the shares is at most the parent |
| `ExecutionAlgos.TwapOvershootsIffSharesRoundUp` | src/trading/oms/execution_algos/twap.py:65-69 | the same for n - 1 equal shares |
| `ExecutionAlgos.RoundedUpVwapSellsTooMuch` | src/trading/oms/execution_algos/vwap.py:66-72 | at 28 digits: quantity 3 over seven equal weights and a zero one ends with a bucket of -2E-27, which is emitted, and does not add up to 3 |
| `OmsInvariants.RunKeepsInvariant` | src/trading/oms/engine.py:126-1230 | over every run: `_orders` and `_coid_to_order_id` stay inverse, `_algos` and `_algo_ctx` share keys, PENDING_AMEND has its amend, statuses follow the table, totals never shrink |
| `OmsInvariants.FilledMeansNothingLeft` | src/trading/oms/engine.py:327-375 | FILLED implies leaves <= 0 on every run without a venue resync |
| `OmsInvariants.ChildrenNeverExceedParent` | src/trading/oms/engine.py:801-860 | one algorithm's child orders never total more than its slices, unless its own schedule overshoots |
| `OmsInvariants.TerminalReachesOnlyItself` | src/trading/oms/state_machine.py:92-93 | terminal statuses are absorbing along any history |
| `OmsInvariants.StepKeeps` | src/trading/oms/engine.py:231-1230 | each handler keeps the invariant and forgets no order |
| `Accumulation.ReconcileDoesNotPileUp` | src/trading/oms/engine.py:601-701 | one reconcile leaves at most max(resting, desired legs) live plain orders a side |
| `Accumulation.OrdersNeverPileUp` | src/trading/oms/engine.py:601-701 | over any run without adoption: never more live plain orders a side than the largest same-side leg count of any signal reconciled |
| `SelfTrade.DecisionNeverCrosses` | src/trading/oms/engine.py:703-750 | every quote placed by a decision, and every price it asks for by amend, is strictly below each live sell, or above each live buy, of other strategies on the instrument |
| `SelfTrade.BlockedIffCrossing` | src/trading/oms/engine.py:703-750 | a leg is held back exactly when prevention is on and its price reaches a live opposite order of another strategy |
| `SelfTrade.NewQuoteIsPlacedUnlessCrossing` | src/trading/oms/engine.py:656-690 | a leg with no order of its side to take is placed on its own terms, and only such a crossing keeps it from being |
| `SelfTrade.NoSelfTradeWhilePricesStand` | src/trading/oms/engine.py:644-750 | a buy and a sell of different strategies: the bid is strictly below the ask while both keep the prices they had when the later one was placed |
| `SelfTrade.IdentitiesNeverChange` | src/trading/oms/engine.py:126-1230 | an order's owner, side and instrument never change over a run |
| `Quotes.DecisionGoesByLatestSignal` | src/trading/oms/engine.py:231-261 | over every run: a decision goes by the signal last received under its id, if none was decided or evicted since |
| `Quotes.RouterSplitsLegs` | src/trading/oms/engine.py:564-599 | every leg is placed directly or sliced, as the router says, and none twice or lost |
| `Quotes.QuotesFollowLegs` | src/trading/oms/engine.py:263-297 | every plain order a decision places and every amend it asks for has the side, price and approved size of an approved leg that is not sliced |
| `ChildOrders.ChildrenFollowTheirLeg` | src/trading/oms/engine.py:820-860 | over every run: each child order has the strategy, instrument and side its leg was last approved on, and the price and quantity of the slice its algorithm hands out |
| `ChildOrders.AlgosFollowLatestTerms` | src/trading/oms/engine.py:779-788 | every running algorithm works on the terms its leg was last approved on |
| `ChildOrders.RequestsDescribeOrders` | src/trading/oms/engine.py:979-1018 | each order an event adds, unless taken over from the venue, is asked for by a request that carries its own side, price and quantity, and no other request goes out |
| `Withdrawals.RejectionWithdrawsPlainOrders` | src/trading/oms/engine.py:902-911 | a rejected signal asks exactly its strategy's plain orders on its instrument to cancel, and touches nothing else |
| `Withdrawals.ReconcileEndsExactlyTheUndesired` | src/trading/oms/engine.py:752-788 | a reconcile ends exactly the algorithms of the strategy on the instrument whose leg is no longer asked for, and cancels exactly their children; every other goes on from where it was |
| `Withdrawals.ReconcileStartsNewLegs` | src/trading/oms/engine.py:778-788 | a sliced leg with no algorithm running gets one: its first slice goes out if due, and it is kept unless that was all of it |
| `Withdrawals.DecisionEndsAndStarts` | src/trading/oms/engine.py:564-599 | the same of a whole approved decision: which running algorithms end, and which legs are started |
| `Withdrawals.WakeEndsExactlyTheOver` | src/trading/oms/engine.py:801-818 | a wake-up ends exactly the algorithms with nothing more to send and no child alive |
| `Withdrawals.FillEndsExactlyTheOver` | src/trading/oms/engine.py:368-375 | a fill ends its order's algorithm exactly if that leaves it over, and no other |
| `Convergence.SatisfiedBookIsFixpoint` | src/trading/oms/engine.py:633-701 | when every leg already rests nothing is placed or amended, and the multiset surplus is what gets cancelled |
| `Convergence.ExactBookIsUntouched` | src/trading/oms/engine.py:633-701 | when the legs are exactly what rests, reconcile changes nothing |
| `Convergence.ResendIsSilent` | src/trading/oms/engine.py:633-701 | re-sending a fully placed signal before any answer sends nothing |
| `Convergence.SettledBookDelivers` | src/trading/oms/engine.py:601-701 | after confirmation a settled book holds exactly the keys the matching promises |
| `Convergence.SnapshotReachedIffNothingMissing` | src/trading/oms/engine.py:650-701 | the confirmed book equals the legs if and only if no order that reconcile sent an amend request for was part filled |
| `Convergence.PartFilledOrderEndsShort` | src/trading/oms/engine.py:650-697 | a book on which it fails: one part-filled order, one leg at another price, short by what was filled |
| `Convergence.UnfilledBookConverges` | src/trading/oms/engine.py:601-701 | an unfilled settled book reaches its signal exactly and is then a fixpoint |
| `AmendRecovery.SweepInvariant` | src/trading/oms/engine.py:506-560 | the throttled sweep's invariant over timed runs |
| `AmendRecovery.LostAmendsAreRecovered` | src/trading/oms/engine.py:506-560 | with driver wake-ups at most d apart no order waits for an amend for timeout + 1 s + d |
| `AmendRecovery.WakeGivesUpExactlyTheOverdue` | src/trading/oms/engine.py:506-560 | a wake-up gives up exactly the amends that have waited for the timeout, once a second at most; a younger one, and every other order, stays as it was |
| `AmendRecovery.ThrottleDelaysRecovery` | src/trading/oms/engine.py:506-530 | why a second must be allowed for: the throttle can skip an overdue order |
| `OmsEngine.Engine.ReconcileImmediate` | src/trading/oms/engine.py:601-701 | the matching loops in place compute the reconcile function |
| `OmsEngine.Engine.ReconcileLeg` | src/trading/oms/engine.py:644-697 | exact match first, then same-side fallback, then placement, with self-trade prevention |
| `OmsEngine.Engine.Blocks` | src/trading/oms/engine.py:703-750 | blocked exactly when prevention is on and the price reaches a live opposite order of another strategy |
| `OmsEngine.Engine.ReconcileSliced` | src/trading/oms/engine.py:752-788 | withdrawal, start and resumption of algorithms in place |
| `OmsEngine.Engine.DriveAlgo` | src/trading/oms/engine.py:801-818 | one drive of one algorithm in place, computing the function whose children `ChildOrders.ChildrenFollowTheirLeg` and whose retirement `Withdrawals.WakeEndsExactlyTheOver` describe |
| `OmsEngine.Engine.OnFill` | src/trading/oms/engine.py:327-375 | fills on live, terminal and unknown orders |
| `OmsEngine.Engine.HandleMove` | src/trading/oms/engine.py:388-427 | rejects, cancels and rejected cancels: illegal moves leave the order alone |
| `OmsEngine.Engine.HandleAmend` | src/trading/oms/engine.py:466-504 | late amend confirmations, after a cancel, a fill or a terminal status |
| `OmsEngine.Engine.HandleAmendRejected` | src/trading/oms/engine.py:429-464 | a refused amend puts the order back to its working status |
| `OmsEngine.Engine.SweepStalePendingAmends` | src/trading/oms/engine.py:506-560 | the throttled sweep over all orders in place |
| `OmsEngine.Engine.CancelOrder` | src/trading/oms/engine.py:1167-1188 | unknown and uncancellable orders are skipped, others go to PENDING_CANCEL |
| `OmsEngine.Engine.CancelAllResting` | src/trading/oms/engine.py:913-929 | kill switch in place: no algorithm listed any more; each order waits to be cancelled if it could be asked to, and is as it was otherwise |
| `Shutdown.KillSwitchEffect` | src/trading/oms/engine.py:913-929 | algorithm tables empty, one request for each order that can be cancelled; a live order escapes exactly when it is still PENDING_NEW |
| `OmsEngine.Engine.CancelStrategyOrders` | src/trading/oms/engine.py:931-963 | the same in place for one strategy's orders; no other order changes |
| `Shutdown.PauseEffect` | src/trading/oms/engine.py:931-963 | one request for each of the strategy's orders that can be cancelled; an algorithm goes exactly when one of the strategy's orders is its child |
| `Shutdown.PausedStrategyMayStillPlace` | src/trading/oms/engine.py:944-953 | an algorithm without a child survives the pause and places one at the next wake-up |
| `Shutdown.OnlyApprovalsPlaceAfterKill` | src/trading/oms/engine.py:237-247 | after the kill switch, on any run, the OMS sends no order request unless an approving decision reaches it |
| `Shutdown.KillingSignalIsApprovedIffLegPassed` | src/trading/risk/engine.py:217-331 | the signal that kills is approved all the same exactly when it is not atomic and a leg before the killing one passes |
| `Shutdown.BuyThenSellDecision` | src/trading/risk/engine.py:217-331 | such a signal: the kill event and the approval of its first leg |
| `Shutdown.ApprovedLegOutlivesKill` | src/trading/oms/engine.py:237-297 | handled in the order kill event, decision, the OMS places that leg after cancelling everything |
| `OmsEngine.Engine.OnRiskDecision` | src/trading/oms/engine.py:249-297 | the cached signal is used up; rejected signals withdraw, approved ones reconcile at approved sizes |
| `OmsEngine.Engine.AdoptOrder` | src/trading/oms/engine.py:1044-1165 | known orders are refreshed, unknown ones enter the book |
| `VenueSync.UnknownOrderIsAdopted` | src/trading/oms/engine.py:1081-1130 | an unknown order enters the book with the side, size, price, fills and id the venue reports, working, for the strategy its client id names |
| `VenueSync.KnownOrderIsRefreshed` | src/trading/oms/engine.py:1071-1079 | a known live order takes over the quantity, the price if there is one, and the fills if they are more; a finished one nothing |
| `VenueSync.AdoptionIsIdempotent` | src/trading/oms/engine.py:1068-1079 | the same report taken over twice is taken over once |
| `OmsEngine.Engine.Terminalize` | src/trading/oms/engine.py:1190-1229 | a venue resync forces a terminal status and raises the filled quantity only |
| `VenueSync.ResyncEndsOrder` | src/trading/oms/engine.py:1190-1227 | exactly from which statuses each terminal status is reached, with the fills raised; EXPIRED does not end an order that waits for the venue |
| `BinanceGateway.Gateway.Resume` | src/trading/order_gateways/binance/order_gateway.py:148-507 | after each answer: what is published, and whether another call follows |
| `BinanceGateway.Gateway.HandleAmendAnswer` | src/trading/order_gateways/binance/order_gateway.py:308-455 | every outcome of the futures amend in place, including the fall to a cancel at the modify limit, computing the function that `FuturesAnswers` describes |
| `BinanceGateway.Gateway.HandleForcedCancelAnswer` | src/trading/order_gateways/binance/order_gateway.py:457-507 | every outcome of the cancel that follows |
| `FuturesProtocol.MovesKeepSafe` | src/trading/order_gateways/binance/order_gateway.py:148-507 | every move of OMS, gateway, venue, stream and network keeps: whatever says "cancelled" is right about the venue |
| `FuturesAgreement.MovesKeepRejects` | src/trading/order_gateways/binance/order_gateway.py:148-197 | unless the order request timed out, whatever says "rejected" is right |
| `FuturesAgreement.MovesKeepFills` | src/trading/order_gateways/binance/user_data.py:266-363 | what the OMS has filled plus what is in flight is what the venue executed, and fills arrive once |
| `FuturesAgreement.MovesKeepEnds` | src/trading/order_gateways/binance/user_data.py:266-363 | an order the venue ended is terminal at the OMS, or the news is on its way |
| `FuturesAmends.MovesKeepUnamended` | src/trading/order_gateways/binance/order_gateway.py:148-290 | for orders never amended no amend is ever around and none goes astray |
| `FuturesAmends.MovesKeepFollowed` | src/trading/oms/engine.py:466-504 | unless an amend went astray, the venue's quantity is what the OMS will have once it has taken over every confirmation under way |
| `FuturesAmends.MovesKeepSettled` | src/trading/oms/engine.py:429-464 | an order the venue filled, all of whose fills were handled, is never left live with nothing left unless an answer that ends it is under way |
| `FuturesAmends.QuietRecordsAgree` | src/trading/oms/engine.py:466-560 | quiet and nothing lost: equal executions; equal quantities unless an amend went astray; and with equal quantities, amended or not, live exactly when it rests |
| `FuturesAmends.HowRecordsDiffer` | src/trading/oms/engine.py:466-560 | the only two ways to differ: FILLED below a larger resting quantity, or live at another quantity than the one filled; both need an amend that went astray |
| `FuturesAmends.StaysInStepIffSameQuantity` | src/trading/oms/engine.py:466-560 | a quiet live order stays in step through every course of executions if and only if both sides have the same quantity |
| `FuturesAmends.RejectedMayComeToRestIffRequestInLimbo` | src/trading/order_gateways/binance/order_gateway.py:165-197 | a REJECTED order the venue has not accepted can come to rest exactly while its timed-out request may arrive |
| `FuturesAnswers.MovesKeepAnswered` | src/trading/order_gateways/binance/order_gateway.py:148-290 | over every move: an order waiting for its placement or a cancel has the request, a call, or an answer under way, unless the stream dropped a report |
| `FuturesAnswers.MovesKeepAmendAnswered` | src/trading/order_gateways/binance/order_gateway.py:308-455 | so has one waiting for an amend, under every move but the answer -5027 |
| `FuturesAnswers.OrderRequestOutcome` | src/trading/order_gateways/binance/order_gateway.py:148-197 | acknowledged if the venue took the order, rejected if it refused it or nobody knows |
| `FuturesAnswers.FailedCancelOutcome` | src/trading/order_gateways/binance/order_gateway.py:226-290 | a failed cancel leaves the order ACKNOWLEDGED, but -2011 and -2013 end it as CANCELLED |
| `FuturesAnswers.AmendOutcome` | src/trading/order_gateways/binance/order_gateway.py:322-455 | quantity, price and status for each answer to an amend: as the venue reports it, else as asked; ended on -2013 or a terminal status; unchanged on any other refusal |
| `FuturesAnswers.NoChangeIsNotReported` | src/trading/order_gateways/binance/order_gateway.py:330-337 | on -5027 nothing is published, and the order waits for the sweep |
| `FuturesAnswers.AmendRefusedForGoodRemovesOrder` | src/trading/order_gateways/binance/order_gateway.py:356-377 | whatever happens after -5026: as long as the cancel that follows does not fail, the gateway is still at it, or the order is off the venue and ended at the OMS or the news before it |
| `FuturesAnswers.RemovalRun` | src/trading/order_gateways/binance/order_gateway.py:457-507 | the shortest such run: -5026, DELETE, handled; Gone at the venue, CANCELLED at the OMS |
| `FuturesAnswers.FailedRemovalOutcome` | src/trading/order_gateways/binance/order_gateway.py:478-495 | had the cancel failed, the order would work on, on its old terms |
| `FuturesAnswers.OrderComesToRest` | src/trading/order_gateways/binance/order_gateway.py:148-197 | an undisturbed order rests in the quantity it was placed in, acknowledged |
| `FuturesAnswers.AmendRunsThrough` | src/trading/order_gateways/binance/order_gateway.py:308-455 | an undisturbed amend gives both records the quantity and price asked for |
| `FuturesAnswers.CancelRunsThrough` | src/trading/order_gateways/binance/order_gateway.py:226-290 | an undisturbed cancel takes the order off the venue and ends it |
| `FuturesSystem.OwnShare` | src/trading/order_gateways/binance/order_gateway.py:137-146 | a step of the shared system is one protocol move for its own order |
| `FuturesSystem.OtherShare` | src/trading/order_gateways/binance/order_gateway.py:137-146 | and nothing at all for every other order |
| `FuturesSystem.ReachableIsOk` | src/trading/order_gateways/binance/order_gateway.py:137-507 | every reachable state satisfies the invariant for every order |
| `FuturesSystem.CancelledNeverRests` | src/trading/order_gateways/binance/order_gateway.py:226-507 | in every reachable state an order the OMS records as CANCELLED does not rest; nor a REJECTED one whose request did not time out |
| `FuturesSystem.QuietSystemAgrees` | src/trading/order_gateways/binance/order_gateway.py:226-507 | in every reachable state, with nothing about an order in flight and nothing lost, amended or not: equal executions; equal quantities and liveness unless an amend went astray; equal liveness whenever the quantities are equal |
| `FuturesSystem.QuietOrderStaysInStepIffSameQuantity` | src/trading/order_gateways/binance/order_gateway.py:308-455 | and it stays so whatever is executed if and only if the quantities are equal |
| `FuturesSystem.NoOrderIsLeftWaiting` | src/trading/order_gateways/binance/order_gateway.py:137-507 | in every reachable state, with nothing about an order in flight: it does not wait for its placement; nor for a cancel, unless the stream dropped a report; nor for an amend, unless the venue once answered -5027 |
| `FuturesCounterexamples.FilledMayStillRest` | src/trading/oms/engine.py:466-504 | a fill overtaking an amend upwards: FILLED at the OMS, ten lots resting |
| `FuturesCounterexamples.LiveMayBeGone` | src/trading/oms/engine.py:466-504 | a fill overtaking an amend downwards: live at the OMS, gone at the venue |
| `FuturesCounterexamples.SweptAmendGoesAstray` | src/trading/oms/engine.py:506-560 | the sweep gives an amend up just before its confirmation, with no fill in flight: ten lots at the OMS, five at the venue |
| `FuturesCounterexamples.SweptAmendMayBeGone` | src/trading/oms/engine.py:506-560 | and once those five are executed it is live at the OMS only |
| `FuturesCounterexamples.TimedOutAmendGoesAstray` | src/trading/order_gateways/binance/order_gateway.py:387-390 | an amend that times out, is reported refused, and is applied all the same |
| `FuturesCounterexamples.ExecutionsDoNotDecide` | src/trading/oms/engine.py:327-373 | two runs with the same quantities and executions, one FILLED and one live: no condition on these alone tells whether the records agree |
| `FuturesCounterexamples.TimedOutOrderMayRest` | src/trading/order_gateways/binance/order_gateway.py:165-197 | an order request that times out and arrives: REJECTED at the OMS, resting at the venue |
| `OrderBooks.L2OrderBook.ApplySnapshot` | src/trading/feed_handler/order_book.py:77-87 | a snapshot replaces both sides |
| `OrderBooks.L2OrderBook.ApplyDelta` | src/trading/feed_handler/order_book.py:89-121 | the two loops apply the updates in order; a refused delta changes nothing |
| `OrderBooks.AppliedQuotes` | src/trading/feed_handler/order_book.py:110-119 | absolute updates: a named price takes its quantity, any other keeps its own |
| `DepthBooks.DepthBookManager.FinishBootstrap` | src/trading/order_gateways/binance/depth_book.py:117-128 | snapshot, replay and end of buffering in place |
| `DepthBooks.DepthBookManager.ReplayBuffer` | src/trading/order_gateways/binance/depth_book.py:130-160 | the popping loop computes the replay function |
| `DepthBooks.DepthBookManager.ApplyDiff` | src/trading/order_gateways/binance/depth_book.py:164-196 | buffer, apply, or reset and raise, the last exactly on a gap; an applied diff moves `_last_u` to its last id |
| `DepthBooks.DepthBookManager.ApplyEventToBook` | src/trading/order_gateways/binance/depth_book.py:198-210 | the book's own sequence check never fires |
| `DepthBooks.DiffAdvances` | src/trading/order_gateways/binance/depth_book.py:149-160 | a diff covering U..u brings a book true at k to u, for any U <= k + 1 <= u |
| `DepthBooks.InitialisedBookIsTrue` | src/trading/order_gateways/binance/depth_book.py:96-210 | over every interleaving: whenever initialised, every level held is the venue's at `_last_u`, and none the snapshot spoke for is missing |
| `DepthBooks.InitialisedBookIsEqual` | src/trading/order_gateways/binance/depth_book.py:96-210 | after a snapshot below the limit the two books are equal |
| `DepthBooks.BootstrapSucceedsIffReached` | src/trading/order_gateways/binance/depth_book.py:130-160 | a bootstrap succeeds exactly when the buffer is empty or starts no later than just after the snapshot |
| `DepthBooks.StartUp` | src/trading/order_gateways/binance/depth_book.py:96-196 | a whole start-up: what arrives meanwhile waits in order; the snapshot brings the book to the newest id known exactly when nothing between it and the oldest waiting diff is missing; what a failed one leaves waiting |
| `DepthBooks.LiveDiffIsApplied` | src/trading/order_gateways/binance/depth_book.py:182-196 | a live diff brings the book to the diff's last id, true there, exactly if it follows on; otherwise the book is given up |
| `DepthBooks.FeedIsFollowedIffContiguous` | src/trading/order_gateways/binance/depth_book.py:182-210 | over any live diffs: the book stays initialised, true, and at the last diff's id exactly as long as each starts one after the one before |
| `DepthBooks.NeverWrongIffNoHole` | src/trading/order_gateways/binance/depth_book.py:147-160 | the replay, which checks only its first diff, is right for every venue exactly when no hole follows |
| `SimulatedClocks.SimulatedClock.SetTime` | src/trading/core/clock.py:132-146 | raises exactly on going back; wall and monotonic time advance together |
| `SimulatedClocks.SimulatedClock.Advance` | src/trading/core/clock.py:148-154 | raises exactly on a negative step |
| `BacktestMatching.EveryOrderIsAccountedFor` | src/trading/backtest/order_gateway.py:193-438 | every order rests untouched, or was cancelled or refused without a fill, or its fills sum to exactly its quantity with true running sums |
| `BacktestMatching.SplitsConserveIffMinFractionNonnegative` | src/trading/backtest/order_gateway.py:428-438 | splits conserve quantity for all draws exactly when splitting is off or the minimum fraction is nonnegative |
| `BacktestMatching.TradeTakesExactlyWhatItCrosses` | src/trading/backtest/order_gateway.py:325-340 | a trade takes exactly the orders it trades through and changes no other |
| `BacktestPrices.RestsIffStaysOut` | src/trading/backtest/order_gateway.py:193-252 | a priced order that may rest does so, without a fill, exactly when no tick is known or its price is below the ask (above the bid for a sell); otherwise POST_ONLY is refused and any other taken |
| `BacktestPrices.TakersNeverRest` | src/trading/backtest/order_gateway.py:231-234 | market, IOC and FOK orders never rest; they are filled whole, or refused when there is neither market nor price |
| `BacktestPrices.TakerFillsArePriced` | src/trading/backtest/order_gateway.py:296-323 | every fill on arrival is at the opposite best plus slippage, rounded, or at its own price without a market, after the ack and fill delays |
| `BacktestPrices.LimitIsHonoured` | src/trading/backtest/order_gateway.py:296-323 | without slippage and with fair rounding no order that could have rested is filled on arrival at a price worse than its limit |
| `BacktestPrices.ImmediateOrderIgnoresItsLimit` | src/trading/backtest/order_gateway.py:231-234 | an IOC buy limited to 99 is filled at 100 |
| `BacktestPrices.SlippageMayPassTheLimit` | src/trading/backtest/order_gateway.py:310-319 | with slippage a limit order may be filled past its limit |
| `BacktestPrices.TradeFillsWhatItReaches` | src/trading/backtest/order_gateway.py:325-340 | over every run: a trade fills only resting orders priced at it or through it, each at its own price as maker, and exactly those leave the book |
| `BacktestPrices.TakerFillIsReportedInParts` | src/trading/backtest/order_gateway.py:342-382 | two reports exactly when the draw says so: the drawn fraction first, the rest one delay later |
| `BacktestPrices.MakerFillIsReportedInParts` | src/trading/backtest/order_gateway.py:384-426 | the same for a resting order |
| `BacktestPrices.TopIsLatestTick` | src/trading/backtest/order_gateway.py:176-187 | over every run: the market an order meets is the latest tick of its instrument |
| `BacktestPrices.CancelTakesOutWhatRests` | src/trading/backtest/order_gateway.py:254-282 | a cancel takes a resting order out and is refused otherwise |
| `BacktestPrices.AmendSetsWhatItNames` | src/trading/backtest/order_gateway.py:284-292 | an amend sets what it names and nothing else; a new quantity counts as unfilled |
| `BacktestTimeline.PushKeepsSound` | src/trading/backtest/order_gateway.py:139-144 | scheduling keeps order, loses nothing and schedules nothing overdue |
| `BacktestTimeline.PushedIsDueLater` | src/trading/backtest/order_gateway.py:139-144 | what is scheduled is due its milliseconds from now in whole nanoseconds, at once if negative, and after all submitted before |
| `BacktestTimeline.PopKeepsSound` | src/trading/backtest/order_gateway.py:146-160 | publishing what is due keeps the same |
| `BacktestTimeline.EverythingPublishedOnTime` | src/trading/backtest/order_gateway.py:139-164 | a drained schedule was published exactly once each, at its due time, in strict order of due time and submission |
| `BacktestGateways.BacktestOrderGateway.DrainDue` | src/trading/backtest/order_gateway.py:146-160 | nothing due is left; the count is what was published |
| `BacktestGateways.BacktestOrderGateway.HandleOrderRequest` | src/trading/backtest/order_gateway.py:193-252 | the order handler in place, computing the function that `BacktestPrices` describes in prices |
| `BacktestGateways.BacktestOrderGateway.HandleCancelRequest` | src/trading/backtest/order_gateway.py:254-282 | the cancel handler: an order not resting gets a rejection |
| `BacktestGateways.BacktestOrderGateway.MatchRestingAgainstTrade` | src/trading/backtest/order_gateway.py:325-340 | the matching loop in place computes the matching function |
| `BacktestGateways.BacktestOrderGateway.OnInput` | src/trading/backtest/order_gateway.py:168-189 | any message keeps time sound, and what was ever scheduled is what the rules emit |
| `BacktestEngines.BacktestEngine.ReplayLoop` | src/trading/backtest/engine.py:125-145 | the clock refuses exactly on data that is not chronological |
| `BacktestEngines.BacktestEngine.DrainUpTo` | src/trading/backtest/engine.py:147-155 | terminates, leaves nothing due by the target, never passes it |
| `BacktestEngines.BacktestEngine.DrainRemaining` | src/trading/backtest/engine.py:157-166 | terminates with an empty schedule |
| `BacktestEngines.BacktestEngine.Run` | src/trading/backtest/engine.py:95-121 | for chronological data, and only then: every scheduled event published once, when the clock equals its due time, in strict order |
| `TradeStats.MatchingConserves` | src/trading/backtest/metrics.py:119-141 | queues are one-sided and hold the net position; profits equal cash flow plus signed cost of open lots |
| `TradeStats.OpenLotsAreTheLatestFills` | src/trading/backtest/metrics.py:119-141 | FIFO without reference to the matching: open lots are the last abs(position) units filled on the position's side |
| `TradeStats.ClosingsArePriced` | src/trading/backtest/metrics.py:128-137 | the j-th profit of a fill is the price difference to the j-th oldest lot, times what the fill still has for it |
| `TradeStats.ClosingGoesAsFarAsItCan` | src/trading/backtest/metrics.py:128-137 | closing stops only at the end of the queue, at a lot of the same side, or with nothing left to close |
| `TradeStats.MatchFill` | src/trading/backtest/metrics.py:128-141 | the inner loop terminates and computes one fill's matching |
| `TradeStats.TradeStatistics` | src/trading/backtest/metrics.py:107-151 | count, share of winners, and profit factor: gains over losses, above one exactly when the matched trading made money |
| `TradeStats.MaxDrawdown` | src/trading/backtest/metrics.py:86-104 | the largest fall from an earlier to a later value, as amount and as share of where it began |
| `Vpin.UpdateConservesVolume` | src/trading/analytics/vpin.py:63-83 | completed buckets plus the current one account for all volume fed; buy + sell is the fill; toxicities and mean lie in [0, 1] |
| `Vpin.VPIN.Update` | src/trading/analytics/vpin.py:63-83 | the bucket loop terminates and computes the update |
| `Vpin.ClassifiedSplits` | src/trading/analytics/classifiers.py:46-85 | either classifier splits a volume into two nonnegative parts that add up |
| `Vpin.SplitPrintsCountTheSame` | src/trading/analytics/vpin.py:63-83 | with the tick rule, several parts of a print at its price give the same state as the whole |
| `VpinBuckets.ReportedIsMeanImbalance` | src/trading/analytics/vpin.py:63-83 | under the tick rule, after any prints: the history is the imbalance of bought and sold over each of the last full stretches of bucket volume of the tape, rises counting as bought and falls as sold, and the value reported is its mean |
| `VpinBuckets.BulkLeansWithPrice` | src/trading/analytics/classifiers.py:46-63 | bulk classification never counts a rise more as sold nor a fall more as bought; its variance and share |
| `RateLimiter.GrantedIffEveryIntervalFits` | src/trading/order_gateways/rate_limiter.py:57-81 | a request is granted exactly when no interval ending with it, nor the whole run, exceeds its allowance |
| `RateLimiter.TokensAreTheLeastRoom` | src/trading/order_gateways/rate_limiter.py:57-81 | the bucket holds exactly the least room any interval leaves |
| `RateLimiter.IntervalsAreBounded` | src/trading/order_gateways/rate_limiter.py:57-81 | over any interval at most capacity + rate * length is granted |
| `RateLimiter.OneWaitIsEnough` | src/trading/order_gateways/rate_limiter.py:83-97 | there is enough exactly from the computed wait on |
| `RateLimiter.BackwardClockEarnsNothing` | src/trading/order_gateways/rate_limiter.py:57-81 | a clock that stands or goes back earns nothing and loses nothing |
| `RateLimiter.RateLimiter.TryAcquire` | src/trading/order_gateways/rate_limiter.py:73-81 | raises on a cost that is not positive; otherwise takes or leaves |
| `RateLimiter.RateLimiter.Acquire` | src/trading/order_gateways/rate_limiter.py:83-97 | terminates after at most one wait, none when the tokens were there |
| `RiskEngines.EveryLegIsDecided` | src/trading/risk/engine.py:182-289 | a leg is approved exactly when no earlier leg kills, every rule answers and approves, and price times size reaches the minimum; its size is the least of request and clamps; otherwise which rule it is refused by and how severely |
| `RiskEngines.EachLegDecidedOnce` | src/trading/risk/engine.py:182-289 | with distinct ids each leg is on exactly one of the two lists |
| `RiskEngines.ApprovedIffLegsPass` | src/trading/risk/engine.py:293-331 | atomic signals are all-or-nothing, others need one passing leg; which lists, rule and signal the decision carries |
| `RiskEngines.OmsReconcilesWhatPasses` | src/trading/oms/engine.py:249-297 | the OMS then reconciles exactly the passing legs at those sizes, in order |
| `RiskEngines.LatchedUntilReset` | src/trading/risk/engine.py:156-167 | until reset, the latch keeps its first cause, every signal is answered by a rejection naming it, and no second kill event goes out |
| `RiskEngines.KillingLegEngages` | src/trading/risk/engine.py:217-224 | the latch turns on exactly when the first rejection of some leg is a KILL, and the decision goes out all the same |
| `RiskEngines.ResetReopens` | src/trading/risk/kill_switch.py:62-64 | after a reset the next signal is judged on its merits |
| `RiskEngines.OperatorHaltLatches` | src/trading/risk/engine.py:120-129 | an operator's halt latches as a killing leg does, and goes out once |
| `RiskEngines.KillSwitch.Engage` | src/trading/risk/kill_switch.py:46-60 | idempotent, the first cause wins |
| `RiskEngines.RiskEngine.OnSignal` | src/trading/risk/engine.py:145-333 | the signal is recorded for the throttle whatever becomes of it; the leg loop in place computes the decision and latches the switch |
| `RiskEngines.RiskEngine.JudgeLeg` | src/trading/risk/engine.py:195-289 | the rule and clamp loops in place |
| `RiskStates.TodayIsTheHistory` | src/trading/risk/state.py:114-121 | today's profit is the last cumulative reported less the one the day or session opened with, for any interleaving of reads and reports |
| `RiskStates.CountIsRightIffNothingEvicted` | src/trading/risk/state.py:158-178 | the lazy count is right exactly when no signal inside the window was evicted by an earlier, tighter count; else too low |
| `RiskStates.TighterCountEvicts` | src/trading/risk/state.py:158-178 | a history on which the count is too low |
| `RiskStates.OneWindowCountsDirectly` | src/trading/risk/state.py:158-191 | with one window size it is the direct count |
| `RiskStates.RiskState.GetRealizedPnlToday` | src/trading/risk/state.py:114-121 | the read rolls the day over in place |
| `RiskStates.RiskState.ApplyPositionUpdate` | src/trading/risk/state.py:200-228 | a report rolls the day over before it is recorded |
| `RiskStates.RiskState.StartNewSession` | src/trading/risk/state.py:277-287 | every bucket restarts from its latest value |
| `RiskStates.RiskState.SignalsInWindow` | src/trading/risk/state.py:158-178 | the evicting loop and its count |

## Left out

- FuturesAmends.QuietRecordsAgree: no condition on quantities and executions alone is both necessary and sufficient for agreement at one moment, since FILLED is recorded only when a fill leaves exactly nothing (`FuturesCounterexamples.ExecutionsDoNotDecide`); the equivalence is stated for staying in step instead.
- The venue answers that an amend would change nothing only of an order that rests.
- FILLED without anything left: not claimed once `terminalize_from_venue` has forced a status.
- Uuids: an order's id is its position in the OMS's map; client order ids are minted from it or foreign.
- The signal cache's expiry is an arbitrary eviction step; open-order snapshots, routed-leg events, metrics and logging are not modelled.
- Order type, time in force and the intent of a leg play no part in the OMS model.
- The OMS holds its algorithms as values; the in-place forms are `TwapAlgo` and `VwapAlgo`, proved to follow the same schedule. Aliasing of an algorithm object is not captured.
- The strategy router is an arbitrary function from legs to algorithms.
- The gateway's parameter building, symbol mapping, decimal formatting, venue filter, spot amend and `cancel_stale_orders` are not part of this model; exchange ids are not tracked through the protocol.
- The protocol has no adoption and no venue resync; both are handlers of the OMS model.
- Backpressure: `_safe_publish` failures are not modelled; the stream may drop reports, the bus may not.
- The venue may truncate a depth snapshot to its best levels; levels beyond it are known only once a diff names them, which is what the theorem says.
- `best_bid`, `top_n`, `top_of_book` and the events built from them are maxima and sorts over the dictionaries.
- The heap is modelled by the order in which it gives up its items, not by its array layout.
- Fees, the timestamps stamped on backtest events, reports and position marking in the backtest; tick rounding and slippage are arbitrary functions of the instrument.
- The replay loop is modelled with handlers that eventually stop acting; a strategy that answers every event at zero latency forever would keep it from ending.
- `simulation.py` has the same rules with sleeps inside its handlers.
- BVC's normal distribution function is any function into [0, 1]; its half-life constant is a parameter. VPIN holds its classifier by value.
- The token bucket is taken with nonnegative initial tokens; the lock that serialises `acquire` is not modelled, other takers during a wait are excluded.
- `worst_severity`, reasons and alerts of a risk decision: severities are compared as strings in the source, so nothing is claimed of them.
- A risk rule is an arbitrary function of the state of the world, the signal and the leg; that evaluating one may roll a day over or evict signals before the next rule reads is not modelled. The built-in rules are not part of this model.
- Fill ids: the venue's trade number stands for the uuid minted for each report, which is the same as long as the stream reports a trade once; a trade reported twice would be counted twice.
- Drawdown from the session peak, working exposure, positions and VPIN breach counters of the risk state: the peak is cleared on every rollover check, the others are plain copies.
- Decimal rounding is modelled in the slicing algorithms only. Float rounding, transcendental formulas, dashboards, connectivity and wiring.
