# Verification model of the prediction market agent

This project models the parts of the agent where money, orders and work in progress can go wrong, and
proves what those parts keep over every run.

Four groups of modules:

- **Ledger and write path.** `Domain` holds the account, `Risk` and `MarketGuard` decide whether a write may
  start, `PaperTrading` is the simulated transport, and `Broker` is the execution gateway: a class whose
  methods change the live account in place, each tied to one step of a run. `Ledger` and `PaperLedger`
  prove what every sequence of gateway calls keeps, whatever the venue answers, and `Bookings` says call by
  call what moves.
- **Concurrent protocols.** `Events` (the business-event loop) and `Reconcile` (coalesced reconcile requests)
  are state machines over the atomic steps of their threads; the proofs cover every interleaving.
- **Discovery and scheduling.** `Survey` is the resumable page survey, with the log of everything it reads,
  queues and stores; `CoarseFilter` is the screening filter with its square-root floor; `Evaluation` is the
  round-robin queue.
- **Providers and measured weights.** `ProviderHealth` is the cooldown and probation registry, `Decision` the
  failover over it, `DecisionEvaluator` the upward closure of screening verdicts, `Evolution` the shrinkage
  formula. `Sorting` is a stable sort by key, used wherever the program sorts.

Money, prices, confidences and clock readings are real numbers. The clock, the venue's answers, the answers
of rule engines, listings, opinions and provider calls are arbitrary inputs.

## Where the code and its promises part

- **A buy that averages a position to quantity zero** divides by zero after the cash has moved
  (runtime/broker.py:204-205). `Ledger.RaisingLeavesAccountAlone` shows this is the only way a gateway call
  that raises changes the account, `Ledger.LogIsFaithful` that it is the only way the event stream stops
  folding to the account, and `Ledger.RunConserves` what it costs. It needs a fill of non-positive quantity,
  which a quote carries only when the venue promises no contracts (`Ledger.QuotesArePriced`);
  `Ledger.HalfBookedFillExists` is such a quote, handed out by the gateway itself.
- **The paper funds check is not a check of the money a call takes.** Placement checks the amount that was
  asked for under the quote's id and forgets it; nothing else is checked. For every kind of call
  `PaperLedger.StepKeepsSolventExactly` says exactly when it keeps every solvent account solvent. Seven
  inputs overdraw: a second placement, a quote dearer than its request, a reused quote id, a sale at a
  negative price, a sale worth less than its fee, a short position settled as a win, and any withdrawal
  (`PaperLedger.SecondPlacementOverdraws`, `DearQuoteOverdraws`, `ReusedIdOverdraws`, `NegativeSaleOverdraws`,
  `FeeAboveProceedsOverdraws`, `ShortPositionOverdraws`, `WithdrawalOverdraws`).
- **Recheck** is documented as putting providers back in line right now (agent/provider_health.py:431), but it
  keeps their probation, and a provider on probation is not ready
  (`ProviderHealth.RecheckRespectsProbation`); it makes the probe that can end the probation due at once
  (`ProviderHealth.RecheckMakesProbeDue`).
- **The routing order** is documented as making a fully throttled run try its providers anyway
  (agent/provider_health.py:320-321); the failover refuses instead when nobody is ready
  (`Decision.Attempt` answers `NobodyReady`).
- **A provider configured twice** can be asked twice. `Decision.AskedAtMostOnce` holds exactly when no name that
  is ready at the start is repeated, and `Decision.ConfiguredTwiceIsAskedTwice` is the failing input. The
  running robot cannot meet it, because it rebuilds the names from a dictionary (runtime/controller.py:207-211
  and 286); a hand-edited settings file used outside the controller can.
- **Which refusal is reported**, HALT or REJECT, can depend on the order of the engines;
  `Risk.RefusalLabelDependsOnOrder` says exactly when. Whether the action is refused never does.
- **Starts and stops of the event loop that overlap a stop**: a second stop leaves a second sentinel that makes
  the next worker exit in front of its first envelope (`Events.OverlappingStopsStrandAnEnvelope`), and a start
  between the worker's exit and the end of the join ends in two workers
  (`Events.StartWhileJoiningDoublesTheWorker`). `Events.SerialisedIsNeeded`: those two are exactly the steps
  that break the invariant of one worker and one sentinel.
- **A reconcile worker killed from outside** while requests are pending loses them until the next request
  (`Reconcile.NoLostWakeUp`, `Reconcile.NextRequestRecovers`).
- **A negative next offset** is used as it is within a round and clamped to zero only by the next round
  (`Survey.ReadsFormChain`).

## Model

| member | source | states |
|---|---|---|
| Domain.TotalRemove | src/prediction_market_agent/core/domain.py:78-84 | The account's sums over its positions do not depend on the order of the positions. |
| Domain.AccountState.constructor | src/prediction_market_agent/core/domain.py:67-76 | A new account holds its starting cash and nothing else. |
| Domain.AccountState.Exposure | src/prediction_market_agent/core/domain.py:78-80 | Adding up positions one by one gives the order-independent total marked value. |
| Wrappers.UpperIgnoresCase | src/prediction_market_agent/runtime/broker.py:166-166 | Upper-casing forgets the case of ASCII letters and changes nothing else. |
| Risk.RiskCoordinator.Register | src/prediction_market_agent/core/risk.py:42-48 | Registration appends; engines are consulted in enablement order and duplicates are kept. |
| Risk.RiskCoordinator.Evaluate | src/prediction_market_agent/core/risk.py:70-116 | The early-returning loop over the engines gives the verdict that the recursive reading of the chain gives. |
| Risk.ChainIsMeetOfEngines | src/prediction_market_agent/core/risk.py:70-116 | Refuses iff some engine refuses, permits iff all permit, and otherwise adjusts to the least of the engines' values and the requested one, never above it. |
| Risk.ChainFailsClosed | src/prediction_market_agent/core/risk.py:80-108 | Refuses iff some engine crashes, answers an unknown outcome, refuses, or adjusts to no stated value. |
| Risk.ChainInWords | src/prediction_market_agent/core/risk.py:79-116 | In the answers' own words: permission is unanimous ALLOW; if nobody refuses and some answer is ADJUST, the verdict is the least of the stated values and the requested one. |
| Risk.FirstRefusalNamesVerdict | src/prediction_market_agent/core/risk.py:80-108 | The first answer that is neither ALLOW nor an ADJUST with a value decides the report: HALT if it says so, REJECT otherwise. |
| Risk.ChainIsGreatestLowerBound | src/prediction_market_agent/core/risk.py:70-116 | A verdict is no looser than every engine alone iff it is no looser than the chain: the chain is their meet. |
| Risk.MoreAnswersNeverLoosen | src/prediction_market_agent/core/risk.py:70-116 | A chain that hears at least the same answers, in any order and number, is no looser. |
| Risk.MoreEnginesNeverLoosen | src/prediction_market_agent/core/risk.py:50-116 | Registering more engines never loosens the verdict on any target, whatever part of them it concerns. |
| Risk.OrderOfEnginesDoesNotMatter | src/prediction_market_agent/core/risk.py:50-116 | Refusal, permission and the adjusted value are the same under every permutation of the registered engines. |
| Risk.ExtraEngineNeverLoosens | src/prediction_market_agent/core/risk.py:42-116 | One more engine anywhere in the registered list never turns a refusal into permission and never raises the value. |
| Risk.RefusalLabelDependsOnOrder | src/prediction_market_agent/core/risk.py:80-108 | The whole verdict, label included, is the same under every order iff no engine halts while another rejects, crashes or answers nonsense. |
| Risk.HaltAndRejectDiffer | src/prediction_market_agent/core/risk.py:95-99 | Two engines whose order decides the label. |
| Risk.ApplicableIsFilter | src/prediction_market_agent/core/risk.py:50-56 | An engine is in the chain iff it is registered and its target is the target or matches it. |
| MarketGuard.GuardedMarketApi.Check | src/prediction_market_agent/runtime/market_guard.py:60-85 | The check passes iff the chain for the platform's target answers ALLOW; an adjustment is refused. |
| MarketGuard.GuardPassesOnlyOnUnanimousAllow | src/prediction_market_agent/runtime/market_guard.py:26-85 | A market call passes iff every engine on `market:<platform>`, or matching it, is asked with no requested value and says ALLOW. |
| PaperTrading.PaperWriteTransport.RememberQuote | src/prediction_market_agent/runtime/paper_trading.py:52-64 | A quote is remembered under its id with the amount asked for. |
| PaperTrading.PaperWriteTransport.PlaceOrder | src/prediction_market_agent/runtime/paper_trading.py:66-94 | The quote is forgotten either way; it fills unless it is a remembered BUY that the cash, with tolerance, does not cover. |
| PaperTrading.PaperWriteTransport.CancelOrders | src/prediction_market_agent/runtime/paper_trading.py:96-105 | Reports exactly the requested orders that this transport filled. |
| Broker.ExecutionGateway.PutBehind | src/prediction_market_agent/runtime/market_guard.py:116-120 | From then on every write is gated by the guard's engines, for the guard's own platform. |
| Broker.ExecutionGateway.BusinessCheck | src/prediction_market_agent/runtime/broker.py:40-52 | Passes iff there is no guard or the guard's chain answers ALLOW for this write. |
| Broker.ExecutionGateway.RecordPnlEvent | src/prediction_market_agent/runtime/broker.py:65-90 | Appends one event stamped with cash, equity and realised profit as they stand after the booking; a failing sink changes nothing else. |
| Broker.ExecutionGateway.GetQuote | src/prediction_market_agent/runtime/broker.py:92-141 | Refuses exactly the malformed requests and replies, prices the rest, and has the paper transport remember it. |
| Broker.ExecutionGateway.PlaceOrder | src/prediction_market_agent/runtime/broker.py:143-193 | The in-place call takes the whole world where the pure step of a run does, and raises exactly when it does. |
| Broker.ExecutionGateway.SettleOrder | src/prediction_market_agent/runtime/broker.py:165-193 | An accepted reply appends one order with the venue's status and books it only if filled; any other reply books nothing. |
| Broker.ExecutionGateway.FillOrder | src/prediction_market_agent/runtime/broker.py:195-299 | Stepwise field updates, with the half-way division by zero, amount to one booking of cash, position, profit and event. |
| Broker.ExecutionGateway.CancelOrders | src/prediction_market_agent/runtime/broker.py:301-308 | Matches the pure step: a refused or failed cancel changes no order. |
| Broker.ExecutionGateway.MarkCanceled | src/prediction_market_agent/runtime/broker.py:301-308 | The loop cancels every open order that was reported cancelled and touches no other. |
| Broker.ExecutionGateway.Redeem | src/prediction_market_agent/runtime/broker.py:310-357 | Matches the pure step, including the refusals that change nothing. |
| Broker.ExecutionGateway.BookRedemption | src/prediction_market_agent/runtime/broker.py:322-357 | Drops the position against its payout, or logs an unmatched redemption and moves no money. |
| Broker.ExecutionGateway.Transfer | src/prediction_market_agent/runtime/broker.py:359-381 | Matches the pure step; a refused, malformed or rejected transfer moves nothing. |
| Broker.ExecutionGateway.BookTransfer | src/prediction_market_agent/runtime/broker.py:366-381 | Cash moves by the signed amount, withdrawals accumulate, and one event carries the external flow. |
| Broker.ExecutionGateway.Mark | src/prediction_market_agent/runtime/broker.py:57-63 | Only the mark of a held position moves, and only for a price in [0, 1]. |
| Bookings.QuoteIsRefusedWhen | src/prediction_market_agent/runtime/broker.py:92-124 | Exactly which requests and replies raise; no quote moves the account. |
| Bookings.QuoteSays | src/prediction_market_agent/runtime/broker.py:111-141 | Every field of a quote: the venue's price, amount and expiry where given, the request's (or half a minute from now) otherwise. |
| Bookings.QuoteIsRemembered | src/prediction_market_agent/runtime/paper_trading.py:52-64 | The simulated transport remembers quantity x price for a buy and the quantity for a sale, and no other id changes. |
| Bookings.RefusedPlacement | src/prediction_market_agent/runtime/broker.py:143-157 | A placement that is not permitted or has expired reaches nobody and changes nothing. |
| Bookings.UnusableReply | src/prediction_market_agent/runtime/broker.py:164-170 | A reply without an order id or with a status that is none of the five raises and books nothing. |
| Bookings.UnfilledReplyIsRecorded | src/prediction_market_agent/runtime/broker.py:167-193 | An open, cancelled, rejected or failed order is kept under that status with its fee and moves no money. |
| Bookings.FilledReplyIsRecorded | src/prediction_market_agent/runtime/broker.py:167-193 | A filled reply is booked, and kept as filled with its fee unless booking it raises. |
| Bookings.BuyFillMoves | src/prediction_market_agent/runtime/broker.py:158-244 | A buy fill takes notional plus notional x bps / 10000 from the cash, realises minus that fee, and adds quantity and cost to the position. |
| Bookings.SellFillMoves | src/prediction_market_agent/runtime/broker.py:245-299 | A sale fill brings notional minus the fee; against enough contracts (to 1e-9) it realises the difference to average cost and leaves the rest, otherwise it realises nothing and the position goes. |
| Bookings.PaperFillsWhenCovered | src/prediction_market_agent/runtime/paper_trading.py:66-94 | A simulated placement fills iff no remembered buy costs, with its fee, more than the cash plus 1e-9; the quote is forgotten either way. |
| Bookings.PaperOrderIsRecorded | src/prediction_market_agent/runtime/paper_trading.py:84-94 | A simulated fill is kept as a filled order under its own id, with its fee. |
| Bookings.CancelMoves | src/prediction_market_agent/runtime/broker.py:301-308 | Exactly the open orders that were reported become cancelled; nothing else changes. |
| Bookings.PaperCancelMoves | src/prediction_market_agent/runtime/paper_trading.py:96-105 | A simulated cancel reaches exactly the requested open orders that were filled here. |
| Bookings.RedemptionMoves | src/prediction_market_agent/runtime/broker.py:310-357 | A win pays one per contract, a loss nothing, and the whole cost is realised against it. |
| Bookings.TransferMoves | src/prediction_market_agent/runtime/broker.py:359-381 | The cash moves by the amount in its direction; withdrawals add up. |
| Bookings.TransferIsRefusedWhen | src/prediction_market_agent/runtime/broker.py:359-365 | Exactly which transfers are refused before they are issued, changing nothing. |
| Bookings.VenueRefusalMovesNothing | src/prediction_market_agent/runtime/broker.py:310-365 | A redemption or transfer the venue refuses leaves everything but the record of the call. |
| Bookings.MarkMovesEquity | src/prediction_market_agent/runtime/broker.py:57-63 | A price outside [0, 1] raises; otherwise only the mark moves, and the equity by quantity x price change. |
| Bookings.OpeningCostsTheFee | src/prediction_market_agent/core/domain.py:78-84 | The equity of an account that holds nothing is its cash, and opening a position costs it exactly the fee. |
| Bookings.WritesAreAskedAbout | src/prediction_market_agent/runtime/broker.py:40-52 | Each write passes iff every covering engine says ALLOW to it under its own operation name. |
| Bookings.FillEventSays | src/prediction_market_agent/runtime/broker.py:225-299 | A fill's event carries the change in contracts and cost (up to the closing sliver), and is complete iff the basis is known. |
| Bookings.RedemptionEventSays | src/prediction_market_agent/runtime/broker.py:314-357 | A redemption's event carries the contracts and cost that left, or nothing when there was no position. |
| Bookings.TransferEventSays | src/prediction_market_agent/runtime/broker.py:370-381 | A transfer's event carries the signed amount as cash and external flow. |
| Bookings.EventIsStamped | src/prediction_market_agent/runtime/broker.py:65-90 | A call adds at most one event, stamped with the account as the call leaves it. |
| Ledger.QuotesArePriced | src/prediction_market_agent/runtime/broker.py:111-141 | Every quote handed out has notional = quantity x price and its request's fee, and a positive quantity iff the venue did not promise zero or fewer contracts. |
| Ledger.BuyAddsItsNotional | src/prediction_market_agent/runtime/broker.py:199-224 | For every priced buy: it raises iff nothing is left to average over; otherwise the position's cost grows by exactly the notional, and if it raises nothing of the cost is left. |
| Ledger.BuyConserves | src/prediction_market_agent/runtime/broker.py:199-244 | Every priced buy leaves cash + total cost basis - realised profit unchanged, fee included, unless it raises half-way; then its debit and the old basis are gone. |
| Ledger.SellTakesItsBasis | src/prediction_market_agent/runtime/broker.py:245-299 | A complete sale removes average price x quantity from the total cost, plus the sliver a closing sale leaves. |
| Ledger.SellConserves | src/prediction_market_agent/runtime/broker.py:245-299 | A complete sale leaves the same sum unchanged up to that sliver. |
| Ledger.PartialSellGap | src/prediction_market_agent/runtime/broker.py:245-299 | A sale booked as partial shifts the sum by its proceeds minus the basis of the position it drops. |
| Ledger.StepConserves | src/prediction_market_agent/runtime/broker.py:57-381 | From any account, every gateway call changes the sum by its external flow, its partial-sale gap, its closing sliver and its half-booked loss, and by nothing else. |
| Ledger.RunConserves | src/prediction_market_agent/runtime/broker.py:57-381 | From any account, over every run of quotes priced as the gateway prices them, the sum moves by net external flow, partial-sale gaps and half-booked losses, and drifts otherwise by at most 1e-9 times the average price per closing sale. |
| Ledger.RunKeepsSound | src/prediction_market_agent/runtime/broker.py:195-299 | Fills of positive quantity keep every held quantity positive over every run, and none of them ever raises. |
| Ledger.FlatRunRealisesItsCash | src/prediction_market_agent/runtime/broker.py:57-381 | A run from flat to flat realises exactly its cash change net of transfers, partial sales and half-booked fills, up to the same drift. |
| Ledger.StepLogsWhatItDoes | src/prediction_market_agent/runtime/broker.py:65-90 | With a working sink a call logs exactly the cash, profit and external flow it moves, or moves nothing, iff it is not a fill that raises with its debit taken. |
| Ledger.LogIsFaithful | src/prediction_market_agent/runtime/broker.py:65-90 | At every point of a run the stream folds to the account's cash, profit and net flow, and every event to its own prefix, iff no fill of the run raises with its debit taken. |
| Ledger.OrderlyRunsLogEverything | src/prediction_market_agent/runtime/broker.py:195-299 | With positive fill quantities none does, so the stream is faithful throughout. |
| Ledger.AverageBetween | src/prediction_market_agent/runtime/broker.py:202-207 | A quantity-weighted average lies between its two prices. |
| Ledger.OnlyBuysMoveAverages | src/prediction_market_agent/runtime/broker.py:195-299 | No call other than a buy fill of that token changes a position's average price. |
| Ledger.AverageWithinFills | src/prediction_market_agent/runtime/broker.py:195-299 | In every reachable state a position is positive and its average lies between the cheapest and dearest buy fill since it was last opened. |
| Ledger.CallsArePermitted | src/prediction_market_agent/runtime/market_guard.py:60-85 | Over every run each write handed to the transport is one the guard's chain answers ALLOW for. |
| Ledger.RaisingLeavesAccountAlone | src/prediction_market_agent/runtime/broker.py:143-193 | A call that raises leaves the whole account unchanged iff it is not a buy fill, of something or for something, that averages a held position to zero; it never logs. |
| Ledger.HalfBookedFillExists | src/prediction_market_agent/runtime/broker.py:124-205 | A quote the gateway hands out, for minus two contracts, that raises after the cash has moved. |
| Ledger.OrdersOnlyAdvance | src/prediction_market_agent/runtime/broker.py:301-308 | Over every run no order is lost, reordered or reopened; the one status change is open to cancelled. |
| Ledger.HeldToSettlement | src/prediction_market_agent/runtime/broker.py:310-357 | Bought flat and settled: cash and profit both move by payout - notional - fee, and the positions return to what they were. |
| Ledger.BoughtAndSold | src/prediction_market_agent/runtime/broker.py:195-299 | Bought flat and sold whole: cash and profit both move by proceeds less outlay, exactly. |
| PaperLedger.QuoteStaysRemembered | src/prediction_market_agent/runtime/paper_trading.py:52-70 | A quote whose id has not been handed out again or placed since is still remembered with its own request. |
| PaperLedger.OnlyOutlaysTakeCash | src/prediction_market_agent/runtime/broker.py:195-381 | Without short positions and withdrawals only a fill that takes money lowers the cash, by exactly its outlay. |
| PaperLedger.SafeRunStaysSolvent | src/prediction_market_agent/runtime/paper_trading.py:66-94 | A run whose every call meets that condition where it is made never ends below -1e-9. |
| PaperLedger.DisciplinedRunsAreSafe | src/prediction_market_agent/runtime/paper_trading.py:52-94 | Each quote placed while it is the latest under its id, fair quotes and no withdrawals make every call of a run meet it. |
| PaperLedger.PaperStaysSolvent | src/prediction_market_agent/runtime/paper_trading.py:66-94 | In every disciplined simulated run from an account without shorts, cash never falls below -1e-9. |
| PaperLedger.FilledMeansCovered | src/prediction_market_agent/runtime/paper_trading.py:66-94 | A simulated placement fills iff it passes the guard, is not expired and the remembered BUY under its id is covered. |
| PaperLedger.CheckAgreesWithDebit | src/prediction_market_agent/runtime/paper_trading.py:66-94 | A placement step, BUY or SELL, keeps every solvent account solvent iff it is refused or takes at most the cost of the BUY remembered under its id, or nothing. |
| PaperLedger.RedemptionAgreesWithHolding | src/prediction_market_agent/runtime/broker.py:322-357 | A redemption step keeps every solvent account solvent iff it is not a winning one of a short position. |
| PaperLedger.WithdrawalIsNeverChecked | src/prediction_market_agent/runtime/broker.py:359-381 | A simulated transfer step keeps every solvent account solvent iff it is refused or not a withdrawal. |
| PaperLedger.StepKeepsSolventExactly | src/prediction_market_agent/runtime/broker.py:57-381 | The exact condition for every kind of gateway call in one statement. |
| PaperLedger.SecondPlacementOverdraws | src/prediction_market_agent/runtime/paper_trading.py:66-94 | Placing one fair quote twice takes ten of cash to minus ten. |
| PaperLedger.DearQuoteOverdraws | src/prediction_market_agent/runtime/paper_trading.py:66-94 | One quote dearer than its request takes ten of cash to minus two. |
| PaperLedger.ReusedIdOverdraws | src/prediction_market_agent/runtime/paper_trading.py:52-94 | Two fair answers under one id let a quote of ten through on one of cash. |
| PaperLedger.NegativeSaleOverdraws | src/prediction_market_agent/runtime/paper_trading.py:66-94 | A sale the venue prices below zero overdraws an empty account. |
| PaperLedger.FeeAboveProceedsOverdraws | src/prediction_market_agent/runtime/broker.py:245-299 | A sale whose fee is twice its worth overdraws an empty account. |
| PaperLedger.ShortPositionOverdraws | src/prediction_market_agent/runtime/broker.py:310-357 | Minus twenty contracts, bought and redeemed as a win, overdraw. |
| PaperLedger.WithdrawalOverdraws | src/prediction_market_agent/runtime/broker.py:359-381 | Withdrawing twenty from ten of simulated cash is booked. |
| Events.OneWorkerKept | src/prediction_market_agent/runtime/events.py:67-125 | Every serialised step keeps one live worker at most, and one sentinel, behind everything accepted, while a stop is joining. |
| Events.SerialisedIsNeeded | src/prediction_market_agent/runtime/events.py:67-125 | A step keeps one worker and one sentinel iff it is no second stop during a stop and no start after the stopped worker has left and before it is joined. |
| Events.InOrderKept | src/prediction_market_agent/runtime/events.py:79-113 | Every step keeps completed, in-flight and queued envelopes together equal to everything submitted, in order. |
| Events.TraceKept | src/prediction_market_agent/runtime/events.py:79-130 | Every step keeps each acceptance check equal to the gate as it then stood, one check per envelope, and handlers only for admitted ones. |
| Events.InvHolds | src/prediction_market_agent/runtime/events.py:67-130 | The whole invariant holds in every state reachable with serialised starts and stops. |
| Events.CompletedOnceInOrder | src/prediction_market_agent/runtime/events.py:79-113 | Envelopes complete once each, in the order they were submitted. |
| Events.OutcomeIsEarned | src/prediction_market_agent/runtime/events.py:79-102 | Every completed envelope was either admitted, ran and ended as its handler did, or was refused, never ran and ended with an error. |
| Events.CheckSeesTheGate | src/prediction_market_agent/runtime/events.py:86-89 | An envelope is admitted iff the gate had been opened and not closed since when its check was made. |
| Events.HandlerRunsOnce | src/prediction_market_agent/runtime/events.py:79-102 | No envelope reaches the handler twice. |
| Events.StepsMoveTheGate | src/prediction_market_agent/runtime/events.py:67-130 | A start that finds nobody alive opens the gate and leaves a live worker; a pause and a stop close it; nothing else moves it. |
| Events.NothingLeftBehind | src/prediction_market_agent/runtime/events.py:115-125 | When no worker is alive, everything submitted has been completed and counted, results as processed and errors as failures. |
| Events.PauseHolds | src/prediction_market_agent/runtime/events.py:127-130 | No envelope checked after a pause and before a restart reaches the handler; if it completes, it completes with an error. |
| Events.PauseRefusesSubmissions | src/prediction_market_agent/runtime/events.py:104-113 | After a pause and before a restart nothing is accepted. |
| Events.WorkerNeverStuck | src/prediction_market_agent/runtime/events.py:79-102 | While work is left the worker has an enabled step, and each of its steps brings the end nearer. |
| Events.OverlappingStopsStrandAnEnvelope | src/prediction_market_agent/runtime/events.py:115-125 | A run in which two overlapping stops leave a submitted envelope with no worker. |
| Events.StartWhileJoiningDoublesTheWorker | src/prediction_market_agent/runtime/events.py:67-125 | A run in which a start during the join ends in two live workers. |
| Reconcile.InvKept | src/prediction_market_agent/runtime/controller.py:155-186 | Every atomic step keeps one working worker, and that worker owing a loop for every unread generation. |
| Reconcile.AtMostOneWorker | src/prediction_market_agent/runtime/controller.py:163-173 | In every interleaving two workers are never both working. |
| Reconcile.NoLostWakeUp | src/prediction_market_agent/runtime/controller.py:175-186 | A request nobody has read is waited for by a worker that still has to loop, iff no worker was killed holding requests. |
| Reconcile.WorkerServesWithinThreeSteps | src/prediction_market_agent/runtime/controller.py:175-186 | The worker's next step starts a reconcile for every request so far, or comes strictly nearer to it within three. |
| Reconcile.RequestsDoNotDelay | src/prediction_market_agent/runtime/controller.py:163-166 | Further requests neither replace the worker nor push its reconcile back. |
| Reconcile.IdleMeansServed | src/prediction_market_agent/runtime/controller.py:155-186 | With nobody working and nobody killed, every request was followed by a reconcile that started after it. |
| Reconcile.NoReconcileUnasked | src/prediction_market_agent/runtime/controller.py:163-186 | In every interleaving no more reconciles have started than were requested. |
| Reconcile.WorkerLeavesWhenCaughtUp | src/prediction_market_agent/runtime/controller.py:183-186 | A worker leaves iff it has read the newest request, and loops otherwise. |
| Reconcile.NextRequestRecovers | src/prediction_market_agent/runtime/controller.py:163-173 | After a killed worker the next request starts one that covers the lost requests. |
| Survey.SurveyStore.SaveResume | src/prediction_market_agent/runtime/market_discovery.py:589-601 | The stored record names exactly the unfinished sources at their next offsets, and is dropped iff there is none. |
| Survey.SurveyStore.Abandon | src/prediction_market_agent/runtime/market_discovery.py:546-806 | An exception that escapes a round at any point leaves a record the next round can start from. |
| Survey.Begin | src/prediction_market_agent/runtime/market_discovery.py:559-578 | A round started from the record continues the log it was left by. |
| Survey.TakePage | src/prediction_market_agent/runtime/market_discovery.py:626-641 | Reading a page, moving its cursor and queueing its new topics keeps cursors, active set and queue in step with the log; if queueing raises, no record is written. |
| Survey.JudgePage | src/prediction_market_agent/runtime/market_discovery.py:642-787 | After a page the round goes on, closes with its outcome stored, or raises only where something raised. |
| Survey.ActOnOpinions | src/prediction_market_agent/runtime/market_discovery.py:754-787 | A round stops, with its outcome stored unless the write raises, iff every opinion given (at least one) is a stopping reply, or one asks to stop and the other to continue and that happened before in the round. |
| Survey.VisitSource | src/prediction_market_agent/runtime/market_discovery.py:605-789 | One visit reads at most one page; if it reads none it closes the round or drops the source. |
| Survey.Sweep | src/prediction_market_agent/runtime/market_discovery.py:608-789 | One pass over the sources reads a page, closes the round, or leaves no active source. |
| Survey.RunRound | src/prediction_market_agent/runtime/market_discovery.py:603-794 | The loop terminates within its limits with the outcome stored, or with an exception and the record untouched. |
| Survey.AdaptiveSurvey | src/prediction_market_agent/runtime/market_discovery.py:546-806 | A round terminates, within its page limit, one failure per source and two disagreements, with its outcome stored, or abandoned, because something raised, with the old record kept; it stops short with sources left only when time is up or the opinions say so, and every page, failure, opinion and time-out it notes is one the outside gave it. |
| Survey.NoPageIsLost | src/prediction_market_agent/runtime/market_discovery.py:589-655 | In every history a store can hold, each topic on a page read was queued before any later record, unless an exception ended that round. |
| Survey.AbandonedPageIsReadAgain | src/prediction_market_agent/runtime/market_discovery.py:559-641 | If one did, every cursor is back where the last record before the page left it, so the page is read again before any record passes it. |
| Survey.ReadsFormChain | src/prediction_market_agent/runtime/market_discovery.py:559-639 | Successive reads of a source, across rounds and abandoned rounds, run from offset to next offset, and none follows its last page before a restart, unless the first read's own round was abandoned unrecorded. |
| Survey.FirstReadIsAtZero | src/prediction_market_agent/runtime/market_discovery.py:559-578 | The first read of a source, at the start or after a restart, is at offset zero. |
| Survey.StopHereExactly | src/prediction_market_agent/runtime/market_discovery.py:754-787 | What two opinions lead to, in the words of the replies: stop, one more page, or neither. |
| Survey.HaltedExactly | src/prediction_market_agent/runtime/market_discovery.py:603-787 | A round counts as halted iff its time ran out, its opinions all asked to stop, or they parted ways twice. |
| Survey.StopIsHeeded | src/prediction_market_agent/runtime/market_discovery.py:603-787 | No page is read in a round after its time is up, nor after opinions of which one at least was given and every one given is one of the three stopping replies. |
| Survey.EveryPageIsHeard | src/prediction_market_agent/runtime/market_discovery.py:686-787 | Between two pages of a round the opinions on the first are taken. |
| Survey.SecondDisagreementStops | src/prediction_market_agent/runtime/market_discovery.py:768-776 | After two disagreements in a round it reads no further page. |
| Survey.RecordsAreExact | src/prediction_market_agent/runtime/market_discovery.py:589-601 | A record is cleared only with every source exhausted or failed; a stored one is non-empty and names exactly the others, each at its next offset. |
| Survey.RecordFollowsLastPage | src/prediction_market_agent/runtime/market_discovery.py:589-639 | A record keeps a source, at its last page's next offset, iff that page had topics and promised more. |
| Survey.FailedSourceIsDropped | src/prediction_market_agent/runtime/market_discovery.py:617-625 | A source whose listing failed is neither read again nor recorded in that round. |
| Survey.QueueingIsExact | src/prediction_market_agent/runtime/market_discovery.py:628-641 | What is queued after a page is exactly what on it was not queued before in the round. |
| CoarseFilter.Filter | src/prediction_market_agent/runtime/market_discovery.py:1126-1174 | Restores, up to the floor, the exclusions of least confidence (missing counts as none), then highest quality, then earliest; retained and excluded follow the stated rule topic by topic, in pool order. |
| CoarseFilter.Split | src/prediction_market_agent/runtime/market_discovery.py:1127-1142 | The loop divides the pool into the topics screened out with confidence and the rest, in order. |
| CoarseFilter.ScreenedOutExactly | src/prediction_market_agent/agent/decision_evaluator.py:54-58 | A topic is screened out iff it was assessed without errors as DEFER or REJECT with a confidence of at least 0.8 and the threshold, or is a trusted outlier. |
| CoarseFilter.KeepIsFilter | src/prediction_market_agent/runtime/market_discovery.py:1157-1161 | A selection of the pool has all the wanted topics, no others, in increasing place. |
| CoarseFilter.MergeByPlace | src/prediction_market_agent/runtime/market_discovery.py:1157-1161 | Appending the restored topics and sorting by pool position interleaves them where the pool had them. |
| CoarseFilter.ChosenAreFirst | src/prediction_market_agent/runtime/market_discovery.py:1147-1156 | The restored topics are as many as asked for, and no exclusion left standing precedes one of them in the order of doubt. |
| CoarseFilter.CeilSqrt | src/prediction_market_agent/runtime/market_discovery.py:1143-1143 | The least number whose square reaches the pool size. |
| CoarseFilter.FilterDividesPool | src/prediction_market_agent/runtime/market_discovery.py:1127-1174 | Retained and excluded divide the pool; a topic is retained iff it is not screened out or was restored. |
| CoarseFilter.FilterReachesFloorExactly | src/prediction_market_agent/runtime/market_discovery.py:1143-1161 | A non-empty pool retains exactly the larger of its eligible topics and the ceiling of its square root. |
| Evaluation.PlanQueue | src/prediction_market_agent/runtime/evaluation.py:239-248 | The nested loops build a queue that follows the one schedule by round and, within a round, by topic. |
| Evaluation.OneQueue | src/prediction_market_agent/runtime/evaluation.py:239-248 | The topics determine the queue: there is one round-robin schedule and one queue that follows it. |
| Evaluation.QueueIsRoundByRound | src/prediction_market_agent/runtime/evaluation.py:239-248 | Entry by entry: each place holds a distinct entry, each entry has a place, and a later place holds a later position, or the same one of a later topic. |
| Evaluation.QueueIsPermutation | src/prediction_market_agent/runtime/evaluation.py:239-248 | Every entry has exactly one place in the queue. |
| Evaluation.PrefixTakesInitialStretch | src/prediction_market_agent/runtime/evaluation.py:239-248 | Every prefix holds an initial stretch of each topic's entries, so topics keep their own order. |
| Evaluation.PrefixIsFair | src/prediction_market_agent/runtime/evaluation.py:239-248 | In every prefix two topics differ by at most one unless the less served one is used up. |
| Evaluation.QueueTakesAll | src/prediction_market_agent/runtime/evaluation.py:239-248 | The whole queue holds every entry of every topic. |
| Sorting.SortKeepsElements | src/prediction_market_agent/agent/provider_health.py:326-348 | Sorting by a key permutes the list. |
| Sorting.SortOrders | src/prediction_market_agent/agent/provider_health.py:326-348 | Sorting orders by key and, among equal keys, by original position. |
| ProviderHealth.ProviderHealthRegistry.Order | src/prediction_market_agent/agent/provider_health.py:317-349 | Answers the ranked names, and creates a fresh state for each name not seen before. |
| ProviderHealth.ProviderHealthRegistry.RecordSuccess | src/prediction_market_agent/agent/provider_health.py:351-363 | The provider's state stays the one its whole history determines; other providers are untouched. |
| ProviderHealth.ProviderHealthRegistry.RecordProbeSuccess | src/prediction_market_agent/agent/provider_health.py:365-378 | Likewise for a probe that reports the provider able to serve. |
| ProviderHealth.ProviderHealthRegistry.RecordFailure | src/prediction_market_agent/agent/provider_health.py:380-414 | Likewise for a failure, asked or not, with or without a stated end. |
| ProviderHealth.ProviderHealthRegistry.CoolDown | src/prediction_market_agent/agent/provider_health.py:394-413 | The field updates of a failure amount to one happening of the history. |
| ProviderHealth.ProviderHealthRegistry.RecheckProviders | src/prediction_market_agent/agent/provider_health.py:430-448 | Clears the named provider or all of them, each as one recheck added to its history, and reports exactly those it knew. |
| ProviderHealth.AttemptsAddUp | src/prediction_market_agent/agent/provider_health.py:351-414 | Over every history attempts equal successes plus the failures counted by kind. |
| ProviderHealth.CountersAreCounts | src/prediction_market_agent/agent/provider_health.py:351-414 | Successes, failures by kind and total latency are the counts and the sum over the history. |
| ProviderHealth.NewestHappeningShows | src/prediction_market_agent/agent/provider_health.py:351-448 | What each kind of happening leaves on the rest of the state. |
| ProviderHealth.ProbationMeansUnproved | src/prediction_market_agent/agent/provider_health.py:351-414 | A provider is on probation iff its latest failure is newer than every success and probe success. |
| ProviderHealth.RecheckRespectsProbation | src/prediction_market_agent/agent/provider_health.py:430-448 | A recheck makes a provider ready iff it was not on probation. |
| ProviderHealth.RecheckMakesProbeDue | src/prediction_market_agent/agent/provider_health.py:213-228 | After a recheck a probe is due at once iff the provider is on probation. |
| ProviderHealth.ProbesAreSpaced | src/prediction_market_agent/agent/provider_health.py:213-228 | A probe is due iff the provider is unproved and available and its last probe is 300 seconds old. |
| ProviderHealth.WaitIsBackoff | src/prediction_market_agent/agent/provider_health.py:408-413 | Without a stated end the wait is the base doubled once per earlier failure in the streak, capped. |
| ProviderHealth.FirstWaitIsBase | src/prediction_market_agent/agent/provider_health.py:64-72 | The first failure of a streak waits 300, 900, 30, 15 or 60 seconds by its kind. |
| ProviderHealth.NextWaitIsDouble | src/prediction_market_agent/agent/provider_health.py:408-413 | The next failure of the kind in a streak waits twice as long, up to 900 seconds. |
| ProviderHealth.WaitsNeverShrink | src/prediction_market_agent/agent/provider_health.py:380-414 | Between real successes and rechecks, waits for one kind of failure never shrink, whatever probes say, and stay within 900 seconds. |
| ProviderHealth.StatedEndIsKept | src/prediction_market_agent/agent/provider_health.py:394-413 | The outage ends when the caller says, if that lies ahead; for a rate limit when the message says; otherwise after the backoff. |
| ProviderHealth.OrderIsSortedPermutation | src/prediction_market_agent/agent/provider_health.py:317-349 | The order is a permutation of the configured entries, sorted by the mode's key and then by configured position. |
| ProviderHealth.ReadyFormPrefix | src/prediction_market_agent/agent/provider_health.py:317-349 | In both modes no provider that is not ready precedes a ready one. |
| ProviderHealth.ConfiguredOrderIsKept | src/prediction_market_agent/agent/provider_health.py:325-334 | CONFIGURED keeps the operator's order among the ready and among the others. |
| ProviderHealth.QualityOrderIsKept | src/prediction_market_agent/agent/provider_health.py:335-349 | QUALITY lists by availability, then off probation, then descending measured quality (1 when unmeasured), then configured position. |
| ProviderHealth.ReadyNamesArePrefix | src/prediction_market_agent/agent/decision.py:545-551 | The ready names are exactly the ready prefix of the order. |
| Decision.ReadyNames | src/prediction_market_agent/agent/decision.py:545-551 | Lists the ready providers, best first, of the registry as it was. |
| Decision.Attempt | src/prediction_market_agent/agent/decision.py:553-592 | Asks ready providers in the order their health and the mode give, refuses iff none is ready, ends as the first call that does not fail, and leaves the registry those calls lead to. |
| Decision.TriedInOrder | src/prediction_market_agent/agent/decision.py:541-592 | Whoever is asked earlier was ready if the later was, and stands earlier by configuration in CONFIGURED, by higher score and then configuration in QUALITY. |
| Decision.FirstNonFailureSettles | src/prediction_market_agent/agent/decision.py:567-592 | Every provider tried before the last failed; the last answered or cancelled, or the whole queue failed. |
| Decision.QueuedAsOftenAsConfigured | src/prediction_market_agent/agent/decision.py:559-569 | A provider is queued as often as it is configured if ready at the start, and never otherwise. |
| Decision.OnlyReadyAreAsked | src/prediction_market_agent/agent/decision.py:559-569 | Nobody is asked who is not configured or was not ready when the call began. |
| Decision.AskedAtMostOnce | src/prediction_market_agent/agent/decision.py:553-592 | Whatever the calls come to nobody is asked twice, iff no name that is ready when the call begins is configured twice. |
| Decision.ConfiguredTwiceIsAskedTwice | src/prediction_market_agent/agent/decision.py:567-584 | A fresh provider configured twice can be asked twice. |
| Decision.RegistryAfterAttempt | src/prediction_market_agent/agent/decision.py:575-588 | After its last call a provider that failed is not ready at any time and one failure up, one that answered is ready and one success and its latency up, and a cancelled one is as that call found it. |
| Decision.NeverAskedIsUntouched | src/prediction_market_agent/agent/decision.py:567-588 | A provider that was not asked is exactly as it was. |
| Decision.TotalFailureLeavesNobodyReady | src/prediction_market_agent/agent/decision.py:577-592 | After total failure every provider that was ready was tried and is not ready. |
| DecisionEvaluator.ConfidencesAreLatest | src/prediction_market_agent/agent/decision_evaluator.py:201-205 | A candidate counts with its last stated confidence. |
| DecisionEvaluator.ClosureExtends | src/prediction_market_agent/agent/decision_evaluator.py:190-215 | The closure keeps every true answer and trusts whoever is at least as confident as someone trusted. |
| DecisionEvaluator.ClosureIsLeast | src/prediction_market_agent/agent/decision_evaluator.py:190-215 | Every other monotone extension contains it. |
| DecisionEvaluator.ClosureFixesMonotone | src/prediction_market_agent/agent/decision_evaluator.py:190-215 | It changes nothing iff the answers were monotone; applying it twice changes nothing more. |
| Evolution.WeightIsTrustedDeviation | src/prediction_market_agent/agent/evolution.py:43-54 | The weight is 1 moved by n/(n+20) of the relative deviation from the baseline, clamped to the band. |
| Evolution.WeightInFigures | src/prediction_market_agent/agent/evolution.py:43-54 | One plus n/(n+20) of the relative deviation, held between 0.5 and 2; one with nothing to measure. |
| Evolution.WeightStaysInBand | src/prediction_market_agent/agent/evolution.py:43-54 | For every input the weight lies in [0.5, 2]. |
| Evolution.WeightIsMonotone | src/prediction_market_agent/agent/evolution.py:43-54 | A higher rate never gets a lower weight. |
| Evolution.WeightSidesWithRate | src/prediction_market_agent/agent/evolution.py:43-54 | The weight is 1 iff the rate is the baseline, and otherwise on the rate's side of 1. |
| Evolution.WeightMovesByAtMostTrust | src/prediction_market_agent/agent/evolution.py:43-54 | The weight is at most n/(n+20) of the relative deviation away from 1. |
| Evolution.EvidenceMovesAway | src/prediction_market_agent/agent/evolution.py:43-54 | At a fixed rate a larger sample never pulls the weight back toward 1. |

## Left out

- PaperLedger.PaperStaysSolvent: assumes each placed quote is the latest answer under its id and not placed before, BUY quotes for no negative quantity and no dearer than asked, SELL quotes at no negative price, SELL fees of at most the whole fill and BUY fees of no less than minus it, no withdrawals and no inherited short position; the inputs named above fail without one of them, and PaperLedger.StepKeepsSolventExactly is the condition without them.
- Ledger.AverageWithinFills: assumes fills of positive quantity, because a negative one can average a price outside its parts or raise.
- Decision.Attempt: no other thread changes the registry during the attempt.
- Survey.AdaptiveSurvey: the set of sources is the same in every round, and an exception before the first look at the clock or after the record is written, which leaves the record alone, is not a separate case.
- CoarseFilter.Filter: the pool lists each topic once, as the map it is built from does, and the square root is exact.
- Events.InvHolds: the handler does not call submit or stop itself, and runs are serialised as far as Events.SerialisedIsNeeded shows they must be.
- Floating-point rounding: amounts are reals; the program's own tolerances are kept as constants.
- Time inside one call: a gateway call reads the clock once, so an order's creation time and its position's mark time agree.
- Update in place: accounts, the paper book, the registry and the survey store are classes whose methods assign their fields, but single positions, orders and provider states are values in maps and sequences, so aliasing of one position object is not captured.
- Descriptive fields: symbols, titles, reasons, metadata and error texts carry no behaviour and are dropped.
- Text: upper-casing covers ASCII; values that fail to parse as numbers are not modelled.
- The gate is fixed during a run, rule engines are deterministic, and glob matching is an arbitrary predicate of target and pattern.
- Error classification and reset-time parsing: the failure kind and the parsed moment are inputs.
- Draining the screening queue, screening assessments, the sorted frontier and the final ordering of the survey's topics.
- Expanding topics into outcomes, with its deadline and settlement checks, before the round-robin queue is built.
- The body of a reconcile, its retry timer and its status fields.
- The dashboard, routes, command line, SQLite storage, plugins, authentication and deployment code.
