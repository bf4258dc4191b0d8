# Quote pipeline of the 0x swap aggregator

A Dafny model of the arithmetic a swap quote goes through between the router and the chain, and of three stateful
components beside it.

A router hands over fills. A path turns them into native, bridge and two-hop orders and ranks itself. The orders are
simulated in a best and a worst case, and merged into quote infos. Fees are taken before routing (sell tokens) or after
it (buy tokens). Finally the orders, slipped, are lowered to the transformations of `transformERC20` or to multiplex
subcalls. The stateful components are the builder of the token adjacency graph, the subscription service for order
updates over websockets, and the batched execution of sampler operations.

Verify the whole project with `dafny verify dfyconfig.toml`.

## How it is modelled

* Amounts are exact reals. Every rounding the code asks for (`integerValue`, `decimalPlaces`,
  `dividedToIntegerBy`) is written out with its mode in `Numbers`; nothing else is rounded.
* Thrown errors are values of `Result`, one `Failure` for each message.
* Loops that accumulate are methods. Each is proved equal to a function that is not written as a loop: the simulated
  waterfall to the shares given by water levels (`QuoteSimulation.Waterfall`), the merged transfers to what each
  recipient is owed (`Fees.Owed`), the batch execution to the result of the call an operation sent itself.
* Objects that the code updates in place are classes whose methods are proved equal to a step function on a value:
  `TokenGraph.TokenAdjacencyGraphBuilder`, `Websocket.WebsocketService`. What holds over every sequence of calls or
  events is proved about the step functions (`TokenGraph.Run`, `Subscriptions.IsRun`).
* The type of an order follows from its fill data, so the mismatches that TypeScript casts rule out cannot be written.
* Preconditions are what the callers guarantee: fill inputs and order amounts are positive, outputs are not negative,
  taker fees never exceed the input they are charged on, `0 <= slippage <= 1`, a 0x share is at least zero and less
  than one, token amounts requested by a user are whole. That the fills add up to the requested amount is not
  assumed end to end: it is one side of an equivalence.

## What is proved

* **Simulation.** The fill loop has a closed form: order `k` is filled to the fraction that the input left by the orders
  before it covers. The input taken, fees included, is the smaller of the request and what the orders hold; the inputs
  by source add up; the reached orders are a prefix. The worst case is never better than the best case, for single-hop
  orders and for the merged quote. What both report is given field by field: gas and protocol fees of the orders that
  are hit, and amounts and fees of a covered quote as sums over the fills of the path.
* **Path.** The path's own waterfall agrees with the simulation of the same fills in the same sequence, up to the
  penalties of all fills. A path lists its fills in any sequence while the simulation takes native orders first: the
  inputs agree always, the outputs when the target covers the fills, and a path that overshoots agrees exactly when the
  end of the fills and the end of the simulated orders lose the same output. Each fill becomes one order with its own
  source, data, tokens and amounts. Comparing paths is a strict weak order: of two complete sells the better one leaves
  more output after its overhead, of two complete buys it takes less with it. Slipping by type and slipping the flat
  list agree. In a sell the worst case exceeds what the slipped orders guarantee by less than `n * (2 - slippage)`; in a
  fully filled buy the slipped orders take less than `n * (2 + slippage)` more than the worst case, which is all the
  call may sell.
* **Lowering.** The per-type lists with their fill sequence can be replayed to the original orders, and only they can.
  Replaying all fills of a call gives the slipped orders of the path, each once. A call pays every fee recipient what it
  is owed, leaves the taker the best case, and strands no token. Subcalls sell exactly what the orders take. A quote
  that passes a compatibility test meets neither the failure nor the fallback of its encoder. Fees and fills of a
  version 1 meta-transaction spend exactly the sell amount of the call if and only if the path meets the request or has
  two-hop orders only.
* **Fees.** Every fee is the configured part of its amount, rounded down. Transfers have distinct recipients, each is
  paid the sum of its fees, and the total is conserved whichever recipients coincide. The estimated gas covers the
  transfers.
* **End to end.** For every path of marketable fills for the amount left after fees, a sell sells what the user asked
  and the excess of the path, in the response and in the call: exactly what the user asked if and only if the path meets
  the amount, that is, its fills add up to it, or it has no two-hop input and its single-hop orders hold enough. What
  the call spends is what the user asked as soon as there is a single-hop order. A buy with a percentage fee quotes
  exactly what the user asked for if and only if what is asked of the path is less than a token below the gross-up; for
  a path that does not fall short, if and only if it meets the amount. The price, the guaranteed amount and the sell
  amount of a buy's call are compared with the response.
* **Stateful components.** Invariants over all sequences of calls or events, and exactly when a subscription or a
  connection ends.

### Where the code falls short of what is expected of it

* `QuoteInfo.QuoteMeetsRequestIff`, `SwapQuoter.OvershootSellsMore`: the single-hop simulation is given the whole
  requested amount although two-hop orders fill a part of it. The route builder rounds the input of each fill up
  (`path_optimizer.ts:424-428`), so a route with two-hop orders can ask for a few base units more than the user did.
* `PathSimulation.OvershootAgreesIff`, `PathSimulation.MixedOvershootDiffers`: the router ranks an overshooting path by
  cutting its last fill, the quote cuts the last order after putting native orders first.
* `SwapService.BuyRoundTrip`, `SwapService.NullRecipientKeepsGrossUp`, `SwapService.GaslessFeeIsNotGrossedUp`: a buy
  whose percentage fee goes to the null address, given explicitly, is grossed up at `swap_service.ts:391` but not
  reduced at `service_utils.ts:99`; an enabled gasless fee is deducted without a gross-up.
* `SwapService.PriceWithinResponseIff`, `SwapService.GaslessPriceBeatsResponse`: the price leaves out an enabled gasless
  fee that `buyAmount` has deducted, and is then better than the response's own amounts unless the quotients with and
  without the fee round to the same price.
* `CallFees.EthCoversIff`: a call from ETH with sell token fees pays them and wraps what it sells out of ETH that covers
  the latter only.
* `CallFees.CompatibleCallPaysNothing`: a surplus fee does not keep a quote from the multiplex encodings, which have no
  place for it.
* `QuoteInfo.ProportionsAreShares`, `QuoteInfo.MixedBuyProportions`: for buys the source breakdown adds taker amounts of
  two-hop orders to maker amounts, so its proportions are right exactly when both sides of these orders come to the
  same.
* `RfqValidator.PromisesFitIff`, `RfqValidator.TwoQuotesExceedBalance`: a maker's balance caps each quote, not the
  quotes of the maker together.
* `Fees.GasEstimateCoversTransfers`: the two counts of recipients differ when a gas fee with a positive rate rounds to
  zero.
* `Subscriptions.SafeIffIdIsNotShared`, `Subscriptions.SharedIdIsLost`: a request id used by two sockets is dropped when
  either closes.

## Model

| member | source | states |
|---|---|---|
| NativeAmounts.FillAmountsAreAdjoint | src/asset-swapper/utils/utils.ts:14-34 | rounding up to a taker amount and down to a maker amount are adjoint: one bounds the taker amount iff the other bounds the maker amount |
| NativeAmounts.FillAmountsRoundTrip | src/asset-swapper/utils/utils.ts:14-34 | converting there and back never favours the taker, and a third conversion changes nothing |
| NativeAmounts.FillableAmountsAgree | src/asset-swapper/utils/utils.ts:56-89 | fillable amounts from a maker amount and from the taker amount it leads to agree on taker and fee, and never overstate the maker side |
| QuoteSimulation.FillQuoteOrders | src/asset-swapper/utils/quote_simulation.ts:139-179 | the loop with its early exit equals the waterfall by water levels: all six totals and the inputs by source |
| QuoteSimulation.SolveIsFraction | src/asset-swapper/utils/quote_simulation.ts:185-214 | the solved input is the covered fraction of the order, and with its fee takes exactly the remaining input or the order's capacity |
| QuoteSimulation.FillOrderIsShare | src/asset-swapper/utils/quote_simulation.ts:154-176 | the loop body computes the order's share in input, output, both fees, protocol fee and gas |
| QuoteSimulation.WaterfallConsumes | src/asset-swapper/utils/quote_simulation.ts:149-174 | input and input fee together are the smaller of the request and what the orders hold |
| QuoteSimulation.SourcesAddUp | src/asset-swapper/utils/quote_simulation.ts:156-169 | the inputs by source add up to the total input |
| QuoteSimulation.ReachedIsPrefix | src/asset-swapper/utils/quote_simulation.ts:150-153 | visited orders are a prefix of all orders |
| QuoteSimulation.FullFill | src/asset-swapper/utils/quote_simulation.ts:139-179 | fee-free orders that the request covers are all filled completely |
| QuoteSimulation.FeeFreeQuote | src/asset-swapper/utils/quote_simulation.ts:100-113 | a fee-free quote takes the request or all its orders hold, charges no fee, and when fully filled outputs the sum of outputs |
| QuoteSimulation.BestCaseFillOrderCalls | src/asset-swapper/utils/quote_simulation.ts:216-247 | one call per order in order, with totals and taker fee on the side they are charged, each fit for the fill loop |
| QuoteSimulation.SimulateBestCaseFill | src/asset-swapper/utils/quote_simulation.ts:100-113 | the simulated best case is the rounded waterfall |
| QuoteSimulation.SimulateWorstCaseFill | src/asset-swapper/utils/quote_simulation.ts:117-137 | the worst case overwrites gas, protocol fee and output of the same waterfall |
| QuoteSimulation.WorstDominatesBest | src/asset-swapper/utils/quote_simulation.ts:100-137 | same input side, no better output side, and no less gas and protocol fee, for sells and buys |
| FillResults.BestCaseCosts | src/asset-swapper/utils/quote_simulation.ts:139-302 | gas of the orders that are hit, and protocol fee of the limit orders among them, rounded up; an order is hit when what the earlier ones hold, fees included, is less than the request |
| FillResults.WorstCaseCosts | src/asset-swapper/utils/quote_simulation.ts:117-128 | gas of all orders, and the protocol fee times the number of limit orders, rounded up |
| FillResults.CoveredAmounts | src/asset-swapper/utils/quote_simulation.ts:100-113 | amounts and taker fees of a quote that covers its orders, as sums over the orders, each rounded against the taker on its side |
| FillResults.CoveredWorstAmounts | src/asset-swapper/utils/quote_simulation.ts:130-136 | the same for the worst case, with the summed output slipped |
| FillResults.CoveredBySource | src/asset-swapper/utils/quote_simulation.ts:264-271 | the sources of a covered quote are those of its orders, each with their summed inputs, rounded against the taker |
| FillResults.InputWithFees | src/asset-swapper/utils/quote_simulation.ts:139-302 | any quote takes, fees included, the request or what its orders hold with their fees, before its parts are rounded |
| Orders.InputsArePartitioned | src/asset-swapper/utils/market_operation_utils/path.ts:195-213 | the fills' inputs are the input-side amounts of native, two-hop and bridge orders together |
| Orders.OrdersFollowTheirFills | src/asset-swapper/utils/market_operation_utils/orders.ts:51-85 | the orders of each kind are the fills of that kind in order: source, data, tokens and both amounts; both hops of a two-hop order with the token between them, its outer amounts and its open inner ones |
| Orders.TwoHopOrdersEmpty | src/asset-swapper/utils/market_operation_utils/path.ts:203-205 | there is a two-hop order iff there is a two-hop fill |
| Path.CreateAdjustedSize | src/asset-swapper/utils/market_operation_utils/path.ts:168-189 | the ranked input is the smaller of the target and the fills' inputs |
| Path.AdjustedSizeAgreesWithSimulation | src/asset-swapper/utils/market_operation_utils/path.ts:168-189 | for every prefix of the fills the ranked size takes the simulated input, and differs in output by all penalties |
| PathSimulation.RankedSizeAgreesWithQuote | src/asset-swapper/utils/market_operation_utils/path.ts:168-213 | for a built single-hop path and the simulated quote of its own orders: inputs agree always, outputs up to the penalties when the target covers the fills or native fills come first |
| PathSimulation.OvershootAgreesIff | src/asset-swapper/utils/market_operation_utils/path.ts:171-179 | for any overshoot, what ranking and simulation lose, and that the outputs agree exactly when both lose the same |
| PathSimulation.LastCutsAgreeIff | src/asset-swapper/utils/market_operation_utils/path.ts:171-179 | an overshoot within the last fill and the last order: exactly when nothing is cut or their rates agree |
| Path.AdjustedSizeIsCut | src/asset-swapper/utils/market_operation_utils/path.ts:168-189 | what the target misses of the fills is cut from their end, penalties apart |
| QuoteSimulation.WaterfallIsCut | src/asset-swapper/utils/quote_simulation.ts:139-179 | what the request misses of the orders is cut from their end |
| PathSimulation.MixedOvershootDiffers | src/asset-swapper/utils/market_operation_utils/path_optimizer.ts:423-428 | a bridge fill before a native one, one unit over: ranked with 149, simulated with 150 |
| QuoteSimulation.LastOrderIsCut | src/asset-swapper/utils/quote_simulation.ts:158-164 | a request that runs dry within the last order cuts that order's output in proportion |
| Orders.SingleHopsKeepAmounts | src/asset-swapper/utils/market_operation_utils/path.ts:195-213 | single-hop fills in any sequence become orders that hold the same inputs and outputs together |
| Path.HasTwoHopIff | src/asset-swapper/utils/market_operation_utils/path.ts:44-68 | the merged source flags say whether there is a two-hop order |
| Path.FlatPositions | src/asset-swapper/utils/market_operation_utils/path.ts:74-81 | the flat list has native orders first, then bridge orders, then the two hops of each two-hop order |
| Path.SlippedFormsAgree | src/asset-swapper/utils/market_operation_utils/path.ts:88-112 | both slipped forms fail alike, or one is the flattening of the other with native orders untouched |
| Path.SlippageIsOneSided | src/asset-swapper/utils/market_operation_utils/path.ts:221-245 | slippage changes the output side only, against the trader, and neither native orders nor unlimited amounts |
| PathSimulation.AmountLoss | src/asset-swapper/utils/market_operation_utils/path.ts:230-237 | rounding, slipping and rounding again loses less than 2 - slippage |
| PathSimulation.SlippageGap | src/asset-swapper/utils/quote_simulation.ts:130-136 | worst case minus slipped orders of any sell is below n * (2 - slippage), and not negative when every order is filled completely and none is native |
| PathSimulation.OrderSlipsIff | src/asset-swapper/utils/market_operation_utils/path.ts:225-244 | exactly which orders slip at least by the slippage: not the native ones, and not unlimited amounts |
| Path.BetterIsStrictWeakOrder | src/asset-swapper/utils/market_operation_utils/path.ts:127-139 | comparison is irreflexive, asymmetric, transitive, and so is its negation transitive |
| Path.ComparisonIsTotal | src/asset-swapper/utils/market_operation_utils/path.ts:127-139 | comparing fails iff the targets differ, and a complete path beats an incomplete one |
| Path.ShortPathsRankByInput | src/asset-swapper/utils/market_operation_utils/path.ts:131-135 | when one of two paths falls short of the target, the better one is that whose fills hold more of it |
| Path.SellsRankByWhatIsLeft | src/asset-swapper/utils/market_operation_utils/path.ts:127-166 | of two complete sells the better one is the one with more output left after its overhead, converted at the output rate or else at the input rate and the whole rate of the path |
| Path.BuysRankByWhatIsPaid | src/asset-swapper/utils/market_operation_utils/path.ts:127-166 | of two complete buys it is the one with less output and overhead together |
| Path.OverheadNeverHelps | src/asset-swapper/utils/market_operation_utils/path.ts:141-160 | of two complete paths of the same size the one with more overhead is never the better one |
| Path.PathFlagsAreOfFills | src/asset-swapper/utils/market_operation_utils/path.ts:44-68 | a path has exactly the flags of its fills, by which its overhead goes |
| QuoteInfo.QuoteInfoNeverFails | src/asset-swapper/utils/quote_info.ts:28-187 | merging never meets its error cases: both infos are the sums of the parts, with the source breakdown |
| QuoteAmounts.QuoteCosts | src/asset-swapper/utils/quote_info.ts:28-168 | gas of best and worst case: single-hop orders hit, or all of them, and every two-hop fill by its hops; no protocol fee; slippages zero and as asked |
| QuoteAmounts.CoveredSell | src/asset-swapper/utils/quote_info.ts:28-168 | from the fills: what a sell that covers its orders makes and takes in both cases, single-hop outputs rounded once and two-hop outputs one by one |
| QuoteAmounts.CoveredBuy | src/asset-swapper/utils/quote_info.ts:28-168 | the same for a buy |
| QuoteInfo.WorstQuoteDominatesBest | src/asset-swapper/utils/quote_info.ts:28-168 | worst-case dominance survives merging single-hop and two-hop infos |
| QuoteInfo.TwoHopDominatesIff | src/asset-swapper/utils/quote_info.ts:128-141 | exactly when the two-hop worst case, rounded to nearest, is no better than the best case |
| QuoteInfo.PathHasWholeTwoHops | src/asset-swapper/utils/market_operation_utils/orders.ts:51-85 | the two-hop orders of a path have whole amounts |
| QuoteInfo.QuoteInput | src/asset-swapper/utils/quote_info.ts:28-168 | what best and worst case ask for on the input side |
| QuoteInfo.QuoteMeetsRequestIff | src/asset-swapper/utils/quote_info.ts:28-66 | what the quote of a path asks for, and exactly when that is the requested amount |
| QuoteInfo.ExcessZeroIff | src/asset-swapper/utils/quote_info.ts:28-66 | the excess is what the fills overshoot, or all two-hop input when single-hop orders hold the amount; it is zero exactly when the path meets the request |
| QuoteInfo.OvershootAsksForMore | src/asset-swapper/utils/quote_info.ts:28-66 | fills of 51 and, two-hop, 50 make a quote for 100 ask for 101 |
| QuoteInfo.MinBuyAgainstSlippedOrders | src/asset-swapper/utils/quote_info.ts:128-141 | the promised minimum of any sell quote against what its slipped orders deliver, rounding gap included |
| BuySlippage.BuySlippageGap | src/asset-swapper/utils/market_operation_utils/path.ts:238-242 | slipped taker amounts of a buy against its worst case: never less without native orders, less than n * (2 + slippage) more when fully filled |
| BuySlippage.MaxSellAgainstSlippedOrders | src/asset-swapper/utils/quote_info.ts:128-141 | the same for a whole buy quote, two-hop orders included |
| QuoteInfo.ProportionsAreShares | src/asset-swapper/utils/quote_info.ts:142-187 | the breakdown of a quote: proportions of what the quote asks for in every sell, and in a buy exactly when both sides of its two-hop orders come to the same |
| QuoteInfo.BreakdownNamesHops | src/asset-swapper/utils/quote_info.ts:142-187 | each two-hop share names its two sources in order and the token between them |
| QuoteInfo.ProportionsAddUpToOne | src/asset-swapper/utils/quote_info.ts:170-187 | the proportions of a quote's sources add up to one |
| QuoteInfo.MixedBuyProportions | src/asset-swapper/utils/quote_info.ts:142-187 | a source that fills half of a buy is reported with a quarter |
| QuoteSimulation.SourceAmountsAreExact | src/asset-swapper/utils/quote_simulation.ts:268-271 | for whole fee-free orders rounding leaves the inputs by source as they are, and they add up to the filled input |
| FqtData.GetFqtDataFromOrders | src/asset-swapper/quote_consumers/quote_consumer_utils.ts:149-196 | the loop pushing to five lists equals lowering order by order |
| FqtData.ReplayPush | src/asset-swapper/quote_consumers/quote_consumer_utils.ts:163-194 | a pushed order is the last one replayed |
| FqtData.ReplayReconstructs | src/asset-swapper/quote_consumers/quote_consumer_utils.ts:149-196 | walking the fill sequence gives back every order with its amounts, in order, nothing left over |
| FqtData.ReplayTellsOrders | src/asset-swapper/quote_consumers/quote_consumer_utils.ts:149-196 | each replayed leg tells the type of its order, and its source, data and both amounts or its native order, signature and taker amount |
| FqtData.ReplayDetermines | src/asset-swapper/quote_consumers/quote_consumer_utils.ts:149-196 | data that replays to the same orders is the same data |
| FqtData.LoweredTakers | src/asset-swapper/quote_consumers/quote_consumer_utils.ts:163-188 | the amounts handed to the transformer add up to the orders' taker amounts |
| Multiplex.EncodeBatchFill | src/asset-swapper/quote_consumers/exchange_proxy_swap_quote_consumer.ts:321-405 | fails iff an unsupported native order precedes any fallback, and otherwise gives direct subcalls and one fallback for the rest |
| Multiplex.BatchSellsWhatOrdersTake | src/asset-swapper/quote_consumers/exchange_proxy_swap_quote_consumer.ts:321-405 | the subcalls' sell amounts add up to the orders' taker amounts |
| Multiplex.FallbackCarriesTheRest | src/asset-swapper/quote_consumers/exchange_proxy_swap_quote_consumer.ts:376-403 | the fallback replays to exactly the orders not encoded directly |
| Multiplex.BatchCallsOrders | src/asset-swapper/quote_consumers/exchange_proxy_swap_quote_consumer.ts:321-405 | subcall by subcall: the signed native order of its type, or source and data, and the amount sold; the fallback tells of all the rest |
| Multiplex.HopCallsOrder | src/asset-swapper/quote_consumers/exchange_proxy_swap_quote_consumer.ts:440-469 | each hop names the source and carries the data of its order |
| Multiplex.CompatibleBatchIsDirect | src/asset-swapper/quote_consumers/quote_consumer_utils.ts:43-62 | a compatible quote gets one direct subcall per order in order; no failure, no fallback |
| Multiplex.BatchCompatibleIff | src/asset-swapper/quote_consumers/quote_consumer_utils.ts:43-62 | a quote passes the batch test iff there is no meta-transaction, fee or entire balance, no two-hop order, and only RFQ and OTC orders or Uniswap and SushiSwap pools |
| Multiplex.EncodeMultiHopFill | src/asset-swapper/quote_consumers/exchange_proxy_swap_quote_consumer.ts:432-469 | succeeds iff there is one two-hop order with supported sources, and encodes its token route and both hops |
| Multiplex.CompatibleMultiHopEncodes | src/asset-swapper/quote_consumers/quote_consumer_utils.ts:73-94 | a compatible path meets that condition after slipping, and its route is connected |
| Multiplex.MultiHopCompatibleIff | src/asset-swapper/quote_consumers/quote_consumer_utils.ts:73-94 | a path passes the multi-hop test iff it is one two-hop order through such pools and the same options hold |
| Multiplex.FillAmountPerOrder | src/asset-swapper/quote_consumers/exchange_proxy_swap_quote_consumer.ts:224-235 | each order gets what the sell amount still reaches, and together they get the sell amount or all they take |
| Multiplex.FillAmountsMatchSimulation | src/asset-swapper/quote_consumers/exchange_proxy_swap_quote_consumer.ts:224-235 | these amounts are the inputs the quote was simulated with |
| TransformErc20.AppendBuyFees | src/asset-swapper/quote_consumers/feature_rules/transform_erc20_rule.ts:142-218 | one transformation per charged buy fee; the minimum drops by the charged fees down to zero; overhead per surplus fee |
| TransformErc20.CreateCalldata | src/asset-swapper/quote_consumers/feature_rules/transform_erc20_rule.ts:67-239 | fails iff the slippage is out of range; otherwise the transformations whose orders, fees and stages the rows below give, with the sell, minimum buy and ETH amounts, tokens and overhead |
| CallOrders.CallFillsTheOrders | src/asset-swapper/quote_consumers/feature_rules/transform_erc20_rule.ts:241-316 | replaying all fills of a call gives the slipped orders of the path, each once: the hops of each two-hop order in turn, then native and bridge orders |
| CallOrders.CallIsChained | src/asset-swapper/quote_consumers/feature_rules/transform_erc20_rule.ts:241-316 | each two-hop order is a pair of fills by its own hops, the second selling all the first bought; one fill on the side of the quote takes the rest |
| CallFees.CallHasStages | src/asset-swapper/quote_consumers/feature_rules/transform_erc20_rule.ts:86-220 | the stages of a call in order: sell token fees, wrapping, fills, unwrapping, buy token fees and surplus, taker; what each may hold, and that ETH is wrapped and unwrapped once but not on Celo |
| CallFees.CallPaysFees | src/asset-swapper/quote_consumers/feature_rules/transform_erc20_rule.ts:86-218 | over all transformations every recipient is paid exactly what the options owe it, in the sell or buy token or in ETH |
| CallFees.GuaranteeIsWorstLessFees | src/asset-swapper/quote_consumers/feature_rules/transform_erc20_rule.ts:142-218 | the guaranteed amount is the worst case less the buy token fees the call pays, and not negative |
| CallFees.CallLeavesBestCase | src/asset-swapper/quote_consumers/feature_rules/transform_erc20_rule.ts:150-176 | one surplus transformation for each surplus fee; it leaves the taker the best case and the gas of handing out the surplus, which is charged for each |
| CallFees.NothingIsStranded | src/asset-swapper/quote_consumers/feature_rules/transform_erc20_rule.ts:318-341 | every token a fill sells or buys, but the buy token, is paid to the taker in the end, ETH unless it is bought, and nothing else |
| CallFees.EthCoversIff | src/asset-swapper/quote_consumers/feature_rules/transform_erc20_rule.ts:86-126 | a call from ETH wraps what it sells and pays sell token fees besides: the ETH sent covers both iff there are no such fees |
| CallFees.CompatibleCallPaysNothing | src/asset-swapper/quote_consumers/quote_consumer_utils.ts:201-217 | an encoding without fees loses no affiliate fee, and loses the surplus iff there is a surplus fee |
| TransformErc20.NonTwoHopFillAmountIsTheRest | src/asset-swapper/quote_consumers/feature_rules/transform_erc20_rule.ts:343-360 | it is what native and bridge orders hold less what the fills overshoot the quote, for sells and buys |
| TransformErc20.FillsSpendTheQuote | src/asset-swapper/quote_consumers/feature_rules/transform_erc20_rule.ts:252-316 | whatever the fills sum to, two-hop and other fills of a sell spend the routed amount as soon as there is a single-hop order |
| TransformErc20.SellTokensAreConserved | src/asset-swapper/quote_consumers/feature_rules/transform_erc20_rule.ts:86-128 | in a version 1 meta-transaction fees and fills spend the sell amount of the call exactly when the path meets the request or has two-hop orders only; the difference is the excess |
| Fees.CalculateTotalOnChainFees | src/utils/fee_calculator.ts:98-175 | distinct recipients, each paid what it is owed; total and gas of the transfers |
| Fees.AddFee | src/utils/fee_calculator.ts:142-163 | merging a charged fee changes its recipient's transfer only |
| Fees.CalculateFees | src/utils/fee_calculator.ts:46-89 | fails iff the breakdown does; otherwise the transfers pay the breakdown |
| Fees.FeesFollowConfigs | src/utils/fee_calculator.ts:177-304 | every fee is the floor of its configured percentage of the sell amount, of its share of the integrator fee or of the gas in sell tokens, in the sell token, with the recipient and billing of its configuration |
| Fees.TransfersFollowFees | src/utils/fee_calculator.ts:98-175 | who is paid: the recipients of positive fees billed on-chain, each all its fees, the integrator less the share that goes to 0x |
| Fees.FeesFailIff | src/utils/fee_calculator.ts:220-256 | the two exact reasons to fail |
| Fees.CarvedOutBounds | src/utils/fee_calculator.ts:117-127 | the 0x share leaves something of the integrator fee |
| Fees.TransfersArePositive | src/utils/fee_calculator.ts:98-175 | exactly the recipients of charged fees are owed something |
| Fees.FeesAreConserved | src/utils/fee_calculator.ts:98-175 | the total is integrator, gas and 0x fee, a carved-out share costing nothing extra |
| Fees.TotalIsWhole | src/utils/fee_calculator.ts:177-239 | every fee is rounded, and the total is whole |
| Fees.GasEstimateCoversTransfers | src/utils/fee_calculator.ts:241-304 | the estimated gas of a gas fee is never short of the transfers' gas, and exceeds it exactly when the gas costs less than a token and the recipient is paid nothing else |
| SwapService.GetSellTokenFees | src/services/swap_service.ts:896-967 | fails iff the fees do or a sell cannot cover them; transfers are positive and add up to the fee, each recipient is brought what it is owed, and the gas is that of the transfers |
| SwapService.AffiliateFeesAddUp | src/services/swap_service.ts:932-942 | filtering transfers loses nothing |
| SwapService.RecipientsKeepTheirFees | src/services/swap_service.ts:932-942 | each recipient is brought what it was transferred |
| SwapService.SellIsConservedEndToEnd | src/services/swap_service.ts:385-391 | fees subtracted before routing and added afterwards: response and call sell what the user asked and the excess, so exactly that iff the path meets the routed amount |
| SwapService.BuyCallSellsAtLeast | src/asset-swapper/quote_consumers/feature_rules/transform_erc20_rule.ts:103-112 | the call of a version 1 buy sells the worst case and the fees, at least what the response says, and exactly that when worst and best case take the same |
| SwapService.GrossUpRoundTrip | src/services/swap_service.ts:391 | grossing up and deducting the percentage fee are inverse in whole tokens |
| SwapService.GrossUpExcess | src/services/swap_service.ts:391 | what grossing up adds |
| SwapService.BuyRoundTrip | src/services/swap_service.ts:605 | exactly when a buy quotes the requested amount, for any path and kind of fee; when the path meets the grossed-up amount, by guards on percentage and gas |
| SwapService.NetAmountIff | src/utils/service_utils.ts:121-125 | a whole amount less its percentage fee is the request exactly within one token of the gross-up |
| SwapService.PercentageBuyIff | src/services/swap_service.ts:605 | exactly when a buy with a charged percentage quotes the requested amount, whatever the fills add up to |
| SwapService.OvershotBuyIff | src/services/swap_service.ts:391 | a path that does not fall short leaves the request exactly when it meets the grossed-up amount |
| SwapService.NullRecipientKeepsGrossUp | src/utils/service_utils.ts:99-105 | a percentage for the null address quotes 1010 for 1000 |
| SwapService.GaslessFeeIsNotGrossedUp | src/utils/service_utils.ts:107-119 | a gasless fee of 5 quotes 995 for 1000 |
| SwapService.DeductedBuyAmount | src/utils/service_utils.ts:98-134 | the same from the quoted maker amounts alone, by fee type |
| SwapService.BuyFeesByType | src/utils/service_utils.ts:98-134 | amount and gas of the fee by type and recipient: the floor of the worst case gas in maker tokens, or of the percentage part of the guaranteed amount |
| SwapService.PriceIsConservative | src/services/swap_service.ts:163-211 | prices are rounded against the trader, and the guaranteed price is never the better one |
| SwapService.PricesAreRates | src/services/swap_service.ts:163-211 | the price is the rate of the best case and the guaranteed price that of the worst case, less the percentage of the guaranteed amount in both, to the decimals of the priced token, rounded against the trader |
| SwapService.PriceWithinResponseIff | src/services/swap_service.ts:605-606 | exactly when the communicated price is no better than the response's amounts: any fee but an enabled gasless one, or one without which the price rounds to the same |
| SwapService.GaslessPriceBeatsResponse | src/services/swap_service.ts:605-606 | a price of 10 for amounts of 900 and 100 |
| SwapService.MakerUnitsWithinIff | src/services/swap_service.ts:174-193 | before rounding, exactly when the price deducts at least what the response deducts |
| SwapService.MinBuyWithinQuotedIff | src/asset-swapper/quote_consumers/feature_rules/transform_erc20_rule.ts:145-218 | the call guarantees no more than the response quotes exactly when the fee leaves something to quote, as every fee but a gasless one does |
| SwapQuoter.MarketablePathIsQuotable | src/asset-swapper/swap_quoter.ts:279-287 | pruned fills become orders that the simulation accepts and that charge no taker fee |
| SwapQuoter.EverySellIsConserved | src/asset-swapper/swap_quoter.ts:356-410 | for every path of marketable fills and every fee plan: response and version 1 call sell what the user asked and the excess, exactly that iff the path meets the amount, and what is spent |
| SwapQuoter.OvershootSellsMore | src/asset-swapper/swap_quoter.ts:356-410 | a route one unit over, with a two-hop fill, sells one token more than the user asked |
| SwapQuoter.EveryBuyIsExact | src/services/swap_service.ts:391 | for every path of marketable fills and a percentage fee: exactly when the quoted amount is the requested one |
| SwapQuoter.EveryQuoteIsDominated | src/asset-swapper/utils/quote_info.ts:28-168 | for every path of marketable fills the worst case is never better than the best case |
| SwapQuoter.QuoteIsForPair | src/asset-swapper/swap_quoter.ts:356-410 | the quote's side, slippage and amount are those requested, and its tokens those of the path by side |
| SwapQuoter.EveryCallFillsTheOrders | src/asset-swapper/quote_consumers/feature_rules/transform_erc20_rule.ts:241-316 | from the path to the call: the fills execute the path's orders, slipped as requested, each once |
| RfqValidator.CalculateTakerFillableAmounts | src/services/postgres_rfqt_firm_quote_validator.ts:150-209 | the amount of every quote, and each unknown maker reported once |
| RfqValidator.GetRfqtTakerFillableAmounts | src/services/postgres_rfqt_firm_quote_validator.ts:83-148 | zero for a mixed or empty batch; otherwise amounts by the last cache entry of each maker |
| RfqValidator.FillableByCache | src/services/postgres_rfqt_firm_quote_validator.ts:150-262 | from the last cache row: whole when the row vouches for the maker amount, nothing when it is stale or has no balance, otherwise in proportion to the balance |
| RfqValidator.CappedByBalance | src/asset-swapper/utils/market_operation_utils/index.ts:696-707 | a taker amount is allowed iff the balance pays for it, and the derived maker amount never exceeds the balance |
| RfqValidator.PromisesFitIff | src/services/postgres_rfqt_firm_quote_validator.ts:155-203 | quotes of one maker each covered alone fit its balance together exactly when their maker amounts do; others promise the capped maker amounts less at most one maker and one taker unit each |
| RfqValidator.TwoQuotesExceedBalance | src/services/postgres_rfqt_firm_quote_validator.ts:155-203 | a balance of 100 lets two quotes promise 120 |
| TokenGraph.TokenAdjacencyGraphBuilder.constructor | src/asset-swapper/utils/token_adjacency_graph.ts:37-40 | an empty graph with lower-case default tokens |
| TokenGraph.TokenAdjacencyGraphBuilder.Add | src/asset-swapper/utils/token_adjacency_graph.ts:42-62 | throws iff both tokens are the same in lower case, and otherwise adds the edge once to a list that starts with the defaults |
| TokenGraph.TokenAdjacencyGraphBuilder.AddBidirectional | src/asset-swapper/utils/token_adjacency_graph.ts:64-66 | both edges or none |
| TokenGraph.TokenAdjacencyGraphBuilder.AddCompleteSubgraph | src/asset-swapper/utils/token_adjacency_graph.ts:68-75 | the nested loops equal joining row by row, up to the pair that throws |
| TokenGraph.AddIsExact | src/asset-swapper/utils/token_adjacency_graph.ts:42-62 | fails iff the tokens are the same but for case; otherwise exactly the edge is new, and the defaults in a new list |
| TokenGraph.AddBothIsExact | src/asset-swapper/utils/token_adjacency_graph.ts:64-66 | the same for both edges together |
| TokenGraph.EveryRunIsWellFormed | src/asset-swapper/utils/token_adjacency_graph.ts:33-75 | over every sequence of calls lists are lower-case, duplicate-free, start with the defaults, add no self-edge, and edges have their reverse when added both ways |
| TokenGraph.DistinctDefaultsIff | src/asset-swapper/utils/token_adjacency_graph.ts:37-40 | the first graph is well formed exactly when the defaults differ in lower case |
| TokenGraph.CompleteSubgraphIsComplete | src/asset-swapper/utils/token_adjacency_graph.ts:68-75 | exactly the edges between the tokens, and to the defaults, are added |
| TokenGraph.CompleteSubgraphThrowsIff | src/asset-swapper/utils/token_adjacency_graph.ts:68-75 | throws iff a token is repeated |
| TokenGraph.IntermediateTokensAreSymmetric | src/asset-swapper/utils/token_adjacency_graph.ts:24-30 | the same tokens both ways, each once, never an endpoint |
| TokenGraph.IntermediateTokensAreListed | src/asset-swapper/utils/token_adjacency_graph.ts:19-30 | the proposed tokens are those either endpoint lists, or the defaults for one without a list, the endpoints apart |
| TokenGraph.IntermediateTokensLinkBack | src/asset-swapper/utils/token_adjacency_graph.ts:24-30 | with two-way edges the proposed tokens are those that list an endpoint |
| Websocket.WebsocketService.ProcessConnection | src/services/websocket_service.ts:174-180 | a new socket joins the clients, alive and holding no id; both maps stay as they are |
| Websocket.WebsocketService.MessageHandler | src/services/websocket_service.ts:181-229 | a subscription enters both maps and the socket; any other message terminates |
| Websocket.WebsocketService.PongHandler | src/services/websocket_service.ts:230-234 | the socket counts as alive until the next sweep; nothing else changes |
| Websocket.WebsocketService.CloseHandler | src/services/websocket_service.ts:235-242 | drops every id the socket holds from both maps, and nothing else |
| Websocket.WebsocketService.CleanupConnections | src/services/websocket_service.ts:204-215 | every client is terminated if silent and marked silent otherwise |
| Websocket.WebsocketService.DestroyAsync | src/services/websocket_service.ts:123-139 | every client is terminated and both maps are emptied |
| Websocket.WebsocketService.OrderUpdate | src/services/websocket_service.ts:140-173 | for each order exactly one message per matching subscription; none without clients |
| Subscriptions.EveryReachableStateIsConsistent | src/services/websocket_service.ts:174-242 | in every reachable state both maps have the same ids, each naming a connected socket that holds the id |
| Subscriptions.ClientsAreConnected | src/services/websocket_service.ts:174-242 | the clients are the sockets that connected and have not closed since |
| Subscriptions.AliveMeansHeard | src/services/websocket_service.ts:204-234 | a client is marked alive iff it connected or answered since the last sweep |
| Subscriptions.TerminatedIff | src/services/websocket_service.ts:204-229 | the exact reasons for which the service terminates a socket, over every run |
| Subscriptions.SilentAcrossTwoSweeps | src/services/websocket_service.ts:204-215 | a client silent across two sweeps is terminated |
| Subscriptions.NothingStartsAfterDestroy | src/services/websocket_service.ts:123-139 | after a destroy no connection is taken and no sweep is run |
| Subscriptions.SubscriptionsFollowHistory | src/services/websocket_service.ts:181-242 | with unique ids the maps hold exactly the subscriptions made and not ended by their own close or a destroy |
| Subscriptions.EntryStaysIff | src/services/websocket_service.ts:123-242 | which single events remove an entry |
| Subscriptions.SafeIffIdIsNotShared | src/services/websocket_service.ts:235-242 | only its own events can end a subscription iff no other client holds the id |
| Subscriptions.SharedIdIsLost | src/services/websocket_service.ts:193-242 | a live socket loses a shared id when another closes |
| Subscriptions.NoClientsNoDeliveries | src/services/websocket_service.ts:141-143 | the early return skips no delivery |
| Subscriptions.UpdatesReachCurrentSubscriptions | src/services/websocket_service.ts:149-172 | with unique ids an order goes out under an id iff its current subscription matches, and to a connected socket |
| Subscriptions.SubscriberGetsWhatItAsksFor | src/services/websocket_service.ts:61-79 | with unique ids a subscriber is sent an order iff both its filters let it through: absent, empty, or the same address but for case |
| Sampler.ExecuteBatch | src/asset-swapper/utils/market_operation_utils/sampler.ts:177-198 | sends the real calls in order unless there are none, and hands every operation the result of its own call |
| Sampler.ResultsAreHandled | src/asset-swapper/utils/market_operation_utils/sampler.ts:192-197 | a no-op is told of a success with nothing, any other of the answer at the position of its call: a success as result, a failure as revert |
| Sampler.BatchRefinesAlone | src/asset-swapper/utils/market_operation_utils/sampler.ts:187-197 | if calls are answered pointwise, batching equals executing each operation alone |
| Sampler.OnlyNoops | src/asset-swapper/utils/market_operation_utils/sampler.ts:183-189 | nothing is left to send iff all operations are no-ops |
| Sampler.SampleAmountsAreOrdered | src/asset-swapper/utils/market_operation_utils/sampler.ts:15-28 | samples of a whole maximum are whole, never decrease, stay in range and end at the maximum |
| Sampler.PowerSumClosedForm | src/asset-swapper/utils/market_operation_utils/sampler.ts:16-18 | the steps add up as a geometric series |
| Sampler.EvenSamples | src/asset-swapper/utils/market_operation_utils/sampler.ts:15-28 | base one samples at equal distances, rounded up |
| Sampler.SampleStaysWithinIff | src/asset-swapper/utils/market_operation_utils/sampler.ts:23-25 | for any maximum, exactly when a sample stays within it |

## Left out

- The router and the contract calls behind the sampler: fills are arbitrary inputs, and the batch call is a parameter that answers each of its inputs.
- `BigNumber`'s finite division precision and JavaScript's floating point: amounts, rates and percentages are exact.
- ABI and bridge-data encoding: a transformation or subcall is a datatype with its amounts, tokens and orders; refund receivers and deployment nonces are not modelled.
- Choosing the Uniswap V3 path of a bridge order (`orders.ts:594-630`): fill data is opaque.
- Static tables and gas schedules: gas is an arbitrary non-negative function of an order; the flag mask of a source is a set.
- `Path.adjustedRate` and `getRate`: the rate ranks no path; it sets the comparison price given to RFQ makers.
- The direct VIP routes of the quote consumer, and how it chooses between its encodings: each passes the fields of one order on to its own contract call.
- The minimum-amount and ETH variants of the multiplex entry points: they pass on quote fields unchanged.
- How a swap quote gets its gas estimates, protocol fee and slippage checks: only the amount arithmetic of `calculateSwapQuoteAsync` is modelled.
- The database query of the RFQ validator: the cache rows found are a parameter; logging and counters are dropped, and an infinite balance is a case of its own.
- Fees of a type the configuration types do not allow (the `default` branch of `_calculateZeroExFee`).
- The order in which update messages leave, and what `ws` does with a message to a terminated socket.
- Socket events after a close event: the `ws` library is taken to emit none, and to remove a client when its close event fires.
- Fields of a subscribe payload other than the two tokens: a payload with only such fields is stored as given by the code, and matches everything here as there.
- Aliasing of the default token list: the code copies it for each new source, as values do.
- Operations' own state: parsing a result is a function of the returned bytes.
- SwapService.SellIsConservedEndToEnd: assumes that no two-hop order starts by buying its own sell token, which `TokenGraph.IntermediateTokensAreSymmetric` rules out for proposed tokens.
- Orders.OrdersFollowTheirFills: keeps the fill data of a bridge order as it is, although a Uniswap V3 order gets the path chosen for its input.
- PathSimulation.RankedSizeAgreesWithQuote: is stated for single-hop paths, since two-hop orders are not simulated.
- SwapService.PriceIsConservative: assumes positive amounts net of the affiliate fee, without which the quotients are undefined or negative.
- RfqValidator.PromisesFitIff: for quotes the balance covers in part it bounds the promises from both sides, without an equivalence, as they also depend on how finely taker tokens divide them.
- SwapQuoter.MarketablePathIsQuotable: a sell fill with an output below one base unit is excluded, since its order has a maker amount of zero and the simulated fee, a quotient by it, is no number.
- PathSimulation.SlippageGap: is stated for orders without taker fees and without unlimited amounts, which the service and the router do not produce for single-hop orders.
- TokenGraph.EveryRunIsWellFormed: needs distinct default tokens, without which not even the first graph is well formed.
