/** Assembling a swap quote from a path, and the guarantees for every path the quoter can be given. */
module SwapQuoter {
  import opened Numbers
  import opened MarketTypes
  import opened Orders
  import opened Path
  import opened PathSimulation
  import opened QuoteInfo
  import opened QuoteConsumer
  import opened TransformErc20
  import opened Fees
  import opened SwapService
  import opened CallOrders
  import opened FqtData
  import NativeAmounts
  import Sim = QuoteSimulation

  /** Limit orders that charge a taker fee are pruned before routing. */
  predicate Pruned(f: Fill) {
    f.data.NativeData? && f.data.kind == Limit ==>
      NativeAmounts.Positive(f.data.order) && f.data.order.takerTokenFeeAmount == 0.0
  }

  /** A single-hop fill trades something on both sides, in whole tokens of the output: a sell rounds it down. */
  predicate Sized(f: Fill, side: Side) {
    f.source != MultiHop ==> f.base.input > 0.0 && (if side == Sell then f.base.output >= 1.0 else f.base.output > 0.0)
  }

  predicate Marketable(fills: seq<Fill>, side: Side) {
    forall f <- fills :: Pruned(f) && Sized(f, side) && IsInt(f.base.input)
  }

  ghost function CreateSwapQuote(p: Path, r: QuoteRequest, makerAmountPerEth: real): SwapQuote
    requires Quotes(p.ordersByType, r)
  {
    var infos := CalculateQuoteInfo(p.ordersByType, r).value;
    SwapQuote(r.side, p.context.TakerToken(), p.context.MakerToken(), p, infos.best, infos.worst, r.amount, r.gasPrice,
              makerAmountPerEth)
  }

  ghost predicate Quotes(orders: OrdersByType, r: QuoteRequest) {
    Sim.AllValidOrders(SingleHopOrders(orders)) && CalculateQuoteInfo(orders, r).Ok?
  }

  lemma MarketableOrder(o: Order, f: Fill, side: Side)
    requires Pruned(f) && Sized(f, side) && f.source != MultiHop
    requires o.fill == f.base && o.makerAmount == MakerAmount(f.base, side)
    requires o.takerAmount == TakerAmount(f.base, side)
    requires o.data == f.data || o.Type() == Bridge
    ensures Sim.ValidOrder(o) && Sim.OrderTakerFee(o) == 0.0
  {
    if side == Sell {
      IntRoundsToItself(1.0);
      RoundingIsMonotone(1.0, f.base.output);
    }
    if o.Type() == Limit {
      assert NativeAmounts.Scale(o.takerAmount, 0.0, o.data.order.takerAmount) == 0.0;
      IntRoundsToItself(0.0);
    }
  }

  /** Pruned fills become orders that the simulation accepts and that charge no taker fees. */
  lemma MarketablePathIsQuotable(p: Path, r: QuoteRequest)
    requires Built(p) && Marketable(p.fills, p.context.side)
    requires r.side == p.context.side && r.amount == p.targetInput && IsInt(r.amount)
    ensures Quotable(p, r) && Quotes(p.ordersByType, r)
  {
    OrdersComeFromFills(p.fills, p.context);
    forall o | o in SingleHopOrders(p.ordersByType) ensures Sim.ValidOrder(o) && Sim.OrderTakerFee(o) == 0.0 {
      if o in p.ordersByType.nativeOrders {
        var f :| f in p.fills && f.source == Native && o == CreateNativeOrder(f, p.context.side).value;
        MarketableOrder(o, f, p.context.side);
      } else {
        assert o in p.ordersByType.bridgeOrders;
        var f :| f in p.fills && IsBridgeSource(f.source) && o.fill == f.base && o.source == f.source;
        MarketableOrder(o, f, p.context.side);
      }
    }
    QuoteInfoNeverFails(p.ordersByType, r);
  }

  /** No two-hop fill of a sell goes through the sell token itself. */
  predicate LeavesSellToken(fills: seq<Fill>, sellToken: Address) {
    forall f <- fills :: f.data.TwoHopData? ==> f.data.intermediateToken != sellToken
  }

  /**
   * End to end from the fills: for whatever fills the router returns for the amount left after fees, the response
   * and a version 1 call sell what the user asked and the excess of the path, so exactly what the user asked if
   * and only if the path meets the amount. With a single-hop order the call spends what the user asked anyway.
   */
  lemma EverySellIsConserved(
    o: FeeOpts, plan: SellTokenFeePlan, p: Path, r: QuoteRequest, opts: ConsumerOpts, makerAmountPerEth: real)
    requires IsPlan(plan, Sell, o) && IsInt(o.sellTokenAmount) && r.amount == o.sellTokenAmount - plan.amount
    requires Built(p) && Marketable(p.fills, p.context.side) && p.targetInput == r.amount
    requires r.side == p.context.side == Sell && 0.0 <= r.slippage <= 1.0
    requires LeavesSellToken(p.fills, p.context.TakerToken())
    requires opts.sellTokenAffiliateFees == plan.transfers && opts.metaTransactionVersion.Some?
    requires !opts.shouldSellEntireBalance
    ensures Quotes(p.ordersByType, r)
    ensures var quote := CreateSwapQuote(p, r, makerAmountPerEth);
            && quote.fillAmount > 0.0
            && ResponseSellAmount(quote, plan.amount) == o.sellTokenAmount + Excess(p, r.amount)
            && (ResponseSellAmount(quote, plan.amount) == o.sellTokenAmount <==> MeetsRequest(p, r.amount))
            && (opts.metaTransactionVersion == Some(V1) ==>
                  && TotalSellAmount(quote, opts) == ResponseSellAmount(quote, plan.amount)
                  && (SellSpending(quote, opts) == o.sellTokenAmount
                      <==> HasSingleHops(p) || TwoHopInput(p) == r.amount))
  {
    PlanIsWhole(plan, Sell, o);
    IntArithmetic(o.sellTokenAmount, plan.amount);
    MarketablePathIsQuotable(p, r);
    QuoteInfoNeverFails(p.ordersByType, r);
    HopsLeaveSellToken(p);
    SellIsConservedEndToEnd(o.sellTokenAmount, plan, CreateSwapQuote(p, r, makerAmountPerEth), r, opts);
  }

  /** A route for 100 tokens of a single-hop fill of 51 and a two-hop fill of 50 sells one token more than was asked. */
  lemma OvershootSellsMore(
    o: FeeOpts, plan: SellTokenFeePlan, p: Path, r: QuoteRequest, opts: ConsumerOpts, single: Fill, twoHop: Fill)
    requires IsPlan(plan, Sell, o) && o.sellTokenAmount == 100.0 + plan.amount
    requires r.amount == 100.0 && IsInt(plan.amount)
    requires Built(p) && p.fills == [single, twoHop] && p.targetInput == 100.0
    requires single.source == UniswapV2 && single.base.input == 51.0 && single.base.output == 51.0
    requires twoHop.source == MultiHop && twoHop.base.input == 50.0
    requires r.side == p.context.side == Sell && 0.0 <= r.slippage <= 1.0
    requires LeavesSellToken(p.fills, p.context.TakerToken())
    requires opts.sellTokenAffiliateFees == plan.transfers && opts.metaTransactionVersion == Some(V1)
    requires !opts.shouldSellEntireBalance
    ensures Quotes(p.ordersByType, r)
    ensures var quote := CreateSwapQuote(p, r, 0.0);
            ResponseSellAmount(quote, plan.amount) == TotalSellAmount(quote, opts) == o.sellTokenAmount + 1.0
  {
    OvershootAsksForMore(p, single, twoHop);
    assert Marketable(p.fills, Sell) by { OvershootIsMarketable(p, single, twoHop); }
    assert IsInt(o.sellTokenAmount) by {
      assert (100.0).Floor == 100;
      IntArithmetic(100.0, plan.amount);
    }
    EverySellIsConserved(o, plan, p, r, opts, 0.0);
  }

  lemma OvershootIsMarketable(p: Path, single: Fill, twoHop: Fill)
    requires Built(p) && p.fills == [single, twoHop]
    requires single.source == UniswapV2 && single.base.input == 51.0 && single.base.output == 51.0
    requires twoHop.source == MultiHop && twoHop.base.input == 50.0
    ensures Marketable(p.fills, Sell)
  {
    assert single in p.fills && twoHop in p.fills;
    assert (51.0).Floor == 51 && (50.0).Floor == 50;
  }

  lemma HopsLeaveSellToken(p: Path)
    requires Built(p) && LeavesSellToken(p.fills, p.context.TakerToken())
    ensures forall t <- p.ordersByType.twoHopOrders :: t.first.makerToken != p.context.TakerToken()
  {
    OrdersComeFromFills(p.fills, p.context);
  }

  /**
   * Grossed up, routed and reduced by a percentage fee, a buy quotes exactly the amount the user asked for if and
   * only if what is routed in the end is within the gross-up; when the fills do not fall short, if and only if the
   * path meets the routed amount.
   */
  lemma EveryBuyIsExact(
    buyAmount: real, fee: AffiliateFee, p: Path, r: QuoteRequest, makerAmountPerEth: real, gaslessSwapFeeEnabled: bool)
    requires IsInt(buyAmount) && buyAmount >= 0.0
    requires fee.feeType == PercentageFee && fee.buyTokenPercentageFee >= 0.0 && !fee.NotCharged()
    requires r.amount == BuyAmountToRoute(buyAmount, fee.buyTokenPercentageFee)
    requires Built(p) && Marketable(p.fills, p.context.side) && p.targetInput == r.amount
    requires r.side == p.context.side == Buy
    ensures Quotes(p.ordersByType, r)
    ensures var quoted := QuotedBuyAmount(CreateSwapQuote(p, r, makerAmountPerEth), fee, gaslessSwapFeeEnabled);
            && (quoted == buyAmount
                <==> WithinGrossUp(Asked(p, r.amount), buyAmount, fee.buyTokenPercentageFee))
            && (Excess(p, r.amount) >= 0.0 ==> (quoted == buyAmount <==> MeetsRequest(p, r.amount)))
  {
    GrossedUpIsMore(buyAmount, fee.buyTokenPercentageFee);
    MarketablePathIsQuotable(p, r);
    PercentageBuyIff(buyAmount, CreateSwapQuote(p, r, makerAmountPerEth), r, fee, gaslessSwapFeeEnabled);
    if Excess(p, r.amount) >= 0.0 { OvershotBuyIff(p, r.amount, buyAmount, fee.buyTokenPercentageFee); }
  }

  /** The worst case of a marketable path is never better than its best case. */
  lemma EveryQuoteIsDominated(p: Path, r: QuoteRequest)
    requires Built(p) && Marketable(p.fills, p.context.side) && OutputsNonneg(p.fills)
    requires r.side == p.context.side && r.amount == p.targetInput && IsInt(r.amount) && 0.0 <= r.slippage <= 1.0
    requires Sim.GasNonneg(r.gasSchedule, SingleHopOrders(p.ordersByType))
    ensures Quotes(p.ordersByType, r)
    ensures var quote := CreateSwapQuote(p, r, 0.0); InfoDominates(quote.worst, quote.best, r.side)
  {
    MarketablePathIsQuotable(p, r);
    PathHasWholeTwoHops(p);
    WorstQuoteDominatesBest(p.ordersByType, r);
  }

  /** The quote is for the pair of the path, from the input token in a sell and to it in a buy. */
  lemma QuoteIsForPair(p: Path, r: QuoteRequest, makerAmountPerEth: real)
    requires Quotes(p.ordersByType, r) && r.side == p.context.side
    ensures var quote := CreateSwapQuote(p, r, makerAmountPerEth);
            && quote.side == r.side && quote.MaxSlippage() == r.slippage && quote.fillAmount == r.amount
            && (if r.side == Sell
                then quote.takerToken == p.context.inputToken && quote.makerToken == p.context.outputToken
                else quote.takerToken == p.context.outputToken && quote.makerToken == p.context.inputToken)
  {
    hide SourceBreakdownOf;
    QuoteInfoNeverFails(p.ordersByType, r);
  }

  /**
   * From the path to the call: it fills the orders of the path, slipped as requested, each once: the hops of every
   * two-hop order in turn, the native orders as they are, and the bridge orders.
   */
  lemma EveryCallFillsTheOrders(p: Path, r: QuoteRequest, makerAmountPerEth: real, opts: ConsumerOpts, chain: Chain)
    requires Quotes(p.ordersByType, r) && r.side == p.context.side && 0.0 <= r.slippage <= 1.0
    ensures CreateSwapQuote(p, r, makerAmountPerEth).MaxSlippage() == r.slippage
    ensures var orders := p.ordersByType;
            ReplayAll(FillsOf(CallTransformations(CreateSwapQuote(p, r, makerAmountPerEth), opts, chain)))
            == Some(Legs(FlattenTwoHops(SlipTwoHops(orders.twoHopOrders, r.slippage, r.side)) + orders.nativeOrders
                         + SlipOrders(orders.bridgeOrders, r.slippage, r.side)))
  {
    QuoteIsForPair(p, r, makerAmountPerEth);
    hide CallTransformations, ReplayAll, FillsOf, FlattenTwoHops, CalculateQuoteInfo;
    CallFillsTheOrders(CreateSwapQuote(p, r, makerAmountPerEth), opts, chain);
  }
}
