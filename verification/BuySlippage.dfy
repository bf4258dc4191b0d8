/** How much more the slipped orders of a buy may take than its worst case, which is what the call may sell. */
module BuySlippage {
  import opened Numbers
  import opened MarketTypes
  import opened Orders
  import opened Path
  import opened PathSimulation
  import opened QuoteInfo
  import Sim = QuoteSimulation

  predicate NoUnlimitedTakers(orders: seq<Order>) { forall o <- orders :: o.takerAmount != MAX_UINT256 }

  /** Buy orders whose taker amount is their output, rounded up. */
  predicate BuyAmounts(orders: seq<Order>) {
    forall o <- orders :: o.fill.output >= 0.0 && o.takerAmount == RoundUp(o.fill.output)
  }

  lemma RaisedWithin(a: real, b: real, slippage: real)
    requires 0.0 <= a <= b <= a + 1.0 && 0.0 <= slippage <= 1.0
    ensures a <= Raised(a, slippage) <= Raised(b, slippage) <= Raised(a, slippage) + 1.0 + slippage
  {
    MulNonneg(a, slippage);
    MulNonneg(b - a, 1.0 + slippage);
    MulNonneg(a + 1.0 - b, 1.0 + slippage);
    assert Raised(a, slippage) == a + a * slippage;
  }

  lemma RaisedAdds(x: real, y: real, slippage: real)
    ensures Raised(x + y, slippage) == Raised(x, slippage) + Raised(y, slippage)
  {
  }

  lemma RoundUpNonneg(x: real)
    requires x >= 0.0
    ensures IsInt(RoundUp(x)) && 0.0 <= x <= RoundUp(x) < x + 1.0
  {
  }

  /** One order takes less than `2 + slippage` more by being rounded before and after it slips. */
  lemma SlipGain(o: Order, slippage: real)
    requires 0.0 <= slippage <= 1.0 && o.fill.output >= 0.0
    requires o.takerAmount == RoundUp(o.fill.output) && o.takerAmount != MAX_UINT256
    ensures var slipped, raised := SlipOrder(o, slippage, Buy).takerAmount, Raised(o.fill.output, slippage);
            IsInt(slipped) && slipped < raised + 2.0 + slippage && (o.source != Native ==> raised <= slipped)
  {
    hide Raised;
    var output, taker := o.fill.output, o.takerAmount;
    RoundUpNonneg(output);
    RaisedWithin(output, taker, slippage);
    if o.source == Native || slippage == 0.0 {
      UnslippedGain(output, slippage);
    } else {
      SlipUpIsRaised(taker, slippage);
      RoundUpNonneg(Raised(taker, slippage));
    }
  }

  lemma UnslippedGain(output: real, slippage: real)
    requires output >= 0.0
    ensures slippage == 0.0 ==> Raised(output, slippage) == output
  {
  }

  lemma SlipUpIsRaised(amount: real, slippage: real)
    ensures amount != MAX_UINT256 ==> SlipUp(amount, slippage) == RoundUp(Raised(amount, slippage))
  {
  }

  function MaxBuyGap(n: nat, slippage: real): real { n as real * (2.0 + slippage) }

  lemma MaxBuyGapStep(n: nat, slippage: real)
    ensures MaxBuyGap(n + 1, slippage) == MaxBuyGap(n, slippage) + 2.0 + slippage && MaxBuyGap(0, slippage) == 0.0
  {
    assert (n + 1) as real == n as real + 1.0;
  }

  function SlippedTaker(orders: seq<Order>, slippage: real): real { SumOf(SlipOrders(orders, slippage, Buy), TakerOf) }

  function RaisedOutput(orders: seq<Order>, slippage: real): real { Raised(SumOf(orders, OrderOutput), slippage) }

  /** Where the slipped amounts of `n` orders lie, given their raised outputs. */
  predicate AboveRaised(slipped: real, raised: real, n: nat, slippage: real, exact: bool) {
    && IsInt(slipped)
    && (if n == 0 then slipped == raised else slipped < raised + MaxBuyGap(n, slippage))
    && (exact ==> raised <= slipped)
  }

  lemma AboveRaisedStep(slipped: real, raised: real, n: nat, slippage: real, exact: bool, s: real, k: real)
    requires AboveRaised(slipped, raised, n, slippage, exact)
    requires IsInt(s) && s < k + 2.0 + slippage && (exact ==> k <= s)
    ensures AboveRaised(slipped + s, raised + k, n + 1, slippage, exact)
  {
    hide MaxBuyGap;
    MaxBuyGapStep(n, slippage);
    IntArithmetic(slipped, s);
  }

  lemma {:induction false} SlipGains(orders: seq<Order>, slippage: real, exact: bool)
    requires 0.0 <= slippage <= 1.0 && BuyAmounts(orders) && NoUnlimitedTakers(orders) && (exact ==> NoNatives(orders))
    ensures AboveRaised(SlippedTaker(orders, slippage), RaisedOutput(orders, slippage), |orders|, slippage, exact)
  {
    if |orders| == 0 {
      IntRoundsToItself(0.0);
      assert SlippedTaker(orders, slippage) == 0.0 == RaisedOutput(orders, slippage);
    } else {
      hide AboveRaised, Raised;
      var front, o := orders[..|orders| - 1], orders[|orders| - 1];
      assert o in orders;
      SlipGains(front, slippage, exact);
      SlipGain(o, slippage);
      AboveRaisedStep(SlippedTaker(front, slippage), RaisedOutput(front, slippage), |front|, slippage, exact,
                      SlipOrder(o, slippage, Buy).takerAmount, Raised(o.fill.output, slippage));
      RaisedAdds(SumOf(front, OrderOutput), o.fill.output, slippage);
      assert SlipOrders(orders, slippage, Buy)[..|front|] == SlipOrders(front, slippage, Buy);
    }
  }

  /** The worst case of a buy takes the raised output of the simulation, which is at most that of all orders. */
  lemma WorstBuyTaker(q: Sim.QuoteFillInfo)
    requires q.side == Buy && 0.0 <= q.slippage <= 1.0
    requires Sim.AllValidOrders(q.orders) && TakesNoFees(q.orders)
    ensures var worst := Sim.WorstCaseFill(q).takerAssetAmount;
            && worst <= RoundUp(RaisedOutput(q.orders, q.slippage))
            && (SumOf(q.orders, OrderInput) <= q.fillAmount ==> RaisedOutput(q.orders, q.slippage) <= worst)
  {
    hide Raised, Sim.WaterfallOf, Sim.WorstCaseFill;
    WaterfallWithinOrders(q);
    WorstIsRaised(q);
    var output := Sim.WaterfallOf(q).totals.output;
    RaisedMono(output, SumOf(q.orders, OrderOutput), q.slippage);
    RoundingIsMonotone(Raised(output, q.slippage), RaisedOutput(q.orders, q.slippage));
    IntRoundsToItself(RoundUp(Raised(output, q.slippage)));
    RaisedIsMore(output, q.slippage);
    RoundUpNonneg(Raised(output, q.slippage));
  }

  lemma WorstIsRaised(q: Sim.QuoteFillInfo)
    requires q.side == Buy && Sim.AllValidOrders(q.orders)
    ensures Sim.WorstCaseFill(q).takerAssetAmount
         == RoundUp(RoundUp(Raised(Sim.WaterfallOf(q).totals.output, q.slippage)))
  {
    var w := Sim.WaterfallOf(q);
    var t := Sim.WorstCaseTotals(w.totals, q);
    assert t.output == RoundUp(Raised(w.totals.output, q.slippage));
    assert Sim.WorstCaseFill(q).takerAssetAmount == RoundUp(t.output);
  }

  lemma RaisedMono(a: real, b: real, slippage: real)
    requires 0.0 <= a <= b && slippage >= 0.0
    ensures 0.0 <= Raised(a, slippage) <= Raised(b, slippage)
  {
    MulNonneg(a, 1.0 + slippage);
    MulMono(a, b, 1.0 + slippage);
  }

  lemma BuyAmountsOf(p: Path)
    requires Built(p) && p.context.side == Buy && Sim.AllValidOrders(SingleHopOrders(p.ordersByType))
    ensures BuyAmounts(SingleHopOrders(p.ordersByType))
  {
    OrdersComeFromFills(p.fills, p.context);
    forall o | o in SingleHopOrders(p.ordersByType) ensures o.takerAmount == RoundUp(o.fill.output) {
      assert o in p.ordersByType.nativeOrders || o in p.ordersByType.bridgeOrders;
    }
  }

  /**
   * What the slipped orders of a buy may take and what its worst case allows: without native orders, which do not
   * slip, the orders never fall below the worst case; when every order is filled completely they exceed it by less
   * than `n * (2 + slippage)`.
   */
  lemma BuySlippageGap(p: Path, q: Sim.QuoteFillInfo)
    requires Built(p) && p.context.side == q.side == Buy && 0.0 <= q.slippage <= 1.0
    requires q.orders == SingleHopOrders(p.ordersByType) && |q.orders| > 0
    requires Sim.AllValidOrders(q.orders) && TakesNoFees(q.orders) && NoUnlimitedTakers(q.orders)
    ensures var slipped, worst := SlippedTaker(q.orders, q.slippage), Sim.WorstCaseFill(q).takerAssetAmount;
            && (p.ordersByType.nativeOrders == [] ==> 0.0 <= slipped - worst)
            && (SumOf(q.orders, OrderInput) <= q.fillAmount ==> slipped - worst < MaxBuyGap(|q.orders|, q.slippage))
  {
    hide Sim.WorstCaseFill, RaisedOutput, SlippedTaker, MaxBuyGap;
    var exact := p.ordersByType.nativeOrders == [];
    BuyAmountsOf(p);
    if exact {
      OrdersComeFromFills(p.fills, p.context);
      assert q.orders == p.ordersByType.bridgeOrders;
    }
    SlipGains(q.orders, q.slippage, exact);
    WorstBuyTaker(q);
    if exact { WholeAboveIsAboveRounded(SlippedTaker(q.orders, q.slippage), RaisedOutput(q.orders, q.slippage)); }
    RaisedOutputNonneg(q.orders, q.slippage);
  }

  lemma RaisedOutputNonneg(orders: seq<Order>, slippage: real)
    requires BuyAmounts(orders) && slippage >= 0.0
    ensures RaisedOutput(orders, slippage) >= 0.0
  {
    SumNonneg(orders, OrderOutput);
    MulNonneg(SumOf(orders, OrderOutput), 1.0 + slippage);
  }

  lemma WholeAboveIsAboveRounded(n: real, x: real)
    requires IsInt(n) && x <= n
    ensures RoundUp(x) <= n
  {
    RoundingIsMonotone(x, n);
    IntRoundsToItself(n);
  }

  // ----- The whole quote -----

  function SlippedFirstTakers(ts: seq<TwoHopOrder>, slippage: real): real {
    SumOf(SlipTwoHops(ts, slippage, Buy), FirstTaker)
  }

  /** A first hop that slips. */
  predicate SlippableHop(t: TwoHopOrder) {
    t.first.source != Native && t.first.takerAmount != MAX_UINT256 && IsInt(t.first.takerAmount)
  }

  /** Two-hop orders of a buy take exactly what their worst case says. */
  lemma {:induction false} TwoHopTakersMatch(ts: seq<TwoHopOrder>, gas: GasSchedule, slippage: real)
    requires forall t <- ts :: SlippableHop(t)
    ensures SumOf(TwoHopWorsts(ts, Buy, gas, slippage), InfoTotalTaker) == SlippedFirstTakers(ts, slippage)
  {
    var worsts, slipped := TwoHopWorsts(ts, Buy, gas, slippage), SlipTwoHops(ts, slippage, Buy);
    forall k | 0 <= k < |ts| ensures InfoTotalTaker(worsts[k]) == FirstTaker(slipped[k]) {
      assert ts[k] in ts;
      SlipUpIsRaised(ts[k].first.takerAmount, slippage);
      if slippage == 0.0 {
        assert Raised(ts[k].first.takerAmount, slippage) == ts[k].first.takerAmount;
        IntRoundsToItself(ts[k].first.takerAmount);
      }
    }
    SumPointwise(worsts, InfoTotalTaker, slipped, FirstTaker);
  }

  lemma WorstHasNoTakerFee(q: Sim.QuoteFillInfo)
    requires Sim.AllValidOrders(q.orders) && TakesNoFees(q.orders) && q.fillAmount >= 0.0 && q.side == Buy
    ensures Sim.WorstCaseFill(q).totalTakerAssetAmount == Sim.WorstCaseFill(q).takerAssetAmount
  {
    hide Sim.Waterfall, Sim.SlippedOutput, Sim.TotalGas, Sim.WorstCaseProtocolFee;
    Sim.FeeFreeQuote(q);
    IntRoundsToItself(0.0);
  }

  lemma FirstHopsAreWhole(p: Path)
    requires Built(p)
    ensures p.context.side == Buy ==> forall t <- p.ordersByType.twoHopOrders :: IsInt(t.first.takerAmount)
  {
    OrdersComeFromFills(p.fills, p.context);
  }

  /**
   * What the slipped orders of a whole buy quote may take against the most its call may sell: never less without
   * native orders, and less than `n * (2 + slippage)` more when every single-hop order is filled completely.
   */
  lemma MaxSellAgainstSlippedOrders(p: Path, r: QuoteRequest)
    requires Quotable(p, r) && r.side == Buy && 0.0 <= r.slippage <= 1.0
    requires SingleHopOrders(p.ordersByType) != [] && NoUnlimitedTakers(SingleHopOrders(p.ordersByType))
    requires forall t <- p.ordersByType.twoHopOrders ::
               t.first.source != Native && t.first.takerAmount != MAX_UINT256
    ensures CalculateQuoteInfo(p.ordersByType, r).Ok?
    ensures var gap := SlippedTaker(SingleHopOrders(p.ordersByType), r.slippage)
                       + SlippedFirstTakers(p.ordersByType.twoHopOrders, r.slippage)
                       - CalculateQuoteInfo(p.ordersByType, r).value.worst.totalTakerAmount;
            && (p.ordersByType.nativeOrders == [] ==> 0.0 <= gap)
            && (SingleHopHeld(p) <= r.amount ==> gap < MaxBuyGap(|SingleHopOrders(p.ordersByType)|, r.slippage))
  {
    hide Sim.WorstCaseFill, SlippedTaker, SlippedFirstTakers, MaxBuyGap, SourceBreakdownOf;
    var orders := p.ordersByType;
    var q := SimulationOf(orders, r, r.slippage);
    QuoteInfoNeverFails(orders, r);
    BuySlippageGap(p, q);
    WorstHasNoTakerFee(q);
    FirstHopsAreWhole(p);
    TwoHopTakersMatch(orders.twoHopOrders, r.gasSchedule, r.slippage);
    var worst := WorstInfos(orders, r);
    assert worst[1..] == TwoHopWorsts(orders.twoHopOrders, Buy, r.gasSchedule, r.slippage);
    SumCons(worst, InfoTotalTaker);
  }
}
