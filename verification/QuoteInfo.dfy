/** Best and worst case of a whole quote: its single-hop orders and its two-hop orders together. */
module QuoteInfo {
  import opened Numbers
  import opened MarketTypes
  import opened Orders
  import opened Path
  import opened PathSimulation
  import Sim = QuoteSimulation

  const PROTOCOL_FEE_MULTIPLIER := 0.0

  datatype SwapQuoteInfo = SwapQuoteInfo(
    makerAmount: real,
    takerAmount: real,
    totalTakerAmount: real,
    protocolFee: real,
    gas: real,
    slippage: real)

  datatype MultiHopFill = MultiHopFill(amount: real, intermediateToken: Address, hops: seq<Source>)

  datatype MultiHopShare = MultiHopShare(proportion: real, intermediateToken: Address, hops: seq<Source>)

  datatype SourceBreakdown = SourceBreakdown(singleSource: map<Source, real>, multihop: seq<MultiHopShare>)

  /** Without anything filled the proportions are no numbers, and there is no breakdown. */
  datatype QuoteInfos = QuoteInfos(best: SwapQuoteInfo, worst: SwapQuoteInfo, sourceBreakdown: Option<SourceBreakdown>)

  datatype QuoteRequest = QuoteRequest(
    side: Side,
    amount: real,
    gasPrice: real,
    gasSchedule: GasSchedule,
    slippage: real)

  function InfoMaker(i: SwapQuoteInfo): real { i.makerAmount }
  function InfoTaker(i: SwapQuoteInfo): real { i.takerAmount }
  function InfoTotalTaker(i: SwapQuoteInfo): real { i.totalTakerAmount }
  function InfoProtocolFee(i: SwapQuoteInfo): real { i.protocolFee }
  function InfoGas(i: SwapQuoteInfo): real { i.gas }

  function FillResultToInfo(fr: Sim.QuoteFillResult, slippage: real): SwapQuoteInfo {
    SwapQuoteInfo(fr.totalMakerAssetAmount, fr.takerAssetAmount, fr.totalTakerAssetAmount, fr.protocolFeeAmount, fr.gas,
                  slippage)
  }

  function SimulationOf(orders: OrdersByType, r: QuoteRequest, slippage: real): Sim.QuoteFillInfo {
    Sim.QuoteFillInfo(SingleHopOrders(orders), r.amount, r.gasPrice, r.side, r.gasSchedule, PROTOCOL_FEE_MULTIPLIER,
                      slippage)
  }

  function HopData(o: Order): string { if o.data.BridgeData? then o.data.data else "" }

  function TwoHopGas(t: TwoHopOrder, gas: GasSchedule): real {
    gas(MultiHop, TwoHopData(t.first.source, HopData(t.first), t.second.source, HopData(t.second), ""))
  }

  function TwoHopBest(t: TwoHopOrder, gas: GasSchedule): SwapQuoteInfo {
    SwapQuoteInfo(t.second.makerAmount, t.first.takerAmount, t.first.takerAmount, 0.0, TwoHopGas(t, gas), 0.0)
  }

  /** Unlike the single-hop worst case, a sell's output is rounded to the nearest integer. */
  function TwoHopWorst(t: TwoHopOrder, side: Side, gas: GasSchedule, slippage: real): SwapQuoteInfo {
    var maker := if side == Sell then RoundHalfUp(Kept(t.second.makerAmount, slippage)) else t.second.makerAmount;
    var taker := if side == Sell then t.first.takerAmount else RoundUp(Raised(t.first.takerAmount, slippage));
    SwapQuoteInfo(maker, taker, taker, 0.0, TwoHopGas(t, gas), slippage)
  }

  function TwoHopBests(ts: seq<TwoHopOrder>, gas: GasSchedule): (infos: seq<SwapQuoteInfo>)
    ensures |infos| == |ts| && forall k :: 0 <= k < |ts| ==> infos[k] == TwoHopBest(ts[k], gas)
  {
    seq(|ts|, i requires 0 <= i < |ts| => TwoHopBest(ts[i], gas))
  }

  function TwoHopWorsts(ts: seq<TwoHopOrder>, side: Side, gas: GasSchedule, slippage: real): (infos: seq<SwapQuoteInfo>)
    ensures |infos| == |ts| && forall k :: 0 <= k < |ts| ==> infos[k] == TwoHopWorst(ts[k], side, gas, slippage)
  {
    seq(|ts|, i requires 0 <= i < |ts| => TwoHopWorst(ts[i], side, gas, slippage))
  }

  function SumInfos(infos: seq<SwapQuoteInfo>, slippage: real): SwapQuoteInfo {
    SwapQuoteInfo(SumOf(infos, InfoMaker), SumOf(infos, InfoTaker), SumOf(infos, InfoTotalTaker),
                  SumOf(infos, InfoProtocolFee), SumOf(infos, InfoGas), slippage)
  }

  function MergeSwapQuoteInfos(infos: seq<SwapQuoteInfo>): Result<SwapQuoteInfo> {
    if |infos| == 0 then Err(NoQuoteInfos)
    else if exists info <- infos :: info.slippage != infos[0].slippage then Err(SlippagesVary)
    else Ok(SumInfos(infos, infos[0].slippage))
  }

  function BestInfos(orders: OrdersByType, r: QuoteRequest): seq<SwapQuoteInfo>
    requires Sim.AllValidOrders(SingleHopOrders(orders))
  {
    [FillResultToInfo(Sim.BestCaseFill(SimulationOf(orders, r, 0.0)), 0.0)]
    + TwoHopBests(orders.twoHopOrders, r.gasSchedule)
  }

  function WorstInfos(orders: OrdersByType, r: QuoteRequest): seq<SwapQuoteInfo>
    requires Sim.AllValidOrders(SingleHopOrders(orders))
  {
    [FillResultToInfo(Sim.WorstCaseFill(SimulationOf(orders, r, r.slippage)), r.slippage)]
    + TwoHopWorsts(orders.twoHopOrders, r.side, r.gasSchedule, r.slippage)
  }

  // ----- Source breakdown -----

  function HopAmount(f: MultiHopFill): real { f.amount }

  function HopProportion(s: MultiHopShare): real { s.proportion }

  function Proportion(amount: real, total: real): real
    requires total != 0.0
  {
    amount / total
  }

  lemma ProportionsAdd(a: real, b: real, total: real)
    requires total != 0.0
    ensures Proportion(a + b, total) == Proportion(a, total) + Proportion(b, total)
    ensures Proportion(0.0, total) == 0.0 && Proportion(total, total) == 1.0
  {
    assert total / total == 1.0 by {
      DivCancel(1.0, total);
      assert 1.0 * total == total;
    }
  }

  ghost function TotalFillAmount(bySource: map<Source, real>, hops: seq<MultiHopFill>): real {
    SumMap(bySource) + SumOf(hops, HopAmount)
  }

  ghost function OrdersBreakdown(bySource: map<Source, real>, hops: seq<MultiHopFill>): SourceBreakdown
    requires TotalFillAmount(bySource, hops) != 0.0
  {
    var total := TotalFillAmount(bySource, hops);
    SourceBreakdown(map s | s in bySource :: Proportion(bySource[s], total),
                    seq(|hops|, i requires 0 <= i < |hops| =>
                      MultiHopShare(Proportion(hops[i].amount, total), hops[i].intermediateToken, hops[i].hops)))
  }

  function MultiHopFillOf(t: TwoHopOrder): MultiHopFill {
    MultiHopFill(t.first.takerAmount, t.second.takerToken, [t.first.source, t.second.source])
  }

  /** The inputs filled by source, as the best case reports them. */
  function FilledBySource(orders: OrdersByType, r: QuoteRequest): map<Source, real>
    requires Sim.AllValidOrders(SingleHopOrders(orders))
  {
    Sim.BestCaseFill(SimulationOf(orders, r, 0.0)).fillAmountBySource
  }

  ghost function BreakdownTotal(orders: OrdersByType, r: QuoteRequest): real
    requires Sim.AllValidOrders(SingleHopOrders(orders))
  {
    TotalFillAmount(FilledBySource(orders, r), Map(orders.twoHopOrders, MultiHopFillOf))
  }

  ghost function SourceBreakdownOf(orders: OrdersByType, r: QuoteRequest): Option<SourceBreakdown>
    requires Sim.AllValidOrders(SingleHopOrders(orders))
  {
    if BreakdownTotal(orders, r) == 0.0 then None
    else Some(OrdersBreakdown(FilledBySource(orders, r), Map(orders.twoHopOrders, MultiHopFillOf)))
  }

  // ----- The whole quote -----

  ghost function CalculateQuoteInfo(orders: OrdersByType, r: QuoteRequest): Result<QuoteInfos>
    requires Sim.AllValidOrders(SingleHopOrders(orders))
  {
    match MergeSwapQuoteInfos(BestInfos(orders, r))
    case Err(e) => Err(e)
    case Ok(best) =>
      match MergeSwapQuoteInfos(WorstInfos(orders, r))
      case Err(e) => Err(e)
      case Ok(worst) => Ok(QuoteInfos(best, worst, SourceBreakdownOf(orders, r)))
  }

  /** Merging never meets its error cases. */
  lemma QuoteInfoNeverFails(orders: OrdersByType, r: QuoteRequest)
    requires Sim.AllValidOrders(SingleHopOrders(orders))
    ensures CalculateQuoteInfo(orders, r)
         == Ok(QuoteInfos(SumInfos(BestInfos(orders, r), 0.0), SumInfos(WorstInfos(orders, r), r.slippage),
                          SourceBreakdownOf(orders, r)))
  {
    MergeOfOneSlippage(BestInfos(orders, r), 0.0);
    MergeOfOneSlippage(WorstInfos(orders, r), r.slippage);
  }

  lemma MergeOfOneSlippage(infos: seq<SwapQuoteInfo>, slippage: real)
    requires |infos| > 0 && forall k :: 0 <= k < |infos| ==> infos[k].slippage == slippage
    ensures MergeSwapQuoteInfos(infos) == Ok(SumInfos(infos, slippage))
  {
  }

  // ----- Worst against best -----

  /** Two-hop amounts as `CreateTwoHopOrder` leaves them: a sell's output is a whole, nonnegative amount. */
  predicate WholeTwoHops(ts: seq<TwoHopOrder>) {
    forall t <- ts :: IsInt(t.second.makerAmount) && t.second.makerAmount >= 0.0 && t.first.takerAmount >= 0.0
  }

  predicate InfoDominates(worst: SwapQuoteInfo, best: SwapQuoteInfo, side: Side) {
    && worst.gas >= best.gas && worst.protocolFee >= best.protocolFee
    && (if side == Sell then
          worst.takerAmount == best.takerAmount && worst.totalTakerAmount == best.totalTakerAmount
          && worst.makerAmount <= best.makerAmount
        else
          worst.makerAmount == best.makerAmount && worst.takerAmount >= best.takerAmount
          && worst.totalTakerAmount >= best.totalTakerAmount)
  }

  /** The worst case of a two-hop sell, rounded to nearest, is no better than the best case in exactly these cases. */
  lemma TwoHopDominatesIff(t: TwoHopOrder, side: Side, gas: GasSchedule, slippage: real)
    requires t.second.makerAmount >= 0.0 && t.first.takerAmount >= 0.0 && 0.0 <= slippage <= 1.0
    ensures InfoDominates(TwoHopWorst(t, side, gas, slippage), TwoHopBest(t, gas), side)
       <==> side == Buy || Kept(t.second.makerAmount, slippage) < Floor(t.second.makerAmount) + 0.5
  {
    if side == Sell {
      TwoHopSellRounds(t, gas, slippage);
      KeptWithin(t.second.makerAmount, t.second.makerAmount, slippage);
      HalfUpWithinIff(t.second.makerAmount, Kept(t.second.makerAmount, slippage));
    } else {
      RaisedIsMore(t.first.takerAmount, slippage);
    }
  }

  lemma TwoHopSellRounds(t: TwoHopOrder, gas: GasSchedule, slippage: real)
    ensures InfoDominates(TwoHopWorst(t, Sell, gas, slippage), TwoHopBest(t, gas), Sell)
       <==> RoundHalfUp(Kept(t.second.makerAmount, slippage)) <= t.second.makerAmount
  {
  }

  lemma HalfUpWithinIff(m: real, kept: real)
    requires kept >= 0.0
    ensures RoundHalfUp(kept) <= m <==> kept < Floor(m) + 0.5
  {
    if RoundHalfUp(kept) <= m { IntsLess(RoundHalfUp(kept), Floor(m)); }
    if kept < Floor(m) + 0.5 { IntsLess(RoundHalfUp(kept), Floor(m)); }
  }

  lemma TwoHopDominates(t: TwoHopOrder, side: Side, gas: GasSchedule, slippage: real)
    requires WholeTwoHops([t]) && 0.0 <= slippage <= 1.0
    ensures InfoDominates(TwoHopWorst(t, side, gas, slippage), TwoHopBest(t, gas), side)
  {
    assert t in [t];
    TwoHopDominatesIff(t, side, gas, slippage);
    var m := t.second.makerAmount;
    IntRoundsToItself(m);
    MulNonneg(m, slippage);
    assert Kept(m, slippage) == m - m * slippage;
  }

  lemma {:induction false} SumDominates(
    worst: seq<SwapQuoteInfo>, best: seq<SwapQuoteInfo>, side: Side, s: real, b: real)
    requires |worst| == |best|
    requires forall k :: 0 <= k < |worst| ==> InfoDominates(worst[k], best[k], side)
    ensures InfoDominates(SumInfos(worst, s), SumInfos(best, b), side)
  {
    SumPointwiseLe(best, InfoGas, worst, InfoGas);
    SumPointwiseLe(best, InfoProtocolFee, worst, InfoProtocolFee);
    if side == Sell {
      SumPointwise(worst, InfoTaker, best, InfoTaker);
      SumPointwise(worst, InfoTotalTaker, best, InfoTotalTaker);
      SumPointwiseLe(worst, InfoMaker, best, InfoMaker);
    } else {
      SumPointwise(worst, InfoMaker, best, InfoMaker);
      SumPointwiseLe(best, InfoTaker, worst, InfoTaker);
      SumPointwiseLe(best, InfoTotalTaker, worst, InfoTotalTaker);
    }
  }

  lemma BestCaseIgnoresSlippage(orders: OrdersByType, r: QuoteRequest)
    requires Sim.AllValidOrders(SingleHopOrders(orders))
    ensures Sim.BestCaseFill(SimulationOf(orders, r, 0.0)) == Sim.BestCaseFill(SimulationOf(orders, r, r.slippage))
  {
    hide Sim.Waterfall, Sim.FromIntermediate;
    assert SimulationOf(orders, r, 0.0).orders == SimulationOf(orders, r, r.slippage).orders;
  }

  /** The merged worst case is never better than the merged best case, whatever the mix of orders. */
  lemma WorstQuoteDominatesBest(orders: OrdersByType, r: QuoteRequest)
    requires Sim.AllValidOrders(SingleHopOrders(orders)) && WholeTwoHops(orders.twoHopOrders)
    requires Sim.GasNonneg(r.gasSchedule, SingleHopOrders(orders)) && 0.0 <= r.slippage <= 1.0
    ensures CalculateQuoteInfo(orders, r).Ok?
    ensures var q := CalculateQuoteInfo(orders, r).value; InfoDominates(q.worst, q.best, r.side)
  {
    hide Sim.BestCaseFill, Sim.WorstCaseFill, TwoHopWorst, TwoHopBest;
    QuoteInfoNeverFails(orders, r);
    var best, worst := BestInfos(orders, r), WorstInfos(orders, r);
    var q := SimulationOf(orders, r, r.slippage);
    Sim.WorstDominatesBest(q);
    BestCaseIgnoresSlippage(orders, r);
    forall k | 0 <= k < |worst| ensures InfoDominates(worst[k], best[k], r.side) {
      if k > 0 {
        var t := orders.twoHopOrders[k - 1];
        assert t in orders.twoHopOrders;
        TwoHopDominates(t, r.side, r.gasSchedule, r.slippage);
      }
    }
    SumDominates(worst, best, r.side, r.slippage, 0.0);
  }

  predicate OutputsNonneg(fills: seq<Fill>) { forall f <- fills :: f.base.output >= 0.0 }

  predicate WholeInputs(fills: seq<Fill>) { forall f <- fills :: IsInt(f.base.input) }

  lemma PathHasWholeTwoHops(p: Path)
    requires Built(p) && OutputsNonneg(p.fills) && WholeInputs(p.fills)
    ensures WholeTwoHops(p.ordersByType.twoHopOrders)
  {
    OrdersComeFromFills(p.fills, p.context);
  }

  // ----- What the best case asks for -----

  /** The input-side amount of an info. */
  function InfoInput(side: Side): SwapQuoteInfo -> real { if side == Sell then InfoTotalTaker else InfoMaker }

  lemma {:induction false} TwoHopInputs(ts: seq<TwoHopOrder>, side: Side, gas: GasSchedule, slippage: real)
    ensures SumOf(TwoHopBests(ts, gas), InfoInput(side)) == SumOf(ts, TwoHopSelector(side))
    ensures SumOf(TwoHopWorsts(ts, side, gas, slippage), InfoInput(side)) == SumOf(ts, TwoHopSelector(side))
  {
    SumPointwise(TwoHopBests(ts, gas), InfoInput(side), ts, TwoHopSelector(side));
    SumPointwise(TwoHopWorsts(ts, side, gas, slippage), InfoInput(side), ts, TwoHopSelector(side));
  }

  /** Input side of the single-hop part: the request, capped by what the orders hold, as a whole amount. */
  lemma SingleHopInput(orders: OrdersByType, r: QuoteRequest)
    requires Sim.AllValidOrders(SingleHopOrders(orders)) && TakesNoFees(SingleHopOrders(orders))
    requires r.amount >= 0.0 && IsInt(r.amount)
    requires forall o <- SingleHopOrders(orders) :: IsInt(o.fill.input)
    ensures var held := SumOf(SingleHopOrders(orders), OrderInput);
            (InfoInput(r.side)(BestInfos(orders, r)[0]) == Min(r.amount, held)
             && InfoInput(r.side)(WorstInfos(orders, r)[0]) == Min(r.amount, held))
  {
    var q := SimulationOf(orders, r, r.slippage);
    var b := SimulationOf(orders, r, 0.0);
    Sim.FeeFreeQuote(q);
    Sim.FeeFreeQuote(b);
    SumIsInt(q.orders, OrderInput);
    IntRoundsToItself(Sim.WaterfallOf(q).totals.input);
    IntRoundsToItself(0.0);
  }

  /** What the quote asks for on its input side. */
  lemma QuoteInput(orders: OrdersByType, r: QuoteRequest)
    requires Sim.AllValidOrders(SingleHopOrders(orders)) && TakesNoFees(SingleHopOrders(orders))
    requires r.amount >= 0.0 && IsInt(r.amount)
    requires forall o <- SingleHopOrders(orders) :: IsInt(o.fill.input)
    ensures CalculateQuoteInfo(orders, r).Ok?
    ensures var q := CalculateQuoteInfo(orders, r).value;
            var asked := Min(r.amount, SumOf(SingleHopOrders(orders), OrderInput))
                         + SumOf(orders.twoHopOrders, TwoHopSelector(r.side));
            InfoInput(r.side)(q.best) == asked == InfoInput(r.side)(q.worst)
  {
    QuoteInfoNeverFails(orders, r);
    SingleHopInput(orders, r);
    TwoHopInputs(orders.twoHopOrders, r.side, r.gasSchedule, r.slippage);
    var best, worst := BestInfos(orders, r), WorstInfos(orders, r);
    assert best[1..] == TwoHopBests(orders.twoHopOrders, r.gasSchedule);
    assert worst[1..] == TwoHopWorsts(orders.twoHopOrders, r.side, r.gasSchedule, r.slippage);
    SumCons(best, InfoInput(r.side));
    SumCons(worst, InfoInput(r.side));
  }

  /** Single-hop orders carry their fill's input on the input side. */
  lemma SingleHopInputSide(p: Path)
    requires Built(p)
    ensures SumOf(p.ordersByType.nativeOrders, OrderSelector(p.context.side))
            + SumOf(p.ordersByType.bridgeOrders, OrderSelector(p.context.side))
         == SumOf(SingleHopOrders(p.ordersByType), OrderInput)
  {
    var natives, bridges, f := p.ordersByType.nativeOrders, p.ordersByType.bridgeOrders, OrderSelector(p.context.side);
    OrdersComeFromFills(p.fills, p.context);
    SumConcat(natives, bridges, OrderInput);
    forall k | 0 <= k < |natives| ensures f(natives[k]) == OrderInput(natives[k]) {
      assert natives[k] in natives;
    }
    forall k | 0 <= k < |bridges| ensures f(bridges[k]) == OrderInput(bridges[k]) {
      assert bridges[k] in bridges;
    }
    SumPointwise(natives, f, natives, OrderInput);
    SumPointwise(bridges, f, bridges, OrderInput);
  }

  function TwoHopInput(p: Path): real { SumOf(p.ordersByType.twoHopOrders, TwoHopSelector(p.context.side)) }

  function SingleHopHeld(p: Path): real { SumOf(SingleHopOrders(p.ordersByType), OrderInput) }

  /** A path whose single-hop orders can be simulated without taker fees, quoted for its own target. */
  ghost predicate Quotable(p: Path, r: QuoteRequest) {
    && Built(p) && r.side == p.context.side && r.amount == p.targetInput && IsInt(r.amount) && WholeInputs(p.fills)
    && Sim.AllValidOrders(SingleHopOrders(p.ordersByType)) && TakesNoFees(SingleHopOrders(p.ordersByType))
  }

  lemma WholeOrderInputs(p: Path)
    requires Built(p) && WholeInputs(p.fills)
    ensures forall o <- SingleHopOrders(p.ordersByType) :: IsInt(o.fill.input)
  {
    OrdersComeFromFills(p.fills, p.context);
    forall o | o in SingleHopOrders(p.ordersByType) ensures IsInt(o.fill.input) {
      assert o in p.ordersByType.nativeOrders || o in p.ordersByType.bridgeOrders;
    }
  }

  /** What a quote for the amount asks for: single-hop orders up to the whole amount, and all two-hop orders. */
  function Asked(p: Path, amount: real): real { Min(amount, SingleHopHeld(p)) + TwoHopInput(p) }

  /** What is asked for beyond the amount, which may be negative. */
  function Excess(p: Path, amount: real): real { Asked(p, amount) - amount }

  /** The fills add up to the amount, or there is no two-hop input and the single-hop orders hold enough. */
  predicate MeetsRequest(p: Path, amount: real) {
    SumOf(p.fills, InputOf) == amount || (TwoHopInput(p) == 0.0 && SingleHopHeld(p) >= amount)
  }

  /** Nothing is asked for in excess exactly when the request is met; otherwise all that two-hop fills overshoot is. */
  lemma ExcessZeroIff(p: Path, amount: real)
    requires Built(p)
    ensures Excess(p, amount) == 0.0 <==> MeetsRequest(p, amount)
    ensures SingleHopHeld(p) <= amount ==> Excess(p, amount) == SumOf(p.fills, InputOf) - amount
    ensures SingleHopHeld(p) >= amount ==> Excess(p, amount) == TwoHopInput(p) >= 0.0
  {
    InputsArePartitioned(p.fills, p.context);
    SingleHopInputSide(p);
    OrdersComeFromFills(p.fills, p.context);
    SumNonneg(p.ordersByType.twoHopOrders, TwoHopSelector(p.context.side));
  }

  lemma AskedIsWhole(p: Path, amount: real)
    requires Built(p) && WholeInputs(p.fills) && IsInt(amount) && amount >= 0.0
    ensures IsInt(Asked(p, amount)) && Asked(p, amount) >= 0.0
  {
    WholeOrderInputs(p);
    OrdersComeFromFills(p.fills, p.context);
    SumIsInt(SingleHopOrders(p.ordersByType), OrderInput);
    SumIsInt(p.ordersByType.twoHopOrders, TwoHopSelector(p.context.side));
    SumNonneg(p.ordersByType.twoHopOrders, TwoHopSelector(p.context.side));
    HeldNonneg(p);
    IntArithmetic(Min(amount, SingleHopHeld(p)), TwoHopInput(p));
  }

  lemma HeldNonneg(p: Path)
    requires Built(p)
    ensures SingleHopHeld(p) >= 0.0
  {
    OrdersComeFromFills(p.fills, p.context);
    SumNonneg(SingleHopOrders(p.ordersByType), OrderInput);
  }

  /**
   * The single-hop simulation is given the whole requested amount, two-hop orders notwithstanding, so the
   * quote asks for all a path holds up to that amount in each kind, which is the request exactly when the path
   * meets it.
   */
  lemma QuoteMeetsRequestIff(p: Path, r: QuoteRequest)
    requires Quotable(p, r)
    ensures CalculateQuoteInfo(p.ordersByType, r).Ok?
    ensures var q := CalculateQuoteInfo(p.ordersByType, r).value;
            && InfoInput(r.side)(q.best) == InfoInput(r.side)(q.worst) == Asked(p, r.amount)
            && (InfoInput(r.side)(q.best) == r.amount <==> MeetsRequest(p, r.amount))
  {
    WholeOrderInputs(p);
    QuoteInput(p.ordersByType, r);
    ExcessZeroIff(p, r.amount);
  }

  lemma QuotedIsWhole(p: Path, r: QuoteRequest)
    requires Quotable(p, r)
    ensures IsInt(Asked(p, r.amount)) && Asked(p, r.amount) >= 0.0
  {
    AskedIsWhole(p, r.amount);
  }

  /** A single-hop fill of 51 and a two-hop fill of 50 make a quote for 100 ask for 101. */
  lemma OvershootAsksForMore(p: Path, single: Fill, twoHop: Fill)
    requires Built(p) && p.fills == [single, twoHop] && single.source == UniswapV2 && twoHop.source == MultiHop
    requires single.base.input == 51.0 && twoHop.base.input == 50.0
    ensures Excess(p, 100.0) == 1.0 && !MeetsRequest(p, 100.0)
  {
    assert [single, twoHop] == [single] + [twoHop] && [single] == [] + [single];
    SumAppend([single], twoHop, InputOf);
    SumAppend([], single, InputOf);
    InputsArePartitioned(p.fills, p.context);
    SingleHopInputSide(p);
    ExcessZeroIff(p, 100.0);
    assert p.fills[..1] == [single] && [single][..0] == [];
    assert twoHop in p.fills;
    var t := CreateTwoHopOrder(twoHop, p.context);
    assert TwoHopOrders([single], p.context) == [];
    assert p.ordersByType.twoHopOrders == [] + [t];
    SumAppend([], t, TwoHopSelector(p.context.side));
  }

  // ----- What the worst case promises against what the slipped orders deliver -----

  function SlippedSecondMakers(ts: seq<TwoHopOrder>, slippage: real): real {
    SumOf(SlipTwoHops(ts, slippage, Sell), SecondMaker)
  }

  lemma TwoHopGap(t: TwoHopOrder, gas: GasSchedule, slippage: real)
    requires WholeTwoHops([t]) && 0.0 <= slippage <= 1.0
    requires t.second.source != Native && t.second.makerAmount != MAX_UINT256
    ensures 0.0 <= TwoHopWorst(t, Sell, gas, slippage).makerAmount
                   - SlipTwoHop(t, slippage, Sell).second.makerAmount <= 1.0
  {
    assert t in [t];
    HopAmountGap(t.second.makerAmount, slippage);
  }

  lemma HopAmountGap(m: real, slippage: real)
    requires IsInt(m) && m >= 0.0 && m != MAX_UINT256 && 0.0 <= slippage <= 1.0
    ensures 0.0 <= RoundHalfUp(Kept(m, slippage)) - SlipDown(m, slippage) <= 1.0
    ensures slippage == 0.0 ==> RoundHalfUp(Kept(m, slippage)) == m
  {
    MulNonneg(m, 1.0 - slippage);
    assert SlipDown(m, slippage) == RoundDown(Kept(m, slippage));
    HalfUpAgainstDown(Kept(m, slippage));
    if slippage == 0.0 {
      assert Kept(m, slippage) == m;
      IntRoundsToItself(m);
    }
  }

  lemma HalfUpAgainstDown(x: real)
    requires x >= 0.0
    ensures 0.0 <= RoundHalfUp(x) - RoundDown(x) <= 1.0
  {
    IntsLess(RoundDown(x), RoundHalfUp(x));
    IntRoundsToItself(1.0);
    IntArithmetic(RoundDown(x), 1.0);
    IntsLess(RoundHalfUp(x), RoundDown(x) + 1.0);
  }

  lemma {:induction false} TwoHopGaps(ts: seq<TwoHopOrder>, gas: GasSchedule, slippage: real)
    requires WholeTwoHops(ts) && 0.0 <= slippage <= 1.0
    requires forall t <- ts :: t.second.source != Native && t.second.makerAmount != MAX_UINT256
    ensures 0.0 <= SumOf(TwoHopWorsts(ts, Sell, gas, slippage), InfoMaker)
                   - SlippedSecondMakers(ts, slippage) <= |ts| as real
  {
    if |ts| > 0 {
      var front, t := ts[..|ts| - 1], ts[|ts| - 1];
      assert t in ts && WholeTwoHops([t]);
      TwoHopGaps(front, gas, slippage);
      TwoHopGap(t, gas, slippage);
      assert TwoHopWorsts(ts, Sell, gas, slippage)[..|ts| - 1] == TwoHopWorsts(front, Sell, gas, slippage);
      assert SlipTwoHops(ts, slippage, Sell)[..|ts| - 1] == SlipTwoHops(front, slippage, Sell);
    }
  }

  /**
   * The minimum buy amount of a sell quote against the sum of what its slipped orders deliver: the rounding of
   * `n` single-hop and `t` two-hop orders makes the promise at most `n * (2 - slippage) + t` larger, and never
   * smaller when every single-hop order is filled completely and none is a native order.
   */
  lemma MinBuyAgainstSlippedOrders(p: Path, r: QuoteRequest)
    requires Quotable(p, r) && r.side == Sell && 0.0 <= r.slippage <= 1.0 && OutputsNonneg(p.fills)
    requires SingleHopOrders(p.ordersByType) != []
    requires NoUnlimited(SingleHopOrders(p.ordersByType))
    requires forall t <- p.ordersByType.twoHopOrders :: t.second.source != Native && t.second.makerAmount != MAX_UINT256
    ensures CalculateQuoteInfo(p.ordersByType, r).Ok?
    ensures var gap := CalculateQuoteInfo(p.ordersByType, r).value.worst.makerAmount
                       - SlippedMaker(SingleHopOrders(p.ordersByType), r.slippage)
                       - SlippedSecondMakers(p.ordersByType.twoHopOrders, r.slippage);
            (gap < MaxGap(|SingleHopOrders(p.ordersByType)|, r.slippage) + |p.ordersByType.twoHopOrders| as real
             && (p.ordersByType.nativeOrders == [] && SingleHopHeld(p) <= r.amount ==> 0.0 <= gap))
  {
    var orders := p.ordersByType;
    var q := SimulationOf(orders, r, r.slippage);
    QuoteInfoNeverFails(orders, r);
    SlippageGap(p, q);
    WorstHasNoMakerFee(q);
    PathHasWholeTwoHops(p);
    TwoHopGaps(orders.twoHopOrders, r.gasSchedule, r.slippage);
    var worst := WorstInfos(orders, r);
    assert worst[1..] == TwoHopWorsts(orders.twoHopOrders, Sell, r.gasSchedule, r.slippage);
    SumCons(worst, InfoMaker);
  }

  lemma WorstHasNoMakerFee(q: Sim.QuoteFillInfo)
    requires Sim.AllValidOrders(q.orders) && TakesNoFees(q.orders)
    requires q.side == Sell && q.fillAmount >= 0.0
    ensures Sim.WorstCaseFill(q).totalMakerAssetAmount == Sim.WorstCaseFill(q).makerAssetAmount
  {
    Sim.FeeFreeQuote(q);
    IntRoundsToItself(0.0);
  }

  // ----- Proportions of the sources -----

  lemma {:induction false} ScaledSumAt(s: set<Source>, m: map<Source, real>, n: map<Source, real>, total: real)
    requires total != 0.0 && s <= m.Keys && s <= n.Keys && forall k <- s :: n[k] == Proportion(m[k], total)
    ensures SumAt(s, n) == Proportion(SumAt(s, m), total)
    decreases s
  {
    if s != {} {
      var k :| k in s;
      SumAtRemove(s, m, k);
      SumAtRemove(s, n, k);
      ScaledSumAt(s - {k}, m, n, total);
      ProportionsAdd(m[k], SumAt(s - {k}, m), total);
    } else {
      ProportionsAdd(0.0, 0.0, total);
    }
  }

  lemma {:induction false} ScaledSumOf(hops: seq<MultiHopFill>, shares: seq<MultiHopShare>, total: real)
    requires total != 0.0 && |hops| == |shares|
    requires forall k :: 0 <= k < |hops| ==> shares[k].proportion == Proportion(hops[k].amount, total)
    ensures SumOf(shares, HopProportion) == Proportion(SumOf(hops, HopAmount), total)
  {
    if |hops| > 0 {
      var n := |hops| - 1;
      ScaledSumOf(hops[..n], shares[..n], total);
      ProportionsAdd(SumOf(hops[..n], HopAmount), hops[n].amount, total);
    } else {
      ProportionsAdd(0.0, 0.0, total);
    }
  }

  /** A quote of whole fee-free orders whose breakdown exists. */
  ghost predicate Proportioned(orders: OrdersByType, r: QuoteRequest) {
    && Sim.AllValidOrders(SingleHopOrders(orders)) && TakesNoFees(SingleHopOrders(orders))
    && r.amount >= 0.0 && IsInt(r.amount) && (forall o <- SingleHopOrders(orders) :: IsInt(o.fill.input))
    && BreakdownTotal(orders, r) > 0.0
  }

  /** First-hop taker amounts are added to the filled inputs, which are maker amounts in a buy. */
  lemma BreakdownTotalIs(orders: OrdersByType, r: QuoteRequest)
    requires Proportioned(orders, r)
    ensures BreakdownTotal(orders, r)
         == Min(r.amount, SumOf(SingleHopOrders(orders), OrderInput)) + SumOf(orders.twoHopOrders, FirstTaker)
    ensures FilledBySource(orders, r) == Sim.WaterfallOf(SimulationOf(orders, r, 0.0)).inputBySource
  {
    var q := SimulationOf(orders, r, 0.0);
    Sim.FeeFreeQuote(q);
    Sim.SourceAmountsAreExact(q);
    SumPointwise(Map(orders.twoHopOrders, MultiHopFillOf), HopAmount, orders.twoHopOrders, FirstTaker);
  }

  /** Both sides of the two-hop orders come to the same amount; this is what a buy has to meet. */
  predicate SidesMatch(orders: OrdersByType, side: Side) {
    side == Sell || SumOf(orders.twoHopOrders, FirstTaker) == SumOf(orders.twoHopOrders, SecondMaker)
  }

  /**
   * The proportions are those of the quote's input, per source what it fills and per two-hop order what it takes,
   * in every sell. In a buy they mix taker amounts of two-hop orders with maker amounts, and are right for a source
   * that fills anything exactly when both sides of the two-hop orders come to the same, as without two-hop orders.
   */
  lemma ProportionsAreShares(orders: OrdersByType, r: QuoteRequest)
    requires Proportioned(orders, r)
    ensures CalculateQuoteInfo(orders, r).Ok? && CalculateQuoteInfo(orders, r).value.sourceBreakdown.Some?
    ensures orders.twoHopOrders == [] ==> SidesMatch(orders, r.side)
    ensures var infos := CalculateQuoteInfo(orders, r).value;
            var b, asked := infos.sourceBreakdown.value, InfoInput(r.side)(infos.best);
            var filled := Sim.WaterfallOf(SimulationOf(orders, r, 0.0)).inputBySource;
            && b.singleSource.Keys == filled.Keys && |b.multihop| == |orders.twoHopOrders|
            && (BreakdownTotal(orders, r) == asked <==> SidesMatch(orders, r.side))
            && (asked > 0.0 ==>
                  && (forall s <- filled :: filled[s] > 0.0 ==>
                        (b.singleSource[s] == Proportion(filled[s], asked) <==> SidesMatch(orders, r.side)))
                  && (SidesMatch(orders, r.side) ==>
                        forall k :: 0 <= k < |b.multihop| ==>
                          b.multihop[k].proportion == Proportion(orders.twoHopOrders[k].first.takerAmount, asked)))
  {
    QuoteInput(orders, r);
    QuoteInfoNeverFails(orders, r);
    BreakdownTotalIs(orders, r);
    var total, asked := BreakdownTotal(orders, r), InfoInput(r.side)(CalculateQuoteInfo(orders, r).value.best);
    var filled := FilledBySource(orders, r);
    if asked > 0.0 {
      forall s <- filled | filled[s] > 0.0
        ensures Proportion(filled[s], total) == Proportion(filled[s], asked) <==> SidesMatch(orders, r.side)
      {
        SameProportionIff(filled[s], total, asked);
      }
    }
  }

  /** The breakdown names the hops of each two-hop order and the token between them. */
  lemma BreakdownNamesHops(orders: OrdersByType, r: QuoteRequest, k: nat)
    requires Sim.AllValidOrders(SingleHopOrders(orders)) && BreakdownTotal(orders, r) != 0.0
    requires k < |orders.twoHopOrders|
    ensures var shares, t := SourceBreakdownOf(orders, r).value.multihop, orders.twoHopOrders[k];
            && |shares| == |orders.twoHopOrders| && shares[k].intermediateToken == t.second.takerToken
            && shares[k].hops == [t.first.source, t.second.source]
  {
    hide FilledBySource;
  }

  lemma SameProportionIff(amount: real, a: real, b: real)
    requires amount > 0.0 && a > 0.0 && b > 0.0
    ensures Proportion(amount, a) == Proportion(amount, b) <==> a == b
  {
    var x, y := Proportion(amount, a), Proportion(amount, b);
    assert x * a == amount && y * b == amount;
    if x == y {
      assert x != 0.0 && x * (a - b) == 0.0;
    }
  }

  /** The proportions of all sources of a quote add up to one, right or not. */
  lemma ProportionsAddUpToOne(orders: OrdersByType, r: QuoteRequest)
    requires Proportioned(orders, r)
    ensures var b := SourceBreakdownOf(orders, r).value;
            SumMap(b.singleSource) + SumOf(b.multihop, HopProportion) == 1.0
  {
    BreakdownAddsUpToOne(FilledBySource(orders, r), Map(orders.twoHopOrders, MultiHopFillOf));
  }

  lemma BreakdownAddsUpToOne(bySource: map<Source, real>, hops: seq<MultiHopFill>)
    requires TotalFillAmount(bySource, hops) != 0.0
    ensures var b := OrdersBreakdown(bySource, hops);
            b.singleSource.Keys == bySource.Keys && |b.multihop| == |hops|
            && SumMap(b.singleSource) + SumOf(b.multihop, HopProportion) == 1.0
  {
    var total, b := TotalFillAmount(bySource, hops), OrdersBreakdown(bySource, hops);
    ScaledSumAt(bySource.Keys, bySource, b.singleSource, total);
    ScaledSumOf(hops, b.multihop, total);
    ProportionsAdd(SumMap(bySource), SumOf(hops, HopAmount), total);
  }

  /** A buy of 100, half from one source, reports a quarter when the two-hop order for the other half takes 150. */
  lemma MixedBuyProportions(orders: OrdersByType, r: QuoteRequest, o: Order, t: TwoHopOrder)
    requires Proportioned(orders, r) && r.side == Buy && r.amount == 100.0
    requires orders.nativeOrders == [] && orders.bridgeOrders == [o] && orders.twoHopOrders == [t]
    requires o.fill.input == 50.0 && t.second.makerAmount == 50.0 && t.first.takerAmount == 150.0
    ensures o.source in FilledBySource(orders, r) && FilledBySource(orders, r)[o.source] == 50.0
    ensures SourceBreakdownOf(orders, r).value.singleSource[o.source] == 0.25
  {
    BreakdownTotalIs(orders, r);
    var q := SimulationOf(orders, r, 0.0);
    assert q.orders == [o];
    OnlySource(q, o);
    SumAppend([], o, OrderInput);
    assert [] + [o] == [o] && [] + [t] == [t];
    SumAppend([], t, FirstTaker);
  }

  lemma OnlySource(q: Sim.QuoteFillInfo, o: Order)
    requires q.orders == [o] && Sim.AllValidOrders(q.orders) && TakesNoFees(q.orders) && q.fillAmount >= o.fill.input
    ensures Sim.WaterfallOf(q).inputBySource == map[o.source := o.fill.input]
  {
    assert o in q.orders;
    var cs, fee := Sim.BestCaseFillOrderCalls(q.orders, q.side), q.ProtocolFeePerOrder();
    assert cs[0].order == o && Sim.FeeFree(cs[0]);
    Sim.FeeFreeShare(cs[0], q.fillAmount, fee, q.gasSchedule);
    var x := Sim.Contribution(o.source, Sim.Share(cs[0], q.fillAmount, fee, q.gasSchedule));
    assert Sim.Level(cs, 0) == 0.0 && Sim.Contributions(cs, q.fillAmount, fee, q.gasSchedule, 0) == [];
    assert Sim.Contributions(cs, q.fillAmount, fee, q.gasSchedule, 1) == [] + [x];
    Sim.CollectStep([], x);
    assert Sim.GroupBySource([]) == map[];
  }
}
