/** What a whole quote reports, in terms of the fills of its path. */
module QuoteAmounts {
  import opened Numbers
  import opened MarketTypes
  import opened Orders
  import opened Path
  import opened PathSimulation
  import opened QuoteInfo
  import opened FillResults
  import Sim = QuoteSimulation

  /** A path whose single-hop orders can be simulated, quoted for any amount. */
  ghost predicate CanQuote(p: Path, r: QuoteRequest) {
    Built(p) && r.side == p.context.side && Sim.AllValidOrders(SingleHopOrders(p.ordersByType))
  }

  function SingleHopFills(fills: seq<Fill>): seq<Fill> { NativeFills(fills) + BridgeFills(fills) }

  /** The gas of a two-hop fill goes by its hops, whatever the token between them. */
  function HopGas(gas: GasSchedule): Fill -> real {
    (f: Fill) => if f.data.TwoHopData? then gas(MultiHop, f.data.(intermediateToken := "")) else 0.0
  }

  function RoundedDown(f: Fill): real { RoundDown(f.base.output) }

  function RoundedUp(f: Fill): real { RoundUp(f.base.output) }

  /** The worst case of a two-hop fill slips its rounded amount and rounds again, in a sell to the nearest. */
  function SlippedSell(slippage: real): Fill -> real { (f: Fill) => RoundHalfUp(Less(RoundedDown(f), slippage)) }

  function SlippedBuy(slippage: real): Fill -> real { (f: Fill) => RoundUp(More(RoundedUp(f), slippage)) }

  // ----- Two-hop parts -----

  lemma LessMoreAre(amount: real, slippage: real)
    ensures Kept(amount, slippage) == Less(amount, slippage) && Raised(amount, slippage) == More(amount, slippage)
  {
  }

  /** The best and the worst case of a two-hop order come from its fill. */
  predicate HopInfos(best: SwapQuoteInfo, worst: SwapQuoteInfo, f: Fill, r: QuoteRequest) {
    && best.gas == worst.gas == HopGas(r.gasSchedule)(f) && best.protocolFee == worst.protocolFee == 0.0
    && (if r.side == Sell then
          && TakesTotal(best, RoundedDown(f), InputOf(f), InputOf(f))
          && TakesTotal(worst, SlippedSell(r.slippage)(f), InputOf(f), InputOf(f))
        else
          && TakesTotal(best, InputOf(f), RoundedUp(f), RoundedUp(f))
          && TakesTotal(worst, InputOf(f), SlippedBuy(r.slippage)(f), SlippedBuy(r.slippage)(f)))
  }

  predicate TakesTotal(i: SwapQuoteInfo, maker: real, taker: real, total: real) {
    i.makerAmount == maker && i.takerAmount == taker && i.totalTakerAmount == total
  }

  lemma TwoHopInfoOf(t: TwoHopOrder, f: Fill, c: PathContext, r: QuoteRequest)
    requires IsTwoHopOrderOf(t, f, c) && r.side == c.side
    ensures HopInfos(TwoHopBest(t, r.gasSchedule), TwoHopWorst(t, r.side, r.gasSchedule, r.slippage), f, r)
  {
    hide RoundDown, RoundUp, RoundHalfUp, Kept, Raised, Less, More;
    LessMoreAre(RoundedDown(f), r.slippage);
    LessMoreAre(RoundedUp(f), r.slippage);
  }

  predicate AllHopInfos(bests: seq<SwapQuoteInfo>, worsts: seq<SwapQuoteInfo>, fills: seq<Fill>, r: QuoteRequest) {
    |bests| == |worsts| == |fills| && forall k :: 0 <= k < |fills| ==> HopInfos(bests[k], worsts[k], fills[k], r)
  }

  lemma TwoHopInfosOf(p: Path, r: QuoteRequest)
    requires CanQuote(p, r)
    ensures var ts := p.ordersByType.twoHopOrders;
            AllHopInfos(TwoHopBests(ts, r.gasSchedule), TwoHopWorsts(ts, r.side, r.gasSchedule, r.slippage),
                        MultiHopFills(p.fills), r)
  {
    hide HopInfos, IsTwoHopOrderOf, TwoHopBest, TwoHopWorst;
    var ts, fills := p.ordersByType.twoHopOrders, MultiHopFills(p.fills);
    OrdersFollowTheirFills(p.fills, p.context);
    forall k | 0 <= k < |ts|
      ensures HopInfos(TwoHopBest(ts[k], r.gasSchedule), TwoHopWorst(ts[k], r.side, r.gasSchedule, r.slippage),
                       fills[k], r)
    {
      TwoHopInfoOf(ts[k], fills[k], p.context, r);
    }
  }

  /** Sums of a field over the infos of a quote: the single-hop part, and a sum over the two-hop fills. */
  lemma InfoSums(single: SwapQuoteInfo, hops: seq<SwapQuoteInfo>, fills: seq<Fill>, field: SwapQuoteInfo -> real,
                 part: Fill -> real)
    requires |hops| == |fills| && forall k :: 0 <= k < |hops| ==> field(hops[k]) == part(fills[k])
    ensures SumOf([single] + hops, field) == field(single) + SumOf(fills, part)
  {
    SumCons([single] + hops, field);
    assert ([single] + hops)[1..] == hops;
    SumPointwise(hops, field, fills, part);
  }

  function SingleBest(p: Path, r: QuoteRequest): SwapQuoteInfo
    requires Sim.AllValidOrders(SingleHopOrders(p.ordersByType))
  {
    FillResultToInfo(Sim.BestCaseFill(SimulationOf(p.ordersByType, r, 0.0)), 0.0)
  }

  function SingleWorst(p: Path, r: QuoteRequest): SwapQuoteInfo
    requires Sim.AllValidOrders(SingleHopOrders(p.ordersByType))
  {
    FillResultToInfo(Sim.WorstCaseFill(SimulationOf(p.ordersByType, r, r.slippage)), r.slippage)
  }

  lemma CostSums(best: SwapQuoteInfo, bests: seq<SwapQuoteInfo>, worst: SwapQuoteInfo, worsts: seq<SwapQuoteInfo>,
                 fills: seq<Fill>, r: QuoteRequest)
    requires AllHopInfos(bests, worsts, fills, r)
    ensures SumOf([best] + bests, InfoGas) == best.gas + SumOf(fills, HopGas(r.gasSchedule))
    ensures SumOf([worst] + worsts, InfoGas) == worst.gas + SumOf(fills, HopGas(r.gasSchedule))
    ensures SumOf([best] + bests, InfoProtocolFee) == best.protocolFee
    ensures SumOf([worst] + worsts, InfoProtocolFee) == worst.protocolFee
  {
    hide SumOf, HopGas, RoundedDown, RoundedUp, SlippedSell, SlippedBuy;
    InfoSums(best, bests, fills, InfoGas, HopGas(r.gasSchedule));
    InfoSums(worst, worsts, fills, InfoGas, HopGas(r.gasSchedule));
    InfoSums(best, bests, fills, InfoProtocolFee, Nothing);
    InfoSums(worst, worsts, fills, InfoProtocolFee, Nothing);
    SumOfNothing(fills);
  }

  lemma AmountSums(best: SwapQuoteInfo, bests: seq<SwapQuoteInfo>, worst: SwapQuoteInfo, worsts: seq<SwapQuoteInfo>,
                   fills: seq<Fill>, r: QuoteRequest)
    requires AllHopInfos(bests, worsts, fills, r)
    ensures TotalsWithHops(SumInfos([best] + bests, 0.0), best, SumInfos([worst] + worsts, r.slippage), worst, fills, r)
  {
    hide SumOf, HopGas, RoundedDown, RoundedUp, SlippedSell, SlippedBuy;
    if r.side == Sell {
      InfoSums(best, bests, fills, InfoMaker, RoundedDown);
      InfoSums(best, bests, fills, InfoTaker, InputOf);
      InfoSums(best, bests, fills, InfoTotalTaker, InputOf);
      InfoSums(worst, worsts, fills, InfoMaker, SlippedSell(r.slippage));
      InfoSums(worst, worsts, fills, InfoTaker, InputOf);
      InfoSums(worst, worsts, fills, InfoTotalTaker, InputOf);
    } else {
      InfoSums(best, bests, fills, InfoMaker, InputOf);
      InfoSums(best, bests, fills, InfoTaker, RoundedUp);
      InfoSums(best, bests, fills, InfoTotalTaker, RoundedUp);
      InfoSums(worst, worsts, fills, InfoMaker, InputOf);
      InfoSums(worst, worsts, fills, InfoTaker, SlippedBuy(r.slippage));
      InfoSums(worst, worsts, fills, InfoTotalTaker, SlippedBuy(r.slippage));
    }
  }

  /** The amounts of a quote, given those of its single-hop part and its two-hop fills. */
  predicate TotalsWithHops(best: SwapQuoteInfo, singleBest: SwapQuoteInfo, worst: SwapQuoteInfo,
                           singleWorst: SwapQuoteInfo, hops: seq<Fill>, r: QuoteRequest)
  {
    if r.side == Sell then
      var taken := SumOf(hops, InputOf);
      && TakesTotal(best, singleBest.makerAmount + SumOf(hops, RoundedDown), singleBest.takerAmount + taken,
                    singleBest.totalTakerAmount + taken)
      && TakesTotal(worst, singleWorst.makerAmount + SumOf(hops, SlippedSell(r.slippage)),
                    singleWorst.takerAmount + taken, singleWorst.totalTakerAmount + taken)
    else
      var made, taken, slipped := SumOf(hops, InputOf), SumOf(hops, RoundedUp), SumOf(hops, SlippedBuy(r.slippage));
      && TakesTotal(best, singleBest.makerAmount + made, singleBest.takerAmount + taken,
                    singleBest.totalTakerAmount + taken)
      && TakesTotal(worst, singleWorst.makerAmount + made, singleWorst.takerAmount + slipped,
                    singleWorst.totalTakerAmount + slipped)
  }

  /** The whole quote adds to its single-hop part what the two-hop fills make and take. */
  lemma QuoteAddsTwoHops(p: Path, r: QuoteRequest)
    requires CanQuote(p, r)
    ensures CalculateQuoteInfo(p.ordersByType, r).Ok?
    ensures var q, hops := CalculateQuoteInfo(p.ordersByType, r).value, MultiHopFills(p.fills);
            var best, worst := SingleBest(p, r), SingleWorst(p, r);
            && q.best.gas == best.gas + SumOf(hops, HopGas(r.gasSchedule))
            && q.worst.gas == worst.gas + SumOf(hops, HopGas(r.gasSchedule))
            && q.best.protocolFee == best.protocolFee && q.worst.protocolFee == worst.protocolFee
            && q.best.slippage == 0.0 && q.worst.slippage == r.slippage
            && TotalsWithHops(q.best, best, q.worst, worst, hops, r)
  {
    hide Sim.BestCaseFill, Sim.WorstCaseFill, FillResultToInfo, TwoHopBest, TwoHopWorst, SourceBreakdownOf, AllHopInfos,
      HopGas, SumOf, TotalsWithHops;
    var orders, hops, gas := p.ordersByType, MultiHopFills(p.fills), r.gasSchedule;
    QuoteInfoNeverFails(orders, r);
    TwoHopInfosOf(p, r);
    var bests := TwoHopBests(orders.twoHopOrders, gas);
    var worsts := TwoHopWorsts(orders.twoHopOrders, r.side, gas, r.slippage);
    CostSums(SingleBest(p, r), bests, SingleWorst(p, r), worsts, hops, r);
    AmountSums(SingleBest(p, r), bests, SingleWorst(p, r), worsts, hops, r);
  }

  function Nothing(f: Fill): real { 0.0 }

  lemma {:induction false} SumOfNothing(fills: seq<Fill>)
    ensures SumOf(fills, Nothing) == 0.0
  {
    if |fills| > 0 { SumOfNothing(fills[..|fills| - 1]); }
  }

  // ----- Gas and protocol fee -----

  lemma {:induction false} NoProtocolFee(orders: seq<Order>)
    ensures SumOf(orders, LimitFee(0.0)) == 0.0
  {
    if |orders| > 0 { NoProtocolFee(orders[..|orders| - 1]); }
  }

  /**
   * The best case costs the gas of the single-hop orders it hits, the worst case that of all of them, and both that
   * of every two-hop fill. No protocol fee is charged.
   */
  lemma QuoteCosts(p: Path, r: QuoteRequest, n: nat)
    requires CanQuote(p, r) && Hits(SimulationOf(p.ordersByType, r, 0.0), n)
    ensures CalculateQuoteInfo(p.ordersByType, r).Ok?
    ensures var q, orders := CalculateQuoteInfo(p.ordersByType, r).value, SingleHopOrders(p.ordersByType);
            var hopGas := SumOf(MultiHopFills(p.fills), HopGas(r.gasSchedule));
            && q.best.gas == Ceil(SumOf(orders[..n], GasOf(r.gasSchedule))) + hopGas
            && q.worst.gas == Ceil(SumOf(orders, GasOf(r.gasSchedule))) + hopGas
            && q.best.protocolFee == 0.0 == q.worst.protocolFee
            && q.best.slippage == 0.0 && q.worst.slippage == r.slippage
  {
    assert n <= |SingleHopOrders(p.ordersByType)|;
    hide Sim.BestCaseFill, Sim.WorstCaseFill, Hits, SumOf, Ceil;
    QuoteAddsTwoHops(p, r);
    var b, w := SimulationOf(p.ordersByType, r, 0.0), SimulationOf(p.ordersByType, r, r.slippage);
    BestCaseCosts(b, n);
    WorstCaseCosts(w);
    NoFeePerOrder(b);
    NoFeePerOrder(w);
    NoProtocolFee(b.orders[..n]);
    IntRoundsToItself(0.0);
  }

  lemma NoFeePerOrder(q: Sim.QuoteFillInfo)
    requires q.protocolFeeMultiplier == PROTOCOL_FEE_MULTIPLIER
    ensures FeePerOrder(q) == 0.0 && FeePerOrder(q) * |LimitPositions(q.orders)| as real == 0.0
  {
  }

  // ----- Amounts -----

  lemma SingleHopSums(p: Path)
    requires Built(p)
    ensures SumOf(SingleHopOrders(p.ordersByType), OrderInput) == SumOf(SingleHopFills(p.fills), InputOf)
    ensures SumOf(SingleHopOrders(p.ordersByType), OrderOutput) == SumOf(SingleHopFills(p.fills), OutputOf)
  {
    OrdersFollowTheirFills(p.fills, p.context);
    SumPointwise(SingleHopOrders(p.ordersByType), OrderInput, SingleHopFills(p.fills), InputOf);
    SumPointwise(SingleHopOrders(p.ordersByType), OrderOutput, SingleHopFills(p.fills), OutputOf);
  }

  lemma {:induction false} NoFees(orders: seq<Order>, side: Side)
    ensures side == Sell ==> SumOf(orders, OutputFee(side)) == 0.0
    ensures side == Buy ==> SumOf(orders, InputFee(side)) == 0.0
  {
    if |orders| > 0 { NoFees(orders[..|orders| - 1], side); }
  }

  /** The taker fees of limit orders filled whole. */
  function TakerFees(p: Path): real {
    var orders := SingleHopOrders(p.ordersByType);
    if p.context.side == Sell then SumOf(orders, InputFee(Sell)) else SumOf(orders, OutputFee(Buy))
  }

  /** The request covers the single-hop orders with their fees. */
  predicate Covers(p: Path, r: QuoteRequest) { SumOf(SingleHopOrders(p.ordersByType), Held(r.side)) <= r.amount }

  /** What a path makes and takes in single-hop fills, slipped in the worst case. */
  predicate SingleHopAmounts(best: SwapQuoteInfo, worst: SwapQuoteInfo, p: Path, slippage: real) {
    var input, output := SumOf(SingleHopFills(p.fills), InputOf), SumOf(SingleHopFills(p.fills), OutputOf);
    var fees := RoundUp(TakerFees(p));
    if p.context.side == Sell then
      && TakesTotal(best, RoundDown(output), RoundUp(input), RoundUp(input) + fees)
      && TakesTotal(worst, RoundDown(Less(output, slippage)), RoundUp(input), RoundUp(input) + fees)
    else
      && TakesTotal(best, RoundDown(input), RoundUp(output), RoundUp(output) + fees)
      && TakesTotal(worst, RoundDown(input), RoundUp(More(output, slippage)), RoundUp(More(output, slippage)) + fees)
  }

  lemma CoveredSingleHops(p: Path, r: QuoteRequest)
    requires CanQuote(p, r) && Covers(p, r)
    ensures SingleHopAmounts(SingleBest(p, r), SingleWorst(p, r), p, r.slippage)
  {
    hide Held, InputFee, OutputFee, SumOf, Sim.BestCaseFill, Sim.WorstCaseFill, Less, More, RoundUp, RoundDown;
    var b, w := SimulationOf(p.ordersByType, r, 0.0), SimulationOf(p.ordersByType, r, r.slippage);
    CoveredAmounts(b);
    CoveredWorstAmounts(w);
    SingleHopSums(p);
    NoFees(SingleHopOrders(p.ordersByType), r.side);
    IntRoundsToItself(0.0);
    var output := SumOf(SingleHopFills(p.fills), OutputOf);
    IntRoundsToItself(RoundDown(Less(output, r.slippage)));
    IntRoundsToItself(RoundUp(More(output, r.slippage)));
  }

  /**
   * A sell that covers its orders, from the fills of its path: the outputs of single-hop fills are added up and
   * rounded once, those of two-hop fills one by one.
   */
  lemma CoveredSell(p: Path, r: QuoteRequest)
    requires CanQuote(p, r) && Covers(p, r) && r.side == Sell
    ensures CalculateQuoteInfo(p.ordersByType, r).Ok?
    ensures var q, hops := CalculateQuoteInfo(p.ordersByType, r).value, MultiHopFills(p.fills);
            var input, output := SumOf(SingleHopFills(p.fills), InputOf), SumOf(SingleHopFills(p.fills), OutputOf);
            var sold := RoundUp(input) + SumOf(hops, InputOf);
            && TakesTotal(q.best, RoundDown(output) + SumOf(hops, RoundedDown), sold, sold + RoundUp(TakerFees(p)))
            && TakesTotal(q.worst, RoundDown(Less(output, r.slippage)) + SumOf(hops, SlippedSell(r.slippage)), sold,
                          sold + RoundUp(TakerFees(p)))
  {
    hide SumOf, RoundDown, RoundUp, Less, TakerFees;
    QuoteAddsTwoHops(p, r);
    CoveredSingleHops(p, r);
  }

  /** The same for a buy, whose taker amounts are its outputs, rounded up. */
  lemma CoveredBuy(p: Path, r: QuoteRequest)
    requires CanQuote(p, r) && Covers(p, r) && r.side == Buy
    ensures CalculateQuoteInfo(p.ordersByType, r).Ok?
    ensures var q, hops := CalculateQuoteInfo(p.ordersByType, r).value, MultiHopFills(p.fills);
            var input, output := SumOf(SingleHopFills(p.fills), InputOf), SumOf(SingleHopFills(p.fills), OutputOf);
            var bought, taken := RoundDown(input) + SumOf(hops, InputOf), RoundUp(output) + SumOf(hops, RoundedUp);
            var slipped := RoundUp(More(output, r.slippage)) + SumOf(hops, SlippedBuy(r.slippage));
            && TakesTotal(q.best, bought, taken, taken + RoundUp(TakerFees(p)))
            && TakesTotal(q.worst, bought, slipped, slipped + RoundUp(TakerFees(p)))
  {
    hide SumOf, RoundDown, RoundUp, More, TakerFees;
    QuoteAddsTwoHops(p, r);
    CoveredSingleHops(p, r);
  }
}
