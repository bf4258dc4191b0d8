/** How a path's own amounts relate to the simulated quote of its orders. */
module PathSimulation {
  import opened Numbers
  import opened MarketTypes
  import opened Orders
  import opened Path
  import Sim = QuoteSimulation

  function SingleHopOrders(orders: OrdersByType): seq<Order> { orders.nativeOrders + orders.bridgeOrders }

  predicate TakesNoFees(orders: seq<Order>)
    requires Sim.AllValidOrders(orders)
  {
    forall o <- orders :: Sim.OrderTakerFee(o) == 0.0
  }

  // ----- Ranked size against simulated fill -----

  /** Single-hop fills, the native ones first. */
  predicate NativeFirst(fills: seq<Fill>) {
    NoTwoHops(fills)
    && forall j, k :: 0 <= j < k < |fills| && fills[k].source == Native ==> fills[j].source == Native
  }

  lemma {:induction false} AllNativeNoBridges(fills: seq<Fill>, context: PathContext)
    requires forall f <- fills :: f.source == Native
    ensures BridgeOrders(fills, context) == []
  {
    if |fills| > 0 {
      assert fills[|fills| - 1] in fills;
      AllNativeNoBridges(fills[..|fills| - 1], context);
    }
  }

  lemma {:induction false} OrdersFollowFills(fills: seq<Fill>, context: PathContext)
    requires AllWellTyped(fills) && AllConvertible(fills) && NativeFirst(fills)
    ensures var orders := NativeOrders(fills, context.side) + BridgeOrders(fills, context);
            |orders| == |fills| && forall k :: 0 <= k < |fills| ==> orders[k].fill == fills[k].base
  {
    if |fills| > 0 {
      var front := fills[..|fills| - 1];
      OrdersFollowFills(front, context);
      var o := LastFollows(fills, context);
      hide NativeOrders, BridgeOrders;
      assert NativeOrders(fills, context.side) + BridgeOrders(fills, context)
          == (NativeOrders(front, context.side) + BridgeOrders(front, context)) + [o];
    }
  }

  lemma {:induction false} LastFollows(fills: seq<Fill>, context: PathContext) returns (o: Order)
    requires AllWellTyped(fills) && AllConvertible(fills) && NativeFirst(fills) && |fills| > 0
    ensures o.fill == fills[|fills| - 1].base
    ensures NativeOrders(fills, context.side) + BridgeOrders(fills, context)
         == (NativeOrders(fills[..|fills| - 1], context.side) + BridgeOrders(fills[..|fills| - 1], context)) + [o]
  {
    hide MakerAmount, TakerAmount;
    var front, fill := fills[..|fills| - 1], fills[|fills| - 1];
    assert fill in fills;
    if fill.source == Native {
      assert forall f <- front :: f.source == Native;
      AllNativeNoBridges(front, context);
      o := CreateNativeOrder(fill, context.side).value;
    } else {
      o := CreateBridgeOrder(
        fill.base, fill.source, fill.data, context.MakerToken(), context.TakerToken(), context.side);
    }
  }

  /** Every single-hop fill becomes an order with the same amounts. */
  lemma {:induction false} FillHasOrder(fills: seq<Fill>, context: PathContext, k: nat)
    requires AllWellTyped(fills) && AllConvertible(fills) && k < |fills| && fills[k].source != MultiHop
    ensures exists o :: o in NativeOrders(fills, context.side) + BridgeOrders(fills, context) && o.fill == fills[k].base
  {
    var n := |fills| - 1;
    var front := fills[..n];
    assert fills[k] in fills;
    if k < n {
      FillHasOrder(front, context, k);
      var o :| o in NativeOrders(front, context.side) + BridgeOrders(front, context) && o.fill == front[k].base;
      assert o in NativeOrders(fills, context.side) + BridgeOrders(fills, context);
    } else if fills[k].source == Native {
      assert CreateNativeOrder(fills[k], context.side).value in NativeOrders(fills, context.side);
    } else {
      var order := CreateBridgeOrder(fills[k].base, fills[k].source, fills[k].data, context.MakerToken(),
                                     context.TakerToken(), context.side);
      assert order in BridgeOrders(fills, context);
    }
  }

  /** The simulation of a single-hop path for its own target, without taker fees. */
  ghost predicate Simulates(p: Path, q: Sim.QuoteFillInfo) {
    && Built(p) && NoTwoHops(p.fills)
    && q.orders == SingleHopOrders(p.ordersByType) && q.side == p.context.side && q.fillAmount == p.targetInput
    && Sim.AllValidOrders(q.orders) && TakesNoFees(q.orders)
  }

  lemma SimulatedAmounts(p: Path, q: Sim.QuoteFillInfo)
    requires Simulates(p, q)
    ensures |q.orders| == |p.fills| && forall f <- p.fills :: f.base.input > 0.0
    ensures SumOf(q.orders, OrderInput) == SumOf(p.fills, InputOf)
    ensures SumOf(q.orders, OrderOutput) == SumOf(p.fills, OutputOf)
  {
    SingleHopsKeepAmounts(p.fills, p.context);
    SumConcat(p.ordersByType.nativeOrders, p.ordersByType.bridgeOrders, OrderInput);
    SumConcat(p.ordersByType.nativeOrders, p.ordersByType.bridgeOrders, OrderOutput);
    forall f <- p.fills ensures f.base.input > 0.0 {
      var k :| 0 <= k < |p.fills| && p.fills[k] == f;
      FillHasOrder(p.fills, p.context, k);
      var o :| o in q.orders && o.fill == f.base;
      assert Sim.ValidOrder(o);
    }
  }

  /** The ranked output is the simulated one with the penalties of all fills. */
  ghost predicate OutputsAgree(p: Path, q: Sim.QuoteFillInfo)
    requires Simulates(p, q)
  {
    p.adjustedSize.output == Sim.WaterfallOf(q).totals.output + SumOf(p.fills, Penalty)
  }

  /**
   * The router ranks the fills in the order of the path, the quote simulates native orders first. The inputs
   * always agree; the outputs do when the target covers the fills, or the path lists native fills first.
   */
  lemma RankedSizeAgreesWithQuote(p: Path, q: Sim.QuoteFillInfo)
    requires Simulates(p, q)
    ensures p.adjustedSize.input == Sim.WaterfallOf(q).totals.input
    ensures SumOf(p.fills, InputOf) <= p.targetInput || NativeFirst(p.fills) ==> OutputsAgree(p, q)
  {
    SimulatedAmounts(p, q);
    Sim.FeeFreeQuote(q);
    if SumOf(p.fills, InputOf) <= p.targetInput {
      AdjustedWhenCovered(p.targetInput, p.fills);
    } else if NativeFirst(p.fills) {
      NativeFirstAgrees(p, q);
    }
  }

  lemma NativeFirstAgrees(p: Path, q: Sim.QuoteFillInfo)
    requires Simulates(p, q) && NativeFirst(p.fills)
    ensures OutputsAgree(p, q)
  {
    CallsFollowFills(p, q);
    var cs, n, fee := Sim.BestCaseFillOrderCalls(q.orders, q.side), |p.fills|, q.ProtocolFeePerOrder();
    assert p.fills[..n] == p.fills;
    AdjustedSizeAgreesWithSimulation(p.fills, cs, p.targetInput, fee, q.gasSchedule, n);
  }

  lemma CallsFollowFills(p: Path, q: Sim.QuoteFillInfo)
    requires Simulates(p, q) && NativeFirst(p.fills)
    ensures SameFills(p.fills, Sim.BestCaseFillOrderCalls(q.orders, q.side))
  {
    OrdersFollowFills(p.fills, p.context);
  }

  /** What the fills ask for beyond the target. */
  function Overshoot(p: Path): real { SumOf(p.fills, InputOf) - p.targetInput }

  /** What the overshoot cuts from the end of the fills, and from the end of the simulated orders. */
  ghost function RankedCut(p: Path, q: Sim.QuoteFillInfo): real
    requires Simulates(p, q)
  {
    SimulatedAmounts(p, q);
    FillsArePositive(p.fills);
    CutOff(Map(p.fills, BaseOf), Overshoot(p))
  }

  ghost function SimulatedCut(p: Path, q: Sim.QuoteFillInfo): real
    requires Simulates(p, q)
  {
    OrdersArePositive(q.orders);
    CutOff(Map(q.orders, FillOf), Overshoot(p))
  }

  lemma OrdersArePositive(orders: seq<Order>)
    requires Sim.AllValidOrders(orders)
    ensures PositiveInputs(Map(orders, FillOf))
  {
    forall k | 0 <= k < |orders| ensures Map(orders, FillOf)[k].input > 0.0 { assert orders[k] in orders; }
  }

  /**
   * A path that overshoots its target is cut at the end of its fills by the router, and at the end of the orders
   * by the simulation: the outputs agree exactly when both lose the same.
   */
  lemma OvershootAgreesIff(p: Path, q: Sim.QuoteFillInfo)
    requires Simulates(p, q)
    ensures p.adjustedSize.output == SumOf(p.fills, OutputOf) + SumOf(p.fills, Penalty) - RankedCut(p, q)
    ensures Sim.WaterfallOf(q).totals.output == SumOf(p.fills, OutputOf) - SimulatedCut(p, q)
    ensures OutputsAgree(p, q) <==> RankedCut(p, q) == SimulatedCut(p, q)
  {
    hide Sim.WaterfallOf, RankedCut, SimulatedCut;
    RankedOutput(p, q);
    PathOutput(p, q);
  }

  lemma RankedOutput(p: Path, q: Sim.QuoteFillInfo)
    requires Simulates(p, q)
    ensures p.adjustedSize.output == SumOf(p.fills, OutputOf) + SumOf(p.fills, Penalty) - RankedCut(p, q)
  {
    hide CutOff;
    SimulatedAmounts(p, q);
    AdjustedSizeIsCut(p.targetInput, p.fills);
  }

  lemma PathOutput(p: Path, q: Sim.QuoteFillInfo)
    requires Simulates(p, q)
    ensures Sim.WaterfallOf(q).totals.output == SumOf(p.fills, OutputOf) - SimulatedCut(p, q)
  {
    hide Sim.WaterfallOf, CutOff;
    SimulatedAmounts(p, q);
    SimulatedOutput(q);
  }

  lemma SimulatedOutput(q: Sim.QuoteFillInfo)
    requires Sim.AllValidOrders(q.orders) && TakesNoFees(q.orders) && q.fillAmount >= 0.0
    ensures PositiveInputs(Map(q.orders, FillOf))
    ensures Sim.WaterfallOf(q).totals.output
         == SumOf(q.orders, OrderOutput) - CutOff(Map(q.orders, FillOf), SumOf(q.orders, OrderInput) - q.fillAmount)
  {
    hide Sim.Share, Sim.Capacity, Sim.Level, CutOff;
    var cs, fee := Sim.BestCaseFillOrderCalls(q.orders, q.side), q.ProtocolFeePerOrder();
    CallAmounts(q);
    Sim.WaterfallIsCut(cs, q.fillAmount, fee, q.gasSchedule, |cs|);
  }

  /** What the simulated calls of fee-free orders hold. */
  lemma CallAmounts(q: Sim.QuoteFillInfo)
    requires Sim.AllValidOrders(q.orders) && TakesNoFees(q.orders)
    ensures var cs, n := Sim.BestCaseFillOrderCalls(q.orders, q.side), |q.orders|;
            && cs[..n] == cs && (forall c <- cs :: Sim.FeeFree(c))
            && Sim.Level(cs, n) == SumOf(q.orders, OrderInput)
            && SumOf(cs, Sim.CallOutput) == SumOf(q.orders, OrderOutput)
            && Map(cs, Sim.CallBase) == Map(q.orders, FillOf)
  {
    hide Sim.Capacity;
    var cs, n := Sim.BestCaseFillOrderCalls(q.orders, q.side), |q.orders|;
    assert cs[..n] == cs;
    assert forall c <- cs :: Sim.FeeFree(c);
    Sim.FeeFreeLevel(cs, n);
    SumPointwise(cs, Sim.CallInput, q.orders, OrderInput);
    SumPointwise(cs, Sim.CallOutput, q.orders, OrderOutput);
  }

  /** The overshoot is no more than the last fill, and the last simulated order, hold. */
  ghost predicate OvershootsWithinLast(p: Path, q: Sim.QuoteFillInfo)
    requires Simulates(p, q)
  {
    && |p.fills| > 0 && |q.orders| > 0
    && 0.0 <= Overshoot(p) <= p.fills[|p.fills| - 1].base.input
    && Overshoot(p) <= q.orders[|q.orders| - 1].fill.input
  }

  /** Within the last fill and the last order, both lose the same exactly when nothing is cut or their rates agree. */
  lemma LastCutsAgreeIff(p: Path, q: Sim.QuoteFillInfo)
    requires Simulates(p, q) && OvershootsWithinLast(p, q)
    ensures var cut, simulated := p.fills[|p.fills| - 1].base, q.orders[|q.orders| - 1].fill;
            && cut.input > 0.0 && simulated.input > 0.0
            && RankedCut(p, q) == OutputFor(cut, Overshoot(p))
            && SimulatedCut(p, q) == OutputFor(simulated, Overshoot(p))
            && (OutputsAgree(p, q) <==> Overshoot(p) == 0.0 || Rate(cut) == Rate(simulated))
  {
    hide Sim.WaterfallOf, RankedCut, SimulatedCut, Overshoot;
    CutsWithinLast(p, q);
    OvershootAgreesIff(p, q);
    SameCutIff(p.fills[|p.fills| - 1].base, q.orders[|q.orders| - 1].fill, Overshoot(p));
  }

  lemma CutsWithinLast(p: Path, q: Sim.QuoteFillInfo)
    requires Simulates(p, q) && OvershootsWithinLast(p, q)
    ensures var cut, simulated := p.fills[|p.fills| - 1].base, q.orders[|q.orders| - 1].fill;
            && cut.input > 0.0 && simulated.input > 0.0
            && RankedCut(p, q) == OutputFor(cut, Overshoot(p))
            && SimulatedCut(p, q) == OutputFor(simulated, Overshoot(p))
  {
    hide OutputFor, Overshoot, SumOf;
    SimulatedAmounts(p, q);
    assert p.fills[|p.fills| - 1] in p.fills && Sim.ValidOrder(q.orders[|q.orders| - 1]);
    SameCutIff(p.fills[|p.fills| - 1].base, q.orders[|q.orders| - 1].fill, Overshoot(p));
  }

  lemma SameCutIff(a: FillBase, b: FillBase, part: real)
    requires a.input > 0.0 && b.input > 0.0
    ensures OutputFor(a, part) == OutputFor(b, part) <==> part == 0.0 || Rate(a) == Rate(b)
    ensures part == 0.0 ==> OutputFor(a, part) == OutputFor(b, part) == 0.0
  {
    var x, y := Rate(a), Rate(b);
    assert (x - y) * part == x * part - y * part;
  }

  /**
   * A bridge fill of 51 for 51 before a native fill of 50 for 100, as rounding inputs up can leave them for a
   * target of 100: ranked with 149, simulated with 150.
   */
  lemma MixedOvershootDiffers(p: Path, q: Sim.QuoteFillInfo, bridge: Fill, native: Fill)
    requires Simulates(p, q) && p.fills == [bridge, native] && p.targetInput == 100.0
    requires bridge.source == UniswapV2 && bridge.base == FillBase(51.0, 51.0, 51.0, 0.0)
    requires native.source == Native && native.base == FillBase(50.0, 100.0, 100.0, 0.0)
    ensures p.adjustedSize.output == 149.0 && Sim.WaterfallOf(q).totals.output == 150.0
  {
    hide Sim.Waterfall, CreateAdjustedSize;
    MixedSums(p, bridge, native);
    MixedOrders(p, bridge, native);
    OvershootAgreesIff(p, q);
    LastCutsAgreeIff(p, q);
    assert Rate(native.base) == 2.0 && Rate(bridge.base) == 1.0;
  }

  lemma MixedOrders(p: Path, bridge: Fill, native: Fill)
    requires Built(p) && p.fills == [bridge, native] && bridge.source == UniswapV2 && native.source == Native
    ensures var orders := SingleHopOrders(p.ordersByType); |orders| == 2 && orders[1].fill == bridge.base
  {
    assert p.fills[..1] == [bridge] && [bridge][..0] == [];
    assert NativeOrders([bridge], p.context.side) == [];
    assert p.ordersByType.nativeOrders == [] + [CreateNativeOrder(native, p.context.side).value];
    assert |BridgeOrders([bridge], p.context)| == 1 && BridgeOrders([bridge], p.context)[0].fill == bridge.base;
    assert p.ordersByType.bridgeOrders == BridgeOrders([bridge], p.context);
  }

  lemma MixedSums(p: Path, bridge: Fill, native: Fill)
    requires p.fills == [bridge, native] && bridge.base == FillBase(51.0, 51.0, 51.0, 0.0)
    requires native.base == FillBase(50.0, 100.0, 100.0, 0.0)
    ensures SumOf(p.fills, InputOf) == 101.0 && SumOf(p.fills, OutputOf) == 151.0 && SumOf(p.fills, Penalty) == 0.0
  {
    assert [bridge, native] == [bridge] + [native] && [bridge] == [] + [bridge];
    SumAppend([bridge], native, InputOf);
    SumAppend([], bridge, InputOf);
    SumAppend([bridge], native, OutputOf);
    SumAppend([], bridge, OutputOf);
    SumAppend([bridge], native, Penalty);
    SumAppend([], bridge, Penalty);
  }

  // ----- Slipped orders against the worst case -----

  predicate NoUnlimited(orders: seq<Order>) { forall o <- orders :: o.makerAmount != MAX_UINT256 }

  /** Sell orders whose maker amount is their output, rounded down. */
  predicate SellAmounts(orders: seq<Order>) {
    forall o <- orders :: o.fill.output >= 0.0 && o.makerAmount == RoundDown(o.fill.output)
  }

  /** What slippage leaves of an amount. */
  function Kept(amount: real, slippage: real): real { amount * (1.0 - slippage) }

  /** What slippage makes of an amount to be paid. */
  function Raised(amount: real, slippage: real): real { amount * (1.0 + slippage) }

  lemma RaisedIsMore(amount: real, slippage: real)
    requires 0.0 <= slippage <= 1.0 && amount >= 0.0
    ensures amount <= RoundUp(Raised(amount, slippage))
  {
    Sim.SlippageBounds(amount, slippage);
  }

  lemma KeptWithin(a: real, b: real, slippage: real)
    requires 0.0 <= a <= b <= a + 1.0 && 0.0 <= slippage <= 1.0
    ensures 0.0 <= Kept(a, slippage) <= Kept(b, slippage) <= Kept(a, slippage) + 1.0 - slippage
  {
    MulNonneg(a, 1.0 - slippage);
    MulNonneg(b - a, 1.0 - slippage);
    MulNonneg(a + 1.0 - b, 1.0 - slippage);
  }

  /** Rounding down, slipping and rounding down again loses less than `2 - slippage`. */
  lemma AmountLoss(output: real, slippage: real)
    requires 0.0 <= slippage <= 1.0 && output >= 0.0
    ensures var slipped := RoundDown(Kept(RoundDown(output), slippage));
            slipped <= Kept(output, slippage) < slipped + 2.0 - slippage
  {
    KeptWithin(RoundDown(output), output, slippage);
    RoundDownNonneg(Kept(RoundDown(output), slippage));
  }

  lemma RoundDownNonneg(x: real)
    requires x >= 0.0
    ensures 0.0 <= RoundDown(x) <= x < RoundDown(x) + 1.0 && IsInt(RoundDown(x))
  {
    IntRoundsToItself(0.0);
    RoundingIsMonotone(0.0, x);
  }

  lemma UnslippedLoss(output: real, slippage: real)
    requires 0.0 <= slippage <= 1.0 && output >= 0.0
    ensures Kept(output, slippage) < RoundDown(output) + 2.0 - slippage
    ensures slippage == 0.0 ==> RoundDown(output) <= Kept(output, slippage)
  {
    RoundDownNonneg(output);
    MulNonneg(output, slippage);
    assert Kept(output, slippage) == output - output * slippage;
  }

  /** One order loses less than `2 - slippage` by being rounded before and after it slips. */
  lemma SlipLoss(o: Order, slippage: real)
    requires 0.0 <= slippage <= 1.0 && o.fill.output >= 0.0
    requires o.makerAmount == RoundDown(o.fill.output) && o.makerAmount != MAX_UINT256
    ensures var slipped, kept := SlipOrder(o, slippage, Sell).makerAmount, Kept(o.fill.output, slippage);
            IsInt(slipped) && kept < slipped + 2.0 - slippage && (o.source != Native ==> slipped <= kept)
  {
    if o.source == Native || slippage == 0.0 {
      UnslippedLoss(o.fill.output, slippage);
    } else {
      AmountLoss(o.fill.output, slippage);
      assert SlipOrder(o, slippage, Sell).makerAmount == RoundDown(Kept(o.makerAmount, slippage));
    }
  }

  function MaxGap(n: nat, slippage: real): real { n as real * (2.0 - slippage) }

  /** The bound `n * (2 - slippage)`, added up one order at a time. */
  function GapBound(n: nat, slippage: real): real {
    if n == 0 then 0.0 else GapBound(n - 1, slippage) + (2.0 - slippage)
  }

  lemma {:induction false} GapBoundIsProduct(n: nat, slippage: real)
    ensures GapBound(n, slippage) == MaxGap(n, slippage)
  {
    if n > 0 {
      GapBoundIsProduct(n - 1, slippage);
      assert (n - 1) as real * (2.0 - slippage) + (2.0 - slippage) == n as real * (2.0 - slippage);
    }
  }

  function SlippedMaker(orders: seq<Order>, slippage: real): real {
    SumOf(SlipOrders(orders, slippage, Sell), MakerOf)
  }

  lemma SlippedMakerAppend(orders: seq<Order>, o: Order, slippage: real)
    ensures SlippedMaker(orders + [o], slippage)
         == SlippedMaker(orders, slippage) + SlipOrder(o, slippage, Sell).makerAmount
  {
    assert SlipOrders(orders + [o], slippage, Sell)
        == SlipOrders(orders, slippage, Sell) + [SlipOrder(o, slippage, Sell)];
    SumAppend(SlipOrders(orders, slippage, Sell), SlipOrder(o, slippage, Sell), MakerOf);
  }

  predicate NoNatives(orders: seq<Order>) { forall o <- orders :: o.source != Native }

  /** Twice-rounded amounts of all orders together. */
  lemma {:induction false} SlippedMakerIsInt(orders: seq<Order>, slippage: real)
    requires 0.0 <= slippage <= 1.0 && SellAmounts(orders) && NoUnlimited(orders)
    ensures IsInt(SlippedMaker(orders, slippage)) && SumOf(orders, OrderOutput) >= 0.0
  {
    forall o | o in SlipOrders(orders, slippage, Sell) ensures IsInt(MakerOf(o)) {
      var k :| 0 <= k < |orders| && o == SlipOrder(orders[k], slippage, Sell);
      assert orders[k] in orders;
      SlipLoss(orders[k], slippage);
    }
    SumIsInt(SlipOrders(orders, slippage, Sell), MakerOf);
    SumNonneg(orders, OrderOutput);
  }

  /** Where the kept output `kept` of `n` orders lies, given that they slip to `slipped`. */
  predicate WithinGap(kept: real, slipped: real, n: nat, slippage: real, exact: bool) {
    && (if n == 0 then kept == slipped else kept < slipped + GapBound(n, slippage))
    && (exact ==> slipped <= kept)
  }

  lemma WithinGapStep(kept: real, slipped: real, n: nat, slippage: real, exact: bool, k: real, s: real)
    requires WithinGap(kept, slipped, n, slippage, exact)
    requires k < s + 2.0 - slippage && (exact ==> s <= k)
    ensures WithinGap(kept + k, slipped + s, n + 1, slippage, exact)
  {
  }

  lemma {:induction false} SlipLosses(orders: seq<Order>, slippage: real, exact: bool)
    requires 0.0 <= slippage <= 1.0 && SellAmounts(orders) && NoUnlimited(orders) && (exact ==> NoNatives(orders))
    ensures WithinGap(Kept(SumOf(orders, OrderOutput), slippage), SlippedMaker(orders, slippage), |orders|, slippage,
                      exact)
  {
    if |orders| == 0 {
      assert SlippedMaker(orders, slippage) == 0.0 == Kept(0.0, slippage);
    } else {
      var front, o := orders[..|orders| - 1], orders[|orders| - 1];
      assert o in orders;
      SlipLosses(front, slippage, exact);
      SlipLoss(o, slippage);
      WithinGapStep(Kept(SumOf(front, OrderOutput), slippage), SlippedMaker(front, slippage), |front|, slippage,
                    exact, Kept(o.fill.output, slippage), SlipOrder(o, slippage, Sell).makerAmount);
      LossTotals(orders, slippage);
    }
  }

  lemma LossTotals(orders: seq<Order>, slippage: real)
    requires |orders| > 0
    ensures var front, o := orders[..|orders| - 1], orders[|orders| - 1];
            (SlippedMaker(orders, slippage) == SlippedMaker(front, slippage) + SlipOrder(o, slippage, Sell).makerAmount
             && Kept(SumOf(orders, OrderOutput), slippage)
             == Kept(SumOf(front, OrderOutput), slippage) + Kept(o.fill.output, slippage))
  {
    var front, o := orders[..|orders| - 1], orders[|orders| - 1];
    assert orders == front + [o];
    SlippedMakerAppend(front, o, slippage);
    KeptAdds(SumOf(front, OrderOutput), o.fill.output, slippage);
  }

  lemma KeptAdds(x: real, y: real, slippage: real)
    ensures Kept(x + y, slippage) == Kept(x, slippage) + Kept(y, slippage)
  {
  }

  /** The worst case rounds what the slippage leaves of the simulated output, which is at most what the orders hold. */
  lemma WorstSellMaker(q: Sim.QuoteFillInfo)
    requires q.side == Sell && 0.0 <= q.slippage <= 1.0
    requires Sim.AllValidOrders(q.orders) && TakesNoFees(q.orders)
    ensures var output := Sim.WaterfallOf(q).totals.output;
            && 0.0 <= output <= SumOf(q.orders, OrderOutput)
            && (SumOf(q.orders, OrderInput) <= q.fillAmount ==> output == SumOf(q.orders, OrderOutput))
            && 0.0 <= Kept(output, q.slippage) <= Kept(SumOf(q.orders, OrderOutput), q.slippage)
            && Sim.WorstCaseFill(q).makerAssetAmount == RoundDown(Kept(output, q.slippage))
  {
    WaterfallWithinOrders(q);
    var output := Sim.WaterfallOf(q).totals.output;
    KeptMono(0.0, output, q.slippage);
    KeptMono(output, SumOf(q.orders, OrderOutput), q.slippage);
    WorstIsSlipped(q);
    IntRoundsToItself(RoundDown(Kept(output, q.slippage)));
  }

  lemma WorstIsSlipped(q: Sim.QuoteFillInfo)
    requires q.side == Sell && Sim.AllValidOrders(q.orders)
    ensures Sim.WorstCaseFill(q).makerAssetAmount
         == RoundDown(RoundDown(Kept(Sim.WaterfallOf(q).totals.output, q.slippage)))
  {
    var w := Sim.WaterfallOf(q);
    var t := Sim.WorstCaseTotals(w.totals, q);
    assert t.output == RoundDown(Kept(w.totals.output, q.slippage));
    assert Sim.WorstCaseFill(q).makerAssetAmount == RoundDown(t.output);
  }

  lemma KeptMono(a: real, b: real, slippage: real)
    requires a <= b && slippage <= 1.0
    ensures Kept(a, slippage) <= Kept(b, slippage)
  {
    MulMono(a, b, 1.0 - slippage);
  }

  lemma WaterfallWithinOrders(q: Sim.QuoteFillInfo)
    requires Sim.AllValidOrders(q.orders) && TakesNoFees(q.orders)
    ensures 0.0 <= Sim.WaterfallOf(q).totals.output <= SumOf(q.orders, OrderOutput)
    ensures SumOf(q.orders, OrderInput) <= q.fillAmount ==>
              Sim.WaterfallOf(q).totals.output == SumOf(q.orders, OrderOutput)
  {
    var cs, fee := Sim.BestCaseFillOrderCalls(q.orders, q.side), q.ProtocolFeePerOrder();
    assert cs[..|cs|] == cs;
    forall c | c in cs ensures c.order in q.orders {}
    Sim.OutputWithinAll(cs, q.fillAmount, fee, q.gasSchedule, |cs|);
    SumPointwise(cs, Sim.CallOutput, q.orders, OrderOutput);
    SumNonneg(q.orders, OrderInput);
    if SumOf(q.orders, OrderInput) <= q.fillAmount { Sim.FeeFreeQuote(q); }
  }

  /**
   * What the worst case of a sell promises and what the slipped orders guarantee: the promise is larger by less
   * than `n * (2 - slippage)`. When every order is filled completely, and none is a native order (which the
   * worst case slips although the orders do not), it is never the smaller of the two.
   */
  lemma SlippageGap(p: Path, q: Sim.QuoteFillInfo)
    requires Built(p) && p.context.side == q.side == Sell && 0.0 <= q.slippage <= 1.0
    requires q.orders == SingleHopOrders(p.ordersByType) && |q.orders| > 0
    requires Sim.AllValidOrders(q.orders) && TakesNoFees(q.orders) && NoUnlimited(q.orders)
    ensures var worst, slipped := Sim.WorstCaseFill(q).makerAssetAmount, SlippedMaker(q.orders, q.slippage);
            (worst - slipped < MaxGap(|q.orders|, q.slippage)
             && (p.ordersByType.nativeOrders == [] && SumOf(q.orders, OrderInput) <= q.fillAmount ==>
                   0.0 <= worst - slipped))
  {
    SellAmountsOf(p);
    WorstSellMaker(q);
    SlippedMakerIsInt(q.orders, q.slippage);
    if p.ordersByType.nativeOrders == [] {
      OrdersComeFromFills(p.fills, p.context);
      assert q.orders == p.ordersByType.bridgeOrders;
    }
    var kept := Kept(SumOf(q.orders, OrderOutput), q.slippage);
    SlipLosses(q.orders, q.slippage, p.ordersByType.nativeOrders == []);
    GapAfterRounding(kept, SlippedMaker(q.orders, q.slippage), |q.orders|, q.slippage,
                     p.ordersByType.nativeOrders == []);
    RoundingIsMonotone(Kept(Sim.WaterfallOf(q).totals.output, q.slippage), kept);
  }

  lemma GapAfterRounding(kept: real, slipped: real, n: nat, slippage: real, exact: bool)
    requires n > 0 && WithinGap(kept, slipped, n, slippage, exact) && kept >= 0.0 && IsInt(slipped)
    ensures RoundDown(kept) - slipped < MaxGap(n, slippage)
    ensures exact ==> 0.0 <= RoundDown(kept) - slipped
  {
    GapBoundIsProduct(n, slippage);
    RoundDownNonneg(kept);
    if exact { IntsLess(slipped, RoundDown(kept)); }
  }

  lemma SellAmountsOf(p: Path)
    requires Built(p) && p.context.side == Sell && Sim.AllValidOrders(SingleHopOrders(p.ordersByType))
    ensures SellAmounts(SingleHopOrders(p.ordersByType))
  {
    OrdersComeFromFills(p.fills, p.context);
    forall o | o in SingleHopOrders(p.ordersByType) ensures o.makerAmount == RoundDown(o.fill.output) {
      assert o in p.ordersByType.nativeOrders || o in p.ordersByType.bridgeOrders;
    }
  }

  /**
   * Slipping leaves an order no more than slippage leaves of its amount, except for native orders and
   * unlimited amounts, which do not slip.
   */
  lemma OrderSlipsIff(o: Order, slippage: real)
    requires 0.0 <= slippage <= 1.0 && o.makerAmount >= 0.0
    ensures SlipOrder(o, slippage, Sell).makerAmount <= Kept(o.makerAmount, slippage)
       <==> slippage == 0.0 || o.makerAmount == 0.0 || (o.source != Native && o.makerAmount != MAX_UINT256)
  {
    var m := o.makerAmount;
    assert Kept(m, slippage) == m - m * slippage;
    if slippage > 0.0 && m > 0.0 { assert m * slippage > 0.0; }
    if o.source != Native && m != MAX_UINT256 && slippage != 0.0 {
      MulNonneg(m, 1.0 - slippage);
      RoundDownNonneg(Kept(m, slippage));
    }
  }
}
