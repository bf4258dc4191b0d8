/** What the best and the worst case of a quote report, field by field, in terms of the orders. */
module FillResults {
  import opened Numbers
  import opened MarketTypes
  import opened NativeAmounts
  import Sim = QuoteSimulation

  // ----- What an order costs and holds -----

  function GasOf(gas: GasSchedule): Order -> real { (o: Order) => gas(o.source, o.data) }

  /** The protocol fee of one limit order. */
  function FeePerOrder(q: Sim.QuoteFillInfo): real { q.gasPrice * q.protocolFeeMultiplier }

  predicate IsLimitOrder(o: Order) { o.data.NativeData? && o.data.kind == Limit }

  function LimitFee(fee: real): Order -> real { (o: Order) => if IsLimitOrder(o) then fee else 0.0 }

  /** The taker fee of a limit order for its taker amount, in whole tokens. */
  function TakerFee(o: Order): real
    requires Sim.ValidOrder(o)
  {
    if IsLimitOrder(o)
    then Floor(InProportion(o.takerAmount, o.data.order.takerTokenFeeAmount, o.data.order.takerAmount)) else 0.0
  }

  /** What goes with a part of a whole that goes with `amount`. */
  function InProportion(part: real, amount: real, whole: real): real
    requires whole != 0.0
  {
    part * amount / whole
  }

  /** The part of an order's taker fee that goes with a part of its taker amount. */
  function FeeOn(o: Order, taker: real): real
    requires Sim.ValidOrder(o)
  {
    taker / o.takerAmount * TakerFee(o)
  }

  /** What an order takes from the input of the quote: a sell pays taker fees in the input token. */
  function Held(side: Side): Order -> real {
    (o: Order) =>
      if !Sim.ValidOrder(o) then 0.0
      else o.fill.input + if side == Sell then FeeOn(o, o.fill.input) else 0.0
  }

  function InputFee(side: Side): Order -> real {
    (o: Order) => if side == Sell && Sim.ValidOrder(o) then FeeOn(o, o.fill.input) else 0.0
  }

  function OutputFee(side: Side): Order -> real {
    (o: Order) => if side == Buy && Sim.ValidOrder(o) then FeeOn(o, o.fill.output) else 0.0
  }

  /** Each of the first `n` orders finds some input left by those before it. */
  predicate HitsAll(q: Sim.QuoteFillInfo, n: nat)
    requires n <= |q.orders|
  {
    forall k :: 0 <= k < n ==> SumOf(q.orders[..k], Held(q.side)) < q.fillAmount
  }

  /** The first `n` orders are hit: each of them finds some input left by the earlier ones, and no other does. */
  predicate Hits(q: Sim.QuoteFillInfo, n: nat) {
    && n <= |q.orders| && HitsAll(q, n)
    && (n < |q.orders| ==> SumOf(q.orders[..n], Held(q.side)) >= q.fillAmount)
  }

  /** Some number of orders is hit. */
  lemma SomeAreHit(q: Sim.QuoteFillInfo) returns (n: nat)
    ensures Hits(q, n)
  {
    hide Held;
    n := 0;
    while n < |q.orders| && SumOf(q.orders[..n], Held(q.side)) < q.fillAmount
      invariant n <= |q.orders| && HitsAll(q, n)
    {
      n := n + 1;
    }
  }

  lemma CallOf(o: Order, side: Side)
    requires Sim.ValidOrder(o)
    ensures var c := Sim.ToFillCall(o, side);
            && Sim.ValidCall(c) && c.order == o
            && Sim.Capacity(c) == Held(side)(o) > 0.0
            && c.order.fill.input / c.totalInput * c.totalInputFee == InputFee(side)(o)
            && c.order.fill.output / c.totalOutput * c.totalOutputFee == OutputFee(side)(o)
  {
    hide FeeOn, TakerFee, Sim.OrderTakerFee, Sim.Capacity;
    var c := Sim.ToFillCall(o, side);
    Sim.TakerFeeNonneg(o);
    SameTakerFee(o);
    FeeOnIs(o, c.order.fill.input);
    FeeOnIs(o, c.order.fill.output);
    NoFee(c.order.fill.input, c.totalInput);
    NoFee(c.order.fill.output, c.totalOutput);
    Sim.CapacityNonneg(c);
  }

  lemma SameTakerFee(o: Order)
    requires Sim.ValidOrder(o)
    ensures TakerFee(o) == Sim.OrderTakerFee(o)
  {
    hide Floor, Scale, InProportion;
    if IsLimitOrder(o) {
      var order := o.data.order;
      ScaleIsProportion(o.takerAmount, order.takerTokenFeeAmount, order.takerAmount);
    }
  }

  lemma ScaleIsProportion(x: real, a: real, b: real)
    requires b != 0.0
    ensures Scale(x, a, b) == InProportion(x, a, b)
  {
  }

  lemma FeeOnIs(o: Order, taker: real)
    requires Sim.ValidOrder(o)
    ensures FeeOn(o, taker) == taker / o.takerAmount * TakerFee(o)
  {
  }

  lemma NoFee(part: real, whole: real)
    requires whole > 0.0
    ensures part / whole * 0.0 == 0.0
  {
  }

  lemma {:induction false} LevelIsHeld(q: Sim.QuoteFillInfo, n: nat)
    requires Sim.AllValidOrders(q.orders) && n <= |q.orders|
    ensures Sim.Level(Sim.BestCaseFillOrderCalls(q.orders, q.side), n) == SumOf(q.orders[..n], Held(q.side))
  {
    hide Sim.Capacity, Held;
    if n > 0 {
      LevelIsHeld(q, n - 1);
      assert q.orders[..n][..n - 1] == q.orders[..n - 1];
      assert q.orders[n - 1] in q.orders;
      CallOf(q.orders[n - 1], q.side);
    }
  }

  // ----- Gas and protocol fee -----

  lemma PrefixSum(orders: seq<Order>, n: nat, f: Order -> real)
    requires 0 < n <= |orders|
    ensures SumOf(orders[..n], f) == SumOf(orders[..n - 1], f) + f(orders[n - 1])
  {
    assert orders[..n][..n - 1] == orders[..n - 1];
  }

  /** The hit orders contribute their gas and protocol fees, whatever part of them is filled. */
  lemma {:induction false} HitCosts(q: Sim.QuoteFillInfo, fee: real, n: nat)
    requires Sim.AllValidOrders(q.orders) && n <= |q.orders| && HitsAll(q, n)
    ensures var xs := Sim.Contributions(Sim.BestCaseFillOrderCalls(q.orders, q.side), q.fillAmount, fee,
                                        q.gasSchedule, n);
            SumOf(xs, Sim.ShareGas) == SumOf(q.orders[..n], GasOf(q.gasSchedule))
            && SumOf(xs, Sim.ShareProtocolFee) == SumOf(q.orders[..n], LimitFee(fee))
  {
    if n > 0 {
      assert HitsAll(q, n - 1) && SumOf(q.orders[..n - 1], Held(q.side)) < q.fillAmount;
      HitCosts(q, fee, n - 1);
      HitStep(q, fee, n);
      hide Held, Sim.Contributions, Sim.Level, Sim.ToFillCall, GasOf, LimitFee, SumOf, HitsAll;
      PrefixSum(q.orders, n, GasOf(q.gasSchedule));
      PrefixSum(q.orders, n, LimitFee(fee));
    }
  }

  lemma HitStep(q: Sim.QuoteFillInfo, fee: real, n: nat)
    requires Sim.AllValidOrders(q.orders) && 0 < n <= |q.orders|
    requires SumOf(q.orders[..n - 1], Held(q.side)) < q.fillAmount
    ensures var cs, o := Sim.BestCaseFillOrderCalls(q.orders, q.side), q.orders[n - 1];
            var xs, ys := Sim.Contributions(cs, q.fillAmount, fee, q.gasSchedule, n - 1),
                          Sim.Contributions(cs, q.fillAmount, fee, q.gasSchedule, n);
            && SumOf(ys, Sim.ShareGas) == SumOf(xs, Sim.ShareGas) + GasOf(q.gasSchedule)(o)
            && SumOf(ys, Sim.ShareProtocolFee) == SumOf(xs, Sim.ShareProtocolFee) + LimitFee(fee)(o)
  {
    hide Held, Sim.Contributions, Sim.Level, Sim.ToFillCall, GasOf, LimitFee, SumOf;
    LevelIsHeld(q, n - 1);
    CallOfOrder(q, n - 1);
    Sim.ReachedCostStep(Sim.BestCaseFillOrderCalls(q.orders, q.side), q.fillAmount, fee, q.gasSchedule, n);
    CostsOf(q.orders[n - 1], q.gasSchedule, fee);
  }

  lemma CostsOf(o: Order, gas: GasSchedule, fee: real)
    ensures GasOf(gas)(o) == gas(o.source, o.data)
    ensures LimitFee(fee)(o) == if Sim.HasProtocolFee(o) then fee else 0.0
  {
  }

  lemma CallOfOrder(q: Sim.QuoteFillInfo, k: nat)
    requires Sim.AllValidOrders(q.orders) && k < |q.orders|
    ensures Sim.BestCaseFillOrderCalls(q.orders, q.side)[k].order == q.orders[k]
  {
  }

  /** No order is reached after the last one that is hit. */
  lemma OnlyHitsCount(q: Sim.QuoteFillInfo, fee: real, n: nat)
    requires Sim.AllValidOrders(q.orders) && Hits(q, n)
    ensures var cs := Sim.BestCaseFillOrderCalls(q.orders, q.side);
            Sim.Contributions(cs, q.fillAmount, fee, q.gasSchedule, |cs|)
            == Sim.Contributions(cs, q.fillAmount, fee, q.gasSchedule, n)
  {
    hide Held, Sim.Contributions;
    if n < |q.orders| {
      LevelIsHeld(q, n);
      Sim.DryFrom(Sim.BestCaseFillOrderCalls(q.orders, q.side), q.fillAmount, fee, q.gasSchedule, n, |q.orders|);
    }
  }

  /** The best case reports the gas and the protocol fees of the orders it hits, rounded up. */
  lemma BestCaseCosts(q: Sim.QuoteFillInfo, n: nat)
    requires Sim.AllValidOrders(q.orders) && Hits(q, n)
    ensures Sim.BestCaseFill(q).gas == Ceil(SumOf(q.orders[..n], GasOf(q.gasSchedule)))
    ensures Sim.BestCaseFill(q).protocolFeeAmount
         == RoundUp(SumOf(q.orders[..n], LimitFee(FeePerOrder(q))))
  {
    hide Sim.Contributions, Held;
    assert q.ProtocolFeePerOrder() == FeePerOrder(q);
    hide FeePerOrder;
    HitCosts(q, q.ProtocolFeePerOrder(), n);
    OnlyHitsCount(q, q.ProtocolFeePerOrder(), n);
  }

  function LimitPositions(orders: seq<Order>): set<nat> {
    set k | 0 <= k < |orders| && IsLimitOrder(orders[k])
  }

  lemma {:induction false} AllGas(orders: seq<Order>, gas: GasSchedule)
    ensures Sim.TotalGas(orders, gas) == SumOf(orders, GasOf(gas))
  {
    if |orders| > 0 { AllGas(orders[..|orders| - 1], gas); }
  }

  lemma {:induction false} LimitCount(orders: seq<Order>)
    ensures Sim.CountProtocolFees(orders) == |LimitPositions(orders)|
  {
    if |orders| > 0 {
      var n := |orders| - 1;
      LimitCount(orders[..n]);
      assert LimitPositions(orders) == LimitPositions(orders[..n]) + (if IsLimitOrder(orders[n]) then {n} else {});
    } else {
      assert LimitPositions(orders) == {};
    }
  }

  /** The worst case reports the gas of all orders and the protocol fee of each limit order, rounded up. */
  lemma WorstCaseCosts(q: Sim.QuoteFillInfo)
    requires Sim.AllValidOrders(q.orders)
    ensures Sim.WorstCaseFill(q).gas == Ceil(SumOf(q.orders, GasOf(q.gasSchedule)))
    ensures Sim.WorstCaseFill(q).protocolFeeAmount
         == RoundUp(FeePerOrder(q) * |LimitPositions(q.orders)| as real)
  {
    hide Sim.WaterfallOf, Sim.TotalGas, Sim.CountProtocolFees, LimitPositions;
    AllGas(q.orders, q.gasSchedule);
    LimitCount(q.orders);
    assert Sim.WorstCaseProtocolFee(q) == FeePerOrder(q) * |LimitPositions(q.orders)| as real;
    WorstReportsCosts(q);
  }

  lemma WorstReportsCosts(q: Sim.QuoteFillInfo)
    requires Sim.AllValidOrders(q.orders)
    ensures Sim.WorstCaseFill(q).gas == Ceil(Sim.TotalGas(q.orders, q.gasSchedule))
    ensures Sim.WorstCaseFill(q).protocolFeeAmount == RoundUp(Sim.WorstCaseProtocolFee(q))
  {
    hide Sim.WaterfallOf, Sim.TotalGas, Sim.WorstCaseProtocolFee;
    var w := Sim.WaterfallOf(q);
    var t := Sim.WorstCaseTotals(w.totals, q);
    assert t.gas == Sim.TotalGas(q.orders, q.gasSchedule) && t.protocolFee == Sim.WorstCaseProtocolFee(q);
  }

  // ----- Amounts -----

  /** When the request covers what the orders hold, fees included, each is filled whole. */
  lemma {:induction false} CoveredTotals(q: Sim.QuoteFillInfo, fee: real, n: nat)
    requires Sim.AllValidOrders(q.orders) && n <= |q.orders|
    requires SumOf(q.orders[..n], Held(q.side)) <= q.fillAmount
    ensures var t := Sim.SumTotals(Sim.Contributions(Sim.BestCaseFillOrderCalls(q.orders, q.side), q.fillAmount, fee,
                                                     q.gasSchedule, n));
            && t.input == SumOf(q.orders[..n], OrderInput) && t.output == SumOf(q.orders[..n], OrderOutput)
            && t.inputFee == SumOf(q.orders[..n], InputFee(q.side))
            && t.outputFee == SumOf(q.orders[..n], OutputFee(q.side))
  {
    if n > 0 {
      hide Held, Sim.Contributions, InputFee, OutputFee;
      assert q.orders[n - 1] in q.orders && q.orders[..n][..n - 1] == q.orders[..n - 1];
      CallOf(q.orders[n - 1], q.side);
      CoveredTotals(q, fee, n - 1);
      CoveredStep(q, fee, n);
    }
  }

  lemma CoveredStep(q: Sim.QuoteFillInfo, fee: real, n: nat)
    requires Sim.AllValidOrders(q.orders) && 0 < n <= |q.orders|
    requires SumOf(q.orders[..n], Held(q.side)) <= q.fillAmount
    ensures var cs, o := Sim.BestCaseFillOrderCalls(q.orders, q.side), q.orders[n - 1];
            Sim.SumTotals(Sim.Contributions(cs, q.fillAmount, fee, q.gasSchedule, n))
            == Sim.Add(Sim.SumTotals(Sim.Contributions(cs, q.fillAmount, fee, q.gasSchedule, n - 1)),
                       Sim.Totals(o.fill.input, o.fill.output, InputFee(q.side)(o), OutputFee(q.side)(o),
                                  if Sim.HasProtocolFee(o) then fee else 0.0, q.gasSchedule(o.source, o.data)))
  {
    var share := LastShare(q, fee, n);
    hide Held, Sim.Contributions, Sim.BestCaseFillOrderCalls;
    var cs := Sim.BestCaseFillOrderCalls(q.orders, q.side);
    Sim.CollectStep(Sim.Contributions(cs, q.fillAmount, fee, q.gasSchedule, n - 1),
                    Sim.Contribution(q.orders[n - 1].source, share));
  }

  /** What the last of the covered orders contributes: all of it. */
  lemma LastShare(q: Sim.QuoteFillInfo, fee: real, n: nat) returns (share: Sim.Totals)
    requires Sim.AllValidOrders(q.orders) && 0 < n <= |q.orders|
    requires SumOf(q.orders[..n], Held(q.side)) <= q.fillAmount
    ensures SumOf(q.orders[..n - 1], Held(q.side)) <= q.fillAmount
    ensures var o := q.orders[n - 1];
            share == Sim.Totals(o.fill.input, o.fill.output, InputFee(q.side)(o), OutputFee(q.side)(o),
                                if Sim.HasProtocolFee(o) then fee else 0.0, q.gasSchedule(o.source, o.data))
    ensures var cs := Sim.BestCaseFillOrderCalls(q.orders, q.side);
            Sim.Contributions(cs, q.fillAmount, fee, q.gasSchedule, n)
            == Sim.Contributions(cs, q.fillAmount, fee, q.gasSchedule, n - 1)
               + [Sim.Contribution(q.orders[n - 1].source, share)]
  {
    hide Sim.Capacity, Sim.ToFillCall, Sim.Share, Held, InputFee, OutputFee;
    var cs, o := Sim.BestCaseFillOrderCalls(q.orders, q.side), q.orders[n - 1];
    assert o in q.orders;
    CallOf(o, q.side);
    PrefixSum(q.orders, n, Held(q.side));
    LevelIsHeld(q, n - 1);
    share := Sim.Share(cs[n - 1], q.fillAmount - Sim.Level(cs, n - 1), fee, q.gasSchedule);
    WholeShare(cs[n - 1], q.fillAmount - Sim.Level(cs, n - 1), fee, q.gasSchedule);
  }

  lemma WholeShare(c: Sim.FillCall, left: real, protocolFee: real, gas: GasSchedule)
    requires Sim.ValidCall(c) && 0.0 < left && Sim.Capacity(c) <= left
    ensures var s := Sim.Share(c, left, protocolFee, gas);
            && s.input == c.order.fill.input && s.output == c.order.fill.output
            && s.inputFee == c.order.fill.input / c.totalInput * c.totalInputFee
            && s.outputFee == c.order.fill.output / c.totalOutput * c.totalOutputFee
            && s.protocolFee == (if Sim.HasProtocolFee(c.order) then protocolFee else 0.0)
            && s.gas == gas(c.order.source, c.order.data)
  {
    hide Sim.Capacity;
  }

  /** The amounts reported for an input, an output and their fees: each side is rounded against the taker. */
  predicate ReportsAmounts(
    r: Sim.QuoteFillResult, side: Side, input: real, output: real, inputFee: real, outputFee: real)
  {
    if side == Sell then
      && r.takerAssetAmount == RoundUp(input) && r.makerAssetAmount == RoundDown(output)
      && r.takerFeeTakerAssetAmount == RoundUp(inputFee) && r.takerFeeMakerAssetAmount == RoundDown(outputFee)
      && r.totalTakerAssetAmount == RoundUp(input) + RoundUp(inputFee)
      && r.totalMakerAssetAmount == RoundDown(output) + RoundDown(outputFee)
    else
      && r.makerAssetAmount == RoundDown(input) && r.takerAssetAmount == RoundUp(output)
      && r.takerFeeMakerAssetAmount == RoundDown(inputFee) && r.takerFeeTakerAssetAmount == RoundUp(outputFee)
      && r.totalMakerAssetAmount == RoundDown(input) + RoundDown(inputFee)
      && r.totalTakerAssetAmount == RoundUp(output) + RoundUp(outputFee)
  }

  lemma CoveredWaterfall(q: Sim.QuoteFillInfo)
    requires Sim.AllValidOrders(q.orders) && SumOf(q.orders, Held(q.side)) <= q.fillAmount
    ensures var t := Sim.WaterfallOf(q).totals;
            && t.input == SumOf(q.orders, OrderInput) && t.output == SumOf(q.orders, OrderOutput)
            && t.inputFee == SumOf(q.orders, InputFee(q.side)) && t.outputFee == SumOf(q.orders, OutputFee(q.side))
  {
    hide Held, InputFee, OutputFee, Sim.Contributions;
    assert q.orders[..|q.orders|] == q.orders;
    CoveredTotals(q, q.ProtocolFeePerOrder(), |q.orders|);
  }

  /** A quote that covers its orders, fees included, reports their sums. */
  lemma CoveredAmounts(q: Sim.QuoteFillInfo)
    requires Sim.AllValidOrders(q.orders) && SumOf(q.orders, Held(q.side)) <= q.fillAmount
    ensures ReportsAmounts(Sim.BestCaseFill(q), q.side, SumOf(q.orders, OrderInput), SumOf(q.orders, OrderOutput),
                           SumOf(q.orders, InputFee(q.side)), SumOf(q.orders, OutputFee(q.side)))
  {
    hide Held, InputFee, OutputFee, Sim.WaterfallOf;
    CoveredWaterfall(q);
  }

  /** The worst case of such a quote reports the same, but for an output that has slipped. */
  lemma CoveredWorstAmounts(q: Sim.QuoteFillInfo)
    requires Sim.AllValidOrders(q.orders) && SumOf(q.orders, Held(q.side)) <= q.fillAmount
    ensures var output := SumOf(q.orders, OrderOutput);
            var slipped := if q.side == Sell then RoundDown(Less(output, q.slippage))
                           else RoundUp(More(output, q.slippage));
            ReportsAmounts(Sim.WorstCaseFill(q), q.side, SumOf(q.orders, OrderInput), slipped,
                           SumOf(q.orders, InputFee(q.side)), SumOf(q.orders, OutputFee(q.side)))
  {
    hide Held, InputFee, OutputFee, Sim.WaterfallOf, Sim.WorstCaseFill, Sim.SlippedOutput, ReportsAmounts, Less, More;
    CoveredWaterfall(q);
    WorstReportsAmounts(q);
    SlippedOutputIs(SumOf(q.orders, OrderOutput), q.side, q.slippage);
  }

  /** An amount less, or more, a part of it. */
  function Less(amount: real, part: real): real { amount - amount * part }

  function More(amount: real, part: real): real { amount + amount * part }

  lemma SlippedOutputIs(output: real, side: Side, slippage: real)
    ensures Sim.SlippedOutput(output, side, slippage)
         == if side == Sell then RoundDown(Less(output, slippage)) else RoundUp(More(output, slippage))
  {
    assert output * (1.0 - slippage) == output - output * slippage;
    assert output * (1.0 + slippage) == output + output * slippage;
  }

  lemma WorstReportsAmounts(q: Sim.QuoteFillInfo)
    requires Sim.AllValidOrders(q.orders)
    ensures var t := Sim.WaterfallOf(q).totals;
            ReportsAmounts(Sim.WorstCaseFill(q), q.side, t.input, Sim.SlippedOutput(t.output, q.side, q.slippage),
                           t.inputFee, t.outputFee)
  {
    hide Sim.WaterfallOf, Sim.TotalGas, Sim.WorstCaseProtocolFee, Sim.SlippedOutput;
    var w := Sim.WaterfallOf(q);
    var t := Sim.WorstCaseTotals(w.totals, q);
    assert t.input == w.totals.input && t.inputFee == w.totals.inputFee && t.outputFee == w.totals.outputFee;
  }

  /** Any quote takes the request, or all its orders hold with their fees, before the two parts are rounded. */
  lemma InputWithFees(q: Sim.QuoteFillInfo)
    requires Sim.AllValidOrders(q.orders) && q.fillAmount >= 0.0
    ensures var t := Sim.WaterfallOf(q).totals;
            && t.input + t.inputFee == Min(q.fillAmount, SumOf(q.orders, Held(q.side)))
            && ReportsAmounts(Sim.BestCaseFill(q), q.side, t.input, t.output, t.inputFee, t.outputFee)
  {
    hide Held, Sim.Contributions;
    var cs, n := Sim.BestCaseFillOrderCalls(q.orders, q.side), |q.orders|;
    assert q.orders[..n] == q.orders;
    LevelIsHeld(q, n);
    Sim.LevelMonotone(cs, 0, n);
    Sim.WaterfallConsumes(cs, q.fillAmount, q.ProtocolFeePerOrder(), q.gasSchedule, n);
  }

  // ----- Inputs by source -----

  function InputFrom(s: Source): Order -> real { (o: Order) => if o.source == s then o.fill.input else 0.0 }

  function SourcesOf(orders: seq<Order>): set<Source> { set o | o in orders :: o.source }

  lemma {:induction false} CoveredSources(q: Sim.QuoteFillInfo, fee: real, n: nat, s: Source)
    requires Sim.AllValidOrders(q.orders) && n <= |q.orders|
    requires SumOf(q.orders[..n], Held(q.side)) <= q.fillAmount
    ensures var xs := Sim.Contributions(Sim.BestCaseFillOrderCalls(q.orders, q.side), q.fillAmount, fee, q.gasSchedule,
                                        n);
            && Sim.GroupBySource(xs).Keys == SourcesOf(q.orders[..n])
            && Sim.SourceInput(xs, s) == SumOf(q.orders[..n], InputFrom(s))
  {
    if n == 0 {
      assert SourcesOf(q.orders[..n]) == {};
    } else {
      hide Held, Sim.Contributions, InputFrom, SourcesOf, SumOf, Sim.GroupBySource, Sim.SourceInput;
      CoveredSourceStep(q, fee, n, s);
      CoveredSources(q, fee, n - 1, s);
      PrefixSum(q.orders, n, InputFrom(s));
      PrefixSources(q.orders, n);
    }
  }

  lemma PrefixSources(orders: seq<Order>, n: nat)
    requires 0 < n <= |orders|
    ensures SourcesOf(orders[..n]) == SourcesOf(orders[..n - 1]) + {orders[n - 1].source}
  {
    assert orders[..n] == orders[..n - 1] + [orders[n - 1]];
  }

  lemma CoveredSourceStep(q: Sim.QuoteFillInfo, fee: real, n: nat, s: Source)
    requires Sim.AllValidOrders(q.orders) && 0 < n <= |q.orders|
    requires SumOf(q.orders[..n], Held(q.side)) <= q.fillAmount
    ensures SumOf(q.orders[..n - 1], Held(q.side)) <= q.fillAmount
    ensures var cs, o := Sim.BestCaseFillOrderCalls(q.orders, q.side), q.orders[n - 1];
            var xs, ys := Sim.Contributions(cs, q.fillAmount, fee, q.gasSchedule, n - 1),
                          Sim.Contributions(cs, q.fillAmount, fee, q.gasSchedule, n);
            && Sim.GroupBySource(ys).Keys == Sim.GroupBySource(xs).Keys + {o.source}
            && Sim.SourceInput(ys, s) == Sim.SourceInput(xs, s) + InputFrom(s)(o)
  {
    var cs, o := Sim.BestCaseFillOrderCalls(q.orders, q.side), q.orders[n - 1];
    var share := LastShare(q, fee, n);
    hide Held, Sim.Contributions, InputFrom, Sim.BestCaseFillOrderCalls, Sim.GroupBySource, Sim.SourceInput;
    var xs := Sim.Contributions(cs, q.fillAmount, fee, q.gasSchedule, n - 1);
    Sim.CollectStep(xs, Sim.Contribution(o.source, share));
    SourceAppend(xs, Sim.Contribution(o.source, share), s);
    InputFromIs(o, s);
  }

  lemma InputFromIs(o: Order, s: Source)
    ensures InputFrom(s)(o) == if o.source == s then o.fill.input else 0.0
  {
  }

  lemma SourceAppend(xs: seq<Sim.Contribution>, x: Sim.Contribution, s: Source)
    ensures Sim.SourceInput(xs + [x], s) == Sim.SourceInput(xs, s) + if x.source == s then x.share.input else 0.0
  {
    assert (xs + [x])[..|xs|] == xs;
  }

  /** A covered quote reports, for each source of its orders, their inputs together, rounded against the taker. */
  lemma CoveredBySource(q: Sim.QuoteFillInfo)
    requires Sim.AllValidOrders(q.orders) && SumOf(q.orders, Held(q.side)) <= q.fillAmount
    ensures var bySource := Sim.BestCaseFill(q).fillAmountBySource;
            && bySource.Keys == SourcesOf(q.orders)
            && forall s <- bySource ::
                 bySource[s] == if q.side == Sell then RoundUp(SumOf(q.orders, InputFrom(s)))
                                else RoundDown(SumOf(q.orders, InputFrom(s)))
  {
    hide Held, Sim.Contributions, InputFrom;
    assert q.orders[..|q.orders|] == q.orders;
    forall s { CoveredSources(q, q.ProtocolFeePerOrder(), |q.orders|, s); }
  }
}
