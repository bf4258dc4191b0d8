/** Encoding a quote as multiplex subcalls, and the fill amounts of a pure RFQ quote. */
module Multiplex {
  import opened Numbers
  import opened MarketTypes
  import opened Orders
  import opened Path
  import opened FqtData
  import opened QuoteConsumer
  import Sim = QuoteSimulation

  datatype Subcall =
    | RfqCall(sellAmount: real, order: NativeInfo)
    | OtcCall(sellAmount: real, order: NativeInfo)
    | UniswapV2Call(sellAmount: real, data: FillData, isSushi: bool)
    | UniswapV3Call(sellAmount: real, data: FillData)
    | TransformCall(sellAmount: real, fqt: FqtData)

  function SellAmountOf(c: Subcall): real { c.sellAmount }

  /** A native order other than an RFQ or OTC order has no encoding. */
  predicate Unsupported(o: Order) { o.source == Native && o.Type() != Rfq && o.Type() != Otc }

  /** Orders that become a subcall of their own. */
  predicate Direct(o: Order) { IsMultiplexBatchSource(o.source) && !Unsupported(o) }

  function DirectCall(o: Order): Subcall
    requires Direct(o)
  {
    match o.source
    case Native =>
      if o.Type() == Rfq then RfqCall(o.takerAmount, NativeInfoOf(o)) else OtcCall(o.takerAmount, NativeInfoOf(o))
    case UniswapV3 => UniswapV3Call(o.takerAmount, o.data)
    case _ => UniswapV2Call(o.takerAmount, o.data, o.source == SushiSwap)
  }

  /** The number of leading orders that become subcalls of their own. */
  function DirectPrefix(orders: seq<Order>): (n: nat)
    ensures n <= |orders| && (forall k :: 0 <= k < n ==> Direct(orders[k])) && (n < |orders| ==> !Direct(orders[n]))
  {
    if |orders| == 0 || !Direct(orders[0]) then 0 else 1 + DirectPrefix(orders[1..])
  }

  /** Encoding fails at an unsupported native order that no fallback has swallowed before. */
  predicate BatchFails(orders: seq<Order>) {
    var n := DirectPrefix(orders);
    n < |orders| && Unsupported(orders[n])
  }

  function DirectCalls(orders: seq<Order>, n: nat): seq<Subcall>
    requires n <= DirectPrefix(orders)
  {
    seq(n, i requires 0 <= i < n => DirectCall(orders[i]))
  }

  /** The one subcall that fills the orders left for the fallback. */
  function FallbackCalls(rest: seq<Order>): seq<Subcall> {
    if |rest| > 0 then [TransformCall(SumOf(rest, TakerOf), Lowered(rest))] else []
  }

  /** The subcalls `EncodeBatchFill` returns when it does not fail. */
  function BatchSubcalls(orders: seq<Order>): seq<Subcall> {
    DirectCalls(orders, DirectPrefix(orders)) + FallbackCalls(orders[DirectPrefix(orders)..])
  }

  method EncodeBatchFill(slippedOrders: seq<Order>) returns (r: Result<seq<Subcall>>)
    ensures r.Err? <==> BatchFails(slippedOrders)
    ensures r.Ok? ==> r.value == BatchSubcalls(slippedOrders)
  {
    var subcalls: seq<Subcall> := [];
    ghost var n := DirectPrefix(slippedOrders);
    for i := 0 to |slippedOrders|
      invariant i <= n && |subcalls| == i
      invariant forall k :: 0 <= k < i ==> subcalls[k] == DirectCall(slippedOrders[k])
    {
      var order := slippedOrders[i];
      match order.source {
        case Native =>
          if order.Type() != Rfq && order.Type() != Otc {
            return Err(UnsupportedBatchOrder);
          }
          if order.Type() != Otc {
            subcalls := subcalls + [RfqCall(order.takerAmount, NativeInfoOf(order))];
          } else {
            subcalls := subcalls + [OtcCall(order.takerAmount, NativeInfoOf(order))];
          }
        case UniswapV2 =>
          subcalls := subcalls + [UniswapV2Call(order.takerAmount, order.data, false)];
        case SushiSwap =>
          subcalls := subcalls + [UniswapV2Call(order.takerAmount, order.data, true)];
        case UniswapV3 =>
          subcalls := subcalls + [UniswapV3Call(order.takerAmount, order.data)];
        case _ =>
          var fqt := GetFqtDataFromOrders(slippedOrders[i..]);
          subcalls := subcalls + [TransformCall(SumOf(slippedOrders[i..], TakerOf), fqt)];
          return Ok(subcalls);
      }
    }
    return Ok(subcalls);
  }

  /** The orders a subcall fills, as the contract will see them. */
  function SubcallLegs(c: Subcall): Option<seq<Leg>> {
    match c
    case RfqCall(_, order) => Some([RfqLeg(order)])
    case OtcCall(_, order) => Some([OtcLeg(order)])
    case TransformCall(_, fqt) => Replay(fqt)
    case _ => None
  }

  /** Nothing is sold twice or left out: the subcalls sell exactly what the orders take. */
  lemma BatchSellsWhatOrdersTake(orders: seq<Order>)
    ensures SumOf(BatchSubcalls(orders), SellAmountOf) == SumOf(orders, TakerOf)
  {
    hide DirectPrefix, DirectCalls, FallbackCalls;
    var n := DirectPrefix(orders);
    DirectCallsSell(orders, n);
    FallbackSells(orders[n..]);
    SumConcat(DirectCalls(orders, n), FallbackCalls(orders[n..]), SellAmountOf);
    SumConcat(orders[..n], orders[n..], TakerOf);
    assert orders == orders[..n] + orders[n..];
  }

  lemma FallbackSells(rest: seq<Order>)
    ensures SumOf(FallbackCalls(rest), SellAmountOf) == SumOf(rest, TakerOf)
  {
    hide Lowered;
    if |rest| > 0 {
      var call := TransformCall(SumOf(rest, TakerOf), Lowered(rest));
      SumAppend([], call, SellAmountOf);
      assert [] + [call] == [call];
    }
  }

  lemma DirectCallsSell(orders: seq<Order>, n: nat)
    requires n <= DirectPrefix(orders)
    ensures SumOf(DirectCalls(orders, n), SellAmountOf) == SumOf(orders[..n], TakerOf)
  {
    SumPointwise(DirectCalls(orders, n), SellAmountOf, orders[..n], TakerOf);
  }

  /** The fallback carries every order not encoded directly, in order. */
  lemma FallbackCarriesTheRest(orders: seq<Order>)
    requires DirectPrefix(orders) < |orders|
    ensures var n, calls := DirectPrefix(orders), BatchSubcalls(orders);
            |calls| == n + 1 && SubcallLegs(calls[n]) == Some(Legs(orders[n..]))
  {
    ReplayReconstructs(orders[DirectPrefix(orders)..]);
  }

  lemma {:induction false} AllDirect(orders: seq<Order>)
    requires forall o <- orders :: Direct(o)
    ensures DirectPrefix(orders) == |orders|
  {
    assert forall k :: 0 <= k < |orders| ==> orders[k] in orders;
  }

  /** Slipping keeps what the encoders look at. */
  lemma SlipKeepsEncoding(orders: seq<Order>, slippage: real, side: Side)
    requires forall o <- orders :: Direct(o)
    ensures forall o <- SlipOrders(orders, slippage, side) :: Direct(o)
  {
    forall o | o in SlipOrders(orders, slippage, side) ensures Direct(o) {
      var k :| 0 <= k < |orders| && o == SlipOrder(orders[k], slippage, side);
      assert orders[k] in orders;
    }
  }

  /**
   * A quote that passes the compatibility test is encoded with one subcall per order, in order; neither the
   * failure nor the fallback is reached.
   */
  lemma CompatibleBatchIsDirect(quote: SwapQuote, opts: ConsumerOpts)
    requires Built(quote.path) && FlagsMatch(quote.path.fills) && IsMultiplexBatchFillCompatible(quote, opts)
    ensures var orders := SlipOrders(quote.path.GetOrders(), quote.MaxSlippage(), quote.path.context.side);
            DirectPrefix(orders) == |orders| == |BatchSubcalls(orders)|
            && forall k :: 0 <= k < |orders| ==> BatchSubcalls(orders)[k] == DirectCall(orders[k])
  {
    var p := quote.path;
    HasTwoHopIff(p);
    OrdersComeFromFills(p.fills, p.context);
    assert FlattenTwoHops(p.ordersByType.twoHopOrders) == [];
    forall o | o in p.GetOrders() ensures Direct(o) {
      assert o in p.ordersByType.nativeOrders || o in p.ordersByType.bridgeOrders;
    }
    SlipKeepsEncoding(p.GetOrders(), quote.MaxSlippage(), p.context.side);
    AllDirect(SlipOrders(p.GetOrders(), quote.MaxSlippage(), p.context.side));
  }

  // ----- Multi-hop -----

  datatype HopCall = HopV2(data: FillData, isSushi: bool) | HopV3(data: FillData)

  datatype MultiHopCall = MultiHopCall(tokens: seq<Address>, calls: seq<HopCall>)

  function HopCallOf(o: Order): HopCall
    requires IsMultiplexHopSource(o.source)
  {
    if o.source == UniswapV3 then HopV3(o.data) else HopV2(o.data, o.source == SushiSwap)
  }

  predicate SingleTwoHop(orders: OrdersByType) {
    |orders.nativeOrders| == 0 && |orders.bridgeOrders| == 0 && |orders.twoHopOrders| == 1
  }

  method EncodeMultiHopFill(orders: OrdersByType, takerToken: Address, makerToken: Address)
    returns (r: Result<MultiHopCall>)
    ensures r.Ok? <==> SingleTwoHop(orders)
                       && IsMultiplexHopSource(orders.twoHopOrders[0].first.source)
                       && IsMultiplexHopSource(orders.twoHopOrders[0].second.source)
    ensures r.Ok? ==>
              var t := orders.twoHopOrders[0];
              r.value == MultiHopCall([takerToken, t.first.makerToken, makerToken],
                                      [HopCallOf(t.first), HopCallOf(t.second)])
  {
    if |orders.nativeOrders| != 0 || |orders.bridgeOrders| != 0 {
      return Err(NotMultiHop);
    }
    if |orders.twoHopOrders| != 1 {
      return Err(NotSingleMultiHop);
    }
    var hops := [orders.twoHopOrders[0].first, orders.twoHopOrders[0].second];
    var calls: seq<HopCall> := [];
    for i := 0 to 2
      invariant |calls| == i
      invariant forall k :: 0 <= k < i ==> IsMultiplexHopSource(hops[k].source) && calls[k] == HopCallOf(hops[k])
    {
      match hops[i].source {
        case UniswapV2 => calls := calls + [HopV2(hops[i].data, false)];
        case SushiSwap => calls := calls + [HopV2(hops[i].data, true)];
        case UniswapV3 => calls := calls + [HopV3(hops[i].data)];
        case _ =>
          assert !IsMultiplexHopSource(hops[i].source);
          return Err(UnsupportedHopSource);
      }
    }
    assert hops[0] == orders.twoHopOrders[0].first && hops[1] == orders.twoHopOrders[0].second;
    return Ok(MultiHopCall([takerToken, hops[0].makerToken, makerToken], calls));
  }

  /** The slipped orders of a compatible path meet the encoder's condition, and the token route is connected. */
  lemma CompatibleMultiHopEncodes(p: Path, opts: ConsumerOpts, slippage: real)
    requires Built(p) && IsMultiplexMultiHopFillCompatible(p.ordersByType, opts) && 0.0 <= slippage <= 1.0
    ensures SlippedOrdersByType(p, slippage).Ok?
    ensures var orders := SlippedOrdersByType(p, slippage).value;
            SingleTwoHop(orders)
            && var t := orders.twoHopOrders[0];
               IsMultiplexHopSource(t.first.source) && IsMultiplexHopSource(t.second.source)
               && t.first.takerToken == p.context.TakerToken() && t.first.makerToken == t.second.takerToken
               && t.second.makerToken == p.context.MakerToken()
  {
    OrdersComeFromFills(p.fills, p.context);
    assert p.ordersByType.twoHopOrders[0] in p.ordersByType.twoHopOrders;
  }

  /** The source a subcall or hop names. */
  function SourceOf(c: Subcall): Option<Source> {
    match c
    case UniswapV2Call(_, _, isSushi) => Some(if isSushi then SushiSwap else UniswapV2)
    case UniswapV3Call(_, _) => Some(UniswapV3)
    case _ => None
  }

  function HopSource(c: HopCall): Source {
    match c
    case HopV2(_, isSushi) => if isSushi then SushiSwap else UniswapV2
    case HopV3(_) => UniswapV3
  }

  /** A subcall sells what the order takes, by its signed native order or by its source and data. */
  predicate Calls(c: Subcall, o: Order) {
    && c.sellAmount == o.takerAmount
    && (if o.source == Native then
          var legs := SubcallLegs(c);
          legs.Some? && |legs.value| == 1 && Tells(legs.value[0], o)
        else
          SourceOf(c) == Some(o.source) && (c.UniswapV2Call? || c.UniswapV3Call?) && c.data == o.data)
  }

  lemma DirectCallCalls(o: Order)
    requires Direct(o)
    ensures Calls(DirectCall(o), o)
  {
  }

  /** A subcall that fills all the given orders together. */
  predicate CallsAll(c: Subcall, orders: seq<Order>) {
    && c.sellAmount == SumOf(orders, TakerOf)
    && var legs := SubcallLegs(c);
       legs.Some? && |legs.value| == |orders| && forall k :: 0 <= k < |orders| ==> Tells(legs.value[k], orders[k])
  }

  lemma FallbackCallsAll(rest: seq<Order>)
    requires |rest| > 0
    ensures |FallbackCalls(rest)| == 1 && CallsAll(FallbackCalls(rest)[0], rest)
  {
    hide Lowered, Replay, Tells, SumOf;
    ReplayTellsOrders(rest);
  }

  /** The orders that the multiplex feature has a call for: signed quotes, and three kinds of pools. */
  predicate HasOwnCall(o: Order) {
    match o.source
    case Native => o.data.NativeData? && (o.data.kind == Rfq || o.data.kind == Otc)
    case UniswapV2 => true
    case SushiSwap => true
    case UniswapV3 => true
    case _ => false
  }

  lemma DirectIff(o: Order)
    ensures Direct(o) <==> HasOwnCall(o)
  {
  }

  /**
   * Every order of a batch that is encoded is filled once: directly up to the first that has no call of its own, and
   * by the fallback from there on.
   */
  lemma BatchCallsOrders(orders: seq<Order>)
    ensures var n, calls := DirectPrefix(orders), BatchSubcalls(orders);
            && (forall k :: 0 <= k < n ==> HasOwnCall(orders[k])) && (n < |orders| ==> !HasOwnCall(orders[n]))
            && |calls| == n + (if n < |orders| then 1 else 0)
            && (forall k :: 0 <= k < n ==> Calls(calls[k], orders[k]))
            && (n < |orders| ==> CallsAll(calls[n], orders[n..]))
  {
    hide Calls, CallsAll, DirectCall, FallbackCalls, Direct, HasOwnCall;
    var n := DirectPrefix(orders);
    forall k | 0 <= k < n ensures Calls(DirectCall(orders[k]), orders[k]) && HasOwnCall(orders[k]) {
      DirectCallCalls(orders[k]);
      DirectIff(orders[k]);
    }
    if n < |orders| {
      FallbackCallsAll(orders[n..]);
      DirectIff(orders[n]);
    } else {
      NoFallback(orders[n..]);
    }
  }

  lemma NoFallback(rest: seq<Order>)
    requires |rest| == 0
    ensures FallbackCalls(rest) == []
  {
  }

  /** The hops of an encoded two-hop order name its sources and carry its data. */
  lemma HopCallsOrder(t: TwoHopOrder)
    requires IsMultiplexHopSource(t.first.source) && IsMultiplexHopSource(t.second.source)
    ensures HopSource(HopCallOf(t.first)) == t.first.source && HopCallOf(t.first).data == t.first.data
    ensures HopSource(HopCallOf(t.second)) == t.second.source && HopCallOf(t.second).data == t.second.data
  {
  }

  /** No meta-transaction, nothing to pay to affiliates, and a fixed amount to sell. */
  predicate NothingToTransform(opts: ConsumerOpts) {
    && opts.metaTransactionVersion == None && !opts.shouldSellEntireBalance
    && (forall f <- opts.sellTokenAffiliateFees :: f.sellTokenFeeAmount <= 0.0 && f.buyTokenFeeAmount <= 0.0)
    && (forall f <- opts.buyTokenAffiliateFees :: f.sellTokenFeeAmount <= 0.0 && f.buyTokenFeeAmount <= 0.0)
  }

  lemma NothingToTransformIff(opts: ConsumerOpts)
    ensures !RequiresTransformERC20(opts) <==> NothingToTransform(opts)
  {
    var fees := opts.sellTokenAffiliateFees + opts.buyTokenAffiliateFees;
    assert forall f :: f in fees <==> f in opts.sellTokenAffiliateFees || f in opts.buyTokenAffiliateFees;
  }

  /** A quote passes the batch test exactly when nothing is transformed and each of its orders has a call of its own. */
  lemma BatchCompatibleIff(quote: SwapQuote, opts: ConsumerOpts)
    requires Built(quote.path) && FlagsMatch(quote.path.fills)
    ensures var orders := quote.path.ordersByType;
            IsMultiplexBatchFillCompatible(quote, opts)
            <==> && NothingToTransform(opts) && orders.twoHopOrders == []
                 && (forall o <- orders.nativeOrders :: HasOwnCall(o))
                 && (forall o <- orders.bridgeOrders :: HasOwnCall(o))
  {
    hide RequiresTransformERC20, NothingToTransform, HasOwnCall, NativeOrders, BridgeOrders, TwoHopOrders,
      FlattenTwoHops;
    var p, orders := quote.path, quote.path.ordersByType;
    NothingToTransformIff(opts);
    HasTwoHopIff(p);
    OrdersOfPath(p);
    if orders.twoHopOrders == [] {
      forall o | o in p.GetOrders() ensures HasOwnCall(o) <==> o.Type() != Limit && IsMultiplexBatchSource(o.source) {
        OwnCallIff(o);
      }
    }
  }

  /** Without two-hop orders the orders of a path are its native and bridge orders, typed by their sources. */
  lemma OrdersOfPath(p: Path)
    requires Built(p)
    ensures p.ordersByType.twoHopOrders == [] ==>
              && (forall o :: o in p.GetOrders() <==>
                    o in p.ordersByType.nativeOrders || o in p.ordersByType.bridgeOrders)
              && (forall o <- p.GetOrders() :: o.source == Native <==> o.Type() != Bridge)
  {
    hide NativeOrders, BridgeOrders, TwoHopOrders;
    OrdersComeFromFills(p.fills, p.context);
    if p.ordersByType.twoHopOrders == [] {
      assert p.GetOrders() == p.ordersByType.nativeOrders + p.ordersByType.bridgeOrders;
    }
  }

  lemma OwnCallIff(o: Order)
    requires o.source == Native <==> o.Type() != Bridge
    ensures HasOwnCall(o) <==> o.Type() != Limit && IsMultiplexBatchSource(o.source)
  {
  }

  predicate IsPool(s: Source) { s in {UniswapV2, SushiSwap, UniswapV3} }

  /** A path passes the multi-hop test exactly when nothing is transformed and it is one two-hop order through pools. */
  lemma MultiHopCompatibleIff(orders: OrdersByType, opts: ConsumerOpts)
    ensures IsMultiplexMultiHopFillCompatible(orders, opts)
       <==> && NothingToTransform(opts) && orders.nativeOrders == [] && orders.bridgeOrders == []
            && exists t :: orders.twoHopOrders == [t] && IsPool(t.first.source) && IsPool(t.second.source)
  {
    hide RequiresTransformERC20, NothingToTransform;
    NothingToTransformIff(opts);
    if |orders.twoHopOrders| == 1 { assert orders.twoHopOrders == [orders.twoHopOrders[0]]; }
  }

  // ----- RFQ fill amounts -----

  predicate TakersNonneg(orders: seq<Order>) { forall o <- orders :: o.takerAmount >= 0.0 }

  function TakenBefore(orders: seq<Order>, k: nat): real
    requires k <= |orders|
  {
    SumOf(orders[..k], TakerOf)
  }

  /** The part of order `k` that `sellAmount` still reaches. */
  function RfqFillAmount(orders: seq<Order>, sellAmount: real, k: nat): real
    requires k < |orders|
  {
    Max(0.0, Min(orders[k].takerAmount, sellAmount - TakenBefore(orders, k)))
  }

  method FillAmountPerOrder(orders: seq<Order>, sellAmount: real) returns (fillAmounts: seq<real>)
    requires TakersNonneg(orders) && sellAmount >= 0.0
    ensures |fillAmounts| == |orders|
    ensures forall k :: 0 <= k < |orders| ==> fillAmounts[k] == RfqFillAmount(orders, sellAmount, k)
    ensures SumOf(fillAmounts, Same) == Min(sellAmount, SumOf(orders, TakerOf))
  {
    var remaining := sellAmount;
    fillAmounts := [];
    for i := 0 to |orders|
      invariant |fillAmounts| == i
      invariant remaining == Max(0.0, sellAmount - TakenBefore(orders, i))
      invariant remaining == sellAmount - SumOf(fillAmounts, Same)
      invariant forall k :: 0 <= k < i ==> fillAmounts[k] == RfqFillAmount(orders, sellAmount, k)
    {
      assert orders[i] in orders && orders[..i + 1] == orders[..i] + [orders[i]];
      SumAppend(orders[..i], orders[i], TakerOf);
      var fillAmount := Min(orders[i].takerAmount, remaining);
      SumAppend(fillAmounts, fillAmount, Same);
      fillAmounts := fillAmounts + [fillAmount];
      remaining := remaining - fillAmount;
    }
    assert orders[..|orders|] == orders;
  }

  function Same(x: real): real { x }

  /** The amounts sent to the contract are those the quote was simulated with. */
  lemma {:induction false} FillAmountsMatchSimulation(
    orders: seq<Order>, cs: seq<Sim.FillCall>, sellAmount: real, k: nat)
    requires |cs| == |orders| && Sim.AllValid(cs) && k < |orders| && sellAmount >= 0.0
    requires forall j :: 0 <= j < |cs| ==>
               cs[j].order == orders[j] && Sim.FeeFree(cs[j]) && orders[j].fill.input == orders[j].takerAmount
    ensures RfqFillAmount(orders, sellAmount, k)
         == if Sim.Reached(cs, sellAmount, k)
            then Sim.Fraction(cs[k], sellAmount - Sim.Level(cs, k)) * cs[k].order.fill.input else 0.0
  {
    Sim.FeeFreeLevel(cs, k);
    Sim.FeeFreeCapacity(cs[k]);
    SumPointwise(cs[..k], Sim.CallInput, orders[..k], TakerOf);
    var left, capacity := sellAmount - Sim.Level(cs, k), cs[k].order.fill.input;
    if 0.0 < left < capacity { assert left / capacity * capacity == left; }
  }
}
