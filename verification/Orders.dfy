/** Turning router fills into native, two-hop and bridge orders. */
module Orders {
  import opened Numbers
  import opened MarketTypes

  datatype PathContext = PathContext(side: Side, inputToken: Address, outputToken: Address)
  {
    function MakerToken(): Address { if side == Sell then outputToken else inputToken }

    function TakerToken(): Address { if side == Sell then inputToken else outputToken }
  }

  /** Whole token amounts of a fill: only the output side is rounded, in the maker's favour. */
  function MakerAmount(base: FillBase, side: Side): real {
    if side == Sell then RoundDown(base.output) else base.input
  }

  function TakerAmount(base: FillBase, side: Side): real {
    if side == Sell then base.input else RoundUp(base.output)
  }

  function CreateNativeOrder(fill: Fill, side: Side): Result<Order>
    requires fill.data.NativeData?
  {
    if fill.data.kind == Bridge then Err(NotANativeOrder)
    else Ok(Order(Native, fill.data.order.makerToken, fill.data.order.takerToken,
                  MakerAmount(fill.base, side), TakerAmount(fill.base, side), fill.data, fill.base))
  }

  function CreateBridgeOrder(base: FillBase, source: Source, data: FillData, makerToken: Address, takerToken: Address,
                             side: Side): Order
  {
    Order(source, makerToken, takerToken, MakerAmount(base, side), TakerAmount(base, side), data, base)
  }

  function CreateTwoHopOrder(fill: Fill, context: PathContext): TwoHopOrder
    requires fill.data.TwoHopData?
  {
    var side, base, d := context.side, fill.base, fill.data;
    var first := if side == Sell then FillBase(base.input, 0.0, 0.0, 1.0)
                 else FillBase(0.0, base.output, base.output, 1.0);
    var second := if side == Sell then FillBase(MAX_UINT256, base.output, base.output, 1.0)
                  else FillBase(base.input, MAX_UINT256, MAX_UINT256, 1.0);
    TwoHopOrder(
      CreateBridgeOrder(first, d.firstSource, BridgeData(d.firstData), d.intermediateToken, context.TakerToken(), side),
      CreateBridgeOrder(second, d.secondSource, BridgeData(d.secondData), context.MakerToken(), d.intermediateToken,
                        side))
  }

  predicate AllWellTyped(fills: seq<Fill>) { forall f <- fills :: f.WellTyped() }

  predicate IsBridgeSource(s: Source) { s != Native && s != MultiHop }

  /** A native fill that claims the bridge type cannot become an order. */
  predicate Convertible(fill: Fill) { fill.source == Native && fill.data.NativeData? ==> fill.data.kind != Bridge }

  predicate AllConvertible(fills: seq<Fill>) { forall f <- fills :: Convertible(f) }

  function NativeOrders(fills: seq<Fill>, side: Side): seq<Order>
    requires AllWellTyped(fills) && AllConvertible(fills)
  {
    if |fills| == 0 then []
    else
      var fill := fills[|fills| - 1];
      assert fill in fills;
      NativeOrders(fills[..|fills| - 1], side)
      + if fill.source == Native then [CreateNativeOrder(fill, side).value] else []
  }

  function TwoHopOrders(fills: seq<Fill>, context: PathContext): seq<TwoHopOrder>
    requires AllWellTyped(fills)
  {
    if |fills| == 0 then []
    else
      var fill := fills[|fills| - 1];
      assert fill in fills;
      TwoHopOrders(fills[..|fills| - 1], context)
      + if fill.source == MultiHop then [CreateTwoHopOrder(fill, context)] else []
  }

  function BridgeOrders(fills: seq<Fill>, context: PathContext): seq<Order> {
    if |fills| == 0 then []
    else
      var fill := fills[|fills| - 1];
      BridgeOrders(fills[..|fills| - 1], context)
      + if IsBridgeSource(fill.source)
        then [CreateBridgeOrder(fill.base, fill.source, fill.data, context.MakerToken(), context.TakerToken(),
                                context.side)]
        else []
  }

  function CreateOrdersByType(fills: seq<Fill>, context: PathContext): Result<OrdersByType>
    requires AllWellTyped(fills)
  {
    if AllConvertible(fills)
    then Ok(OrdersByType(NativeOrders(fills, context.side), TwoHopOrders(fills, context), BridgeOrders(fills, context)))
    else Err(NotANativeOrder)
  }

  // ----- Input amounts are partitioned -----

  function FirstTaker(t: TwoHopOrder): real { t.first.takerAmount }

  function SecondMaker(t: TwoHopOrder): real { t.second.makerAmount }

  /** The amount of an order on the side the quote is expressed in. */
  function OrderSelector(side: Side): Order -> real {
    if side == Sell then TakerOf else MakerOf
  }

  function TwoHopSelector(side: Side): TwoHopOrder -> real {
    if side == Sell then FirstTaker else SecondMaker
  }

  /** No input is lost or counted twice when fills become orders of three kinds. */
  lemma {:induction false} InputsArePartitioned(fills: seq<Fill>, context: PathContext)
    requires AllWellTyped(fills) && AllConvertible(fills)
    ensures SumOf(fills, InputOf)
         == SumOf(NativeOrders(fills, context.side), OrderSelector(context.side))
            + SumOf(TwoHopOrders(fills, context), TwoHopSelector(context.side))
            + SumOf(BridgeOrders(fills, context), OrderSelector(context.side))
  {
    if |fills| > 0 {
      var front, fill := fills[..|fills| - 1], fills[|fills| - 1];
      InputsArePartitioned(front, context);
      assert fill in fills;
      var f, g := OrderSelector(context.side), TwoHopSelector(context.side);
      if fill.source == Native {
        assert TwoHopOrders(fills, context) == TwoHopOrders(front, context);
        assert BridgeOrders(fills, context) == BridgeOrders(front, context);
        SumAppend(NativeOrders(front, context.side), CreateNativeOrder(fill, context.side).value, f);
      } else if fill.source == MultiHop {
        assert NativeOrders(fills, context.side) == NativeOrders(front, context.side);
        assert BridgeOrders(fills, context) == BridgeOrders(front, context);
        SumAppend(TwoHopOrders(front, context), CreateTwoHopOrder(fill, context), g);
      } else {
        assert NativeOrders(fills, context.side) == NativeOrders(front, context.side);
        assert TwoHopOrders(fills, context) == TwoHopOrders(front, context);
        SumAppend(BridgeOrders(front, context),
                  CreateBridgeOrder(fill.base, fill.source, fill.data, context.MakerToken(), context.TakerToken(),
                                    context.side), f);
      }
    }
  }

  /** What is known of every order a path is made of. */
  lemma {:induction false} OrdersComeFromFills(fills: seq<Fill>, context: PathContext)
    requires AllWellTyped(fills) && AllConvertible(fills)
    ensures forall o <- NativeOrders(fills, context.side) ::
              o.source == Native && o.Type() != Bridge && o.data.NativeData?
              && exists f <- fills :: f.source == Native && o == CreateNativeOrder(f, context.side).value
    ensures forall o <- BridgeOrders(fills, context) ::
              IsBridgeSource(o.source) && o.Type() == Bridge
              && o.makerToken == context.MakerToken() && o.takerToken == context.TakerToken()
              && o.makerAmount == MakerAmount(o.fill, context.side)
              && o.takerAmount == TakerAmount(o.fill, context.side)
              && exists f <- fills :: IsBridgeSource(f.source) && o.fill == f.base && o.source == f.source
    ensures forall t <- TwoHopOrders(fills, context) ::
              t.first.Type() == t.second.Type() == Bridge
              && t.first.takerToken == context.TakerToken() && t.second.makerToken == context.MakerToken()
              && t.first.makerToken == t.second.takerToken
              && exists f <- fills :: f.source == MultiHop && f.data.TwoHopData? && t == CreateTwoHopOrder(f, context)
  {
    if |fills| > 0 {
      OrdersComeFromFills(fills[..|fills| - 1], context);
      assert fills[|fills| - 1] in fills;
      assert forall f <- fills[..|fills| - 1] :: f in fills;
    }
  }

  predicate NoTwoHops(fills: seq<Fill>) { forall f <- fills :: f.source != MultiHop }

  lemma {:induction false} TwoHopOrdersEmpty(fills: seq<Fill>, context: PathContext)
    requires AllWellTyped(fills)
    ensures TwoHopOrders(fills, context) == [] <==> NoTwoHops(fills)
  {
    if |fills| > 0 {
      TwoHopOrdersEmpty(fills[..|fills| - 1], context);
      assert fills[|fills| - 1] in fills;
      assert forall f <- fills[..|fills| - 1] :: f in fills;
      assert forall f <- fills :: f in fills[..|fills| - 1] || f == fills[|fills| - 1];
    }
  }

  /** Single-hop fills become orders with the same inputs and outputs, whatever order they come in. */
  lemma {:induction false} SingleHopsKeepAmounts(fills: seq<Fill>, context: PathContext)
    requires AllWellTyped(fills) && AllConvertible(fills) && NoTwoHops(fills)
    ensures |NativeOrders(fills, context.side)| + |BridgeOrders(fills, context)| == |fills|
    ensures SumOf(NativeOrders(fills, context.side), OrderInput) + SumOf(BridgeOrders(fills, context), OrderInput)
         == SumOf(fills, InputOf)
    ensures SumOf(NativeOrders(fills, context.side), OrderOutput) + SumOf(BridgeOrders(fills, context), OrderOutput)
         == SumOf(fills, OutputOf)
  {
    if |fills| > 0 {
      var front, fill := fills[..|fills| - 1], fills[|fills| - 1];
      SingleHopsKeepAmounts(front, context);
      assert fill in fills;
      if fill.source == Native {
        assert BridgeOrders(fills, context) == BridgeOrders(front, context);
        SumAppend(NativeOrders(front, context.side), CreateNativeOrder(fill, context.side).value, OrderInput);
        SumAppend(NativeOrders(front, context.side), CreateNativeOrder(fill, context.side).value, OrderOutput);
      } else {
        var order := CreateBridgeOrder(fill.base, fill.source, fill.data, context.MakerToken(), context.TakerToken(),
                                       context.side);
        assert NativeOrders(fills, context.side) == NativeOrders(front, context.side);
        SumAppend(BridgeOrders(front, context), order, OrderInput);
        SumAppend(BridgeOrders(front, context), order, OrderOutput);
      }
    }
  }

  // ----- Every order in terms of its fill -----

  /** The fills of the given sources, in the order of the path. */
  function FillsFrom(fills: seq<Fill>, wanted: Source -> bool): seq<Fill> {
    if |fills| == 0 then []
    else
      FillsFrom(fills[..|fills| - 1], wanted)
      + if wanted(fills[|fills| - 1].source) then [fills[|fills| - 1]] else []
  }

  function NativeFills(fills: seq<Fill>): seq<Fill> { FillsFrom(fills, s => s == Native) }

  function MultiHopFills(fills: seq<Fill>): seq<Fill> { FillsFrom(fills, s => s == MultiHop) }

  function BridgeFills(fills: seq<Fill>): seq<Fill> { FillsFrom(fills, s => s != Native && s != MultiHop) }

  /** An order gives for the input what the fill gives, in whole tokens that never favour the taker. */
  predicate Trades(o: Order, side: Side, input: real, output: real) {
    if side == Sell then o.takerAmount == input && o.makerAmount == RoundDown(output)
    else o.makerAmount == input && o.takerAmount == RoundUp(output)
  }

  /** An order from one token of the quote to the other. */
  predicate SpansPair(o: Order, c: PathContext) {
    if c.side == Sell then o.takerToken == c.inputToken && o.makerToken == c.outputToken
    else o.takerToken == c.outputToken && o.makerToken == c.inputToken
  }

  predicate IsNativeOrderOf(o: Order, f: Fill, c: PathContext) {
    && f.data.NativeData? && o.source == Native && o.data == f.data && o.fill == f.base
    && o.makerToken == f.data.order.makerToken && o.takerToken == f.data.order.takerToken
    && Trades(o, c.side, f.base.input, f.base.output)
  }

  predicate IsBridgeOrderOf(o: Order, f: Fill, c: PathContext) {
    && o.source == f.source && o.data == f.data && o.fill == f.base && SpansPair(o, c)
    && Trades(o, c.side, f.base.input, f.base.output)
  }

  /**
   * The hops lead from the taker to the maker token through the intermediate token, each with its own source and
   * data. The outer amounts are those of the fill, and the inner ones are open: nothing need be made of the first
   * hop of a sell, and the second takes whatever there is.
   */
  predicate IsTwoHopOrderOf(t: TwoHopOrder, f: Fill, c: PathContext) {
    && f.data.TwoHopData?
    && t.first.source == f.data.firstSource && t.first.data == BridgeData(f.data.firstData)
    && t.second.source == f.data.secondSource && t.second.data == BridgeData(f.data.secondData)
    && t.first.makerToken == t.second.takerToken == f.data.intermediateToken
    && (if c.side == Sell then
          && t.first.takerToken == c.inputToken && t.second.makerToken == c.outputToken
          && t.first.takerAmount == f.base.input && t.first.makerAmount == 0.0
          && t.second.takerAmount == MAX_UINT256 && t.second.makerAmount == RoundDown(f.base.output)
        else
          && t.first.takerToken == c.outputToken && t.second.makerToken == c.inputToken
          && t.first.takerAmount == RoundUp(f.base.output) && t.first.makerAmount == 0.0
          && t.second.takerAmount == MAX_UINT256 && t.second.makerAmount == f.base.input)
  }

  predicate NativeOrdersFollow(orders: seq<Order>, fills: seq<Fill>, c: PathContext) {
    |orders| == |fills| && forall k :: 0 <= k < |orders| ==> IsNativeOrderOf(orders[k], fills[k], c)
  }

  predicate BridgeOrdersFollow(orders: seq<Order>, fills: seq<Fill>, c: PathContext) {
    |orders| == |fills| && forall k :: 0 <= k < |orders| ==> IsBridgeOrderOf(orders[k], fills[k], c)
  }

  predicate TwoHopOrdersFollow(ts: seq<TwoHopOrder>, fills: seq<Fill>, c: PathContext) {
    |ts| == |fills| && forall k :: 0 <= k < |ts| ==> IsTwoHopOrderOf(ts[k], fills[k], c)
  }

  /** Each fill becomes one order of its kind, in the order of the path, with its own tokens, data and amounts. */
  lemma {:induction false} OrdersFollowTheirFills(fills: seq<Fill>, context: PathContext)
    requires AllWellTyped(fills) && AllConvertible(fills)
    ensures NativeOrdersFollow(NativeOrders(fills, context.side), NativeFills(fills), context)
    ensures TwoHopOrdersFollow(TwoHopOrders(fills, context), MultiHopFills(fills), context)
    ensures BridgeOrdersFollow(BridgeOrders(fills, context), BridgeFills(fills), context)
  {
    hide IsNativeOrderOf, IsTwoHopOrderOf, IsBridgeOrderOf;
    if |fills| > 0 {
      var fill := fills[|fills| - 1];
      assert fill in fills;
      OrdersFollowTheirFills(fills[..|fills| - 1], context);
      if fill.source == Native { NativeOrderFollows(fill, context); }
      else if fill.source == MultiHop { TwoHopOrderFollows(fill, context); }
      else { BridgeOrderFollows(fill, context); }
    }
  }

  lemma NativeOrderFollows(fill: Fill, context: PathContext)
    requires fill.data.NativeData? && fill.data.kind != Bridge
    ensures IsNativeOrderOf(CreateNativeOrder(fill, context.side).value, fill, context)
  {
  }

  lemma BridgeOrderFollows(fill: Fill, context: PathContext)
    ensures IsBridgeOrderOf(
              CreateBridgeOrder(fill.base, fill.source, fill.data, context.MakerToken(), context.TakerToken(),
                                context.side), fill, context)
  {
  }

  lemma TwoHopOrderFollows(fill: Fill, context: PathContext)
    requires fill.data.TwoHopData?
    ensures IsTwoHopOrderOf(CreateTwoHopOrder(fill, context), fill, context)
  {
    IntRoundsToItself(0.0);
    IntRoundsToItself(MAX_UINT256);
  }
}
