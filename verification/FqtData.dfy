/** Lowering a list of orders to the fill-quote transformer's per-type lists. */
module FqtData {
  import opened Numbers
  import opened MarketTypes

  datatype BridgeInfo = BridgeInfo(source: Source, data: FillData, makerTokenAmount: real, takerTokenAmount: real)

  datatype NativeInfo = NativeInfo(order: NativeOrder, signature: string, maxTakerTokenFillAmount: real)

  datatype FqtData = FqtData(
    bridgeOrders: seq<BridgeInfo>,
    limitOrders: seq<NativeInfo>,
    rfqOrders: seq<NativeInfo>,
    otcOrders: seq<NativeInfo>,
    fillSequence: seq<OrderType>)

  const EMPTY := FqtData([], [], [], [], [])

  /** What the transformer is told of one order. */
  datatype Leg =
    | BridgeLeg(bridge: BridgeInfo)
    | LimitLeg(native: NativeInfo)
    | RfqLeg(native: NativeInfo)
    | OtcLeg(native: NativeInfo)

  function BridgeInfoOf(o: Order): BridgeInfo { BridgeInfo(o.source, o.data, o.makerAmount, o.takerAmount) }

  function NativeInfoOf(o: Order): NativeInfo
    requires o.Type() != Bridge
  {
    NativeInfo(o.data.order, o.data.signature, o.takerAmount)
  }

  function LegOf(o: Order): Leg {
    match o.Type()
    case Bridge => BridgeLeg(BridgeInfoOf(o))
    case Limit => LimitLeg(NativeInfoOf(o))
    case Rfq => RfqLeg(NativeInfoOf(o))
    case Otc => OtcLeg(NativeInfoOf(o))
  }

  function LegTaker(leg: Leg): real {
    if leg.BridgeLeg? then leg.bridge.takerTokenAmount else leg.native.maxTakerTokenFillAmount
  }

  function Legs(orders: seq<Order>): (legs: seq<Leg>)
    ensures |legs| == |orders| && forall k :: 0 <= k < |orders| ==> legs[k] == LegOf(orders[k])
  {
    seq(|orders|, i requires 0 <= i < |orders| => LegOf(orders[i]))
  }

  /** Appends a leg to the list of its type. */
  function Push(d: FqtData, leg: Leg): FqtData {
    match leg
    case BridgeLeg(b) => d.(bridgeOrders := d.bridgeOrders + [b], fillSequence := d.fillSequence + [Bridge])
    case LimitLeg(n) => d.(limitOrders := d.limitOrders + [n], fillSequence := d.fillSequence + [Limit])
    case RfqLeg(n) => d.(rfqOrders := d.rfqOrders + [n], fillSequence := d.fillSequence + [Rfq])
    case OtcLeg(n) => d.(otcOrders := d.otcOrders + [n], fillSequence := d.fillSequence + [Otc])
  }

  function Lowered(orders: seq<Order>): FqtData {
    if |orders| == 0 then EMPTY else Push(Lowered(orders[..|orders| - 1]), LegOf(orders[|orders| - 1]))
  }

  method GetFqtDataFromOrders(orders: seq<Order>) returns (d: FqtData)
    ensures d == Lowered(orders)
  {
    var bridgeOrders: seq<BridgeInfo>, limitOrders: seq<NativeInfo> := [], [];
    var rfqOrders: seq<NativeInfo>, otcOrders: seq<NativeInfo> := [], [];
    var fillSequence: seq<OrderType> := [];
    for i := 0 to |orders|
      invariant FqtData(bridgeOrders, limitOrders, rfqOrders, otcOrders, fillSequence) == Lowered(orders[..i])
    {
      var order := orders[i];
      assert orders[..i + 1][..i] == orders[..i];
      match order.Type() {
        case Bridge =>
          bridgeOrders := bridgeOrders + [BridgeInfo(order.source, order.data, order.makerAmount, order.takerAmount)];
        case Limit =>
          limitOrders := limitOrders + [NativeInfo(order.data.order, order.data.signature, order.takerAmount)];
        case Rfq =>
          rfqOrders := rfqOrders + [NativeInfo(order.data.order, order.data.signature, order.takerAmount)];
        case Otc =>
          otcOrders := otcOrders + [NativeInfo(order.data.order, order.data.signature, order.takerAmount)];
      }
      fillSequence := fillSequence + [order.Type()];
    }
    assert orders[..|orders|] == orders;
    d := FqtData(bridgeOrders, limitOrders, rfqOrders, otcOrders, fillSequence);
  }

  // ----- Replaying -----

  /** The next leg of the fill sequence, taken from the front of the list of its type. */
  function Pop(d: FqtData): Option<(Leg, FqtData)>
    requires |d.fillSequence| > 0
  {
    var rest := d.(fillSequence := d.fillSequence[1..]);
    match d.fillSequence[0]
    case Bridge =>
      if |d.bridgeOrders| == 0 then None
      else Some((BridgeLeg(d.bridgeOrders[0]), rest.(bridgeOrders := d.bridgeOrders[1..])))
    case Limit =>
      if |d.limitOrders| == 0 then None
      else Some((LimitLeg(d.limitOrders[0]), rest.(limitOrders := d.limitOrders[1..])))
    case Rfq =>
      if |d.rfqOrders| == 0 then None
      else Some((RfqLeg(d.rfqOrders[0]), rest.(rfqOrders := d.rfqOrders[1..])))
    case Otc =>
      if |d.otcOrders| == 0 then None
      else Some((OtcLeg(d.otcOrders[0]), rest.(otcOrders := d.otcOrders[1..])))
  }

  /** Walks the fill sequence; fails if a list runs out or anything is left over. */
  function Replay(d: FqtData): Option<seq<Leg>>
    decreases |d.fillSequence|
  {
    if |d.fillSequence| == 0 then
      if d == EMPTY then Some([]) else None
    else
      match Pop(d)
      case None => None
      case Some((leg, rest)) =>
        match Replay(rest)
        case None => None
        case Some(legs) => Some([leg] + legs)
  }

  /** Pushing a leg makes it the last one replayed. */
  lemma {:induction false} ReplayPush(d: FqtData, leg: Leg)
    requires Replay(d).Some?
    ensures Replay(Push(d, leg)) == Some(Replay(d).value + [leg])
    decreases |d.fillSequence|
  {
    if |d.fillSequence| == 0 {
      PopSingle(leg);
      assert d == EMPTY && Replay(EMPTY) == Some([]);
      assert Replay(Push(d, leg)) == Some([leg] + []);
      assert [leg] + [] == Replay(d).value + [leg];
    } else {
      var popped := Pop(d).value;
      ReplayPush(popped.1, leg);
      PopPush(d, leg);
      assert [popped.0] + (Replay(popped.1).value + [leg]) == Replay(d).value + [leg];
    }
  }

  lemma PopSingle(leg: Leg)
    ensures Pop(Push(EMPTY, leg)) == Some((leg, EMPTY))
  {
    var e := Push(EMPTY, leg);
    assert e.fillSequence[1..] == [];
    match leg
    case BridgeLeg(b) => assert e.bridgeOrders[1..] == [];
    case LimitLeg(n) => assert e.limitOrders[1..] == [];
    case RfqLeg(n) => assert e.rfqOrders[1..] == [];
    case OtcLeg(n) => assert e.otcOrders[1..] == [];
  }

  lemma PopPush(d: FqtData, leg: Leg)
    requires |d.fillSequence| > 0 && Pop(d).Some?
    ensures Pop(Push(d, leg)) == Some((Pop(d).value.0, Push(Pop(d).value.1, leg)))
  {
    var e := Push(d, leg);
    assert e.fillSequence[0] == d.fillSequence[0];
    assert e.fillSequence[1..] == d.fillSequence[1..] + [e.fillSequence[|d.fillSequence|]];
    match d.fillSequence[0]
    case Bridge =>
      if leg.BridgeLeg? { assert e.bridgeOrders[1..] == d.bridgeOrders[1..] + [leg.bridge]; }
    case Limit =>
      if leg.LimitLeg? { assert e.limitOrders[1..] == d.limitOrders[1..] + [leg.native]; }
    case Rfq =>
      if leg.RfqLeg? { assert e.rfqOrders[1..] == d.rfqOrders[1..] + [leg.native]; }
    case Otc =>
      if leg.OtcLeg? { assert e.otcOrders[1..] == d.otcOrders[1..] + [leg.native]; }
  }

  /** Round trip: replaying the lowered data gives back every order, in order, with nothing left over. */
  lemma {:induction false} ReplayReconstructs(orders: seq<Order>)
    ensures Replay(Lowered(orders)) == Some(Legs(orders))
  {
    if |orders| > 0 {
      hide Replay, Push, LegOf;
      var front, last := orders[..|orders| - 1], orders[|orders| - 1];
      ReplayReconstructs(front);
      ReplayPush(Lowered(front), LegOf(last));
      assert Legs(orders) == Legs(front) + [LegOf(last)];
    }
  }

  /** Data that replays at all is determined by its replay, so nothing but the lowered data replays to the orders. */
  lemma {:induction false} ReplayDetermines(d: FqtData, e: FqtData)
    requires Replay(d).Some? && Replay(d) == Replay(e)
    ensures d == e
    decreases |d.fillSequence|
  {
    ReplayLength(d);
    ReplayLength(e);
    if |d.fillSequence| > 0 {
      var (leg, rest) := Pop(d).value;
      var (leg', rest') := Pop(e).value;
      assert Replay(d).value[0] == leg && Replay(e).value[0] == leg';
      assert Replay(d).value[1..] == Replay(rest).value && Replay(e).value[1..] == Replay(rest').value;
      ReplayDetermines(rest, rest');
      PopIsInjective(d, e);
    }
  }

  lemma PopIsInjective(d: FqtData, e: FqtData)
    requires |d.fillSequence| > 0 && |e.fillSequence| > 0 && Pop(d).Some? && Pop(d) == Pop(e)
    ensures d == e
  {
    assert d.fillSequence == [d.fillSequence[0]] + d.fillSequence[1..];
    assert e.fillSequence == [e.fillSequence[0]] + e.fillSequence[1..];
    match d.fillSequence[0]
    case Bridge =>
      assert d.bridgeOrders == [d.bridgeOrders[0]] + d.bridgeOrders[1..] == e.bridgeOrders;
    case Limit =>
      assert d.limitOrders == [d.limitOrders[0]] + d.limitOrders[1..] == e.limitOrders;
    case Rfq =>
      assert d.rfqOrders == [d.rfqOrders[0]] + d.rfqOrders[1..] == e.rfqOrders;
    case Otc =>
      assert d.otcOrders == [d.otcOrders[0]] + d.otcOrders[1..] == e.otcOrders;
  }

  lemma {:induction false} ReplayLength(d: FqtData)
    requires Replay(d).Some?
    ensures |Replay(d).value| == |d.fillSequence|
    decreases |d.fillSequence|
  {
    if |d.fillSequence| > 0 { ReplayLength(Pop(d).value.1); }
  }

  /** The amounts the transformer is told to fill are the orders' taker amounts. */
  lemma LoweredTakers(orders: seq<Order>)
    ensures Replay(Lowered(orders)).Some?
    ensures SumOf(Replay(Lowered(orders)).value, LegTaker) == SumOf(orders, TakerOf)
  {
    ReplayReconstructs(orders);
    SumPointwise(Legs(orders), LegTaker, orders, TakerOf);
  }

  predicate TellsOrder(n: NativeInfo, o: Order, kind: OrderType) {
    && o.data.NativeData? && o.data.kind == kind && n.order == o.data.order && n.signature == o.data.signature
    && n.maxTakerTokenFillAmount == o.takerAmount
  }

  /** A leg tells the transformer what the order is: its source, data and both amounts, or its signed native order. */
  predicate Tells(leg: Leg, o: Order) {
    match leg
    case BridgeLeg(b) =>
      && (o.data.NativeData? ==> o.data.kind == Bridge)
      && b.source == o.source && b.data == o.data && b.makerTokenAmount == o.makerAmount
      && b.takerTokenAmount == o.takerAmount
    case LimitLeg(n) => TellsOrder(n, o, Limit)
    case RfqLeg(n) => TellsOrder(n, o, Rfq)
    case OtcLeg(n) => TellsOrder(n, o, Otc)
  }

  /** The replayed legs tell of the orders one by one. */
  lemma ReplayTellsOrders(orders: seq<Order>)
    ensures Replay(Lowered(orders)).Some?
    ensures var legs := Replay(Lowered(orders)).value;
            |legs| == |orders| && forall k :: 0 <= k < |legs| ==> Tells(legs[k], orders[k])
  {
    hide Lowered, Replay;
    ReplayReconstructs(orders);
  }
}
