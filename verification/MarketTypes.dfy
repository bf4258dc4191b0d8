/** Fills, orders and the values shared by the stages of the quote pipeline. */
module MarketTypes {

  type Address = string

  const MAX_UINT256: real := 115792089237316195423570985008687907853269984665640564039457584007913129639935.0

  datatype Result<+T> = Ok(value: T) | Err(error: Failure)

  /** The errors that are thrown, one for each message. */
  datatype Failure =
    | NotANativeOrder
    | SlippageOutOfRange
    | TargetInputMismatch
    | NoQuoteInfos
    | SlippagesVary
    | UnsupportedBatchOrder
    | NotMultiHop
    | NotSingleMultiHop
    | UnsupportedHopSource
    | IntegratorFeeUndefined
    | TokenRateUndefined
    | SellAmountInsufficient

  datatype Option<+T> = None | Some(value: T)

  datatype Side = Sell | Buy

  datatype OrderType = Bridge | Limit | Rfq | Otc

  /** Liquidity sources; those the code does not single out are `OtherDex`. */
  datatype Source = Native | MultiHop | UniswapV2 | SushiSwap | UniswapV3 | OtherDex(name: string)

  /** One bit of a source-flag mask. The native source itself has no bit. */
  datatype Flag = LimitOrderFlag | RfqOrderFlag | OtcOrderFlag | SourceFlag(source: Source)

  datatype NativeOrder = NativeOrder(
    makerToken: Address,
    takerToken: Address,
    makerAmount: real,
    takerAmount: real,
    takerTokenFeeAmount: real)

  /** What a source needs to execute a fill; the order type follows from it. */
  datatype FillData =
    | NativeData(kind: OrderType, order: NativeOrder, signature: string)
    | TwoHopData(firstSource: Source, firstData: string, secondSource: Source, secondData: string,
                 intermediateToken: Address)
    | BridgeData(data: string)
  {
    function OrderType(): OrderType {
      if NativeData? then kind else Bridge
    }
  }

  /** `input` is what the quote asks for (taker tokens in a sell, maker tokens in a buy). */
  datatype FillBase = FillBase(input: real, output: real, adjustedOutput: real, gas: real)

  function Rate(base: FillBase): real
    requires base.input != 0.0
  {
    base.output / base.input
  }

  /** The output that goes with a part of a fill's input. */
  function OutputFor(base: FillBase, part: real): real
    requires base.input != 0.0
  {
    Rate(base) * part
  }

  predicate PositiveInputs(bases: seq<FillBase>) { forall k :: 0 <= k < |bases| ==> bases[k].input > 0.0 }

  /** The output lost when a part of the input is cut from the end of a list of fills. */
  function CutOff(bases: seq<FillBase>, part: real): real
    requires PositiveInputs(bases)
  {
    if |bases| == 0 || part <= 0.0 then 0.0
    else
      var last := bases[|bases| - 1];
      if part <= last.input then OutputFor(last, part)
      else last.output + CutOff(bases[..|bases| - 1], part - last.input)
  }

  datatype Fill = Fill(base: FillBase, source: Source, data: FillData, flags: set<Flag>)
  {
    /** The shape of the fill data follows the source, as the TypeScript casts take for granted. */
    predicate WellTyped() {
      match source
      case Native => data.NativeData?
      case MultiHop => data.TwoHopData?
      case _ => data.BridgeData?
    }
  }

  datatype Order = Order(
    source: Source,
    makerToken: Address,
    takerToken: Address,
    makerAmount: real,
    takerAmount: real,
    data: FillData,
    fill: FillBase)
  {
    function Type(): OrderType { data.OrderType() }
  }

  datatype TwoHopOrder = TwoHopOrder(first: Order, second: Order)

  datatype OrdersByType = OrdersByType(
    nativeOrders: seq<Order>,
    twoHopOrders: seq<TwoHopOrder>,
    bridgeOrders: seq<Order>)

  /** Gas of filling a source with given data. */
  type GasSchedule = (Source, FillData) -> real

  // Selectors, named so that sums over them can be compared.

  function InputOf(f: Fill): real { f.base.input }

  function OutputOf(f: Fill): real { f.base.output }

  function BaseOf(f: Fill): FillBase { f.base }

  function FillOf(o: Order): FillBase { o.fill }

  function OrderInput(o: Order): real { o.fill.input }

  function OrderOutput(o: Order): real { o.fill.output }

  function TakerOf(o: Order): real { o.takerAmount }

  function MakerOf(o: Order): real { o.makerAmount }

  function Map<S, T>(xs: seq<S>, f: S -> T): (ys: seq<T>)
    ensures |ys| == |xs|
    ensures forall k :: 0 <= k < |xs| ==> ys[k] == f(xs[k])
  {
    seq(|xs|, i requires 0 <= i < |xs| => f(xs[i]))
  }
}
