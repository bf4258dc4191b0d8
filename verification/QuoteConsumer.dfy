/** A finished quote, the options for encoding it, and which encodings it qualifies for. */
module QuoteConsumer {
  import opened Numbers
  import opened MarketTypes
  import opened Path
  import opened QuoteInfo

  datatype AffiliateFeeType = NoFee | PercentageFee | PositiveSlippageFee | GaslessFee

  datatype AffiliateFeeAmount = AffiliateFeeAmount(
    feeType: AffiliateFeeType,
    recipient: Address,
    buyTokenFeeAmount: real,
    sellTokenFeeAmount: real)

  datatype MetaTransactionVersion = V1 | V2

  datatype ConsumerOpts = ConsumerOpts(
    isFromETH: bool,
    isToETH: bool,
    sellTokenAffiliateFees: seq<AffiliateFeeAmount>,
    buyTokenAffiliateFees: seq<AffiliateFeeAmount>,
    positiveSlippageFee: Option<AffiliateFeeAmount>,
    metaTransactionVersion: Option<MetaTransactionVersion>,
    shouldSellEntireBalance: bool)

  datatype SwapQuote = SwapQuote(
    side: Side,
    takerToken: Address,
    makerToken: Address,
    path: Path,
    best: SwapQuoteInfo,
    worst: SwapQuoteInfo,
    fillAmount: real,
    gasPrice: real,
    makerAmountPerEth: real)
  {
    function MaxSlippage(): real { worst.slippage }

    function SellAmount(): real { Max(best.totalTakerAmount, worst.totalTakerAmount) }
  }

  predicate RequiresTransformERC20(opts: ConsumerOpts) {
    || opts.metaTransactionVersion.Some?
    || (exists f <- opts.sellTokenAffiliateFees + opts.buyTokenAffiliateFees ::
          f.buyTokenFeeAmount > 0.0 || f.sellTokenFeeAmount > 0.0)
    || opts.shouldSellEntireBalance
  }

  predicate IsMultiplexBatchSource(s: Source) {
    s == UniswapV2 || s == SushiSwap || s == Native || s == UniswapV3
  }

  predicate IsMultiplexHopSource(s: Source) {
    s == UniswapV2 || s == SushiSwap || s == UniswapV3
  }

  predicate IsMultiplexBatchFillCompatible(quote: SwapQuote, opts: ConsumerOpts) {
    && !RequiresTransformERC20(opts)
    && !quote.path.HasTwoHop()
    && (forall o <- quote.path.GetOrders() :: o.Type() != Limit)
    && (forall o <- quote.path.GetOrders() :: IsMultiplexBatchSource(o.source))
  }

  predicate IsMultiplexMultiHopFillCompatible(orders: OrdersByType, opts: ConsumerOpts) {
    && !RequiresTransformERC20(opts)
    && |orders.bridgeOrders| == 0 && |orders.nativeOrders| == 0
    && |orders.twoHopOrders| == 1
    && IsMultiplexHopSource(orders.twoHopOrders[0].first.source)
    && IsMultiplexHopSource(orders.twoHopOrders[0].second.source)
  }
}
