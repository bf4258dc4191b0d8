/** Lowering a quote to the ordered transformations of `transformERC20`. */
module TransformErc20 {
  import opened Numbers
  import opened MarketTypes
  import opened Orders
  import opened Path
  import opened PathSimulation
  import opened QuoteInfo
  import opened FqtData
  import opened QuoteConsumer

  const ETH_TOKEN_ADDRESS := "0xeeeeeeeeeeeeeeeeeeeeeeeeeeeeeeeeeeeeeeee"
  const NULL_ADDRESS := "0x0000000000000000000000000000000000000000"
  const POSITIVE_SLIPPAGE_FEE_TRANSFORMER_GAS := 30000.0

  datatype TokenFee = TokenFee(token: Address, amount: real, recipient: Address)

  datatype Transformation =
    | AffiliateFees(fees: seq<TokenFee>)
    | Weth(token: Address, amount: real)
    | FillQuote(side: Side, sellToken: Address, buyToken: Address, orders: FqtData, fillAmount: real)
    | PositiveSlippageFeeTo(token: Address, bestCaseAmount: real, recipient: Address)
    | PayTaker(tokens: seq<Address>)

  datatype Chain = Chain(isCelo: bool, nativeToken: Address, etherToken: Address)

  datatype Calldata = Calldata(
    sellToken: Address,
    buyToken: Address,
    sellAmount: real,
    minBuyAmount: real,
    transformations: seq<Transformation>,
    ethAmount: real,
    gasOverhead: real)

  // ----- Fill amounts -----

  function TwoHopFillAmount(side: Side, ts: seq<TwoHopOrder>): real { SumOf(ts, TwoHopSelector(side)) }

  /** What is left of the quote for the orders that are not two-hop orders. */
  function NonTwoHopFillAmount(quote: SwapQuote): real {
    quote.fillAmount - TwoHopFillAmount(quote.side, quote.path.ordersByType.twoHopOrders)
  }

  // ----- Sections of the transformation list -----

  function SellFeeAmount(f: AffiliateFeeAmount): real { f.sellTokenFeeAmount }

  function FeeAmount(f: TokenFee): real { f.amount }

  /** The positive sell token fees, as transfers. */
  function SellTokenFees(fees: seq<AffiliateFeeAmount>, token: Address): seq<TokenFee> {
    if |fees| == 0 then []
    else
      var fee := fees[|fees| - 1];
      SellTokenFees(fees[..|fees| - 1], token)
      + if fee.sellTokenFeeAmount > 0.0 then [TokenFee(token, fee.sellTokenFeeAmount, fee.recipient)] else []
  }

  function SellFeeSection(quote: SwapQuote, opts: ConsumerOpts): seq<Transformation> {
    if |opts.sellTokenAffiliateFees| == 0 then []
    else [AffiliateFees(SellTokenFees(opts.sellTokenAffiliateFees,
                                      if opts.isFromETH then ETH_TOKEN_ADDRESS else quote.takerToken))]
  }

  /** Version 1 meta-transactions pay the sell token fees out of the amount sold through the proxy. */
  function TotalSellAmount(quote: SwapQuote, opts: ConsumerOpts): real {
    if |opts.sellTokenAffiliateFees| > 0 && opts.metaTransactionVersion == Some(V1)
    then quote.SellAmount() + SumOf(opts.sellTokenAffiliateFees, SellFeeAmount)
    else quote.SellAmount()
  }

  function WrapSection(quote: SwapQuote, opts: ConsumerOpts, chain: Chain): seq<Transformation> {
    if opts.isFromETH && !chain.isCelo
    then [Weth(ETH_TOKEN_ADDRESS, if opts.shouldSellEntireBalance then MAX_UINT256 else TotalSellAmount(quote, opts))]
    else []
  }

  function TwoHopFills(quote: SwapQuote, opts: ConsumerOpts, ts: seq<TwoHopOrder>): seq<Transformation> {
    if |ts| == 0 then []
    else
      var t := ts[|ts| - 1];
      TwoHopFills(quote, opts, ts[..|ts| - 1])
      + [FillQuote(Sell, quote.takerToken, t.first.makerToken, Lowered([t.first]),
                   if quote.side == Sell && opts.shouldSellEntireBalance then MAX_UINT256 else t.first.takerAmount),
         FillQuote(Sell, t.first.makerToken, quote.makerToken, Lowered([t.second]), MAX_UINT256)]
  }

  function NonTwoHopFill(quote: SwapQuote, opts: ConsumerOpts, orders: seq<Order>): seq<Transformation> {
    if |orders| == 0 then []
    else [FillQuote(quote.side, quote.takerToken, quote.makerToken, Lowered(orders),
                    if quote.side == Sell && opts.shouldSellEntireBalance then MAX_UINT256
                    else NonTwoHopFillAmount(quote))]
  }

  function FillSection(quote: SwapQuote, opts: ConsumerOpts, slipped: OrdersByType): seq<Transformation> {
    TwoHopFills(quote, opts, slipped.twoHopOrders)
    + NonTwoHopFill(quote, opts, slipped.nativeOrders + slipped.bridgeOrders)
  }

  function UnwrapSection(opts: ConsumerOpts, chain: Chain): seq<Transformation> {
    if opts.isToETH && !chain.isCelo then [Weth(chain.nativeToken, MAX_UINT256)] else []
  }

  function BuyTokenFees(opts: ConsumerOpts): seq<AffiliateFeeAmount> {
    opts.buyTokenAffiliateFees + if opts.positiveSlippageFee.Some? then [opts.positiveSlippageFee.value] else []
  }

  /** The buy token fee that is really deducted. */
  function ChargedBuyFee(fee: AffiliateFeeAmount): real {
    if fee.recipient == NULL_ADDRESS || fee.feeType == NoFee || fee.feeType == PositiveSlippageFee then 0.0
    else Max(0.0, fee.buyTokenFeeAmount)
  }

  /** What the taker is guaranteed: the worst case less the buy token fees. */
  function MinBuyAmount(quote: SwapQuote, opts: ConsumerOpts): real {
    Max(0.0, quote.worst.makerAmount - SumOf(BuyTokenFees(opts), ChargedBuyFee))
  }

  /** What it costs to hand out the surplus, in maker tokens. */
  function SurplusCost(quote: SwapQuote): real {
    POSITIVE_SLIPPAGE_FEE_TRANSFORMER_GAS * quote.gasPrice * quote.makerAmountPerEth
  }

  /** The amount above which the surplus goes to the positive slippage fee recipient. */
  function SurplusThreshold(quote: SwapQuote): real {
    Max(RoundHalfUp(quote.best.makerAmount + SurplusCost(quote)), quote.best.makerAmount)
  }

  function BuyFeeTransformation(quote: SwapQuote, opts: ConsumerOpts, fee: AffiliateFeeAmount): seq<Transformation> {
    var token := if opts.isToETH then ETH_TOKEN_ADDRESS else quote.makerToken;
    if fee.recipient == NULL_ADDRESS || fee.feeType == NoFee then []
    else if fee.feeType == PositiveSlippageFee then
      [PositiveSlippageFeeTo(token, SurplusThreshold(quote), fee.recipient)]
    else if ChargedBuyFee(fee) > 0.0 then [AffiliateFees([TokenFee(token, ChargedBuyFee(fee), fee.recipient)])]
    else []
  }

  function BuyFeeSection(quote: SwapQuote, opts: ConsumerOpts, fees: seq<AffiliateFeeAmount>): seq<Transformation> {
    if |fees| == 0 then []
    else BuyFeeSection(quote, opts, fees[..|fees| - 1]) + BuyFeeTransformation(quote, opts, fees[|fees| - 1])
  }

  function OverheadOf(fee: AffiliateFeeAmount): real {
    if fee.recipient != NULL_ADDRESS && fee.feeType == PositiveSlippageFee then POSITIVE_SLIPPAGE_FEE_TRANSFORMER_GAS
    else 0.0
  }

  function IntermediateTokens(ts: seq<TwoHopOrder>): seq<Address> {
    seq(|ts|, i requires 0 <= i < |ts| => ts[i].first.makerToken)
  }

  function PayTakerTransformation(quote: SwapQuote, opts: ConsumerOpts): Transformation {
    PayTaker([quote.takerToken] + IntermediateTokens(quote.path.ordersByType.twoHopOrders)
             + if opts.isToETH then [] else [ETH_TOKEN_ADDRESS])
  }

  /** The loop over the buy token fees. */
  method AppendBuyFees(quote: SwapQuote, opts: ConsumerOpts, fees: seq<AffiliateFeeAmount>, minBuy: real)
    returns (section: seq<Transformation>, minBuyAmount: real, gasOverhead: real)
    ensures section == BuyFeeSection(quote, opts, fees)
    ensures gasOverhead == SumOf(fees, OverheadOf)
    ensures minBuy >= 0.0 ==> minBuyAmount == Max(0.0, minBuy - SumOf(fees, ChargedBuyFee))
  {
    hide SurplusThreshold;
    section, minBuyAmount, gasOverhead := [], minBuy, 0.0;
    var token := if opts.isToETH then ETH_TOKEN_ADDRESS else quote.makerToken;
    for i := 0 to |fees|
      invariant section == BuyFeeSection(quote, opts, fees[..i])
      invariant gasOverhead == SumOf(fees[..i], OverheadOf)
      invariant minBuy >= 0.0 ==> minBuyAmount == Max(0.0, minBuy - SumOf(fees[..i], ChargedBuyFee))
      invariant SumOf(fees[..i], ChargedBuyFee) >= 0.0
    {
      var fee := fees[i];
      assert fees[..i + 1][..i] == fees[..i];
      ghost var before := section;
      if fee.recipient == NULL_ADDRESS || fee.feeType == NoFee {
      } else if fee.feeType == PositiveSlippageFee {
        var surplus := SurplusThreshold(quote);
        section := section + [PositiveSlippageFeeTo(token, surplus, fee.recipient)];
        gasOverhead := POSITIVE_SLIPPAGE_FEE_TRANSFORMER_GAS + gasOverhead;
      } else if fee.buyTokenFeeAmount > 0.0 {
        section := section + [AffiliateFees([TokenFee(token, fee.buyTokenFeeAmount, fee.recipient)])];
        minBuyAmount := Max(0.0, minBuyAmount - fee.buyTokenFeeAmount);
      }
      assert section == before + BuyFeeTransformation(quote, opts, fee);
    }
    assert fees[..|fees|] == fees;
  }

  /** The transformations of a call: fees and wrapping, the fills, and what is done with the proceeds. */
  function CallTransformations(quote: SwapQuote, opts: ConsumerOpts, chain: Chain): seq<Transformation>
    requires 0.0 <= quote.MaxSlippage() <= 1.0
  {
    SellFeeSection(quote, opts) + WrapSection(quote, opts, chain)
    + FillSection(quote, opts, SlippedOrdersByType(quote.path, quote.MaxSlippage()).value)
    + UnwrapSection(opts, chain) + BuyFeeSection(quote, opts, BuyTokenFees(opts))
    + [PayTakerTransformation(quote, opts)]
  }

  method CreateCalldata(quote: SwapQuote, opts: ConsumerOpts, chain: Chain) returns (r: Result<Calldata>)
    ensures r.Err? <==> !(0.0 <= quote.MaxSlippage() <= 1.0)
    ensures r.Ok? ==>
              && r.value.transformations == CallTransformations(quote, opts, chain)
              && r.value.sellAmount == (if opts.shouldSellEntireBalance then MAX_UINT256
                                      else TotalSellAmount(quote, opts))
              && r.value.ethAmount == quote.worst.protocolFee + (if opts.isFromETH then quote.SellAmount() else 0.0)
              && r.value.sellToken == (if opts.isFromETH then ETH_TOKEN_ADDRESS else quote.takerToken)
              && r.value.buyToken == (if !opts.isToETH then quote.makerToken
                                      else if chain.isCelo then chain.etherToken else ETH_TOKEN_ADDRESS)
              && r.value.gasOverhead == SumOf(BuyTokenFees(opts), OverheadOf)
    ensures r.Ok? && quote.worst.makerAmount >= 0.0 ==>
              r.value.minBuyAmount == MinBuyAmount(quote, opts)
  {
    hide FillSection, BuyFeeSection, SellTokenFees, SlipTwoHops, SlipOrders, ChargedBuyFee;
    var sellAmount, minBuyAmount := quote.SellAmount(), quote.worst.makerAmount;
    var ethAmount := quote.worst.protocolFee + if opts.isFromETH then sellAmount else 0.0;
    var transformations: seq<Transformation> := [];

    if |opts.sellTokenAffiliateFees| > 0 {
      var token := if opts.isFromETH then ETH_TOKEN_ADDRESS else quote.takerToken;
      transformations := transformations + [AffiliateFees(SellTokenFees(opts.sellTokenAffiliateFees, token))];
      if opts.metaTransactionVersion == Some(V1) {
        sellAmount := sellAmount + SumOf(opts.sellTokenAffiliateFees, SellFeeAmount);
      }
    }
    assert transformations == SellFeeSection(quote, opts) && sellAmount == TotalSellAmount(quote, opts);
    if opts.isFromETH && !chain.isCelo {
      transformations := transformations
        + [Weth(ETH_TOKEN_ADDRESS, if opts.shouldSellEntireBalance then MAX_UINT256 else sellAmount)];
    }
    ghost var before := SellFeeSection(quote, opts) + WrapSection(quote, opts, chain);
    assert transformations == before;
    var slipped := SlippedOrdersByType(quote.path, quote.MaxSlippage());
    if slipped.Err? {
      return Err(slipped.error);
    }
    transformations := transformations + FillSection(quote, opts, slipped.value);
    if opts.isToETH && !chain.isCelo {
      transformations := transformations + [Weth(chain.nativeToken, MAX_UINT256)];
    }

    ghost var filled := before + FillSection(quote, opts, slipped.value) + UnwrapSection(opts, chain);
    assert transformations == filled;
    var buyFees, gasOverhead;
    buyFees, minBuyAmount, gasOverhead := AppendBuyFees(quote, opts, BuyTokenFees(opts), minBuyAmount);
    transformations := transformations + buyFees;
    transformations := transformations + [PayTakerTransformation(quote, opts)];
    return Ok(Calldata(
      if opts.isFromETH then ETH_TOKEN_ADDRESS else quote.takerToken,
      if !opts.isToETH then quote.makerToken else if chain.isCelo then chain.etherToken else ETH_TOKEN_ADDRESS,
      if opts.shouldSellEntireBalance then MAX_UINT256 else sellAmount,
      minBuyAmount, transformations, ethAmount, gasOverhead));
  }

  // ----- Conservation -----

  /** A quote as the swap quoter assembles it from a path; only the gas is adjusted afterwards. */
  ghost predicate QuoteFor(quote: SwapQuote, r: QuoteRequest) {
    && Quotable(quote.path, r) && quote.side == r.side && quote.fillAmount == r.amount
    && quote.takerToken == quote.path.context.TakerToken() && quote.makerToken == quote.path.context.MakerToken()
    && CalculateQuoteInfo(quote.path.ordersByType, r).Ok?
    && var infos := CalculateQuoteInfo(quote.path.ordersByType, r).value;
       quote.best == infos.best.(gas := quote.best.gas) && quote.worst == infos.worst.(gas := quote.worst.gas)
  }

  /**
   * The non-two-hop fill amount is what the native and bridge orders hold, less what the fills overshoot the
   * quote, on both sides of the market.
   */
  lemma NonTwoHopFillAmountIsTheRest(quote: SwapQuote)
    requires Built(quote.path) && quote.side == quote.path.context.side
    ensures NonTwoHopFillAmount(quote)
         == SumOf(quote.path.ordersByType.nativeOrders, OrderSelector(quote.side))
            + SumOf(quote.path.ordersByType.bridgeOrders, OrderSelector(quote.side))
            - (SumOf(quote.path.fills, InputOf) - quote.fillAmount)
  {
    InputsArePartitioned(quote.path.fills, quote.path.context);
  }

  /** Sell tokens a transformation spends: fees, and fills that start from the sell token. */
  function Spends(t: Transformation, token: Address): real {
    match t
    case AffiliateFees(fees) => SumOf(fees, FeeAmount)
    case FillQuote(_, sellToken, _, _, amount) => if sellToken == token then amount else 0.0
    case _ => 0.0
  }

  function SpentBy(ts: seq<Transformation>, token: Address): real {
    if |ts| == 0 then 0.0 else SpentBy(ts[..|ts| - 1], token) + Spends(ts[|ts| - 1], token)
  }

  lemma {:induction false} SpentByConcat(xs: seq<Transformation>, ys: seq<Transformation>, token: Address)
    ensures SpentBy(xs + ys, token) == SpentBy(xs, token) + SpentBy(ys, token)
  {
    if |ys| == 0 {
      assert xs + ys == xs;
    } else {
      assert (xs + ys)[..|xs + ys| - 1] == xs + ys[..|ys| - 1];
      SpentByConcat(xs, ys[..|ys| - 1], token);
    }
  }

  lemma {:induction false} SellFeesSpend(fees: seq<AffiliateFeeAmount>, token: Address)
    requires forall f <- fees :: f.sellTokenFeeAmount >= 0.0
    ensures SumOf(SellTokenFees(fees, token), FeeAmount) == SumOf(fees, SellFeeAmount)
  {
    if |fees| > 0 {
      var front, fee := fees[..|fees| - 1], fees[|fees| - 1];
      assert fee in fees;
      SellFeesSpend(front, token);
      if fee.sellTokenFeeAmount > 0.0 {
        SumAppend(SellTokenFees(front, token), TokenFee(token, fee.sellTokenFeeAmount, fee.recipient), FeeAmount);
      } else {
        assert SellTokenFees(fees, token) == SellTokenFees(front, token);
      }
    }
  }

  lemma {:induction false} TwoHopFillsSpend(quote: SwapQuote, opts: ConsumerOpts, ts: seq<TwoHopOrder>)
    requires !opts.shouldSellEntireBalance && forall t <- ts :: t.first.makerToken != quote.takerToken
    ensures SpentBy(TwoHopFills(quote, opts, ts), quote.takerToken) == SumOf(ts, FirstTaker)
  {
    if |ts| > 0 {
      var front, t := ts[..|ts| - 1], ts[|ts| - 1];
      assert t in ts;
      TwoHopFillsSpend(quote, opts, front);
      var a := FillQuote(Sell, quote.takerToken, t.first.makerToken, Lowered([t.first]), t.first.takerAmount);
      var b := FillQuote(Sell, t.first.makerToken, quote.makerToken, Lowered([t.second]), MAX_UINT256);
      assert TwoHopFills(quote, opts, ts) == (TwoHopFills(quote, opts, front) + [a]) + [b];
      SpentBySnoc(TwoHopFills(quote, opts, front) + [a], b, quote.takerToken);
      SpentBySnoc(TwoHopFills(quote, opts, front), a, quote.takerToken);
    }
  }

  lemma SpentBySnoc(ts: seq<Transformation>, t: Transformation, token: Address)
    ensures SpentBy(ts + [t], token) == SpentBy(ts, token) + Spends(t, token)
  {
    assert (ts + [t])[..|ts|] == ts;
  }

  lemma {:induction false} SlippedFirstTakers(ts: seq<TwoHopOrder>, slippage: real)
    ensures SumOf(SlipTwoHops(ts, slippage, Sell), FirstTaker) == SumOf(ts, FirstTaker)
  {
    SumPointwise(SlipTwoHops(ts, slippage, Sell), FirstTaker, ts, FirstTaker);
  }

  lemma {:induction false} SlippedHopsKeepTokens(ts: seq<TwoHopOrder>, slippage: real, token: Address)
    requires forall t <- ts :: t.first.makerToken != token
    ensures forall t <- SlipTwoHops(ts, slippage, Sell) :: t.first.makerToken != token
  {
    forall t | t in SlipTwoHops(ts, slippage, Sell) ensures t.first.makerToken != token {
      var k :| 0 <= k < |ts| && t == SlipTwoHop(ts[k], slippage, Sell);
      assert ts[k] in ts;
    }
  }

  lemma {:induction false} NonTwoHopFillSpends(quote: SwapQuote, opts: ConsumerOpts, orders: seq<Order>)
    requires !opts.shouldSellEntireBalance
    ensures SpentBy(NonTwoHopFill(quote, opts, orders), quote.takerToken)
         == if |orders| == 0 then 0.0 else NonTwoHopFillAmount(quote)
  {
    if |orders| > 0 {
      var fill := FillQuote(quote.side, quote.takerToken, quote.makerToken, Lowered(orders),
                            NonTwoHopFillAmount(quote));
      assert NonTwoHopFill(quote, opts, orders) == [] + [fill];
      SpentBySnoc([], fill, quote.takerToken);
    }
  }

  predicate HasSingleHops(p: Path) { SingleHopOrders(p.ordersByType) != [] }

  /** What the fills of a sell are told to spend: the routed amount, unless there are two-hop orders only. */
  function FillsSpend(quote: SwapQuote): real {
    if HasSingleHops(quote.path) then quote.fillAmount else TwoHopInput(quote.path)
  }

  /** The fills of a sell spend the routed amount whatever the fills sum to, since the last one takes the rest. */
  lemma {:induction false} FillsSpendTheQuote(quote: SwapQuote, opts: ConsumerOpts, slippage: real)
    requires Built(quote.path) && quote.side == quote.path.context.side == Sell && 0.0 <= slippage <= 1.0
    requires !opts.shouldSellEntireBalance
    requires forall t <- quote.path.ordersByType.twoHopOrders :: t.first.makerToken != quote.takerToken
    ensures SpentBy(FillSection(quote, opts, SlippedOrdersByType(quote.path, slippage).value), quote.takerToken)
         == FillsSpend(quote)
    ensures FillsSpend(quote) == quote.fillAmount
       <==> HasSingleHops(quote.path) || TwoHopInput(quote.path) == quote.fillAmount
  {
    var orders, slipped := quote.path.ordersByType, SlippedOrdersByType(quote.path, slippage).value;
    SlippedHopsKeepTokens(orders.twoHopOrders, slippage, quote.takerToken);
    TwoHopFillsSpend(quote, opts, slipped.twoHopOrders);
    SlippedFirstTakers(orders.twoHopOrders, slippage);
    NonTwoHopFillSpends(quote, opts, slipped.nativeOrders + slipped.bridgeOrders);
    SpentByConcat(TwoHopFills(quote, opts, slipped.twoHopOrders),
                  NonTwoHopFill(quote, opts, slipped.nativeOrders + slipped.bridgeOrders), quote.takerToken);
  }

  /** The sell tokens a call is told to spend: on fees before the fills, and in the fills. */
  function SellSpending(quote: SwapQuote, opts: ConsumerOpts): real
    requires 0.0 <= quote.MaxSlippage() <= 1.0
  {
    SpentBy(SellFeeSection(quote, opts)
            + FillSection(quote, opts, SlippedOrdersByType(quote.path, quote.MaxSlippage()).value), quote.takerToken)
  }

  lemma {:induction false} SellFeesAndFillsSpend(quote: SwapQuote, opts: ConsumerOpts)
    requires Built(quote.path) && quote.side == quote.path.context.side == Sell && 0.0 <= quote.MaxSlippage() <= 1.0
    requires !opts.shouldSellEntireBalance
    requires forall f <- opts.sellTokenAffiliateFees :: f.sellTokenFeeAmount >= 0.0
    requires forall t <- quote.path.ordersByType.twoHopOrders :: t.first.makerToken != quote.takerToken
    ensures SellSpending(quote, opts) == SumOf(opts.sellTokenAffiliateFees, SellFeeAmount) + FillsSpend(quote)
  {
    var fills := FillSection(quote, opts, SlippedOrdersByType(quote.path, quote.MaxSlippage()).value);
    FillsSpendTheQuote(quote, opts, quote.MaxSlippage());
    SpentByConcat(SellFeeSection(quote, opts), fills, quote.takerToken);
    var token := if opts.isFromETH then ETH_TOKEN_ADDRESS else quote.takerToken;
    SellFeesSpend(opts.sellTokenAffiliateFees, token);
    if |opts.sellTokenAffiliateFees| > 0 {
      var t := AffiliateFees(SellTokenFees(opts.sellTokenAffiliateFees, token));
      SpentBySnoc([], t, quote.takerToken);
      assert [] + [t] == SellFeeSection(quote, opts);
    }
  }

  /** The call of a version 1 meta-transaction sells the routed amount, the excess of the path and the fees. */
  lemma TotalSellAmountIs(quote: SwapQuote, r: QuoteRequest, opts: ConsumerOpts)
    requires QuoteFor(quote, r) && quote.side == Sell
    ensures quote.best.totalTakerAmount == quote.SellAmount() == quote.fillAmount + Excess(quote.path, quote.fillAmount)
    ensures opts.metaTransactionVersion == Some(V1) ==>
              TotalSellAmount(quote, opts) == quote.SellAmount() + SumOf(opts.sellTokenAffiliateFees, SellFeeAmount)
    ensures opts.metaTransactionVersion != Some(V1) ==> TotalSellAmount(quote, opts) == quote.SellAmount()
  {
    QuoteMeetsRequestIff(quote.path, r);
  }

  /**
   * In a version 1 meta-transaction every sell token handed to the proxy goes to a fee recipient or into a
   * fill, exactly when the path meets the request or consists of two-hop orders only: then the affiliate fees
   * and the fills together spend the sell amount of the call. Otherwise the difference is the excess.
   */
  lemma SellTokensAreConserved(quote: SwapQuote, r: QuoteRequest, opts: ConsumerOpts)
    requires QuoteFor(quote, r) && quote.side == Sell && 0.0 <= quote.MaxSlippage() <= 1.0
    requires !opts.shouldSellEntireBalance && opts.metaTransactionVersion == Some(V1)
    requires forall f <- opts.sellTokenAffiliateFees :: f.sellTokenFeeAmount >= 0.0
    requires forall t <- quote.path.ordersByType.twoHopOrders :: t.first.makerToken != quote.takerToken
    ensures SellSpending(quote, opts) == TotalSellAmount(quote, opts)
       <==> !HasSingleHops(quote.path) || MeetsRequest(quote.path, quote.fillAmount)
    ensures HasSingleHops(quote.path) ==>
              TotalSellAmount(quote, opts) - SellSpending(quote, opts) == Excess(quote.path, quote.fillAmount)
  {
    SellFeesAndFillsSpend(quote, opts);
    TotalSellAmountIs(quote, r, opts);
    ExcessAgainstFills(quote.path, quote.fillAmount);
  }

  /** Without single-hop orders the excess is what the two-hop orders take beyond the amount. */
  lemma ExcessAgainstFills(p: Path, amount: real)
    requires Built(p) && amount >= 0.0
    ensures Excess(p, amount) == 0.0 <==> MeetsRequest(p, amount)
    ensures !HasSingleHops(p) ==> Excess(p, amount) == TwoHopInput(p) - amount
  {
    ExcessZeroIff(p, amount);
  }
}
