/** What a call pays besides its fills: affiliate fees, surplus, and what is left for the taker. */
module CallFees {
  import opened Numbers
  import opened MarketTypes
  import opened Path
  import opened QuoteConsumer
  import opened TransformErc20
  import opened CallOrders

  // ----- Affiliate fees -----

  /** All affiliate fees that a list of transformations pays. */
  function PaidFees(ts: seq<Transformation>): seq<TokenFee> {
    if |ts| == 0 then []
    else PaidFees(ts[..|ts| - 1]) + if ts[|ts| - 1].AffiliateFees? then ts[|ts| - 1].fees else []
  }

  function PaidTo(token: Address, recipient: Address): TokenFee -> real {
    (f: TokenFee) => if f.token == token && f.recipient == recipient then f.amount else 0.0
  }

  /** What the recipient is paid in the token. */
  function Paid(ts: seq<Transformation>, token: Address, recipient: Address): real {
    SumOf(PaidFees(ts), PaidTo(token, recipient))
  }

  /** The part of a fee that is due to the recipient in sell tokens. */
  function SellDue(recipient: Address): AffiliateFeeAmount -> real {
    (f: AffiliateFeeAmount) => if f.recipient == recipient then Max(0.0, f.sellTokenFeeAmount) else 0.0
  }

  /** Percentage and gasless fees are due in buy tokens, to any recipient but the null address. */
  function BuyDue(recipient: Address): AffiliateFeeAmount -> real {
    (f: AffiliateFeeAmount) =>
      if f.recipient == recipient != NULL_ADDRESS && (f.feeType == PercentageFee || f.feeType == GaslessFee)
      then Max(0.0, f.buyTokenFeeAmount) else 0.0
  }

  lemma {:induction false} PaidFeesConcat(xs: seq<Transformation>, ys: seq<Transformation>)
    ensures PaidFees(xs + ys) == PaidFees(xs) + PaidFees(ys)
  {
    if |ys| == 0 {
      assert xs + ys == xs;
    } else {
      assert (xs + ys)[..|xs + ys| - 1] == xs + ys[..|ys| - 1];
      PaidFeesConcat(xs, ys[..|ys| - 1]);
    }
  }

  lemma PaidConcat(xs: seq<Transformation>, ys: seq<Transformation>, token: Address, recipient: Address)
    ensures Paid(xs + ys, token, recipient) == Paid(xs, token, recipient) + Paid(ys, token, recipient)
  {
    PaidFeesConcat(xs, ys);
    SumConcat(PaidFees(xs), PaidFees(ys), PaidTo(token, recipient));
  }

  lemma {:induction false} NothingPaid(ts: seq<Transformation>, token: Address, recipient: Address)
    requires forall t <- ts :: !t.AffiliateFees?
    ensures PaidFees(ts) == [] && Paid(ts, token, recipient) == 0.0
  {
    if |ts| > 0 {
      assert ts[|ts| - 1] in ts;
      NothingPaid(ts[..|ts| - 1], token, recipient);
    }
  }

  lemma {:induction false} SellFeesReach(fees: seq<AffiliateFeeAmount>, paidIn: Address, token: Address,
                                         recipient: Address)
    ensures SumOf(SellTokenFees(fees, paidIn), PaidTo(token, recipient))
         == if token == paidIn then SumOf(fees, SellDue(recipient)) else 0.0
  {
    if |fees| > 0 {
      var front, fee := fees[..|fees| - 1], fees[|fees| - 1];
      SellFeesReach(front, paidIn, token, recipient);
      if fee.sellTokenFeeAmount > 0.0 {
        SumAppend(SellTokenFees(front, paidIn), TokenFee(paidIn, fee.sellTokenFeeAmount, fee.recipient),
                  PaidTo(token, recipient));
      } else {
        assert SellTokenFees(fees, paidIn) == SellTokenFees(front, paidIn);
      }
    }
  }

  function SellFeeToken(quote: SwapQuote, opts: ConsumerOpts): Address {
    if opts.isFromETH then ETH_TOKEN_ADDRESS else quote.takerToken
  }

  function BuyFeeToken(quote: SwapQuote, opts: ConsumerOpts): Address {
    if opts.isToETH then ETH_TOKEN_ADDRESS else quote.makerToken
  }

  lemma SellSectionPays(quote: SwapQuote, opts: ConsumerOpts, token: Address, recipient: Address)
    ensures Paid(SellFeeSection(quote, opts), token, recipient)
         == if token == SellFeeToken(quote, opts) then SumOf(opts.sellTokenAffiliateFees, SellDue(recipient)) else 0.0
  {
    if |opts.sellTokenAffiliateFees| > 0 {
      var fees := SellTokenFees(opts.sellTokenAffiliateFees, SellFeeToken(quote, opts));
      SellFeesReach(opts.sellTokenAffiliateFees, SellFeeToken(quote, opts), token, recipient);
      assert SellFeeSection(quote, opts) == [AffiliateFees(fees)];
      PaidAlone(fees);
    }
  }

  lemma PaidAlone(fees: seq<TokenFee>)
    ensures PaidFees([AffiliateFees(fees)]) == fees
  {
    assert [AffiliateFees(fees)][..0] == [];
  }

  lemma BuyFeePays(quote: SwapQuote, opts: ConsumerOpts, fee: AffiliateFeeAmount, token: Address, recipient: Address)
    ensures Paid(BuyFeeTransformation(quote, opts, fee), token, recipient)
         == if token == BuyFeeToken(quote, opts) then BuyDue(recipient)(fee) else 0.0
  {
    hide SurplusThreshold;
    var ts := BuyFeeTransformation(quote, opts, fee);
    if ChargedBuyFee(fee) > 0.0 {
      var paid := TokenFee(BuyFeeToken(quote, opts), fee.buyTokenFeeAmount, fee.recipient);
      assert ts == [AffiliateFees([paid])];
      PaidAlone([paid]);
      SumAppend([], paid, PaidTo(token, recipient));
      assert [] + [paid] == [paid];
    } else {
      NothingPaid(ts, token, recipient);
    }
  }

  lemma {:induction false} BuySectionPays(
    quote: SwapQuote, opts: ConsumerOpts, fees: seq<AffiliateFeeAmount>, token: Address, recipient: Address)
    ensures Paid(BuyFeeSection(quote, opts, fees), token, recipient)
         == if token == BuyFeeToken(quote, opts) then SumOf(fees, BuyDue(recipient)) else 0.0
  {
    hide BuyFeeTransformation, BuyDue, PaidTo;
    if |fees| > 0 {
      var front, fee := fees[..|fees| - 1], fees[|fees| - 1];
      BuySectionPays(quote, opts, front, token, recipient);
      BuyFeePays(quote, opts, fee, token, recipient);
      PaidConcat(BuyFeeSection(quote, opts, front), BuyFeeTransformation(quote, opts, fee), token, recipient);
    }
  }

  /**
   * A call pays every recipient what the options owe it, no more and no less: sell token fees in the sell token or
   * ETH, buy token fees in the buy token or ETH.
   */
  lemma CallPaysFees(quote: SwapQuote, opts: ConsumerOpts, chain: Chain, token: Address, recipient: Address)
    requires 0.0 <= quote.MaxSlippage() <= 1.0
    ensures Paid(CallTransformations(quote, opts, chain), token, recipient)
         == (if token == SellFeeToken(quote, opts) then SumOf(opts.sellTokenAffiliateFees, SellDue(recipient)) else 0.0)
            + (if token == BuyFeeToken(quote, opts) then SumOf(BuyTokenFees(opts), BuyDue(recipient)) else 0.0)
  {
    hide Paid, PaidFees, SellFeeSection, BuyFeeSection, TwoHopFills, SellDue, BuyDue;
    var slipped := SlippedOrdersByType(quote.path, quote.MaxSlippage()).value;
    var fees, wrap := SellFeeSection(quote, opts), WrapSection(quote, opts, chain);
    var fills, unwrap := FillSection(quote, opts, slipped), UnwrapSection(opts, chain);
    var buyFees, pay := BuyFeeSection(quote, opts, BuyTokenFees(opts)), [PayTakerTransformation(quote, opts)];
    SellSectionPays(quote, opts, token, recipient);
    NothingPaid(wrap, token, recipient);
    TwoHopFillsAreFills(quote, opts, slipped.twoHopOrders);
    NothingPaid(fills, token, recipient);
    NothingPaid(unwrap, token, recipient);
    BuySectionPays(quote, opts, BuyTokenFees(opts), token, recipient);
    NothingPaid(pay, token, recipient);
    PaidConcat(fees, wrap, token, recipient);
    PaidConcat(fees + wrap, fills, token, recipient);
    PaidConcat(fees + wrap + fills, unwrap, token, recipient);
    PaidConcat(fees + wrap + fills + unwrap, buyFees, token, recipient);
    PaidConcat(fees + wrap + fills + unwrap + buyFees, pay, token, recipient);
  }

  // ----- Surplus -----

  predicate IsSurplusFee(fee: AffiliateFeeAmount) {
    fee.feeType == PositiveSlippageFee && fee.recipient != NULL_ADDRESS
  }

  /** The surplus transformations, and the fees they are for. */
  function SurplusOf(ts: seq<Transformation>): seq<Transformation> {
    if |ts| == 0 then []
    else SurplusOf(ts[..|ts| - 1]) + if ts[|ts| - 1].PositiveSlippageFeeTo? then [ts[|ts| - 1]] else []
  }

  function SurplusFees(fees: seq<AffiliateFeeAmount>): seq<AffiliateFeeAmount> {
    if |fees| == 0 then []
    else SurplusFees(fees[..|fees| - 1]) + if IsSurplusFee(fees[|fees| - 1]) then [fees[|fees| - 1]] else []
  }

  /** The gas of handing out the surplus, in maker tokens. */
  function SurplusGas(quote: SwapQuote): real { 30000.0 * quote.gasPrice * quote.makerAmountPerEth }

  /** Only what exceeds the best case, and the gas of handing it out to the nearest token, goes to the recipient. */
  predicate LeavesBestCase(t: Transformation, quote: SwapQuote, opts: ConsumerOpts, fee: AffiliateFeeAmount) {
    && t.PositiveSlippageFeeTo? && t.token == BuyFeeToken(quote, opts) && t.recipient == fee.recipient
    && t.bestCaseAmount >= quote.best.makerAmount
    && (IsInt(quote.best.makerAmount) && quote.best.makerAmount >= 0.0 ==>
          && IsInt(t.bestCaseAmount)
          && (SurplusGas(quote) <= 0.0 ==> t.bestCaseAmount == quote.best.makerAmount)
          && (SurplusGas(quote) >= 0.0 ==>
                -0.5 <= t.bestCaseAmount - (quote.best.makerAmount + SurplusGas(quote)) <= 0.5))
  }

  lemma {:induction false} SurplusConcat(xs: seq<Transformation>, ys: seq<Transformation>)
    ensures SurplusOf(xs + ys) == SurplusOf(xs) + SurplusOf(ys)
  {
    if |ys| == 0 {
      assert xs + ys == xs;
    } else {
      assert (xs + ys)[..|xs + ys| - 1] == xs + ys[..|ys| - 1];
      SurplusConcat(xs, ys[..|ys| - 1]);
    }
  }

  lemma {:induction false} NoSurplus(ts: seq<Transformation>)
    requires forall t <- ts :: !t.PositiveSlippageFeeTo?
    ensures SurplusOf(ts) == []
  {
    if |ts| > 0 {
      assert ts[|ts| - 1] in ts;
      NoSurplus(ts[..|ts| - 1]);
    }
  }

  lemma ThresholdLeavesBestCase(quote: SwapQuote, opts: ConsumerOpts, fee: AffiliateFeeAmount)
    ensures var t := PositiveSlippageFeeTo(BuyFeeToken(quote, opts), SurplusThreshold(quote), fee.recipient);
            LeavesBestCase(t, quote, opts, fee)
  {
    hide SurplusGas, SurplusThreshold;
    var best, gas := quote.best.makerAmount, SurplusGas(quote);
    ThresholdIs(quote);
    if IsInt(best) && best >= 0.0 { NearestAbove(best, gas); }
  }

  lemma ThresholdIs(quote: SwapQuote)
    ensures SurplusThreshold(quote)
         == Max(RoundHalfUp(quote.best.makerAmount + SurplusGas(quote)), quote.best.makerAmount)
  {
    assert SurplusCost(quote) == SurplusGas(quote);
    hide RoundHalfUp, SurplusCost, SurplusGas;
  }

  lemma NearestAbove(best: real, gas: real)
    requires IsInt(best) && best >= 0.0
    ensures var t := Max(RoundHalfUp(best + gas), best);
            && IsInt(t) && (gas <= 0.0 ==> t == best) && (gas >= 0.0 ==> -0.5 <= t - (best + gas) <= 0.5)
  {
    if gas <= 0.0 { IntsLess(RoundHalfUp(best + gas), best); }
    if gas >= 0.0 { IntsLess(best, RoundHalfUp(best + gas)); }
  }

  lemma SurplusOfOne(t: Transformation)
    ensures SurplusOf([t]) == if t.PositiveSlippageFeeTo? then [t] else []
  {
    assert [t][..0] == [];
  }

  lemma {:induction false} BuySectionSurplus(quote: SwapQuote, opts: ConsumerOpts, fees: seq<AffiliateFeeAmount>)
    ensures var surplus, due := SurplusOf(BuyFeeSection(quote, opts, fees)), SurplusFees(fees);
            && |surplus| == |due| && SumOf(fees, OverheadOf) == 30000.0 * |due| as real
            && forall k :: 0 <= k < |due| ==> LeavesBestCase(surplus[k], quote, opts, due[k])
  {
    hide LeavesBestCase, BuyFeeTransformation, OverheadOf, IsSurplusFee;
    if |fees| > 0 {
      var front, fee := fees[..|fees| - 1], fees[|fees| - 1];
      BuySectionSurplus(quote, opts, front);
      SurplusConcat(BuyFeeSection(quote, opts, front), BuyFeeTransformation(quote, opts, fee));
      OneFeeSurplus(quote, opts, fee);
    }
  }

  lemma OneFeeSurplus(quote: SwapQuote, opts: ConsumerOpts, fee: AffiliateFeeAmount)
    ensures var surplus := SurplusOf(BuyFeeTransformation(quote, opts, fee));
            && |surplus| == (if IsSurplusFee(fee) then 1 else 0)
            && OverheadOf(fee) == (if IsSurplusFee(fee) then 30000.0 else 0.0)
            && (IsSurplusFee(fee) ==> LeavesBestCase(surplus[0], quote, opts, fee))
  {
    hide LeavesBestCase, ChargedBuyFee, SurplusThreshold;
    if |BuyFeeTransformation(quote, opts, fee)| > 0 { SurplusOfOne(BuyFeeTransformation(quote, opts, fee)[0]); }
    ThresholdLeavesBestCase(quote, opts, fee);
  }

  /**
   * A call has one surplus transformation for each surplus fee, which leaves the taker the best case, and is charged
   * the gas overhead of each.
   */
  lemma CallLeavesBestCase(quote: SwapQuote, opts: ConsumerOpts, chain: Chain)
    requires 0.0 <= quote.MaxSlippage() <= 1.0
    ensures var surplus, due := SurplusOf(CallTransformations(quote, opts, chain)), SurplusFees(BuyTokenFees(opts));
            && |surplus| == |due| && SumOf(BuyTokenFees(opts), OverheadOf) == 30000.0 * |surplus| as real
            && forall k :: 0 <= k < |due| ==> LeavesBestCase(surplus[k], quote, opts, due[k])
  {
    hide SurplusOf, SurplusFees, BuyFeeSection, TwoHopFills, LeavesBestCase, SumOf;
    var slipped := SlippedOrdersByType(quote.path, quote.MaxSlippage()).value;
    var before := SellFeeSection(quote, opts) + WrapSection(quote, opts, chain) + FillSection(quote, opts, slipped)
                  + UnwrapSection(opts, chain);
    var buyFees, pay := BuyFeeSection(quote, opts, BuyTokenFees(opts)), [PayTakerTransformation(quote, opts)];
    TwoHopFillsAreFills(quote, opts, slipped.twoHopOrders);
    NoSurplus(before);
    NoSurplus(pay);
    BuySectionSurplus(quote, opts, BuyTokenFees(opts));
    SurplusConcat(before, buyFees);
    SurplusConcat(before + buyFees, pay);
  }

  /** The buy token fees that a call pays and the amount it guarantees come out of the worst case. */
  lemma GuaranteeIsWorstLessFees(quote: SwapQuote, opts: ConsumerOpts)
    ensures var paid := PaidFees(BuyFeeSection(quote, opts, BuyTokenFees(opts)));
            MinBuyAmount(quote, opts) == Max(0.0, quote.worst.makerAmount - SumOf(paid, FeeAmount))
  {
    hide BuyFeeSection, ChargedBuyFee;
    BuySectionSum(quote, opts, BuyTokenFees(opts));
  }

  lemma {:induction false} BuySectionSum(quote: SwapQuote, opts: ConsumerOpts, fees: seq<AffiliateFeeAmount>)
    ensures SumOf(PaidFees(BuyFeeSection(quote, opts, fees)), FeeAmount) == SumOf(fees, ChargedBuyFee)
  {
    hide BuyFeeTransformation, ChargedBuyFee;
    if |fees| > 0 {
      var front, fee := fees[..|fees| - 1], fees[|fees| - 1];
      BuySectionSum(quote, opts, front);
      var earlier, last := BuyFeeSection(quote, opts, front), BuyFeeTransformation(quote, opts, fee);
      PaidFeesConcat(earlier, last);
      SumConcat(PaidFees(earlier), PaidFees(last), FeeAmount);
      OneFeeSum(quote, opts, fee);
    }
  }

  lemma OneFeeSum(quote: SwapQuote, opts: ConsumerOpts, fee: AffiliateFeeAmount)
    ensures SumOf(PaidFees(BuyFeeTransformation(quote, opts, fee)), FeeAmount) == ChargedBuyFee(fee)
  {
    hide SurplusThreshold;
    var ts := BuyFeeTransformation(quote, opts, fee);
    if ChargedBuyFee(fee) > 0.0 {
      var paid := TokenFee(BuyFeeToken(quote, opts), ChargedBuyFee(fee), fee.recipient);
      assert ts == [AffiliateFees([paid])];
      PaidAlone([paid]);
      SumAppend([], paid, FeeAmount);
      assert [] + [paid] == [paid];
    } else {
      NothingPaid(ts, "", "");
    }
  }

  // ----- Encodings without fees -----

  /**
   * An encoding without fees loses no affiliate fee that the call would pay, whatever its token and recipient, but it
   * loses the surplus exactly when there is a surplus fee, which the compatibility tests do not look at.
   */
  lemma CompatibleCallPaysNothing(
    quote: SwapQuote, opts: ConsumerOpts, chain: Chain, token: Address, recipient: Address)
    requires 0.0 <= quote.MaxSlippage() <= 1.0
    requires || IsMultiplexBatchFillCompatible(quote, opts)
             || IsMultiplexMultiHopFillCompatible(quote.path.ordersByType, opts)
    requires opts.positiveSlippageFee.Some? ==> opts.positiveSlippageFee.value.feeType == PositiveSlippageFee
    ensures opts.metaTransactionVersion == None && !opts.shouldSellEntireBalance
    ensures Paid(CallTransformations(quote, opts, chain), token, recipient) == 0.0
    ensures SurplusOf(CallTransformations(quote, opts, chain)) == [] <==> SurplusFees(BuyTokenFees(opts)) == []
  {
    hide CallTransformations, Paid, SurplusOf, SurplusFees, IsMultiplexBatchSource, IsMultiplexHopSource;
    CallLeavesBestCase(quote, opts, chain);
    assert !RequiresTransformERC20(opts);
    NothingDue(opts.sellTokenAffiliateFees, recipient);
    forall f | f in BuyTokenFees(opts) ensures f.feeType == PositiveSlippageFee || f.buyTokenFeeAmount <= 0.0 {
      if f in opts.buyTokenAffiliateFees { assert f in opts.sellTokenAffiliateFees + opts.buyTokenAffiliateFees; }
    }
    NothingDueInBuyTokens(BuyTokenFees(opts), recipient);
    CallPaysFees(quote, opts, chain, token, recipient);
  }

  lemma {:induction false} NothingDue(fees: seq<AffiliateFeeAmount>, recipient: Address)
    requires forall f <- fees :: f.sellTokenFeeAmount <= 0.0
    ensures SumOf(fees, SellDue(recipient)) == 0.0
  {
    if |fees| > 0 {
      assert fees[|fees| - 1] in fees;
      NothingDue(fees[..|fees| - 1], recipient);
    }
  }

  lemma {:induction false} NothingDueInBuyTokens(fees: seq<AffiliateFeeAmount>, recipient: Address)
    requires forall f <- fees :: f.feeType == PositiveSlippageFee || f.buyTokenFeeAmount <= 0.0
    ensures SumOf(fees, BuyDue(recipient)) == 0.0
  {
    if |fees| > 0 {
      assert fees[|fees| - 1] in fees;
      NothingDueInBuyTokens(fees[..|fees| - 1], recipient);
    }
  }

  // ----- What is left -----

  /** The last transformation of a call. */
  function LastOf(quote: SwapQuote, opts: ConsumerOpts, chain: Chain): Transformation
    requires 0.0 <= quote.MaxSlippage() <= 1.0
  {
    var ts := CallTransformations(quote, opts, chain);
    ts[|ts| - 1]
  }

  /** The fills of a call in terms of the tokens it pays out: pairs through one token each, then a direct fill. */
  predicate GoesThrough(
    fills: seq<Transformation>, tokens: seq<Address>, n: nat, quote: SwapQuote, opts: ConsumerOpts)
  {
    && 2 * n <= |fills| <= 2 * n + 1 && |tokens| == n + (if opts.isToETH then 1 else 2)
    && tokens[0] == quote.takerToken && (!opts.isToETH ==> tokens[n + 1] == ETH_TOKEN_ADDRESS)
    && (forall k :: 0 <= k < n ==> HopTokens(fills[2 * k], fills[2 * k + 1], quote, tokens[k + 1]))
    && (|fills| > 2 * n ==>
          && fills[2 * n].FillQuote? && fills[2 * n].sellToken == quote.takerToken
          && fills[2 * n].buyToken == quote.makerToken)
  }

  lemma CallGoesThrough(quote: SwapQuote, opts: ConsumerOpts, chain: Chain)
    requires 0.0 <= quote.MaxSlippage() <= 1.0
    ensures GoesThrough(FillsOf(CallTransformations(quote, opts, chain)), PayTakerTransformation(quote, opts).tokens,
                        |quote.path.ordersByType.twoHopOrders|, quote, opts)
  {
    hide FillsOf, TwoHopFills, NonTwoHopFillAmount, Chained, CallTransformations, HopTokens;
    var slipped, ts := SlippedOrdersByType(quote.path, quote.MaxSlippage()).value, quote.path.ordersByType.twoHopOrders;
    var fills, tokens := FillsOf(CallTransformations(quote, opts, chain)), PayTakerTransformation(quote, opts).tokens;
    CallIsChained(quote, opts, chain);
    forall k | 0 <= k < |ts| ensures HopTokens(fills[2 * k], fills[2 * k + 1], quote, tokens[k + 1]) {
      assert tokens[k + 1] == slipped.twoHopOrders[k].first.makerToken;
      ChainedTokens(fills[2 * k], fills[2 * k + 1], slipped.twoHopOrders[k], quote, opts);
    }
  }

  lemma FilledTokensAreReturned(
    fills: seq<Transformation>, tokens: seq<Address>, n: nat, quote: SwapQuote, opts: ConsumerOpts, j: nat)
    requires GoesThrough(fills, tokens, n, quote, opts) && j < |fills|
    ensures fills[j].FillQuote? && fills[j].sellToken in tokens
    ensures fills[j].buyToken in tokens || fills[j].buyToken == quote.makerToken
  {
    if j < 2 * n {
      var k := j / 2;
      assert HopTokens(fills[2 * k], fills[2 * k + 1], quote, tokens[k + 1]);
      assert j == 2 * k || j == 2 * k + 1;
    }
  }

  lemma ReturnedTokensAreFilled(
    fills: seq<Transformation>, tokens: seq<Address>, n: nat, quote: SwapQuote, opts: ConsumerOpts, k: nat)
    requires GoesThrough(fills, tokens, n, quote, opts) && k < |tokens|
    ensures tokens[k] == quote.takerToken || (tokens[k] == ETH_TOKEN_ADDRESS && !opts.isToETH)
            || exists f <- fills :: f.FillQuote? && f.buyToken == tokens[k]
  {
    if 0 < k <= n { assert HopTokens(fills[2 * (k - 1)], fills[2 * (k - 1) + 1], quote, tokens[k]); }
  }

  /**
   * No token is stranded: whatever a fill sells, or buys other than the buy token, is paid to the taker in the end,
   * and ETH unless it is bought. Nothing else is.
   */
  lemma NothingIsStranded(quote: SwapQuote, opts: ConsumerOpts, chain: Chain)
    requires 0.0 <= quote.MaxSlippage() <= 1.0
    ensures var fills, last := FillsOf(CallTransformations(quote, opts, chain)), LastOf(quote, opts, chain);
            && last.PayTaker? && quote.takerToken in last.tokens && (!opts.isToETH ==> ETH_TOKEN_ADDRESS in last.tokens)
            && (forall j :: 0 <= j < |fills| ==>
                  fills[j].FillQuote? && fills[j].sellToken in last.tokens
                  && (fills[j].buyToken in last.tokens || fills[j].buyToken == quote.makerToken))
            && (forall k :: 0 <= k < |last.tokens| ==>
                  || last.tokens[k] == quote.takerToken || (last.tokens[k] == ETH_TOKEN_ADDRESS && !opts.isToETH)
                  || exists f <- fills :: f.FillQuote? && f.buyToken == last.tokens[k])
  {
    var fills, n := FillsOf(CallTransformations(quote, opts, chain)), |quote.path.ordersByType.twoHopOrders|;
    var tokens := PayTakerTransformation(quote, opts).tokens;
    hide FillsOf, CallTransformations, PayTakerTransformation;
    LastPaysTaker(quote, opts, chain);
    CallGoesThrough(quote, opts, chain);
    forall j | 0 <= j < |fills| { FilledTokensAreReturned(fills, tokens, n, quote, opts, j); }
    forall k | 0 <= k < |tokens| { ReturnedTokensAreFilled(fills, tokens, n, quote, opts, k); }
  }

  lemma LastPaysTaker(quote: SwapQuote, opts: ConsumerOpts, chain: Chain)
    requires 0.0 <= quote.MaxSlippage() <= 1.0
    ensures LastOf(quote, opts, chain) == PayTakerTransformation(quote, opts)
  {
    hide FillSection, BuyFeeSection, PayTakerTransformation;
  }

  /** A pair of fills goes through a token. */
  predicate HopTokens(a: Transformation, b: Transformation, quote: SwapQuote, token: Address) {
    && a.FillQuote? && a.sellToken == quote.takerToken && a.buyToken == token
    && b.FillQuote? && b.sellToken == token && b.buyToken == quote.makerToken
  }

  lemma ChainedTokens(a: Transformation, b: Transformation, t: TwoHopOrder, quote: SwapQuote, opts: ConsumerOpts)
    requires Chained(a, b, t, quote, opts)
    ensures HopTokens(a, b, quote, t.first.makerToken)
  {
  }

  // ----- The stages of a call -----

  datatype Stages = Stages(
    sellFees: seq<Transformation>,
    wraps: seq<Transformation>,
    fills: seq<Transformation>,
    unwraps: seq<Transformation>,
    buyFees: seq<Transformation>,
    payTaker: Transformation)

  /** Fees in the sell token, or in ETH. */
  predicate PaysIn(t: Transformation, token: Address) {
    t.AffiliateFees? && forall f <- t.fees :: f.token == token && f.amount > 0.0
  }

  /** What each stage does, and that ETH is wrapped for the fills and unwrapped after them, but not on Celo. */
  predicate AreStages(s: Stages, quote: SwapQuote, opts: ConsumerOpts, chain: Chain) {
    && (forall t <- s.sellFees :: PaysIn(t, SellFeeToken(quote, opts)))
    && (if opts.isFromETH && !chain.isCelo
        then |s.wraps| == 1 && s.wraps[0].Weth? && s.wraps[0].token == ETH_TOKEN_ADDRESS else s.wraps == [])
    && (forall t <- s.fills :: t.FillQuote?)
    && s.unwraps == (if opts.isToETH && !chain.isCelo then [Weth(chain.nativeToken, MAX_UINT256)] else [])
    && (forall t <- s.buyFees ::
          PaysIn(t, BuyFeeToken(quote, opts)) || (t.PositiveSlippageFeeTo? && t.token == BuyFeeToken(quote, opts)))
    && s.payTaker.PayTaker?
  }

  lemma {:induction false} SellFeesPayIn(fees: seq<AffiliateFeeAmount>, token: Address)
    ensures forall f <- SellTokenFees(fees, token) :: f.token == token && f.amount > 0.0
  {
    if |fees| > 0 { SellFeesPayIn(fees[..|fees| - 1], token); }
  }

  lemma {:induction false} BuyFeesPayIn(quote: SwapQuote, opts: ConsumerOpts, fees: seq<AffiliateFeeAmount>)
    ensures forall t <- BuyFeeSection(quote, opts, fees) ::
              PaysIn(t, BuyFeeToken(quote, opts)) || (t.PositiveSlippageFeeTo? && t.token == BuyFeeToken(quote, opts))
  {
    hide SurplusThreshold;
    if |fees| > 0 { BuyFeesPayIn(quote, opts, fees[..|fees| - 1]); }
  }

  /**
   * A call pays the sell token fees, wraps, fills, unwraps, pays the buy token fees and the surplus, and then the
   * taker, in this order.
   */
  lemma CallHasStages(quote: SwapQuote, opts: ConsumerOpts, chain: Chain) returns (s: Stages)
    requires 0.0 <= quote.MaxSlippage() <= 1.0
    ensures AreStages(s, quote, opts, chain) && s.fills == FillsOf(CallTransformations(quote, opts, chain))
    ensures CallTransformations(quote, opts, chain)
         == s.sellFees + s.wraps + s.fills + s.unwraps + s.buyFees + [s.payTaker]
  {
    hide FillsOf, TwoHopFills, NonTwoHopFillAmount, BuyFeeSection, SellTokenFees;
    var slipped := SlippedOrdersByType(quote.path, quote.MaxSlippage()).value;
    s := Stages(SellFeeSection(quote, opts), WrapSection(quote, opts, chain), FillSection(quote, opts, slipped),
                UnwrapSection(opts, chain), BuyFeeSection(quote, opts, BuyTokenFees(opts)),
                PayTakerTransformation(quote, opts));
    FillsOfCall(quote, opts, chain);
    TwoHopFillsAreFills(quote, opts, slipped.twoHopOrders);
    SellFeesPayIn(opts.sellTokenAffiliateFees, SellFeeToken(quote, opts));
    BuyFeesPayIn(quote, opts, BuyTokenFees(opts));
  }

  // ----- ETH -----

  /** The ETH that a list of transformations wraps. */
  function Wrapped(ts: seq<Transformation>): real {
    if |ts| == 0 then 0.0
    else Wrapped(ts[..|ts| - 1])
         + if ts[|ts| - 1].Weth? && ts[|ts| - 1].token == ETH_TOKEN_ADDRESS then ts[|ts| - 1].amount else 0.0
  }

  lemma {:induction false} WrappedConcat(xs: seq<Transformation>, ys: seq<Transformation>)
    ensures Wrapped(xs + ys) == Wrapped(xs) + Wrapped(ys)
  {
    if |ys| == 0 {
      assert xs + ys == xs;
    } else {
      assert (xs + ys)[..|xs + ys| - 1] == xs + ys[..|ys| - 1];
      WrappedConcat(xs, ys[..|ys| - 1]);
    }
  }

  lemma {:induction false} NothingWrapped(ts: seq<Transformation>)
    requires forall t <- ts :: !t.Weth? || t.token != ETH_TOKEN_ADDRESS
    ensures Wrapped(ts) == 0.0
  {
    if |ts| > 0 {
      assert ts[|ts| - 1] in ts;
      NothingWrapped(ts[..|ts| - 1]);
    }
  }

  lemma {:induction false} BuySectionWrapsNothing(quote: SwapQuote, opts: ConsumerOpts, fees: seq<AffiliateFeeAmount>)
    ensures Wrapped(BuyFeeSection(quote, opts, fees)) == 0.0
  {
    hide ChargedBuyFee, SurplusThreshold;
    if |fees| > 0 {
      var front, fee := fees[..|fees| - 1], fees[|fees| - 1];
      BuySectionWrapsNothing(quote, opts, front);
      NothingWrapped(BuyFeeTransformation(quote, opts, fee));
      WrappedConcat(BuyFeeSection(quote, opts, front), BuyFeeTransformation(quote, opts, fee));
    }
  }

  /**
   * A call from ETH wraps the amount it sells, and pays the sell token fees in ETH besides. The ETH sent with it, the
   * protocol fee apart, covers exactly the quote, and so both together only when there are no sell token fees.
   */
  lemma EthCoversIff(quote: SwapQuote, opts: ConsumerOpts, chain: Chain, sent: real)
    requires 0.0 <= quote.MaxSlippage() <= 1.0
    requires opts.isFromETH && !chain.isCelo && !opts.shouldSellEntireBalance && chain.nativeToken != ETH_TOKEN_ADDRESS
    requires forall f <- opts.sellTokenAffiliateFees :: f.sellTokenFeeAmount >= 0.0
    requires sent == quote.worst.protocolFee + quote.SellAmount()
    ensures var ts, fees := CallTransformations(quote, opts, chain), SumOf(opts.sellTokenAffiliateFees, SellFeeAmount);
            && Wrapped(ts) == quote.SellAmount() + (if opts.metaTransactionVersion == Some(V1) then fees else 0.0)
            && SumOf(PaidFees(SellFeeSection(quote, opts)), FeeAmount) == fees >= 0.0
            && (sent - quote.worst.protocolFee >= fees + Wrapped(ts) <==> fees == 0.0)
  {
    hide BuyFeeSection, TwoHopFills, SellTokenFees;
    var slipped := SlippedOrdersByType(quote.path, quote.MaxSlippage()).value;
    var sellFees, wrap := SellFeeSection(quote, opts), WrapSection(quote, opts, chain);
    var fills, unwrap := FillSection(quote, opts, slipped), UnwrapSection(opts, chain);
    var buyFees, pay := BuyFeeSection(quote, opts, BuyTokenFees(opts)), [PayTakerTransformation(quote, opts)];
    TwoHopFillsAreFills(quote, opts, slipped.twoHopOrders);
    NothingWrapped(sellFees);
    NothingWrapped(fills);
    NothingWrapped(unwrap);
    BuySectionWrapsNothing(quote, opts, BuyTokenFees(opts));
    NothingWrapped(pay);
    assert wrap[..0] == [];
    assert Wrapped(wrap) == TotalSellAmount(quote, opts);
    WrappedConcat(sellFees, wrap);
    WrappedConcat(sellFees + wrap, fills);
    WrappedConcat(sellFees + wrap + fills, unwrap);
    WrappedConcat(sellFees + wrap + fills + unwrap, buyFees);
    WrappedConcat(sellFees + wrap + fills + unwrap + buyFees, pay);
    SellSectionSum(quote, opts);
    SumNonneg(opts.sellTokenAffiliateFees, SellFeeAmount);
  }

  lemma SellSectionSum(quote: SwapQuote, opts: ConsumerOpts)
    requires forall f <- opts.sellTokenAffiliateFees :: f.sellTokenFeeAmount >= 0.0
    ensures SumOf(PaidFees(SellFeeSection(quote, opts)), FeeAmount) == SumOf(opts.sellTokenAffiliateFees, SellFeeAmount)
  {
    if |opts.sellTokenAffiliateFees| > 0 {
      SellFeesSpend(opts.sellTokenAffiliateFees, SellFeeToken(quote, opts));
      PaidAlone(SellTokenFees(opts.sellTokenAffiliateFees, SellFeeToken(quote, opts)));
    }
  }
}
