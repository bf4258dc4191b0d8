/** The amounts of a swap response: fees taken before and after routing, and the quoted price. */
module SwapService {
  import opened Numbers
  import opened MarketTypes
  import opened Path
  import opened QuoteInfo
  import opened Fees
  import opened QuoteConsumer
  import opened TransformErc20

  // ----- Sell token fees -----

  datatype SellTokenFeePlan = SellTokenFeePlan(
    fees: Option<FeeBreakdown>,
    amount: real,
    transfers: seq<AffiliateFeeAmount>,
    transferGas: real)

  function ToAffiliateFee(t: OnChainTransfer): AffiliateFeeAmount {
    AffiliateFeeAmount(GaslessFee, t.feeRecipient, 0.0, t.feeAmount)
  }

  /** The transfers worth making, as affiliate fees. */
  function ToAffiliateFees(ts: seq<OnChainTransfer>): (fees: seq<AffiliateFeeAmount>)
    ensures forall f <- fees :: f.sellTokenFeeAmount > 0.0
  {
    if |ts| == 0 then []
    else
      ToAffiliateFees(ts[..|ts| - 1])
      + if ts[|ts| - 1].feeAmount > 0.0 then [ToAffiliateFee(ts[|ts| - 1])] else []
  }

  /** Filtering loses nothing as long as no transfer is negative. */
  lemma {:induction false} AffiliateFeesAddUp(ts: seq<OnChainTransfer>)
    requires forall t <- ts :: t.feeAmount >= 0.0
    ensures SumOf(ToAffiliateFees(ts), SellFeeAmount) == SumOf(ts, TransferAmount)
  {
    if |ts| > 0 {
      var front, t := ts[..|ts| - 1], ts[|ts| - 1];
      assert t in ts;
      AffiliateFeesAddUp(front);
      if t.feeAmount > 0.0 {
        SumAppend(ToAffiliateFees(front), ToAffiliateFee(t), SellFeeAmount);
      } else {
        assert ToAffiliateFees(ts) == ToAffiliateFees(front);
      }
    }
  }

  predicate Sound(o: FeeOpts) { o.feeConfigs.Some? ==> SoundConfigs(o, o.feeConfigs.value) }

  /** The total fee a calculation comes to, when it succeeds. */
  function TotalFee(o: FeeOpts): Result<real> {
    match o.feeConfigs
    case None => Ok(0.0)
    case Some(configs) =>
      match FeesOf(o, configs)
      case Err(e) => Err(e)
      case Ok(fees) => Ok(TotalCharged(fees))
  }

  /** The total fee is a whole amount. */
  lemma TotalFeeIsWhole(o: FeeOpts)
    requires TotalFee(o).Ok?
    ensures IsInt(TotalFee(o).value)
  {
    IntRoundsToItself(0.0);
    if o.feeConfigs.Some? { TotalIsWhole(o, o.feeConfigs.value); }
  }

  /** A fee plan: it charges the total fee through positive transfers, and a sell covers it. */
  predicate IsPlan(plan: SellTokenFeePlan, side: Side, o: FeeOpts) {
    && TotalFee(o).Ok? && plan.amount == TotalFee(o).value && Planned(plan)
    && (side == Sell ==> plan.amount < o.sellTokenAmount)
  }

  predicate Planned(plan: SellTokenFeePlan) {
    SumOf(plan.transfers, SellFeeAmount) == plan.amount && forall f <- plan.transfers :: f.sellTokenFeeAmount > 0.0
  }

  lemma PlanIsWhole(plan: SellTokenFeePlan, side: Side, o: FeeOpts)
    requires IsPlan(plan, side, o)
    ensures IsInt(plan.amount) && Planned(plan) && (side == Sell ==> plan.amount < o.sellTokenAmount)
  {
    TotalFeeIsWhole(o);
  }

  method GetSellTokenFees(side: Side, o: FeeOpts) returns (r: Result<SellTokenFeePlan>)
    ensures r.Err? <==> TotalFee(o).Err? || (side == Sell && o.sellTokenAmount <= TotalFee(o).value)
    ensures r.Ok? ==> r.value.amount == TotalFee(o).value
    ensures r.Ok? ==> forall f <- r.value.transfers :: f.sellTokenFeeAmount > 0.0
    ensures r.Ok? && Sound(o) ==> IsPlan(r.value, side, o)
    ensures r.Ok? && Sound(o) && o.feeConfigs.Some? ==>
              PaysOwed(r.value, FeesOf(o, o.feeConfigs.value).value, o.gasPerOnChainTransfer)
    ensures r.Ok? && o.feeConfigs.None? ==> r.value == SellTokenFeePlan(None, 0.0, [], 0.0)
  {
    var result := CalculateFees(o);
    if result.Err? {
      return Err(result.error);
    }
    var calculated := result.value;
    var transfers := ToAffiliateFees(calculated.onChainTransfers);
    if side == Sell && o.sellTokenAmount <= calculated.totalOnChainFeeAmount {
      return Err(SellAmountInsufficient);
    }
    if Sound(o) {
      forall t | t in calculated.onChainTransfers ensures t.feeAmount >= 0.0 {
        if o.feeConfigs.Some? { TransfersArePositive(o, o.feeConfigs.value, t.feeRecipient); }
      }
      AffiliateFeesAddUp(calculated.onChainTransfers);
    }
    var plan := SellTokenFeePlan(calculated.fees, calculated.totalOnChainFeeAmount, transfers,
                                 calculated.onChainTransfersGas);
    if Sound(o) && o.feeConfigs.Some? { PlanPaysOwed(calculated, o, o.feeConfigs.value, plan); }
    return Ok(plan);
  }

  function ResponseSellAmount(quote: SwapQuote, sellTokenFeeAmount: real): real {
    quote.best.totalTakerAmount + sellTokenFeeAmount
  }

  /**
   * End to end: fees are subtracted before routing and added back afterwards. The routed amount is positive; the
   * response and the version 1 call sell what the user asked and the excess of the path, hence exactly what the
   * user asked if and only if the path meets the routed amount; a version 2 call leaves the fees out. Fees and
   * fills of a version 1 call spend what the user asked whatever the excess, once there is a single-hop order.
   */
  lemma SellIsConservedEndToEnd(
    userSells: real, plan: SellTokenFeePlan, quote: SwapQuote, r: QuoteRequest, opts: ConsumerOpts)
    requires Planned(plan) && plan.amount < userSells
    requires QuoteFor(quote, r) && quote.side == Sell && 0.0 <= quote.MaxSlippage() <= 1.0
    requires quote.fillAmount == userSells - plan.amount
    requires opts.sellTokenAffiliateFees == plan.transfers && opts.metaTransactionVersion.Some?
    requires !opts.shouldSellEntireBalance
    requires forall t <- quote.path.ordersByType.twoHopOrders :: t.first.makerToken != quote.takerToken
    ensures quote.fillAmount > 0.0
    ensures ResponseSellAmount(quote, plan.amount) == userSells + Excess(quote.path, quote.fillAmount)
    ensures ResponseSellAmount(quote, plan.amount) == userSells <==> MeetsRequest(quote.path, quote.fillAmount)
    ensures TotalSellAmount(quote, opts)
         == ResponseSellAmount(quote, plan.amount)
            - if opts.metaTransactionVersion == Some(V1) then 0.0 else plan.amount
    ensures opts.metaTransactionVersion == Some(V1) ==>
              (SellSpending(quote, opts) == userSells
               <==> HasSingleHops(quote.path) || TwoHopInput(quote.path) == quote.fillAmount)
  {
    TotalSellAmountIs(quote, r, opts);
    SellFeesAndFillsSpend(quote, opts);
    ExcessZeroIff(quote.path, quote.fillAmount);
  }

  /** What affiliate fees bring a recipient in sell tokens. */
  function BroughtTo(recipient: Address): AffiliateFeeAmount -> real {
    (f: AffiliateFeeAmount) => if f.recipient == recipient then f.sellTokenFeeAmount else 0.0
  }

  function TransferredTo(recipient: Address): OnChainTransfer -> real {
    (t: OnChainTransfer) => if t.feeRecipient == recipient then t.feeAmount else 0.0
  }

  /** Turning transfers into affiliate fees keeps what each recipient is paid. */
  lemma {:induction false} RecipientsKeepTheirFees(ts: seq<OnChainTransfer>, recipient: Address)
    requires forall t <- ts :: t.feeAmount >= 0.0
    ensures SumOf(ToAffiliateFees(ts), BroughtTo(recipient)) == SumOf(ts, TransferredTo(recipient))
    ensures forall f <- ToAffiliateFees(ts) :: f.buyTokenFeeAmount == 0.0
  {
    if |ts| > 0 {
      var front, t := ts[..|ts| - 1], ts[|ts| - 1];
      assert t in ts;
      RecipientsKeepTheirFees(front, recipient);
      if t.feeAmount > 0.0 {
        SumAppend(ToAffiliateFees(front), ToAffiliateFee(t), BroughtTo(recipient));
      } else {
        assert ToAffiliateFees(ts) == ToAffiliateFees(front);
      }
    }
  }

  lemma {:induction false} TransfersAreOwed(ts: seq<OnChainTransfer>, fees: FeeBreakdown, recipient: Address)
    requires DistinctRecipients(ts) && forall t <- ts :: t.feeAmount == Owed(fees, t.feeRecipient)
    ensures SumOf(ts, TransferredTo(recipient)) == if recipient in RecipientsOf(ts) then Owed(fees, recipient) else 0.0
  {
    hide Owed;
    if |ts| > 0 {
      var front, t := ts[..|ts| - 1], ts[|ts| - 1];
      assert t in ts;
      TransfersAreOwed(front, fees, recipient);
      assert RecipientsOf(ts) == RecipientsOf(front) + {t.feeRecipient};
    }
  }

  /** A plan brings each recipient what its fees owe it, and charges the gas of that many transfers. */
  ghost predicate PaysOwed(plan: SellTokenFeePlan, fees: FeeBreakdown, gasPerOnChainTransfer: real) {
    && plan.fees == Some(fees)
    && plan.transferGas == TransfersGas(gasPerOnChainTransfer, |Recipients(fees)|)
    && (forall r :: SumOf(plan.transfers, BroughtTo(r)) == Owed(fees, r))
    && (forall f <- plan.transfers :: f.buyTokenFeeAmount == 0.0)
  }

  lemma PlanPaysOwed(calculated: FeeResult, o: FeeOpts, configs: FeeConfigs, plan: SellTokenFeePlan)
    requires SoundConfigs(o, configs) && FeesOf(o, configs).Ok?
    requires PaysFees(calculated, FeesOf(o, configs).value, o.gasPerOnChainTransfer)
    requires plan.fees == calculated.fees && plan.transfers == ToAffiliateFees(calculated.onChainTransfers)
    requires plan.transferGas == calculated.onChainTransfersGas
    ensures PaysOwed(plan, FeesOf(o, configs).value, o.gasPerOnChainTransfer)
  {
    hide Owed, Recipients, TransfersGas, SoundConfigs, FeesOf, ToAffiliateFees, SumOf;
    var fees, ts := FeesOf(o, configs).value, calculated.onChainTransfers;
    forall t | t in ts ensures t.feeAmount >= 0.0 { TransfersArePositive(o, configs, t.feeRecipient); }
    forall r ensures SumOf(plan.transfers, BroughtTo(r)) == Owed(fees, r) {
      RecipientsKeepTheirFees(ts, r);
      TransfersAreOwed(ts, fees, r);
      TransfersArePositive(o, configs, r);
    }
    RecipientsKeepTheirFees(ts, "");
  }

  /**
   * In a buy the fees are charged on top. The call of a version 1 meta-transaction sells up to the worst case, so
   * at least what the response says, and exactly that when the worst case takes no more than the best.
   */
  lemma BuyCallSellsAtLeast(plan: SellTokenFeePlan, quote: SwapQuote, opts: ConsumerOpts)
    requires Planned(plan) && InfoDominates(quote.worst, quote.best, Buy)
    requires opts.sellTokenAffiliateFees == plan.transfers && opts.metaTransactionVersion == Some(V1)
    ensures TotalSellAmount(quote, opts) == quote.worst.totalTakerAmount + plan.amount
            >= ResponseSellAmount(quote, plan.amount)
    ensures TotalSellAmount(quote, opts) == ResponseSellAmount(quote, plan.amount)
       <==> quote.worst.totalTakerAmount == quote.best.totalTakerAmount
  {
    if |plan.transfers| == 0 { assert plan.amount == 0.0; }
  }

  // ----- Buy token fees -----

  datatype AffiliateFee = AffiliateFee(feeType: AffiliateFeeType, recipient: Address, buyTokenPercentageFee: real)
  {
    function PercentageOrZero(): real {
      if feeType == GaslessFee || feeType == PositiveSlippageFee then 0.0 else buyTokenPercentageFee
    }

    /** Fees that are never charged, whatever their percentage. */
    predicate NotCharged() { feeType == NoFee || recipient == NULL_ADDRESS || recipient == "" }
  }

  const AFFILIATE_FEE_TRANSFORMER_GAS := 15000.0

  datatype BuyTokenFeeAmounts = BuyTokenFeeAmounts(buyTokenFeeAmount: real, gasCost: real)

  /** The worst case gas in maker tokens. */
  function GasInMakerTokens(quote: SwapQuote): real { quote.makerAmountPerEth * quote.gasPrice * quote.worst.gas }

  function GaslessFeeAmount(quote: SwapQuote): real { RoundDown(GasInMakerTokens(quote)) }

  function ExactFee(amount: real, percentage: real): real
    requires percentage != -1.0
  {
    amount * percentage / (percentage + 1.0)
  }

  function PercentageFeeAmount(amount: real, percentage: real): real
    requires percentage != -1.0
  {
    RoundDown(ExactFee(amount, percentage))
  }

  function GetBuyTokenFeeAmounts(quote: SwapQuote, fee: AffiliateFee, gaslessSwapFeeEnabled: bool): BuyTokenFeeAmounts
    requires fee.PercentageOrZero() != -1.0
  {
    if fee.NotCharged() then BuyTokenFeeAmounts(0.0, 0.0)
    else if fee.feeType == GaslessFee then
      BuyTokenFeeAmounts(if gaslessSwapFeeEnabled then GaslessFeeAmount(quote) else 0.0, AFFILIATE_FEE_TRANSFORMER_GAS)
    else
      BuyTokenFeeAmounts(PercentageFeeAmount(quote.worst.makerAmount, fee.PercentageOrZero()),
                         if fee.feeType == PercentageFee then AFFILIATE_FEE_TRANSFORMER_GAS
                         else POSITIVE_SLIPPAGE_FEE_TRANSFORMER_GAS)
  }

  function Worth(gas: real, gasPrice: real, perEth: real): real { perEth * gasPrice * gas }

  function Portion(amount: real, percentage: real): real
    requires percentage != -1.0
  {
    amount * percentage / (percentage + 1.0)
  }

  /**
   * What each type of fee takes from a buy amount, and the gas of the transformation that hands it out: nothing for the
   * null address, the worst case gas for a gasless fee that is enabled, and the part of the guaranteed amount that a
   * percentage comes to.
   */
  lemma BuyFeesByType(quote: SwapQuote, fee: AffiliateFee, gaslessSwapFeeEnabled: bool)
    requires fee.buyTokenPercentageFee >= 0.0 && quote.worst.makerAmount >= 0.0
    requires quote.makerAmountPerEth >= 0.0 && quote.gasPrice >= 0.0 && quote.worst.gas >= 0.0
    ensures var charged := GetBuyTokenFeeAmounts(quote, fee, gaslessSwapFeeEnabled);
            if fee.recipient == NULL_ADDRESS || fee.recipient == "" then charged == BuyTokenFeeAmounts(0.0, 0.0)
            else match fee.feeType
              case NoFee => charged == BuyTokenFeeAmounts(0.0, 0.0)
              case PositiveSlippageFee => charged == BuyTokenFeeAmounts(0.0, 30000.0)
              case GaslessFee =>
                && charged.gasCost == 15000.0
                && (if gaslessSwapFeeEnabled
                    then Floors(charged.buyTokenFeeAmount,
                                  Worth(quote.worst.gas, quote.gasPrice, quote.makerAmountPerEth))
                    else charged.buyTokenFeeAmount == 0.0)
              case PercentageFee =>
                && charged.gasCost == 15000.0
                && Floors(charged.buyTokenFeeAmount, Portion(quote.worst.makerAmount, fee.buyTokenPercentageFee))
  {
    hide Floors, GasInMakerTokens, Worth, Portion, PercentageFeeAmount, GaslessFeeAmount;
    GaslessFeeFloors(quote);
    PercentageFeeFloors(quote.worst.makerAmount, fee.buyTokenPercentageFee);
    NoPortion(quote.worst.makerAmount);
  }

  lemma GaslessFeeFloors(quote: SwapQuote)
    requires quote.makerAmountPerEth >= 0.0 && quote.gasPrice >= 0.0 && quote.worst.gas >= 0.0
    ensures Floors(GaslessFeeAmount(quote), Worth(quote.worst.gas, quote.gasPrice, quote.makerAmountPerEth))
  {
    hide RoundDown;
    MulNonneg(quote.makerAmountPerEth, quote.gasPrice);
    MulNonneg(quote.makerAmountPerEth * quote.gasPrice, quote.worst.gas);
    assert GasInMakerTokens(quote) == Worth(quote.worst.gas, quote.gasPrice, quote.makerAmountPerEth);
    hide GasInMakerTokens, Worth;
    RoundDownBounds(GasInMakerTokens(quote));
  }

  lemma PercentageFeeFloors(amount: real, percentage: real)
    requires amount >= 0.0 && percentage >= 0.0
    ensures Floors(PercentageFeeAmount(amount, percentage), Portion(amount, percentage))
  {
    FeeIsDifference(amount, percentage);
    assert ExactFee(amount, percentage) == Portion(amount, percentage);
    hide ExactFee, Portion, RoundDown;
    RoundDownBounds(ExactFee(amount, percentage));
  }

  lemma NoPortion(amount: real)
    ensures PercentageFeeAmount(amount, 0.0) == 0.0
  {
    assert ExactFee(amount, 0.0) == 0.0;
    IntRoundsToItself(0.0);
  }

  /** What is routed so that the requested amount is left after the fee. */
  function BuyAmountToRoute(buyAmount: real, percentage: real): real { RoundDown(GrossedUp(buyAmount, percentage)) }

  function GrossedUp(buyAmount: real, percentage: real): real { buyAmount * (percentage + 1.0) }

  /** What is left of a grossed-up amount without the fee. */
  function NetOf(amount: real, percentage: real): real
    requires percentage != -1.0
  {
    amount / (percentage + 1.0)
  }

  function QuotedBuyAmount(quote: SwapQuote, fee: AffiliateFee, gaslessSwapFeeEnabled: bool): real
    requires fee.PercentageOrZero() != -1.0
  {
    quote.best.makerAmount - GetBuyTokenFeeAmounts(quote, fee, gaslessSwapFeeEnabled).buyTokenFeeAmount
  }

  /** Grossing up and deducting the percentage fee are inverse, in whole tokens. */
  lemma GrossUpRoundTrip(buyAmount: real, percentage: real)
    requires IsInt(buyAmount) && buyAmount >= 0.0 && percentage >= 0.0
    ensures var amount := BuyAmountToRoute(buyAmount, percentage);
            IsInt(amount) && amount - PercentageFeeAmount(amount, percentage) == buyAmount
  {
    var amount := BuyAmountToRoute(buyAmount, percentage);
    GrossedUpIsMore(buyAmount, percentage);
    FeeIsDifference(amount, percentage);
    NetBounds(buyAmount, amount, percentage);
    FeeFromNet(buyAmount, amount, NetOf(amount, percentage));
  }

  lemma GrossedUpIsMore(b: real, percentage: real)
    requires IsInt(b) && b >= 0.0 && percentage >= 0.0
    ensures var amount := BuyAmountToRoute(b, percentage);
            IsInt(amount) && b <= amount <= GrossedUp(b, percentage) < amount + 1.0
  {
    MulNonneg(b, percentage);
    assert GrossedUp(b, percentage) == b * percentage + b;
    RoundDownBounds(GrossedUp(b, percentage));
    IntsLess(b, BuyAmountToRoute(b, percentage));
  }

  lemma RoundDownBounds(x: real)
    requires x >= 0.0
    ensures IsInt(RoundDown(x)) && RoundDown(x) <= x < RoundDown(x) + 1.0
  {
  }

  /** The fee before rounding is what exceeds the net amount. */
  lemma FeeIsDifference(amount: real, percentage: real)
    requires percentage >= 0.0 && amount >= 0.0
    ensures ExactFee(amount, percentage) == amount - NetOf(amount, percentage)
    ensures NetOf(amount, percentage) <= amount
  {
    var q, net := percentage + 1.0, NetOf(amount, percentage);
    assert net * q == amount;
    assert (amount - net) * q == amount * q - net * q;
    assert amount * q == amount * percentage + amount;
    SameRatio(amount * percentage, amount - net, q);
    MulNonneg(amount, percentage);
    NonnegFactor(amount - net, q);
  }

  lemma SameRatio(a: real, x: real, q: real)
    requires q > 0.0 && x * q == a
    ensures a / q == x
  {
  }

  lemma NetBounds(b: real, amount: real, percentage: real)
    requires percentage >= 0.0 && b >= 0.0 && amount <= GrossedUp(b, percentage) < amount + 1.0
    ensures b - 1.0 < NetOf(amount, percentage) <= b
  {
    var q, net := percentage + 1.0, NetOf(amount, percentage);
    assert net * q == amount;
    var d := b - net;
    assert d * q == b * q - net * q;
    NonnegFactor(d, q);
    MulMono(1.0, q, d);
  }

  lemma FeeFromNet(b: real, amount: real, net: real)
    requires IsInt(b) && IsInt(amount) && b - 1.0 < net <= b && amount >= net
    ensures RoundDown(amount - net) == amount - b
  {
    var fee := RoundDown(amount - net);
    IntArithmetic(amount, b);
    IntsLess(fee, amount - b);
    IntsLess(amount - b, fee);
  }

  lemma RoundDownZeroIff(x: real)
    ensures RoundDown(x) == 0.0 <==> -1.0 < x < 1.0
  {
    IntRoundsToItself(0.0);
    if 0.0 <= x < 1.0 { IntsLess(RoundDown(x), 0.0); RoundingIsMonotone(0.0, x); }
    if -1.0 < x < 0.0 { IntsLess(0.0, RoundDown(x)); RoundingIsMonotone(x, 0.0); }
  }

  /** What a buy response quotes is what was asked for, in exactly these cases. */
  predicate BuyIsExact(buyAmount: real, quote: SwapQuote, fee: AffiliateFee, gaslessSwapFeeEnabled: bool) {
    if fee.NotCharged() then buyAmount * fee.PercentageOrZero() < 1.0
    else if fee.feeType == GaslessFee then !gaslessSwapFeeEnabled || -1.0 < GasInMakerTokens(quote) < 1.0
    else true
  }

  /** Less than one token below the gross-up. */
  predicate WithinGrossUp(amount: real, buyAmount: real, percentage: real) {
    GrossedUp(buyAmount - 1.0, percentage) < amount <= GrossedUp(buyAmount, percentage)
  }

  /** The part of a grossed-up amount left after the fee is the request exactly within one token of the gross-up. */
  lemma NetAmountIff(amount: real, buyAmount: real, percentage: real)
    requires IsInt(amount) && amount >= 0.0 && IsInt(buyAmount) && percentage >= 0.0
    ensures amount - PercentageFeeAmount(amount, percentage) == buyAmount
       <==> WithinGrossUp(amount, buyAmount, percentage)
  {
    var net := NetOf(amount, percentage);
    FeeIsDifference(amount, percentage);
    NetWithinIff(amount, buyAmount, percentage);
    NetWithinIff(amount, buyAmount - 1.0, percentage);
    FeeRoundsIff(amount, net, buyAmount);
  }

  lemma NetWithinIff(amount: real, b: real, percentage: real)
    requires percentage >= 0.0
    ensures NetOf(amount, percentage) <= b <==> amount <= GrossedUp(b, percentage)
  {
    var q, net := percentage + 1.0, NetOf(amount, percentage);
    assert net * q == amount;
    if net <= b { MulMono(net, b, q); }
    if net > b { assert (net - b) * q > 0.0; assert (net - b) * q == net * q - b * q; }
  }

  lemma FeeRoundsIff(amount: real, net: real, b: real)
    requires IsInt(amount) && IsInt(b) && amount >= net
    ensures RoundDown(amount - net) == amount - b <==> b - 1.0 < net <= b
  {
    if b - 1.0 < net <= b { FeeFromNet(b, amount, net); }
  }

  /** The quote of a buy with a charged percentage, whatever was routed and whatever the fills add up to. */
  lemma PercentageBuyIff(
    buyAmount: real, quote: SwapQuote, r: QuoteRequest, fee: AffiliateFee, gaslessSwapFeeEnabled: bool)
    requires IsInt(buyAmount) && fee.PercentageOrZero() >= 0.0
    requires !fee.NotCharged() && fee.feeType != GaslessFee
    requires QuoteFor(quote, r) && quote.side == Buy
    ensures QuotedBuyAmount(quote, fee, gaslessSwapFeeEnabled) == buyAmount
       <==> WithinGrossUp(Asked(quote.path, quote.fillAmount), buyAmount, fee.PercentageOrZero())
  {
    QuotedMakers(quote, r);
    QuotedMakersAreWhole(quote, r);
    PercentageOfRouted(buyAmount, quote.best.makerAmount, quote, fee, gaslessSwapFeeEnabled);
  }

  /** A path that does not fall short of the grossed-up amount leaves the request exactly when it meets that amount. */
  lemma OvershotBuyIff(p: Path, amount: real, buyAmount: real, percentage: real)
    requires Built(p) && WholeInputs(p.fills) && IsInt(buyAmount) && buyAmount >= 0.0 && percentage >= 0.0
    requires amount == BuyAmountToRoute(buyAmount, percentage) && Excess(p, amount) >= 0.0
    ensures WithinGrossUp(Asked(p, amount), buyAmount, percentage) <==> MeetsRequest(p, amount)
  {
    GrossedUpIsMore(buyAmount, percentage);
    AskedIsWhole(p, amount);
    ExcessZeroIff(p, amount);
    NearGrossUp(buyAmount, Asked(p, amount), percentage);
  }

  lemma PercentageOfRouted(
    buyAmount: real, routed: real, quote: SwapQuote, fee: AffiliateFee, gaslessSwapFeeEnabled: bool)
    requires IsInt(buyAmount) && IsInt(routed) && routed >= 0.0
    requires fee.PercentageOrZero() >= 0.0 && !fee.NotCharged() && fee.feeType != GaslessFee
    requires quote.best.makerAmount == quote.worst.makerAmount == routed
    ensures QuotedBuyAmount(quote, fee, gaslessSwapFeeEnabled) == buyAmount
       <==> WithinGrossUp(routed, buyAmount, fee.PercentageOrZero())
  {
    NetAmountIff(routed, buyAmount, fee.PercentageOrZero());
  }

  /** What is asked of the path leaves the request, by the kind of fee. */
  predicate LeavesRequest(
    asked: real, buyAmount: real, quote: SwapQuote, fee: AffiliateFee, gaslessSwapFeeEnabled: bool)
  {
    if fee.NotCharged() then asked == buyAmount
    else if fee.feeType == GaslessFee then
      asked == buyAmount + if gaslessSwapFeeEnabled then RoundDown(GasInMakerTokens(quote)) else 0.0
    else WithinGrossUp(asked, buyAmount, fee.PercentageOrZero())
  }

  /**
   * Exactly when a buy quotes the requested amount, for any path. When the path meets the grossed-up amount that
   * is whenever a percentage (or positive slippage) fee is charged. A percentage that is not charged, because of
   * the recipient, is still grossed up and leaves the excess in the quote; a gasless fee is deducted without any
   * gross-up.
   */
  lemma BuyRoundTrip(buyAmount: real, quote: SwapQuote, r: QuoteRequest, fee: AffiliateFee, gaslessSwapFeeEnabled: bool)
    requires IsInt(buyAmount) && buyAmount >= 0.0 && fee.PercentageOrZero() >= 0.0
    requires QuoteFor(quote, r) && quote.side == Buy
    ensures QuotedBuyAmount(quote, fee, gaslessSwapFeeEnabled) == buyAmount
       <==> LeavesRequest(Asked(quote.path, quote.fillAmount), buyAmount, quote, fee, gaslessSwapFeeEnabled)
    ensures MeetsRequest(quote.path, quote.fillAmount)
            && quote.fillAmount == BuyAmountToRoute(buyAmount, fee.PercentageOrZero()) ==>
              (QuotedBuyAmount(quote, fee, gaslessSwapFeeEnabled) == buyAmount
               <==> BuyIsExact(buyAmount, quote, fee, gaslessSwapFeeEnabled))
  {
    hide Asked, GrossedUp, GasInMakerTokens;
    QuotedMakers(quote, r);
    if !fee.NotCharged() && fee.feeType != GaslessFee {
      PercentageBuyIff(buyAmount, quote, r, fee, gaslessSwapFeeEnabled);
    }
    if MeetsRequest(quote.path, quote.fillAmount)
      && quote.fillAmount == BuyAmountToRoute(buyAmount, fee.PercentageOrZero()) {
      DeductedBuyAmount(buyAmount, quote, fee, gaslessSwapFeeEnabled);
    }
  }

  /** Of the whole amounts from the routed one on, only the routed one is within one token of the gross-up. */
  lemma NearGrossUp(buyAmount: real, routed: real, percentage: real)
    requires IsInt(buyAmount) && buyAmount >= 0.0 && percentage >= 0.0
    requires IsInt(routed) && routed >= BuyAmountToRoute(buyAmount, percentage)
    ensures WithinGrossUp(routed, buyAmount, percentage)
       <==> routed == BuyAmountToRoute(buyAmount, percentage)
  {
    var amount := BuyAmountToRoute(buyAmount, percentage);
    GrossedUpIsMore(buyAmount, percentage);
    assert GrossedUp(buyAmount - 1.0, percentage) == GrossedUp(buyAmount, percentage) - (percentage + 1.0);
    if routed <= GrossedUp(buyAmount, percentage) { IntsLess(routed, amount); }
  }

  /** A percentage of one per cent for the null address is grossed up and not deducted: 1010 are quoted for 1000. */
  lemma NullRecipientKeepsGrossUp(quote: SwapQuote, fee: AffiliateFee, gaslessSwapFeeEnabled: bool)
    requires fee == AffiliateFee(PercentageFee, NULL_ADDRESS, 0.01)
    requires quote.best.makerAmount == quote.worst.makerAmount == BuyAmountToRoute(1000.0, fee.PercentageOrZero())
    ensures QuotedBuyAmount(quote, fee, gaslessSwapFeeEnabled) == 1010.0 > 1000.0
  {
    assert GrossedUp(1000.0, 0.01) == 1010.0;
    assert (1010.0).Floor == 1010;
    IntRoundsToItself(1010.0);
  }

  /** A gasless fee of 5 tokens leaves 995 of the 1000 asked for. */
  lemma GaslessFeeIsNotGrossedUp(quote: SwapQuote, fee: AffiliateFee)
    requires fee.feeType == GaslessFee && !fee.NotCharged()
    requires quote.makerAmountPerEth == 1.0 && quote.gasPrice == 1.0 && quote.worst.gas == 5.0
    requires quote.best.makerAmount == quote.worst.makerAmount == BuyAmountToRoute(1000.0, fee.PercentageOrZero())
    ensures QuotedBuyAmount(quote, fee, true) == 995.0 < 1000.0
  {
    assert (1000.0).Floor == 1000 && (5.0).Floor == 5;
    NoPercentage(1000.0);
    assert GasInMakerTokens(quote) == 5.0;
    IntRoundsToItself(5.0);
  }

  lemma QuotedMakers(quote: SwapQuote, r: QuoteRequest)
    requires QuoteFor(quote, r) && quote.side == Buy
    ensures quote.best.makerAmount == quote.worst.makerAmount == Asked(quote.path, quote.fillAmount)
    ensures quote.best.makerAmount == quote.fillAmount <==> MeetsRequest(quote.path, quote.fillAmount)
  {
    QuoteMeetsRequestIff(quote.path, r);
  }

  lemma QuotedMakersAreWhole(quote: SwapQuote, r: QuoteRequest)
    requires QuoteFor(quote, r) && quote.side == Buy
    ensures IsInt(quote.best.makerAmount) && quote.best.makerAmount >= 0.0
  {
    QuotedMakers(quote, r);
    QuotedIsWhole(quote.path, r);
  }

  lemma DeductedBuyAmount(buyAmount: real, quote: SwapQuote, fee: AffiliateFee, gaslessSwapFeeEnabled: bool)
    requires IsInt(buyAmount) && buyAmount >= 0.0 && fee.PercentageOrZero() >= 0.0
    requires quote.best.makerAmount == quote.worst.makerAmount == BuyAmountToRoute(buyAmount, fee.PercentageOrZero())
    ensures QuotedBuyAmount(quote, fee, gaslessSwapFeeEnabled) == buyAmount
       <==> BuyIsExact(buyAmount, quote, fee, gaslessSwapFeeEnabled)
  {
    var p := fee.PercentageOrZero();
    var deducted := GetBuyTokenFeeAmounts(quote, fee, gaslessSwapFeeEnabled).buyTokenFeeAmount;
    if fee.NotCharged() {
      assert deducted == 0.0;
      GrossUpExcess(buyAmount, p);
      MulNonneg(buyAmount, p);
      RoundDownZeroIff(buyAmount * p);
    } else if fee.feeType == GaslessFee {
      assert deducted == if gaslessSwapFeeEnabled then GaslessFeeAmount(quote) else 0.0;
      NoPercentage(buyAmount);
      RoundDownZeroIff(GasInMakerTokens(quote));
    } else {
      assert deducted == PercentageFeeAmount(BuyAmountToRoute(buyAmount, p), p);
      GrossUpRoundTrip(buyAmount, p);
    }
  }

  lemma NoPercentage(buyAmount: real)
    requires IsInt(buyAmount) && buyAmount >= 0.0
    ensures BuyAmountToRoute(buyAmount, 0.0) == buyAmount
  {
    assert GrossedUp(buyAmount, 0.0) == buyAmount;
    IntRoundsToItself(buyAmount);
  }

  lemma GrossUpExcess(buyAmount: real, percentage: real)
    requires IsInt(buyAmount) && buyAmount >= 0.0 && percentage >= 0.0
    ensures BuyAmountToRoute(buyAmount, percentage) == buyAmount + RoundDown(buyAmount * percentage)
  {
    MulNonneg(buyAmount, percentage);
    var x := buyAmount * percentage;
    assert GrossedUp(buyAmount, percentage) == x + buyAmount;
    RoundDownShift(x, buyAmount);
  }

  lemma RoundDownShift(x: real, n: real)
    requires IsInt(n) && n >= 0.0 && x >= 0.0
    ensures RoundDown(x + n) == RoundDown(x) + n
  {
    RoundDownBounds(x);
    RoundDownBounds(x + n);
    IntArithmetic(RoundDown(x), n);
    IntsLess(RoundDown(x) + n, RoundDown(x + n));
    IntsLess(RoundDown(x + n), RoundDown(x) + n);
  }

  // ----- Price -----

  function Pow10(n: nat): (p: real)
    ensures p >= 1.0
  {
    if n == 0 then 1.0 else 10.0 * Pow10(n - 1)
  }

  function ToUnit(amount: real, decimals: nat): real { amount / Pow10(decimals) }

  function Times(x: real, scale: real): real { x * scale }

  function FloorToPlaces(x: real, places: nat): real { Floor(Times(x, Pow10(places))) / Pow10(places) }

  function CeilToPlaces(x: real, places: nat): real { Ceil(Times(x, Pow10(places))) / Pow10(places) }

  datatype SwapPrice = SwapPrice(price: real, guaranteedPrice: real)

  /** Maker amount net of the affiliate fee, and taker amount with the sell token fee, in units. */
  function NetMakerUnits(quote: SwapQuote, info: SwapQuoteInfo, buyDecimals: nat, fee: AffiliateFee): real {
    ToUnit(info.makerAmount, buyDecimals) - ToUnit(quote.worst.makerAmount, buyDecimals) * fee.PercentageOrZero()
  }

  function TakerUnits(info: SwapQuoteInfo, sellDecimals: nat, sellTokenFeeAmount: real): real {
    ToUnit(info.totalTakerAmount + sellTokenFeeAmount, sellDecimals)
  }

  predicate Priceable(
    quote: SwapQuote, buyDecimals: nat, sellDecimals: nat, fee: AffiliateFee, sellTokenFeeAmount: real)
  {
    && TakerUnits(quote.best, sellDecimals, sellTokenFeeAmount) > 0.0
    && TakerUnits(quote.worst, sellDecimals, sellTokenFeeAmount) > 0.0
    && NetMakerUnits(quote, quote.best, buyDecimals, fee) > 0.0
    && NetMakerUnits(quote, quote.worst, buyDecimals, fee) > 0.0
  }

  function GetSwapQuotePrice(isSelling: bool, quote: SwapQuote, buyDecimals: nat, sellDecimals: nat, fee: AffiliateFee,
                             sellTokenFeeAmount: real): SwapPrice
    requires Priceable(quote, buyDecimals, sellDecimals, fee, sellTokenFeeAmount)
  {
    var maker := NetMakerUnits(quote, quote.best, buyDecimals, fee);
    var guaranteedMaker := NetMakerUnits(quote, quote.worst, buyDecimals, fee);
    var taker := TakerUnits(quote.best, sellDecimals, sellTokenFeeAmount);
    var guaranteedTaker := TakerUnits(quote.worst, sellDecimals, sellTokenFeeAmount);
    if isSelling then
      SwapPrice(FloorToPlaces(maker / taker, buyDecimals),
                FloorToPlaces(guaranteedMaker / guaranteedTaker, buyDecimals))
    else
      SwapPrice(CeilToPlaces(taker / maker, sellDecimals),
                CeilToPlaces(guaranteedTaker / guaranteedMaker, sellDecimals))
  }

  lemma PlacesBounds(x: real, places: nat)
    ensures FloorToPlaces(x, places) <= x <= CeilToPlaces(x, places)
  {
    var p := Pow10(places);
    var scaled := Times(x, p);
    DivMono(Floor(scaled), scaled, p);
    DivMono(scaled, Ceil(scaled), p);
    DivCancel(x, p);
  }

  lemma PlacesMonotone(x: real, y: real, places: nat)
    requires x <= y
    ensures FloorToPlaces(x, places) <= FloorToPlaces(y, places) && CeilToPlaces(x, places) <= CeilToPlaces(y, places)
  {
    var p := Pow10(places);
    TimesMono(x, y, p);
    RoundingIsMonotone(Times(x, p), Times(y, p));
    DivMono(Floor(Times(x, p)), Floor(Times(y, p)), p);
    DivMono(Ceil(Times(x, p)), Ceil(Times(y, p)), p);
  }

  lemma TimesMono(x: real, y: real, p: real)
    requires x <= y && p >= 0.0
    ensures Times(x, p) <= Times(y, p)
  {
  }

  lemma RatioMonotone(a: real, b: real, c: real, d: real)
    requires a <= c && b >= d > 0.0 && c >= 0.0
    ensures a / b <= c / d
  {
    DivMono(a, c, b);
    var x, y := c / b, c / d;
    assert x * b == c && y * d == c;
    NonnegFactor(x, b);
    MulNonneg(x, b - d);
    assert (y - x) * d == x * (b - d);
    NonnegFactor(y - x, d);
  }

  /** Prices are rounded against the trader, and the guaranteed price is never better than the best one. */
  lemma PriceIsConservative(
    quote: SwapQuote, buyDecimals: nat, sellDecimals: nat, fee: AffiliateFee, sellTokenFeeAmount: real)
    requires Priceable(quote, buyDecimals, sellDecimals, fee, sellTokenFeeAmount)
    requires InfoDominates(quote.worst, quote.best, quote.side)
    ensures var p := GetSwapQuotePrice(quote.side == Sell, quote, buyDecimals, sellDecimals, fee, sellTokenFeeAmount);
            var maker := NetMakerUnits(quote, quote.best, buyDecimals, fee);
            var taker := TakerUnits(quote.best, sellDecimals, sellTokenFeeAmount);
            if quote.side == Sell then p.price <= maker / taker && p.guaranteedPrice <= p.price
            else p.price >= taker / maker && p.guaranteedPrice >= p.price
  {
    var maker := NetMakerUnits(quote, quote.best, buyDecimals, fee);
    var guaranteedMaker := NetMakerUnits(quote, quote.worst, buyDecimals, fee);
    var taker := TakerUnits(quote.best, sellDecimals, sellTokenFeeAmount);
    var guaranteedTaker := TakerUnits(quote.worst, sellDecimals, sellTokenFeeAmount);
    if quote.side == Sell {
      DivMono(quote.worst.makerAmount, quote.best.makerAmount, Pow10(buyDecimals));
      RatioMonotone(guaranteedMaker, guaranteedTaker, maker, taker);
      PlacesMonotone(guaranteedMaker / guaranteedTaker, maker / taker, buyDecimals);
      PlacesBounds(maker / taker, buyDecimals);
    } else {
      DivMono(quote.best.totalTakerAmount + sellTokenFeeAmount, quote.worst.totalTakerAmount + sellTokenFeeAmount,
              Pow10(sellDecimals));
      RatioMonotone(taker, maker, guaranteedTaker, guaranteedMaker);
      PlacesMonotone(taker / maker, guaranteedTaker / guaranteedMaker, sellDecimals);
      PlacesBounds(taker / maker, sellDecimals);
    }
  }

  /** The number with its decimal point moved to the right. */
  function Shifted(x: real, places: nat): real { x * Pow10(places) }

  predicate IsFlooredTo(p: real, exact: real, places: nat) {
    IsInt(Shifted(p, places)) && Shifted(p, places) <= Shifted(exact, places) < Shifted(p, places) + 1.0
  }

  predicate IsCeiledTo(p: real, exact: real, places: nat) {
    IsInt(Shifted(p, places)) && Shifted(p, places) - 1.0 < Shifted(exact, places) <= Shifted(p, places)
  }

  lemma PlacesAreRounded(x: real, places: nat)
    ensures IsFlooredTo(FloorToPlaces(x, places), x, places) && IsCeiledTo(CeilToPlaces(x, places), x, places)
  {
    var d := Pow10(places);
    DivCancel(Floor(Times(x, d)), d);
    DivCancel(Ceil(Times(x, d)), d);
    assert Times(x, d) == Shifted(x, places);
    assert Shifted(FloorToPlaces(x, places), places) == Floor(Times(x, d));
    assert Shifted(CeilToPlaces(x, places), places) == Ceil(Times(x, d));
  }

  /** One more decimal makes a unit ten times as many base units. */
  lemma UnitsAreDecimal(amount: real, decimals: nat)
    ensures ToUnit(amount, 0) == amount && 10.0 * ToUnit(amount, decimals + 1) == ToUnit(amount, decimals)
  {
    var d, u := Pow10(decimals), ToUnit(amount, decimals + 1);
    assert u * (10.0 * d) == amount;
    assert (10.0 * u) * d == amount;
  }

  /** Of the percentage fees only this part of the guaranteed amount is left out of a price. */
  function PricedPercentage(fee: AffiliateFee): real {
    match fee.feeType
    case GaslessFee => 0.0
    case PositiveSlippageFee => 0.0
    case _ => fee.buyTokenPercentageFee
  }

  /** Units made for the trader, when the fee is a part of what is guaranteed. */
  function Made(makerAmount: real, guaranteed: real, percentage: real, decimals: nat): real {
    ToUnit(makerAmount, decimals) - ToUnit(guaranteed, decimals) * percentage
  }

  function PaidFor(takerAmount: real, sellTokenFeeAmount: real, decimals: nat): real {
    ToUnit(takerAmount + sellTokenFeeAmount, decimals)
  }

  /**
   * The price is the rate of the best case, and the guaranteed price that of the worst case: in both the fee is taken
   * from the worst case, and the rounding goes against the trader, to the decimals of the token that is priced.
   */
  lemma PricesAreRates(isSelling: bool, quote: SwapQuote, buyDecimals: nat, sellDecimals: nat, fee: AffiliateFee,
                       sellTokenFeeAmount: real)
    requires Priceable(quote, buyDecimals, sellDecimals, fee, sellTokenFeeAmount)
    ensures var p := GetSwapQuotePrice(isSelling, quote, buyDecimals, sellDecimals, fee, sellTokenFeeAmount);
            var best, worst, percentage := quote.best, quote.worst, PricedPercentage(fee);
            var made := Made(best.makerAmount, worst.makerAmount, percentage, buyDecimals);
            var guaranteed := Made(worst.makerAmount, worst.makerAmount, percentage, buyDecimals);
            var paid := PaidFor(best.totalTakerAmount, sellTokenFeeAmount, sellDecimals);
            var atMost := PaidFor(worst.totalTakerAmount, sellTokenFeeAmount, sellDecimals);
            && made > 0.0 && guaranteed > 0.0 && paid > 0.0 && atMost > 0.0
            && (if isSelling then
                  && IsFlooredTo(p.price, made / paid, buyDecimals)
                  && IsFlooredTo(p.guaranteedPrice, guaranteed / atMost, buyDecimals)
                else
                  && IsCeiledTo(p.price, paid / made, sellDecimals)
                  && IsCeiledTo(p.guaranteedPrice, atMost / guaranteed, sellDecimals))
  {
    hide IsFlooredTo, IsCeiledTo, FloorToPlaces, CeilToPlaces, ToUnit, Made, PaidFor, NetMakerUnits, TakerUnits;
    RateParts(quote, quote.best, buyDecimals, sellDecimals, fee, sellTokenFeeAmount);
    RateParts(quote, quote.worst, buyDecimals, sellDecimals, fee, sellTokenFeeAmount);
    var maker := NetMakerUnits(quote, quote.best, buyDecimals, fee);
    var guaranteedMaker := NetMakerUnits(quote, quote.worst, buyDecimals, fee);
    var taker := TakerUnits(quote.best, sellDecimals, sellTokenFeeAmount);
    var guaranteedTaker := TakerUnits(quote.worst, sellDecimals, sellTokenFeeAmount);
    if isSelling {
      PlacesAreRounded(maker / taker, buyDecimals);
      PlacesAreRounded(guaranteedMaker / guaranteedTaker, buyDecimals);
    } else {
      PlacesAreRounded(taker / maker, sellDecimals);
      PlacesAreRounded(guaranteedTaker / guaranteedMaker, sellDecimals);
    }
  }

  lemma RateParts(quote: SwapQuote, info: SwapQuoteInfo, buyDecimals: nat, sellDecimals: nat, fee: AffiliateFee,
                  sellTokenFeeAmount: real)
    ensures NetMakerUnits(quote, info, buyDecimals, fee)
         == Made(info.makerAmount, quote.worst.makerAmount, PricedPercentage(fee), buyDecimals)
    ensures TakerUnits(info, sellDecimals, sellTokenFeeAmount)
         == PaidFor(info.totalTakerAmount, sellTokenFeeAmount, sellDecimals)
  {
    hide ToUnit;
  }

  // ----- Price against response -----

  /** The buy amount of the response, in units. */
  function BuyUnits(quote: SwapQuote, buyDecimals: nat, fee: AffiliateFee, gaslessSwapFeeEnabled: bool): real
    requires fee.PercentageOrZero() != -1.0
  {
    ToUnit(QuotedBuyAmount(quote, fee, gaslessSwapFeeEnabled), buyDecimals)
  }

  /** The price leaves out an enabled gasless fee, unless the gas comes to less than a token. */
  predicate PriceCoversFee(quote: SwapQuote, fee: AffiliateFee, gaslessSwapFeeEnabled: bool) {
    fee.feeType == GaslessFee && !fee.NotCharged() && gaslessSwapFeeEnabled ==> GasInMakerTokens(quote) < 1.0
  }

  /** The price deducts at least what the response deducts, in exactly these cases. */
  lemma DeductionCoversFeeIff(quote: SwapQuote, fee: AffiliateFee, gaslessSwapFeeEnabled: bool)
    requires fee.PercentageOrZero() >= 0.0 && quote.worst.makerAmount >= 0.0 && GasInMakerTokens(quote) >= 0.0
    ensures GetBuyTokenFeeAmounts(quote, fee, gaslessSwapFeeEnabled).buyTokenFeeAmount
            <= quote.worst.makerAmount * fee.PercentageOrZero()
       <==> PriceCoversFee(quote, fee, gaslessSwapFeeEnabled)
  {
    var p, amount := fee.PercentageOrZero(), quote.worst.makerAmount;
    MulNonneg(amount, p);
    if fee.NotCharged() {
    } else if fee.feeType == GaslessFee {
      assert amount * p == 0.0;
      GaslessFeeWithin(GasInMakerTokens(quote));
    } else {
      PercentageFeeWithin(amount, p);
    }
  }

  lemma GaslessFeeWithin(x: real)
    requires x >= 0.0
    ensures RoundDown(x) <= 0.0 <==> x < 1.0
  {
    RoundDownZeroIff(x);
    IntRoundsToItself(0.0);
    RoundingIsMonotone(0.0, x);
  }

  lemma PercentageFeeWithin(amount: real, p: real)
    requires amount >= 0.0 && p >= 0.0
    ensures PercentageFeeAmount(amount, p) <= amount * p && PercentageFeeAmount(amount, p) <= amount
  {
    var exact := ExactFee(amount, p);
    FeeIsDifference(amount, p);
    assert exact * (p + 1.0) == amount * p;
    NonnegFactor(exact, p + 1.0);
    MulNonneg(exact, p);
    assert exact * (p + 1.0) == exact * p + exact;
    NetNonneg(amount, p);
    RoundDownBounds(exact);
  }

  lemma NetNonneg(amount: real, p: real)
    requires amount >= 0.0 && p >= 0.0
    ensures NetOf(amount, p) >= 0.0
  {
    assert NetOf(amount, p) * (p + 1.0) == amount;
    NonnegFactor(NetOf(amount, p), p + 1.0);
  }

  /** The price counts at most the units the response buys exactly when it covers the fee. */
  lemma MakerUnitsWithinIff(quote: SwapQuote, buyDecimals: nat, fee: AffiliateFee, gaslessSwapFeeEnabled: bool)
    requires fee.PercentageOrZero() >= 0.0 && quote.worst.makerAmount >= 0.0 && GasInMakerTokens(quote) >= 0.0
    ensures NetMakerUnits(quote, quote.best, buyDecimals, fee)
            <= BuyUnits(quote, buyDecimals, fee, gaslessSwapFeeEnabled)
       <==> PriceCoversFee(quote, fee, gaslessSwapFeeEnabled)
  {
    DeductionCoversFeeIff(quote, fee, gaslessSwapFeeEnabled);
    var deducted := GetBuyTokenFeeAmounts(quote, fee, gaslessSwapFeeEnabled).buyTokenFeeAmount;
    UnitsDeductIff(quote.best.makerAmount, deducted, quote.worst.makerAmount, fee.PercentageOrZero(), buyDecimals);
  }

  lemma UnitsDeductIff(best: real, deducted: real, worst: real, p: real, decimals: nat)
    ensures ToUnit(best, decimals) - ToUnit(worst, decimals) * p <= ToUnit(best - deducted, decimals)
       <==> deducted <= worst * p
  {
    var d := Pow10(decimals);
    var left, right := ToUnit(best, decimals) - ToUnit(worst, decimals) * p, ToUnit(best - deducted, decimals);
    assert best / d * d == best && worst / d * d == worst && (best - deducted) / d * d == best - deducted;
    assert left * d == best - worst * p by { assert (worst / d * p) * d == (worst / d * d) * p; }
    ScaledOrder(left, right, d);
  }

  lemma ScaledOrder(x: real, y: real, d: real)
    requires d > 0.0
    ensures x <= y <==> x * d <= y * d
  {
    if x <= y { MulMono(x, y, d); }
    if x > y { assert (x - y) * d > 0.0; assert (x - y) * d == x * d - y * d; }
  }

  /** A rounded quotient stays on the right side of another exactly when the decimals do not tell them apart. */
  lemma PlacesHideIff(x: real, y: real, places: nat)
    ensures y <= x ==> (FloorToPlaces(x, places) <= y <==> FloorToPlaces(x, places) == FloorToPlaces(y, places))
    ensures x <= y ==> (CeilToPlaces(x, places) >= y <==> CeilToPlaces(x, places) == CeilToPlaces(y, places))
  {
    PlacesBounds(y, places);
    var d := Pow10(places);
    if y <= x {
      PlacesMonotone(y, x, places);
      if FloorToPlaces(x, places) <= y { WholePlacesBelow(Floor(Times(x, d)), y, d); }
    }
    if x <= y {
      PlacesMonotone(x, y, places);
      if CeilToPlaces(x, places) >= y { WholePlacesAbove(Ceil(Times(x, d)), y, d); }
    }
  }

  lemma WholePlacesBelow(n: real, y: real, d: real)
    requires IsInt(n) && d > 0.0 && n / d <= y
    ensures n / d <= Floor(Times(y, d)) / d
  {
    DivCancel(n, d);
    TimesMono(n / d, y, d);
    IntsLess(n, Floor(Times(y, d)));
    DivMono(n, Floor(Times(y, d)), d);
  }

  lemma WholePlacesAbove(n: real, y: real, d: real)
    requires IsInt(n) && d > 0.0 && n / d >= y
    ensures n / d >= Ceil(Times(y, d)) / d
  {
    DivCancel(n, d);
    TimesMono(y, n / d, d);
    IntsLess(Ceil(Times(y, d)), n);
    DivMono(Ceil(Times(y, d)), n, d);
  }

  /**
   * The communicated price is never better than what the response's own amounts come to, for every fee but an
   * enabled gasless fee; with that, exactly when the quotients with and without the fee round to the same.
   */
  lemma PriceWithinResponseIff(quote: SwapQuote, buyDecimals: nat, sellDecimals: nat, fee: AffiliateFee,
                               sellTokenFeeAmount: real, gaslessSwapFeeEnabled: bool)
    requires Priceable(quote, buyDecimals, sellDecimals, fee, sellTokenFeeAmount)
    requires fee.PercentageOrZero() >= 0.0 && quote.worst.makerAmount >= 0.0 && GasInMakerTokens(quote) >= 0.0
    requires BuyUnits(quote, buyDecimals, fee, gaslessSwapFeeEnabled) > 0.0
    ensures var p := GetSwapQuotePrice(quote.side == Sell, quote, buyDecimals, sellDecimals, fee, sellTokenFeeAmount);
            var bought := BuyUnits(quote, buyDecimals, fee, gaslessSwapFeeEnabled);
            var sold := TakerUnits(quote.best, sellDecimals, sellTokenFeeAmount);
            var maker := NetMakerUnits(quote, quote.best, buyDecimals, fee);
            if quote.side == Sell then
              p.price <= bought / sold
              <==> || PriceCoversFee(quote, fee, gaslessSwapFeeEnabled)
                   || FloorToPlaces(maker / sold, buyDecimals) == FloorToPlaces(bought / sold, buyDecimals)
            else
              p.price >= sold / bought
              <==> || PriceCoversFee(quote, fee, gaslessSwapFeeEnabled)
                   || CeilToPlaces(sold / maker, sellDecimals) == CeilToPlaces(sold / bought, sellDecimals)
  {
    var bought := BuyUnits(quote, buyDecimals, fee, gaslessSwapFeeEnabled);
    var maker := NetMakerUnits(quote, quote.best, buyDecimals, fee);
    var sold := TakerUnits(quote.best, sellDecimals, sellTokenFeeAmount);
    MakerUnitsWithinIff(quote, buyDecimals, fee, gaslessSwapFeeEnabled);
    if quote.side == Sell {
      if maker <= bought {
        RatioMonotone(maker, sold, bought, sold);
        PlacesBounds(maker / sold, buyDecimals);
      } else {
        RatioMonotone(bought, sold, maker, sold);
        PlacesHideIff(maker / sold, bought / sold, buyDecimals);
      }
    } else {
      if maker <= bought {
        RatioMonotone(sold, bought, sold, maker);
        PlacesBounds(sold / maker, sellDecimals);
      } else {
        RatioMonotone(sold, maker, sold, bought);
        PlacesHideIff(sold / maker, sold / bought, sellDecimals);
      }
    }
  }

  /** With a gasless fee of 100 the price is 10, but the response buys 900 for 100. */
  lemma GaslessPriceBeatsResponse(quote: SwapQuote, fee: AffiliateFee)
    requires fee.feeType == GaslessFee && !fee.NotCharged() && quote.side == Sell
    requires quote.best.makerAmount == quote.worst.makerAmount == 1000.0
    requires quote.best.totalTakerAmount == quote.worst.totalTakerAmount == 100.0
    requires quote.makerAmountPerEth == 1.0 && quote.gasPrice == 1.0 && quote.worst.gas == 100.0
    ensures Priceable(quote, 0, 0, fee, 0.0)
    ensures GetSwapQuotePrice(true, quote, 0, 0, fee, 0.0).price == 10.0
    ensures QuotedBuyAmount(quote, fee, true) == 900.0 && ResponseSellAmount(quote, 0.0) == 100.0
  {
    assert GasInMakerTokens(quote) == 100.0;
    assert (100.0).Floor == 100 && (10.0).Floor == 10;
    IntRoundsToItself(100.0);
    IntRoundsToItself(10.0);
    assert Times(10.0, Pow10(0)) == 10.0;
  }

  // ----- Guaranteed amount against response -----

  /** The buy token fees of the call are those of the response. */
  predicate SameBuyFees(opts: ConsumerOpts, quote: SwapQuote, fee: AffiliateFee, gaslessSwapFeeEnabled: bool)
    requires fee.PercentageOrZero() >= 0.0
  {
    && opts.buyTokenAffiliateFees
       == [AffiliateFeeAmount(fee.feeType, fee.recipient,
                              GetBuyTokenFeeAmounts(quote, fee, gaslessSwapFeeEnabled).buyTokenFeeAmount, 0.0)]
    && (opts.positiveSlippageFee.Some? ==> opts.positiveSlippageFee.value.feeType == PositiveSlippageFee)
  }

  lemma ChargedBuyFeeIs(quote: SwapQuote, fee: AffiliateFee, gaslessSwapFeeEnabled: bool, opts: ConsumerOpts)
    requires fee.PercentageOrZero() >= 0.0 && SameBuyFees(opts, quote, fee, gaslessSwapFeeEnabled)
    requires quote.worst.makerAmount >= 0.0 && GasInMakerTokens(quote) >= 0.0
    ensures SumOf(BuyTokenFees(opts), ChargedBuyFee)
         == GetBuyTokenFeeAmounts(quote, fee, gaslessSwapFeeEnabled).buyTokenFeeAmount >= 0.0
  {
    var amount := GetBuyTokenFeeAmounts(quote, fee, gaslessSwapFeeEnabled).buyTokenFeeAmount;
    var charged := AffiliateFeeAmount(fee.feeType, fee.recipient, amount, 0.0);
    BuyFeeNonneg(quote, fee, gaslessSwapFeeEnabled);
    assert [] + [charged] == opts.buyTokenAffiliateFees;
    SumAppend([], charged, ChargedBuyFee);
    if opts.positiveSlippageFee.Some? {
      SumAppend(opts.buyTokenAffiliateFees, opts.positiveSlippageFee.value, ChargedBuyFee);
    } else {
      assert BuyTokenFees(opts) == opts.buyTokenAffiliateFees;
    }
  }

  lemma BuyFeeNonneg(quote: SwapQuote, fee: AffiliateFee, gaslessSwapFeeEnabled: bool)
    requires fee.PercentageOrZero() >= 0.0 && quote.worst.makerAmount >= 0.0 && GasInMakerTokens(quote) >= 0.0
    ensures var amount := GetBuyTokenFeeAmounts(quote, fee, gaslessSwapFeeEnabled).buyTokenFeeAmount;
            && amount >= 0.0
            && (fee.feeType == PositiveSlippageFee ==> amount == 0.0)
            && (fee.feeType != GaslessFee ==> amount <= quote.worst.makerAmount)
  {
    IntRoundsToItself(0.0);
    RoundingIsMonotone(0.0, GasInMakerTokens(quote));
    if !fee.NotCharged() && fee.feeType != GaslessFee {
      var p, amount := fee.PercentageOrZero(), quote.worst.makerAmount;
      PercentageFeeWithin(amount, p);
      FeeIsDifference(amount, p);
      RoundingIsMonotone(0.0, ExactFee(amount, p));
    }
  }

  /**
   * The call never guarantees more than the response quotes, although the fee is deducted separately for each,
   * exactly when the fee leaves something to quote; every fee but a gasless one does.
   */
  lemma MinBuyWithinQuotedIff(quote: SwapQuote, fee: AffiliateFee, gaslessSwapFeeEnabled: bool, opts: ConsumerOpts)
    requires fee.PercentageOrZero() >= 0.0 && SameBuyFees(opts, quote, fee, gaslessSwapFeeEnabled)
    requires 0.0 <= quote.worst.makerAmount <= quote.best.makerAmount && GasInMakerTokens(quote) >= 0.0
    ensures MinBuyAmount(quote, opts) <= QuotedBuyAmount(quote, fee, gaslessSwapFeeEnabled)
       <==> GetBuyTokenFeeAmounts(quote, fee, gaslessSwapFeeEnabled).buyTokenFeeAmount <= quote.best.makerAmount
    ensures fee.feeType != GaslessFee ==>
              MinBuyAmount(quote, opts) <= QuotedBuyAmount(quote, fee, gaslessSwapFeeEnabled)
  {
    ChargedBuyFeeIs(quote, fee, gaslessSwapFeeEnabled, opts);
    BuyFeeNonneg(quote, fee, gaslessSwapFeeEnabled);
  }
}
