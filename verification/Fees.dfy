/** Integrator, 0x and gas fees of a quote, and the on-chain transfers that pay them. */
module Fees {
  import opened Numbers
  import opened MarketTypes

  datatype BillingType = OnChain | OffChain

  datatype VolumeFeeConfig = VolumeFeeConfig(
    feeRecipient: Option<Address>,
    billingType: BillingType,
    volumePercentage: real)

  datatype ZeroExFeeConfig =
    | ZeroExVolume(feeRecipient: Option<Address>, billingType: BillingType, volumePercentage: real)
    | IntegratorShare(feeRecipient: Option<Address>, billingType: BillingType, integratorSharePercentage: real)

  datatype GasFeeConfig = GasFeeConfig(feeRecipient: Option<Address>, billingType: BillingType)

  datatype FeeConfigs = FeeConfigs(
    integratorFee: Option<VolumeFeeConfig>,
    zeroExFee: Option<ZeroExFeeConfig>,
    gasFee: Option<GasFeeConfig>)

  datatype Fee =
    | VolumeFee(feeToken: Address, feeAmount: real, feeRecipient: Option<Address>, billingType: BillingType)
    | ShareFee(feeToken: Address, feeAmount: real, feeRecipient: Option<Address>, billingType: BillingType)
    | GasFee(feeToken: Address, feeAmount: real, feeRecipient: Option<Address>, billingType: BillingType,
             estimatedGas: real)

  datatype FeeBreakdown = FeeBreakdown(integratorFee: Option<Fee>, zeroExFee: Option<Fee>, gasFee: Option<Fee>)

  datatype OnChainTransfer = OnChainTransfer(feeToken: Address, feeAmount: real, feeRecipient: Address)

  function TransferAmount(t: OnChainTransfer): real { t.feeAmount }

  /** A missing and an empty recipient are both falsy. */
  predicate Present(recipient: Option<Address>) { recipient.Some? && recipient.value != "" }

  predicate Billable(fee: Option<Fee>) {
    fee.Some? && fee.value.billingType == OnChain && Present(fee.value.feeRecipient)
  }

  /** A fee that leads to an on-chain transfer. */
  predicate Charged(fee: Option<Fee>) { Billable(fee) && fee.value.feeAmount > 0.0 }

  function ChargedAmount(fee: Option<Fee>): real { if Charged(fee) then fee.value.feeAmount else 0.0 }

  function ChargedRecipient(fee: Option<Fee>): set<Address> {
    if Charged(fee) then {fee.value.feeRecipient.value} else {}
  }

  /** What a fee brings a recipient, after an adjustment. */
  function PaidBy(fee: Option<Fee>, adjustment: real, recipient: Address): real {
    if Charged(fee) && fee.value.feeRecipient.value == recipient then fee.value.feeAmount - adjustment else 0.0
  }

  // ----- What the transfers should be -----

  /** The part of a charged integrator fee that is passed on as the 0x fee. */
  function CarvedOut(fees: FeeBreakdown): real {
    if Charged(fees.integratorFee) && Billable(fees.zeroExFee) && fees.zeroExFee.value.ShareFee?
    then fees.zeroExFee.value.feeAmount else 0.0
  }

  function Recipients(fees: FeeBreakdown): set<Address> {
    ChargedRecipient(fees.integratorFee) + ChargedRecipient(fees.zeroExFee) + ChargedRecipient(fees.gasFee)
  }

  /** Everything a recipient is owed, whichever of the three fees it comes from. */
  function Owed(fees: FeeBreakdown, recipient: Address): real {
    PaidBy(fees.integratorFee, CarvedOut(fees), recipient)
    + PaidBy(fees.zeroExFee, 0.0, recipient) + PaidBy(fees.gasFee, 0.0, recipient)
  }

  function TotalCharged(fees: FeeBreakdown): real {
    ChargedAmount(fees.integratorFee) + ChargedAmount(fees.gasFee) + (ChargedAmount(fees.zeroExFee) - CarvedOut(fees))
  }

  predicate DistinctRecipients(ts: seq<OnChainTransfer>) {
    forall i, j :: 0 <= i < j < |ts| ==> ts[i].feeRecipient != ts[j].feeRecipient
  }

  function RecipientsOf(ts: seq<OnChainTransfer>): set<Address> { set t | t in ts :: t.feeRecipient }

  // ----- The insertion-ordered map of transfers -----

  function IndexOf(ts: seq<OnChainTransfer>, recipient: Address): (i: nat)
    ensures i <= |ts| && (i < |ts| ==> ts[i].feeRecipient == recipient)
    ensures forall j :: 0 <= j < i ==> ts[j].feeRecipient != recipient
  {
    if |ts| == 0 || ts[0].feeRecipient == recipient then 0 else 1 + IndexOf(ts[1..], recipient)
  }

  function AmountOf(ts: seq<OnChainTransfer>, recipient: Address): real {
    var i := IndexOf(ts, recipient);
    if i < |ts| then ts[i].feeAmount else 0.0
  }

  /** `Map.set`: a known key keeps its place, a new one goes to the end. */
  function SetTransfer(ts: seq<OnChainTransfer>, t: OnChainTransfer): seq<OnChainTransfer> {
    var i := IndexOf(ts, t.feeRecipient);
    if i < |ts| then ts[i := t] else ts + [t]
  }

  function TransfersGas(gasPerOnChainTransfer: real, count: nat): real { gasPerOnChainTransfer * count as real }

  lemma {:induction false} SumAfterUpdate(ts: seq<OnChainTransfer>, i: nat, t: OnChainTransfer)
    requires i < |ts|
    ensures SumOf(ts[i := t], TransferAmount) == SumOf(ts, TransferAmount) - ts[i].feeAmount + t.feeAmount
  {
    assert ts == ts[..i] + [ts[i]] + ts[i + 1..];
    assert ts[i := t] == ts[..i] + [t] + ts[i + 1..];
    SumConcat(ts[..i] + [ts[i]], ts[i + 1..], TransferAmount);
    SumConcat(ts[..i] + [t], ts[i + 1..], TransferAmount);
    SumAppend(ts[..i], ts[i], TransferAmount);
    SumAppend(ts[..i], t, TransferAmount);
  }

  lemma SetTransferRecipients(ts: seq<OnChainTransfer>, t: OnChainTransfer)
    requires DistinctRecipients(ts)
    ensures DistinctRecipients(SetTransfer(ts, t))
    ensures RecipientsOf(SetTransfer(ts, t)) == RecipientsOf(ts) + {t.feeRecipient}
  {
    var us := SetTransfer(ts, t);
    assert us[IndexOf(ts, t.feeRecipient)] == t;
    forall r | r in RecipientsOf(ts) ensures r in RecipientsOf(us) {
      var j :| 0 <= j < |ts| && ts[j].feeRecipient == r;
      assert us[j].feeRecipient == r;
    }
  }

  lemma SetTransferAmount(ts: seq<OnChainTransfer>, t: OnChainTransfer, r: Address)
    requires DistinctRecipients(ts)
    ensures AmountOf(SetTransfer(ts, t), r) == if r == t.feeRecipient then t.feeAmount else AmountOf(ts, r)
  {
    var us := SetTransfer(ts, t);
    SetTransferRecipients(ts, t);
    AmountByPosition(ts, r);
    AmountByPosition(us, r);
    if r == t.feeRecipient {
      assert us[IndexOf(ts, r)].feeRecipient == r;
    } else if IndexOf(ts, r) < |ts| {
      assert us[IndexOf(ts, r)].feeRecipient == r;
    }
  }

  /** Adding an amount for one recipient changes that recipient's transfer and nothing else. */
  lemma SetTransferAdds(ts: seq<OnChainTransfer>, token: Address, recipient: Address, amount: real)
    requires DistinctRecipients(ts)
    ensures var us := SetTransfer(ts, OnChainTransfer(token, AmountOf(ts, recipient) + amount, recipient));
            && DistinctRecipients(us) && RecipientsOf(us) == RecipientsOf(ts) + {recipient}
            && (forall r :: AmountOf(us, r) == AmountOf(ts, r) + if r == recipient then amount else 0.0)
            && SumOf(us, TransferAmount) == SumOf(ts, TransferAmount) + amount
  {
    var t := OnChainTransfer(token, AmountOf(ts, recipient) + amount, recipient);
    SetTransferRecipients(ts, t);
    forall r { SetTransferAmount(ts, t, r); }
    if IndexOf(ts, recipient) < |ts| {
      SumAfterUpdate(ts, IndexOf(ts, recipient), t);
    } else {
      SumAppend(ts, t, TransferAmount);
    }
  }

  /** With distinct recipients the position of a recipient is unique. */
  lemma AmountByPosition(ts: seq<OnChainTransfer>, r: Address)
    requires DistinctRecipients(ts)
    ensures forall j :: 0 <= j < |ts| && ts[j].feeRecipient == r ==>
              j == IndexOf(ts, r) && AmountOf(ts, r) == ts[j].feeAmount
    ensures r !in RecipientsOf(ts) ==> AmountOf(ts, r) == 0.0
  {
    if IndexOf(ts, r) < |ts| { assert ts[IndexOf(ts, r)] in ts; }
  }

  lemma AmountsByPosition(ts: seq<OnChainTransfer>)
    requires DistinctRecipients(ts)
    ensures forall t <- ts :: t.feeAmount == AmountOf(ts, t.feeRecipient)
  {
    forall t <- ts ensures t.feeAmount == AmountOf(ts, t.feeRecipient) { AmountByPosition(ts, t.feeRecipient); }
  }

  lemma DistinctCount(ts: seq<OnChainTransfer>)
    requires DistinctRecipients(ts)
    ensures |RecipientsOf(ts)| == |ts|
  {
    if |ts| == 0 {
      assert RecipientsOf(ts) == {};
    } else {
      var front, last := ts[..|ts| - 1], ts[|ts| - 1];
      DistinctCount(front);
      assert ts == front + [last];
      assert RecipientsOf(ts) == RecipientsOf(front) + {last.feeRecipient};
    }
  }

  method CalculateTotalOnChainFees(fees: FeeBreakdown, gasPerOnChainTransfer: real)
    returns (totalOnChainFeeAmount: real, onChainTransfers: seq<OnChainTransfer>, onChainTransfersGas: real)
    ensures DistinctRecipients(onChainTransfers) && RecipientsOf(onChainTransfers) == Recipients(fees)
    ensures forall t <- onChainTransfers :: t.feeAmount == Owed(fees, t.feeRecipient)
    ensures totalOnChainFeeAmount == SumOf(onChainTransfers, TransferAmount) == TotalCharged(fees)
    ensures onChainTransfersGas == TransfersGas(gasPerOnChainTransfer, |Recipients(fees)|)
    ensures onChainTransfersGas == gasPerOnChainTransfer * |onChainTransfers| as real
  {
    var zeroExFeeAdjustment := 0.0;
    if Charged(fees.integratorFee) && Billable(fees.zeroExFee) && fees.zeroExFee.value.ShareFee? {
      zeroExFeeAdjustment := fees.zeroExFee.value.feeAmount;
    }
    onChainTransfers := MergeFees(fees, zeroExFeeAdjustment);
    AmountsByPosition(onChainTransfers);
    DistinctCount(onChainTransfers);
    onChainTransfersGas := TransfersGas(gasPerOnChainTransfer, |onChainTransfers|);
    totalOnChainFeeAmount := SumOf(onChainTransfers, TransferAmount);
  }

  /** Merges the three fees by recipient, the integrator fee less what is carved out of it. */
  method MergeFees(fees: FeeBreakdown, zeroExFeeAdjustment: real) returns (ts: seq<OnChainTransfer>)
    requires zeroExFeeAdjustment == CarvedOut(fees)
    ensures DistinctRecipients(ts) && RecipientsOf(ts) == Recipients(fees)
    ensures forall r :: AmountOf(ts, r) == Owed(fees, r)
    ensures SumOf(ts, TransferAmount) == TotalCharged(fees)
  {
    ts := [];
    assert RecipientsOf(ts) == {};
    ts := AddFee(ts, fees.integratorFee, zeroExFeeAdjustment);
    ts := AddFee(ts, fees.zeroExFee, 0.0);
    ts := AddFee(ts, fees.gasFee, 0.0);
  }

  /** Adds a charged fee, less an adjustment, to the transfer of its recipient. */
  method AddFee(ts: seq<OnChainTransfer>, fee: Option<Fee>, adjustment: real) returns (us: seq<OnChainTransfer>)
    requires DistinctRecipients(ts)
    ensures DistinctRecipients(us) && RecipientsOf(us) == RecipientsOf(ts) + ChargedRecipient(fee)
    ensures forall r :: AmountOf(us, r) == AmountOf(ts, r) + PaidBy(fee, adjustment, r)
    ensures SumOf(us, TransferAmount)
         == SumOf(ts, TransferAmount) + ChargedAmount(fee) - if Charged(fee) then adjustment else 0.0
  {
    us := ts;
    if Charged(fee) {
      var recipient := fee.value.feeRecipient.value;
      var current := AmountOf(ts, recipient);
      SetTransferAdds(ts, fee.value.feeToken, recipient, fee.value.feeAmount - adjustment);
      us := SetTransfer(
        ts, OnChainTransfer(fee.value.feeToken, current + (fee.value.feeAmount - adjustment), recipient));
    }
  }

  // ----- Fee amounts -----

  datatype FeeOpts = FeeOpts(
    feeConfigs: Option<FeeConfigs>,
    sellToken: Address,
    sellTokenAmount: real,
    sellTokenAmountPerWei: Option<real>,
    gasPrice: real,
    quoteGasEstimate: real,
    gasPerOnChainTransfer: real)

  /** A whole part of an amount. */
  function PartOf(amount: real, part: real): (whole: real)
    ensures IsInt(whole)
  {
    Floor(amount * part)
  }

  function CalculateIntegratorFee(config: Option<VolumeFeeConfig>, sellToken: Address, sellTokenAmount: real)
    : Option<Fee>
  {
    match config
    case None => None
    case Some(c) =>
      Some(VolumeFee(sellToken, PartOf(sellTokenAmount, c.volumePercentage), c.feeRecipient, c.billingType))
  }

  function CalculateZeroExFee(config: Option<ZeroExFeeConfig>, sellToken: Address, sellTokenAmount: real,
                              integratorFee: Option<Fee>): Result<Option<Fee>>
  {
    match config
    case None => Ok(None)
    case Some(ZeroExVolume(recipient, billing, percentage)) =>
      Ok(Some(VolumeFee(sellToken, PartOf(sellTokenAmount, percentage), recipient, billing)))
    case Some(IntegratorShare(recipient, billing, share)) =>
      if integratorFee.None? then Err(IntegratorFeeUndefined)
      else Ok(Some(ShareFee(sellToken, PartOf(integratorFee.value.feeAmount, share), recipient, billing)))
  }

  /** The recipients counted before the gas fee is known: a positive token rate stands in for a positive gas fee. */
  function ExpectedRecipients(config: GasFeeConfig, perWei: real, integratorFee: Option<Fee>, zeroExFee: Option<Fee>)
    : set<Address>
  {
    ChargedRecipient(integratorFee) + ChargedRecipient(zeroExFee)
    + if config.billingType == OnChain && Present(config.feeRecipient) && perWei > 0.0
      then {config.feeRecipient.value} else {}
  }

  function EstimatedGas(o: FeeOpts, count: nat): real {
    o.quoteGasEstimate + TransfersGas(o.gasPerOnChainTransfer, count)
  }

  /** Gas in fee tokens. */
  function GasCost(perWei: real, gasPrice: real, gas: real): real { perWei * gasPrice * gas }

  function GasFeeAmount(perWei: real, gasPrice: real, gas: real): (whole: real)
    ensures IsInt(whole)
  {
    Floor(GasCost(perWei, gasPrice, gas))
  }

  function GasFeeOf(o: FeeOpts, config: Option<GasFeeConfig>, integratorFee: Option<Fee>, zeroExFee: Option<Fee>)
    : Result<Option<Fee>>
  {
    match config
    case None => Ok(None)
    case Some(c) =>
      if o.sellTokenAmountPerWei.None? then Err(TokenRateUndefined)
      else
        var perWei := o.sellTokenAmountPerWei.value;
        var gas := EstimatedGas(o, |ExpectedRecipients(c, perWei, integratorFee, zeroExFee)|);
        Ok(Some(GasFee(o.sellToken, GasFeeAmount(perWei, o.gasPrice, gas), c.feeRecipient, c.billingType, gas)))
  }

  method CalculateGasFee(o: FeeOpts, config: Option<GasFeeConfig>, integratorFee: Option<Fee>, zeroExFee: Option<Fee>)
    returns (r: Result<Option<Fee>>)
    ensures r == GasFeeOf(o, config, integratorFee, zeroExFee)
  {
    if config.None? {
      return Ok(None);
    }
    if o.sellTokenAmountPerWei.None? {
      return Err(TokenRateUndefined);
    }
    var c, perWei := config.value, o.sellTokenAmountPerWei.value;
    var feeRecipients := CollectRecipients(c, perWei, integratorFee, zeroExFee);
    var estimatedGas := EstimatedGas(o, |feeRecipients|);
    return Ok(Some(GasFee(o.sellToken, GasFeeAmount(perWei, o.gasPrice, estimatedGas), c.feeRecipient, c.billingType,
                          estimatedGas)));
  }

  method CollectRecipients(config: GasFeeConfig, perWei: real, integratorFee: Option<Fee>, zeroExFee: Option<Fee>)
    returns (feeRecipients: set<Address>)
    ensures feeRecipients == ExpectedRecipients(config, perWei, integratorFee, zeroExFee)
  {
    feeRecipients := {};
    if Charged(integratorFee) {
      feeRecipients := feeRecipients + {integratorFee.value.feeRecipient.value};
    }
    if Charged(zeroExFee) {
      feeRecipients := feeRecipients + {zeroExFee.value.feeRecipient.value};
    }
    if config.billingType == OnChain && Present(config.feeRecipient) && perWei > 0.0 {
      feeRecipients := feeRecipients + {config.feeRecipient.value};
    }
  }

  function FeesOf(o: FeeOpts, configs: FeeConfigs): Result<FeeBreakdown> {
    var integratorFee := CalculateIntegratorFee(configs.integratorFee, o.sellToken, o.sellTokenAmount);
    match CalculateZeroExFee(configs.zeroExFee, o.sellToken, o.sellTokenAmount, integratorFee)
    case Err(e) => Err(e)
    case Ok(zeroExFee) =>
      match GasFeeOf(o, configs.gasFee, integratorFee, zeroExFee)
      case Err(e) => Err(e)
      case Ok(gasFee) => Ok(FeeBreakdown(integratorFee, zeroExFee, gasFee))
  }

  datatype FeeResult = FeeResult(
    fees: Option<FeeBreakdown>,
    totalOnChainFeeAmount: real,
    onChainTransfers: seq<OnChainTransfer>,
    onChainTransfersGas: real)

  /** What a result says about the breakdown it was computed from. */
  predicate PaysFees(r: FeeResult, fees: FeeBreakdown, gasPerOnChainTransfer: real) {
    && r.fees == Some(fees)
    && DistinctRecipients(r.onChainTransfers) && RecipientsOf(r.onChainTransfers) == Recipients(fees)
    && (forall t <- r.onChainTransfers :: t.feeAmount == Owed(fees, t.feeRecipient))
    && r.totalOnChainFeeAmount == SumOf(r.onChainTransfers, TransferAmount) == TotalCharged(fees)
    && r.onChainTransfersGas == TransfersGas(gasPerOnChainTransfer, |Recipients(fees)|)
  }

  method CalculateFees(o: FeeOpts) returns (r: Result<FeeResult>)
    ensures o.feeConfigs.None? ==> r == Ok(FeeResult(None, 0.0, [], 0.0))
    ensures o.feeConfigs.Some? ==> (r.Ok? <==> FeesOf(o, o.feeConfigs.value).Ok?)
    ensures o.feeConfigs.Some? && r.Ok? ==>
              PaysFees(r.value, FeesOf(o, o.feeConfigs.value).value, o.gasPerOnChainTransfer)
  {
    if o.feeConfigs.None? {
      return Ok(FeeResult(None, 0.0, [], 0.0));
    }
    var configs := o.feeConfigs.value;
    var integratorFee := CalculateIntegratorFee(configs.integratorFee, o.sellToken, o.sellTokenAmount);
    var zeroExFee := CalculateZeroExFee(configs.zeroExFee, o.sellToken, o.sellTokenAmount, integratorFee);
    if zeroExFee.Err? {
      return Err(zeroExFee.error);
    }
    var gasFee := CalculateGasFee(o, configs.gasFee, integratorFee, zeroExFee.value);
    if gasFee.Err? {
      return Err(gasFee.error);
    }
    var fees := FeeBreakdown(integratorFee, zeroExFee.value, gasFee.value);
    var total, transfers, gas := CalculateTotalOnChainFees(fees, o.gasPerOnChainTransfer);
    return Ok(FeeResult(Some(fees), total, transfers, gas));
  }

  // ----- Properties -----

  /** The calculation fails only for a 0x share of no integrator fee, or a gas fee without a token rate. */
  lemma FeesFailIff(o: FeeOpts, configs: FeeConfigs)
    ensures FeesOf(o, configs).Err?
       <==> || (configs.zeroExFee.Some? && configs.zeroExFee.value.IntegratorShare? && configs.integratorFee.None?)
            || (configs.gasFee.Some? && o.sellTokenAmountPerWei.None?)
  {
  }

  /** A whole amount less than a token below an exact one. */
  predicate Floors(whole: real, exact: real) { IsInt(whole) && whole <= exact < whole + 1.0 }

  function Exact(amount: real, part: real): real { amount * part }

  /** A fee in the sell token that is billed as its configuration says. */
  predicate BilledAs(fee: Option<Fee>, sellToken: Address, recipient: Option<Address>, billingType: BillingType) {
    && fee.Some? && fee.value.feeToken == sellToken && fee.value.feeRecipient == recipient
    && fee.value.billingType == billingType
  }

  predicate IntegratorFeeFollows(fee: Option<Fee>, config: Option<VolumeFeeConfig>, o: FeeOpts) {
    match config
    case None => fee == None
    case Some(c) =>
      && BilledAs(fee, o.sellToken, c.feeRecipient, c.billingType) && fee.value.VolumeFee?
      && Floors(fee.value.feeAmount, Exact(o.sellTokenAmount, c.volumePercentage))
  }

  predicate ZeroExFeeFollows(
    fee: Option<Fee>, config: Option<ZeroExFeeConfig>, o: FeeOpts, integratorFee: Option<Fee>)
  {
    match config
    case None => fee == None
    case Some(ZeroExVolume(recipient, billing, percentage)) =>
      && BilledAs(fee, o.sellToken, recipient, billing) && fee.value.VolumeFee?
      && Floors(fee.value.feeAmount, Exact(o.sellTokenAmount, percentage))
    case Some(IntegratorShare(recipient, billing, share)) =>
      && BilledAs(fee, o.sellToken, recipient, billing) && fee.value.ShareFee? && integratorFee.Some?
      && Floors(fee.value.feeAmount, Exact(integratorFee.value.feeAmount, share))
  }

  predicate GasFeeFollows(fee: Option<Fee>, config: Option<GasFeeConfig>, o: FeeOpts) {
    match config
    case None => fee == None
    case Some(c) =>
      && BilledAs(fee, o.sellToken, c.feeRecipient, c.billingType) && fee.value.GasFee? && o.sellTokenAmountPerWei.Some?
      && Floors(fee.value.feeAmount, Exact(Exact(o.sellTokenAmountPerWei.value, o.gasPrice), fee.value.estimatedGas))
  }

  /** Each fee is its configured part of the sell amount, of the integrator fee, or of the gas, in whole sell tokens. */
  lemma FeesFollowConfigs(o: FeeOpts, configs: FeeConfigs)
    requires FeesOf(o, configs).Ok?
    ensures var fees := FeesOf(o, configs).value;
            && IntegratorFeeFollows(fees.integratorFee, configs.integratorFee, o)
            && ZeroExFeeFollows(fees.zeroExFee, configs.zeroExFee, o, fees.integratorFee)
            && GasFeeFollows(fees.gasFee, configs.gasFee, o)
  {
    IntegratorFeeFollowsConfig(o, configs);
    ZeroExFeeFollowsConfig(o, configs);
    GasFeeFollowsConfig(o, configs);
  }

  lemma IntegratorFeeFollowsConfig(o: FeeOpts, configs: FeeConfigs)
    requires FeesOf(o, configs).Ok?
    ensures IntegratorFeeFollows(FeesOf(o, configs).value.integratorFee, configs.integratorFee, o)
  {
    hide PartOf, GasFeeOf, Floors, Exact, CalculateZeroExFee;
    if configs.integratorFee.Some? { PartFloors(o.sellTokenAmount, configs.integratorFee.value.volumePercentage); }
  }

  lemma ZeroExFeeFollowsConfig(o: FeeOpts, configs: FeeConfigs)
    requires FeesOf(o, configs).Ok?
    ensures var fees := FeesOf(o, configs).value;
            ZeroExFeeFollows(fees.zeroExFee, configs.zeroExFee, o, fees.integratorFee)
  {
    hide PartOf, GasFeeOf, Floors, Exact;
    if configs.zeroExFee.Some? {
      match configs.zeroExFee.value
      case ZeroExVolume(_, _, percentage) => PartFloors(o.sellTokenAmount, percentage);
      case IntegratorShare(_, _, share) =>
        PartFloors(FeesOf(o, configs).value.integratorFee.value.feeAmount, share);
    }
  }

  lemma GasFeeFollowsConfig(o: FeeOpts, configs: FeeConfigs)
    requires FeesOf(o, configs).Ok?
    ensures GasFeeFollows(FeesOf(o, configs).value.gasFee, configs.gasFee, o)
  {
    hide GasFeeAmount, Floors, Exact, CalculateZeroExFee, CalculateIntegratorFee, ExpectedRecipients, EstimatedGas;
    if configs.gasFee.Some? {
      GasFeeFloors(o.sellTokenAmountPerWei.value, o.gasPrice, FeesOf(o, configs).value.gasFee.value.estimatedGas);
    }
  }

  lemma PartFloors(amount: real, part: real)
    ensures Floors(PartOf(amount, part), Exact(amount, part))
  {
  }

  lemma GasFeeFloors(perWei: real, gasPrice: real, gas: real)
    ensures Floors(GasFeeAmount(perWei, gasPrice, gas), Exact(Exact(perWei, gasPrice), gas))
  {
  }

  /** The fee goes to the recipient by a transfer: it is billed on-chain, and there is something to pay. */
  predicate Pays(fee: Option<Fee>, recipient: Address) {
    && fee.Some? && fee.value.billingType == OnChain && fee.value.feeRecipient == Some(recipient) && recipient != ""
    && fee.value.feeAmount > 0.0
  }

  function Due(fee: Option<Fee>, recipient: Address): real {
    if Pays(fee, recipient) then fee.value.feeAmount else 0.0
  }

  /** A 0x share that some recipient is owed on-chain comes out of the integrator fee. */
  predicate SharesIntegratorFee(zeroExFee: Option<Fee>) {
    && zeroExFee.Some? && zeroExFee.value.ShareFee? && zeroExFee.value.billingType == OnChain
    && zeroExFee.value.feeRecipient.Some? && zeroExFee.value.feeRecipient.value != ""
  }

  /** Who is paid, and what: every fee billed on-chain, the integrator's less the share that goes to 0x. */
  lemma TransfersFollowFees(fees: FeeBreakdown, recipient: Address)
    ensures recipient in Recipients(fees)
       <==> Pays(fees.integratorFee, recipient) || Pays(fees.zeroExFee, recipient) || Pays(fees.gasFee, recipient)
    ensures Owed(fees, recipient)
         == Due(fees.integratorFee, recipient) + Due(fees.zeroExFee, recipient) + Due(fees.gasFee, recipient)
            - if Pays(fees.integratorFee, recipient) && SharesIntegratorFee(fees.zeroExFee)
              then fees.zeroExFee.value.feeAmount else 0.0
  {
  }

  /** Nothing is charged for more than it is worth: no percentage is negative, and a 0x share is not the whole. */
  predicate SoundConfigs(o: FeeOpts, configs: FeeConfigs) {
    && o.sellTokenAmount >= 0.0
    && (configs.integratorFee.Some? ==> configs.integratorFee.value.volumePercentage >= 0.0)
    && (configs.zeroExFee.Some? ==>
          match configs.zeroExFee.value
          case ZeroExVolume(_, _, percentage) => percentage >= 0.0
          case IntegratorShare(_, _, share) => 0.0 <= share < 1.0)
  }

  lemma FloorNonneg(x: real)
    requires x >= 0.0
    ensures Floor(x) >= 0.0
  {
    IntRoundsToItself(0.0);
    RoundingIsMonotone(0.0, x);
  }

  lemma PartNonneg(amount: real, part: real)
    requires amount >= 0.0 && part >= 0.0
    ensures PartOf(amount, part) >= 0.0
  {
    MulNonneg(amount, part);
    FloorNonneg(amount * part);
  }

  /** A share of an amount is less than the amount. */
  lemma ShareIsLess(amount: real, share: real)
    requires amount >= 0.0 && 0.0 <= share < 1.0
    ensures 0.0 <= PartOf(amount, share) && (amount > 0.0 ==> PartOf(amount, share) < amount)
  {
    PartNonneg(amount, share);
    if amount > 0.0 { LessThanWhole(amount, share); }
  }

  lemma LessThanWhole(amount: real, share: real)
    requires amount > 0.0 && share < 1.0
    ensures amount * share < amount
  {
    assert amount * (1.0 - share) > 0.0;
  }

  /** What a 0x fee may be next to an integrator fee. */
  predicate ZeroExBounded(fee: Option<Fee>, integratorFee: Option<Fee>) {
    && (fee.Some? ==> fee.value.feeAmount >= 0.0)
    && (fee.Some? && fee.value.ShareFee? ==>
          && integratorFee.Some?
          && (integratorFee.value.feeAmount > 0.0 ==> fee.value.feeAmount < integratorFee.value.feeAmount))
  }

  lemma IntegratorFeeNonneg(o: FeeOpts, configs: FeeConfigs)
    requires SoundConfigs(o, configs)
    ensures var fee := CalculateIntegratorFee(configs.integratorFee, o.sellToken, o.sellTokenAmount);
            fee.Some? ==> fee.value.feeAmount >= 0.0
  {
    if configs.integratorFee.Some? { PartNonneg(o.sellTokenAmount, configs.integratorFee.value.volumePercentage); }
  }

  lemma ZeroExFeeBounds(o: FeeOpts, configs: FeeConfigs, integratorFee: Option<Fee>)
    requires SoundConfigs(o, configs) && (integratorFee.Some? ==> integratorFee.value.feeAmount >= 0.0)
    requires CalculateZeroExFee(configs.zeroExFee, o.sellToken, o.sellTokenAmount, integratorFee).Ok?
    ensures ZeroExBounded(CalculateZeroExFee(configs.zeroExFee, o.sellToken, o.sellTokenAmount, integratorFee).value,
                          integratorFee)
  {
    if configs.zeroExFee.Some? {
      match configs.zeroExFee.value
      case ZeroExVolume(_, _, percentage) =>
        PartNonneg(o.sellTokenAmount, percentage);
      case IntegratorShare(_, _, share) =>
        ShareIsLess(integratorFee.value.feeAmount, share);
    }
  }

  /** The 0x share is carved out of the integrator fee, and leaves something of it. */
  lemma CarvedOutBounds(o: FeeOpts, configs: FeeConfigs)
    requires SoundConfigs(o, configs) && FeesOf(o, configs).Ok?
    ensures var fees := FeesOf(o, configs).value;
            && 0.0 <= CarvedOut(fees)
            && (Charged(fees.integratorFee) ==> CarvedOut(fees) < fees.integratorFee.value.feeAmount)
            && (fees.zeroExFee.Some? ==> fees.zeroExFee.value.feeAmount >= 0.0)
  {
    var fees := FeesOf(o, configs).value;
    IntegratorFeeNonneg(o, configs);
    ZeroExFeeBounds(o, configs, fees.integratorFee);
  }

  /** Every transfer is worth making. */
  lemma TransfersArePositive(o: FeeOpts, configs: FeeConfigs, r: Address)
    requires SoundConfigs(o, configs) && FeesOf(o, configs).Ok?
    ensures var fees := FeesOf(o, configs).value;
            (r in Recipients(fees) ==> Owed(fees, r) > 0.0) && (r !in Recipients(fees) ==> Owed(fees, r) == 0.0)
  {
    CarvedOutBounds(o, configs);
  }

  /**
   * Conservation: the total is the charged integrator fee, the charged gas fee and the charged 0x fee; a 0x
   * fee that is a share of a charged integrator fee costs nothing extra.
   */
  lemma FeesAreConserved(o: FeeOpts, configs: FeeConfigs)
    requires SoundConfigs(o, configs) && FeesOf(o, configs).Ok?
    ensures var fees := FeesOf(o, configs).value;
            var carved := Charged(fees.integratorFee) && Billable(fees.zeroExFee) && fees.zeroExFee.value.ShareFee?;
            (TotalCharged(fees)
             == ChargedAmount(fees.integratorFee) + ChargedAmount(fees.gasFee)
                + (if carved then 0.0 else ChargedAmount(fees.zeroExFee))
             && TotalCharged(fees) >= 0.0)
  {
    CarvedOutBounds(o, configs);
  }

  predicate WholeFee(fee: Option<Fee>) { fee.Some? ==> IsInt(fee.value.feeAmount) }

  /** Every fee is rounded to whole tokens. */
  lemma FeesAreWhole(o: FeeOpts, configs: FeeConfigs)
    requires FeesOf(o, configs).Ok?
    ensures var fees := FeesOf(o, configs).value;
            WholeFee(fees.integratorFee) && WholeFee(fees.zeroExFee) && WholeFee(fees.gasFee)
  {
  }

  /** Charged amounts of whole fees come to a whole total. */
  lemma WholeFeesAddUp(fees: FeeBreakdown)
    requires WholeFee(fees.integratorFee) && WholeFee(fees.zeroExFee) && WholeFee(fees.gasFee)
    ensures IsInt(TotalCharged(fees))
  {
    var integrator, zeroEx := ChargedAmount(fees.integratorFee), ChargedAmount(fees.zeroExFee);
    var gas, carved := ChargedAmount(fees.gasFee), CarvedOut(fees);
    IntRoundsToItself(0.0);
    IntArithmetic(zeroEx, carved);
    IntArithmetic(integrator, gas);
    IntArithmetic(integrator + gas, zeroEx - carved);
  }

  lemma TotalIsWhole(o: FeeOpts, configs: FeeConfigs)
    requires FeesOf(o, configs).Ok?
    ensures IsInt(TotalCharged(FeesOf(o, configs).value))
  {
    FeesAreWhole(o, configs);
    WholeFeesAddUp(FeesOf(o, configs).value);
  }

  lemma SubsetCount(a: set<Address>, b: set<Address>)
    requires a <= b
    ensures |a| <= |b| && (|a| == |b| <==> a == b)
  {
    assert b == a + (b - a);
    assert |b| == |a| + |b - a|;
  }

  lemma TransfersGasOrder(gas: real, m: nat, n: nat)
    requires gas >= 0.0 && m <= n
    ensures TransfersGas(gas, m) <= TransfersGas(gas, n)
    ensures gas > 0.0 ==> (TransfersGas(gas, m) == TransfersGas(gas, n) <==> m == n)
  {
    MulMono(m as real, n as real, gas);
    if gas > 0.0 && m < n {
      var x, y := m as real, n as real;
      assert x + 1.0 <= y;
      MulMono(x + 1.0, y, gas);
      assert gas * (x + 1.0) == gas * x + gas;
    }
  }

  lemma NoGasFeeWithoutRate(perWei: real, gasPrice: real, gas: real)
    requires perWei <= 0.0 && gasPrice >= 0.0 && gas >= 0.0
    ensures GasFeeAmount(perWei, gasPrice, gas) <= 0.0
  {
    MulNonneg(-perWei, gasPrice);
    assert -perWei * gasPrice == -(perWei * gasPrice);
    MulNonneg(-(perWei * gasPrice), gas);
    assert -(perWei * gasPrice) * gas == -(perWei * gasPrice * gas);
  }

  lemma GasFeeVanishesIff(perWei: real, gasPrice: real, gas: real)
    ensures GasFeeAmount(perWei, gasPrice, gas) <= 0.0 <==> GasCost(perWei, gasPrice, gas) < 1.0
  {
    hide GasCost;
    var x := GasCost(perWei, gasPrice, gas);
    IntRoundsToItself(0.0);
    IntRoundsToItself(1.0);
    if Floor(x) <= 0.0 && x >= 1.0 { RoundingIsMonotone(1.0, x); }
    if x < 1.0 { IntsLess(Floor(x), 0.0); }
  }

  lemma CountsDifferIff(o: FeeOpts, configs: FeeConfigs)
    requires FeesOf(o, configs).Ok? && configs.gasFee.Some?
    requires o.gasPrice >= 0.0 && o.quoteGasEstimate >= 0.0 && o.gasPerOnChainTransfer > 0.0
    ensures var fees := FeesOf(o, configs).value;
            var gas := fees.gasFee.value;
            var transfersGas := TransfersGas(o.gasPerOnChainTransfer, |Recipients(fees)|);
            && gas.GasFee? && gas.estimatedGas >= o.quoteGasEstimate + transfersGas
            && (gas.estimatedGas > o.quoteGasEstimate + transfersGas
                <==> && Billable(fees.gasFee) && o.sellTokenAmountPerWei.value > 0.0 && gas.feeAmount <= 0.0
                     && gas.feeRecipient.value !in
                        ChargedRecipient(fees.integratorFee) + ChargedRecipient(fees.zeroExFee))
  {
    var fees := FeesOf(o, configs).value;
    var perWei := o.sellTokenAmountPerWei.value;
    var expected := ExpectedRecipients(configs.gasFee.value, perWei, fees.integratorFee, fees.zeroExFee);
    TransfersGasOrder(o.gasPerOnChainTransfer, 0, |expected|);
    if perWei <= 0.0 { NoGasFeeWithoutRate(perWei, o.gasPrice, fees.gasFee.value.estimatedGas); }
    SubsetCount(Recipients(fees), expected);
    TransfersGasOrder(o.gasPerOnChainTransfer, |Recipients(fees)|, |expected|);
  }

  /**
   * The recipients are counted twice, once to estimate the gas and once to make the transfers. The estimate
   * never falls short of the gas of the transfers, and exceeds it exactly when an on-chain gas fee with a
   * positive token rate rounds to nothing and its recipient is paid no other fee.
   */
  lemma GasEstimateCoversTransfers(o: FeeOpts, configs: FeeConfigs)
    requires FeesOf(o, configs).Ok? && configs.gasFee.Some?
    requires o.gasPrice >= 0.0 && o.quoteGasEstimate >= 0.0 && o.gasPerOnChainTransfer > 0.0
    ensures var fees := FeesOf(o, configs).value;
            var gas := fees.gasFee.value;
            var transfersGas := TransfersGas(o.gasPerOnChainTransfer, |Recipients(fees)|);
            && gas.GasFee? && gas.estimatedGas >= o.quoteGasEstimate + transfersGas
            && (gas.estimatedGas > o.quoteGasEstimate + transfersGas
                <==> && Billable(fees.gasFee) && o.sellTokenAmountPerWei.value > 0.0
                     && GasCost(o.sellTokenAmountPerWei.value, o.gasPrice, gas.estimatedGas) < 1.0
                     && gas.feeRecipient.value !in
                        ChargedRecipient(fees.integratorFee) + ChargedRecipient(fees.zeroExFee))
  {
    hide GasCost, TransfersGas, Recipients;
    var fees := FeesOf(o, configs).value;
    CountsDifferIff(o, configs);
    assert fees.gasFee.value.feeAmount
        == GasFeeAmount(o.sellTokenAmountPerWei.value, o.gasPrice, fees.gasFee.value.estimatedGas);
    GasFeeVanishesIff(o.sellTokenAmountPerWei.value, o.gasPrice, fees.gasFee.value.estimatedGas);
  }
}
