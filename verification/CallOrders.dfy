/** The orders a call fills: replaying its transformations gives back the slipped orders of the path. */
module CallOrders {
  import opened MarketTypes
  import opened Path
  import opened FqtData
  import opened QuoteConsumer
  import opened TransformErc20

  /** The fills among the transformations, in order. */
  function FillsOf(ts: seq<Transformation>): seq<Transformation> {
    if |ts| == 0 then []
    else FillsOf(ts[..|ts| - 1]) + if ts[|ts| - 1].FillQuote? then [ts[|ts| - 1]] else []
  }

  lemma {:induction false} FillsOfConcat(xs: seq<Transformation>, ys: seq<Transformation>)
    ensures FillsOf(xs + ys) == FillsOf(xs) + FillsOf(ys)
  {
    if |ys| == 0 {
      assert xs + ys == xs;
    } else {
      assert (xs + ys)[..|xs + ys| - 1] == xs + ys[..|ys| - 1];
      FillsOfConcat(xs, ys[..|ys| - 1]);
    }
  }

  lemma {:induction false} NoFillsAmong(ts: seq<Transformation>)
    requires forall t <- ts :: !t.FillQuote?
    ensures FillsOf(ts) == []
  {
    if |ts| > 0 {
      assert ts[|ts| - 1] in ts;
      NoFillsAmong(ts[..|ts| - 1]);
    }
  }

  lemma {:induction false} OnlyFills(ts: seq<Transformation>)
    requires forall t <- ts :: t.FillQuote?
    ensures FillsOf(ts) == ts
  {
    if |ts| > 0 {
      assert ts[|ts| - 1] in ts;
      OnlyFills(ts[..|ts| - 1]);
    }
  }

  lemma {:induction false} BuyFeesAreNoFills(quote: SwapQuote, opts: ConsumerOpts, fees: seq<AffiliateFeeAmount>)
    ensures forall t <- BuyFeeSection(quote, opts, fees) :: !t.FillQuote?
  {
    hide ChargedBuyFee, SurplusThreshold;
    if |fees| > 0 { BuyFeesAreNoFills(quote, opts, fees[..|fees| - 1]); }
  }

  lemma {:induction false} TwoHopFillsAreFills(quote: SwapQuote, opts: ConsumerOpts, ts: seq<TwoHopOrder>)
    ensures forall t <- TwoHopFills(quote, opts, ts) :: t.FillQuote?
  {
    if |ts| > 0 { TwoHopFillsAreFills(quote, opts, ts[..|ts| - 1]); }
  }

  /** The fills of a call are those of its fill section. */
  lemma FillsOfCall(quote: SwapQuote, opts: ConsumerOpts, chain: Chain)
    requires 0.0 <= quote.MaxSlippage() <= 1.0
    ensures FillsOf(CallTransformations(quote, opts, chain))
         == FillSection(quote, opts, SlippedOrdersByType(quote.path, quote.MaxSlippage()).value)
  {
    var slipped := SlippedOrdersByType(quote.path, quote.MaxSlippage()).value;
    hide FillsOf, SellFeeSection, WrapSection, FillSection, UnwrapSection, BuyFeeSection, PayTakerTransformation;
    var before := SellFeeSection(quote, opts) + WrapSection(quote, opts, chain);
    var fills, unwrap := FillSection(quote, opts, slipped), UnwrapSection(opts, chain);
    var fees, pay := BuyFeeSection(quote, opts, BuyTokenFees(opts)), [PayTakerTransformation(quote, opts)];
    OtherSectionsAreNoFills(quote, opts, chain);
    FillSectionIsFills(quote, opts, slipped);
    FillsBetween(before, fills, unwrap, fees, pay);
  }

  lemma FillsBetween(before: seq<Transformation>, fills: seq<Transformation>, unwrap: seq<Transformation>,
                     fees: seq<Transformation>, pay: seq<Transformation>)
    requires FillsOf(before) == FillsOf(unwrap) == FillsOf(fees) == FillsOf(pay) == [] && FillsOf(fills) == fills
    ensures FillsOf(before + fills + unwrap + fees + pay) == fills
  {
    hide FillsOf;
    FillsOfConcat(before, fills);
    FillsOfConcat(before + fills, unwrap);
    FillsOfConcat(before + fills + unwrap, fees);
    FillsOfConcat(before + fills + unwrap + fees, pay);
  }

  lemma OtherSectionsAreNoFills(quote: SwapQuote, opts: ConsumerOpts, chain: Chain)
    ensures FillsOf(SellFeeSection(quote, opts) + WrapSection(quote, opts, chain)) == []
    ensures FillsOf(UnwrapSection(opts, chain)) == [] == FillsOf([PayTakerTransformation(quote, opts)])
    ensures FillsOf(BuyFeeSection(quote, opts, BuyTokenFees(opts))) == []
  {
    hide FillsOf, BuyFeeSection;
    NoFillsAmong(SellFeeSection(quote, opts) + WrapSection(quote, opts, chain));
    NoFillsAmong(UnwrapSection(opts, chain));
    NoFillsAmong([PayTakerTransformation(quote, opts)]);
    BuyFeesAreNoFills(quote, opts, BuyTokenFees(opts));
    NoFillsAmong(BuyFeeSection(quote, opts, BuyTokenFees(opts)));
  }

  lemma FillSectionIsFills(quote: SwapQuote, opts: ConsumerOpts, slipped: OrdersByType)
    ensures FillsOf(FillSection(quote, opts, slipped)) == FillSection(quote, opts, slipped)
  {
    hide FillsOf, TwoHopFills, NonTwoHopFillAmount;
    TwoHopFillsAreFills(quote, opts, slipped.twoHopOrders);
    OnlyFills(FillSection(quote, opts, slipped));
  }

  // ----- Replaying the fills -----

  /** The legs that a list of fills executes, one fill after the other. */
  function ReplayAll(fills: seq<Transformation>): Option<seq<Leg>> {
    if |fills| == 0 then Some([])
    else
      var front, last := ReplayAll(fills[..|fills| - 1]), fills[|fills| - 1];
      if front.None? || !last.FillQuote? || Replay(last.orders).None? then None
      else Some(front.value + Replay(last.orders).value)
  }

  lemma ReplayOneMore(fills: seq<Transformation>, fill: Transformation, legs: seq<Leg>)
    requires ReplayAll(fills).Some? && fill.FillQuote? && Replay(fill.orders) == Some(legs)
    ensures ReplayAll(fills + [fill]) == Some(ReplayAll(fills).value + legs)
  {
    assert (fills + [fill])[..|fills|] == fills;
  }

  lemma {:induction false} ReplayHops(quote: SwapQuote, opts: ConsumerOpts, ts: seq<TwoHopOrder>)
    ensures ReplayAll(TwoHopFills(quote, opts, ts)) == Some(Legs(FlattenTwoHops(ts)))
  {
    hide ReplayAll, Lowered, LegOf;
    if |ts| == 0 {
      NothingToReplay();
      assert Legs(FlattenTwoHops(ts)) == [];
    } else {
      var front, t := ts[..|ts| - 1], ts[|ts| - 1];
      ReplayHops(quote, opts, front);
      var fills := TwoHopFills(quote, opts, ts);
      var k := |fills| - 2;
      assert fills[..k] == TwoHopFills(quote, opts, front);
      assert fills == fills[..k] + [fills[k]] + [fills[k + 1]];
      ReplayReconstructs([t.first]);
      ReplayReconstructs([t.second]);
      ReplayOneMore(fills[..k], fills[k], Legs([t.first]));
      ReplayOneMore(fills[..k] + [fills[k]], fills[k + 1], Legs([t.second]));
      assert Legs(FlattenTwoHops(ts)) == Legs(FlattenTwoHops(front)) + Legs([t.first]) + Legs([t.second]);
    }
  }

  lemma NothingToReplay()
    ensures ReplayAll([]) == Some([])
  {
  }

  /**
   * The fills of a call execute exactly the slipped orders of the path, each once: the hops of each two-hop order
   * in turn, then the native and the bridge orders.
   */
  lemma CallFillsTheOrders(quote: SwapQuote, opts: ConsumerOpts, chain: Chain)
    requires 0.0 <= quote.MaxSlippage() <= 1.0
    ensures var slipped := SlippedOrdersByType(quote.path, quote.MaxSlippage()).value;
            ReplayAll(FillsOf(CallTransformations(quote, opts, chain)))
            == Some(Legs(FlattenTwoHops(slipped.twoHopOrders) + slipped.nativeOrders + slipped.bridgeOrders))
  {
    hide CallTransformations, FlattenTwoHops, Lowered, LegOf, TwoHopFills, NonTwoHopFillAmount;
    FillsOfCall(quote, opts, chain);
    var slipped := SlippedOrdersByType(quote.path, quote.MaxSlippage()).value;
    var hops, rest := FlattenTwoHops(slipped.twoHopOrders), slipped.nativeOrders + slipped.bridgeOrders;
    var fills := TwoHopFills(quote, opts, slipped.twoHopOrders);
    ReplayHops(quote, opts, slipped.twoHopOrders);
    assert Legs(hops + slipped.nativeOrders + slipped.bridgeOrders) == Legs(hops) + Legs(rest);
    if |rest| > 0 {
      ReplayReconstructs(rest);
      ReplayOneMore(fills, NonTwoHopFill(quote, opts, rest)[0], Legs(rest));
      assert NonTwoHopFill(quote, opts, rest) == [NonTwoHopFill(quote, opts, rest)[0]];
    } else {
      assert fills + NonTwoHopFill(quote, opts, rest) == fills;
      assert hops + slipped.nativeOrders + slipped.bridgeOrders == hops;
    }
  }

  // ----- Tokens -----

  /** A fill of all that is sold for a token by one order. */
  predicate FillsOne(t: Transformation, sellToken: Address, buyToken: Address, order: Order, amount: real) {
    && t.FillQuote? && t.side == Sell && t.sellToken == sellToken && t.buyToken == buyToken && t.fillAmount == amount
    && Replay(t.orders) == Some([LegOf(order)])
  }

  /** What a fill of a sell that sells the entire balance is told to sell, and any other. */
  function Told(quote: SwapQuote, opts: ConsumerOpts, amount: real): real {
    if quote.side == Sell && opts.shouldSellEntireBalance then MAX_UINT256 else amount
  }

  /** The two fills of a two-hop order: the second sells all the first has bought. */
  predicate Chained(a: Transformation, b: Transformation, t: TwoHopOrder, quote: SwapQuote, opts: ConsumerOpts) {
    && FillsOne(a, quote.takerToken, t.first.makerToken, t.first, Told(quote, opts, t.first.takerAmount))
    && FillsOne(b, t.first.makerToken, quote.makerToken, t.second, MAX_UINT256)
  }

  lemma {:induction false} HopsAreChained(quote: SwapQuote, opts: ConsumerOpts, ts: seq<TwoHopOrder>)
    ensures |TwoHopFills(quote, opts, ts)| == 2 * |ts|
    ensures forall k :: 0 <= k < |ts| ==>
              Chained(TwoHopFills(quote, opts, ts)[2 * k], TwoHopFills(quote, opts, ts)[2 * k + 1], ts[k], quote, opts)
  {
    hide Lowered, LegOf, Chained;
    if |ts| > 0 {
      var front, t := ts[..|ts| - 1], ts[|ts| - 1];
      HopsAreChained(quote, opts, front);
      LastHopsAreChained(quote, opts, ts);
    }
  }

  lemma LastHopsAreChained(quote: SwapQuote, opts: ConsumerOpts, ts: seq<TwoHopOrder>)
    requires |ts| > 0
    ensures var front, fills := TwoHopFills(quote, opts, ts[..|ts| - 1]), TwoHopFills(quote, opts, ts);
            && |fills| == |front| + 2 && fills[..|front|] == front
            && Chained(fills[|front|], fills[|front| + 1], ts[|ts| - 1], quote, opts)
  {
    hide Lowered, LegOf, Replay;
    var t := ts[|ts| - 1];
    ReplayOfOne(t.first);
    ReplayOfOne(t.second);
  }

  lemma ReplayOfOne(order: Order)
    ensures Replay(Lowered([order])) == Some([LegOf(order)])
  {
    hide Lowered, LegOf, Replay;
    ReplayReconstructs([order]);
    assert Legs([order]) == [LegOf(order)];
  }

  /**
   * The fills of a call: a chained pair for each two-hop order, and one fill from the sell token to the buy token for
   * all other orders, if there are any.
   */
  lemma CallIsChained(quote: SwapQuote, opts: ConsumerOpts, chain: Chain)
    requires 0.0 <= quote.MaxSlippage() <= 1.0
    ensures var slipped := SlippedOrdersByType(quote.path, quote.MaxSlippage()).value;
            var fills, n := FillsOf(CallTransformations(quote, opts, chain)), |slipped.twoHopOrders|;
            var rest := slipped.nativeOrders + slipped.bridgeOrders;
            && |fills| == 2 * n + (if |rest| == 0 then 0 else 1)
            && (forall k :: 0 <= k < n ==>
                  Chained(fills[2 * k], fills[2 * k + 1], slipped.twoHopOrders[k], quote, opts))
            && (|rest| > 0 ==>
                  var last := fills[2 * n];
                  && last.FillQuote? && last.side == quote.side && last.sellToken == quote.takerToken
                  && last.buyToken == quote.makerToken && Replay(last.orders) == Some(Legs(rest))
                  && last.fillAmount == Told(quote, opts, NonTwoHopFillAmount(quote)))
  {
    hide CallTransformations, Lowered, LegOf, TwoHopFills, NonTwoHopFillAmount, Chained, FillsOf;
    FillsOfCall(quote, opts, chain);
    var slipped := SlippedOrdersByType(quote.path, quote.MaxSlippage()).value;
    HopsAreChained(quote, opts, slipped.twoHopOrders);
    ReplayReconstructs(slipped.nativeOrders + slipped.bridgeOrders);
  }
}
