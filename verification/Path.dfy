/** A route: fills, the orders they become, and the size the route is ranked by. */
module Path {
  import opened Numbers
  import opened MarketTypes
  import opened Orders
  import Sim = QuoteSimulation

  datatype PathSize = PathSize(input: real, output: real)

  datatype PenaltyOpts = PenaltyOpts(
    outputAmountPerEth: real,
    inputAmountPerEth: real,
    exchangeProxyOverhead: set<Flag> -> real)

  datatype Path = Path(
    context: PathContext,
    fills: seq<Fill>,
    ordersByType: OrdersByType,
    targetInput: real,
    penaltyOpts: PenaltyOpts,
    sourceFlags: set<Flag>,
    adjustedSize: PathSize)
  {
    predicate HasTwoHop() { SourceFlag(MultiHop) in sourceFlags }

    function GetOrders(): seq<Order> { Flatten(ordersByType) }
  }

  predicate AllInputsNonneg(fills: seq<Fill>) { forall f <- fills :: f.base.input >= 0.0 }

  function FlattenTwoHops(ts: seq<TwoHopOrder>): seq<Order> {
    if |ts| == 0 then []
    else FlattenTwoHops(ts[..|ts| - 1]) + [ts[|ts| - 1].first, ts[|ts| - 1].second]
  }

  function Flatten(orders: OrdersByType): seq<Order> {
    orders.nativeOrders + orders.bridgeOrders + FlattenTwoHops(orders.twoHopOrders)
  }

  lemma {:induction false} HopPositions(ts: seq<TwoHopOrder>)
    ensures |FlattenTwoHops(ts)| == 2 * |ts|
    ensures forall k :: 0 <= k < |ts| ==>
              FlattenTwoHops(ts)[2 * k] == ts[k].first && FlattenTwoHops(ts)[2 * k + 1] == ts[k].second
  {
    if |ts| > 0 { HopPositions(ts[..|ts| - 1]); }
  }

  /** The flat list has native orders first, then bridge orders, then the hops of each two-hop order in turn. */
  lemma FlatPositions(orders: OrdersByType)
    ensures var flat, n, b := Flatten(orders), |orders.nativeOrders|, |orders.bridgeOrders|;
            && |flat| == n + b + 2 * |orders.twoHopOrders|
            && flat[..n] == orders.nativeOrders && flat[n..n + b] == orders.bridgeOrders
            && forall k :: 0 <= k < |orders.twoHopOrders| ==>
                 flat[n + b + 2 * k] == orders.twoHopOrders[k].first
                 && flat[n + b + 2 * k + 1] == orders.twoHopOrders[k].second
  {
    HopPositions(orders.twoHopOrders);
  }

  // ----- Size, adjusted for penalties -----

  function Penalty(f: Fill): real { f.base.adjustedOutput - f.base.output }

  /** Fills past the target are scaled down, but keep their whole penalty. */
  function CreateAdjustedSize(target: real, fills: seq<Fill>): (size: PathSize)
    requires target >= 0.0 && AllInputsNonneg(fills)
    ensures size.input == Min(target, SumOf(fills, InputOf))
  {
    if |fills| == 0 then PathSize(0.0, 0.0)
    else
      var size, fill := CreateAdjustedSize(target, fills[..|fills| - 1]), fills[|fills| - 1];
      assert fill in fills;
      if size.input + fill.base.input > target then
        var remaining := target - size.input;
        PathSize(target, size.output + fill.base.output * (remaining / fill.base.input) + Penalty(fill))
      else
        PathSize(size.input + fill.base.input, size.output + fill.base.adjustedOutput)
  }

  lemma {:induction false} AdjustedWhenCovered(target: real, fills: seq<Fill>)
    requires AllInputsNonneg(fills) && SumOf(fills, InputOf) <= target
    ensures target >= 0.0
    ensures CreateAdjustedSize(target, fills).output == SumOf(fills, OutputOf) + SumOf(fills, Penalty)
  {
    SumNonneg(fills, InputOf);
    if |fills| > 0 {
      assert fills[|fills| - 1] in fills;
      AdjustedWhenCovered(target, fills[..|fills| - 1]);
    }
  }

  lemma PartOfOutput(base: FillBase, part: real)
    requires base.input > 0.0
    ensures base.output * (part / base.input) == OutputFor(base, part)
  {
    Sim.SwapFactors(base.output, base.input, part);
  }

  /** A target that runs dry within the last fill cuts that fill's output in proportion, but not its penalty. */
  lemma AdjustedWhenCut(target: real, fills: seq<Fill>)
    requires AllInputsNonneg(fills) && |fills| > 0 && fills[|fills| - 1].base.input > 0.0
    requires SumOf(fills[..|fills| - 1], InputOf) <= target <= SumOf(fills, InputOf)
    ensures target >= 0.0
    ensures CreateAdjustedSize(target, fills).output
         == SumOf(fills, OutputOf) + SumOf(fills, Penalty)
            - OutputFor(fills[|fills| - 1].base, SumOf(fills, InputOf) - target)
  {
    hide OutputFor;
    var front, base := fills[..|fills| - 1], fills[|fills| - 1].base;
    AdjustedWhenCovered(target, front);
    var left := target - SumOf(front, InputOf);
    SumNonneg(front, InputOf);
    Sim.CutOutput(base, left);
    PartOfOutput(base, left);
  }

  predicate AllInputsPositive(fills: seq<Fill>) { forall f <- fills :: f.base.input > 0.0 }

  /** Whatever the target misses of the fills is cut from their end, penalties apart. */
  lemma {:induction false} AdjustedSizeIsCut(target: real, fills: seq<Fill>)
    requires target >= 0.0 && AllInputsPositive(fills)
    ensures AllInputsNonneg(fills) && PositiveInputs(Map(fills, BaseOf))
    ensures CreateAdjustedSize(target, fills).output
         == SumOf(fills, OutputOf) + SumOf(fills, Penalty) - CutOff(Map(fills, BaseOf), SumOf(fills, InputOf) - target)
  {
    hide OutputFor;
    FillsArePositive(fills);
    if |fills| > 0 {
      var front, fill := fills[..|fills| - 1], fills[|fills| - 1];
      assert Map(fills, BaseOf)[..|fills| - 1] == Map(front, BaseOf);
      assert fill in fills;
      if SumOf(fills, InputOf) <= target {
        AdjustedWhenCovered(target, fills);
      } else if SumOf(front, InputOf) <= target {
        AdjustedWhenCut(target, fills);
      } else {
        AdjustedSizeIsCut(target, front);
        NothingLeft(fill.base);
      }
    }
  }

  lemma NothingLeft(base: FillBase)
    requires base.input > 0.0
    ensures base.output * (0.0 / base.input) == 0.0
  {
  }

  lemma FillsArePositive(fills: seq<Fill>)
    requires AllInputsPositive(fills)
    ensures AllInputsNonneg(fills) && PositiveInputs(Map(fills, BaseOf))
  {
    forall k | 0 <= k < |fills| ensures Map(fills, BaseOf)[k].input > 0.0 { assert fills[k] in fills; }
  }

  /** Simulation calls for the same fills in the same order, without taker fees. */
  predicate SameFills(fills: seq<Fill>, cs: seq<Sim.FillCall>) {
    |cs| == |fills| && Sim.AllValid(cs) && (forall c <- cs :: Sim.FeeFree(c))
    && forall k :: 0 <= k < |cs| ==> cs[k].order.fill == fills[k].base
  }

  lemma {:induction false} SameLevel(fills: seq<Fill>, cs: seq<Sim.FillCall>, n: nat)
    requires SameFills(fills, cs) && n <= |cs|
    ensures Sim.Level(cs, n) == SumOf(fills[..n], InputOf)
  {
    if n > 0 {
      SameLevel(fills, cs, n - 1);
      Sim.FeeFreeCapacity(cs[n - 1]);
      assert fills[..n][..n - 1] == fills[..n - 1];
    }
  }

  lemma SameFillsNonneg(fills: seq<Fill>, cs: seq<Sim.FillCall>)
    requires SameFills(fills, cs)
    ensures forall n :: 0 <= n <= |fills| ==> AllInputsNonneg(fills[..n])
  {
    forall f | f in fills ensures f.base.input >= 0.0 {
      var k :| 0 <= k < |fills| && fills[k] == f;
      assert Sim.ValidCall(cs[k]);
    }
  }

  /**
   * The two waterfalls agree: the ranked size takes the same input as the simulation, and differs in
   * output exactly by the penalties of all fills, those past the target included.
   */
  lemma {:induction false} AdjustedSizeAgreesWithSimulation(
    fills: seq<Fill>, cs: seq<Sim.FillCall>, target: real, protocolFee: real, gas: GasSchedule, n: nat)
    requires SameFills(fills, cs) && n <= |cs| && target >= 0.0
    requires AllInputsNonneg(fills[..n])
    ensures var t := Sim.SumTotals(Sim.Contributions(cs, target, protocolFee, gas, n));
            CreateAdjustedSize(target, fills[..n]) == PathSize(t.input, t.output + SumOf(fills[..n], Penalty))
  {
    Sim.WaterfallConsumes(cs, target, protocolFee, gas, n);
    Sim.FeeFreeTotals(cs, target, protocolFee, gas, n);
    Sim.LevelMonotone(cs, 0, n);
    SameLevel(fills, cs, n);
    if n > 0 {
      SameFillsNonneg(fills, cs);
      AdjustedSizeAgreesWithSimulation(fills, cs, target, protocolFee, gas, n - 1);
      AgreementStep(fills, cs, target, protocolFee, gas, n);
    }
  }

  /** What the `n`-th order adds to the simulated output. */
  function FilledOutput(cs: seq<Sim.FillCall>, target: real, n: nat): real
    requires Sim.AllValid(cs) && 0 < n <= |cs|
  {
    if Sim.Reached(cs, target, n - 1)
    then Sim.Fraction(cs[n - 1], target - Sim.Level(cs, n - 1)) * cs[n - 1].order.fill.output
    else 0.0
  }

  lemma SimulationStep(cs: seq<Sim.FillCall>, target: real, protocolFee: real, gas: GasSchedule, n: nat)
    requires Sim.AllValid(cs) && 0 < n <= |cs|
    ensures SumOf(Sim.Contributions(cs, target, protocolFee, gas, n), Sim.ShareOutput)
         == SumOf(Sim.Contributions(cs, target, protocolFee, gas, n - 1), Sim.ShareOutput) + FilledOutput(cs, target, n)
  {
    if Sim.Reached(cs, target, n - 1) {
      var share := Sim.Share(cs[n - 1], target - Sim.Level(cs, n - 1), protocolFee, gas);
      SumAppend(Sim.Contributions(cs, target, protocolFee, gas, n - 1),
                Sim.Contribution(cs[n - 1].order.source, share), Sim.ShareOutput);
    }
  }

  /** The ranked size grows by the same output, and by the whole penalty. */
  lemma AdjustedStep(fills: seq<Fill>, cs: seq<Sim.FillCall>, target: real, n: nat)
    requires SameFills(fills, cs) && 0 < n <= |cs| && target >= 0.0
    requires AllInputsNonneg(fills[..n]) && AllInputsNonneg(fills[..n - 1])
    ensures CreateAdjustedSize(target, fills[..n]).output
         == CreateAdjustedSize(target, fills[..n - 1]).output + FilledOutput(cs, target, n) + Penalty(fills[n - 1])
  {
    assert fills[..n][..n - 1] == fills[..n - 1];
    var fill := fills[n - 1];
    SameLevel(fills, cs, n - 1);
    Sim.FeeFreeCapacity(cs[n - 1]);
    if !Sim.Reached(cs, target, n - 1) {
      assert fill.base.output * (0.0 / fill.base.input) == 0.0;
    }
  }

  lemma AgreementStep(
    fills: seq<Fill>, cs: seq<Sim.FillCall>, target: real, protocolFee: real, gas: GasSchedule, n: nat)
    requires SameFills(fills, cs) && 0 < n <= |cs| && target >= 0.0
    requires AllInputsNonneg(fills[..n]) && AllInputsNonneg(fills[..n - 1])
    ensures var t := Sim.SumTotals(Sim.Contributions(cs, target, protocolFee, gas, n - 1));
            var u := Sim.SumTotals(Sim.Contributions(cs, target, protocolFee, gas, n));
            (CreateAdjustedSize(target, fills[..n]).output - CreateAdjustedSize(target, fills[..n - 1]).output
             == u.output - t.output + Penalty(fills[n - 1]))
    ensures SumOf(fills[..n], Penalty) == SumOf(fills[..n - 1], Penalty) + Penalty(fills[n - 1])
  {
    assert fills[..n][..n - 1] == fills[..n - 1];
    SimulationStep(cs, target, protocolFee, gas, n);
    AdjustedStep(fills, cs, target, n);
  }

  // ----- Creating a path -----

  function MergeSourceFlags(flags: seq<set<Flag>>): set<Flag> {
    if |flags| == 0 then {} else MergeSourceFlags(flags[..|flags| - 1]) + flags[|flags| - 1]
  }

  function FlagsOf(f: Fill): set<Flag> { f.flags }

  function Create(context: PathContext, fills: seq<Fill>, targetInput: real, penaltyOpts: PenaltyOpts): Result<Path>
    requires AllWellTyped(fills) && AllInputsNonneg(fills) && targetInput >= 0.0
  {
    match CreateOrdersByType(fills, context)
    case Err(e) => Err(e)
    case Ok(orders) => Ok(Path(context, fills, orders, targetInput, penaltyOpts, MergeSourceFlags(Map(fills, FlagsOf)),
                               CreateAdjustedSize(targetInput, fills)))
  }

  /** A path as `Create` builds it. */
  ghost predicate Built(p: Path) {
    && AllWellTyped(p.fills) && AllInputsNonneg(p.fills) && p.targetInput >= 0.0
    && Create(p.context, p.fills, p.targetInput, p.penaltyOpts) == Ok(p)
  }

  /** Each fill sets the flag of its own source; only two-hop fills set the two-hop flag. */
  predicate FlagsMatch(fills: seq<Fill>) {
    forall f <- fills :: SourceFlag(MultiHop) in f.flags <==> f.source == MultiHop
  }

  lemma {:induction false} MergedFlag(fills: seq<Fill>)
    requires FlagsMatch(fills)
    ensures SourceFlag(MultiHop) in MergeSourceFlags(Map(fills, FlagsOf)) <==> !NoTwoHops(fills)
  {
    if |fills| > 0 {
      var front, fill := fills[..|fills| - 1], fills[|fills| - 1];
      MergedFlag(front);
      assert Map(fills, FlagsOf) == Map(front, FlagsOf) + [fill.flags];
      assert fill in fills && (forall f <- front :: f in fills);
      assert forall f <- fills :: f in front || f == fill;
    }
  }

  /** The merged source flags say whether the path holds a two-hop order. */
  lemma HasTwoHopIff(p: Path)
    requires Built(p) && FlagsMatch(p.fills)
    ensures p.HasTwoHop() <==> p.ordersByType.twoHopOrders != []
  {
    MergedFlag(p.fills);
    TwoHopOrdersEmpty(p.fills, p.context);
  }

  // ----- Slippage -----

  /** Slipped amounts; an unlimited amount stays unlimited. */
  function SlipDown(amount: real, maxSlippage: real): real {
    if amount == MAX_UINT256 then MAX_UINT256 else RoundDown(amount * (1.0 - maxSlippage))
  }

  function SlipUp(amount: real, maxSlippage: real): real {
    if amount == MAX_UINT256 then MAX_UINT256 else RoundUp(amount * (1.0 + maxSlippage))
  }

  function SlipOrder(o: Order, maxSlippage: real, side: Side): Order {
    if o.source == Native || maxSlippage == 0.0 then o
    else if side == Sell then o.(makerAmount := SlipDown(o.makerAmount, maxSlippage))
    else o.(takerAmount := SlipUp(o.takerAmount, maxSlippage))
  }

  function SlipOrders(orders: seq<Order>, maxSlippage: real, side: Side): (slipped: seq<Order>)
    ensures |slipped| == |orders|
    ensures forall k :: 0 <= k < |orders| ==> slipped[k] == SlipOrder(orders[k], maxSlippage, side)
  {
    seq(|orders|, i requires 0 <= i < |orders| => SlipOrder(orders[i], maxSlippage, side))
  }

  function SlipTwoHop(t: TwoHopOrder, maxSlippage: real, side: Side): TwoHopOrder {
    TwoHopOrder(SlipOrder(t.first, maxSlippage, side), SlipOrder(t.second, maxSlippage, side))
  }

  function SlipTwoHops(ts: seq<TwoHopOrder>, maxSlippage: real, side: Side): (slipped: seq<TwoHopOrder>)
    ensures |slipped| == |ts|
    ensures forall k :: 0 <= k < |ts| ==> slipped[k] == SlipTwoHop(ts[k], maxSlippage, side)
  {
    seq(|ts|, i requires 0 <= i < |ts| => SlipTwoHop(ts[i], maxSlippage, side))
  }

  function SlippedOrdersByType(p: Path, maxSlippage: real): Result<OrdersByType> {
    if maxSlippage < 0.0 || maxSlippage > 1.0 then Err(SlippageOutOfRange)
    else Ok(OrdersByType(p.ordersByType.nativeOrders,
                         SlipTwoHops(p.ordersByType.twoHopOrders, maxSlippage, p.context.side),
                         SlipOrders(p.ordersByType.bridgeOrders, maxSlippage, p.context.side)))
  }

  function SlippedOrders(p: Path, maxSlippage: real): Result<seq<Order>> {
    if maxSlippage < 0.0 || maxSlippage > 1.0 then Err(SlippageOutOfRange)
    else Ok(SlipOrders(p.GetOrders(), maxSlippage, p.context.side))
  }

  lemma {:induction false} SlipFlattenedHops(ts: seq<TwoHopOrder>, maxSlippage: real, side: Side)
    ensures FlattenTwoHops(SlipTwoHops(ts, maxSlippage, side)) == SlipOrders(FlattenTwoHops(ts), maxSlippage, side)
  {
    if |ts| > 0 {
      var front, last := ts[..|ts| - 1], ts[|ts| - 1];
      SlipFlattenedHops(front, maxSlippage, side);
      assert SlipTwoHops(ts, maxSlippage, side)[..|ts| - 1] == SlipTwoHops(front, maxSlippage, side);
    }
  }

  /** Slipping by type and then flattening is slipping the flat list; native orders stay as they are. */
  lemma SlippedFormsAgree(p: Path, maxSlippage: real)
    requires Built(p)
    ensures match SlippedOrdersByType(p, maxSlippage)
            case Err(e) => SlippedOrders(p, maxSlippage) == Err(e) && !(0.0 <= maxSlippage <= 1.0)
            case Ok(orders) => SlippedOrders(p, maxSlippage) == Ok(Flatten(orders))
                               && orders.nativeOrders == p.ordersByType.nativeOrders
  {
    if 0.0 <= maxSlippage <= 1.0 {
      var side, orders := p.context.side, p.ordersByType;
      OrdersComeFromFills(p.fills, p.context);
      SlipFlattenedHops(orders.twoHopOrders, maxSlippage, side);
      assert SlipOrders(orders.nativeOrders, maxSlippage, side) == orders.nativeOrders by {
        forall k | 0 <= k < |orders.nativeOrders| ensures orders.nativeOrders[k].source == Native {
          assert orders.nativeOrders[k] in orders.nativeOrders;
        }
      }
      assert SlipOrders(p.GetOrders(), maxSlippage, side)
          == SlipOrders(orders.nativeOrders, maxSlippage, side) + SlipOrders(orders.bridgeOrders, maxSlippage, side)
             + SlipOrders(FlattenTwoHops(orders.twoHopOrders), maxSlippage, side);
    }
  }

  /** Slippage only touches the output side, never in the trader's favour, and keeps unlimited amounts. */
  lemma SlippageIsOneSided(o: Order, maxSlippage: real, side: Side)
    requires 0.0 <= maxSlippage <= 1.0 && o.makerAmount >= 0.0 && o.takerAmount >= 0.0
    ensures var s := SlipOrder(o, maxSlippage, side);
            && s.source == o.source && s.data == o.data && s.makerToken == o.makerToken
            && s.takerToken == o.takerToken && s.fill == o.fill
            && (side == Sell ==> s.takerAmount == o.takerAmount && 0.0 <= s.makerAmount <= o.makerAmount)
            && (side == Buy ==> s.makerAmount == o.makerAmount && s.takerAmount >= o.takerAmount)
            && (o.source == Native ==> s == o)
            && (side == Sell && o.makerAmount == MAX_UINT256 ==> s == o)
            && (side == Buy && o.takerAmount == MAX_UINT256 ==> s == o)
  {
    SlipBounds(o.makerAmount, maxSlippage);
    SlipBounds(o.takerAmount, maxSlippage);
  }

  lemma SlipBounds(amount: real, maxSlippage: real)
    requires 0.0 <= maxSlippage <= 1.0 && amount >= 0.0
    ensures 0.0 <= SlipDown(amount, maxSlippage) <= amount <= SlipUp(amount, maxSlippage)
  {
    Sim.SlippageBounds(amount, maxSlippage);
  }

  // ----- Ranking paths -----

  /** `getCompleteRate`. */
  function CompleteRate(side: Side, input: real, output: real, target: real): real {
    if input == 0.0 || output == 0.0 || target == 0.0 then 0.0
    else if side == Sell then output / target
    else input / output * (input / target)
  }

  /** `ethToOutputAmount`. */
  function EthToOutputAmount(size: PathSize, opts: PenaltyOpts, ethAmount: real): real
    requires opts.outputAmountPerEth != 0.0 || size.input != 0.0
  {
    if opts.outputAmountPerEth != 0.0 then RoundHalfUp(AtRate(ethAmount, opts.outputAmountPerEth))
    else AtRate(AtRate(ethAmount, opts.inputAmountPerEth), DivToInteger(size.output, size.input))
  }

  function AtRate(amount: real, rate: real): real { rate * amount }

  /** Output net of the exchange proxy's own overhead. */
  function NetOutput(p: Path): real
    requires p.penaltyOpts.outputAmountPerEth != 0.0 || p.adjustedSize.input != 0.0
  {
    var penalty := EthToOutputAmount(p.adjustedSize, p.penaltyOpts, p.penaltyOpts.exchangeProxyOverhead(p.sourceFlags));
    if p.context.side == Sell then p.adjustedSize.output - penalty else p.adjustedSize.output + penalty
  }

  function AdjustedCompleteRate(p: Path): real
    requires p.penaltyOpts.outputAmountPerEth != 0.0 || p.adjustedSize.input != 0.0
  {
    CompleteRate(p.context.side, p.adjustedSize.input, NetOutput(p), p.targetInput)
  }

  function IsAdjustedBetterThan(p: Path, q: Path): Result<bool>
    requires Built(p) && Built(q) && p.targetInput > 0.0
  {
    if p.targetInput != q.targetInput then Err(TargetInputMismatch)
    else
      var target := p.targetInput;
      if p.adjustedSize.input < target || q.adjustedSize.input < target
      then Ok(p.adjustedSize.input > q.adjustedSize.input)
      else
        InputWithinTarget(p);
        InputWithinTarget(q);
        Ok(AdjustedCompleteRate(p) > AdjustedCompleteRate(q))
  }

  lemma InputWithinTarget(p: Path)
    requires Built(p)
    ensures 0.0 <= p.adjustedSize.input == Min(p.targetInput, SumOf(p.fills, InputOf))
  {
    SumNonneg(p.fills, InputOf);
  }

  predicate Better(p: Path, q: Path)
    requires Built(p) && Built(q) && p.targetInput > 0.0
  {
    IsAdjustedBetterThan(p, q) == Ok(true)
  }

  predicate Complete(p: Path) { p.adjustedSize.input == p.targetInput }

  /** Paths with the same target are ranked by how much they fill and then by rate: a strict weak order. */
  lemma BetterIsStrictWeakOrder(p: Path, q: Path, r: Path)
    requires Built(p) && Built(q) && Built(r)
    requires p.targetInput == q.targetInput == r.targetInput > 0.0
    ensures !Better(p, p)
    ensures Better(p, q) ==> !Better(q, p)
    ensures Better(p, q) && Better(q, r) ==> Better(p, r)
    ensures !Better(p, q) && !Better(q, r) ==> !Better(p, r)
  {
    InputWithinTarget(p);
    InputWithinTarget(q);
    InputWithinTarget(r);
  }

  /** Comparing never fails for paths with the same target, and an incomplete path never beats a complete one. */
  lemma ComparisonIsTotal(p: Path, q: Path)
    requires Built(p) && Built(q) && p.targetInput > 0.0
    ensures IsAdjustedBetterThan(p, q).Err? <==> p.targetInput != q.targetInput
    ensures p.targetInput == q.targetInput && Better(p, q) && Complete(q) ==> Complete(p)
    ensures p.targetInput == q.targetInput && Complete(p) && !Complete(q) ==> Better(p, q)
  {
    InputWithinTarget(p);
    InputWithinTarget(q);
  }

  /** When one of two paths falls short of the target, the better one is that whose fills hold more of it. */
  lemma ShortPathsRankByInput(p: Path, q: Path)
    requires Built(p) && Built(q) && p.targetInput == q.targetInput > 0.0
    requires SumOf(p.fills, InputOf) < p.targetInput || SumOf(q.fills, InputOf) < q.targetInput
    ensures Better(p, q)
       <==> SumOf(p.fills, InputOf) > SumOf(q.fills, InputOf) && SumOf(q.fills, InputOf) < p.targetInput
  {
    hide AdjustedCompleteRate;
    InputWithinTarget(p);
    InputWithinTarget(q);
  }

  /** Reciprocals of same-signed numbers are ordered the other way round. */
  lemma ReciprocalOrder(t: real, a: real, b: real)
    requires t > 0.0 && a * b > 0.0
    ensures t / a > t / b <==> a < b
  {
    assert (t / a - t / b) * (a * b) == t * (b - a) by {
      assert t / a * a == t && t / b * b == t;
      assert (t / a - t / b) * (a * b) == (t / a * a) * b - (t / b * b) * a;
    }
    if a < b { PositiveFactors(t / a - t / b, a * b, t, b - a); }
    if t / a > t / b { PositiveFactors(b - a, t, a * b, t / a - t / b); }
  }

  lemma PositiveFactors(x: real, y: real, u: real, v: real)
    requires x * y == u * v && y > 0.0 && u > 0.0 && v > 0.0
    ensures x > 0.0
  {
    assert u * v > 0.0;
  }

  /** Which of two net outputs of a complete path is preferred. */
  predicate PrefersOutput(side: Side, a: real, b: real) {
    if side == Sell then a > b
    else if (a > 0.0 && b > 0.0) || (a < 0.0 && b < 0.0) then a < b
    else a > b
  }

  /** Among complete paths only the net output decides. */
  lemma CompletePathsRankByOutput(p: Path, q: Path)
    requires Built(p) && Built(q) && Complete(p) && Complete(q)
    requires p.targetInput == q.targetInput > 0.0 && p.context.side == q.context.side
    ensures Better(p, q) <==> PrefersOutput(p.context.side, NetOutput(p), NetOutput(q))
  {
    var t, a, b := p.targetInput, NetOutput(p), NetOutput(q);
    assert t / t == 1.0;
    if p.context.side == Sell {
      SellRate(t, a);
      SellRate(t, b);
      if a > b { DivStrict(b, a, t); }
      if a <= b { DivMono(a, b, t); }
    } else {
      BuyRateSign(t, a);
      BuyRateSign(t, b);
      if (a > 0.0 && b > 0.0) || (a < 0.0 && b < 0.0) {
        assert a * b > 0.0;
        ReciprocalOrder(t, a, b);
      }
    }
  }

  lemma SellRate(t: real, a: real)
    requires t > 0.0
    ensures CompleteRate(Sell, t, a, t) == a / t
  {
  }

  lemma BuyRateSign(t: real, a: real)
    requires t > 0.0
    ensures CompleteRate(Buy, t, a, t) == if a == 0.0 then 0.0 else t / a
    ensures CompleteRate(Buy, t, a, t) > 0.0 <==> a > 0.0
    ensures CompleteRate(Buy, t, a, t) < 0.0 <==> a < 0.0
  {
    assert t / t == 1.0;
    if a != 0.0 { assert t / a * a == t; }
  }

  lemma DivStrict(a: real, b: real, c: real)
    requires a < b && c > 0.0
    ensures a / c < b / c
  {
    DivMono(a, b, c);
    if a / c == b / c { DivCancel(a, c); DivCancel(b, c); }
  }

  // ----- Ranking buys -----

  /** Fills that trade something; in a buy a penalty adds to what is paid. */
  predicate PricedBuys(fills: seq<Fill>) {
    forall f <- fills :: f.base.input > 0.0 && f.base.output > 0.0 && f.base.adjustedOutput >= f.base.output
  }

  /** Rates and gas overheads are not negative. */
  predicate PricedPenalty(p: Path) {
    && p.penaltyOpts.outputAmountPerEth >= 0.0 && p.penaltyOpts.inputAmountPerEth >= 0.0
    && p.penaltyOpts.exchangeProxyOverhead(p.sourceFlags) >= 0.0
  }

  lemma AdjustedStepPositive(output: real, fill: FillBase, part: real)
    requires output >= 0.0 && fill.input > 0.0 && fill.output > 0.0 && fill.adjustedOutput >= fill.output && part >= 0.0
    ensures var next := output + fill.output * (part / fill.input) + (fill.adjustedOutput - fill.output);
            next >= output && (part > 0.0 ==> next > 0.0)
  {
    var share := part / fill.input;
    assert share * fill.input == part;
    NonnegFactor(share, fill.input);
    MulNonneg(fill.output, share);
    if part > 0.0 { assert fill.output * share > 0.0; }
  }

  lemma {:induction false} AdjustedSizePositive(target: real, fills: seq<Fill>)
    requires target > 0.0 && PricedBuys(fills) && AllInputsNonneg(fills)
    ensures CreateAdjustedSize(target, fills).output >= 0.0
    ensures |fills| > 0 ==> CreateAdjustedSize(target, fills).output > 0.0
  {
    if |fills| > 0 {
      var front, fill := fills[..|fills| - 1], fills[|fills| - 1];
      assert fill in fills;
      AdjustedSizePositive(target, front);
      var size := CreateAdjustedSize(target, front);
      AdjustedStepPositive(size.output, fill.base, target - size.input);
    }
  }

  lemma PenaltyNonneg(size: PathSize, opts: PenaltyOpts, ethAmount: real)
    requires opts.outputAmountPerEth >= 0.0 && opts.inputAmountPerEth >= 0.0 && ethAmount >= 0.0
    requires size.input > 0.0 && size.output >= 0.0
    ensures EthToOutputAmount(size, opts, ethAmount) >= 0.0
  {
    MulNonneg(opts.outputAmountPerEth, ethAmount);
    MulNonneg(opts.inputAmountPerEth, ethAmount);
    assert AtRate(ethAmount, opts.outputAmountPerEth) >= 0.0;
    IntRoundsToItself(0.0);
    DivMono(0.0, size.output, size.input);
    RoundingIsMonotone(0.0, size.output / size.input);
    MulNonneg(AtRate(ethAmount, opts.inputAmountPerEth), DivToInteger(size.output, size.input));
    IntsLess(0.0, RoundHalfUp(AtRate(ethAmount, opts.outputAmountPerEth)));
  }

  lemma NetOutputPositive(p: Path)
    requires Built(p) && Complete(p) && p.targetInput > 0.0 && p.context.side == Buy
    requires PricedBuys(p.fills) && PricedPenalty(p)
    ensures NetOutput(p) > 0.0
  {
    InputWithinTarget(p);
    AdjustedSizePositive(p.targetInput, p.fills);
    PenaltyNonneg(p.adjustedSize, p.penaltyOpts, p.penaltyOpts.exchangeProxyOverhead(p.sourceFlags));
  }

  /** Between complete buys the better path is the one that pays less, overheads included. */
  lemma BuyPrefersSmallerOutput(p: Path, q: Path)
    requires Built(p) && Built(q) && Complete(p) && Complete(q)
    requires p.targetInput == q.targetInput > 0.0 && p.context.side == q.context.side == Buy
    requires PricedBuys(p.fills) && PricedBuys(q.fills) && PricedPenalty(p) && PricedPenalty(q)
    ensures Better(p, q) <==> NetOutput(p) < NetOutput(q)
  {
    NetOutputPositive(p);
    NetOutputPositive(q);
    CompletePathsRankByOutput(p, q);
  }

  // ----- What the overhead of a path costs it -----

  lemma {:induction false} MergedFlagsAreOfFills(fills: seq<Fill>, flag: Flag)
    ensures flag in MergeSourceFlags(Map(fills, FlagsOf)) <==> exists f <- fills :: flag in f.flags
  {
    if |fills| > 0 {
      var front, fill := fills[..|fills| - 1], fills[|fills| - 1];
      MergedFlagsAreOfFills(front, flag);
      assert Map(fills, FlagsOf) == Map(front, FlagsOf) + [fill.flags];
      assert fill in fills && (forall f <- front :: f in fills);
      assert forall f <- fills :: f in front || f == fill;
    }
  }

  /** The flags of a path are those of its fills. */
  lemma PathFlagsAreOfFills(p: Path, flag: Flag)
    requires Built(p)
    ensures flag in p.sourceFlags <==> exists f <- p.fills :: flag in f.flags
  {
    MergedFlagsAreOfFills(p.fills, flag);
  }

  /** The overhead of filling a path with its flags, in the native token. */
  function PathOverhead(p: Path): real { p.penaltyOpts.exchangeProxyOverhead(p.sourceFlags) }

  /**
   * The overhead in output tokens: to the nearest one when their rate is known, and otherwise by the input rate and
   * the whole output tokens that the path gives for an input token.
   */
  function OverheadInOutput(p: Path): real
    requires p.adjustedSize.input > 0.0
  {
    if p.penaltyOpts.outputAmountPerEth != 0.0
    then RoundHalfUp(Product(p.penaltyOpts.outputAmountPerEth, PathOverhead(p)))
    else Product(Product(p.penaltyOpts.inputAmountPerEth, PathOverhead(p)), WholeRate(p.adjustedSize))
  }

  function WholeRate(size: PathSize): real
    requires size.input > 0.0
  {
    RoundDown(size.output / size.input)
  }

  function Product(x: real, y: real): real { x * y }

  lemma NetOutputIs(p: Path)
    requires p.adjustedSize.input > 0.0
    ensures NetOutput(p)
         == if p.context.side == Sell then p.adjustedSize.output - OverheadInOutput(p)
            else p.adjustedSize.output + OverheadInOutput(p)
  {
    hide RoundHalfUp, WholeRate, EthToOutputAmount, Product;
    EthToOutputIs(p.adjustedSize, p.penaltyOpts, PathOverhead(p));
  }

  lemma EthToOutputIs(size: PathSize, opts: PenaltyOpts, ethAmount: real)
    requires size.input > 0.0
    ensures EthToOutputAmount(size, opts, ethAmount)
         == if opts.outputAmountPerEth != 0.0 then RoundHalfUp(Product(opts.outputAmountPerEth, ethAmount))
            else Product(Product(opts.inputAmountPerEth, ethAmount), WholeRate(size))
  {
    hide RoundHalfUp, RoundDown, Product, AtRate;
    AtRateIsProduct(ethAmount, opts.outputAmountPerEth);
    AtRateIsProduct(ethAmount, opts.inputAmountPerEth);
    AtRateIsProduct(AtRate(ethAmount, opts.inputAmountPerEth), WholeRate(size));
  }

  lemma AtRateIsProduct(x: real, y: real)
    ensures AtRate(x, y) == Product(x, y) == Product(y, x)
  {
  }

  /** Of two complete sells the better one gives more after its overhead is paid. */
  lemma SellsRankByWhatIsLeft(p: Path, q: Path)
    requires Built(p) && Built(q) && Complete(p) && Complete(q)
    requires p.targetInput == q.targetInput > 0.0 && p.context.side == q.context.side == Sell
    ensures Better(p, q)
       <==> p.adjustedSize.output - OverheadInOutput(p) > q.adjustedSize.output - OverheadInOutput(q)
  {
    hide OverheadInOutput, NetOutput, Better;
    NetOutputIs(p);
    NetOutputIs(q);
    CompletePathsRankByOutput(p, q);
  }

  /** Of two complete buys the better one takes less with its overhead. */
  lemma BuysRankByWhatIsPaid(p: Path, q: Path)
    requires Built(p) && Built(q) && Complete(p) && Complete(q)
    requires p.targetInput == q.targetInput > 0.0 && p.context.side == q.context.side == Buy
    requires PricedBuys(p.fills) && PricedBuys(q.fills) && PricedPenalty(p) && PricedPenalty(q)
    ensures Better(p, q)
       <==> p.adjustedSize.output + OverheadInOutput(p) < q.adjustedSize.output + OverheadInOutput(q)
  {
    hide OverheadInOutput, NetOutput, Better, PricedPenalty;
    NetOutputIs(p);
    NetOutputIs(q);
    BuyPrefersSmallerOutput(p, q);
  }

  predicate SameRates(p: Path, q: Path) {
    && p.penaltyOpts.outputAmountPerEth == q.penaltyOpts.outputAmountPerEth >= 0.0
    && p.penaltyOpts.inputAmountPerEth == q.penaltyOpts.inputAmountPerEth >= 0.0
  }

  lemma MoreOverheadCostsMore(p: Path, q: Path)
    requires p.adjustedSize == q.adjustedSize && p.adjustedSize.input > 0.0 && p.adjustedSize.output >= 0.0
    requires SameRates(p, q) && PathOverhead(p) >= PathOverhead(q)
    ensures OverheadInOutput(p) >= OverheadInOutput(q)
  {
    hide PathOverhead, RoundHalfUp, WholeRate;
    var size, x, y := p.adjustedSize, PathOverhead(p), PathOverhead(q);
    ProductMono(p.penaltyOpts.outputAmountPerEth, y, x);
    ProductMono(p.penaltyOpts.inputAmountPerEth, y, x);
    if p.penaltyOpts.outputAmountPerEth != 0.0 {
      HalfUpMono(Product(p.penaltyOpts.outputAmountPerEth, y), Product(p.penaltyOpts.outputAmountPerEth, x));
    } else {
      WholeRateNonneg(size);
      ProductMono(WholeRate(size), Product(p.penaltyOpts.inputAmountPerEth, y),
                  Product(p.penaltyOpts.inputAmountPerEth, x));
    }
  }

  lemma ProductMono(r: real, x: real, y: real)
    requires r >= 0.0 && x <= y
    ensures Product(r, x) <= Product(r, y) && Product(x, r) <= Product(y, r)
  {
  }

  lemma HalfUpMono(x: real, y: real)
    requires x <= y
    ensures RoundHalfUp(x) <= RoundHalfUp(y)
  {
    IntsLess(RoundHalfUp(x), RoundHalfUp(y));
  }

  lemma WholeRateNonneg(size: PathSize)
    requires size.output >= 0.0 && size.input > 0.0
    ensures WholeRate(size) >= 0.0
  {
    DivMono(0.0, size.output, size.input);
    IntRoundsToItself(0.0);
    RoundingIsMonotone(0.0, size.output / size.input);
  }

  /** Of two complete paths of the same size, the one with more overhead is never the better one. */
  lemma OverheadNeverHelps(p: Path, q: Path)
    requires Built(p) && Built(q) && Complete(p) && Complete(q)
    requires p.targetInput == q.targetInput > 0.0 && p.context.side == q.context.side
    requires p.adjustedSize == q.adjustedSize && p.adjustedSize.output >= 0.0
    requires SameRates(p, q) && PathOverhead(p) >= PathOverhead(q)
    requires p.context.side == Buy ==>
               PricedBuys(p.fills) && PricedBuys(q.fills) && PathOverhead(q) >= 0.0
    ensures !Better(p, q)
  {
    hide OverheadInOutput, Better;
    MoreOverheadCostsMore(p, q);
    if p.context.side == Sell { SellsRankByWhatIsLeft(p, q); } else { BuysRankByWhatIsPaid(p, q); }
  }
}
