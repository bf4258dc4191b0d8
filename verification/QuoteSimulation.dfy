/** Simulating the best and worst case fill of a quote's single-hop orders. */
module QuoteSimulation {
  import opened Numbers
  import opened MarketTypes
  import NativeAmounts

  /** An order to fill, with the totals (and taker fees) its amounts are measured against. */
  datatype FillCall = FillCall(
    order: Order,
    totalInput: real,
    totalOutput: real,
    totalInputFee: real,
    totalOutputFee: real)

  datatype Totals = Totals(
    input: real,
    output: real,
    inputFee: real,
    outputFee: real,
    protocolFee: real,
    gas: real)

  datatype IntermediateResult = IntermediateResult(totals: Totals, inputBySource: map<Source, real>)

  /** Sizes are positive, and fees never exceed the input they are charged on. */
  predicate ValidCall(c: FillCall) {
    c.order.fill.input > 0.0 && c.totalInput > 0.0 && c.totalOutput > 0.0 && c.totalInput + c.totalInputFee >= 0.0
  }

  predicate AllValid(cs: seq<FillCall>) { forall c <- cs :: ValidCall(c) }

  // ----- The waterfall, described by water levels -----

  /** Input an order takes when filled completely, fees included. */
  function Capacity(c: FillCall): real
    requires ValidCall(c)
  {
    c.order.fill.input * (c.totalInput + c.totalInputFee) / c.totalInput
  }

  lemma CapacityNonneg(c: FillCall)
    requires ValidCall(c)
    ensures Capacity(c) >= 0.0
    ensures Capacity(c) == 0.0 <==> c.totalInput + c.totalInputFee == 0.0
    ensures Capacity(c) == c.order.fill.input + c.order.fill.input / c.totalInput * c.totalInputFee
  {
    var i, o, f := c.order.fill.input, c.totalInput, c.totalInputFee;
    assert Capacity(c) * o == i * (o + f);
    MulNonneg(i, o + f);
    NonnegFactor(Capacity(c), o);
    assert i / o * o == i;
    assert (i + i / o * f) * o == i * o + (i / o * o) * f;
    SameFactor(i + i / o * f, Capacity(c), o);
    if Capacity(c) == 0.0 { SameFactor(o + f, 0.0, i); }
  }

  lemma SameFactor(a: real, b: real, c: real)
    requires c != 0.0 && a * c == b * c
    ensures a == b
  {
    assert (a - b) * c == 0.0;
  }

  /** What the first `n` orders can take together. */
  function Level(cs: seq<FillCall>, n: nat): real
    requires n <= |cs| && AllValid(cs)
  {
    if n == 0 then 0.0 else Level(cs, n - 1) + Capacity(cs[n - 1])
  }

  /** The fraction of an order filled when `left` input is left for it. */
  function Fraction(c: FillCall, left: real): real
    requires ValidCall(c) && left > 0.0
  {
    if Capacity(c) <= left then 1.0 else left / Capacity(c)
  }

  predicate HasProtocolFee(o: Order) { o.Type() == Limit }

  /** What an order contributes when `left` input is left for it. */
  function Share(c: FillCall, left: real, protocolFee: real, gas: GasSchedule): Totals
    requires ValidCall(c) && left > 0.0
  {
    var part := Fraction(c, left);
    Totals(part * c.order.fill.input,
           part * c.order.fill.output,
           part * c.order.fill.input / c.totalInput * c.totalInputFee,
           part * c.order.fill.output / c.totalOutput * c.totalOutputFee,
           if HasProtocolFee(c.order) then protocolFee else 0.0,
           gas(c.order.source, c.order.data))
  }

  datatype Contribution = Contribution(source: Source, share: Totals)

  /** An order is reached while the orders before it leave some input. */
  predicate Reached(cs: seq<FillCall>, amount: real, k: nat)
    requires k < |cs| && AllValid(cs)
  {
    Level(cs, k) < amount
  }

  /** What the reached ones among the first `n` orders contribute. */
  function Contributions(cs: seq<FillCall>, amount: real, protocolFee: real, gas: GasSchedule, n: nat)
    : seq<Contribution>
    requires n <= |cs| && AllValid(cs)
  {
    if n == 0 then []
    else
      var earlier := Contributions(cs, amount, protocolFee, gas, n - 1);
      if Reached(cs, amount, n - 1)
      then earlier + [Contribution(cs[n - 1].order.source,
                                   Share(cs[n - 1], amount - Level(cs, n - 1), protocolFee, gas))]
      else earlier
  }

  function ShareInput(x: Contribution): real { x.share.input }
  function ShareOutput(x: Contribution): real { x.share.output }
  function ShareInputFee(x: Contribution): real { x.share.inputFee }
  function ShareOutputFee(x: Contribution): real { x.share.outputFee }
  function ShareProtocolFee(x: Contribution): real { x.share.protocolFee }
  function ShareGas(x: Contribution): real { x.share.gas }

  function SumTotals(xs: seq<Contribution>): Totals {
    Totals(SumOf(xs, ShareInput), SumOf(xs, ShareOutput), SumOf(xs, ShareInputFee), SumOf(xs, ShareOutputFee),
           SumOf(xs, ShareProtocolFee), SumOf(xs, ShareGas))
  }

  function SourceInput(xs: seq<Contribution>, s: Source): real {
    if |xs| == 0 then 0.0
    else SourceInput(xs[..|xs| - 1], s) + (if xs[|xs| - 1].source == s then xs[|xs| - 1].share.input else 0.0)
  }

  function GroupBySource(xs: seq<Contribution>): map<Source, real> {
    map s | s in (set x | x in xs :: x.source) :: SourceInput(xs, s)
  }

  function Collect(xs: seq<Contribution>): IntermediateResult {
    IntermediateResult(SumTotals(xs), GroupBySource(xs))
  }

  function Waterfall(cs: seq<FillCall>, amount: real, protocolFee: real, gas: GasSchedule): IntermediateResult
    requires AllValid(cs)
  {
    Collect(Contributions(cs, amount, protocolFee, gas, |cs|))
  }

  // ----- The loop -----

  function SolveForInputFillAmount(remaining: real, fillable: real, total: real, totalFee: real): real {
    var denom := total + totalFee;
    if denom == 0.0 then fillable else Min(fillable, remaining * total / denom)
  }

  /** The algebraic solution is the fraction of the order that the remaining input covers. */
  lemma SolveIsFraction(c: FillCall, remaining: real)
    requires ValidCall(c) && remaining > 0.0
    ensures var filled := SolveForInputFillAmount(remaining, c.order.fill.input, c.totalInput, c.totalInputFee);
            filled == Fraction(c, remaining) * c.order.fill.input
            && filled + filled / c.totalInput * c.totalInputFee == Min(remaining, Capacity(c))
  {
    var i, o, f := c.order.fill.input, c.totalInput, c.totalInputFee;
    CapacityNonneg(c);
    var cap := Capacity(c);
    if o + f != 0.0 {
      var solved := remaining * o / (o + f);
      assert solved * (o + f) == remaining * o && cap * o == i * (o + f);
      // solved : i == remaining : cap
      CrossRatio(solved, i, remaining, cap, o, o + f);
      if cap > remaining {
        assert Fraction(c, remaining) * i == solved;
        assert solved / o * o == solved;
        assert (solved + solved / o * f) * o == solved * o + (solved / o * o) * f == remaining * o;
        SameFactor(solved + solved / o * f, remaining, o);
      }
    }
  }

  lemma CrossRatio(s: real, i: real, r: real, cap: real, o: real, d: real)
    requires o > 0.0 && d > 0.0 && cap > 0.0 && s * d == r * o && cap * o == i * d
    ensures s <= i <==> r <= cap
    ensures r / cap * i == s
  {
    assert (i - s) * d == (cap - r) * o;
    if r <= cap { MulNonneg(cap - r, o); NonnegFactor(i - s, d); }
    if s <= i { MulNonneg(i - s, d); NonnegFactor(cap - r, o); }
    var q := r / cap;
    assert q * cap == r;
    assert (q * i) * d == q * (cap * o) == (q * cap) * o == s * d;
    SameFactor(q * i, s, d);
  }

  lemma {:induction false} LevelMonotone(cs: seq<FillCall>, j: nat, k: nat)
    requires j <= k <= |cs| && AllValid(cs)
    ensures Level(cs, j) <= Level(cs, k)
  {
    if j < k {
      CapacityNonneg(cs[k - 1]);
      LevelMonotone(cs, j, k - 1);
    }
  }

  /** Once the input is used up no later order is reached. */
  lemma {:induction false} DryFrom(cs: seq<FillCall>, amount: real, protocolFee: real, gas: GasSchedule, i: nat, n: nat)
    requires i <= n <= |cs| && AllValid(cs)
    requires amount <= Level(cs, i)
    ensures Contributions(cs, amount, protocolFee, gas, n) == Contributions(cs, amount, protocolFee, gas, i)
  {
    if i < n {
      DryFrom(cs, amount, protocolFee, gas, i, n - 1);
      LevelMonotone(cs, i, n - 1);
    }
  }

  function Add(t: Totals, u: Totals): Totals {
    Totals(t.input + u.input, t.output + u.output, t.inputFee + u.inputFee, t.outputFee + u.outputFee,
           t.protocolFee + u.protocolFee, t.gas + u.gas)
  }

  function AddTo(m: map<Source, real>, s: Source, x: real): map<Source, real> {
    m[s := (if s in m then m[s] else 0.0) + x]
  }

  /** How the result grows by one contribution. */
  lemma CollectStep(xs: seq<Contribution>, x: Contribution)
    ensures SumTotals(xs + [x]) == Add(SumTotals(xs), x.share)
    ensures GroupBySource(xs + [x]) == AddTo(GroupBySource(xs), x.source, x.share.input)
  {
    var ys := xs + [x];
    assert ys[..|xs|] == xs;
    SumAppend(xs, x, ShareInput);
    SumAppend(xs, x, ShareOutput);
    SumAppend(xs, x, ShareInputFee);
    SumAppend(xs, x, ShareOutputFee);
    SumAppend(xs, x, ShareProtocolFee);
    SumAppend(xs, x, ShareGas);
    var m, m' := GroupBySource(xs), GroupBySource(ys);
    if x.source !in m { AbsentSource(xs, x.source); }
    assert m'.Keys == m.Keys + {x.source} by {
      assert x in ys;
      forall y | y in xs ensures y in ys {}
    }
  }

  lemma {:induction false} AbsentSource(xs: seq<Contribution>, s: Source)
    requires forall x <- xs :: x.source != s
    ensures SourceInput(xs, s) == 0.0
  {
    if |xs| > 0 { AbsentSource(xs[..|xs| - 1], s); }
  }

  /** What the loop body computes for one order. */
  function FillOrder(fo: FillCall, remaining: real, protocolFee: real, gas: GasSchedule): Totals
    requires ValidCall(fo)
  {
    var filledInput := SolveForInputFillAmount(remaining, fo.order.fill.input, fo.totalInput, fo.totalInputFee);
    var filledOutput := fo.order.fill.output * (filledInput / fo.order.fill.input);
    Totals(filledInput,
           filledOutput,
           filledInput / fo.totalInput * fo.totalInputFee,
           filledOutput / fo.totalOutput * fo.totalOutputFee,
           if HasProtocolFee(fo.order) then protocolFee else 0.0,
           gas(fo.order.source, fo.order.data))
  }

  /** The loop body computes exactly the order's share. */
  lemma FillOrderIsShare(c: FillCall, remaining: real, protocolFee: real, gas: GasSchedule)
    requires ValidCall(c) && remaining > 0.0
    ensures FillOrder(c, remaining, protocolFee, gas) == Share(c, remaining, protocolFee, gas)
    ensures var s := Share(c, remaining, protocolFee, gas); s.input + s.inputFee == Min(remaining, Capacity(c))
  {
    SolveIsFraction(c, remaining);
    var part, i := Fraction(c, remaining), c.order.fill.input;
    DivCancel(part, i);
    assert c.order.fill.output * part == part * c.order.fill.output;
  }

  /** One iteration: the order's contribution is added, and the input it takes is no longer left. */
  lemma IterationAddsShare(cs: seq<FillCall>, amount: real, protocolFee: real, gas: GasSchedule, i: nat, left: real)
    requires i < |cs| && AllValid(cs) && left == amount - Level(cs, i) > 0.0
    ensures var filled := FillOrder(cs[i], left, protocolFee, gas);
            var x := Contribution(cs[i].order.source, filled);
            var done, next := Contributions(cs, amount, protocolFee, gas, i),
                              Contributions(cs, amount, protocolFee, gas, i + 1);
            && next == done + [x]
            && SumTotals(next) == Add(SumTotals(done), filled)
            && GroupBySource(next) == AddTo(GroupBySource(done), x.source, filled.input)
            && left - (filled.input + filled.inputFee) == Max(0.0, amount - Level(cs, i + 1))
  {
    FillOrderIsShare(cs[i], left, protocolFee, gas);
    CollectStep(Contributions(cs, amount, protocolFee, gas, i),
                Contribution(cs[i].order.source, FillOrder(cs[i], left, protocolFee, gas)));
  }

  method FillQuoteOrders(fillOrders: seq<FillCall>, inputAmount: real, protocolFeePerFillOrder: real,
                         gasSchedule: GasSchedule)
    returns (result: IntermediateResult)
    requires AllValid(fillOrders)
    ensures result == Waterfall(fillOrders, inputAmount, protocolFeePerFillOrder, gasSchedule)
  {
    hide FillOrder, Share, Capacity, HasProtocolFee, SourceInput;
    var input, output, inputFee, outputFee, protocolFee, gas := 0.0, 0.0, 0.0, 0.0, 0.0, 0.0;
    var inputBySource: map<Source, real> := map[];
    var remaining := inputAmount;
    ghost var done: seq<Contribution> := [];
    for i := 0 to |fillOrders|
      invariant done == Contributions(fillOrders, inputAmount, protocolFeePerFillOrder, gasSchedule, i)
      invariant Totals(input, output, inputFee, outputFee, protocolFee, gas) == SumTotals(done)
      invariant inputBySource == GroupBySource(done)
      invariant remaining + input + inputFee == inputAmount
      invariant remaining == if inputAmount <= 0.0 then inputAmount else Max(0.0, inputAmount - Level(fillOrders, i))
    {
      if remaining <= 0.0 {
        LevelMonotone(fillOrders, 0, i);
        DryFrom(fillOrders, inputAmount, protocolFeePerFillOrder, gasSchedule, i, |fillOrders|);
        break;
      }
      var fo := fillOrders[i];
      var source := fo.order.source;
      inputBySource := inputBySource[source := if source in inputBySource then inputBySource[source] else 0.0];
      var filled := FillOrder(fo, remaining, protocolFeePerFillOrder, gasSchedule);

      IterationAddsShare(fillOrders, inputAmount, protocolFeePerFillOrder, gasSchedule, i, remaining);
      done := done + [Contribution(source, filled)];

      inputBySource := inputBySource[source := inputBySource[source] + filled.input];
      input, output := input + filled.input, output + filled.output;
      inputFee, outputFee := inputFee + filled.inputFee, outputFee + filled.outputFee;
      protocolFee, gas := protocolFee + filled.protocolFee, gas + filled.gas;
      remaining := remaining - (filled.input + filled.inputFee);
    }
    result := IntermediateResult(Totals(input, output, inputFee, outputFee, protocolFee, gas), inputBySource);
  }

  // ----- What the waterfall keeps -----

  /** The orders together take the requested input, or all they can hold when that is less. */
  lemma {:induction false} WaterfallConsumes(
    cs: seq<FillCall>, amount: real, protocolFee: real, gas: GasSchedule, n: nat)
    requires n <= |cs| && AllValid(cs)
    ensures var t := SumTotals(Contributions(cs, amount, protocolFee, gas, n));
            t.input + t.inputFee == Max(0.0, Min(amount, Level(cs, n)))
  {
    hide Share, Capacity;
    if n > 0 {
      WaterfallConsumes(cs, amount, protocolFee, gas, n - 1);
      LevelMonotone(cs, 0, n - 1);
      CapacityNonneg(cs[n - 1]);
      if Reached(cs, amount, n - 1) {
        var left := amount - Level(cs, n - 1);
        var earlier := Contributions(cs, amount, protocolFee, gas, n - 1);
        var share := Share(cs[n - 1], left, protocolFee, gas);
        assert share.input + share.inputFee == Min(left, Capacity(cs[n - 1])) by {
          FillOrderIsShare(cs[n - 1], left, protocolFee, gas);
        }
        assert SumTotals(Contributions(cs, amount, protocolFee, gas, n)) == Add(SumTotals(earlier), share) by {
          CollectStep(earlier, Contribution(cs[n - 1].order.source, share));
        }
      }
    }
  }

  /** The per-source inputs add up to the total input. */
  lemma {:induction false} SourcesAddUp(xs: seq<Contribution>)
    ensures SumMap(GroupBySource(xs)) == SumTotals(xs).input
  {
    if |xs| == 0 {
      assert GroupBySource(xs) == map[];
    } else {
      var front, x := xs[..|xs| - 1], xs[|xs| - 1];
      assert xs == front + [x];
      SourcesAddUp(front);
      CollectStep(front, x);
      var m := GroupBySource(front);
      SumMapUpdate(m, x.source, (if x.source in m then m[x.source] else 0.0) + x.share.input);
    }
  }

  /** The reached orders are a prefix. */
  lemma ReachedIsPrefix(cs: seq<FillCall>, amount: real, j: nat, k: nat)
    requires j <= k < |cs| && AllValid(cs) && Reached(cs, amount, k)
    ensures Reached(cs, amount, j)
  {
    LevelMonotone(cs, j, k);
  }

  function CallInput(c: FillCall): real { c.order.fill.input }

  function CallOutput(c: FillCall): real { c.order.fill.output }

  predicate FeeFree(c: FillCall) { c.totalInputFee == 0.0 && c.totalOutputFee == 0.0 }

  lemma FeeFreeCapacity(c: FillCall)
    requires ValidCall(c) && FeeFree(c)
    ensures Capacity(c) == c.order.fill.input
  {
    CapacityNonneg(c);
  }

  lemma {:induction false} FeeFreeLevel(cs: seq<FillCall>, n: nat)
    requires n <= |cs| && AllValid(cs) && forall c <- cs :: FeeFree(c)
    ensures Level(cs, n) == SumOf(cs[..n], CallInput)
  {
    if n > 0 {
      FeeFreeLevel(cs, n - 1);
      FeeFreeCapacity(cs[n - 1]);
      assert cs[..n][..n - 1] == cs[..n - 1];
    }
  }

  lemma {:induction false} FeeFreeTotals(cs: seq<FillCall>, amount: real, protocolFee: real, gas: GasSchedule, n: nat)
    requires n <= |cs| && AllValid(cs) && forall c <- cs :: FeeFree(c)
    ensures var t := SumTotals(Contributions(cs, amount, protocolFee, gas, n)); t.inputFee == 0.0 == t.outputFee
  {
    if n > 0 {
      FeeFreeTotals(cs, amount, protocolFee, gas, n - 1);
      if Reached(cs, amount, n - 1) {
        CollectStep(Contributions(cs, amount, protocolFee, gas, n - 1),
                    Contribution(cs[n - 1].order.source,
                                 Share(cs[n - 1], amount - Level(cs, n - 1), protocolFee, gas)));
      }
    }
  }

  /** When the requested input covers every order, each is filled completely. */
  lemma {:induction false} FullFill(cs: seq<FillCall>, amount: real, protocolFee: real, gas: GasSchedule, n: nat)
    requires n <= |cs| && AllValid(cs) && forall c <- cs :: FeeFree(c)
    requires Level(cs, n) <= amount
    ensures var t := SumTotals(Contributions(cs, amount, protocolFee, gas, n));
            t.input == SumOf(cs[..n], CallInput) && t.output == SumOf(cs[..n], CallOutput)
  {
    if n > 0 {
      var c := cs[n - 1];
      FeeFreeCapacity(c);
      FullFill(cs, amount, protocolFee, gas, n - 1);
      assert cs[..n][..n - 1] == cs[..n - 1];
      var share := Share(c, amount - Level(cs, n - 1), protocolFee, gas);
      assert share.input == c.order.fill.input && share.output == c.order.fill.output;
      CollectStep(Contributions(cs, amount, protocolFee, gas, n - 1), Contribution(c.order.source, share));
    }
  }

  lemma FractionBounds(c: FillCall, left: real)
    requires ValidCall(c) && left > 0.0
    ensures 0.0 <= Fraction(c, left) <= 1.0
  {
    if left < Capacity(c) {
      DivMono(0.0, left, Capacity(c));
      DivMono(left, Capacity(c), Capacity(c));
      DivCancel(1.0, Capacity(c));
    }
  }

  lemma ShareOutputBounds(c: FillCall, left: real, protocolFee: real, gas: GasSchedule)
    requires ValidCall(c) && c.order.fill.output >= 0.0 && left > 0.0
    ensures 0.0 <= Share(c, left, protocolFee, gas).output <= c.order.fill.output
  {
    FractionBounds(c, left);
    var part := Fraction(c, left);
    MulMono(0.0, part, c.order.fill.output);
    MulMono(part, 1.0, c.order.fill.output);
  }

  /** No waterfall yields more than all outputs together. */
  lemma {:induction false} OutputWithinAll(cs: seq<FillCall>, amount: real, protocolFee: real, gas: GasSchedule, n: nat)
    requires n <= |cs| && AllValid(cs) && forall c <- cs :: c.order.fill.output >= 0.0
    ensures 0.0 <= SumTotals(Contributions(cs, amount, protocolFee, gas, n)).output <= SumOf(cs[..n], CallOutput)
  {
    hide Share, Capacity;
    if n > 0 {
      OutputWithinAll(cs, amount, protocolFee, gas, n - 1);
      assert cs[..n][..n - 1] == cs[..n - 1];
      if Reached(cs, amount, n - 1) {
        var left := amount - Level(cs, n - 1);
        var share := Share(cs[n - 1], left, protocolFee, gas);
        assert 0.0 <= share.output <= CallOutput(cs[n - 1]) by { ShareOutputBounds(cs[n - 1], left, protocolFee, gas); }
        SumAppend(Contributions(cs, amount, protocolFee, gas, n - 1), Contribution(cs[n - 1].order.source, share),
                  ShareOutput);
      }
    }
  }

  /** A request that runs dry within the last order cuts that order's output in proportion. */
  lemma LastOrderIsCut(cs: seq<FillCall>, amount: real, protocolFee: real, gas: GasSchedule, n: nat)
    requires 0 < n <= |cs| && AllValid(cs) && forall c <- cs :: FeeFree(c)
    requires Level(cs, n - 1) <= amount <= Level(cs, n)
    ensures ValidCall(cs[n - 1])
    ensures SumTotals(Contributions(cs, amount, protocolFee, gas, n)).output
         == SumOf(cs[..n], CallOutput) - OutputFor(cs[n - 1].order.fill, Level(cs, n) - amount)
  {
    var c := cs[n - 1];
    FullFill(cs, amount, protocolFee, gas, n - 1);
    assert cs[..n][..n - 1] == cs[..n - 1];
    var left := amount - Level(cs, n - 1);
    FeeFreeCapacity(c);
    CutOutput(c.order.fill, left);
    if Reached(cs, amount, n - 1) {
      CutShare(c, left, protocolFee, gas);
      CollectStep(Contributions(cs, amount, protocolFee, gas, n - 1),
                  Contribution(c.order.source, Share(c, left, protocolFee, gas)));
    }
  }

  function CallBase(c: FillCall): FillBase { c.order.fill }

  /** Whatever the request misses of the orders is cut from their end. */
  lemma {:induction false} WaterfallIsCut(cs: seq<FillCall>, amount: real, protocolFee: real, gas: GasSchedule, n: nat)
    requires n <= |cs| && AllValid(cs) && amount >= 0.0 && forall c <- cs :: FeeFree(c)
    ensures PositiveInputs(Map(cs[..n], CallBase))
    ensures SumTotals(Contributions(cs, amount, protocolFee, gas, n)).output
         == SumOf(cs[..n], CallOutput) - CutOff(Map(cs[..n], CallBase), Level(cs, n) - amount)
  {
    hide Share, Capacity, OutputFor;
    CallsArePositive(cs, n);
    if n > 0 {
      assert Map(cs[..n], CallBase)[..n - 1] == Map(cs[..n - 1], CallBase);
      assert cs[..n][..n - 1] == cs[..n - 1];
      FeeFreeCapacity(cs[n - 1]);
      if Level(cs, n) <= amount {
        FullFill(cs, amount, protocolFee, gas, n);
      } else if Level(cs, n - 1) <= amount {
        LastOrderIsCut(cs, amount, protocolFee, gas, n);
      } else {
        WaterfallIsCut(cs, amount, protocolFee, gas, n - 1);
      }
    }
  }

  lemma CallsArePositive(cs: seq<FillCall>, n: nat)
    requires n <= |cs| && AllValid(cs)
    ensures PositiveInputs(Map(cs[..n], CallBase))
  {
    forall k | 0 <= k < n ensures Map(cs[..n], CallBase)[k].input > 0.0 { assert cs[k] in cs; }
  }

  lemma CutShare(c: FillCall, left: real, protocolFee: real, gas: GasSchedule)
    requires ValidCall(c) && FeeFree(c) && 0.0 < left <= c.order.fill.input
    ensures Share(c, left, protocolFee, gas).output == OutputFor(c.order.fill, left)
  {
    FeeFreeCapacity(c);
    CutOutput(c.order.fill, left);
    SwapFactors(c.order.fill.output, c.order.fill.input, left);
  }

  lemma SwapFactors(x: real, y: real, z: real)
    requires y != 0.0
    ensures x / y * z == z / y * x
  {
    var u, v := x / y, z / y;
    assert u * y == x && v * y == z;
    assert u * z == u * (v * y) == v * (u * y);
  }

  /** What a part brings is what the rest does not. */
  lemma CutOutput(base: FillBase, part: real)
    requires base.input > 0.0
    ensures OutputFor(base, part) == base.output - OutputFor(base, base.input - part)
    ensures OutputFor(base, 0.0) == 0.0 && OutputFor(base, base.input) == base.output
  {
    var rate := base.output / base.input;
    assert rate * base.input == base.output;
    assert rate * (base.input - part) == rate * base.input - rate * part;
  }

  /** Whole orders and a whole request are filled in whole amounts. */
  lemma {:induction false} SharesAreWhole(cs: seq<FillCall>, amount: real, protocolFee: real, gas: GasSchedule, n: nat)
    requires n <= |cs| && AllValid(cs) && IsInt(amount)
    requires forall c <- cs :: FeeFree(c) && IsInt(c.order.fill.input)
    ensures IsInt(Level(cs, n))
    ensures forall x <- Contributions(cs, amount, protocolFee, gas, n) :: IsInt(ShareInput(x))
  {
    IntRoundsToItself(0.0);
    if n > 0 {
      SharesAreWhole(cs, amount, protocolFee, gas, n - 1);
      FeeFreeCapacity(cs[n - 1]);
      IntArithmetic(Level(cs, n - 1), cs[n - 1].order.fill.input);
      IntArithmetic(amount, Level(cs, n - 1));
      if Reached(cs, amount, n - 1) {
        FeeFreeShare(cs[n - 1], amount - Level(cs, n - 1), protocolFee, gas);
      }
    }
  }

  lemma FeeFreeShare(c: FillCall, left: real, protocolFee: real, gas: GasSchedule)
    requires ValidCall(c) && FeeFree(c) && left > 0.0
    ensures Share(c, left, protocolFee, gas).input == Min(left, c.order.fill.input)
  {
    FeeFreeCapacity(c);
    FillOrderIsShare(c, left, protocolFee, gas);
  }

  lemma {:induction false} SourceInputIsWhole(xs: seq<Contribution>, s: Source)
    requires forall x <- xs :: IsInt(ShareInput(x))
    ensures IsInt(SourceInput(xs, s))
  {
    if |xs| == 0 {
      IntRoundsToItself(0.0);
    } else {
      var front, x := xs[..|xs| - 1], xs[|xs| - 1];
      assert x in xs && forall y <- front :: y in xs;
      SourceInputIsWhole(front, s);
      IntArithmetic(SourceInput(front, s), ShareInput(x));
    }
  }

  // ----- Best and worst case -----

  datatype QuoteFillInfo = QuoteFillInfo(
    orders: seq<Order>,
    fillAmount: real,
    gasPrice: real,
    side: Side,
    gasSchedule: GasSchedule,
    protocolFeeMultiplier: real,
    slippage: real)
  {
    function ProtocolFeePerOrder(): real { gasPrice * protocolFeeMultiplier }
  }

  datatype QuoteFillResult = QuoteFillResult(
    makerAssetAmount: real,
    takerAssetAmount: real,
    takerFeeMakerAssetAmount: real,
    takerFeeTakerAssetAmount: real,
    totalMakerAssetAmount: real,
    totalTakerAssetAmount: real,
    protocolFeeAmount: real,
    gas: real,
    fillAmountBySource: map<Source, real>)

  /** Order sizes are positive, and a limit order's taker fee is not negative. */
  predicate ValidOrder(o: Order) {
    && o.fill.input > 0.0 && o.fill.output >= 0.0
    && o.takerAmount > 0.0 && o.makerAmount > 0.0
    && (o.Type() == Limit ==> NativeAmounts.Positive(o.data.order) && o.data.order.takerTokenFeeAmount >= 0.0)
  }

  predicate AllValidOrders(orders: seq<Order>) { forall o <- orders :: ValidOrder(o) }

  function OrderTakerFee(o: Order): real
    requires ValidOrder(o)
  {
    if o.Type() == Limit then NativeAmounts.TakerFeeAmount(o.data.order, o.takerAmount) else 0.0
  }

  function ToFillCall(o: Order, side: Side): FillCall
    requires ValidOrder(o)
  {
    if side == Sell then FillCall(o, o.takerAmount, o.makerAmount, OrderTakerFee(o), 0.0)
    else FillCall(o, o.makerAmount, o.takerAmount, 0.0, OrderTakerFee(o))
  }

  function BestCaseFillOrderCalls(orders: seq<Order>, side: Side): (cs: seq<FillCall>)
    requires AllValidOrders(orders)
    ensures |cs| == |orders| && AllValid(cs)
    ensures forall k :: 0 <= k < |cs| ==> cs[k] == ToFillCall(orders[k], side)
  {
    forall o | o in orders ensures ValidCall(ToFillCall(o, side)) { TakerFeeNonneg(o); }
    seq(|orders|, i requires 0 <= i < |orders| => ToFillCall(orders[i], side))
  }

  lemma TakerFeeNonneg(o: Order)
    requires ValidOrder(o)
    ensures OrderTakerFee(o) >= 0.0
  {
    if o.Type() == Limit {
      var order := o.data.order;
      NativeAmounts.ScaleMono(0.0, o.takerAmount, order.takerTokenFeeAmount, order.takerAmount);
      NativeAmounts.CeilFloor(NativeAmounts.Scale(o.takerAmount, order.takerTokenFeeAmount, order.takerAmount), 0.0);
    }
  }

  function RoundInputAmount(amount: real, side: Side): real {
    if side == Sell then RoundUp(amount) else RoundDown(amount)
  }

  function RoundOutputAmount(amount: real, side: Side): real {
    if side == Sell then RoundDown(amount) else RoundUp(amount)
  }

  function RoundIntermediate(ir: IntermediateResult, side: Side): IntermediateResult {
    IntermediateResult(
      Totals(RoundInputAmount(ir.totals.input, side),
             RoundOutputAmount(ir.totals.output, side),
             RoundInputAmount(ir.totals.inputFee, side),
             RoundOutputAmount(ir.totals.outputFee, side),
             RoundUp(ir.totals.protocolFee),
             Ceil(ir.totals.gas)),
      map s | s in ir.inputBySource :: RoundInputAmount(ir.inputBySource[s], side))
  }

  function FromIntermediate(ir: IntermediateResult, side: Side): QuoteFillResult {
    var rounded := RoundIntermediate(ir, side);
    var t := rounded.totals;
    if side == Sell then
      QuoteFillResult(t.output, t.input, t.outputFee, t.inputFee, t.output + t.outputFee, t.input + t.inputFee,
                      t.protocolFee, t.gas, rounded.inputBySource)
    else
      QuoteFillResult(t.input, t.output, t.inputFee, t.outputFee, t.input + t.inputFee, t.output + t.outputFee,
                      t.protocolFee, t.gas, rounded.inputBySource)
  }

  function WaterfallOf(q: QuoteFillInfo): IntermediateResult
    requires AllValidOrders(q.orders)
  {
    Waterfall(BestCaseFillOrderCalls(q.orders, q.side), q.fillAmount, q.ProtocolFeePerOrder(), q.gasSchedule)
  }

  function BestCaseFill(q: QuoteFillInfo): QuoteFillResult
    requires AllValidOrders(q.orders)
  {
    FromIntermediate(WaterfallOf(q), q.side)
  }

  /** The output after slippage, before the result is rounded again. */
  function SlippedOutput(output: real, side: Side, slippage: real): real {
    if side == Sell then RoundDown(output * (1.0 - slippage)) else RoundUp(output * (1.0 + slippage))
  }

  function TotalGas(orders: seq<Order>, gas: GasSchedule): real {
    if |orders| == 0 then 0.0
    else TotalGas(orders[..|orders| - 1], gas) + gas(orders[|orders| - 1].source, orders[|orders| - 1].data)
  }

  function CountProtocolFees(orders: seq<Order>): nat {
    if |orders| == 0 then 0
    else CountProtocolFees(orders[..|orders| - 1]) + if HasProtocolFee(orders[|orders| - 1]) then 1 else 0
  }

  /** Worst case gas and protocol fee are those of hitting all orders; the output slips. */
  function WorstCaseTotals(t: Totals, q: QuoteFillInfo): Totals {
    Totals(t.input, SlippedOutput(t.output, q.side, q.slippage), t.inputFee, t.outputFee,
           WorstCaseProtocolFee(q), TotalGas(q.orders, q.gasSchedule))
  }

  function WorstCaseProtocolFee(q: QuoteFillInfo): real {
    q.ProtocolFeePerOrder() * CountProtocolFees(q.orders) as real
  }

  function WorstCaseFill(q: QuoteFillInfo): QuoteFillResult
    requires AllValidOrders(q.orders)
  {
    var w := WaterfallOf(q);
    FromIntermediate(IntermediateResult(WorstCaseTotals(w.totals, q), w.inputBySource), q.side)
  }

  method SimulateBestCaseFill(q: QuoteFillInfo) returns (r: QuoteFillResult)
    requires AllValidOrders(q.orders)
    ensures r == BestCaseFill(q)
  {
    var calls := BestCaseFillOrderCalls(q.orders, q.side);
    var result := FillQuoteOrders(calls, q.fillAmount, q.ProtocolFeePerOrder(), q.gasSchedule);
    r := FromIntermediate(result, q.side);
  }

  method SimulateWorstCaseFill(q: QuoteFillInfo) returns (r: QuoteFillResult)
    requires AllValidOrders(q.orders)
    ensures r == WorstCaseFill(q)
  {
    var calls := BestCaseFillOrderCalls(q.orders, q.side);
    var result := FillQuoteOrders(calls, q.fillAmount, q.ProtocolFeePerOrder(), q.gasSchedule);
    var worst := result.totals.(gas := TotalGas(q.orders, q.gasSchedule), protocolFee := WorstCaseProtocolFee(q));
    worst := worst.(output := SlippedOutput(worst.output, q.side, q.slippage));
    r := FromIntermediate(IntermediateResult(worst, result.inputBySource), q.side);
  }

  predicate GasNonneg(gas: GasSchedule, orders: seq<Order>) {
    forall o <- orders :: gas(o.source, o.data) >= 0.0
  }

  lemma ShareOutputNonneg(c: FillCall, left: real, protocolFee: real, gas: GasSchedule)
    requires ValidCall(c) && c.order.fill.output >= 0.0 && left > 0.0
    ensures Share(c, left, protocolFee, gas).output >= 0.0
  {
    CapacityNonneg(c);
    if left < Capacity(c) { assert left / Capacity(c) > 0.0; }
    MulNonneg(Fraction(c, left), c.order.fill.output);
  }

  lemma {:induction false} OutputNonneg(cs: seq<FillCall>, amount: real, protocolFee: real, gas: GasSchedule, n: nat)
    requires n <= |cs| && AllValid(cs) && forall c <- cs :: c.order.fill.output >= 0.0
    ensures forall x <- Contributions(cs, amount, protocolFee, gas, n) :: ShareOutput(x) >= 0.0
  {
    if n > 0 {
      OutputNonneg(cs, amount, protocolFee, gas, n - 1);
      if Reached(cs, amount, n - 1) {
        ShareOutputNonneg(cs[n - 1], amount - Level(cs, n - 1), protocolFee, gas);
      }
    }
  }

  function OrderOf(c: FillCall): Order { c.order }

  /** The reached orders cost no more gas and protocol fees than all orders do. */
  lemma {:induction false} ReachedCostLess(cs: seq<FillCall>, amount: real, protocolFee: real, gas: GasSchedule, n: nat)
    requires n <= |cs| && AllValid(cs) && protocolFee >= 0.0
    requires forall c <- cs :: gas(c.order.source, c.order.data) >= 0.0
    ensures var xs := Contributions(cs, amount, protocolFee, gas, n);
            SumOf(xs, ShareGas) <= TotalGas(Map(cs[..n], OrderOf), gas)
            && SumOf(xs, ShareProtocolFee) <= TotalProtocolFee(Map(cs[..n], OrderOf), protocolFee)
  {
    if n > 0 {
      ReachedCostLess(cs, amount, protocolFee, gas, n - 1);
      var o := cs[n - 1].order;
      assert Map(cs[..n], OrderOf) == Map(cs[..n - 1], OrderOf) + [o];
      CostStep(Map(cs[..n - 1], OrderOf), o, protocolFee, gas);
      if Reached(cs, amount, n - 1) {
        ReachedCostStep(cs, amount, protocolFee, gas, n);
      }
    }
  }

  lemma ReachedCostStep(cs: seq<FillCall>, amount: real, protocolFee: real, gas: GasSchedule, n: nat)
    requires 0 < n <= |cs| && AllValid(cs) && Reached(cs, amount, n - 1)
    ensures var xs, ys := Contributions(cs, amount, protocolFee, gas, n - 1),
                          Contributions(cs, amount, protocolFee, gas, n);
            var o := cs[n - 1].order;
            SumOf(ys, ShareGas) == SumOf(xs, ShareGas) + gas(o.source, o.data)
            && SumOf(ys, ShareProtocolFee)
            == SumOf(xs, ShareProtocolFee) + if HasProtocolFee(o) then protocolFee else 0.0
  {
    var xs := Contributions(cs, amount, protocolFee, gas, n - 1);
    var x := Contribution(cs[n - 1].order.source, Share(cs[n - 1], amount - Level(cs, n - 1), protocolFee, gas));
    SumAppend(xs, x, ShareGas);
    SumAppend(xs, x, ShareProtocolFee);
  }

  function TotalProtocolFee(orders: seq<Order>, protocolFee: real): real {
    if |orders| == 0 then 0.0
    else TotalProtocolFee(orders[..|orders| - 1], protocolFee)
         + if HasProtocolFee(orders[|orders| - 1]) then protocolFee else 0.0
  }

  lemma {:induction false} TotalProtocolFeeIsProduct(orders: seq<Order>, protocolFee: real)
    ensures TotalProtocolFee(orders, protocolFee) == protocolFee * CountProtocolFees(orders) as real
  {
    if |orders| > 0 {
      TotalProtocolFeeIsProduct(orders[..|orders| - 1], protocolFee);
      var count := CountProtocolFees(orders[..|orders| - 1]) as real;
      assert protocolFee * (count + 1.0) == protocolFee * count + protocolFee;
    }
  }

  lemma CostStep(orders: seq<Order>, o: Order, protocolFee: real, gas: GasSchedule)
    ensures TotalGas(orders + [o], gas) == TotalGas(orders, gas) + gas(o.source, o.data)
    ensures TotalProtocolFee(orders + [o], protocolFee)
         == TotalProtocolFee(orders, protocolFee) + if HasProtocolFee(o) then protocolFee else 0.0
  {
    assert (orders + [o])[..|orders|] == orders;
  }

  lemma SlippageBounds(x: real, slippage: real)
    requires x >= 0.0 && 0.0 <= slippage <= 1.0
    ensures 0.0 <= x * (1.0 - slippage) <= x <= x * (1.0 + slippage)
    ensures 0.0 <= RoundDown(x * (1.0 - slippage)) <= RoundDown(x) <= x
    ensures x <= RoundUp(x) <= RoundUp(x * (1.0 + slippage))
  {
    MulNonneg(x, 1.0 - slippage);
    MulNonneg(x, slippage);
    assert x * (1.0 - slippage) == x - x * slippage && x * (1.0 + slippage) == x + x * slippage;
    RoundingIsMonotone(x * (1.0 - slippage), x);
    RoundingIsMonotone(x, x * (1.0 + slippage));
  }

  lemma SlippageLosesOutput(output: real, side: Side, slippage: real)
    requires output >= 0.0 && 0.0 <= slippage <= 1.0
    ensures side == Sell ==> 0.0 <= SlippedOutput(output, side, slippage) <= RoundDown(output)
    ensures side == Buy ==> RoundUp(output) <= SlippedOutput(output, side, slippage)
  {
    SlippageBounds(output, slippage);
  }

  /** The worst case is never better than the best case, on either side. */
  lemma WorstDominatesBest(q: QuoteFillInfo)
    requires AllValidOrders(q.orders) && GasNonneg(q.gasSchedule, q.orders)
    requires q.ProtocolFeePerOrder() >= 0.0 && 0.0 <= q.slippage <= 1.0
    ensures var best, worst := BestCaseFill(q), WorstCaseFill(q);
            && worst.gas >= best.gas && worst.protocolFeeAmount >= best.protocolFeeAmount
            && worst.fillAmountBySource == best.fillAmountBySource
            && (if q.side == Sell then
                  && worst.takerAssetAmount == best.takerAssetAmount
                  && worst.totalTakerAssetAmount == best.totalTakerAssetAmount
                  && worst.makerAssetAmount <= best.makerAssetAmount
                  && worst.totalMakerAssetAmount <= best.totalMakerAssetAmount
                else
                  && worst.makerAssetAmount == best.makerAssetAmount
                  && worst.totalMakerAssetAmount == best.totalMakerAssetAmount
                  && worst.takerAssetAmount >= best.takerAssetAmount
                  && worst.totalTakerAssetAmount >= best.totalTakerAssetAmount)
  {
    CostsDominated(q);
    DominatedTotals(WaterfallOf(q).totals, WorstCaseTotals(WaterfallOf(q).totals, q), q.side, q.slippage);
  }

  lemma CostsDominated(q: QuoteFillInfo)
    requires AllValidOrders(q.orders) && GasNonneg(q.gasSchedule, q.orders) && q.ProtocolFeePerOrder() >= 0.0
    ensures var t := WaterfallOf(q).totals;
            t.output >= 0.0 && t.gas <= TotalGas(q.orders, q.gasSchedule) && t.protocolFee <= WorstCaseProtocolFee(q)
  {
    hide Contributions, TotalGas, CountProtocolFees, TotalProtocolFee;
    CallCosts(BestCaseFillOrderCalls(q.orders, q.side), q.orders, q.fillAmount, q.ProtocolFeePerOrder(), q.gasSchedule);
    TotalProtocolFeeIsProduct(q.orders, q.ProtocolFeePerOrder());
  }

  lemma CallCosts(cs: seq<FillCall>, orders: seq<Order>, amount: real, protocolFee: real, gas: GasSchedule)
    requires AllValid(cs) && |cs| == |orders| && (forall k :: 0 <= k < |cs| ==> cs[k].order == orders[k])
    requires AllValidOrders(orders) && GasNonneg(gas, orders) && protocolFee >= 0.0
    ensures var xs := Contributions(cs, amount, protocolFee, gas, |cs|);
            SumOf(xs, ShareOutput) >= 0.0 && SumOf(xs, ShareGas) <= TotalGas(orders, gas)
            && SumOf(xs, ShareProtocolFee) <= TotalProtocolFee(orders, protocolFee)
  {
    assert cs[..|cs|] == cs && Map(cs, OrderOf) == orders;
    forall c | c in cs ensures c.order in orders {}
    ReachedCostLess(cs, amount, protocolFee, gas, |cs|);
    OutputNonneg(cs, amount, protocolFee, gas, |cs|);
    SumNonneg(Contributions(cs, amount, protocolFee, gas, |cs|), ShareOutput);
  }

  lemma DominatedTotals(t: Totals, w: Totals, side: Side, slippage: real)
    requires t.gas <= w.gas && t.protocolFee <= w.protocolFee && t.output >= 0.0 && 0.0 <= slippage <= 1.0
    requires w.output == SlippedOutput(t.output, side, slippage)
    ensures Ceil(t.gas) <= Ceil(w.gas) && RoundUp(t.protocolFee) <= RoundUp(w.protocolFee)
    ensures if side == Sell then RoundDown(w.output) <= RoundDown(t.output) else RoundUp(w.output) >= RoundUp(t.output)
  {
    CostsRoundMonotone(t, w);
    SlippageLosesOutput(t.output, side, slippage);
    IntRoundsToItself(w.output);
  }

  lemma CostsRoundMonotone(t: Totals, w: Totals)
    requires t.gas <= w.gas && t.protocolFee <= w.protocolFee
    ensures Ceil(t.gas) <= Ceil(w.gas) && RoundUp(t.protocolFee) <= RoundUp(w.protocolFee)
  {
    RoundingIsMonotone(t.gas, w.gas);
    RoundingIsMonotone(t.protocolFee, w.protocolFee);
  }

  /** A quote of fee-free orders takes the requested amount, or all the orders hold, and charges no taker fees. */
  lemma FeeFreeQuote(q: QuoteFillInfo)
    requires AllValidOrders(q.orders) && q.fillAmount >= 0.0
    requires forall o <- q.orders :: OrderTakerFee(o) == 0.0
    ensures var held := SumOf(q.orders, OrderInput);
            var t := WaterfallOf(q).totals;
            t.input == Min(q.fillAmount, held) && t.inputFee == 0.0 == t.outputFee
            && (held <= q.fillAmount ==> t.output == SumOf(q.orders, OrderOutput))
  {
    var cs := BestCaseFillOrderCalls(q.orders, q.side);
    var n := |cs|;
    assert forall c <- cs :: FeeFree(c);
    assert cs[..n] == cs;
    FeeFreeLevel(cs, n);
    FeeFreeTotals(cs, q.fillAmount, q.ProtocolFeePerOrder(), q.gasSchedule, n);
    WaterfallConsumes(cs, q.fillAmount, q.ProtocolFeePerOrder(), q.gasSchedule, n);
    LevelMonotone(cs, 0, n);
    SumPointwise(cs, CallInput, q.orders, OrderInput);
    SumPointwise(cs, CallOutput, q.orders, OrderOutput);
    if Level(cs, n) <= q.fillAmount {
      FullFill(cs, q.fillAmount, q.ProtocolFeePerOrder(), q.gasSchedule, n);
    }
  }

  predicate WholeOrders(q: QuoteFillInfo) { IsInt(q.fillAmount) && forall o <- q.orders :: IsInt(o.fill.input) }

  /** A whole fee-free quote reports exactly the filled inputs by source, and they add up to the filled input. */
  lemma SourceAmountsAreExact(q: QuoteFillInfo)
    requires AllValidOrders(q.orders) && WholeOrders(q) && forall o <- q.orders :: OrderTakerFee(o) == 0.0
    ensures BestCaseFill(q).fillAmountBySource == WaterfallOf(q).inputBySource
    ensures SumMap(BestCaseFill(q).fillAmountBySource) == WaterfallOf(q).totals.input
  {
    var cs, fee := BestCaseFillOrderCalls(q.orders, q.side), q.ProtocolFeePerOrder();
    forall c | c in cs ensures FeeFree(c) && IsInt(c.order.fill.input) {
      var k :| 0 <= k < |cs| && c == cs[k];
      assert q.orders[k] in q.orders;
    }
    SharesAreWhole(cs, q.fillAmount, fee, q.gasSchedule, |cs|);
    var xs := Contributions(cs, q.fillAmount, fee, q.gasSchedule, |cs|);
    WholeSources(xs, q.side);
    SourcesAddUp(xs);
  }

  lemma WholeSources(xs: seq<Contribution>, side: Side)
    requires forall x <- xs :: IsInt(ShareInput(x))
    ensures forall s <- GroupBySource(xs) :: RoundInputAmount(GroupBySource(xs)[s], side) == GroupBySource(xs)[s]
  {
    forall s <- GroupBySource(xs) ensures RoundInputAmount(GroupBySource(xs)[s], side) == GroupBySource(xs)[s] {
      SourceInputIsWhole(xs, s);
      IntRoundsToItself(SourceInput(xs, s));
    }
  }
}
