/** Batched execution of sampler operations, and the amounts that are sampled. */
module Sampler {
  import opened MarketTypes
  import opened Numbers

  // ----- Batched execution -----

  type Bytes = string

  const NULL_BYTES: Bytes := "0x"

  datatype CallResult = CallResult(success: bool, data: Bytes)

  /** An operation encodes one call and parses its result; a no-op encodes to `NULL_BYTES`. */
  datatype Operation<R> = Operation(callData: Bytes, handleCallResults: Bytes -> R, handleRevert: Bytes -> R)
  {
    predicate IsNoop() { callData == NULL_BYTES }

    function Handle(result: CallResult): R {
      if result.success then handleCallResults(result.data) else handleRevert(result.data)
    }
  }

  const NOOP_RESULT := CallResult(true, NULL_BYTES)

  /** The call data that is sent: that of the operations that are not no-ops, in order. */
  function RealCalls<R>(ops: seq<Operation<R>>): (calls: seq<Bytes>)
    ensures |calls| <= |ops|
  {
    if |ops| == 0 then []
    else
      var last := ops[|ops| - 1];
      RealCalls(ops[..|ops| - 1]) + if last.IsNoop() then [] else [last.callData]
  }

  lemma {:induction false} PrefixCalls<R>(ops: seq<Operation<R>>, i: nat)
    requires i < |ops|
    ensures |RealCalls(ops[..i])| + (if ops[i].IsNoop() then 0 else 1) <= |RealCalls(ops)|
    ensures !ops[i].IsNoop() ==> RealCalls(ops)[|RealCalls(ops[..i])|] == ops[i].callData
    ensures RealCalls(ops[..i + 1]) == RealCalls(ops[..i]) + if ops[i].IsNoop() then [] else [ops[i].callData]
  {
    assert ops[..i + 1][..i] == ops[..i];
    if i == |ops| - 1 {
      assert ops[..i + 1] == ops;
    } else {
      var front := ops[..|ops| - 1];
      PrefixCalls(front, i);
      assert front[..i] == ops[..i] && front[i] == ops[i];
    }
  }

  predicate AllNoops<R>(ops: seq<Operation<R>>) { forall i :: 0 <= i < |ops| ==> ops[i].IsNoop() }

  lemma {:induction false} OnlyNoops<R>(ops: seq<Operation<R>>)
    ensures |RealCalls(ops)| == 0 <==> AllNoops(ops)
  {
    if |ops| > 0 { OnlyNoops(ops[..|ops| - 1]); }
  }

  /** The result meant for operation `i` when the calls sent were answered by `raw`. */
  function ResultFor<R>(ops: seq<Operation<R>>, raw: seq<CallResult>, i: nat): CallResult
    requires i < |ops| && |raw| == |RealCalls(ops)|
  {
    PrefixCalls(ops, i);
    if ops[i].IsNoop() then NOOP_RESULT else raw[|RealCalls(ops[..i])|]
  }

  /** The first operations have been handed the results meant for them. */
  ghost predicate Answered<R>(ops: seq<Operation<R>>, raw: seq<CallResult>, results: seq<R>)
    requires |raw| == |RealCalls(ops)|
  {
    |results| <= |ops| && forall i :: 0 <= i < |results| ==> results[i] == ops[i].Handle(ResultFor(ops, raw, i))
  }

  lemma AnswerNext<R>(ops: seq<Operation<R>>, raw: seq<CallResult>, results: seq<R>, result: CallResult)
    requires |raw| == |RealCalls(ops)| && Answered(ops, raw, results) && |results| < |ops|
    requires result == ResultFor(ops, raw, |results|)
    ensures Answered(ops, raw, results + [ops[|results|].Handle(result)])
  {
  }

  /**
   * Sends the real calls in one batch, unless there are none, and hands out the results with a running index.
   * `sent` is what reaches the sampler contract.
   */
  method ExecuteBatch<R>(ops: seq<Operation<R>>, batchCall: seq<Bytes> -> seq<CallResult>)
    returns (results: seq<R>, sent: Option<seq<Bytes>>)
    requires |batchCall(RealCalls(ops))| == |RealCalls(ops)|
    ensures sent == if |RealCalls(ops)| == 0 then None else Some(RealCalls(ops))
    ensures |results| == |ops| && Answered(ops, batchCall(RealCalls(ops)), results)
  {
    var calls := RealCalls(ops);
    ghost var answers := batchCall(calls);
    results := [];
    OnlyNoops(ops);
    if AllNoops(ops) {
      for i := 0 to |ops|
        invariant |results| == i && Answered(ops, answers, results)
      {
        AnswerNext(ops, answers, results, NOOP_RESULT);
        results := results + [ops[i].handleCallResults(NULL_BYTES)];
      }
      return results, None;
    }
    var rawCallResults := batchCall(calls);
    var rawCallResultsIdx := 0;
    assert ops[..0] == [];
    for i := 0 to |ops|
      invariant rawCallResultsIdx == |RealCalls(ops[..i])|
      invariant |results| == i && Answered(ops, rawCallResults, results)
    {
      PrefixCalls(ops, i);
      var result := NOOP_RESULT;
      if !ops[i].IsNoop() {
        result := rawCallResults[rawCallResultsIdx];
        rawCallResultsIdx := rawCallResultsIdx + 1;
      }
      AnswerNext(ops, rawCallResults, results, result);
      results := results + [ops[i].Handle(result)];
    }
    sent := Some(calls);
  }

  /** The batch call answers each of its inputs as a call of its own would be. */
  predicate AnswersPointwise(calls: seq<Bytes>, raw: seq<CallResult>, call: Bytes -> CallResult) {
    |raw| == |calls| && forall i :: 0 <= i < |calls| ==> raw[i] == call(calls[i])
  }

  /** An operation executed on its own. */
  function ExecuteAlone<R>(op: Operation<R>, call: Bytes -> CallResult): R {
    op.Handle(if op.IsNoop() then NOOP_RESULT else call(op.callData))
  }

  /** Batching refines one-at-a-time execution, whatever no-ops are mixed in. */
  lemma BatchRefinesAlone<R>(ops: seq<Operation<R>>, raw: seq<CallResult>, call: Bytes -> CallResult, i: nat)
    requires i < |ops| && AnswersPointwise(RealCalls(ops), raw, call)
    ensures ops[i].Handle(ResultFor(ops, raw, i)) == ExecuteAlone(ops[i], call)
  {
    PrefixCalls(ops, i);
  }

  /** The operations before `i` that send a call. */
  function SendersBefore<R>(ops: seq<Operation<R>>, i: nat): set<nat>
    requires i <= |ops|
  {
    set j | 0 <= j < i && ops[j].callData != NULL_BYTES
  }

  lemma {:induction false} SendersAreCounted<R>(ops: seq<Operation<R>>, i: nat)
    requires i <= |ops|
    ensures |RealCalls(ops[..i])| == |SendersBefore(ops, i)|
  {
    if i > 0 {
      SendersAreCounted(ops, i - 1);
      assert ops[..i][..i - 1] == ops[..i - 1];
      assert SendersBefore(ops, i)
          == SendersBefore(ops, i - 1) + (if ops[i - 1].callData != NULL_BYTES then {i - 1} else {});
    } else {
      assert SendersBefore(ops, i) == {};
    }
  }

  /**
   * What every operation is told of the batch: a no-op that its call succeeded with nothing, any other the answer at
   * the position of its call, as a result or as a revert.
   */
  lemma ResultsAreHandled<R>(ops: seq<Operation<R>>, raw: seq<CallResult>, results: seq<R>, i: nat)
    requires |raw| == |RealCalls(ops)| && Answered(ops, raw, results) && i < |results|
    ensures ops[i].callData == NULL_BYTES ==> results[i] == ops[i].handleCallResults(NULL_BYTES)
    ensures ops[i].callData != NULL_BYTES ==>
              && |SendersBefore(ops, i)| < |raw|
              && var answer := raw[|SendersBefore(ops, i)|];
                 && (answer.success ==> results[i] == ops[i].handleCallResults(answer.data))
                 && (!answer.success ==> results[i] == ops[i].handleRevert(answer.data))
  {
    SendersAreCounted(ops, i);
    PrefixCalls(ops, i);
  }

  // ----- Sample amounts -----

  function Power(b: real, n: nat): real { if n == 0 then 1.0 else b * Power(b, n - 1) }

  function Same(x: real): real { x }

  function Distribution(numSamples: nat, expBase: real): seq<real> { seq(numSamples, (i: nat) => Power(expBase, i)) }

  function StepSizes(distribution: seq<real>): seq<real>
    requires SumOf(distribution, Same) > 0.0
  {
    seq(|distribution|, i requires 0 <= i < |distribution| => distribution[i] / SumOf(distribution, Same))
  }

  /** The part of the maximum that the first `k` of `numSamples` steps make up. */
  function Share(numSamples: nat, expBase: real, k: nat): real
    requires expBase >= 0.0 && k <= numSamples && numSamples > 0
  {
    DistributionSum(numSamples, expBase);
    SumOf(StepSizes(Distribution(numSamples, expBase))[..k], Same)
  }

  function GetSampleAmounts(maxFillAmount: real, numSamples: nat, expBase: real): seq<real>
    requires expBase >= 0.0
  {
    seq(numSamples, i requires 0 <= i < numSamples =>
      if i == numSamples - 1 then maxFillAmount else PartOf(maxFillAmount, Share(numSamples, expBase, i + 1)))
  }

  function PartOf(amount: real, share: real): real { RoundUp(amount * share) }

  lemma {:induction false} PowerNonneg(b: real, n: nat)
    requires b >= 0.0
    ensures Power(b, n) >= 0.0
  {
    if n > 0 {
      PowerNonneg(b, n - 1);
      MulNonneg(b, Power(b, n - 1));
    }
  }

  /** The sum of the first `n` powers. */
  function PowerSum(b: real, n: nat): real { if n == 0 then 0.0 else PowerSum(b, n - 1) + Power(b, n - 1) }

  lemma {:induction false} PowerSumMono(b: real, m: nat, n: nat)
    requires b >= 0.0 && m <= n
    ensures PowerSum(b, m) <= PowerSum(b, n)
    ensures m > 0 ==> PowerSum(b, m) >= 1.0
  {
    if m < n {
      PowerSumMono(b, m, n - 1);
      PowerNonneg(b, n - 1);
    } else if m > 1 {
      PowerSumMono(b, m - 1, m - 1);
      PowerNonneg(b, m - 1);
    }
  }

  lemma {:induction false} DistributionSum(n: nat, b: real)
    requires b >= 0.0
    ensures SumOf(Distribution(n, b), Same) == PowerSum(b, n)
    ensures n > 0 ==> PowerSum(b, n) >= 1.0
  {
    if n > 0 {
      DistributionSum(n - 1, b);
      assert Distribution(n, b)[..n - 1] == Distribution(n - 1, b);
    }
    PowerSumMono(b, n, n);
  }

  lemma {:induction false} ShareIsPowerSum(n: nat, b: real, k: nat)
    requires b >= 0.0 && k <= n && n > 0
    ensures PowerSum(b, n) >= 1.0
    ensures Share(n, b, k) == PowerSum(b, k) / PowerSum(b, n)
  {
    DistributionSum(n, b);
    if k > 0 {
      ShareIsPowerSum(n, b, k - 1);
      var steps := StepSizes(Distribution(n, b));
      assert steps[..k][..k - 1] == steps[..k - 1];
      assert Share(n, b, k) == Share(n, b, k - 1) + steps[k - 1];
      assert steps[k - 1] == Power(b, k - 1) / PowerSum(b, n);
      DivAdd(PowerSum(b, k - 1), Power(b, k - 1), PowerSum(b, n));
    }
  }

  lemma DivAdd(x: real, y: real, z: real)
    requires z >= 1.0
    ensures (x + y) / z == x / z + y / z
  {
  }

  /** The shares grow as a geometric series: evenly for base one. */
  lemma {:induction false} PowerSumClosedForm(b: real, n: nat)
    ensures PowerSum(b, n) * (b - 1.0) == Power(b, n) - 1.0
    ensures b == 1.0 ==> PowerSum(b, n) == n as real && Power(b, n) == 1.0
  {
    if n > 0 { PowerSumClosedForm(b, n - 1); }
  }

  lemma EvenSamples(maxFillAmount: real, n: nat, i: nat)
    requires i < n - 1
    ensures GetSampleAmounts(maxFillAmount, n, 1.0)[i] == PartOf(maxFillAmount, (i + 1) as real / n as real)
  {
    ShareIsPowerSum(n, 1.0, i + 1);
    PowerSumClosedForm(1.0, i + 1);
    PowerSumClosedForm(1.0, n);
  }

  lemma ShareBounds(n: nat, b: real, j: nat, k: nat)
    requires b >= 0.0 && j <= k <= n && n > 0
    ensures 0.0 <= Share(n, b, j) <= Share(n, b, k) <= 1.0
  {
    ShareIsPowerSum(n, b, j);
    ShareIsPowerSum(n, b, k);
    PowerSumMono(b, 0, j);
    PowerSumMono(b, j, k);
    PowerSumMono(b, k, n);
    DivMono(0.0, PowerSum(b, j), PowerSum(b, n));
    DivMono(PowerSum(b, j), PowerSum(b, k), PowerSum(b, n));
    DivMono(PowerSum(b, k), PowerSum(b, n), PowerSum(b, n));
    DivCancel(1.0, PowerSum(b, n));
  }

  lemma RoundUpOfPart(max: real, a: real, b: real)
    requires IsInt(max) && max >= 0.0 && 0.0 <= a <= b <= 1.0
    ensures 0.0 <= PartOf(max, a) <= PartOf(max, b) <= max
    ensures IsInt(PartOf(max, a)) && IsInt(PartOf(max, b))
  {
    PartOfMono(max, 0.0, a);
    PartOfMono(max, a, b);
    PartOfMono(max, b, 1.0);
    IntRoundsToItself(max);
    IntRoundsToItself(0.0);
  }

  lemma PartOfMono(amount: real, a: real, b: real)
    requires amount >= 0.0 && a <= b
    ensures PartOf(amount, a) <= PartOf(amount, b)
  {
    var x, y := amount * a, amount * b;
    assert x <= y by { MulMono(a, b, amount); }
    RoundingIsMonotone(x, y);
  }

  /** For a whole maximum the samples are whole, never decrease, stay in range and end at the maximum. */
  lemma SampleAmountsAreOrdered(maxFillAmount: real, n: nat, b: real, j: nat, k: nat)
    requires IsInt(maxFillAmount) && maxFillAmount >= 0.0 && b >= 0.0 && j <= k < n
    ensures var amounts := GetSampleAmounts(maxFillAmount, n, b);
            && 0.0 <= amounts[j] <= amounts[k] <= maxFillAmount
            && amounts[n - 1] == maxFillAmount && IsInt(amounts[k])
  {
    ShareBounds(n, b, j + 1, k + 1);
    RoundUpOfPart(maxFillAmount, Share(n, b, j + 1), Share(n, b, k + 1));
  }

  /** For any maximum, a sample before the last stays within it exactly when its part is below the whole maximum. */
  lemma SampleStaysWithinIff(maxFillAmount: real, n: nat, b: real, k: nat)
    requires maxFillAmount >= 0.0 && b >= 0.0 && k < n - 1
    ensures GetSampleAmounts(maxFillAmount, n, b)[k] <= maxFillAmount
       <==> maxFillAmount * Share(n, b, k + 1) <= Floor(maxFillAmount)
  {
    ShareBounds(n, b, k + 1, k + 1);
    UpAgainstDown(maxFillAmount, Share(n, b, k + 1));
  }

  lemma UpAgainstDown(amount: real, share: real)
    requires amount >= 0.0 && share >= 0.0
    ensures PartOf(amount, share) <= amount <==> amount * share <= Floor(amount)
  {
    MulNonneg(amount, share);
    var x := amount * share;
    if Ceil(x) <= amount { IntsLess(Ceil(x), Floor(amount)); }
    if x <= Floor(amount) { IntsLess(Ceil(x), Floor(amount)); }
  }
}
