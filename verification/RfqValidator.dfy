/** Capping RFQ quotes by the makers' cached balances. */
module RfqValidator {
  import opened Numbers
  import opened MarketTypes
  import opened Text
  import opened NativeAmounts

  datatype Balance = Unlimited | Tokens(amount: real)
  {
    predicate Covers(amount: real) { Unlimited? || this.amount >= amount }
  }

  datatype CacheEntry = CacheEntry(
    makerAddress: Address,
    timeOfSample: Option<int>,
    timeFirstSeen: Option<int>,
    balance: Option<real>)

  datatype RfqQuote = RfqQuote(maker: Address, order: NativeOrder)

  /** Stale and invalid entries count as empty; an entry not sampled yet counts as unlimited for a while. */
  function MakerBalance(entry: CacheEntry, nowUnix: int, cacheExpiryMs: int): Balance {
    match entry.timeOfSample
    case None =>
      var firstSeen := if entry.timeFirstSeen.Some? then entry.timeFirstSeen.value else 0;
      if nowUnix - firstSeen > cacheExpiryMs then Tokens(0.0) else Unlimited
    case Some(sampled) =>
      if nowUnix - sampled > cacheExpiryMs then Tokens(0.0)
      else if entry.balance.None? then Tokens(0.0)
      else Tokens(entry.balance.value)
  }

  function TakerFillable(order: NativeOrder, balance: Option<Balance>): real {
    if balance.None? || balance.value.Covers(order.makerAmount) then order.takerAmount
    else if order.makerAmount <= 0.0 then 0.0
    else RoundDown(Scale(balance.value.amount, order.takerAmount, order.makerAmount))
  }

  function Lookup(m: map<Address, Balance>, maker: Address): Option<Balance> {
    if ToLower(maker) in m then Some(m[ToLower(maker)]) else None
  }

  predicate Distinct(xs: seq<Address>) { forall i, j :: 0 <= i < j < |xs| ==> xs[i] != xs[j] }

  method CalculateTakerFillableAmounts(quotes: seq<RfqQuote>, makerLookup: map<Address, Balance>)
    returns (makerAddressesToAdd: seq<Address>, takerFillableAmounts: seq<real>)
    ensures |takerFillableAmounts| == |quotes|
    ensures forall i :: 0 <= i < |quotes| ==>
              takerFillableAmounts[i] == TakerFillable(quotes[i].order, Lookup(makerLookup, quotes[i].maker))
    ensures Distinct(makerAddressesToAdd)
    ensures forall a :: a in makerAddressesToAdd <==>
              a !in makerLookup && exists i :: 0 <= i < |quotes| && ToLower(quotes[i].maker) == a
  {
    makerAddressesToAdd, takerFillableAmounts := [], [];
    for n := 0 to |quotes|
      invariant |takerFillableAmounts| == n
      invariant forall i :: 0 <= i < n ==>
                  takerFillableAmounts[i] == TakerFillable(quotes[i].order, Lookup(makerLookup, quotes[i].maker))
      invariant Distinct(makerAddressesToAdd)
      invariant forall a :: a in makerAddressesToAdd <==>
                  a !in makerLookup && exists i :: 0 <= i < n && ToLower(quotes[i].maker) == a
    {
      var quote := quotes[n];
      var maker := ToLower(quote.maker);
      if maker !in makerLookup {
        if maker !in makerAddressesToAdd {
          makerAddressesToAdd := makerAddressesToAdd + [maker];
        }
        takerFillableAmounts := takerFillableAmounts + [quote.order.takerAmount];
      } else if makerLookup[maker].Covers(quote.order.makerAmount) {
        takerFillableAmounts := takerFillableAmounts + [quote.order.takerAmount];
      } else if quote.order.makerAmount <= 0.0 {
        takerFillableAmounts := takerFillableAmounts + [0.0];
      } else {
        var partial := RoundDown(
          Scale(makerLookup[maker].amount, quote.order.takerAmount, quote.order.makerAmount));
        takerFillableAmounts := takerFillableAmounts + [partial];
      }
    }
  }

  /** The balance the lookup table holds for a maker: that of the last cache entry for the address. */
  function CachedBalance(cache: seq<CacheEntry>, maker: Address, nowUnix: int, cacheExpiryMs: int): Option<Balance> {
    if |cache| == 0 then None
    else if cache[|cache| - 1].makerAddress == maker
    then Some(MakerBalance(cache[|cache| - 1], nowUnix, cacheExpiryMs))
    else CachedBalance(cache[..|cache| - 1], maker, nowUnix, cacheExpiryMs)
  }

  predicate SameMakerToken(quotes: seq<RfqQuote>) {
    |quotes| > 0 && forall q <- quotes :: ToLower(q.order.makerToken) == ToLower(quotes[0].order.makerToken)
  }

  /** `cache` holds the rows found for the batch's maker token and makers. */
  method GetRfqtTakerFillableAmounts(quotes: seq<RfqQuote>, cache: seq<CacheEntry>, nowUnix: int, cacheExpiryMs: int)
    returns (amounts: seq<real>, makerAddressesToAdd: seq<Address>)
    ensures |amounts| == |quotes|
    ensures !SameMakerToken(quotes) ==> makerAddressesToAdd == [] && forall i :: 0 <= i < |quotes| ==> amounts[i] == 0.0
    ensures SameMakerToken(quotes) ==>
              && (forall i :: 0 <= i < |quotes| ==>
                    amounts[i] == TakerFillable(quotes[i].order,
                                                CachedBalance(cache, ToLower(quotes[i].maker), nowUnix, cacheExpiryMs)))
              && Distinct(makerAddressesToAdd)
              && (forall a :: a in makerAddressesToAdd <==>
                    CachedBalance(cache, a, nowUnix, cacheExpiryMs).None?
                    && exists i :: 0 <= i < |quotes| && ToLower(quotes[i].maker) == a)
  {
    var uniqueMakerTokens := set q | q in quotes :: ToLower(q.order.makerToken);
    UniqueTokens(quotes, uniqueMakerTokens);
    if |uniqueMakerTokens| != 1 {
      return seq(|quotes|, _ => 0.0), [];
    }
    var makerLookup: map<Address, Balance> := map[];
    for n := 0 to |cache|
      invariant forall a :: CachedBalance(cache[..n], a, nowUnix, cacheExpiryMs)
                         == if a in makerLookup then Some(makerLookup[a]) else None
    {
      assert cache[..n + 1][..n] == cache[..n];
      makerLookup := makerLookup[cache[n].makerAddress := MakerBalance(cache[n], nowUnix, cacheExpiryMs)];
    }
    assert cache[..|cache|] == cache;
    makerAddressesToAdd, amounts := CalculateTakerFillableAmounts(quotes, makerLookup);
  }

  lemma UniqueTokens(quotes: seq<RfqQuote>, tokens: set<Address>)
    requires tokens == set q | q in quotes :: ToLower(q.order.makerToken)
    ensures |tokens| == 1 <==> SameMakerToken(quotes)
  {
    if |quotes| > 0 {
      var first := ToLower(quotes[0].order.makerToken);
      assert quotes[0] in quotes && first in tokens;
      assert |tokens - {first}| == |tokens| - 1;
      if |tokens| == 1 {
        assert tokens - {first} == {};
        forall q | q in quotes ensures ToLower(q.order.makerToken) == first {
          assert ToLower(q.order.makerToken) in tokens;
        }
      }
      if SameMakerToken(quotes) {
        assert tokens == {first};
      }
    } else {
      assert tokens == {};
    }
  }

  // ----- What the cache says -----

  /** The last row for the maker. */
  predicate LastRow(cache: seq<CacheEntry>, maker: Address, i: nat) {
    && i < |cache| && cache[i].makerAddress == maker
    && forall j :: i < j < |cache| ==> cache[j].makerAddress != maker
  }

  lemma {:induction false} LastRowCounts(
    cache: seq<CacheEntry>, maker: Address, i: nat, nowUnix: int, cacheExpiryMs: int)
    requires LastRow(cache, maker, i)
    ensures CachedBalance(cache, maker, nowUnix, cacheExpiryMs) == Some(MakerBalance(cache[i], nowUnix, cacheExpiryMs))
  {
    if i < |cache| - 1 { LastRowCounts(cache[..|cache| - 1], maker, i, nowUnix, cacheExpiryMs); }
  }

  lemma {:induction false} NoRowCounts(cache: seq<CacheEntry>, maker: Address, nowUnix: int, cacheExpiryMs: int)
    requires forall row <- cache :: row.makerAddress != maker
    ensures CachedBalance(cache, maker, nowUnix, cacheExpiryMs) == None
  {
    if |cache| > 0 { NoRowCounts(cache[..|cache| - 1], maker, nowUnix, cacheExpiryMs); }
  }

  /** A row counts from its sample, or from when it was first seen: longer ago than the expiry it is worth nothing. */
  predicate Expired(row: CacheEntry, nowUnix: int, cacheExpiryMs: int) {
    match (row.timeOfSample, row.timeFirstSeen)
    case (Some(t), _) => t < nowUnix - cacheExpiryMs
    case (None, Some(t)) => t < nowUnix - cacheExpiryMs
    case (None, None) => 0 < nowUnix - cacheExpiryMs
  }

  /** The tokens a row vouches for; a row still waiting for its first sample vouches for any amount. */
  predicate Vouches(row: CacheEntry, nowUnix: int, cacheExpiryMs: int, amount: real) {
    || amount <= 0.0
    || (&& !Expired(row, nowUnix, cacheExpiryMs)
        && (row.timeOfSample.Some? ==> row.balance.Some? && amount <= row.balance.value))
  }

  /**
   * From the cache rows to a quote: it may be filled whole when its maker has no row, or the last one vouches for its
   * maker amount. Otherwise only in proportion to a balance that is fresh, and not at all without one.
   */
  lemma FillableByCache(order: NativeOrder, cache: seq<CacheEntry>, maker: Address, i: nat, nowUnix: int,
                        cacheExpiryMs: int)
    requires LastRow(cache, maker, i) && (cache[i].balance.Some? ==> cache[i].balance.value >= 0.0)
    ensures var row, amount := cache[i], TakerFillable(order, CachedBalance(cache, maker, nowUnix, cacheExpiryMs));
            if Vouches(row, nowUnix, cacheExpiryMs, order.makerAmount) then amount == order.takerAmount
            else if Expired(row, nowUnix, cacheExpiryMs) || row.balance.None? then amount == 0.0
            else amount == RoundDown(Scale(row.balance.value, order.takerAmount, order.makerAmount))
  {
    hide Scale;
    LastRowCounts(cache, maker, i, nowUnix, cacheExpiryMs);
    if order.makerAmount > 0.0 { NothingScales(order); }
    IntRoundsToItself(0.0);
  }

  lemma NothingScales(order: NativeOrder)
    requires order.makerAmount > 0.0
    ensures Scale(0.0, order.takerAmount, order.makerAmount) == 0.0
  {
  }

  /** Without a row the taker amount of the quote stays as it is. */
  lemma FillableWithoutCache(
    order: NativeOrder, cache: seq<CacheEntry>, maker: Address, nowUnix: int, cacheExpiryMs: int)
    requires forall row <- cache :: row.makerAddress != maker
    ensures TakerFillable(order, CachedBalance(cache, maker, nowUnix, cacheExpiryMs)) == order.takerAmount
  {
    NoRowCounts(cache, maker, nowUnix, cacheExpiryMs);
  }

  // ----- Properties -----

  /**
   * Capping is exact: a whole taker amount is allowed iff the maker can pay for it. Hence the fillable maker
   * amount derived from the capped taker amount never exceeds the known balance.
   */
  lemma CappedByBalance(order: NativeOrder, balance: real, taker: real)
    requires Positive(order) && IsInt(order.takerAmount)
    requires balance >= 0.0 && IsInt(taker) && 0.0 <= taker <= order.takerAmount
    ensures var capped := TakerFillable(order, Some(Tokens(balance)));
            && IsInt(capped) && 0.0 <= capped <= order.takerAmount
            && (taker <= capped <==> Scale(taker, order.makerAmount, order.takerAmount) <= balance)
            && MakerFillAmount(order, capped) <= balance
  {
    var capped := TakerFillable(order, Some(Tokens(balance)));
    if balance >= order.makerAmount {
      ScaleAdjoint(order.takerAmount, order.makerAmount, order.makerAmount, order.takerAmount);
      ScaleWhole(order);
      ScaleMono(taker, order.takerAmount, order.makerAmount, order.takerAmount);
    } else {
      CapPartial(order, balance, taker);
    }
  }

  lemma ScaleWhole(order: NativeOrder)
    requires Positive(order)
    ensures Scale(order.takerAmount, order.makerAmount, order.takerAmount) == order.makerAmount
    ensures Scale(order.makerAmount, order.takerAmount, order.makerAmount) == order.takerAmount
  {
    DivCancel(order.makerAmount, order.takerAmount);
    DivCancel(order.takerAmount, order.makerAmount);
  }

  lemma CapPartial(order: NativeOrder, balance: real, taker: real)
    requires Positive(order) && 0.0 <= balance < order.makerAmount && IsInt(taker)
    ensures var capped := RoundDown(Scale(balance, order.takerAmount, order.makerAmount));
            && IsInt(capped) && 0.0 <= capped <= order.takerAmount
            && (taker <= capped <==> Scale(taker, order.makerAmount, order.takerAmount) <= balance)
            && MakerFillAmount(order, capped) <= balance
  {
    var exact := Scale(balance, order.takerAmount, order.makerAmount);
    ScaleMono(0.0, balance, order.takerAmount, order.makerAmount);
    ScaleMono(balance, order.makerAmount, order.takerAmount, order.makerAmount);
    ScaleWhole(order);
    ScaleAdjoint(taker, balance, order.makerAmount, order.takerAmount);
    CeilFloor(exact, taker);
    FloorNonneg(exact);
    ScaleAdjoint(Floor(exact), balance, order.makerAmount, order.takerAmount);
  }

  lemma FloorNonneg(x: real)
    requires x >= 0.0
    ensures 0.0 <= Floor(x) == RoundDown(x)
  {
    CeilFloor(x, 0.0);
  }

  // ----- Quotes of one maker together -----

  /** The maker amount a quote is offered with, against a known balance of its maker. */
  function Promise(order: NativeOrder, balance: real): real
    requires Positive(order)
  {
    MakerFillAmount(order, TakerFillable(order, Some(Tokens(balance))))
  }

  predicate AllPositive(quotes: seq<RfqQuote>) {
    forall q <- quotes :: Positive(q.order) && IsInt(q.order.makerAmount) && IsInt(q.order.takerAmount)
  }

  function Promises(quotes: seq<RfqQuote>, balance: real): real
    requires AllPositive(quotes)
  {
    if |quotes| == 0 then 0.0
    else
      assert quotes[|quotes| - 1] in quotes;
      Promises(quotes[..|quotes| - 1], balance) + Promise(quotes[|quotes| - 1].order, balance)
  }

  function MakerAmountOf(q: RfqQuote): real { q.order.makerAmount }

  function CappedMaker(balance: real): RfqQuote -> real { (q: RfqQuote) => Min(balance, q.order.makerAmount) }

  /** What rounding the taker and the maker amount down can take from a promise: one unit of each. */
  function RoundingLoss(order: NativeOrder): real
    requires order.takerAmount != 0.0
  {
    order.makerAmount / order.takerAmount + 1.0
  }

  function LossOf(balance: real): RfqQuote -> real {
    (q: RfqQuote) =>
      if q.order.makerAmount <= balance || q.order.takerAmount == 0.0 then 0.0 else RoundingLoss(q.order)
  }

  lemma PartialPromise(order: NativeOrder, balance: real)
    requires Positive(order) && 0.0 <= balance < order.makerAmount
    ensures Promise(order, balance) > balance - RoundingLoss(order)
  {
    var exact := Scale(balance, order.takerAmount, order.makerAmount);
    assert exact >= 0.0 by { ScaleMono(0.0, balance, order.takerAmount, order.makerAmount); }
    ScaleMono(exact - 1.0, Floor(exact), order.makerAmount, order.takerAmount);
    ScaleOneLess(exact, order.makerAmount, order.takerAmount);
    ScaleThereAndBack(balance, order.takerAmount, order.makerAmount);
  }

  lemma ScaleOneLess(x: real, a: real, b: real)
    requires b > 0.0
    ensures Scale(x - 1.0, a, b) == Scale(x, a, b) - a / b
  {
    assert (x - 1.0) * a == x * a - a;
  }

  /** A quote the balance covers promises its whole maker amount, any other the balance less its rounding loss. */
  lemma PromiseBounds(order: NativeOrder, balance: real)
    requires Positive(order) && IsInt(order.makerAmount) && IsInt(order.takerAmount) && balance >= 0.0
    ensures balance >= order.makerAmount ==> Promise(order, balance) == order.makerAmount
    ensures Promise(order, balance) <= Min(balance, order.makerAmount)
    ensures balance < order.makerAmount ==> Promise(order, balance) > balance - RoundingLoss(order)
  {
    if balance >= order.makerAmount {
      ScaleWhole(order);
      IntRoundsToItself(order.makerAmount);
    } else {
      CappedByBalance(order, balance, 0.0);
      PartialPromise(order, balance);
    }
  }

  lemma {:induction false} PromisesAddUp(quotes: seq<RfqQuote>, balance: real)
    requires AllPositive(quotes) && balance >= 0.0
    ensures SumOf(quotes, CappedMaker(balance)) - SumOf(quotes, LossOf(balance)) <= Promises(quotes, balance)
    ensures Promises(quotes, balance) <= SumOf(quotes, CappedMaker(balance))
    ensures (forall q <- quotes :: q.order.makerAmount <= balance) ==>
              Promises(quotes, balance) == SumOf(quotes, MakerAmountOf)
  {
    if |quotes| > 0 {
      var front, last := quotes[..|quotes| - 1], quotes[|quotes| - 1];
      assert last in quotes && forall q <- front :: q in quotes;
      PromisesAddUp(front, balance);
      PromiseBounds(last.order, balance);
    }
  }

  /** One maker's quotes as the validator sees them: the same cache entry caps each of them. */
  predicate OneMaker(quotes: seq<RfqQuote>, cache: seq<CacheEntry>, nowUnix: int, cacheExpiryMs: int, balance: real) {
    forall q <- quotes :: CachedBalance(cache, ToLower(q.maker), nowUnix, cacheExpiryMs) == Some(Tokens(balance))
  }

  /**
   * The balance caps each quote on its own. Quotes of one maker that it covers one by one fit it together
   * exactly when their maker amounts do; partly covered ones promise the capped maker amounts but for the
   * rounding of each.
   */
  lemma PromisesFitIff(quotes: seq<RfqQuote>, cache: seq<CacheEntry>, nowUnix: int, cacheExpiryMs: int, balance: real,
                       amounts: seq<real>)
    requires AllPositive(quotes) && balance >= 0.0 && OneMaker(quotes, cache, nowUnix, cacheExpiryMs, balance)
    requires |amounts| == |quotes|
    requires forall i :: 0 <= i < |quotes| ==>
               amounts[i] == TakerFillable(quotes[i].order,
                                           CachedBalance(cache, ToLower(quotes[i].maker), nowUnix, cacheExpiryMs))
    ensures var promised := SumOf(MakerAmounts(quotes, amounts), Same);
            && SumOf(quotes, CappedMaker(balance)) - SumOf(quotes, LossOf(balance)) <= promised
            && promised <= SumOf(quotes, CappedMaker(balance))
            && ((forall q <- quotes :: q.order.makerAmount <= balance) ==>
                  (promised <= balance <==> SumOf(quotes, MakerAmountOf) <= balance))
  {
    PromisesAddUp(quotes, balance);
    MakerAmountsArePromises(quotes, amounts, balance);
  }

  function Same(x: real): real { x }

  /** The fillable maker amounts derived from the validator's taker amounts. */
  function MakerAmounts(quotes: seq<RfqQuote>, amounts: seq<real>): seq<real>
    requires AllPositive(quotes) && |amounts| == |quotes|
  {
    seq(|quotes|, i requires 0 <= i < |quotes| =>
      assert quotes[i] in quotes; MakerFillAmount(quotes[i].order, amounts[i]))
  }

  lemma {:induction false} MakerAmountsArePromises(quotes: seq<RfqQuote>, amounts: seq<real>, balance: real)
    requires AllPositive(quotes) && |amounts| == |quotes|
    requires forall i :: 0 <= i < |quotes| ==> amounts[i] == TakerFillable(quotes[i].order, Some(Tokens(balance)))
    ensures SumOf(MakerAmounts(quotes, amounts), Same) == Promises(quotes, balance)
  {
    if |quotes| > 0 {
      var n := |quotes| - 1;
      MakerAmountsArePromises(quotes[..n], amounts[..n], balance);
      assert MakerAmounts(quotes, amounts)[..n] == MakerAmounts(quotes[..n], amounts[..n]);
    }
  }

  /** A maker with 100 tokens can promise 120 in two quotes of 60. */
  lemma TwoQuotesExceedBalance(q: RfqQuote)
    requires Positive(q.order) && IsInt(q.order.takerAmount) && q.order.makerAmount == 60.0
    ensures AllPositive([q, q]) && Promises([q, q], 100.0) == 120.0
  {
    assert (60.0).Floor == 60;
    PromiseBounds(q.order, 100.0);
    assert [q, q][..1] == [q];
    assert Promises([q], 100.0) == 60.0 by { assert [q][..0] == []; }
  }
}
