/** Converting between maker, taker and fee amounts of a native order. */
module NativeAmounts {
  import opened Numbers
  import opened MarketTypes

  predicate Positive(order: NativeOrder) {
    order.makerAmount > 0.0 && order.takerAmount > 0.0
  }

  function Scale(x: real, a: real, b: real): real
    requires b != 0.0
  {
    x * a / b
  }

  function MakerFillAmount(order: NativeOrder, takerFillAmount: real): real
    requires order.takerAmount != 0.0
  {
    Floor(Scale(takerFillAmount, order.makerAmount, order.takerAmount))
  }

  function TakerFillAmount(order: NativeOrder, makerFillAmount: real): real
    requires order.makerAmount != 0.0
  {
    Ceil(Scale(makerFillAmount, order.takerAmount, order.makerAmount))
  }

  function TakerFeeAmount(order: NativeOrder, takerFillAmount: real): real
    requires order.takerAmount != 0.0
  {
    Floor(Scale(takerFillAmount, order.takerTokenFeeAmount, order.takerAmount))
  }

  datatype FillableAmounts = FillableAmounts(maker: real, taker: real, takerFee: real)

  function FillableFromTakerAmount(kind: OrderType, order: NativeOrder, taker: real): FillableAmounts
    requires order.takerAmount != 0.0
  {
    if taker == 0.0 then FillableAmounts(0.0, 0.0, 0.0)
    else FillableAmounts(MakerFillAmount(order, taker), taker,
                         if kind == Limit then TakerFeeAmount(order, taker) else 0.0)
  }

  function FillableFromMakerAmount(kind: OrderType, order: NativeOrder, maker: real): FillableAmounts
    requires order.takerAmount != 0.0 && order.makerAmount != 0.0
  {
    if maker == 0.0 then FillableAmounts(0.0, 0.0, 0.0)
    else
      var taker := TakerFillAmount(order, maker);
      FillableAmounts(maker, taker, if kind == Limit then TakerFeeAmount(order, taker) else 0.0)
  }

  lemma ScaleMono(x: real, y: real, a: real, b: real)
    requires x <= y && a >= 0.0 && b > 0.0
    ensures Scale(x, a, b) <= Scale(y, a, b)
  {
    MulMono(x, y, a);
    DivMono(x * a, y * a, b);
  }

  lemma ScaleThereAndBack(x: real, a: real, b: real)
    requires a > 0.0 && b > 0.0
    ensures Scale(Scale(x, a, b), b, a) == x
  {
    DivCancel(x * a, b);
    DivCancel(x, a);
  }

  /** Scaling by `a / b` and by `b / a` are adjoint. */
  lemma ScaleAdjoint(x: real, y: real, a: real, b: real)
    requires a > 0.0 && b > 0.0
    ensures Scale(x, a, b) <= y <==> x <= Scale(y, b, a)
  {
    if Scale(x, a, b) <= y {
      ScaleMono(Scale(x, a, b), y, b, a);
      ScaleThereAndBack(x, a, b);
    }
    if x <= Scale(y, b, a) {
      ScaleMono(x, Scale(y, b, a), a, b);
      ScaleThereAndBack(y, b, a);
    }
  }

  lemma CeilFloor(x: real, n: real)
    requires IsInt(n)
    ensures Ceil(x) <= n <==> x <= n
    ensures n <= Floor(x) <==> n <= x
  {
    if x <= n { IntsLess(Ceil(x), n); }
    if n <= x { IntsLess(n, Floor(x)); }
  }

  /** Rounding up to taker and down to maker amounts are adjoint. */
  lemma FillAmountsAreAdjoint(order: NativeOrder, maker: real, taker: real)
    requires Positive(order) && IsInt(maker) && IsInt(taker)
    ensures TakerFillAmount(order, maker) <= taker <==> maker <= MakerFillAmount(order, taker)
  {
    ScaleAdjoint(maker, taker, order.takerAmount, order.makerAmount);
    CeilFloor(Scale(maker, order.takerAmount, order.makerAmount), taker);
    CeilFloor(Scale(taker, order.makerAmount, order.takerAmount), maker);
  }

  /** Converting there and back never favours the taker, and a third conversion changes nothing. */
  lemma FillAmountsRoundTrip(order: NativeOrder, maker: real, taker: real)
    requires Positive(order) && IsInt(maker) && IsInt(taker)
    ensures maker <= MakerFillAmount(order, TakerFillAmount(order, maker))
    ensures TakerFillAmount(order, MakerFillAmount(order, taker)) <= taker
    ensures MakerFillAmount(order, TakerFillAmount(order, MakerFillAmount(order, taker)))
         == MakerFillAmount(order, taker)
    ensures TakerFillAmount(order, MakerFillAmount(order, TakerFillAmount(order, maker)))
         == TakerFillAmount(order, maker)
  {
    var t := TakerFillAmount(order, maker);
    var m := MakerFillAmount(order, taker);
    FillAmountsAreAdjoint(order, maker, t);
    FillAmountsAreAdjoint(order, m, taker);
    var t1, m1 := TakerFillAmount(order, m), MakerFillAmount(order, t);
    FillAmountsAreAdjoint(order, m, t1);
    FillAmountsAreAdjoint(order, m1, t);
    MakerFillMono(order, t1, taker);
    FillAmountsAreAdjoint(order, maker, TakerFillAmount(order, m1));
    TakerFillMono(order, maker, m1);
  }

  lemma MakerFillMono(order: NativeOrder, t: real, u: real)
    requires Positive(order) && t <= u
    ensures MakerFillAmount(order, t) <= MakerFillAmount(order, u)
  {
    ScaleMono(t, u, order.makerAmount, order.takerAmount);
    RoundingIsMonotone(Scale(t, order.makerAmount, order.takerAmount), Scale(u, order.makerAmount, order.takerAmount));
  }

  lemma TakerFillMono(order: NativeOrder, m: real, n: real)
    requires Positive(order) && m <= n
    ensures TakerFillAmount(order, m) <= TakerFillAmount(order, n)
  {
    ScaleMono(m, n, order.takerAmount, order.makerAmount);
    RoundingIsMonotone(Scale(m, order.takerAmount, order.makerAmount), Scale(n, order.takerAmount, order.makerAmount));
  }

  /** Starting from a taker or from a maker amount, the fillable triple never overstates the maker side. */
  lemma FillableAmountsAgree(kind: OrderType, order: NativeOrder, maker: real)
    requires Positive(order) && IsInt(maker) && maker >= 0.0
    ensures var f := FillableFromMakerAmount(kind, order, maker);
            var g := FillableFromTakerAmount(kind, order, f.taker);
            g.taker == f.taker && g.takerFee == f.takerFee && f.maker <= g.maker
            && (kind != Limit ==> f.takerFee == 0.0)
  {
    if maker > 0.0 {
      FillAmountsRoundTrip(order, maker, maker);
      ScaleAdjoint(maker, 0.0, order.takerAmount, order.makerAmount);
    }
  }
}
