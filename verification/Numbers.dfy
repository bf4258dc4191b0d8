/** Exact amounts, the integer roundings applied to them, and finite sums. */
module Numbers {

  function Min(a: real, b: real): real { if a <= b then a else b }

  function Max(a: real, b: real): real { if a >= b then a else b }

  predicate IsInt(x: real) { x == x.Floor as real }

  /** `ROUND_FLOOR`. */
  function Floor(x: real): (r: real)
    ensures IsInt(r) && r <= x < r + 1.0
  {
    x.Floor as real
  }

  /** `ROUND_CEIL`. */
  function Ceil(x: real): (r: real)
    ensures IsInt(r) && r - 1.0 < x <= r
  {
    var n := -(-x).Floor;
    assert (n as real).Floor == n;
    n as real
  }

  /** `ROUND_DOWN`: towards zero. */
  function RoundDown(x: real): (r: real)
    ensures IsInt(r)
    ensures if x >= 0.0 then r <= x < r + 1.0 else r - 1.0 < x <= r
  {
    if x >= 0.0 then Floor(x) else Ceil(x)
  }

  /** `ROUND_UP`: away from zero. */
  function RoundUp(x: real): (r: real)
    ensures IsInt(r)
    ensures if x >= 0.0 then r - 1.0 < x <= r else r <= x < r + 1.0
  {
    if x >= 0.0 then Ceil(x) else Floor(x)
  }

  /** `ROUND_HALF_UP`: to the nearest integer, ties away from zero. */
  function RoundHalfUp(x: real): (r: real)
    ensures IsInt(r)
    ensures if x >= 0.0 then r - 0.5 <= x < r + 0.5 else r - 0.5 < x <= r + 0.5
  {
    if x >= 0.0 then Floor(x + 0.5) else Ceil(x - 0.5)
  }

  /** Division to an integer quotient, truncated towards zero. */
  function DivToInteger(a: real, b: real): real
    requires b != 0.0
  {
    RoundDown(a / b)
  }

  lemma IntPlus(m: int, n: int)
    ensures m as real + n as real == (m + n) as real
    ensures m as real - n as real == (m - n) as real
    ensures m as real < n as real <==> m < n
    ensures ((m + n) as real).Floor == m + n && ((m - n) as real).Floor == m - n
  {
  }

  /** Two integers less than one apart are ordered as the weaker test says. */
  lemma IntsLess(a: real, b: real)
    requires IsInt(a) && IsInt(b)
    requires a < b + 1.0
    ensures a <= b
  {
    var m, n := a.Floor, b.Floor;
    IntPlus(n, 1);
    IntPlus(m, n + 1);
    IntPlus(n, m);
  }

  lemma IntArithmetic(a: real, b: real)
    requires IsInt(a) && IsInt(b)
    ensures IsInt(a + b) && IsInt(a - b)
  {
    IntPlus(a.Floor, b.Floor);
  }

  lemma IntRoundsToItself(x: real)
    requires IsInt(x)
    ensures Floor(x) == x && Ceil(x) == x && RoundDown(x) == x && RoundUp(x) == x && RoundHalfUp(x) == x
  {
    IntsLess(Floor(x), x);
    IntsLess(x, Floor(x));
    IntsLess(Ceil(x), x);
    IntsLess(x, Ceil(x));
    IntsLess(RoundHalfUp(x), x);
    IntsLess(x, RoundHalfUp(x));
  }

  lemma RoundingIsMonotone(a: real, b: real)
    requires a <= b
    ensures Floor(a) <= Floor(b) && Ceil(a) <= Ceil(b)
    ensures RoundDown(a) <= RoundDown(b) && RoundUp(a) <= RoundUp(b)
  {
    IntsLess(Floor(a), Floor(b));
    IntsLess(Ceil(a), Ceil(b));
    IntsLess(RoundDown(a), RoundDown(b));
    IntsLess(RoundUp(a), RoundUp(b));
  }

  lemma MulMono(a: real, b: real, c: real)
    requires a <= b && c >= 0.0
    ensures a * c <= b * c && c * a <= c * b
  {
  }

  lemma MulNonneg(a: real, b: real)
    requires a >= 0.0 && b >= 0.0
    ensures a * b >= 0.0
  {
  }

  lemma DivCancel(a: real, b: real)
    requires b != 0.0
    ensures a / b * b == a && a * b / b == a
  {
  }

  lemma DivMono(a: real, b: real, c: real)
    requires a <= b && c > 0.0
    ensures a / c <= b / c
  {
    assert (b / c - a / c) * c == b - a;
    NonnegFactor(b / c - a / c, c);
  }

  lemma NonnegFactor(d: real, c: real)
    requires c > 0.0 && d * c >= 0.0
    ensures d >= 0.0
  {
  }

  // ----- Sums over sequences and maps -----

  function SumOf<T>(xs: seq<T>, f: T -> real): real {
    if |xs| == 0 then 0.0 else SumOf(xs[..|xs| - 1], f) + f(xs[|xs| - 1])
  }

  lemma {:induction false} SumAppend<T>(xs: seq<T>, x: T, f: T -> real)
    ensures SumOf(xs + [x], f) == SumOf(xs, f) + f(x)
  {
    assert (xs + [x])[..|xs|] == xs;
  }

  lemma {:induction false} SumConcat<T>(xs: seq<T>, ys: seq<T>, f: T -> real)
    ensures SumOf(xs + ys, f) == SumOf(xs, f) + SumOf(ys, f)
  {
    if |ys| == 0 {
      assert xs + ys == xs;
    } else {
      var front, last := ys[..|ys| - 1], ys[|ys| - 1];
      assert xs + ys == (xs + front) + [last];
      SumAppend(xs + front, last, f);
      SumConcat(xs, front, f);
    }
  }

  lemma {:induction false} SumCons<T>(xs: seq<T>, f: T -> real)
    requires |xs| > 0
    ensures SumOf(xs, f) == f(xs[0]) + SumOf(xs[1..], f)
  {
    assert xs == [xs[0]] + xs[1..];
    SumConcat([xs[0]], xs[1..], f);
    assert SumOf([xs[0]], f) == SumOf([xs[0]][..0], f) + f(xs[0]);
  }

  lemma {:induction false} SumNonneg<T>(xs: seq<T>, f: T -> real)
    requires forall x <- xs :: f(x) >= 0.0
    ensures SumOf(xs, f) >= 0.0
  {
    if |xs| > 0 {
      SumNonneg(xs[..|xs| - 1], f);
      assert xs[|xs| - 1] in xs;
    }
  }

  lemma {:induction false} SumIsInt<T>(xs: seq<T>, f: T -> real)
    requires forall x <- xs :: IsInt(f(x))
    ensures IsInt(SumOf(xs, f))
  {
    if |xs| > 0 {
      SumIsInt(xs[..|xs| - 1], f);
      assert xs[|xs| - 1] in xs;
      IntArithmetic(SumOf(xs[..|xs| - 1], f), f(xs[|xs| - 1]));
    }
  }

  /** Sums agree when the summands agree position by position. */
  lemma {:induction false} SumPointwise<S, T>(xs: seq<S>, f: S -> real, ys: seq<T>, g: T -> real)
    requires |xs| == |ys|
    requires forall k :: 0 <= k < |xs| ==> f(xs[k]) == g(ys[k])
    ensures SumOf(xs, f) == SumOf(ys, g)
  {
    if |xs| > 0 {
      SumPointwise(xs[..|xs| - 1], f, ys[..|ys| - 1], g);
    }
  }

  lemma {:induction false} SumPointwiseLe<S, T>(xs: seq<S>, f: S -> real, ys: seq<T>, g: T -> real)
    requires |xs| == |ys|
    requires forall k :: 0 <= k < |xs| ==> f(xs[k]) <= g(ys[k])
    ensures SumOf(xs, f) <= SumOf(ys, g)
  {
    if |xs| > 0 {
      SumPointwiseLe(xs[..|xs| - 1], f, ys[..|ys| - 1], g);
    }
  }

  /** The sum of the values of `m` at the keys in `s`. */
  ghost function SumAt<K>(s: set<K>, m: map<K, real>): real
    requires s <= m.Keys
  {
    if s == {} then 0.0 else
      var k :| k in s;
      m[k] + SumAt(s - {k}, m)
  }

  ghost function SumMap<K>(m: map<K, real>): real {
    SumAt(m.Keys, m)
  }

  lemma {:induction false} SumAtRemove<K>(s: set<K>, m: map<K, real>, k: K)
    requires s <= m.Keys && k in s
    ensures SumAt(s, m) == m[k] + SumAt(s - {k}, m)
    decreases s
  {
    var c :| c in s && SumAt(s, m) == m[c] + SumAt(s - {c}, m);
    if c != k {
      assert s - {c} - {k} == s - {k} - {c};
      SumAtRemove(s - {c}, m, k);
      SumAtRemove(s - {k}, m, c);
    }
  }

  lemma {:induction false} SumAtPointwise<K>(s: set<K>, m: map<K, real>, n: map<K, real>)
    requires s <= m.Keys && s <= n.Keys
    requires forall k <- s :: m[k] == n[k]
    ensures SumAt(s, m) == SumAt(s, n)
    decreases s
  {
    if s != {} {
      var k :| k in s;
      SumAtRemove(s, m, k);
      SumAtRemove(s, n, k);
      SumAtPointwise(s - {k}, m, n);
    }
  }

  lemma SumMapUpdate<K>(m: map<K, real>, k: K, v: real)
    ensures SumMap(m[k := v]) == SumMap(m) - (if k in m then m[k] else 0.0) + v
  {
    var n := m[k := v];
    SumAtRemove(n.Keys, n, k);
    var rest := n.Keys - {k};
    SumAtPointwise(rest, m, n);
    if k in m {
      assert rest == m.Keys - {k};
      SumAtRemove(m.Keys, m, k);
    } else {
      assert rest == m.Keys;
    }
  }
}
