/** JavaScript number arithmetic as the core uses it, stated on exact reals.
    Doubles are modelled as `real`; the only IEEE behaviours kept are the ones
    written out below (`Math.round`, `toFixed(2)`, the `|| x` fall-backs at the
    call sites).  A quotient with a zero divisor, which JavaScript turns into
    ±Infinity or NaN, is 0 here (`Div`). */
module Numeric {

  function Abs(x: real): (r: real)
    ensures r >= 0.0 && (r == x || r == -x)
  {
    if x < 0.0 then -x else x
  }

  function Max(a: real, b: real): (r: real)
    ensures r >= a && r >= b && (r == a || r == b)
  {
    if a >= b then a else b
  }

  function Min(a: real, b: real): (r: real)
    ensures r <= a && r <= b && (r == a || r == b)
  {
    if a <= b then a else b
  }

  /** `Math.max(lo, Math.min(hi, x))`, the clamp idiom of the source. */
  function Clamp(lo: real, hi: real, x: real): (r: real)
    requires lo <= hi
    ensures lo <= r <= hi
    ensures lo <= x <= hi ==> r == x
  {
    Max(lo, Min(hi, x))
  }

  /** `a / b`, with the non-finite quotient of a zero divisor read as 0. */
  function Div(a: real, b: real): (r: real)
    ensures b != 0.0 ==> r * b == a
    ensures b == 0.0 ==> r == 0.0
  {
    if b == 0.0 then 0.0 else a / b
  }

  /** Left fold `xs.reduce((a, b) => a + b, 0)`. */
  function Sum(xs: seq<real>): real
  {
    if |xs| == 0 then 0.0 else Sum(xs[..|xs| - 1]) + xs[|xs| - 1]
  }

  /** Arithmetic mean; the source's NaN mean of an empty window is 0 here. */
  function Mean(xs: seq<real>): real
  {
    Div(Sum(xs), |xs| as real)
  }

  /** Sum of squared deviations from `m`. */
  function SquaredDeviations(xs: seq<real>, m: real): real
  {
    if |xs| == 0 then 0.0
    else SquaredDeviations(xs[..|xs| - 1], m) + (xs[|xs| - 1] - m) * (xs[|xs| - 1] - m)
  }

  /** Population variance (divide by N). */
  function Variance(xs: seq<real>): real
  {
    Div(SquaredDeviations(xs, Mean(xs)), |xs| as real)
  }

  /** `Math.max(...xs)` on a non-empty list. */
  function SeqMax(xs: seq<real>): (r: real)
    requires |xs| > 0
    ensures forall i :: 0 <= i < |xs| ==> xs[i] <= r
    ensures exists i :: 0 <= i < |xs| && xs[i] == r
  {
    if |xs| == 1 then xs[0]
    else
      var m := SeqMax(xs[..|xs| - 1]);
      assert forall i :: 0 <= i < |xs| - 1 ==> xs[..|xs| - 1][i] == xs[i];
      Max(m, xs[|xs| - 1])
  }

  /** `Math.min(...xs)` on a non-empty list. */
  function SeqMin(xs: seq<real>): (r: real)
    requires |xs| > 0
    ensures forall i :: 0 <= i < |xs| ==> r <= xs[i]
    ensures exists i :: 0 <= i < |xs| && xs[i] == r
  {
    if |xs| == 1 then xs[0]
    else
      var m := SeqMin(xs[..|xs| - 1]);
      assert forall i :: 0 <= i < |xs| - 1 ==> xs[..|xs| - 1][i] == xs[i];
      Min(m, xs[|xs| - 1])
  }

  /** A list bounded element by element by another has the smaller maximum. */
  lemma SeqMaxPointwise(xs: seq<real>, ys: seq<real>)
    requires |xs| == |ys| > 0
    requires forall i :: 0 <= i < |xs| ==> xs[i] <= ys[i]
    ensures SeqMax(xs) <= SeqMax(ys)
  {
    var k :| 0 <= k < |xs| && xs[k] == SeqMax(xs);
    assert xs[k] <= ys[k];
  }

  /** A list bounded element by element by another has the smaller minimum. */
  lemma SeqMinPointwise(xs: seq<real>, ys: seq<real>)
    requires |xs| == |ys| > 0
    requires forall i :: 0 <= i < |xs| ==> xs[i] <= ys[i]
    ensures SeqMin(xs) <= SeqMin(ys)
  {
    var k :| 0 <= k < |ys| && ys[k] == SeqMin(ys);
    assert xs[k] <= ys[k];
  }

  /** `Math.round(x)`: the nearest integer, halves rounded up. */
  function RoundHalfUp(x: real): (n: int)
    ensures x - 0.5 < n as real <= x + 0.5
  {
    (x + 0.5).Floor
  }

  /** `Math.round(x * 100) / 100`. */
  function Round2(x: real): real
  {
    RoundHalfUp(x * 100.0) as real / 100.0
  }

  /** `parseFloat(x.toFixed(2))`: two decimals, a tie going away from zero
      (ECMAScript Number.prototype.toFixed on the exact value). */
  function ToFixed2(x: real): real
  {
    if x < 0.0 then -Round2(-x) else Round2(x)
  }

  /** `s.slice(-n)`: the last `n` elements, and the WHOLE list when n == 0
      (because `-0` is `0` to `slice`). */
  function LastN<T>(s: seq<T>, n: nat): (r: seq<T>)
    ensures n == 0 ==> r == s
    ensures n > 0 ==> |r| == if n < |s| then n else |s|
    ensures s == s[..|s| - |r|] + r
  {
    if n == 0 || n >= |s| then s else s[|s| - n..]
  }

  /** The index `slice` uses for an argument `k`: counted from the end when
      negative, then clamped to [0, len]. */
  function SliceIndex(len: nat, k: int): (r: nat)
    ensures r <= len
    ensures 0 <= k <= len ==> r == k
    ensures -(len as int) <= k < 0 ==> r == len + k
  {
    if k < 0 then (if len + k < 0 then 0 else len + k)
    else if k > len then len
    else k
  }

  /** `s.slice(start, end)`, empty when the clamped end is not after the
      clamped start. */
  function Slice<T>(s: seq<T>, start: int, end: int): (r: seq<T>)
    ensures |r| <= |s|
  {
    var a, b := SliceIndex(|s|, start), SliceIndex(|s|, end);
    if a < b then s[a..b] else []
  }

  lemma DivMonotone(x: real, y: real, d: real)
    requires x <= y && d > 0.0
    ensures x / d <= y / d
  {
    assert y / d - x / d == (y - x) / d;
  }

  lemma MulMonotone(x: real, y: real, k: real)
    requires x <= y && k >= 0.0
    ensures x * k <= y * k
  {
    assert y * k - x * k == (y - x) * k;
  }

  lemma {:induction false} RoundHalfUpMonotone(x: real, y: real)
    requires x <= y
    ensures RoundHalfUp(x) <= RoundHalfUp(y)
  {
  }

  lemma Round2Monotone(x: real, y: real)
    requires x <= y
    ensures Round2(x) <= Round2(y)
  {
    RoundHalfUpMonotone(x * 100.0, y * 100.0);
  }

  /** A value already on the two-decimal grid is left alone by `Round2`. */
  lemma Round2OfCents(k: int)
    ensures Round2(k as real / 100.0) == k as real / 100.0
  {
    var x := k as real / 100.0;
    assert x * 100.0 == k as real;
    assert (k as real + 0.5).Floor == k;
    assert RoundHalfUp(x * 100.0) == k;
  }

  lemma Round2Between(lo: int, hi: int, x: real)
    requires lo as real / 100.0 <= x <= hi as real / 100.0
    ensures lo as real / 100.0 <= Round2(x) <= hi as real / 100.0
  {
    Round2Monotone(lo as real / 100.0, x);
    Round2Monotone(x, hi as real / 100.0);
    Round2OfCents(lo);
    Round2OfCents(hi);
  }

  /** A quotient by a positive divisor has the dividend's sign. */
  lemma DivSign(a: real, b: real)
    ensures b > 0.0 && a >= 0.0 ==> Div(a, b) >= 0.0
    ensures b > 0.0 && a <= 0.0 ==> Div(a, b) <= 0.0
  {
    if b > 0.0 {
      assert Div(a, b) * b == a;
      if Div(a, b) < 0.0 && a >= 0.0 {
        MulMonotone(Div(a, b), 0.0, b);
      }
    }
  }

  /** A percentage of a positive whole of at least `p` means a part of at
      least `p` hundredths of the whole. */
  lemma PercentAtLeast(x: real, h: real, p: real)
    ensures h > 0.0 && x / h * 100.0 >= p ==> x * 100.0 >= p * h
  {
    if h > 0.0 && x / h * 100.0 >= p {
      MulMonotone(p, x / h * 100.0, h);
      assert x / h * 100.0 * h == x * 100.0;
    }
  }

  /** Rounding never crosses a two-decimal value from below. */
  lemma Round2AtMost(x: real, k: int)
    ensures x <= k as real / 100.0 ==> Round2(x) <= k as real / 100.0
  {
    if x <= k as real / 100.0 {
      Round2Monotone(x, k as real / 100.0);
      Round2OfCents(k);
    }
  }

  /** Rounding never crosses a two-decimal value from above. */
  lemma Round2AtLeast(x: real, k: int)
    ensures k as real / 100.0 <= x ==> k as real / 100.0 <= Round2(x)
  {
    if k as real / 100.0 <= x {
      Round2Monotone(k as real / 100.0, x);
      Round2OfCents(k);
    }
  }

  lemma {:induction false} SumNonNegative(xs: seq<real>)
    requires forall i :: 0 <= i < |xs| ==> xs[i] >= 0.0
    ensures Sum(xs) >= 0.0
  {
    if |xs| > 0 {
      SumNonNegative(xs[..|xs| - 1]);
    }
  }

  /** The mean of a non-negative list is non-negative. */
  lemma MeanNonNegative(xs: seq<real>)
    requires forall i :: 0 <= i < |xs| ==> xs[i] >= 0.0
    ensures Mean(xs) >= 0.0
  {
    SumNonNegative(xs);
    DivSign(Sum(xs), |xs| as real);
  }

  lemma {:induction false} SumAtMost(xs: seq<real>, m: real)
    requires forall i :: 0 <= i < |xs| ==> xs[i] <= m
    ensures Sum(xs) <= |xs| as real * m
  {
    if |xs| > 0 {
      SumAtMost(xs[..|xs| - 1], m);
    }
  }

  /** A non-empty list bounded by `m` has its mean bounded by `m`. */
  lemma MeanAtMost(xs: seq<real>, m: real)
    requires |xs| > 0
    requires forall i :: 0 <= i < |xs| ==> xs[i] <= m
    ensures Mean(xs) <= m
  {
    var n, total := |xs| as real, Sum(xs);
    SumAtMost(xs, m);
    DivMonotone(total, n * m, n);
    assert n * m / n == m;
  }

  /** The mean of a non-empty list is at most its maximum. */
  lemma MeanAtMostMax(xs: seq<real>)
    requires |xs| > 0
    ensures Mean(xs) <= SeqMax(xs)
  {
    MeanAtMost(xs, SeqMax(xs));
  }

  lemma {:induction false} SquaredDeviationsOfConstant(xs: seq<real>, c: real)
    requires forall i :: 0 <= i < |xs| ==> xs[i] == c
    ensures SquaredDeviations(xs, c) == 0.0
  {
    if |xs| > 0 {
      SquaredDeviationsOfConstant(xs[..|xs| - 1], c);
    }
  }

  lemma {:induction false} SumOfConstant(xs: seq<real>, c: real)
    requires forall i :: 0 <= i < |xs| ==> xs[i] == c
    ensures Sum(xs) == |xs| as real * c
  {
    if |xs| > 0 {
      SumOfConstant(xs[..|xs| - 1], c);
    }
  }

  /** Deviations of a constant list from any centre `m`. */
  lemma {:induction false} SquaredDeviationsOfConstantFrom(xs: seq<real>, c: real, m: real)
    requires forall i :: 0 <= i < |xs| ==> xs[i] == c
    ensures SquaredDeviations(xs, m) == |xs| as real * ((c - m) * (c - m))
  {
    if |xs| > 0 {
      SquaredDeviationsOfConstantFrom(xs[..|xs| - 1], c, m);
    }
  }

  /** A window whose values are all equal has zero variance. */
  lemma VarianceOfConstant(xs: seq<real>, c: real)
    requires forall i :: 0 <= i < |xs| ==> xs[i] == c
    ensures Variance(xs) == 0.0
  {
    SumOfConstant(xs, c);
    if |xs| > 0 {
      assert Mean(xs) == c;
    }
    SquaredDeviationsOfConstant(xs, Mean(xs));
  }

  /** The mean of a non-empty run of one value is that value. */
  lemma MeanOfConstant(xs: seq<real>, c: real)
    requires |xs| > 0
    requires forall i :: 0 <= i < |xs| ==> xs[i] == c
    ensures Mean(xs) == c
  {
    SumOfConstant(xs, c);
    assert |xs| as real * c / |xs| as real == c;
  }
}
