/** The interpolated percentile of a list the caller has sorted, as the
    packaged statistics module and its monolithic copy compute it, and the
    older variant that leaves the interpolation untruncated. */
module Percentile {
  import opened Results

  predicate Sorted(a: seq<int>) {
    forall i, j :: 0 <= i <= j < |a| ==> a[i] <= a[j]
  }

  /** `int(x)` on a float: truncation toward zero. */
  function Truncate(x: real): (r: int)
    ensures 0.0 <= x ==> r as real <= x < r as real + 1.0
    ensures x < 0.0 ==> r as real - 1.0 < x <= r as real
  {
    if x >= 0.0 then x.Floor else -((-x).Floor)
  }

  /** `math.ceil`. */
  function Ceil(k: real): (c: int)
    ensures k <= c as real < k + 1.0
  {
    if k.Floor as real == k then k.Floor else k.Floor + 1
  }

  /** The fractional rank `(len(array) - 1) * percent`. */
  function Rank(n: nat, p: real): real
    requires n > 0
  {
    (n - 1) as real * p
  }

  /** For a percent in [0, 1], the rank lies in [0, n-1]. */
  lemma RankBounds(n: nat, p: real)
    requires n > 0 && 0.0 <= p <= 1.0
    ensures 0.0 <= Rank(n, p) <= (n - 1) as real
  {
    assert (n - 1) as real * p <= (n - 1) as real * 1.0;
  }

  /** `math.floor(k)`, an index of the list. */
  function Lo(n: nat, p: real): (f: nat)
    requires n > 0 && 0.0 <= p <= 1.0
    ensures f < n && f as real <= Rank(n, p) < f as real + 1.0
  {
    RankBounds(n, p);
    Rank(n, p).Floor
  }

  /** `math.ceil(k)`, an index of the list; it equals the floor exactly when
      the rank is whole. */
  function Hi(n: nat, p: real): (c: nat)
    requires n > 0 && 0.0 <= p <= 1.0
    ensures Lo(n, p) <= c <= Lo(n, p) + 1 && c < n && Rank(n, p) <= c as real
    ensures c == Lo(n, p) <==> Lo(n, p) as real == Rank(n, p)
  {
    RankBounds(n, p);
    Ceil(Rank(n, p))
  }

  function Min(x: int, y: int): int { if x <= y then x else y }
  function Max(x: int, y: int): int { if x <= y then y else x }

  /** The blend `array[f] * (c - k) + array[c] * (k - f)` between the two
      neighbours of the rank, before any truncation. */
  function Blend(a: seq<int>, p: real): (v: real)
    requires |a| > 0 && 0.0 <= p <= 1.0
    ensures Min(a[Lo(|a|, p)], a[Hi(|a|, p)]) as real <= v
    ensures v <= Max(a[Lo(|a|, p)], a[Hi(|a|, p)]) as real
  {
    var f := Lo(|a|, p);
    var c := Hi(|a|, p);
    if f == c then a[f] as real
    else
      InterpolateBetween(a[f] as real, a[c] as real, f as real, c as real, Rank(|a|, p));
      Interpolate(a[f] as real, a[c] as real, f as real, c as real, Rank(|a|, p))
  }

  /** `x * (c - k) + y * (k - f)`: the value at `k` on the line through
      `(f, x)` and `(c, y)`, for `c = f + 1`. */
  function Interpolate(x: real, y: real, f: real, c: real, k: real): real {
    x * (c - k) + y * (k - f)
  }

  /** An interpolated value lies between the two values it blends. */
  lemma InterpolateBetween(x: real, y: real, f: real, c: real, k: real)
    requires f <= k <= c == f + 1.0
    ensures x <= y ==> x <= Interpolate(x, y, f, c, k) <= y
    ensures y <= x ==> y <= Interpolate(x, y, f, c, k) <= x
  {
    InterpolateFromBelow(x, y, f, c, k);
    if x <= y {
      MulNonneg(y - x, k - f);
      MulNonneg(y - x, c - k);
    } else {
      MulNonneg(x - y, k - f);
      MulNonneg(x - y, c - k);
    }
  }

  /** The interpolation is the lower value moved toward the upper one by the
      rank's distance from `f`. */
  lemma InterpolateFromBelow(x: real, y: real, f: real, c: real, k: real)
    requires c == f + 1.0
    ensures Interpolate(x, y, f, c, k) == x + (y - x) * (k - f)
  {
    assert c - k == 1.0 - (k - f);
  }

  /** Between two neighbours in order, the interpolation grows with the rank. */
  lemma InterpolateMonotone(x: real, y: real, f: real, c: real, k1: real, k2: real)
    requires x <= y && c == f + 1.0 && k1 <= k2
    ensures Interpolate(x, y, f, c, k1) <= Interpolate(x, y, f, c, k2)
  {
    InterpolateFromBelow(x, y, f, c, k1);
    InterpolateFromBelow(x, y, f, c, k2);
    MulMonotone(y - x, k1 - f, k2 - f);
  }

  lemma MulNonneg(d: real, t: real)
    requires 0.0 <= d && 0.0 <= t
    ensures 0.0 <= d * t
  {
  }

  lemma MulMonotone(d: real, x: real, y: real)
    requires 0.0 <= d && x <= y
    ensures d * x <= d * y
  {
    MulNonneg(d, y - x);
  }

  /** Truncation toward zero keeps a value between two integers that bound it. */
  lemma TruncateBetween(x: real, lo: int, hi: int)
    requires lo as real <= x <= hi as real
    ensures lo <= Truncate(x) <= hi
  {
  }

  /** `percentile(array, percent)`: nothing for an empty list; the element
      at the rank when the rank is whole; otherwise the truncated blend of
      the two neighbours. */
  function Percentile(a: seq<int>, p: real): (r: Option<int>)
    requires 0.0 <= p <= 1.0
    ensures r.None? <==> |a| == 0
    ensures r.Some? && Lo(|a|, p) == Hi(|a|, p) ==> r.value == a[Lo(|a|, p)]
    ensures r.Some? ==> Min(a[Lo(|a|, p)], a[Hi(|a|, p)]) <= r.value
    ensures r.Some? ==> r.value <= Max(a[Lo(|a|, p)], a[Hi(|a|, p)])
  {
    if |a| == 0 then None
    else
      var f := Lo(|a|, p);
      var c := Hi(|a|, p);
      if f == c then Some(a[f])
      else
        var v := Blend(a, p);
        TruncateBetween(v, Min(a[f], a[c]), Max(a[f], a[c]));
        Some(Truncate(v))
  }

  /** At 0.95 the rank `(n - 1) * 0.95` has whole part `(n - 1) * 19 / 20`,
      and it is whole exactly when 20 divides `(n - 1) * 19`. */
  lemma Rank95(n: nat)
    requires n > 0
    ensures Lo(n, 0.95) == (n - 1) * 19 / 20
    ensures Hi(n, 0.95) == Lo(n, 0.95) <==> (n - 1) * 19 % 20 == 0
  {
    var q, m := (n - 1) * 19 / 20, (n - 1) * 19 % 20;
    assert (n - 1) * 19 == 20 * q + m;
    assert Rank(n, 0.95) == q as real + m as real / 20.0;
  }

  /** `percentil_95`. The source's float 0.95 is taken as the exact decimal.
      The result is the element at index `(n - 1) * 19 / 20` when the rank is
      whole, and otherwise lies between that element and the next one. */
  function Percentile95(a: seq<int>): (r: Option<int>)
    ensures r.None? <==> |a| == 0
    ensures r.Some? && (|a| - 1) * 19 % 20 == 0 ==> r.value == a[(|a| - 1) * 19 / 20]
    ensures r.Some? && (|a| - 1) * 19 % 20 != 0 ==>
              var i := (|a| - 1) * 19 / 20;
              i + 1 < |a| && Min(a[i], a[i + 1]) <= r.value <= Max(a[i], a[i + 1])
    ensures r.Some? && Sorted(a) ==> a[0] <= r.value <= a[|a| - 1]
  {
    if |a| == 0 then None
    else
      Rank95(|a|);
      Percentile(a, 0.95)
  }

  /** On a sorted list the percentile lies within the list's range, and the
      two extreme percents pick its ends. */
  lemma PercentileInRange(a: seq<int>, p: real)
    requires Sorted(a) && |a| > 0 && 0.0 <= p <= 1.0
    ensures a[0] <= Percentile(a, p).value <= a[|a| - 1]
    ensures p == 0.0 ==> Percentile(a, p) == Some(a[0])
    ensures p == 1.0 ==> Percentile(a, p) == Some(a[|a| - 1])
  {
  }

  /** The blend is the usual linear interpolation from the lower neighbour
      toward the upper one by the rank's fractional part. */
  lemma BlendIsInterpolation(a: seq<int>, p: real)
    requires |a| > 0 && 0.0 <= p <= 1.0
    ensures var f := Lo(|a|, p);
            Blend(a, p) == a[f] as real + (a[Hi(|a|, p)] - a[f]) as real * (Rank(|a|, p) - f as real)
  {
    var f, c := Lo(|a|, p), Hi(|a|, p);
    if f != c {
      InterpolateFromBelow(a[f] as real, a[c] as real, f as real, c as real, Rank(|a|, p));
    }
  }

  lemma TruncateMonotone(x: real, y: real)
    requires x <= y
    ensures Truncate(x) <= Truncate(y)
  {
  }

  /** On a sorted list the blend grows with the percent. */
  lemma BlendMonotone(a: seq<int>, p: real, q: real)
    requires Sorted(a) && |a| > 0 && 0.0 <= p <= q <= 1.0
    ensures Blend(a, p) <= Blend(a, q)
  {
    var n := |a|;
    var kp, kq := Rank(n, p), Rank(n, q);
    MulMonotone((n - 1) as real, p, q);
    assert kp <= kq;
    var fp, cp := Lo(n, p), Hi(n, p);
    var fq, cq := Lo(n, q), Hi(n, q);
    if fp < fq {
      assert Blend(a, p) <= a[cp] as real;
      assert a[cp] <= a[fq];
      assert a[fq] as real <= Blend(a, q);
    } else if cp == fp {
      assert Blend(a, p) == a[fp] as real;
      assert a[fq] as real <= Blend(a, q);
    } else {
      assert fq == fp && cq == cp;
      InterpolateMonotone(a[fp] as real, a[cp] as real, fp as real, cp as real, kp, kq);
    }
  }

  /** On a sorted list a larger percent never gives a smaller percentile. */
  lemma PercentileMonotone(a: seq<int>, p: real, q: real)
    requires Sorted(a) && |a| > 0 && 0.0 <= p <= q <= 1.0
    ensures Percentile(a, p).value <= Percentile(a, q).value
  {
    BlendMonotone(a, p, q);
    TruncateMonotone(Blend(a, p), Blend(a, q));
    PercentileIsTruncatedBlend(a, p);
    PercentileIsTruncatedBlend(a, q);
  }

  /** Both branches of the percentile are the truncated blend: when the rank
      is whole the blend is the element there. */
  lemma PercentileIsTruncatedBlend(a: seq<int>, p: real)
    requires |a| > 0 && 0.0 <= p <= 1.0
    ensures Percentile(a, p) == Some(Truncate(Blend(a, p)))
  {
  }

  /** The older variant's `percentile`: the same rank and blend, returned
      without truncation (its caller applies `int()`). */
  function OlderPercentile(a: seq<int>, p: real): (r: Option<real>)
    requires 0.0 <= p <= 1.0
    ensures r.None? <==> |a| == 0
  {
    if |a| == 0 then None else Some(Blend(a, p))
  }

  /** Truncating the older result gives the packaged one. */
  lemma OlderPercentileTruncates(a: seq<int>, p: real)
    requires 0.0 <= p <= 1.0
    ensures Percentile(a, p).None? <==> OlderPercentile(a, p).None?
    ensures |a| > 0 ==> Percentile(a, p) == Some(Truncate(OlderPercentile(a, p).value))
  {
    if |a| > 0 {
      PercentileIsTruncatedBlend(a, p);
    }
  }

  /** The documented examples: an empty list, one element, an interpolated
      95th percentile (3.85 truncates to 3) and a whole-rank median. */
  lemma PercentileExamples()
    ensures Percentile95([]) == None
    ensures Percentile95([10]) == Some(10)
    ensures Percentile95([1, 2, 3, 4]) == Some(3)
    ensures Percentile([1, 2, 3, 4, 5], 0.5) == Some(3)
  {
    var a := [1, 2, 3, 4];
    assert Rank(4, 0.95) == 2.85;
    assert (2.85).Floor == 2;
    assert Ceil(2.85) == 3;
    assert Blend(a, 0.95) == 3.85;
    assert (3.85).Floor == 3;
    assert Rank(5, 0.5) == 2.0;
    assert (2.0).Floor == 2;
  }
}
