/**
 * The d3 (version 3) array helpers and the two-point linear scale the visuals
 * call: `d3.quantile`, `d3.median`, `d3.mean`, `d3.min`, `d3.max`, `d3.range`
 * and `d3.scale.linear`. Observations are finite numbers; a result that d3
 * leaves `undefined` is NaN here, which is how every caller uses it.
 */
module D3Arrays {
  import opened JsNumber
  import opened Seqs
  import opened Wrappers

  /** `+values[k]`: reading past either end gives `undefined`, which is NaN. */
  function Elem(s: seq<real>, k: int): (r: Number)
    ensures r.Finite? <==> 0 <= k < |s|
    ensures 0 <= k < |s| ==> r.r == s[k]
  {
    if 0 <= k < |s| then Finite(s[k]) else NaN
  }

  /**
   * `d3.quantile(values, p)` on an ascending array: the value at the 1-based
   * fractional position `H = (n - 1) p + 1`.
   */
  function Quantile(s: seq<real>, p: Number): (r: Number)
    ensures r.Finite? <==> p.Finite? && (|s| == 1 || (|s| >= 2 && 0.0 <= p.r <= 1.0))
  {
    if !p.Finite? then NaN
    else
      PositionRange(|s|, p.r);
      Interpolated(s, Position(|s|, p.r))
  }

  /** `(n - 1) p + 1`, the 1-based fractional position of fraction `p` among `n` values. */
  function Position(n: nat, p: real): real
  {
    (n - 1) as real * p + 1.0
  }

  /** The position falls within `[1, n]` exactly for the fractions the quantile is defined at. */
  lemma PositionRange(n: nat, p: real)
    ensures 1.0 <= Position(n, p) <= n as real <==> n == 1 || (n >= 2 && 0.0 <= p <= 1.0)
  {
    var m := (n - 1) as real;
    assert Position(n, p) == m * p + 1.0;
    if n == 0 {
      assert m * p == -p;
    } else if n == 1 {
      assert m * p == 0.0;
    } else {
      assert m == n as real - 1.0 && m >= 1.0;
      if p > 1.0 {
        MulPos(m, p - 1.0);
        assert m * (p - 1.0) == m * p - m;
      } else if p >= 0.0 {
        MulLe(m, 0.0, p);
        MulLe(m, p, 1.0);
        assert m * 1.0 == m && m * 0.0 == 0.0;
      } else {
        MulPos(m, 0.0 - p);
        assert m * (0.0 - p) == -(m * p);
      }
    }
  }

  /** Fractions in order give positions in order. */
  lemma PositionMonotone(n: nat, p: real, q: real)
    requires n >= 1 && p <= q
    ensures Position(n, p) <= Position(n, q)
  {
    MulLe((n - 1) as real, p, q);
  }

  /**
   * The body of `d3.quantile` at position `H`: with `h = floor(H)` it reads
   * `v = +values[h - 1]` and, when `e = H - h` is not zero, returns
   * `v + e * (values[h] - v)`; reading past either end gives NaN.
   */
  function Interpolated(s: seq<real>, H: real): (r: Number)
    ensures r.Finite? <==> 1.0 <= H <= |s| as real
  {
    var h := H.Floor;
    var v := Elem(s, h - 1);
    var e := H - h as real;
    if e != 0.0 then Add(v, Mul(Finite(e), Sub(Elem(s, h), v))) else v
  }

  lemma MulLe(a: real, x: real, y: real)
    requires 0.0 <= a && x <= y
    ensures a * x <= a * y
  {
    assert a * y - a * x == a * (y - x);
  }

  lemma MulPos(a: real, b: real)
    requires 0.0 < a && 0.0 < b
    ensures 0.0 < a * b
  {
  }

  /**
   * The interpolation formula at a position within `[1, n]`: with `k` the
   * 0-based index below it and `e` its fractional part, the value is
   * `d[k] + e (d[k + 1] - d[k])`, or `d[k]` when `e` is zero.
   */
  lemma InterpolatedFormula(s: seq<real>, H: real)
    requires 1.0 <= H <= |s| as real
    ensures var k := H.Floor - 1;
            var e := H - H.Floor as real;
            0 <= k < |s| && 0.0 <= e < 1.0
            && (e == 0.0 ==> Interpolated(s, H) == Finite(s[k]))
            && (e != 0.0 ==> k + 1 < |s| && Interpolated(s, H) == Finite(s[k] + e * (s[k + 1] - s[k])))
  {
  }

  /** On an ascending array the value at a position lies between its two neighbours. */
  lemma InterpolatedBetween(s: seq<real>, H: real)
    requires Ascending(s) && 1.0 <= H <= |s| as real
    ensures var k := H.Floor - 1;
            0 <= k < |s| && s[k] <= Interpolated(s, H).r <= s[if k + 1 < |s| then k + 1 else k]
  {
    InterpolatedFormula(s, H);
    var k := H.Floor - 1;
    var e := H - H.Floor as real;
    if e != 0.0 {
      InterpolateBetween(s[k], s[k + 1], e);
    }
  }

  lemma InterpolateBetween(a: real, b: real, e: real)
    requires a <= b && 0.0 <= e <= 1.0
    ensures a <= a + e * (b - a) <= b
  {
    MulLe(b - a, e, 1.0);
    MulLe(b - a, 0.0, e);
  }

  /** On an ascending array the value at a later position is not smaller. */
  lemma InterpolatedMonotone(s: seq<real>, H1: real, H2: real)
    requires Ascending(s) && 1.0 <= H1 <= H2 <= |s| as real
    ensures Interpolated(s, H1).r <= Interpolated(s, H2).r
  {
    var k1, k2 := H1.Floor - 1, H2.Floor - 1;
    if k1 < k2 {
      InterpolatedBetween(s, H1);
      InterpolatedBetween(s, H2);
      var up := if k1 + 1 < |s| then k1 + 1 else k1;
      assert up <= k2;
      assert s[up] <= s[k2];
    } else {
      SameCellMonotone(s, H1, H2);
    }
  }

  /** Two positions between the same pair of neighbours: the interpolation grows with the position. */
  lemma SameCellMonotone(s: seq<real>, H1: real, H2: real)
    requires Ascending(s) && 1.0 <= H1 <= H2 <= |s| as real && H1.Floor == H2.Floor
    ensures Interpolated(s, H1).r <= Interpolated(s, H2).r
  {
    if H2 != H2.Floor as real {
      var k := H1.Floor - 1;
      CellValue(s, H1);
      CellValue(s, H2);
      MulLe(s[k + 1] - s[k], H1 - H1.Floor as real, H2 - H2.Floor as real);
    }
  }

  /** Below the last element, the interpolation formula also covers a whole position. */
  lemma CellValue(s: seq<real>, H: real)
    requires 1.0 <= H && H.Floor < |s|
    ensures var k := H.Floor - 1;
            Interpolated(s, H) == Finite(s[k] + (s[k + 1] - s[k]) * (H - H.Floor as real))
  {
    InterpolatedFormula(s, H);
    var k, e := H.Floor - 1, H - H.Floor as real;
    assert (s[k + 1] - s[k]) * e == e * (s[k + 1] - s[k]);
  }

  /**
   * The quantile as usually written: with `x = p (n - 1)`, the result is
   * `d[floor x] + frac(x) (d[floor x + 1] - d[floor x])`.
   */
  lemma QuantileFormula(s: seq<real>, p: real)
    requires |s| >= 1 && (|s| == 1 || 0.0 <= p <= 1.0)
    ensures var x := (|s| - 1) as real * p;
            var k := x.Floor;
            var e := x - k as real;
            0 <= k < |s|
            && (e == 0.0 ==> Quantile(s, Finite(p)) == Finite(s[k]))
            && (e != 0.0 ==> k + 1 < |s| && Quantile(s, Finite(p)) == Finite(s[k] + e * (s[k + 1] - s[k])))
  {
    var H := Position(|s|, p);
    PositionRange(|s|, p);
    InterpolatedFormula(s, H);
    var x := (|s| - 1) as real * p;
    assert H.Floor == x.Floor + 1;
  }

  /** The 0-quantile is the first value and the 1-quantile the last. */
  lemma QuantileEnds(s: seq<real>)
    requires |s| >= 1
    ensures Quantile(s, Finite(0.0)) == Finite(s[0])
    ensures Quantile(s, Finite(1.0)) == Finite(s[|s| - 1])
  {
    QuantileFormula(s, 0.0);
    QuantileFormula(s, 1.0);
  }

  /** On an ascending array every defined quantile lies between the least and the greatest value. */
  lemma QuantileBetween(s: seq<real>, p: real)
    requires Ascending(s) && |s| >= 1 && (|s| == 1 || 0.0 <= p <= 1.0)
    ensures s[0] <= Quantile(s, Finite(p)).r <= s[|s| - 1]
  {
    PositionRange(|s|, p);
    InterpolatedBetween(s, Position(|s|, p));
  }

  /**
   * On an ascending array the quantile is monotone in the fraction: so the
   * box edges and whiskers keep the order of their fractions.
   */
  lemma QuantileMonotone(s: seq<real>, p: real, q: real)
    requires Ascending(s) && |s| >= 1 && 0.0 <= p <= q <= 1.0
    ensures Quantile(s, Finite(p)).r <= Quantile(s, Finite(q)).r
  {
    PositionRange(|s|, p);
    PositionRange(|s|, q);
    PositionMonotone(|s|, p, q);
    InterpolatedMonotone(s, Position(|s|, p), Position(|s|, q));
  }

  /** `d3.median(values)`: the 0.5-quantile of the values sorted ascending; NaN of none. */
  function Median(s: seq<real>): (r: Number)
    ensures r.Finite? <==> |s| > 0
    ensures |s| > 0 ==> SortSeq(s)[0] <= r.r <= SortSeq(s)[|s| - 1]
  {
    if |s| == 0 then NaN
    else
      var sorted := SortSeq(s);
      QuantileBetween(sorted, 0.5);
      Quantile(sorted, Finite(0.5))
  }

  /** The median of ascending values is their 0.5-quantile: the sort inside `d3.median` changes nothing. */
  lemma MedianOfAscending(s: seq<real>)
    requires Ascending(s)
    ensures Median(s) == Quantile(s, Finite(0.5))
  {
    SortSeqOfAscending(s);
  }

  /**
   * The median of an odd number of values is the middle one; of an even
   * number, the mean of the two middle ones.
   */
  lemma MedianMiddle(s: seq<real>)
    requires Ascending(s) && |s| > 0
    ensures |s| % 2 == 1 ==> Median(s) == Finite(s[|s| / 2])
    ensures |s| % 2 == 0 ==> Median(s) == Finite((s[|s| / 2 - 1] + s[|s| / 2]) / 2.0)
  {
    MedianOfAscending(s);
    var H := Position(|s|, 0.5);
    assert Median(s) == Interpolated(s, H);
    var t := |s| / 2;
    if |s| % 2 == 1 {
      assert |s| == 2 * t + 1;
      assert H == t as real + 1.0;
      MedianOdd(s, t, H);
    } else {
      assert |s| == 2 * t;
      assert H == t as real + 0.5;
      MedianEven(s, t, H);
    }
  }

  lemma MedianOdd(s: seq<real>, t: int, H: real)
    requires 0 <= t && |s| == 2 * t + 1 && H == t as real + 1.0
    ensures Interpolated(s, H) == Finite(s[t])
  {
    assert H.Floor == t + 1;
  }

  lemma MedianEven(s: seq<real>, t: int, H: real)
    requires 1 <= t && |s| == 2 * t && H == t as real + 0.5
    ensures Interpolated(s, H) == Finite((s[t - 1] + s[t]) / 2.0)
  {
    assert H.Floor == t;
    var a, b := s[t - 1], s[t];
    assert Interpolated(s, H) == Add(Finite(a), Mul(Finite(0.5), Sub(Finite(b), Finite(a))));
    assert a + 0.5 * (b - a) == (a + b) / 2.0;
  }

  /** `d3.mean(values)`: the arithmetic mean; NaN (d3's `undefined`) of no values. */
  function Mean(s: seq<real>): (r: Number)
    ensures r.Finite? <==> |s| > 0
  {
    if |s| == 0 then NaN else Finite(Sum(s) / |s| as real)
  }

  /** The mean lies between any lower and upper bound of the values. */
  lemma MeanBounds(s: seq<real>, lo: real, hi: real)
    requires |s| > 0 && forall k :: 0 <= k < |s| ==> lo <= s[k] <= hi
    ensures lo <= Mean(s).r <= hi
  {
    SumBounds(s, lo, hi);
    var n := |s| as real;
    assert Sum(s) / n >= lo by {
      assert Sum(s) >= n * lo;
    }
    assert Sum(s) / n <= hi by {
      assert Sum(s) <= n * hi;
    }
  }

  /** `d3.min(values)`: `undefined` (None) for no values. */
  function SeqMin(s: seq<real>): (r: Option<real>)
    ensures r.None? <==> |s| == 0
    ensures r.Some? ==> r.value in s && forall k :: 0 <= k < |s| ==> r.value <= s[k]
  {
    if |s| == 0 then None
    else
      match SeqMin(s[1..])
      case None => Some(s[0])
      case Some(m) => Some(if s[0] < m then s[0] else m)
  }

  /** `d3.max(values)`: `undefined` (None) for no values. */
  function SeqMax(s: seq<real>): (r: Option<real>)
    ensures r.None? <==> |s| == 0
    ensures r.Some? ==> r.value in s && forall k :: 0 <= k < |s| ==> s[k] <= r.value
  {
    if |s| == 0 then None
    else
      match SeqMax(s[1..])
      case None => Some(s[0])
      case Some(m) => Some(if s[0] > m then s[0] else m)
  }

  /** On an ascending array the minimum is the first value and the maximum the last. */
  lemma ExtremesOfAscending(s: seq<real>)
    requires Ascending(s) && |s| > 0
    ensures SeqMin(s) == Some(s[0]) && SeqMax(s) == Some(s[|s| - 1])
  {
    MinOfAscending(s);
    MaxOfAscending(s);
  }

  lemma MinOfAscending(s: seq<real>)
    requires Ascending(s) && |s| > 0
    ensures SeqMin(s) == Some(s[0])
  {
    var lo := SeqMin(s).value;
    var i :| 0 <= i < |s| && s[i] == lo;
    assert s[0] <= s[i] && lo <= s[0];
  }

  lemma MaxOfAscending(s: seq<real>)
    requires Ascending(s) && |s| > 0
    ensures SeqMax(s) == Some(s[|s| - 1])
  {
    var hi := SeqMax(s).value;
    var j :| 0 <= j < |s| && s[j] == hi;
    assert s[j] <= s[|s| - 1] && s[|s| - 1] <= hi;
  }

  /** `d3.range(start, stop)`: the integers from `start` up to but not including `stop`. */
  function Range(start: int, stop: int): (r: seq<int>)
    ensures |r| == if stop > start then stop - start else 0
    ensures forall k :: 0 <= k < |r| ==> r[k] == start + k
    decreases stop - start
  {
    if stop <= start then [] else [start] + Range(start + 1, stop)
  }

  /**
   * `(x - a) / b` after `b = (b - a) || 1 / b`: a zero span becomes +Infinity,
   * so every finite input of a degenerate domain maps to 0.
   */
  function Uninterpolate(a: Number, b: Number, x: Number): (t: Number)
    ensures a.Finite? && b.Finite? && x.Finite? ==>
              t == Finite(if a.r == b.r then 0.0 else (x.r - a.r) / (b.r - a.r))
  {
    var span := Sub(b, a);
    Div(Sub(x, a), if span == Finite(0.0) then PosInf else span)
  }

  /** `a * (1 - t) + b * t`. */
  function Interpolate(a: Number, b: Number, t: Number): (r: Number)
    ensures a.Finite? && b.Finite? && t.Finite? ==> r == Finite(a.r + t.r * (b.r - a.r))
  {
    Add(Mul(a, Sub(Finite(1.0), t)), Mul(b, t))
  }

  /**
   * A `d3.scale.linear()` with domain `[d0, d1]` and range `[r0, r1]`, applied
   * to `x`: the range is interpolated at the position of `x` in the domain.
   */
  function Linear(d0: Number, d1: Number, r0: Number, r1: Number, x: Number): (r: Number)
    ensures d0.Finite? && d1.Finite? && r0.Finite? && r1.Finite? && x.Finite? ==>
              r.Finite? && (d0.r == d1.r ==> r.r == r0.r)
  {
    Interpolate(r0, r1, Uninterpolate(d0, d1, x))
  }

  /** A linear scale maps the ends of its domain onto the ends of its range. */
  lemma LinearEnds(d0: real, d1: real, r0: real, r1: real)
    requires d0 != d1
    ensures Linear(Finite(d0), Finite(d1), Finite(r0), Finite(r1), Finite(d0)) == Finite(r0)
    ensures Linear(Finite(d0), Finite(d1), Finite(r0), Finite(r1), Finite(d1)) == Finite(r1)
  {
    var w := d1 - d0;
    assert w / w == 1.0;
    assert Uninterpolate(Finite(d0), Finite(d1), Finite(d1)) == Finite(1.0);
    assert Uninterpolate(Finite(d0), Finite(d1), Finite(d0)) == Finite(0.0);
  }

  /**
   * With an increasing domain and a range that runs downwards (screen
   * coordinates), a larger value maps to a smaller or equal coordinate.
   */
  lemma LinearAntitone(d0: real, d1: real, r0: real, r1: real, x: real, y: real)
    requires d0 < d1 && r1 <= r0 && x <= y
    ensures Linear(Finite(d0), Finite(d1), Finite(r0), Finite(r1), Finite(y)).r
            <= Linear(Finite(d0), Finite(d1), Finite(r0), Finite(r1), Finite(x)).r
  {
    var tx, ty := (x - d0) / (d1 - d0), (y - d0) / (d1 - d0);
    assert tx <= ty by {
      assert y - d0 >= x - d0;
    }
    assert ty * (r1 - r0) <= tx * (r1 - r0);
  }
}
