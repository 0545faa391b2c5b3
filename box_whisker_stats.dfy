/**
 * The per-group statistics of the box-whisker visual: the quantile fractions
 * read from the visual's settings, the in-place sort, the four configurable
 * quantiles, the two fence scans and the threshold pass that collect the
 * outliers, and the record built for each group.
 */
module BoxWhiskerStats {
  import opened JsNumber
  import opened Seqs
  import opened D3Arrays
  import opened Wrappers

  /** The `box` object of the visual's settings: property name to number. */
  datatype Metadata = Metadata(objects: map<string, map<string, real>>)

  /**
   * `dataView.metadata && DataViewObjects.getValue(objects, box.<name>, default)`:
   * no metadata gives `undefined` (NaN in arithmetic); a missing property gives the default.
   */
  function Setting(metadata: Option<Metadata>, name: string, default: real): (r: Number)
    ensures metadata.None? <==> r.NaN?
  {
    match metadata
    case None => NaN
    case Some(md) =>
      if "box" in md.objects && name in md.objects["box"] then Finite(md.objects["box"][name])
      else Finite(default)
  }

  /** The fractions and the outlier factor one update works with. */
  datatype Fractions = Fractions(
    boxBottom: Number,      // q1quantile, read from setting q2
    boxTop: Number,         // q2quantile, read from setting q3
    lowWhisker: Number,     // read from setting q1
    highWhisker: Number,    // read from setting q4
    outlierFactor: Number)

  /** The getters `getQ1` … `getOutlierFactor` and the way `update` assigns them. */
  function FractionsOf(metadata: Option<Metadata>): (f: Fractions)
  {
    Fractions(
      Setting(metadata, "q2", 0.25),
      Setting(metadata, "q3", 0.75),
      Setting(metadata, "q1", 0.05),
      Setting(metadata, "q4", 0.95),
      Setting(metadata, "outlierFactor", 0.0))
  }

  /** Without a `box` object the defaults apply: 0.25, 0.75, 0.05, 0.95 and factor 0. */
  lemma DefaultFractions(md: Metadata)
    requires "box" !in md.objects
    ensures FractionsOf(Some(md)) ==
            Fractions(Finite(0.25), Finite(0.75), Finite(0.05), Finite(0.95), Finite(0.0))
  {
  }

  /**
   * A configured value is used as it is, without range checks or reordering,
   * and lands in the field its setting names.
   */
  lemma FractionsVerbatim(md: Metadata, q1: real, q2: real, q3: real, q4: real, factor: real)
    requires "box" in md.objects
    requires md.objects["box"] == map["q1" := q1, "q2" := q2, "q3" := q3, "q4" := q4, "outlierFactor" := factor]
    ensures FractionsOf(Some(md)) == Fractions(Finite(q2), Finite(q3), Finite(q1), Finite(q4), Finite(factor))
  {
  }

  /** Without metadata every fraction is `undefined`, so every quantile is NaN. */
  lemma NoMetadataFractions(s: seq<real>)
    ensures var f := FractionsOf(None);
            Quantile(s, f.boxBottom).NaN? && Quantile(s, f.boxTop).NaN?
            && Quantile(s, f.lowWhisker).NaN? && Quantile(s, f.highWhisker).NaN?
  {
  }

  // ---------------------------------------------------------------------
  // The outlier scans of one sorted group
  // ---------------------------------------------------------------------

  /**
   * Where `while (values[++i] <= bound)` stops: the length of the longest
   * prefix whose values are `<= bound`.
   */
  function LowEnd(s: seq<real>, bound: Number): (i: nat)
    ensures i <= |s|
    ensures forall k :: 0 <= k < i ==> Le(Finite(s[k]), bound)
    ensures i < |s| ==> !Le(Finite(s[i]), bound)
  {
    if |s| == 0 || !Le(Finite(s[0]), bound) then 0
    else 1 + LowEnd(s[1..], bound)
  }

  /**
   * Where `while (values[--j] >= bound)` stops: the index just below the
   * longest suffix whose values are `>= bound`, -1 when that suffix is everything.
   */
  function HighEnd(s: seq<real>, bound: Number): (j: int)
    ensures -1 <= j < |s|
    ensures forall k :: j < k < |s| ==> Ge(Finite(s[k]), bound)
    ensures j >= 0 ==> !Ge(Finite(s[j]), bound)
  {
    if |s| == 0 then -1
    else if !Ge(Finite(s[|s| - 1]), bound) then |s| - 1
    else HighEnd(s[..|s| - 1], bound)
  }

  /** The threshold test `val <= lowWhisker || val >= highWhisker`. */
  predicate Beyond(v: real, low: Number, high: Number)
  {
    Le(Finite(v), low) || Ge(Finite(v), high)
  }

  /** The values `v` with `v <= low || v >= high`, in their order. */
  function Outside(s: seq<real>, low: Number, high: Number): (r: seq<real>)
    ensures |r| <= |s|
  {
    if |s| == 0 then []
    else (if Beyond(s[0], low, high) then [s[0]] else []) + Outside(s[1..], low, high)
  }

  /** The fence of the scans: `(q2 - q1) * outlierFactor`. */
  function Fence(q1: Number, q3: Number, factor: Number): Number
  {
    Mul(Sub(q3, q1), factor)
  }

  /**
   * The outlier list of one group as the code builds it: the low fence scan,
   * then the high fence scan (from the top down), then the threshold pass.
   */
  function OutlierList(s: seq<real>, low: Number, high: Number, fence: Number): seq<real>
  {
    var i := LowEnd(s, Sub(low, fence));
    var j := HighEnd(s, Add(high, fence));
    s[..i] + Reverse(s[j + 1..]) + Outside(s, low, high)
  }

  /**
   * Lines 227-239 of the visual: the two scans and the threshold pass over the
   * sorted values. Returns the outliers and the indexes `[i, j]` where the
   * scans stopped.
   */
  method CollectOutliers(values: array<real>, low: Number, high: Number, fence: Number)
    returns (outliers: seq<real>, i: int, j: int)
    ensures i == LowEnd(values[..], Sub(low, fence))
    ensures j == HighEnd(values[..], Add(high, fence))
    ensures outliers == OutlierList(values[..], low, high, fence)
  {
    var s := values[..];
    i := ScanLow(values, Sub(low, fence));
    j := ScanHigh(values, Add(high, fence));
    var beyond := Threshold(values, low, high);
    outliers := s[..i] + Reverse(s[j + 1..]) + beyond;
  }

  /** `while (values[++i] <= bound) outliers.push(values[i])`, returning where it stopped. */
  method ScanLow(values: array<real>, bound: Number) returns (i: int)
    ensures i == LowEnd(values[..], bound)
  {
    i := 0;
    while i < values.Length && Le(Finite(values[i]), bound)
      invariant 0 <= i <= values.Length
      invariant forall k :: 0 <= k < i ==> Le(Finite(values[k]), bound)
    {
      i := i + 1;
    }
    LowEndIsStop(values[..], bound, i);
  }

  /** `while (values[--j] >= bound) outliers.push(values[j])`, returning where it stopped. */
  method ScanHigh(values: array<real>, bound: Number) returns (j: int)
    ensures j == HighEnd(values[..], bound)
  {
    j := values.Length - 1;
    while j >= 0 && Ge(Finite(values[j]), bound)
      invariant -1 <= j < values.Length
      invariant forall k :: j < k < values.Length ==> Ge(Finite(values[k]), bound)
    {
      j := j - 1;
    }
    HighEndIsStop(values[..], bound, j);
  }

  /** The threshold pass: every value at or beyond a whisker, in array order. */
  method Threshold(values: array<real>, low: Number, high: Number) returns (beyond: seq<real>)
    ensures beyond == Outside(values[..], low, high)
  {
    beyond := [];
    var k := 0;
    while k < values.Length
      invariant 0 <= k <= values.Length
      invariant beyond == Outside(values[..k], low, high)
    {
      OutsideSnoc(values[..k], values[k], low, high);
      assert values[..k + 1] == values[..k] + [values[k]];
      if Beyond(values[k], low, high) {
        beyond := beyond + [values[k]];
      }
      k := k + 1;
    }
    assert values[..k] == values[..];
  }

  /** A stop index with the scan's properties is `LowEnd`. */
  lemma {:induction false} LowEndIsStop(s: seq<real>, bound: Number, i: int)
    requires 0 <= i <= |s|
    requires forall k :: 0 <= k < i ==> Le(Finite(s[k]), bound)
    requires i < |s| ==> !Le(Finite(s[i]), bound)
    ensures LowEnd(s, bound) == i
  {
    if i > 0 {
      LowEndIsStop(s[1..], bound, i - 1);
    }
  }

  /** A stop index with the scan's properties is `HighEnd`. */
  lemma {:induction false} HighEndIsStop(s: seq<real>, bound: Number, j: int)
    requires -1 <= j < |s|
    requires forall k :: j < k < |s| ==> Ge(Finite(s[k]), bound)
    requires j >= 0 ==> !Ge(Finite(s[j]), bound)
    ensures HighEnd(s, bound) == j
  {
    if j < |s| - 1 {
      HighEndIsStop(s[..|s| - 1], bound, j);
    }
  }

  /** The threshold pass over a sequence extended by one value. */
  lemma {:induction false} OutsideSnoc(s: seq<real>, x: real, low: Number, high: Number)
    ensures Outside(s + [x], low, high)
            == Outside(s, low, high) + (if Beyond(x, low, high) then [x] else [])
  {
    if |s| == 0 {
      assert s + [x] == [x];
    } else {
      var head := if Beyond(s[0], low, high) then [s[0]] else [];
      var tail := if Beyond(x, low, high) then [x] else [];
      assert (s + [x])[0] == s[0];
      assert (s + [x])[1..] == s[1..] + [x];
      calc {
        Outside(s + [x], low, high);
        head + Outside(s[1..] + [x], low, high);
        { OutsideSnoc(s[1..], x, low, high); }
        head + (Outside(s[1..], low, high) + tail);
        (head + Outside(s[1..], low, high)) + tail;
        Outside(s, low, high) + tail;
      }
    }
  }

  /**
   * The threshold pass keeps exactly the values at or beyond a whisker, in
   * their order: a value is in it if and only if it is in the group and
   * satisfies `v <= low || v >= high`.
   */
  lemma {:induction false} OutsideMembers(s: seq<real>, low: Number, high: Number, v: real)
    ensures v in Outside(s, low, high) <==> v in s && Beyond(v, low, high)
  {
    if |s| > 0 {
      OutsideMembers(s[1..], low, high, v);
      assert s == [s[0]] + s[1..];
    }
  }

  /** The threshold pass of an ascending group is ascending. */
  lemma {:induction false} OutsideAscending(s: seq<real>, low: Number, high: Number)
    requires Ascending(s)
    ensures Ascending(Outside(s, low, high))
  {
    if |s| > 0 {
      OutsideAscending(s[1..], low, high);
      var rest := Outside(s[1..], low, high);
      forall v | v in rest ensures s[0] <= v {
        OutsideMembers(s[1..], low, high, v);
      }
      var head := if Beyond(s[0], low, high) then [s[0]] else [];
      assert Outside(s, low, high) == head + rest;
      forall a, b | 0 <= a < b < |head + rest|
        ensures (head + rest)[a] <= (head + rest)[b]
      {
        if a < |head| {
          assert (head + rest)[b] in rest;
        } else {
          assert (head + rest)[a] == rest[a - |head|];
        }
      }
    }
  }

  // ---------------------------------------------------------------------
  // Facts about the threshold pass of an ascending group
  // ---------------------------------------------------------------------

  lemma {:induction false} OutsideAppend(a: seq<real>, b: seq<real>, low: Number, high: Number)
    ensures Outside(a + b, low, high) == Outside(a, low, high) + Outside(b, low, high)
  {
    if |a| > 0 {
      assert (a + b)[1..] == a[1..] + b;
      OutsideAppend(a[1..], b, low, high);
    } else {
      assert a + b == b;
    }
  }

  /** A stretch of values all beyond a whisker is kept whole by the threshold pass. */
  lemma {:induction false} OutsideAll(t: seq<real>, low: Number, high: Number)
    requires forall k :: 0 <= k < |t| ==> Beyond(t[k], low, high)
    ensures Outside(t, low, high) == t
  {
    if |t| > 0 {
      OutsideAll(t[1..], low, high);
      assert t == [t[0]] + t[1..];
    }
  }

  /** A stretch of values none of which is beyond a whisker contributes nothing. */
  lemma {:induction false} OutsideNone(t: seq<real>, low: Number, high: Number)
    requires forall k :: 0 <= k < |t| ==> !Beyond(t[k], low, high)
    ensures Outside(t, low, high) == []
  {
    if |t| > 0 {
      OutsideNone(t[1..], low, high);
    }
  }

  /** `x <= y` and `y <= b` give `x <= b`. */
  lemma LeLeft(x: real, y: real, b: Number)
    requires x <= y && Le(Finite(y), b)
    ensures Le(Finite(x), b)
  {
  }

  /** `x >= y` and `y >= b` give `x >= b`. */
  lemma GeLeft(x: real, y: real, b: Number)
    requires y <= x && Ge(Finite(y), b)
    ensures Ge(Finite(x), b)
  {
  }

  /** No value is at or below `low` and at or above `high` when `low < high`. */
  lemma NotBoth(x: real, low: Number, high: Number)
    requires Lt(low, high)
    ensures !(Le(Finite(x), low) && Ge(Finite(x), high))
  {
  }

  /**
   * In an ascending group with `low < high` the threshold pass is the run of
   * values at or below `low` followed by the run at or above `high`.
   */
  lemma OutsideOfAscending(s: seq<real>, low: Number, high: Number)
    requires Ascending(s) && Lt(low, high)
    ensures LowEnd(s, low) <= HighEnd(s, high) + 1
    ensures Outside(s, low, high) == s[..LowEnd(s, low)] + s[HighEnd(s, high) + 1..]
  {
    var i, j := LowEnd(s, low), HighEnd(s, high);
    ScansDisjoint(s, low, high);
    MiddleNotBeyond(s, i, j, low, high);
    OutsideSplit(s, i, j + 1, low, high);
  }

  /**
   * A group that is a run beyond the whiskers, a run within them and another
   * run beyond them loses its middle run in the threshold pass.
   */
  lemma OutsideSplit(s: seq<real>, i: int, j: int, low: Number, high: Number)
    requires 0 <= i <= j <= |s|
    requires forall k :: 0 <= k < i ==> Beyond(s[k], low, high)
    requires forall k :: i <= k < j ==> !Beyond(s[k], low, high)
    requires forall k :: j <= k < |s| ==> Beyond(s[k], low, high)
    ensures Outside(s, low, high) == s[..i] + s[j..]
  {
    var head, middle, tail := s[..i], s[i..j], s[j..];
    assert Outside(head, low, high) == head by {
      assert forall k :: 0 <= k < |head| ==> head[k] == s[k];
      OutsideAll(head, low, high);
    }
    assert Outside(middle, low, high) == [] by {
      assert forall k :: 0 <= k < |middle| ==> middle[k] == s[i + k];
      OutsideNone(middle, low, high);
    }
    assert Outside(tail, low, high) == tail by {
      assert forall k :: 0 <= k < |tail| ==> tail[k] == s[j + k];
      OutsideAll(tail, low, high);
    }
    SplitThree(s, i, j);
    OutsideAppend(head + middle, tail, low, high);
    OutsideAppend(head, middle, low, high);
    assert head + [] == head;
  }

  lemma SplitThree(s: seq<real>, i: int, j: int)
    requires 0 <= i <= j <= |s|
    ensures s == (s[..i] + s[i..j]) + s[j..]
  {
    assert s[..j] == s[..i] + s[i..j];
    assert s == s[..j] + s[j..];
  }

  lemma ScansDisjoint(s: seq<real>, low: Number, high: Number)
    requires Lt(low, high)
    ensures LowEnd(s, low) <= HighEnd(s, high) + 1
  {
    var i, j := LowEnd(s, low), HighEnd(s, high);
    if i > j + 1 {
      NotBoth(s[j + 1], low, high);
    }
  }

  /** In an ascending group nothing between the two scans' stops is beyond a whisker. */
  lemma MiddleNotBeyond(s: seq<real>, i: int, j: int, low: Number, high: Number)
    requires Ascending(s) && i == LowEnd(s, low) && j == HighEnd(s, high) && i <= j + 1
    ensures forall k :: i <= k < j + 1 ==> !Beyond(s[k], low, high)
  {
    forall k | i <= k < j + 1 ensures !Beyond(s[k], low, high) {
      if Le(Finite(s[k]), low) {
        LeLeft(s[i], s[k], low);
      }
      if Ge(Finite(s[k]), high) {
        GeLeft(s[j], s[k], high);
      }
    }
  }

  lemma SubZero(x: Number)
    ensures Sub(x, Finite(0.0)) == x && Add(x, Finite(0.0)) == x
  {
  }

  lemma {:induction false} ReverseMultiset(s: seq<real>)
    ensures multiset(Reverse(s)) == multiset(s)
  {
    if |s| > 0 {
      ReverseMultiset(s[1..]);
      assert s == [s[0]] + s[1..];
    }
  }

  /**
   * With a fence of zero (the default outlier factor) and whiskers in order, the
   * fence scans and the threshold pass find the same values, so every outlier
   * of a sorted group is listed exactly twice.
   */
  lemma ZeroFenceListsTwice(s: seq<real>, low: Number, high: Number)
    requires Ascending(s) && Lt(low, high)
    ensures var scanned := s[..LowEnd(s, low)] + s[HighEnd(s, high) + 1..];
            multiset(OutlierList(s, low, high, Finite(0.0))) == multiset(scanned) + multiset(scanned)
  {
    SubZero(low);
    SubZero(high);
    OutsideOfAscending(s, low, high);
    var i, j := LowEnd(s, low), HighEnd(s, high);
    ReverseMultiset(s[j + 1..]);
    assert OutlierList(s, low, high, Finite(0.0)) == s[..i] + Reverse(s[j + 1..]) + (s[..i] + s[j + 1..]);
  }

  // ---------------------------------------------------------------------
  // The record of one group
  // ---------------------------------------------------------------------

  /** A cell of a category column: a label or a number. */
  datatype Cell = Text(text: string) | Num(x: real)

  /** One entry of the plot data: the statistics of one group. */
  datatype BoxWhiskerData = BoxWhiskerData(
    labelName: Option<Cell>,
    q1: Number,
    median: Number,
    q3: Number,
    minimum: int,
    maximum: int,
    mean: Number,
    lowWhisker: Number,
    highWhisker: Number,
    numDataPoints: nat,
    points: seq<real>,
    outliers: seq<real>,
    outlierIndexes: (int, int))

  /**
   * The record for a group whose values are `s` after the sort. An empty group
   * makes `d3.min(values).toString()` throw.
   */
  function StatsOf(labelName: Option<Cell>, s: seq<real>, f: Fractions): (r: Result<BoxWhiskerData>)
    ensures r.Ok? <==> |s| > 0
  {
    if |s| == 0 then Err(TypeError("d3.min(values) is undefined"))
    else
      var q1, q3 := Quantile(s, f.boxBottom), Quantile(s, f.boxTop);
      var low, high := Quantile(s, f.lowWhisker), Quantile(s, f.highWhisker);
      var fence := Fence(q1, q3, f.outlierFactor);
      Ok(BoxWhiskerData(
        labelName, q1, Median(s), q3,
        Trunc(SeqMin(s).value), Trunc(SeqMax(s).value), Mean(s),
        low, high, |s|, s,
        OutlierList(s, low, high, fence),
        (LowEnd(s, Sub(low, fence)), HighEnd(s, Add(high, fence)))))
  }

  /** The record's whiskers are the quantiles at the whisker fractions. */
  lemma StatsWhiskers(labelName: Option<Cell>, s: seq<real>, f: Fractions)
    requires |s| > 0
    ensures StatsOf(labelName, s, f).value.lowWhisker == Quantile(s, f.lowWhisker)
    ensures StatsOf(labelName, s, f).value.highWhisker == Quantile(s, f.highWhisker)
  {
  }

  /**
   * Sorts one group's values in place and builds its record (lines 219-263).
   */
  method GroupStatistics(values: array<real>, labelName: Option<Cell>, f: Fractions)
    returns (r: Result<BoxWhiskerData>)
    modifies values
    ensures values[..] == SortSeq(old(values[..]))
    ensures r == StatsOf(labelName, values[..], f)
  {
    SortAscending(values);
    var s := values[..];
    var q1, q3 := Quantile(s, f.boxBottom), Quantile(s, f.boxTop);
    var low, high := Quantile(s, f.lowWhisker), Quantile(s, f.highWhisker);
    var fence := Fence(q1, q3, f.outlierFactor);
    var outliers, i, j := CollectOutliers(values, low, high, fence);
    var least, greatest := SeqMin(s), SeqMax(s);
    if least.None? {
      return Err(TypeError("d3.min(values) is undefined"));
    }
    r := Ok(BoxWhiskerData(
      labelName, q1, Median(s), q3,
      Trunc(least.value), Trunc(greatest.value), Mean(s),
      low, high, values.Length, s, outliers, (i, j)));
  }

  /** The least element of a sequence is the first element of its sorted form. */
  lemma MinIsSortedHead(v: seq<real>)
    requires |v| > 0
    ensures SeqMin(v).value == SortSeq(v)[0] && SeqMax(v).value == SortSeq(v)[|v| - 1]
  {
    SortedHeadIsMin(v);
    SortedLastIsMax(v);
  }

  lemma SortedHeadIsMin(v: seq<real>)
    requires |v| > 0
    ensures SeqMin(v).value == SortSeq(v)[0]
  {
    var m := SeqMin(v).value;
    HeadOfRearrangement(SortSeq(v), v, m);
  }

  lemma SortedLastIsMax(v: seq<real>)
    requires |v| > 0
    ensures SeqMax(v).value == SortSeq(v)[|v| - 1]
  {
    var n := SeqMax(v).value;
    LastOfRearrangement(SortSeq(v), v, n);
  }

  /** An ascending rearrangement of `v` starts with the least value of `v`. */
  lemma HeadOfRearrangement(t: seq<real>, v: seq<real>, m: real)
    requires Ascending(t) && multiset(t) == multiset(v)
    requires m in v && forall k :: 0 <= k < |v| ==> m <= v[k]
    ensures |t| > 0 && t[0] == m
  {
    assert m in multiset(t) by {
      assert m in multiset(v);
    }
    AscendingHeadIsLeast(t, m);
    assert t[0] in v by {
      assert t[0] in multiset(t);
    }
    var k :| 0 <= k < |v| && v[k] == t[0];
  }

  /** An ascending rearrangement of `v` ends with the greatest value of `v`. */
  lemma LastOfRearrangement(t: seq<real>, v: seq<real>, n: real)
    requires Ascending(t) && multiset(t) == multiset(v)
    requires n in v && forall k :: 0 <= k < |v| ==> v[k] <= n
    ensures |t| > 0 && t[|t| - 1] == n
  {
    assert n in multiset(t) by {
      assert n in multiset(v);
    }
    assert n in t;
    var i :| 0 <= i < |t| && t[i] == n;
    assert t[i] <= t[|t| - 1];
    assert t[|t| - 1] in v by {
      assert t[|t| - 1] in multiset(t);
    }
    var k :| 0 <= k < |v| && v[k] == t[|t| - 1];
  }

  /**
   * What a group's record holds: the sorted values, as many points as values,
   * the median of the values and the integer parts of their least and greatest
   * value; a group without values throws.
   */
  lemma StatsOfGroup(labelName: Option<Cell>, v: seq<real>, f: Fractions)
    ensures StatsOf(labelName, SortSeq(v), f).Err? <==> |v| == 0
    ensures |v| > 0 ==>
      var d := StatsOf(labelName, SortSeq(v), f).value;
      && Ascending(d.points) && multiset(d.points) == multiset(v)
      && d.numDataPoints == |v| && d.labelName == labelName
      && d.median == Median(v)
      && d.minimum == Trunc(SeqMin(v).value) && d.maximum == Trunc(SeqMax(v).value)
      && d.mean.Finite? && SeqMin(v).value <= d.mean.r <= SeqMax(v).value
  {
    if |v| > 0 {
      var t := SortSeq(v);
      MinIsSortedHead(v);
      ExtremesOfAscending(t);
      SortSeqIdempotent(v);
      forall k | 0 <= k < |t| ensures t[0] <= t[k] <= t[|t| - 1] {
      }
      MeanBounds(t, t[0], t[|t| - 1]);
    }
  }

  /**
   * With fractions `0 <= low <= bottom <= 0.5 <= top <= high <= 1` the quantiles
   * of an ascending group are ordered: least value, low whisker, first
   * quartile, median, third quartile, high whisker, greatest value.
   */
  lemma QuantilesOrdered(s: seq<real>, lo: real, bottom: real, top: real, hi: real)
    requires Ascending(s) && |s| > 0
    requires 0.0 <= lo <= bottom <= 0.5 <= top <= hi <= 1.0
    ensures s[0] <= Quantile(s, Finite(lo)).r <= Quantile(s, Finite(bottom)).r
            <= Median(s).r <= Quantile(s, Finite(top)).r <= Quantile(s, Finite(hi)).r <= s[|s| - 1]
  {
    SortSeqOfAscending(s);
    assert Median(s) == Quantile(s, Finite(0.5));
    QuantileBetween(s, lo);
    QuantileBetween(s, hi);
    QuantileMonotone(s, lo, bottom);
    QuantileMonotone(s, bottom, 0.5);
    QuantileMonotone(s, 0.5, top);
    QuantileMonotone(s, top, hi);
  }

  /** The same order in the record of the group. */
  lemma StatsOrdered(labelName: Option<Cell>, s: seq<real>, lo: real, bottom: real, top: real, hi: real, factor: Number)
    requires Ascending(s) && |s| > 0
    requires 0.0 <= lo <= bottom <= 0.5 <= top <= hi <= 1.0
    ensures var d := StatsOf(labelName, s, Fractions(Finite(bottom), Finite(top), Finite(lo), Finite(hi), factor)).value;
      && d.lowWhisker.Finite? && d.q1.Finite? && d.median.Finite? && d.q3.Finite? && d.highWhisker.Finite?
      && s[0] <= d.lowWhisker.r <= d.q1.r <= d.median.r <= d.q3.r <= d.highWhisker.r <= s[|s| - 1]
  {
    var f := Fractions(Finite(bottom), Finite(top), Finite(lo), Finite(hi), factor);
    var d := StatsOf(labelName, s, f).value;
    assert d.lowWhisker == Quantile(s, Finite(lo)) && d.q1 == Quantile(s, Finite(bottom))
        && d.median == Median(s) && d.q3 == Quantile(s, Finite(top))
        && d.highWhisker == Quantile(s, Finite(hi));
    RecordOrdered(d, s, lo, bottom, top, hi);
  }

  lemma RecordOrdered(d: BoxWhiskerData, s: seq<real>, lo: real, bottom: real, top: real, hi: real)
    requires Ascending(s) && |s| > 0
    requires 0.0 <= lo <= bottom <= 0.5 <= top <= hi <= 1.0
    requires d.lowWhisker == Quantile(s, Finite(lo)) && d.q1 == Quantile(s, Finite(bottom))
    requires d.median == Median(s) && d.q3 == Quantile(s, Finite(top))
    requires d.highWhisker == Quantile(s, Finite(hi))
    ensures && d.lowWhisker.Finite? && d.q1.Finite? && d.median.Finite? && d.q3.Finite? && d.highWhisker.Finite?
            && s[0] <= d.lowWhisker.r <= d.q1.r <= d.median.r <= d.q3.r <= d.highWhisker.r <= s[|s| - 1]
  {
    QuantilesOrdered(s, lo, bottom, top, hi);
  }
}
