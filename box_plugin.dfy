/**
 * The `d3.box` plugin: a chart object whose settings its accessors change in
 * place, and the drawing of one box plot, which in compute-from-points mode
 * sorts the record's points and writes its statistics back onto it, and in
 * either mode derives the data arrays of the plot's layers.
 */
module BoxPlugin {
  import opened JsNumber
  import opened Seqs
  import opened Wrappers
  import opened D3Arrays
  import opened KeyedJoin
  import BoxWhiskerStats

  /** What `whiskers` holds: the plugin's `boxWhiskers`, or a caller's function returning two fixed indices. */
  datatype WhiskerRule = BoxWhiskers | Indices(lo: int, hi: int)

  /** What `quartiles` holds: the plugin's `boxQuartiles`, or a caller's function taking quantiles at three other fractions. */
  datatype QuartileRule = BoxQuartiles | QuantilesAt(p0: Number, p1: Number, p2: Number)

  /** What `mean` holds: the plugin's `mean` (`d3.mean`), or a caller's function returning a constant. */
  datatype MeanRule = D3Mean | ConstantMean(v: Number)

  /**
   * The settings of one chart. A domain or range is `None` while unset and
   * `Some` of the constant a caller stored; `tickFormat` names the format the
   * caller supplied.
   */
  datatype Settings = Settings(
    width: real,
    height: real,
    duration: real,
    domain: Option<(Number, Number)>,
    range: Option<(Number, Number)>,
    whiskers: Option<WhiskerRule>,
    quartiles: QuartileRule,
    showLabels: bool,
    showDataPoints: bool,
    tickFormat: Option<string>)

  /**
   * The plugin's own scope. Its `mean` is the function declared beside
   * `boxWhiskers`, which `box.mean(x)` reassigns for every chart at once.
   */
  class PluginScope {
    var mean: MeanRule

    constructor ()
      ensures mean == D3Mean
    {
      mean := D3Mean;
    }
  }

  /** The chart `d3.box()` returns, with its closure variables as fields. */
  class BoxChart {
    var width: real
    var height: real
    var duration: real
    var domain: Option<(Number, Number)>
    var range: Option<(Number, Number)>
    var whiskers: Option<WhiskerRule>
    var quartiles: QuartileRule
    var showLabels: bool
    var showDataPoints: bool
    var tickFormat: Option<string>
    const scope: PluginScope

    /** The current settings; the accessors called without an argument return these fields. */
    function Config(): Settings
      reads this
    {
      Settings(width, height, duration, domain, range, whiskers, quartiles,
               showLabels, showDataPoints, tickFormat)
    }

    /** `d3.box()`: every setting at its default. */
    constructor (scope: PluginScope)
      ensures this.scope == scope
      ensures Config() == Settings(1.0, 1.0, 0.0, None, None, Some(BoxWhiskers), BoxQuartiles, true, true, None)
    {
      width, height, duration := 1.0, 1.0, 0.0;
      domain, range := None, None;
      whiskers, quartiles := Some(BoxWhiskers), BoxQuartiles;
      showLabels, showDataPoints := true, true;
      tickFormat := None;
      this.scope := scope;
    }

    method SetWidth(x: real) returns (chart: BoxChart)
      modifies this
      ensures chart == this && Config() == old(Config()).(width := x)
    {
      width := x;
      chart := this;
    }

    method SetHeight(x: real) returns (chart: BoxChart)
      modifies this
      ensures chart == this && Config() == old(Config()).(height := x)
    {
      height := x;
      chart := this;
    }

    method SetTickFormat(x: Option<string>) returns (chart: BoxChart)
      modifies this
      ensures chart == this && Config() == old(Config()).(tickFormat := x)
    {
      tickFormat := x;
      chart := this;
    }

    method SetDuration(x: real) returns (chart: BoxChart)
      modifies this
      ensures chart == this && Config() == old(Config()).(duration := x)
    {
      duration := x;
      chart := this;
    }

    /** `null` clears the domain; any other value is kept as a constant function. */
    method SetDomain(x: Option<(Number, Number)>) returns (chart: BoxChart)
      modifies this
      ensures chart == this && Config() == old(Config()).(domain := x)
    {
      domain := x;
      chart := this;
    }

    /** `null` clears the range; any other value is kept as a constant function. */
    method SetRange(x: Option<(Number, Number)>) returns (chart: BoxChart)
      modifies this
      ensures chart == this && Config() == old(Config()).(range := x)
    {
      range := x;
      chart := this;
    }

    method SetWhiskers(x: Option<WhiskerRule>) returns (chart: BoxChart)
      modifies this
      ensures chart == this && Config() == old(Config()).(whiskers := x)
    {
      whiskers := x;
      chart := this;
    }

    method SetShowLabels(x: bool) returns (chart: BoxChart)
      modifies this
      ensures chart == this && Config() == old(Config()).(showLabels := x)
    {
      showLabels := x;
      chart := this;
    }

    method SetShowDataPoints(x: bool) returns (chart: BoxChart)
      modifies this
      ensures chart == this && Config() == old(Config()).(showDataPoints := x)
    {
      showDataPoints := x;
      chart := this;
    }

    method SetQuartiles(x: QuartileRule) returns (chart: BoxChart)
      modifies this
      ensures chart == this && Config() == old(Config()).(quartiles := x)
    {
      quartiles := x;
      chart := this;
    }

    /** `box.mean(x)` replaces the scope's `mean`, which every chart reads. */
    method SetMean(x: MeanRule) returns (chart: BoxChart)
      modifies scope
      ensures chart == this && scope.mean == x
    {
      scope.mean := x;
      chart := this;
    }

    /**
     * `box(g)` for one datum `rec`: in compute-from-points mode the points are
     * sorted in place and the statistics written back; otherwise nothing is
     * written. The frame holds what the layers of a fresh group are drawn from.
     * The default whisker rule is taken as intended (`WhiskerIndices`).
     */
    method Render(rec: PlotRecord) returns (f: Frame)
      modifies rec, rec.points
      ensures rec.points == old(rec.points)
      ensures old(rec.computeFromPoints) ==>
        var d := SortSeq(old(rec.points[..]));
        var quartileData := QuartilesOf(quartiles, d);
        var meanData := MeanOf(scope.mean, d);
        var w := WhiskerIndices(whiskers, |d|);
        && rec.points[..] == d
        && rec.Fields() == Summarized(old(rec.Fields()), quartiles, scope.mean, d)
        && f == FrameOf(Config(), d, rec.minimum, rec.maximum, quartileData,
                        WhiskerData(d, w), Pick(d, OutlierIndices(w, |d|)), meanData)
      ensures !old(rec.computeFromPoints) ==>
        && unchanged(rec) && unchanged(rec.points)
        && f == FrameOf(Config(), rec.points[..], rec.minimum, rec.maximum,
                        [rec.q1, rec.median, rec.q3], Some([rec.lowWhisker, rec.highWhisker]),
                        Finites(rec.outliers), rec.mean)
    {
      var d: seq<real>;
      var quartileData: seq<Number>;
      var whiskerData: Option<seq<Number>>;
      var outlierData: seq<Number>;
      var meanData: Number;
      if rec.computeFromPoints {
        d := rec.Summarize(quartiles, scope.mean);
        quartileData := QuartilesOf(quartiles, d);
        meanData := MeanOf(scope.mean, d);
        var w := WhiskerIndices(whiskers, |d|);
        whiskerData := WhiskerData(d, w);
        outlierData := Pick(d, OutlierIndices(w, |d|));
      } else {
        d := rec.points[..];
        quartileData := [rec.q1, rec.median, rec.q3];
        whiskerData := Some([rec.lowWhisker, rec.highWhisker]);
        outlierData := Finites(rec.outliers);
        meanData := rec.mean;
      }
      f := FrameOf(Config(), d, rec.minimum, rec.maximum, quartileData, whiskerData, outlierData, meanData);
    }
  }

  /** The fields of a plot record other than the contents of its points. */
  datatype RecordFields = RecordFields(
    computeFromPoints: bool,
    numDataPoints: int,
    minimum: Number,
    maximum: Number,
    q1: Number,
    median: Number,
    q3: Number,
    lowWhisker: Number,
    highWhisker: Number,
    mean: Number,
    outliers: seq<real>)

  /** One datum of the selection the chart is called on. */
  class PlotRecord {
    var computeFromPoints: bool
    var points: array<real>
    var numDataPoints: int
    var minimum: Number
    var maximum: Number
    var q1: Number
    var median: Number
    var q3: Number
    var lowWhisker: Number
    var highWhisker: Number
    var mean: Number
    var outliers: seq<real>

    function Fields(): RecordFields
      reads this
    {
      RecordFields(computeFromPoints, numDataPoints, minimum, maximum, q1, median, q3,
                   lowWhisker, highWhisker, mean, outliers)
    }

    /**
     * The compute-from-points branch: sorts the points in place and writes the
     * quartiles, the 0.05 and 0.95 quantiles and the mean onto the record.
     */
    method Summarize(quartiles: QuartileRule, meanRule: MeanRule) returns (d: seq<real>)
      modifies this, points
      ensures points == old(points)
      ensures d == SortSeq(old(points[..])) && points[..] == d
      ensures Fields() == Summarized(old(Fields()), quartiles, meanRule, d)
    {
      SortAscending(points);
      d := points[..];
      var r := Summarized(Fields(), quartiles, meanRule, d);
      SummarizedKeepsRest(Fields(), quartiles, meanRule, d);
      WriteBack(r);
    }

    /** Lines 39-44: the derived statistics replace the record's own. */
    method WriteBack(r: RecordFields)
      requires r.(q1 := q1, median := median, q3 := q3, lowWhisker := lowWhisker,
                  highWhisker := highWhisker, mean := mean) == Fields()
      modifies this
      ensures points == old(points)
      ensures Fields() == r
    {
      q1, median, q3 := r.q1, r.median, r.q3;
      lowWhisker, highWhisker, mean := r.lowWhisker, r.highWhisker, r.mean;
    }

    /**
     * The record the box-whisker visual hands the chart, which never sets
     * `ComputeFromPoints`.
     */
    constructor (data: BoxWhiskerStats.BoxWhiskerData)
      ensures fresh(points) && points[..] == data.points
      ensures Fields() == RecordFields(false, data.numDataPoints,
        Finite(data.minimum as real), Finite(data.maximum as real),
        data.q1, data.median, data.q3, data.lowWhisker, data.highWhisker, data.mean, data.outliers)
    {
      computeFromPoints := false;
      points := new real[|data.points|](k requires 0 <= k < |data.points| => data.points[k]);
      numDataPoints := data.numDataPoints;
      minimum, maximum := Finite(data.minimum as real), Finite(data.maximum as real);
      q1, median, q3 := data.q1, data.median, data.q3;
      lowWhisker, highWhisker := data.lowWhisker, data.highWhisker;
      mean := data.mean;
      outliers := data.outliers;
    }
  }

  /**
   * The record after the compute-from-points write-back over the sorted points
   * `d`: the quartiles, the 0.05 and 0.95 quantiles and the mean replace the
   * corresponding fields; nothing else changes.
   */
  function Summarized(r: RecordFields, quartiles: QuartileRule, meanRule: MeanRule, d: seq<real>): RecordFields
  {
    var quartileData := QuartilesOf(quartiles, d);
    r.(q1 := quartileData[0], median := quartileData[1], q3 := quartileData[2],
       lowWhisker := Quantile(d, Finite(0.05)), highWhisker := Quantile(d, Finite(0.95)),
       mean := MeanOf(meanRule, d))
  }

  /** Summarizing touches only the quartiles, the whiskers and the mean. */
  lemma SummarizedKeepsRest(r: RecordFields, quartiles: QuartileRule, meanRule: MeanRule, d: seq<real>)
    ensures var n := Summarized(r, quartiles, meanRule, d);
      n.(q1 := r.q1, median := r.median, q3 := r.q3, lowWhisker := r.lowWhisker,
         highWhisker := r.highWhisker, mean := r.mean) == r
  {
  }

  /** `quartiles(d)`. */
  function QuartilesOf(rule: QuartileRule, d: seq<real>): (r: seq<Number>)
    ensures |r| == 3
  {
    match rule
    case BoxQuartiles => [Quantile(d, Finite(0.25)), Quantile(d, Finite(0.5)), Quantile(d, Finite(0.75))]
    case QuantilesAt(p0, p1, p2) => [Quantile(d, p0), Quantile(d, p1), Quantile(d, p2)]
  }

  /** `mean(d)`. */
  function MeanOf(rule: MeanRule, d: seq<real>): Number
  {
    match rule
    case D3Mean => Mean(d)
    case ConstantMean(v) => v
  }

  /**
   * `whiskers && whiskers.call(this, data, i)`, with `boxWhiskers` applied to
   * the sorted points, of length `n`: the rule as intended. As written the
   * default rule is handed the record and yields `[0, NaN]` (see
   * `BoxWhiskersAsWritten` and `DefaultWhiskersOfRecord`).
   */
  function WhiskerIndices(rule: Option<WhiskerRule>, n: nat): Option<(int, int)>
  {
    match rule
    case None => None
    case Some(BoxWhiskers) => Some((0, n - 1))
    case Some(Indices(lo, hi)) => Some((lo, hi))
  }

  /** `whiskerIndices && whiskerIndices.map(i => d[i])`. */
  function WhiskerData(d: seq<real>, w: Option<(int, int)>): (r: Option<seq<Number>>)
    ensures r.Some? <==> w.Some?
    ensures r.Some? ==> r.value == Pick(d, [w.value.0, w.value.1])
  {
    if w.None? then None else Some([Elem(d, w.value.0), Elem(d, w.value.1)])
  }

  /** `d3.range(0, w0).concat(d3.range(w1 + 1, n))`, or `d3.range(n)` without whiskers. */
  function OutlierIndices(w: Option<(int, int)>, n: nat): seq<int>
  {
    if w.None? then Range(0, n) else Range(0, w.value.0) + Range(w.value.1 + 1, n)
  }

  /** `indices.map(i => d[i])`: an index outside `d` gives `undefined`. */
  function Pick(d: seq<real>, indices: seq<int>): (r: seq<Number>)
    ensures |r| == |indices|
    ensures forall k :: 0 <= k < |r| ==> r[k] == Elem(d, indices[k])
  {
    seq(|indices|, k requires 0 <= k < |indices| => Elem(d, indices[k]))
  }

  function Finites(s: seq<real>): (r: seq<Number>)
    ensures |r| == |s|
    ensures forall k :: 0 <= k < |s| ==> r[k] == Finite(s[k])
  {
    seq(|s|, k requires 0 <= k < |s| => Finite(s[k]))
  }

  /** `value || 0`-style indexing: element `k`, or NaN (`undefined`) past the end. */
  function At(s: seq<Number>, k: nat): Number
  {
    if k < |s| then s[k] else NaN
  }

  /** `d3.set(d)` with every outlier value removed. */
  function NonOutliers(d: seq<real>, outlierData: seq<Number>): set<real>
  {
    set x | x in d && Finite(x) !in outlierData
  }

  /** The scale `x1`: its domain and range. */
  datatype Scale = Scale(domain: (Number, Number), range: (Number, Number))

  /** `x1(x)`. */
  function Apply(s: Scale, x: Number): Number
  {
    Linear(s.domain.0, s.domain.1, s.range.0, s.range.1, x)
  }

  /**
   * The data each layer of a fresh group is drawn from. The mean, outlier and
   * data-point layers are joined by value (`Number` as the key); the others by
   * position. Text layers are empty while labels are off.
   */
  datatype Frame = Frame(
    scale: Scale,
    center: seq<seq<Number>>,
    box: seq<seq<Number>>,
    medianLine: seq<Number>,
    meanPoint: seq<Number>,
    whiskerLines: seq<Number>,
    outlierPoints: seq<Number>,
    dataPoints: Option<set<real>>,
    boxTicks: seq<Number>,
    whiskerTicks: seq<Number>)

  /** The layer data `box(g)` derives for one datum. */
  function FrameOf(s: Settings, d: seq<real>, min: Number, max: Number, quartileData: seq<Number>,
                   whiskerData: Option<seq<Number>>, outlierData: seq<Number>, meanData: Number): Frame
  {
    var whiskerList := if whiskerData.Some? then whiskerData.value else [];
    Frame(
      Scale(if s.domain.Some? then s.domain.value else (min, max),
            if s.range.Some? then s.range.value else (Finite(s.height), Finite(0.0))),
      if whiskerData.Some? then [whiskerData.value] else [],
      [quartileData],
      [At(quartileData, 1)],
      [meanData],
      whiskerList,
      outlierData,
      if s.showDataPoints then Some(NonOutliers(d, outlierData)) else None,
      if s.showLabels then quartileData else [],
      if s.showLabels then whiskerList else [])
  }

  /** The box rectangle's `y`: the scaled top quartile. */
  function BoxY(f: Frame): Number
  {
    Apply(f.scale, At(BoxData(f), 2))
  }

  /** The box rectangle's `height`: `x1(d[0]) - x1(d[2])`. */
  function BoxHeight(f: Frame): Number
  {
    Sub(Apply(f.scale, At(BoxData(f), 0)), Apply(f.scale, At(BoxData(f), 2)))
  }

  /** The box layer's one datum, the quartiles. */
  function BoxData(f: Frame): seq<Number>
  {
    if |f.box| > 0 then f.box[0] else []
  }

  /** `d` strictly increases. */
  predicate Increasing(s: seq<int>)
  {
    forall i, j :: 0 <= i < j < |s| ==> s[i] < s[j]
  }

  // ---------------------------------------------------------------- properties

  /**
   * The outlier indices are exactly the indices from 0 up to the low whisker
   * index and from past the high one up to `n`; without whiskers they are
   * every index of the points.
   */
  lemma OutlierIndicesExact(w: Option<(int, int)>, n: nat, k: int)
    ensures k in OutlierIndices(w, n) <==>
              if w.None? then 0 <= k < n else 0 <= k < w.value.0 || w.value.1 < k < n
  {
    var r := OutlierIndices(w, n);
    if w.Some? {
      var a, b := Range(0, w.value.0), Range(w.value.1 + 1, n);
      assert r == a + b;
      if 0 <= k < w.value.0 {
        assert r[k] == k;
      }
      if w.value.1 < k < n {
        assert r[|a| + k - w.value.1 - 1] == b[k - w.value.1 - 1] == k;
      }
      if k in r {
        var i :| 0 <= i < |r| && r[i] == k;
        if i < |a| {
          assert r[i] == a[i];
        } else {
          assert r[i] == b[i - |a|];
        }
      }
    } else {
      if 0 <= k < n {
        assert r[k] == k;
      }
    }
  }

  /** The outlier indices increase, unless custom whisker indices cross. */
  lemma OutlierIndicesIncrease(w: Option<(int, int)>, n: nat)
    requires w.Some? ==> w.value.0 <= w.value.1 + 1
    ensures Increasing(OutlierIndices(w, n))
  {
    if w.Some? {
      var a, b := Range(0, w.value.0), Range(w.value.1 + 1, n);
      var r := a + b;
      forall i, j | 0 <= i < j < |r| ensures r[i] < r[j] {
        if j < |a| {
          assert r[i] == i && r[j] == j;
        } else if i < |a| {
          assert r[i] == i < w.value.0 && r[j] == b[j - |a|] > w.value.1;
        } else {
          assert r[i] == b[i - |a|] && r[j] == b[j - |a|];
        }
      }
    }
  }

  /**
   * With the default whiskers the whisker values are the least and the greatest
   * point and nothing is an outlier.
   */
  lemma DefaultWhiskersSpanPoints(d: seq<real>)
    requires Ascending(d) && |d| > 0
    ensures WhiskerData(d, WhiskerIndices(Some(BoxWhiskers), |d|))
              == Some([Finite(SeqMin(d).value), Finite(SeqMax(d).value)])
    ensures Pick(d, OutlierIndices(WhiskerIndices(Some(BoxWhiskers), |d|), |d|)) == []
  {
    ExtremesOfAscending(d);
  }

  /**
   * Every outlier value is the point at its index; with (default or custom)
   * whisker indices inside the points every outlier value is one of the points.
   */
  lemma OutliersArePoints(d: seq<real>, w: Option<(int, int)>)
    requires w.Some? ==> 0 <= w.value.0 <= |d| && -1 <= w.value.1
    ensures forall x :: x in Pick(d, OutlierIndices(w, |d|)) ==> x.Finite? && x.r in d
  {
    var idx := OutlierIndices(w, |d|);
    forall x | x in Pick(d, idx) ensures x.Finite? && x.r in d {
      var k :| 0 <= k < |idx| && Pick(d, idx)[k] == x;
      OutlierIndicesExact(w, |d|, idx[k]);
    }
  }

  /**
   * The data points and the outliers found among the points split the distinct
   * points between them: each distinct point is in exactly one of the two.
   */
  lemma DataPointsSplit(d: seq<real>, outlierData: seq<Number>)
    ensures NonOutliers(d, outlierData) + (set x | x in d && Finite(x) in outlierData) == Elements(d)
    ensures NonOutliers(d, outlierData) !! (set x | x in d && Finite(x) in outlierData)
  {
    var outs := set x | x in d && Finite(x) in outlierData;
    forall x | x in Elements(d) ensures x in NonOutliers(d, outlierData) + outs {
      if Finite(x) in outlierData {
        assert x in outs;
      } else {
        assert x in NonOutliers(d, outlierData);
      }
    }
  }

  /** With no outliers the data-point layer is every distinct point. */
  lemma NoOutliersAllDataPoints(d: seq<real>)
    ensures NonOutliers(d, []) == Elements(d)
  {
    forall x | x in Elements(d) ensures x in NonOutliers(d, []) {
    }
  }

  /**
   * The fixed layers have one datum each, the whisker layers one per whisker
   * value, the box ticks one per quartile; the center line exists with the
   * whiskers, and the outlier layer is bound to the outlier values.
   */
  lemma FrameCardinalities(s: Settings, d: seq<real>, min: Number, max: Number, quartileData: seq<Number>,
                           whiskerData: Option<seq<Number>>, outlierData: seq<Number>, meanData: Number)
    requires |quartileData| == 3 && (whiskerData.Some? ==> |whiskerData.value| == 2)
    ensures var f := FrameOf(s, d, min, max, quartileData, whiskerData, outlierData, meanData);
      && |f.center| == (if whiskerData.Some? then 1 else 0)
      && |f.box| == 1 && |f.medianLine| == 1 && |f.meanPoint| == 1
      && |f.whiskerLines| == (if whiskerData.Some? then 2 else 0)
      && |f.whiskerTicks| == (if whiskerData.Some? && s.showLabels then 2 else 0)
      && |f.boxTicks| == (if s.showLabels then 3 else 0)
      && f.medianLine[0] == quartileData[1]
      && f.outlierPoints == outlierData
      && (f.dataPoints.Some? <==> s.showDataPoints)
  {
  }

  /**
   * The outlier layer is keyed by value (`.data(outlierData, Number)`): in a
   * fresh group each distinct outlier value enters once, so a repeated
   * outlier draws one circle.
   */
  lemma OutlierCircles(f: Frame)
    ensures var j := Join({}, f.outlierPoints);
      && Distinct(j.enter) && j.update == [] && j.exit == {}
      && Elements(j.enter) == Elements(f.outlierPoints)
      && |j.enter| == |Elements(f.outlierPoints)|
  {
    JoinFresh(f.outlierPoints);
  }

  /**
   * The mean layer is keyed by value, so it always draws one circle: the
   * layer's single datum enters a fresh group.
   */
  lemma OneMeanCircle(f: Frame)
    requires |f.meanPoint| == 1
    ensures Join({}, f.meanPoint).enter == f.meanPoint
  {
    var x := f.meanPoint[0];
    assert f.meanPoint[1..] == [];
    assert Walk({}, f.meanPoint[1..], {x}) == ([], []);
    assert Walk({}, f.meanPoint, {}).0 == [x] + Walk({}, f.meanPoint[1..], {} + {x}).0;
  }

  /**
   * Unless a domain and range were set, the scale sends the record's minimum to
   * the chart's height and its maximum to 0; a degenerate domain sends everything to the height.
   */
  lemma DefaultScaleEnds(s: Settings, d: seq<real>, min: real, max: real, quartileData: seq<Number>,
                         whiskerData: Option<seq<Number>>, outlierData: seq<Number>, meanData: Number)
    requires s.domain.None? && s.range.None?
    ensures var f := FrameOf(s, d, Finite(min), Finite(max), quartileData, whiskerData, outlierData, meanData);
      && f.scale == Scale((Finite(min), Finite(max)), (Finite(s.height), Finite(0.0)))
      && (min != max ==> Apply(f.scale, Finite(min)) == Finite(s.height) && Apply(f.scale, Finite(max)) == Finite(0.0))
      && (min == max ==> Apply(f.scale, Finite(min)) == Finite(s.height))
  {
    if min != max {
      LinearEnds(min, max, s.height, 0.0);
    }
  }

  /**
   * With the default range, an increasing domain and a lower quartile at most
   * the upper one, the box has a finite, non-negative height and its top is the
   * scaled upper quartile.
   */
  lemma BoxHeightNonNegative(s: Settings, d: seq<real>, min: Number, max: Number, quartileData: seq<Number>,
                             whiskerData: Option<seq<Number>>, outlierData: seq<Number>, meanData: Number)
    requires s.range.None? && s.height >= 0.0
    requires var dom := if s.domain.Some? then s.domain.value else (min, max);
      dom.0.Finite? && dom.1.Finite? && dom.0.r < dom.1.r
    requires |quartileData| == 3 && quartileData[0].Finite? && quartileData[2].Finite?
    requires quartileData[0].r <= quartileData[2].r
    ensures var f := FrameOf(s, d, min, max, quartileData, whiskerData, outlierData, meanData);
      && BoxY(f) == Apply(f.scale, quartileData[2])
      && BoxHeight(f).Finite? && BoxHeight(f).r >= 0.0
  {
    var f := FrameOf(s, d, min, max, quartileData, whiskerData, outlierData, meanData);
    var dom := f.scale.domain;
    LinearAntitone(dom.0.r, dom.1.r, s.height, 0.0, quartileData[0].r, quartileData[2].r);
  }

  // ------------------------------------------------------------------ finding

  /**
   * `boxWhiskers(d)`: `[0, d.length - 1]` for an argument whose `length` is
   * `len`. The plugin passes the record instead of its points, and a record
   * has no `length`: `len` is `undefined`, which is NaN.
   */
  function BoxWhiskersAsWritten(len: Number): (r: seq<Number>)
    ensures |r| == 2 && r[0] == Finite(0.0)
    ensures len.Finite? ==> r[1] == Finite(len.r - 1.0)
    ensures len.NaN? ==> r[1].NaN?
  {
    [Finite(0.0), Sub(len, Finite(1.0))]
  }

  /** `d[i]` for an index that is a number: NaN unless it is a whole index of `d`. */
  function ElemAt(d: seq<real>, i: Number): (r: Number)
    ensures i.NaN? ==> r.NaN?
  {
    if i.Finite? && i.r == i.r.Floor as real then Elem(d, i.r.Floor) else NaN
  }

  /** A scale applied to NaN (`undefined`) gives NaN. */
  lemma ApplyNaN(sc: Scale)
    ensures Apply(sc, NaN).NaN?
  {
    var t := Uninterpolate(sc.domain.0, sc.domain.1, NaN);
    assert t.NaN?;
    assert Mul(sc.range.1, t).NaN?;
  }

  /** A whole number index reads the element there. */
  lemma ElemAtWhole(d: seq<real>, k: int)
    ensures ElemAt(d, Finite(k as real)) == Elem(d, k)
  {
    assert (k as real).Floor == k;
  }

  /**
   * As written, the default whiskers of a compute-from-points record are its
   * first point and `undefined`: the center line and the upper whisker are
   * placed at NaN. Called with the points, as intended, they are the least and
   * the greatest point.
   */
  lemma DefaultWhiskersOfRecord(d: seq<real>, sc: Scale)
    requires Ascending(d) && |d| > 0
    ensures var asWritten := BoxWhiskersAsWritten(NaN);
      && ElemAt(d, asWritten[0]) == Finite(SeqMin(d).value)
      && ElemAt(d, asWritten[1]) == NaN
      && Apply(sc, ElemAt(d, asWritten[1])).NaN?
    ensures var intended := BoxWhiskersAsWritten(Finite(|d| as real));
      && ElemAt(d, intended[0]) == Finite(SeqMin(d).value)
      && ElemAt(d, intended[1]) == Finite(SeqMax(d).value)
      && WhiskerData(d, WhiskerIndices(Some(BoxWhiskers), |d|)) == Some([ElemAt(d, intended[0]), ElemAt(d, intended[1])])
  {
    ExtremesOfAscending(d);
    ApplyNaN(sc);
    ElemAtWhole(d, 0);
    ElemAtWhole(d, |d| - 1);
    var intended := BoxWhiskersAsWritten(Finite(|d| as real));
    assert intended[1] == Finite((|d| - 1) as real);
  }

  /**
   * With the plugin's own quartile and mean functions the write-back puts on
   * the record the quartiles in order between the whisker quantiles, the
   * `d3.median` of the points as the median and a mean within the points' span.
   */
  lemma DefaultWriteBack(r: RecordFields, d: seq<real>)
    requires Ascending(d) && |d| > 0
    ensures var n := Summarized(r, BoxQuartiles, D3Mean, d);
      && n.median == Median(d)
      && n.lowWhisker.Finite? && n.q1.Finite? && n.median.Finite? && n.q3.Finite? && n.highWhisker.Finite?
      && d[0] <= n.lowWhisker.r <= n.q1.r <= n.median.r <= n.q3.r <= n.highWhisker.r <= d[|d| - 1]
      && n.mean.Finite? && d[0] <= n.mean.r <= d[|d| - 1]
      && n.(q1 := r.q1, median := r.median, q3 := r.q3, lowWhisker := r.lowWhisker,
            highWhisker := r.highWhisker, mean := r.mean) == r
  {
    var n := Summarized(r, BoxQuartiles, D3Mean, d);
    assert n.q1 == Quantile(d, Finite(0.25)) && n.median == Quantile(d, Finite(0.5));
    assert n.q3 == Quantile(d, Finite(0.75)) && n.mean == Mean(d);
    MedianOfAscending(d);
    BoxWhiskerStats.QuantilesOrdered(d, 0.05, 0.25, 0.75, 0.95);
    MeanWithinSpan(d);
  }

  /** The mean of ascending points lies between the first and the last. */
  lemma MeanWithinSpan(d: seq<real>)
    requires Ascending(d) && |d| > 0
    ensures Mean(d).Finite? && d[0] <= Mean(d).r <= d[|d| - 1]
  {
    forall k | 0 <= k < |d| ensures d[0] <= d[k] <= d[|d| - 1] {
    }
    MeanBounds(d, d[0], d[|d| - 1]);
  }
}
