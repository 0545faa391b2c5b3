/**
 * `createPlotAndAxesScales` of the box-whisker visual: one pass over the
 * records folds them into the least minimum, the greatest maximum and the
 * greatest high whisker, and collects the medians; the median of the medians
 * then bounds the top of the shared value scale.
 */
module BoxWhiskerScales {
  import opened JsNumber
  import opened Wrappers
  import opened D3Arrays
  import opened BoxWhiskerStats
  import Seqs

  /** The box scale's and the y axis's domains and ranges. */
  datatype Scales = Scales(boxDomain: (Number, Number), boxRange: (real, real),
                           yAxesDomain: (Number, Number), yAxesRange: (real, real))

  /** `Goal != null ? Goal : otherwise`. */
  function Seed(goal: Option<real>, otherwise: Number): (r: Number)
    ensures goal.Some? ==> r == Finite(goal.value)
    ensures goal.None? ==> r == otherwise
  {
    if goal.Some? then Finite(goal.value) else otherwise
  }

  /** The running minimum `if (x < m) m = x` over `xs`, from `seed`. */
  function Least(seed: Number, xs: seq<Number>): Number
  {
    if |xs| == 0 then seed
    else
      var m := Least(seed, xs[..|xs| - 1]);
      if Lt(xs[|xs| - 1], m) then xs[|xs| - 1] else m
  }

  /** The running maximum `if (x > m) m = x` over `xs`, from `seed`. */
  function Greatest(seed: Number, xs: seq<Number>): Number
  {
    if |xs| == 0 then seed
    else
      var m := Greatest(seed, xs[..|xs| - 1]);
      if Gt(xs[|xs| - 1], m) then xs[|xs| - 1] else m
  }

  /** One more step of the running minimum. */
  lemma LeastStep(seed: Number, xs: seq<Number>, i: nat)
    requires i < |xs|
    ensures Least(seed, xs[..i + 1]) == if Lt(xs[i], Least(seed, xs[..i])) then xs[i] else Least(seed, xs[..i])
  {
    assert xs[..i + 1][..i] == xs[..i];
  }

  /** One more step of the running maximum. */
  lemma GreatestStep(seed: Number, xs: seq<Number>, i: nat)
    requires i < |xs|
    ensures Greatest(seed, xs[..i + 1]) == if Gt(xs[i], Greatest(seed, xs[..i])) then xs[i] else Greatest(seed, xs[..i])
  {
    assert xs[..i + 1][..i] == xs[..i];
  }

  /** The running minimum is the seed or one of `xs`, and neither the seed nor any of `xs` is below it. */
  lemma {:induction false} LeastIsLeast(seed: Number, xs: seq<Number>)
    ensures Least(seed, xs) == seed || Least(seed, xs) in xs
    ensures !Lt(seed, Least(seed, xs))
    ensures forall i :: 0 <= i < |xs| ==> !Lt(xs[i], Least(seed, xs))
  {
    if |xs| > 0 {
      var ys, x := xs[..|xs| - 1], xs[|xs| - 1];
      LeastIsLeast(seed, ys);
      var m := Least(seed, ys);
      if Lt(x, m) {
        forall i | 0 <= i < |xs| ensures !Lt(xs[i], x) {
          if i < |ys| {
            assert xs[i] == ys[i];
            if Lt(xs[i], x) {
              LtTransitive(xs[i], x, m);
            }
          }
        }
        if Lt(seed, x) {
          LtTransitive(seed, x, m);
        }
      } else {
        forall i | 0 <= i < |xs| ensures !Lt(xs[i], m) {
          if i < |ys| {
            assert xs[i] == ys[i];
          }
        }
      }
    }
  }

  /** The running maximum is the seed or one of `xs`, and neither the seed nor any of `xs` is above it. */
  lemma {:induction false} GreatestIsGreatest(seed: Number, xs: seq<Number>)
    ensures Greatest(seed, xs) == seed || Greatest(seed, xs) in xs
    ensures !Gt(seed, Greatest(seed, xs))
    ensures forall i :: 0 <= i < |xs| ==> !Gt(xs[i], Greatest(seed, xs))
  {
    if |xs| > 0 {
      var ys, x := xs[..|xs| - 1], xs[|xs| - 1];
      GreatestIsGreatest(seed, ys);
      var m := Greatest(seed, ys);
      if Gt(x, m) {
        forall i | 0 <= i < |xs| ensures !Gt(xs[i], x) {
          if i < |ys| {
            assert xs[i] == ys[i];
            if Gt(xs[i], x) {
              LtTransitive(m, x, xs[i]);
            }
          }
        }
        if Gt(seed, x) {
          LtTransitive(m, x, seed);
        }
      } else {
        forall i | 0 <= i < |xs| ensures !Gt(xs[i], m) {
          if i < |ys| {
            assert xs[i] == ys[i];
          }
        }
      }
    }
  }

  function Minimums(data: seq<BoxWhiskerData>): (r: seq<Number>)
    ensures |r| == |data| && forall i :: 0 <= i < |data| ==> r[i] == Finite(data[i].minimum as real)
  {
    seq(|data|, i requires 0 <= i < |data| => Finite(data[i].minimum as real))
  }

  function Maximums(data: seq<BoxWhiskerData>): (r: seq<Number>)
    ensures |r| == |data| && forall i :: 0 <= i < |data| ==> r[i] == Finite(data[i].maximum as real)
  {
    seq(|data|, i requires 0 <= i < |data| => Finite(data[i].maximum as real))
  }

  function HighWhiskers(data: seq<BoxWhiskerData>): (r: seq<Number>)
    ensures |r| == |data| && forall i :: 0 <= i < |data| ==> r[i] == data[i].highWhisker
  {
    seq(|data|, i requires 0 <= i < |data| => data[i].highWhisker)
  }

  function Medians(data: seq<BoxWhiskerData>): (r: seq<Number>)
    ensures |r| == |data| && forall i :: 0 <= i < |data| ==> r[i] == data[i].median
  {
    seq(|data|, i requires 0 <= i < |data| => data[i].median)
  }

  /**
   * The medians `d3.median` takes into account. It drops only NaN; this
   * keeps the finite values, which is the same list, since a record's
   * median comes from finite points and is never infinite.
   */
  function Numeric(xs: seq<Number>): (r: seq<real>)
    ensures |r| <= |xs|
    ensures forall i :: 0 <= i < |xs| && xs[i].Finite? ==> xs[i].r in r
  {
    if |xs| == 0 then []
    else
      var rest := Numeric(xs[1..]);
      assert forall i :: 1 <= i < |xs| ==> xs[i] == xs[1..][i - 1];
      (if xs[0].Finite? then [xs[0].r] else []) + rest
  }

  /**
   * The ratio of the median of medians to the maximum, raised to 0.30 when
   * below it. It is computed but takes no part in the result.
   */
  function ScaleFactor(medianOfMedians: Number, max: Number): (scale: Number)
    ensures scale.NaN? <==> Div(medianOfMedians, max).NaN?
    ensures !scale.NaN? ==> Le(Finite(0.30), scale)
    ensures Le(Finite(0.30), Div(medianOfMedians, max)) ==> scale == Div(medianOfMedians, max)
  {
    var s := Div(medianOfMedians, max);
    if Lt(s, Finite(0.30)) then Finite(0.30) else s
  }

  /** The scales for the records `data` (lines 470-514); no record at all throws. */
  function ScalesOf(data: seq<BoxWhiskerData>, goal: Option<real>, height: real, topMargin: real): (r: Result<Scales>)
    ensures r.Ok? <==> |data| > 0
  {
    if |data| == 0 then Err(TypeError("PlotData[0] is undefined"))
    else
      Ok(Domains(Least(Seed(goal, PosInf), Minimums(data)), Greatest(Seed(goal, NegInf), Maximums(data)),
                 Greatest(data[0].highWhisker, HighWhiskers(data)), Medians(data), height, topMargin))
  }

  /**
   * Lines 489-514 after the loop: `top` is the least of the maximum and the
   * high whisker raised by half its distance to the median of medians.
   */
  function Domains(min: Number, max: Number, highWhisker: Number, medians: seq<Number>, height: real, topMargin: real): (sc: Scales)
    ensures sc.boxDomain == sc.yAxesDomain && sc.boxDomain.0 == min
  {
    var medianOfMedians := Median(Numeric(medians));
    var top := Min(max, Add(Mul(Finite(0.5), Sub(highWhisker, medianOfMedians)), highWhisker));
    Scales((min, top), (height, 0.0), (min, top), (height + topMargin, topMargin))
  }

  /**
   * The `for (var i in data)` loop of lines 476-487: the running minimum and
   * maximum from the goal (or the infinities), the running high whisker from
   * the first record's, and the list of medians.
   */
  method Extents(data: seq<BoxWhiskerData>, goal: Option<real>)
    returns (min: Number, max: Number, highWhisker: Number, medians: seq<Number>)
    requires |data| > 0
    ensures min == Least(Seed(goal, PosInf), Minimums(data))
    ensures max == Greatest(Seed(goal, NegInf), Maximums(data))
    ensures highWhisker == Greatest(data[0].highWhisker, HighWhiskers(data))
    ensures medians == Medians(data)
  {
    var lowSeed, highSeed := Seed(goal, PosInf), Seed(goal, NegInf);
    ghost var mins, maxs, whiskers, meds := Minimums(data), Maximums(data), HighWhiskers(data), Medians(data);
    min, max, highWhisker := lowSeed, highSeed, data[0].highWhisker;
    medians := [];
    for i := 0 to |data|
      invariant min == Least(lowSeed, mins[..i])
      invariant max == Greatest(highSeed, maxs[..i])
      invariant highWhisker == Greatest(data[0].highWhisker, whiskers[..i])
      invariant medians == meds[..i]
    {
      LeastStep(lowSeed, mins, i);
      GreatestStep(highSeed, maxs, i);
      GreatestStep(data[0].highWhisker, whiskers, i);
      Seqs.TakeOneMore(meds, i);
      var rowMax, rowMin, rowWhisker := data[i].maximum, data[i].minimum, data[i].highWhisker;
      assert maxs[i] == Finite(rowMax as real) && mins[i] == Finite(rowMin as real) && whiskers[i] == rowWhisker;
      medians := medians + [data[i].median];
      if Gt(Finite(rowMax as real), max) {
        max := Finite(rowMax as real);
      }
      if Gt(rowWhisker, highWhisker) {
        highWhisker := rowWhisker;
      }
      if Lt(Finite(rowMin as real), min) {
        min := Finite(rowMin as real);
      }
    }
    Seqs.TakeAll(mins);
    Seqs.TakeAll(maxs);
    Seqs.TakeAll(whiskers);
    Seqs.TakeAll(meds);
  }

  /**
   * `createPlotAndAxesScales`: the extents of the records and the median of
   * their medians; the scale factor is computed and dropped; the domains end
   * at `top`.
   */
  method CreatePlotAndAxesScales(data: seq<BoxWhiskerData>, goal: Option<real>, height: real, topMargin: real)
    returns (r: Result<Scales>)
    ensures r == ScalesOf(data, goal, height, topMargin)
  {
    if |data| == 0 {
      return Err(TypeError("PlotData[0] is undefined"));
    }
    var min, max, highWhisker, medians := Extents(data, goal);
    var scale := ScaleFactor(Median(Numeric(medians)), max);
    return Ok(Domains(min, max, highWhisker, medians, height, topMargin));
  }

  /**
   * Both domains are `[min, top]` over the ranges `[height, 0]` and
   * `[height + topMargin, topMargin]`. The lower end is the goal or some
   * record's minimum and lies at or below the goal and every minimum.
   */
  lemma ScalesLowerEnd(data: seq<BoxWhiskerData>, goal: Option<real>, height: real, topMargin: real)
    requires |data| > 0
    ensures var sc := ScalesOf(data, goal, height, topMargin).value;
      && sc.yAxesDomain == sc.boxDomain
      && sc.boxRange == (height, 0.0) && sc.yAxesRange == (height + topMargin, topMargin)
      && sc.boxDomain.0.Finite?
      && (goal.Some? ==> Le(sc.boxDomain.0, Finite(goal.value)))
      && (forall i :: 0 <= i < |data| ==> Le(sc.boxDomain.0, Finite(data[i].minimum as real)))
      && (sc.boxDomain.0 == Seed(goal, PosInf) || exists i :: 0 <= i < |data| && sc.boxDomain.0 == Finite(data[i].minimum as real))
  {
    var ms := Minimums(data);
    var seed := Seed(goal, PosInf);
    var min := Least(seed, ms);
    LeastIsLeast(seed, ms);
    assert !Lt(ms[0], min);
    assert min.Finite?;
    forall i | 0 <= i < |data| ensures Le(min, Finite(data[i].minimum as real)) {
      assert !Lt(ms[i], min);
      NotLtIsLe(ms[i], min);
    }
    if goal.Some? {
      NotLtIsLe(seed, min);
    }
    if min != seed {
      var i :| 0 <= i < |ms| && ms[i] == min;
    }
  }

  /** The greatest maximum: the goal or some record's maximum, at or above the goal and every maximum. */
  lemma MaxIsGreatest(data: seq<BoxWhiskerData>, goal: Option<real>)
    requires |data| > 0
    ensures var max := Greatest(Seed(goal, NegInf), Maximums(data));
      && max.Finite?
      && (goal.Some? ==> Le(Finite(goal.value), max))
      && (forall i :: 0 <= i < |data| ==> Le(Finite(data[i].maximum as real), max))
      && (max == Seed(goal, NegInf) || exists i :: 0 <= i < |data| && max == Finite(data[i].maximum as real))
  {
    var ms := Maximums(data);
    var seed := Seed(goal, NegInf);
    var max := Greatest(seed, ms);
    GreatestIsGreatest(seed, ms);
    assert !Gt(ms[0], max);
    forall i | 0 <= i < |data| ensures Le(Finite(data[i].maximum as real), max) {
      assert !Gt(ms[i], max);
      NotLtIsLe(max, ms[i]);
    }
    if goal.Some? {
      NotLtIsLe(max, seed);
    }
    if max != seed {
      var i :| 0 <= i < |ms| && ms[i] == max;
    }
  }

  /** The high whisker the scale uses is some record's, and no record's high whisker is greater. */
  lemma HighWhiskerIsGreatest(data: seq<BoxWhiskerData>)
    requires |data| > 0
    ensures var hw := Greatest(data[0].highWhisker, HighWhiskers(data));
      && (exists i :: 0 <= i < |data| && hw == data[i].highWhisker)
      && (forall i :: 0 <= i < |data| ==> !Gt(data[i].highWhisker, hw))
      && ((forall i :: 0 <= i < |data| ==> data[i].highWhisker.Finite?) ==>
            forall i :: 0 <= i < |data| ==> Le(data[i].highWhisker, hw))
  {
    var ws := HighWhiskers(data);
    var hw := Greatest(data[0].highWhisker, ws);
    GreatestIsGreatest(data[0].highWhisker, ws);
    if hw == data[0].highWhisker {
      assert ws[0] == hw;
    } else {
      var i :| 0 <= i < |ws| && ws[i] == hw;
      assert hw == data[i].highWhisker;
    }
    forall i | 0 <= i < |data| ensures !Gt(data[i].highWhisker, hw) {
      assert ws[i] == data[i].highWhisker;
    }
    if forall i :: 0 <= i < |data| ==> data[i].highWhisker.Finite? {
      forall i | 0 <= i < |data| ensures Le(data[i].highWhisker, hw) {
        NotLtIsLe(hw, ws[i]);
      }
    }
  }

  /**
   * The top of the domains never exceeds the greatest maximum; with finite
   * inputs it is `min(max, highWhisker + (highWhisker - medianOfMedians) / 2)`.
   */
  lemma TopAtMostMax(data: seq<BoxWhiskerData>, goal: Option<real>, height: real, topMargin: real)
    requires |data| > 0
    ensures var sc := ScalesOf(data, goal, height, topMargin).value;
            var max := Greatest(Seed(goal, NegInf), Maximums(data));
            var hw := Greatest(data[0].highWhisker, HighWhiskers(data));
            var mom := Median(Numeric(Medians(data)));
      && (!sc.boxDomain.1.NaN? ==> Le(sc.boxDomain.1, max))
      && max.Finite?
      && (hw.Finite? && mom.Finite? ==>
            sc.boxDomain.1.Finite? &&
            sc.boxDomain.1.r == (if max.r < hw.r + 0.5 * (hw.r - mom.r) then max.r else hw.r + 0.5 * (hw.r - mom.r)))
  {
    MaxIsGreatest(data, goal);
  }
}
