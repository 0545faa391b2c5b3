/**
 * The first column of the box-whisker sample data set, once sorted, run
 * through the statistics with the default settings (fractions 0.25, 0.75,
 * 0.05, 0.95 and outlier factor 0).
 */
module BoxWhiskerSample {
  import opened JsNumber
  import opened Seqs
  import opened D3Arrays
  import opened BoxWhiskerStats
  import opened Wrappers
  import KeyedJoin
  import BoxPlugin

  /** The first sample column in the order `values.sort(d3.ascending)` leaves it. */
  function SortedColumn(): seq<real>
  {
    [650.0, 740.0, 760.0, 810.0, 850.0, 850.0, 880.0, 900.0, 930.0, 930.0,
     950.0, 960.0, 960.0, 980.0, 980.0, 980.0, 1000.0, 1000.0, 1000.0, 1070.0]
  }

  lemma SortedColumnAscending()
    ensures Ascending(SortedColumn())
  {
    forall k | 0 <= k < |SortedColumn()| - 1 ensures SortedColumn()[k] <= SortedColumn()[k + 1] {
    }
    AscendingFromAdjacent(SortedColumn());
  }

  /** The value at a position strictly between two whole numbers `k` and `k + 1`. */
  lemma InterpolatedAt(s: seq<real>, H: real, k: int)
    requires 1 <= k < |s| && k as real < H < k as real + 1.0
    ensures Interpolated(s, H) == Finite(s[k - 1] + (H - k as real) * (s[k] - s[k - 1]))
  {
    assert H.Floor == k;
  }

  /** The low whisker at fraction 0.05: position 1.95, between 650 and 740. */
  lemma SampleLowWhisker()
    ensures Quantile(SortedColumn(), Finite(0.05)) == Finite(735.5)
  {
    assert Position(20, 0.05) == 1.95;
    InterpolatedAt(SortedColumn(), 1.95, 1);
  }

  /** The high whisker at fraction 0.95: position 19.05, between 1000 and 1070. */
  lemma SampleHighWhisker()
    ensures Quantile(SortedColumn(), Finite(0.95)) == Finite(1003.5)
  {
    assert Position(20, 0.95) == 19.05;
    InterpolatedAt(SortedColumn(), 19.05, 19);
  }

  /** The bottom of the box at fraction 0.25: position 5.75, between 850 and 850. */
  lemma SampleBoxBottom()
    ensures Quantile(SortedColumn(), Finite(0.25)) == Finite(850.0)
  {
    assert Position(20, 0.25) == 5.75;
    InterpolatedAt(SortedColumn(), 5.75, 5);
  }

  /** The top of the box at fraction 0.75: position 15.25, between 980 and 980. */
  lemma SampleBoxTop()
    ensures Quantile(SortedColumn(), Finite(0.75)) == Finite(980.0)
  {
    assert Position(20, 0.75) == 15.25;
    InterpolatedAt(SortedColumn(), 15.25, 15);
  }

  /** The median: position 10.5, half-way between 930 and 950. */
  lemma SampleMedian()
    ensures Median(SortedColumn()) == Finite(940.0)
  {
    SortedColumnAscending();
    MedianOfAscending(SortedColumn());
    SampleHalf();
  }

  lemma SampleHalf()
    ensures Quantile(SortedColumn(), Finite(0.5)) == Finite(940.0)
  {
    assert Position(20, 0.5) == 10.5;
    InterpolatedAt(SortedColumn(), 10.5, 10);
  }

  /** With an outlier factor of 0 the fence is 0. */
  lemma SampleFence()
    ensures Fence(Quantile(SortedColumn(), Finite(0.25)), Quantile(SortedColumn(), Finite(0.75)), Finite(0.0))
            == Finite(0.0)
  {
    SampleBoxBottom();
    SampleBoxTop();
  }

  lemma WithinNotBeyond(x: real, lo: real, hi: real)
    requires lo < x < hi
    ensures !Beyond(x, Finite(lo), Finite(hi))
  {
  }

  lemma SampleMiddle()
    ensures forall k :: 1 <= k < 19 ==> !Beyond(SortedColumn()[k], Finite(735.5), Finite(1003.5))
  {
    forall k | 1 <= k < 19 ensures !Beyond(SortedColumn()[k], Finite(735.5), Finite(1003.5)) {
      assert 740.0 <= SortedColumn()[k] <= 1000.0;
      WithinNotBeyond(SortedColumn()[k], 735.5, 1003.5);
    }
  }

  lemma SampleEnds()
    ensures Beyond(SortedColumn()[0], Finite(735.5), Finite(1003.5))
    ensures Beyond(SortedColumn()[19], Finite(735.5), Finite(1003.5))
    ensures SortedColumn()[..1] == [650.0] && SortedColumn()[19..] == [1070.0]
  {
  }

  /** The scans stop at `[1, 18]`: one value below the low whisker, one above the high one. */
  lemma SampleScans()
    ensures LowEnd(SortedColumn(), Finite(735.5)) == 1 && HighEnd(SortedColumn(), Finite(1003.5)) == 18
  {
    LowEndIsStop(SortedColumn(), Finite(735.5), 1);
    HighEndIsStop(SortedColumn(), Finite(1003.5), 18);
  }

  /** The threshold pass finds 650 and 1070. */
  lemma SampleThreshold()
    ensures Outside(SortedColumn(), Finite(735.5), Finite(1003.5)) == [650.0, 1070.0]
  {
    SampleMiddle();
    SampleEnds();
    OutsideSplit(SortedColumn(), 1, 19, Finite(735.5), Finite(1003.5));
  }

  lemma OutlierListParts(s: seq<real>, low: Number, high: Number, fence: Number, i: int, j: int)
    requires LowEnd(s, Sub(low, fence)) == i && HighEnd(s, Add(high, fence)) == j
    ensures OutlierList(s, low, high, fence) == s[..i] + Reverse(s[j + 1..]) + Outside(s, low, high)
  {
  }

  lemma ReverseOne(t: seq<real>)
    requires |t| == 1
    ensures Reverse(t) == t
  {
  }

  lemma SampleJoin(a: seq<real>, b: seq<real>, c: seq<real>)
    requires a == [650.0] && b == [1070.0] && c == [650.0, 1070.0]
    ensures a + b + c == [650.0, 1070.0, 650.0, 1070.0]
  {
  }

  /** Both outliers are listed twice: once by the fence scans and once by the threshold pass. */
  lemma SampleOutliers(s: seq<real>)
    requires s == SortedColumn()
    ensures OutlierList(s, Finite(735.5), Finite(1003.5), Finite(0.0)) == [650.0, 1070.0, 650.0, 1070.0]
  {
    SubZero(Finite(735.5));
    SubZero(Finite(1003.5));
    SampleScans();
    SampleThreshold();
    SampleEnds();
    OutlierListParts(s, Finite(735.5), Finite(1003.5), Finite(0.0), 1, 18);
    ReverseOne(s[19..]);
    SampleJoin(s[..1], Reverse(s[19..]), Outside(s, Finite(735.5), Finite(1003.5)));
  }

  /**
   * Drawn by the chart, the sample's four listed outliers (`SampleOutliers`)
   * are two circles: the value-keyed join keeps the first of each repeated value.
   */
  lemma SampleOutlierCircles(o: seq<real>)
    requires o == [650.0, 1070.0, 650.0, 1070.0]
    ensures KeyedJoin.Join({}, BoxPlugin.Finites(o)) == KeyedJoin.Joined([Finite(650.0), Finite(1070.0)], [], {})
  {
    var keys := BoxPlugin.Finites(o);
    assert keys == [Finite(650.0), Finite(1070.0), Finite(650.0), Finite(1070.0)] by {
      assert |keys| == 4;
      assert keys[0] == Finite(o[0]) && keys[1] == Finite(o[1]) && keys[2] == Finite(o[2]) && keys[3] == Finite(o[3]);
    }
    TwoRepeatedKeys(keys);
  }

  lemma TwoRepeatedKeys(keys: seq<Number>)
    requires keys == [Finite(650.0), Finite(1070.0), Finite(650.0), Finite(1070.0)]
    ensures KeyedJoin.Join({}, keys) == KeyedJoin.Joined([Finite(650.0), Finite(1070.0)], [], {})
  {
    var a, b := Finite(650.0), Finite(1070.0);
    var both := {a, b};
    assert KeyedJoin.Walk({}, [b], both) == ([], []) by {
      assert KeyedJoin.Walk({}, [b][1..], both + {b}) == ([], []);
    }
    assert KeyedJoin.Walk({}, [a, b], both) == ([], []) by {
      assert [a, b][1..] == [b] && both + {a} == both;
    }
    assert KeyedJoin.Walk({}, [b, a, b], {a}) == ([b], []) by {
      assert [b, a, b][1..] == [a, b] && {a} + {b} == both && b !in {a};
      var rest := KeyedJoin.Walk({}, [a, b], both);
      assert KeyedJoin.Walk({}, [b, a, b], {a}) == ([b] + rest.0, rest.1);
      assert [b] + rest.0 == [b];
    }
    assert KeyedJoin.Walk({}, keys, {}) == ([a, b], []) by {
      assert keys[1..] == [b, a, b] && {} + {a} == {a};
      var rest := KeyedJoin.Walk({}, [b, a, b], {a});
      assert KeyedJoin.Walk({}, keys, {}) == ([a] + rest.0, rest.1);
      assert [a] + rest.0 == [a, b];
    }
    assert KeyedJoin.Elements(keys) == both;
  }
}
