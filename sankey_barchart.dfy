/**
 * The sankey-bar funnel visual: the converter that validates the categorical
 * data view, picks the enter and exit label columns by role, keeps the rows
 * with a positive value, sorts them by value (largest first) and derives for
 * every step its rate against the first step and its drop-off to the next
 * one; and the element counts of the layers `update` draws from the result.
 */
module SankeyBarchart {
  import opened Wrappers
  import opened Seqs
  import opened CategoricalView
  import D3Arrays

  /** The data view of the funnel: string labels, numeric cells that may be `null` (only finite numbers are modelled). */
  type FunnelView = DataView<string, Option<real>>

  /** `source.roles && source.roles["Exit"]`. */
  predicate HasExitRole(c: CategoryColumn<string>)
  {
    c.source.roles.Some? && "Exit" in c.source.roles.value && c.source.roles.value["Exit"]
  }

  /** The three columns the converter reads row by row. */
  datatype Table = Table(enter: seq<string>, exit: seq<string>, values: seq<Option<real>>)

  predicate Rectangular(t: Table)
  {
    |t.enter| == |t.exit| == |t.values|
  }

  /**
   * Lines 48-63: nothing for a rejected data view; otherwise the enter labels
   * come from the first category column and the exit labels from the second,
   * the other way round when the first one carries the Exit role.
   */
  function Columns(dv: Option<FunnelView>): (r: Option<Table>)
    ensures r.None? <==> Rejected(dv)
    ensures r.Some? ==> Rectangular(r.value)
    ensures r.Some? ==>
      && r.value.values == Cells(dv)
      && (HasExitRole(First(dv)) ==> r.value.enter == Labels(dv, 1) && r.value.exit == Labels(dv, 0))
      && (!HasExitRole(First(dv)) ==> r.value.enter == Labels(dv, 0) && r.value.exit == Labels(dv, 1))
  {
    if Rejected(dv) then None
    else
      var cat := dv.value.categorical.value;
      var cats := cat.categories.value;
      var enterIndex := if HasExitRole(cats[0]) then 1 else 0;
      var exitIndex := 1 - enterIndex;
      Some(Table(cats[enterIndex].values.value, cats[exitIndex].values.value, cat.values.value[0].values.value))
  }

  /** A kept row of the filter loop: `[enter label, exit label, value]`. */
  datatype Row = Row(enter: string, exit: string, value: real)

  /** `v > 0 && v != null`. */
  predicate Keeps(v: Option<real>)
  {
    v.Some? && v.value > 0.0
  }

  function RowAt(t: Table, i: nat): Row
    requires Rectangular(t) && i < |t.values| && t.values[i].Some?
  {
    Row(t.enter[i], t.exit[i], t.values[i].value)
  }

  /** The rows among the first `n` whose value the filter keeps, in input order. */
  function Kept(t: Table, n: nat): seq<Row>
    requires Rectangular(t) && n <= |t.values|
  {
    if n == 0 then []
    else Kept(t, n - 1) + (if Keeps(t.values[n - 1]) then [RowAt(t, n - 1)] else [])
  }

  /** The indexes of the rows the filter keeps among the first `n`. */
  function KeptIndexes(t: Table, n: nat): set<nat>
    requires n <= |t.values|
  {
    set i: nat | i < n && Keeps(t.values[i])
  }

  /** The loop of lines 65-71, pushing every kept row onto `unsortedData`. */
  method Filter(t: Table) returns (unsortedData: seq<Row>)
    requires Rectangular(t)
    ensures unsortedData == Kept(t, |t.values|)
  {
    unsortedData := [];
    for i := 0 to |t.enter|
      invariant unsortedData == Kept(t, i)
    {
      if Keeps(t.values[i]) {
        unsortedData := unsortedData + [Row(t.enter[i], t.exit[i], t.values[i].value)];
      }
    }
  }

  /** Every kept row has a positive value. */
  lemma {:induction false} KeptPositive(t: Table, n: nat)
    requires Rectangular(t) && n <= |t.values|
    ensures AllPositive(Kept(t, n))
  {
    if n > 0 {
      KeptPositive(t, n - 1);
    }
  }

  /** A row is kept exactly when it is the row of some index whose value is positive. */
  lemma {:induction false} KeptRows(t: Table, n: nat, r: Row)
    requires Rectangular(t) && n <= |t.values|
    ensures r in Kept(t, n) <==> exists i :: 0 <= i < n && Keeps(t.values[i]) && r == RowAt(t, i)
  {
    if n > 0 {
      KeptRows(t, n - 1, r);
      if r in Kept(t, n) && r !in Kept(t, n - 1) {
        assert Keeps(t.values[n - 1]) && r == RowAt(t, n - 1);
      }
    }
  }

  /** The filter keeps one row per index with a positive value. */
  lemma {:induction false} KeptCount(t: Table, n: nat)
    requires Rectangular(t) && n <= |t.values|
    ensures |Kept(t, n)| == |KeptIndexes(t, n)|
  {
    if n > 0 {
      KeptCount(t, n - 1);
      KeptIndexesStep(t, n);
    }
  }

  /** Index `n - 1` joins the kept indexes exactly when its value is kept. */
  lemma KeptIndexesStep(t: Table, n: nat)
    requires 0 < n <= |t.values|
    ensures n - 1 !in KeptIndexes(t, n - 1)
    ensures KeptIndexes(t, n) == KeptIndexes(t, n - 1) + (if Keeps(t.values[n - 1]) then {n - 1} else {})
  {
    var prev, next := KeptIndexes(t, n - 1), KeptIndexes(t, n);
    forall i | i in next ensures i in prev || (i == n - 1 && Keeps(t.values[n - 1])) {
    }
  }

  predicate AllPositive(s: seq<Row>)
  {
    forall k :: 0 <= k < |s| ==> s[k].value > 0.0
  }

  /** Largest value first. */
  predicate Descending(s: seq<Row>)
  {
    forall i, j :: 0 <= i < j < |s| ==> s[i].value >= s[j].value
  }

  /**
   * `unsortedData.sort((a, b) => b[2] - a[2])` (line 73): in place, largest
   * value first. The order of rows with equal values is up to the sort
   * implementation, so only the order of the values and the permutation are
   * promised.
   */
  method SortDescending(a: array<Row>)
    modifies a
    ensures Descending(a[..])
    ensures multiset(a[..]) == multiset(old(a[..]))
  {
    SortByKey(a, (r: Row) => -r.value);
    assert SortedBy(a[..], (r: Row) => -r.value);
  }

  datatype Enter = Enter(value: real, name: string, rate: real)

  /** The drop-off to the next step; `null` value and rate on the last step. */
  datatype Exit = Exit(value: Option<real>, name: string, rate: Option<real>)

  /** One step of the funnel (the colour is left out). */
  datatype Link = Link(enter: Enter, exit: Exit)

  /** The entry the `$.each` of lines 75-96 pushes for the `index`-th sorted row. */
  function LinkAt(sortedData: seq<Row>, index: nat): Link
    requires AllPositive(sortedData) && index < |sortedData|
  {
    var item := sortedData[index];
    var enterRate := item.value / sortedData[0].value;
    var exit :=
      if index < |sortedData| - 1 then
        var exitValue := item.value - sortedData[index + 1].value;
        Exit(Some(exitValue), item.exit, Some(exitValue / item.value))
      else Exit(None, item.exit, None);
    Link(Enter(item.value, item.enter, enterRate), exit)
  }

  function LinksOf(sortedData: seq<Row>): (data: seq<Link>)
    requires AllPositive(sortedData)
  {
    seq(|sortedData|, k requires 0 <= k < |sortedData| => LinkAt(sortedData, k))
  }

  /** The row an entry was made from. */
  function RowsOf(data: seq<Link>): (s: seq<Row>)
  {
    seq(|data|, k requires 0 <= k < |data| => Row(data[k].enter.name, data[k].exit.name, data[k].enter.value))
  }

  /** The `$.each` of lines 75-96. */
  method Links(sortedData: seq<Row>) returns (data: seq<Link>)
    requires AllPositive(sortedData)
    ensures data == LinksOf(sortedData)
  {
    data := [];
    var index := 0;
    while index < |sortedData|
      invariant 0 <= index <= |sortedData|
      invariant |data| == index
      invariant forall k :: 0 <= k < index ==> data[k] == LinkAt(sortedData, k)
    {
      var item := sortedData[index];
      var enterRate := item.value / sortedData[0].value;
      var exitValue: Option<real> := None;
      var exitRate: Option<real> := None;
      if index < |sortedData| - 1 {
        var nextEnterValue := sortedData[index + 1].value;
        exitValue := Some(item.value - nextEnterValue);
        exitRate := Some((item.value - nextEnterValue) / item.value);
      }
      data := data + [Link(Enter(item.value, item.enter, enterRate), Exit(exitValue, item.exit, exitRate))];
      index := index + 1;
    }
  }

  /** Every entry keeps the labels and the value of its row: the rows can be read back. */
  lemma RowsOfLinks(sortedData: seq<Row>)
    requires AllPositive(sortedData)
    ensures RowsOf(LinksOf(sortedData)) == sortedData
  {
  }

  /**
   * What the converter makes of a data view: nothing for a rejected view,
   * else one entry per kept row, largest value first, each entry derived
   * from the sorted rows by `LinksOf`.
   */
  ghost predicate ConvertedFrom(dv: Option<FunnelView>, data: seq<Link>)
  {
    && (Rejected(dv) ==> data == [])
    && (!Rejected(dv) ==>
      var t := Columns(dv).value;
      && multiset(RowsOf(data)) == multiset(Kept(t, |t.values|))
      && |data| == |KeptIndexes(t, |t.values|)|
      && Descending(RowsOf(data))
      && AllPositive(RowsOf(data))
      && data == LinksOf(RowsOf(data)))
  }

  /** `SankeyBarchart.converter` (lines 43-98). */
  method Converter(dv: Option<FunnelView>) returns (data: seq<Link>)
    ensures ConvertedFrom(dv, data)
  {
    var table := Columns(dv);
    if table.None? {
      return [];
    }
    var t := table.value;
    var unsortedData := Filter(t);
    KeptPositive(t, |t.values|);
    KeptCount(t, |t.values|);
    var a := new Row[|unsortedData|](i requires 0 <= i < |unsortedData| => unsortedData[i]);
    assert a[..] == unsortedData;
    SortDescending(a);
    var sortedData := a[..];
    assert AllPositive(sortedData) by {
      forall k | 0 <= k < |sortedData| ensures sortedData[k].value > 0.0 {
        assert sortedData[k] in multiset(unsortedData);
      }
    }
    data := Links(sortedData);
    RowsOfLinks(sortedData);
  }

  /** The first step has rate 1 and every rate lies in (0, 1]. */
  lemma EnterRates(s: seq<Row>)
    requires AllPositive(s) && Descending(s)
    ensures |s| > 0 ==> LinksOf(s)[0].enter.rate == 1.0
    ensures forall k :: 0 <= k < |s| ==> 0.0 < LinksOf(s)[k].enter.rate <= 1.0
  {
    if |s| > 0 {
      assert LinksOf(s)[0] == LinkAt(s, 0);
      assert LinkAt(s, 0).enter.rate == s[0].value / s[0].value;
      SelfRatio(s[0].value);
    }
    forall k | 0 <= k < |s| ensures 0.0 < LinksOf(s)[k].enter.rate <= 1.0 {
      assert LinksOf(s)[k] == LinkAt(s, k);
      assert s[k].value <= s[0].value by {
        if k > 0 {
          assert s[0].value >= s[k].value;
        }
      }
      Ratio(s[k].value, s[0].value);
    }
  }

  lemma SelfRatio(x: real)
    requires x != 0.0
    ensures x / x == 1.0
  {
  }

  /**
   * Every step but the last drops by a non-negative amount, a rate in [0, 1),
   * to the next; the last has neither.
   */
  lemma ExitDrops(s: seq<Row>)
    requires AllPositive(s) && Descending(s)
    ensures forall k :: 0 <= k < |s| - 1 ==>
      var e := LinksOf(s)[k].exit;
      && e.value == Some(s[k].value - s[k + 1].value) && e.value.value >= 0.0
      && e.rate.Some? && 0.0 <= e.rate.value < 1.0
    ensures |s| > 0 ==> LinksOf(s)[|s| - 1].exit.value.None? && LinksOf(s)[|s| - 1].exit.rate.None?
  {
    forall k | 0 <= k < |s| - 1
      ensures var e := LinksOf(s)[k].exit; e.rate.Some? && 0.0 <= e.rate.value < 1.0
    {
      var d := s[k].value - s[k + 1].value;
      assert 0.0 <= d < s[k].value;
      Ratio(d, s[k].value);
    }
  }

  /** A quotient of a non-negative number by a larger positive one lies in [0, 1]. */
  lemma Ratio(a: real, b: real)
    requires 0.0 <= a <= b && 0.0 < b
    ensures 0.0 <= a / b <= 1.0
    ensures a < b ==> a / b < 1.0
    ensures 0.0 < a ==> 0.0 < a / b
  {
    var q := a / b;
    assert q * b == a;
  }

  /** The drop from each value to the next. */
  function Drops(s: seq<Row>): (d: seq<real>)
  {
    if |s| < 2 then [] else seq(|s| - 1, k requires 0 <= k < |s| - 1 => s[k].value - s[k + 1].value)
  }

  /** The drops add up to the first value minus the last. */
  lemma {:induction false} DropsTelescope(s: seq<Row>)
    requires |s| > 0
    ensures Sum(Drops(s)) == s[0].value - s[|s| - 1].value
  {
    if |s| >= 2 {
      DropsTelescope(s[1..]);
      assert Drops(s)[1..] == Drops(s[1..]);
    }
  }

  /** The exit values of the steps are the drops; so they add up to the first enter value minus the last. */
  lemma ExitsSumToDrop(s: seq<Row>)
    requires AllPositive(s) && |s| > 0
    ensures forall k :: 0 <= k < |s| - 1 ==> LinksOf(s)[k].exit.value == Some(Drops(s)[k])
    ensures Sum(Drops(s)) == LinksOf(s)[0].enter.value - LinksOf(s)[|s| - 1].enter.value
  {
    DropsTelescope(s);
  }

  /** The elements `update` binds data to, per layer. */
  datatype Layers = Layers(
    headers: seq<Link>,        // one header cell per step
    footers: seq<int>,         // `_.range(dataset.length - 1)`
    xLines: seq<int>,          // `_.range(dataset.length)`
    yLines: seq<int>,          // `_.range(ticks)`
    yTexts: seq<int>,          // `_.range(ticks + 1)`
    bars: seq<Link>,           // one bar per step
    edges: seq<(Link, Link)>)  // `_.initial(dataset)`, each with the step after it

  /** `sankeyBarchartOptions.axis.y.ticks`. */
  const Ticks := 4

  /** Lines 146-349: nothing when the dataset is empty, otherwise the bound data of every layer. */
  function LayersOf(dataset: seq<Link>): (r: Option<Layers>)
  {
    if |dataset| == 0 then None
    else
      var n := |dataset|;
      Some(Layers(dataset, D3Arrays.Range(0, n - 1), D3Arrays.Range(0, n), D3Arrays.Range(0, Ticks),
                  D3Arrays.Range(0, Ticks + 1), dataset,
                  seq(n - 1, i requires 0 <= i < n - 1 => (dataset[i], dataset[i + 1]))))
  }

  /**
   * One footer cell and one edge per adjacent pair of steps, each edge joining
   * a step to the next; the footer of a step shows its exit, which for the
   * converter's output always has a value.
   */
  lemma LayerCounts(s: seq<Row>)
    requires AllPositive(s) && |s| > 0
    ensures var r := LayersOf(LinksOf(s));
      && r.Some?
      && |r.value.footers| == |r.value.edges| == |s| - 1
      && |r.value.headers| == |r.value.bars| == |r.value.xLines| == |s|
      && |r.value.yLines| == 4 && |r.value.yTexts| == 5
      && (forall i :: 0 <= i < |r.value.footers| ==> LinksOf(s)[r.value.footers[i]].exit.value.Some?)
      && (forall i :: 0 <= i < |r.value.edges| ==>
            r.value.edges[i].0.enter.name == s[i].enter && r.value.edges[i].1.enter.name == s[i + 1].enter)
  {
  }

  /** Bars along an edge never rise: each edge ends at a step no larger than where it starts. */
  lemma EdgesDescend(s: seq<Row>)
    requires AllPositive(s) && Descending(s) && |s| > 0
    ensures var r := LayersOf(LinksOf(s));
      forall i :: 0 <= i < |r.value.edges| ==> r.value.edges[i].0.enter.value >= r.value.edges[i].1.enter.value
  {
  }

  /**
   * `update` (lines 106-371) up to the drawing: nothing without data views;
   * else the first view is converted (line 140) and the layers are drawn
   * from the result, none when it is empty (line 146).
   */
  method Update(dataViews: seq<Option<FunnelView>>) returns (layers: Option<Layers>, ghost data: seq<Link>)
    ensures |dataViews| == 0 ==> layers.None?
    ensures |dataViews| > 0 ==> ConvertedFrom(dataViews[0], data) && layers == LayersOf(data)
    ensures |dataViews| > 0 && Rejected(dataViews[0]) ==> layers.None?
    ensures |dataViews| > 0 && !Rejected(dataViews[0]) ==>
      var t := Columns(dataViews[0]).value;
      layers.None? <==> |KeptIndexes(t, |t.values|)| == 0
    ensures layers.Some? ==> |layers.value.footers| == |layers.value.edges| == |layers.value.bars| - 1
  {
    if |dataViews| < 1 {
      return None, [];
    }
    var dataset := Converter(dataViews[0]);
    data := dataset;
    layers := LayersOf(dataset);
  }
}
