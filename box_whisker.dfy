/**
 * The data preparation of the box-whisker visual's `update`: the guard on
 * the incoming categorical data, the choice of the groups the boxes are
 * drawn for (value columns, category columns, or category columns grouped by
 * the first column), the value format, the group label, and the loop that
 * sorts every group in place and builds the plot data.
 */
module BoxWhisker {
  import opened JsNumber
  import opened Seqs
  import opened Wrappers
  import opened D3Arrays
  import opened BoxWhiskerStats

  /** The metadata of one column: display name, group name, the roles it is bound to, format string. */
  datatype ColumnSource = ColumnSource(displayName: string, groupName: string, roles: set<string>, format: string)

  /** A category or value column of the categorical data view. */
  datatype Column = Column(source: ColumnSource, values: seq<Cell>)

  /** `dataView.categorical`: the category columns and the value columns, either possibly absent. */
  datatype Categorical = Categorical(categories: Option<seq<Column>>, values: Option<seq<Column>>)

  /** `col.source.roles && col.source.roles["Values"]`. */
  predicate HasValuesRole(c: Column)
  {
    "Values" in c.source.roles
  }

  /**
   * The guard of lines 150-153: without value columns the first category
   * column must carry the Values role, or nothing is drawn. Reading
   * `categories[0]` of a missing or empty category list throws.
   */
  function PassesGuard(cat: Categorical): (r: Result<bool>)
    ensures cat.values.Some? ==> r == Ok(true)
    ensures r.Err? <==> cat.values.None? && (cat.categories.None? || |cat.categories.value| == 0)
    ensures r == Ok(false) ==> cat.values.None? && !HasValuesRole(cat.categories.value[0])
  {
    if cat.values.Some? then Ok(true)
    else if cat.categories.None? || |cat.categories.value| == 0 then Err(TypeError("categories[0] is undefined"))
    else Ok(HasValuesRole(cat.categories.value[0]))
  }

  /**
   * The `forEach` of lines 155-163: the category index becomes 0, whatever the
   * position of the column, as soon as one category column lacks the Values
   * role; otherwise it stays `null`.
   */
  method FindCategoryIndex(categories: seq<Column>) returns (categoryIndex: Option<nat>)
    ensures categoryIndex.Some? <==> exists k :: 0 <= k < |categories| && !HasValuesRole(categories[k])
    ensures categoryIndex.Some? ==> categoryIndex.value == 0
  {
    categoryIndex := None;
    for k := 0 to |categories|
      invariant categoryIndex.Some? <==> exists m :: 0 <= m < k && !HasValuesRole(categories[m])
      invariant categoryIndex.Some? ==> categoryIndex.value == 0
    {
      if !HasValuesRole(categories[k]) {
        categoryIndex := Some(0);
      }
    }
  }

  /** A group to draw one box for: the column's metadata (if any), its `name` (if any) and its values. */
  datatype Group = Group(source: Option<ColumnSource>, name: Option<Cell>, values: seq<Cell>)

  function ColumnGroup(c: Column): Group
  {
    Group(Some(c.source), None, c.values)
  }

  /**
   * The label of lines 241-246: the display name followed by the group name in
   * parentheses when there is one; a group without a display name falls back
   * to its `name`, which value and category columns do not have.
   */
  function LabelOf(g: Group): (r: Option<Cell>)
    ensures g.source.Some? && g.source.value.displayName != "" ==>
              var src := g.source.value;
              && r.Some? && r.value.Text? && |r.value.text| >= |src.displayName|
              && r.value.text[..|src.displayName|] == src.displayName
              && (src.groupName == "" ==> r.value.text == src.displayName)
              && (src.groupName != "" ==> r.value.text[|src.displayName|..] == " (" + src.groupName + ")")
    ensures (g.source.None? || g.source.value.displayName == "") ==> r == g.name
  {
    if g.source.Some? && g.source.value.displayName != "" then
      var src := g.source.value;
      Some(Text(src.displayName + (if src.groupName != "" then " (" + src.groupName + ")" else "")))
    else g.name
  }

  /**
   * The property name row `x` is grouped under: `categoryCol.values[x]`
   * used as an object key, that is turned into a string by `keyOf` (the
   * JavaScript property-key conversion, a parameter of the model), or
   * `"undefined"` past the end of the key column. Cells that convert to the
   * same string share a group.
   */
  function RowKey(keyOf: Cell -> string, keys: seq<Cell>, x: int): string
  {
    if 0 <= x < |keys| then keyOf(keys[x]) else "undefined"
  }

  /** Cell `xx` of category column `kk` has been visited before step `(k, x)` (column 0 is the key column). */
  predicate Seen(cats: seq<Column>, k: int, x: int, kk: int, xx: int)
  {
    1 <= kk < |cats| && 0 <= xx < |cats[kk].values| && (kk < k || (kk == k && xx < x))
  }

  /** The visited cell `(kk, xx)` sits in the group of its key. */
  predicate Placed(keyOf: Cell -> string, cats: seq<Column>, groups: map<string, seq<Cell>>, kk: int, xx: int)
    requires 0 < |cats| && 0 <= kk < |cats| && 0 <= xx < |cats[kk].values|
  {
    var key := RowKey(keyOf, cats[0].values, xx);
    key in groups && cats[kk].values[xx] in groups[key]
  }

  /** Element `i` of the group of `key` came from a visited cell of that key. */
  ghost predicate Traced(keyOf: Cell -> string, cats: seq<Column>, groups: map<string, seq<Cell>>, k: int, x: int, key: string, i: int)
    requires 0 < |cats| && key in groups && 0 <= i < |groups[key]|
  {
    exists kk, xx :: Seen(cats, k, x, kk, xx)
      && RowKey(keyOf, cats[0].values, xx) == key && cats[kk].values[xx] == groups[key][i]
  }

  /** The grouping is consistent after visiting every cell before `(k, x)`. */
  ghost predicate Grouped(keyOf: Cell -> string, cats: seq<Column>, groups: map<string, seq<Cell>>, order: seq<string>, k: int, x: int)
    requires 0 < |cats|
  {
    && (forall a, b :: 0 <= a < b < |order| ==> order[a] != order[b])
    && (forall key :: key in groups <==> key in order)
    && (forall key :: key in groups ==> |groups[key]| > 0)
    && (forall kk, xx :: Seen(cats, k, x, kk, xx) ==> Placed(keyOf, cats, groups, kk, xx))
    && (forall key, i :: key in groups && 0 <= i < |groups[key]| ==> Traced(keyOf, cats, groups, k, x, key, i))
  }

  /** Some group named `name` holds `v`. */
  ghost predicate InGroup(groups: seq<Group>, name: string, v: Cell)
  {
    exists a :: 0 <= a < |groups| && groups[a].name == Some(Text(name)) && v in groups[a].values
  }

  /** `v` is a cell of a category column other than the first, in a row whose key is `name`. */
  ghost predicate FromRow(keyOf: Cell -> string, cats: seq<Column>, name: Option<Cell>, v: Cell)
    requires 0 < |cats|
  {
    exists kk, xx :: 1 <= kk < |cats| && 0 <= xx < |cats[kk].values|
      && name == Some(Text(RowKey(keyOf, cats[0].values, xx))) && cats[kk].values[xx] == v
  }

  /**
   * What the normalisation promises: distinct group names, every group named
   * and non-empty, every cell of the columns after the first in the group of
   * its row's key, and nothing else in any group.
   */
  ghost predicate NormalizedFrom(keyOf: Cell -> string, cats: seq<Column>, groups: seq<Group>)
    requires 0 < |cats|
  {
    && (forall a, b :: 0 <= a < b < |groups| ==> groups[a].name != groups[b].name)
    && (forall g :: g in groups ==> g.source.None? && g.name.Some? && |g.values| > 0)
    && (forall kk, xx :: 1 <= kk < |cats| && 0 <= xx < |cats[kk].values| ==>
          InGroup(groups, RowKey(keyOf, cats[0].values, xx), cats[kk].values[xx]))
    && (forall a, i :: 0 <= a < |groups| && 0 <= i < |groups[a].values| ==>
          FromRow(keyOf, cats, groups[a].name, groups[a].values[i]))
  }

  /**
   * The normalisation of lines 189-207: every cell of every category column but
   * the first is pushed onto the group named by the first column's value in
   * the same row, keyed by its string form; each group is named by that
   * string. The groups come out in the order their names first appear.
   */
  method Normalize(keyOf: Cell -> string, cats: seq<Column>) returns (groups: seq<Group>)
    requires 0 < |cats|
    ensures NormalizedFrom(keyOf, cats, groups)
  {
    var m: map<string, seq<Cell>> := map[];
    var order: seq<string> := [];
    for k := 0 to |cats|
      invariant Grouped(keyOf, cats, m, order, if k == 0 then 1 else k, 0)
    {
      if k == 0 {
        continue;
      }
      for x := 0 to |cats[k].values|
        invariant Grouped(keyOf, cats, m, order, k, x)
      {
        var key := RowKey(keyOf, cats[0].values, x);
        var v := cats[k].values[x];
        ghost var m0, order0 := m, order;
        if key !in m {
          m := m[key := []];
          order := order + [key];
        }
        m := m[key := m[key] + [v]];
        PushKeepsGrouped(keyOf, cats, m0, order0, m, order, k, x, x + 1);
      }
      NextColumn(keyOf, cats, m, order, k, k + 1);
    }
    groups := seq(|order|, i requires 0 <= i < |order| => Group(None, Some(Text(order[i])), m[order[i]]));
    GroupsOfMap(keyOf, cats, m, order, groups);
  }

  /** One push keeps the grouping consistent and covers one more cell. */
  lemma PushKeepsGrouped(keyOf: Cell -> string, cats: seq<Column>, m0: map<string, seq<Cell>>, order0: seq<string>,
                         m: map<string, seq<Cell>>, order: seq<string>, k: int, x: int, x1: int)
    requires 1 <= k < |cats| && 0 <= x < |cats[k].values| && x1 == x + 1
    requires Grouped(keyOf, cats, m0, order0, k, x)
    requires var key, v := RowKey(keyOf, cats[0].values, x), cats[k].values[x];
             && (key in m0 ==> order == order0 && m == m0[key := m0[key] + [v]])
             && (key !in m0 ==> order == order0 + [key] && m == m0[key := [] + [v]])
    ensures Grouped(keyOf, cats, m, order, k, x1)
  {
    var key, v := RowKey(keyOf, cats[0].values, x), cats[k].values[x];
    assert key in m && m[key][|m[key]| - 1] == v;
    assert forall c :: c in m0 ==> c in m && m0[c] == m[c][..|m0[c]|];
    forall kk, xx | Seen(cats, k, x1, kk, xx) ensures Placed(keyOf, cats, m, kk, xx) {
      if kk == k && xx == x {
        assert v in m[key];
      } else {
        assert Seen(cats, k, x, kk, xx) && Placed(keyOf, cats, m0, kk, xx);
        var c := RowKey(keyOf, cats[0].values, xx);
        assert cats[kk].values[xx] in m0[c];
      }
    }
    forall c, i | c in m && 0 <= i < |m[c]| ensures Traced(keyOf, cats, m, k, x1, c, i) {
      if c == key && i == |m[c]| - 1 {
        assert Seen(cats, k, x1, k, x);
      } else {
        assert c in m0 && i < |m0[c]| && m[c][i] == m0[c][i];
        assert Traced(keyOf, cats, m0, k, x, c, i);
        var kk, xx :| Seen(cats, k, x, kk, xx)
          && RowKey(keyOf, cats[0].values, xx) == c && cats[kk].values[xx] == m0[c][i];
        assert Seen(cats, k, x1, kk, xx);
      }
    }
  }

  /** Having visited all of column `k` is having visited everything before column `k + 1`. */
  lemma NextColumn(keyOf: Cell -> string, cats: seq<Column>, m: map<string, seq<Cell>>, order: seq<string>, k: int, k1: int)
    requires 1 <= k < |cats| && k1 == k + 1 && Grouped(keyOf, cats, m, order, k, |cats[k].values|)
    ensures Grouped(keyOf, cats, m, order, k1, 0)
  {
    var n := |cats[k].values|;
    assert forall kk, xx :: Seen(cats, k, n, kk, xx) <==> Seen(cats, k1, 0, kk, xx);
    forall c, i | c in m && 0 <= i < |m[c]| ensures Traced(keyOf, cats, m, k1, 0, c, i) {
      assert Traced(keyOf, cats, m, k, n, c, i);
      var kk, xx :| Seen(cats, k, n, kk, xx) && RowKey(keyOf, cats[0].values, xx) == c && cats[kk].values[xx] == m[c][i];
      assert Seen(cats, k1, 0, kk, xx);
    }
  }

  /** The finished grouping, listed in key order, has the normalisation's properties. */
  lemma GroupsOfMap(keyOf: Cell -> string, cats: seq<Column>, m: map<string, seq<Cell>>, order: seq<string>, groups: seq<Group>)
    requires 0 < |cats| && Grouped(keyOf, cats, m, order, |cats|, 0)
    requires |groups| == |order|
    requires forall i :: 0 <= i < |order| ==> groups[i] == Group(None, Some(Text(order[i])), m[order[i]])
    ensures NormalizedFrom(keyOf, cats, groups)
  {
    forall kk, xx | 1 <= kk < |cats| && 0 <= xx < |cats[kk].values| {
      CellInItsGroup(keyOf, cats, m, order, groups, kk, xx);
    }
    forall a, i | 0 <= a < |groups| && 0 <= i < |groups[a].values| {
      GroupValueFromCell(keyOf, cats, m, order, groups, a, i);
    }
  }

  lemma CellInItsGroup(keyOf: Cell -> string, cats: seq<Column>, m: map<string, seq<Cell>>, order: seq<string>, groups: seq<Group>, kk: int, xx: int)
    requires 0 < |cats| && Grouped(keyOf, cats, m, order, |cats|, 0)
    requires |groups| == |order|
    requires forall i :: 0 <= i < |order| ==> groups[i] == Group(None, Some(Text(order[i])), m[order[i]])
    requires 1 <= kk < |cats| && 0 <= xx < |cats[kk].values|
    ensures InGroup(groups, RowKey(keyOf, cats[0].values, xx), cats[kk].values[xx])
  {
    assert Seen(cats, |cats|, 0, kk, xx);
    assert Placed(keyOf, cats, m, kk, xx);
    var c := RowKey(keyOf, cats[0].values, xx);
    assert c in m && cats[kk].values[xx] in m[c];
    assert c in order;
    var a :| 0 <= a < |order| && order[a] == c;
    assert groups[a].name == Some(Text(c)) && groups[a].values == m[c];
  }

  lemma GroupValueFromCell(keyOf: Cell -> string, cats: seq<Column>, m: map<string, seq<Cell>>, order: seq<string>, groups: seq<Group>, a: int, i: int)
    requires 0 < |cats| && Grouped(keyOf, cats, m, order, |cats|, 0)
    requires |groups| == |order|
    requires forall i :: 0 <= i < |order| ==> groups[i] == Group(None, Some(Text(order[i])), m[order[i]])
    requires 0 <= a < |groups| && 0 <= i < |groups[a].values|
    ensures FromRow(keyOf, cats, groups[a].name, groups[a].values[i])
  {
    var c := order[a];
    assert c in m && groups[a].values == m[c] && groups[a].name == Some(Text(c));
    assert Traced(keyOf, cats, m, |cats|, 0, c, i);
    var kk, xx :| Seen(cats, |cats|, 0, kk, xx) && RowKey(keyOf, cats[0].values, xx) == c && cats[kk].values[xx] == m[c][i];
  }

  /** The groups of line 208: the value columns, or the category columns, each as a group. */
  function ColumnGroups(cols: seq<Column>): (r: seq<Group>)
    ensures |r| == |cols|
    ensures forall k :: 0 <= k < |cols| ==>
              r[k].source == Some(cols[k].source) && r[k].name.None? && r[k].values == cols[k].values
  {
    seq(|cols|, k requires 0 <= k < |cols| => ColumnGroup(cols[k]))
  }

  /**
   * Lines 144-211: the first data view's groups, or `None` when there is no
   * data view or the guard turns the update away. With a category column
   * lacking the Values role, the value columns are the groups, or, without
   * value columns, the normalisation of the category columns; otherwise the
   * category columns are the groups. A missing category list fails where the
   * format loop of line 212 reads its length.
   */
  method SelectGroups(views: seq<Categorical>, keyOf: Cell -> string) returns (r: Result<Option<seq<Group>>>)
    ensures |views| == 0 ==> r == Ok(None)
    ensures |views| > 0 && PassesGuard(views[0]).Err? ==> r.Err?
    ensures |views| > 0 && PassesGuard(views[0]) == Ok(false) ==> r == Ok(None)
    ensures |views| > 0 && PassesGuard(views[0]) == Ok(true) ==>
              var cat := views[0];
              && (cat.categories.None? ==> r.Err?)
              && (cat.categories.Some? ==>
                    var cats := cat.categories.value;
                    && r.Ok? && r.value.Some?
                    && (!(exists k :: 0 <= k < |cats| && !HasValuesRole(cats[k])) ==>
                          r.value.value == ColumnGroups(cats))
                    && ((exists k :: 0 <= k < |cats| && !HasValuesRole(cats[k])) && cat.values.Some? ==>
                          r.value.value == ColumnGroups(cat.values.value))
                    && ((exists k :: 0 <= k < |cats| && !HasValuesRole(cats[k])) && cat.values.None? ==>
                          NormalizedFrom(keyOf, cats, r.value.value)))
  {
    if |views| == 0 {
      return Ok(None);
    }
    var cat := views[0];
    var guard := PassesGuard(cat);
    if guard.Err? {
      return Err(guard.error);
    }
    if !guard.value {
      return Ok(None);
    }
    if cat.categories.None? {
      return Err(TypeError("categories is undefined"));
    }
    var cats := cat.categories.value;
    var categoryIndex := FindCategoryIndex(cats);
    var groups;
    if categoryIndex.Some? && cat.values.Some? {
      groups := ColumnGroups(cat.values.value);
    } else if categoryIndex.Some? {
      groups := Normalize(keyOf, cats);
    } else {
      groups := ColumnGroups(cats);
    }
    return Ok(Some(groups));
  }

  /** Column `k` takes part in the format loop and has a format string. */
  predicate Formatted(cats: seq<Column>, categoryIndex: Option<nat>, k: int)
  {
    0 <= k < |cats| && categoryIndex != Some(k) && cats[k].source.format != ""
  }

  /**
   * The loop of lines 212-217: the value format is the format of the last
   * category column, other than the category index, that has one, or "0".
   */
  method ValueFormat(cats: seq<Column>, categoryIndex: Option<nat>) returns (valueFormat: string)
    ensures (forall k :: !Formatted(cats, categoryIndex, k)) ==> valueFormat == "0"
    ensures forall k :: Formatted(cats, categoryIndex, k) && (forall l :: k < l ==> !Formatted(cats, categoryIndex, l)) ==>
              valueFormat == cats[k].source.format
  {
    valueFormat := "0";
    ghost var last: int := -1;
    for k := 0 to |cats|
      invariant -1 <= last < k
      invariant last == -1 ==> valueFormat == "0" && forall l :: l < k ==> !Formatted(cats, categoryIndex, l)
      invariant last >= 0 ==> Formatted(cats, categoryIndex, last) && valueFormat == cats[last].source.format
      invariant forall l :: last < l < k ==> !Formatted(cats, categoryIndex, l)
    {
      if categoryIndex == Some(k) {
        continue;
      }
      if cats[k].source.format != "" {
        valueFormat := cats[k].source.format;
        last := k;
      }
    }
    assert forall l :: l >= |cats| ==> !Formatted(cats, categoryIndex, l);
  }

  /**
   * The `forEach` of lines 219-266 over the groups' value arrays: each array is
   * sorted in place and its record built; the first empty group throws. The
   * arrays may be shared between groups: sorting a sorted array changes nothing.
   */
  method BuildPlotData(labels: seq<Option<Cell>>, columns: seq<array<real>>, f: Fractions)
    returns (r: Result<seq<BoxWhiskerData>>)
    requires |labels| == |columns|
    modifies set k | 0 <= k < |columns| :: columns[k]
    ensures r.Ok? <==> forall k :: 0 <= k < |columns| ==> columns[k].Length > 0
    ensures r.Ok? ==>
              && |r.value| == |columns|
              && forall k :: 0 <= k < |columns| ==>
                   columns[k][..] == SortSeq(old(columns[k][..])) &&
                   Ok(r.value[k]) == StatsOf(labels[k], SortSeq(old(columns[k][..])), f)
    ensures forall k :: 0 <= k < |columns| ==>
              columns[k][..] == old(columns[k][..]) || columns[k][..] == SortSeq(old(columns[k][..]))
  {
    ghost var olds := seq(|columns|, k requires 0 <= k < |columns| reads columns => columns[k][..]);
    assert forall m, m' :: 0 <= m < |columns| && 0 <= m' < |columns| && columns[m] == columns[m'] ==> olds[m] == olds[m'];
    ghost var sorted, specs := Plan(labels, olds, f);
    r := SortGroups(labels, columns, olds, sorted, specs, f);
    forall k | 0 <= k < |columns|
      ensures sorted[k] == SortSeq(olds[k]) && (|sorted[k]| > 0 ==> specs[k] == StatsOf(labels[k], sorted[k], f))
    {
      assert sorted[k] == SortSeq(olds[k]);
      assert specs[k] == StatsOf(labels[k], sorted[k], f);
    }
  }

  /** The loop of the plot-data `forEach`, stated against the planned contents and records. */
  method SortGroups(labels: seq<Option<Cell>>, columns: seq<array<real>>, ghost olds: seq<seq<real>>,
                    ghost sorted: seq<seq<real>>, ghost specs: seq<Result<BoxWhiskerData>>, f: Fractions)
    returns (r: Result<seq<BoxWhiskerData>>)
    requires |labels| == |columns| == |olds|
    requires forall m :: 0 <= m < |columns| ==> columns[m][..] == olds[m]
    requires forall m, m' :: 0 <= m < |columns| && 0 <= m' < |columns| && columns[m] == columns[m'] ==> olds[m] == olds[m']
    requires SortedEach(olds, sorted) && Specified(labels, sorted, specs, f)
    modifies set k | 0 <= k < |columns| :: columns[k]
    ensures r.Ok? <==> forall k :: 0 <= k < |columns| ==> |sorted[k]| > 0
    ensures r.Ok? ==> |r.value| == |columns| && forall k :: 0 <= k < |columns| ==> columns[k][..] == sorted[k] && Ok(r.value[k]) == specs[k]
    ensures forall k :: 0 <= k < |columns| ==> columns[k][..] == olds[k] || columns[k][..] == sorted[k]
  {
    var data: seq<BoxWhiskerData> := [];
    for k := 0 to |columns|
      invariant |data| == k
      invariant forall m :: 0 <= m < k ==> |sorted[m]| > 0
      invariant forall m :: 0 <= m < k ==> columns[m][..] == sorted[m]
      invariant forall m :: 0 <= m < k ==> Ok(data[m]) == specs[m]
      invariant forall m :: 0 <= m < |columns| ==> columns[m][..] == olds[m] || columns[m][..] == sorted[m]
    {
      var d := SortGroup(labels, columns, olds, sorted, specs, k, f);
      if d.Err? {
        return Err(d.error);
      }
      data := data + [d.value];
    }
    return Ok(data);
  }

  /** Names the sorted contents and the records the loop is to produce, without unfolding them. */
  lemma Plan(labels: seq<Option<Cell>>, olds: seq<seq<real>>, f: Fractions)
    returns (sorted: seq<seq<real>>, specs: seq<Result<BoxWhiskerData>>)
    requires |labels| == |olds|
    ensures SortedEach(olds, sorted) && Specified(labels, sorted, specs, f)
  {
    sorted := seq(|olds|, m requires 0 <= m < |olds| => SortSeq(olds[m]));
    specs := seq(|olds|, m requires 0 <= m < |olds| => StatsOf(labels[m], sorted[m], f));
    forall m | 0 <= m < |olds|
      ensures specs[m] == StatsOf(labels[m], sorted[m], f) && (specs[m].Ok? <==> |sorted[m]| > 0)
    {
    }
  }

  /** `sorted` holds the sorted `olds`, one for one. */
  ghost predicate SortedEach(olds: seq<seq<real>>, sorted: seq<seq<real>>)
  {
    |olds| == |sorted| && forall m {:trigger SortSeq(olds[m])} :: 0 <= m < |olds| ==> sorted[m] == SortSeq(olds[m])
  }

  /** `specs` are the records of the sorted contents `sorted`. */
  ghost predicate Specified(labels: seq<Option<Cell>>, sorted: seq<seq<real>>, specs: seq<Result<BoxWhiskerData>>, f: Fractions)
  {
    && |labels| == |sorted| == |specs|
    && forall m {:trigger StatsOf(labels[m], sorted[m], f)} :: 0 <= m < |specs| ==>
         specs[m] == StatsOf(labels[m], sorted[m], f) && (specs[m].Ok? <==> |sorted[m]| > 0)
  }

  /** One step of the loop: sorts group `k`, which holds its first content or that content sorted. */
  method SortGroup(labels: seq<Option<Cell>>, columns: seq<array<real>>, ghost olds: seq<seq<real>>,
                   ghost sorted: seq<seq<real>>, ghost specs: seq<Result<BoxWhiskerData>>, k: int, f: Fractions)
    returns (d: Result<BoxWhiskerData>)
    requires |labels| == |columns| == |olds| && 0 <= k < |columns|
    requires SortedEach(olds, sorted) && Specified(labels, sorted, specs, f)
    requires columns[k][..] == olds[k] || columns[k][..] == sorted[k]
    requires forall m :: 0 <= m < |columns| && columns[m] == columns[k] ==> olds[m] == olds[k]
    modifies columns[k]
    ensures d == specs[k] && columns[k][..] == sorted[k]
    ensures d.Ok? <==> |sorted[k]| > 0
    ensures forall m :: 0 <= m < |columns| && columns[m] == columns[k] ==> columns[m][..] == sorted[m]
  {
    assert sorted[k] == SortSeq(olds[k]);
    SortSeqIdempotent(olds[k]);
    d := GroupStatistics(columns[k], labels[k], f);
    assert d == StatsOf(labels[k], sorted[k], f);
    forall m | 0 <= m < |columns| && columns[m] == columns[k]
      ensures columns[m][..] == sorted[m]
    {
      assert olds[m] == olds[k] && sorted[m] == SortSeq(olds[m]);
    }
  }

  // ---------------------------------------------------------------------
  // Tooltip labels
  // ---------------------------------------------------------------------

  /**
   * The suffix `addOrd` gives an integer (lines 354-358): with `m = n % 100`,
   * "th" for 11 to 13, otherwise "st", "nd" or "rd" by `m % 10`, and "th"
   * where the ordinal table has no entry. JavaScript's `%` keeps the sign.
   */
  function OrdinalSuffix(n: int): (s: string)
    ensures |s| == 2
  {
    var m := JsRem(n, 100);
    if 10 < m < 14 then "th"
    else
      var d := JsRem(m, 10);
      if d == 1 then "st" else if d == 2 then "nd" else if d == 3 then "rd" else "th"
  }

  /** `addOrd(n)`: the decimal form of `n` followed by its ordinal suffix. */
  function AddOrd(n: int): (s: string)
    ensures |s| == |IntToString(n)| + 2 && s[..|s| - 2] == IntToString(n)
  {
    IntToString(n) + OrdinalSuffix(n)
  }

  /** 11, 12 and 13 modulo 100 take "th". */
  lemma AddOrdTeens(n: int)
    requires n >= 0 && 11 <= n % 100 <= 13
    ensures AddOrd(n) == IntToString(n) + "th"
  {
  }

  /** Otherwise a natural number's last digit chooses the suffix. */
  lemma AddOrdLastDigit(n: int)
    requires n >= 0 && !(11 <= n % 100 <= 13)
    ensures AddOrd(n) == IntToString(n) +
              (if n % 10 == 1 then "st" else if n % 10 == 2 then "nd" else if n % 10 == 3 then "rd" else "th")
  {
    var m := n % 100;
    assert JsRem(n, 100) == m;
    assert JsRem(m, 10) == m % 10;
    LastDigitOfRem(n);
  }

  /** Dropping the hundreds keeps the last digit. */
  lemma LastDigitOfRem(n: int)
    requires n >= 0
    ensures (n % 100) % 10 == n % 10
  {
    var q, m := n / 100, n % 100;
    assert n == 100 * q + m;
    var a, r := m / 10, m % 10;
    assert m == 10 * a + r;
    assert n == 10 * (10 * q + a) + r;
  }

  /** A negative argument always takes "th": its remainders are never positive. */
  lemma AddOrdNegative(n: int)
    requires n < 0
    ensures AddOrd(n) == IntToString(n) + "th"
  {
    var m := JsRem(n, 100);
    assert m <= 0;
    assert JsRem(m, 10) <= 0;
  }

  /** The number can be read back from its ordinal: different numbers get different labels. */
  lemma AddOrdInjective(m: int, n: int)
    requires AddOrd(m) == AddOrd(n)
    ensures m == n
  {
    var a, b := AddOrd(m), AddOrd(n);
    assert a[..|a| - 2] == IntToString(m);
    assert b[..|b| - 2] == IntToString(n);
    if m != n {
      IntToStringInjective(m, n);
    }
  }

  /**
   * The suffix `addOrd` gives any number, as the tooltips call it on
   * `fraction * 100`: JavaScript's `%` on reals, and the table lookup
   * `ords[m % 10]` that only the whole keys 1, 2 and 3 find. NaN and the
   * infinities leave NaN remainders, which find no entry either.
   */
  function OrdinalSuffixOf(n: Number): (s: string)
    ensures s == "st" || s == "nd" || s == "rd" || s == "th"
  {
    match n
    case Finite(x) =>
      var m := RealRem(x, 100.0);
      if 10.0 < m < 14.0 then "th"
      else
        var d := RealRem(m, 10.0);
        if d == 1.0 then "st" else if d == 2.0 then "nd" else if d == 3.0 then "rd" else "th"
    case _ => "th"
  }

  /** On whole numbers the suffix is the integer one. */
  lemma OrdinalSuffixOfWhole(k: int)
    ensures OrdinalSuffixOf(Finite(k as real)) == OrdinalSuffix(k)
  {
    var m := JsRem(k, 100);
    RealRemOfInt(k, 100);
    RealRemOfInt(m, 10);
  }

  /** A number with a fractional part, NaN or an infinity always takes "th". */
  lemma OrdinalSuffixOfFraction(n: Number)
    requires !(n.Finite? && Whole(n.r))
    ensures OrdinalSuffixOf(n) == "th"
  {
    if n.Finite? {
      RealRemOfFraction(n.r, 100);
      RealRemOfFraction(RealRem(n.r, 100.0), 10);
    }
  }

  /** The labels of the default fractions. */
  lemma AddOrdExamples()
    ensures AddOrd(5) == "5th" && AddOrd(25) == "25th" && AddOrd(75) == "75th" && AddOrd(95) == "95th"
  {
  }

  /** One label for each suffix rule. */
  lemma AddOrdSuffixExamples()
    ensures AddOrd(1) == "1st" && AddOrd(22) == "22nd" && AddOrd(103) == "103rd" && AddOrd(112) == "112th"
  {
  }

  /** The two whisker values the plugin draws, low first (`[data.LowWhisker, data.HighWhisker]`). */
  function WhiskerValues(d: BoxWhiskerData): (w: seq<Number>)
    ensures |w| == 2 && w[0] == d.lowWhisker && w[1] == d.highWhisker
  {
    [d.lowWhisker, d.highWhisker]
  }

  /**
   * The fraction the tooltip of whisker `index` names, as written
   * (lines 391-397 and 408-414): both branches of `index % 2 === 0` read the
   * high-whisker fraction.
   */
  function WhiskerTooltipAsWritten(index: nat, f: Fractions): Number
  {
    if index % 2 == 0 then f.highWhisker else f.highWhisker
  }

  /** The evident intent: even indexes are low whiskers and name the low-whisker fraction. */
  function WhiskerTooltip(index: nat, f: Fractions): Number
  {
    if index % 2 == 0 then f.lowWhisker else f.highWhisker
  }

  /** Each whisker's tooltip names the fraction its value is the quantile at. */
  lemma WhiskerTooltipNamesItsQuantile(labelName: Option<Cell>, s: seq<real>, f: Fractions, index: nat)
    requires |s| > 0 && index < 2
    ensures WhiskerValues(StatsOf(labelName, s, f).value)[index] == Quantile(s, WhiskerTooltip(index, f))
  {
    var d := StatsOf(labelName, s, f).value;
    StatsWhiskers(labelName, s, f);
    var w := WhiskerValues(d);
    if index == 0 {
      assert WhiskerTooltip(index, f) == f.lowWhisker;
      assert w[index] == Quantile(s, f.lowWhisker);
    } else {
      assert index == 1;
      assert WhiskerTooltip(1, f) == f.highWhisker;
      assert w[index] == Quantile(s, f.highWhisker);
    }
  }

  /**
   * As written, the low whisker's tooltip names the high-whisker fraction:
   * with the default fractions it says 95 where the value is the 5% quantile.
   */
  lemma WhiskerTooltipMislabelsLow(md: Metadata)
    requires md.objects == map[]
    ensures var f := FractionsOf(Some(md));
            WhiskerTooltipAsWritten(0, f) == Finite(0.95) && f.lowWhisker == Finite(0.05)
  {
    DefaultFractions(md);
  }
}
