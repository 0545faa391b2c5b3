/**
 * The Gantt sample visual: the converter from a matrix data view to the view
 * model (one task per row of the matrix), the recursive descent that finds a
 * task's duration and completion, the value lookup by role, the closed-form
 * row geometry, the guard of `update` with the view-model assignment, and the
 * two shape filters that split the tasks between bars and milestones.
 */
module Gantt {
  import opened Wrappers
  import opened JsNumber

  /** A cell of the matrix; dates are opaque (milliseconds). */
  datatype Cell = Null | Text(s: string) | Num(x: real) | Flag(b: bool) | Date(ms: real)

  /** JavaScript truthiness of a cell. */
  predicate CellTruthy(c: Cell)
  {
    match c
    case Null => false
    case Text(s) => s != ""
    case Num(x) => x != 0.0
    case Flag(b) => b
    case Date(_) => true
  }

  /** `{ value }` of a node's `values` entry; measures are numbers (NaN is not modelled). */
  datatype NodeValue = NodeValue(value: Option<real>)

  /**
   * A node of the row hierarchy: its own value, its measure values by column,
   * and its children; `hasChildren` is false where `children` is undefined,
   * and `children` is then empty.
   */
  datatype TreeNode = TreeNode(value: Cell, values: Option<map<nat, NodeValue>>, hasChildren: bool, children: seq<TreeNode>)

  /** The metadata of a measure column: the roles it is bound to. */
  datatype ColumnMeta = ColumnMeta(roles: Option<map<string, bool>>)

  datatype Level = Level(sources: Option<seq<ColumnMeta>>)
  datatype ColumnsHierarchy = ColumnsHierarchy(levels: Option<seq<Level>>)
  datatype RowsHierarchy = RowsHierarchy(root: Option<TreeNode>)
  datatype Matrix = Matrix(rows: Option<RowsHierarchy>, columns: Option<ColumnsHierarchy>)
  datatype DataView = DataView(matrix: Option<Matrix>)

  /** A task as `getTasks` builds it; its end date, tooltip and selection id are left out. */
  datatype Task = Task(
    index: nat, name: Cell, start: Cell, resource: Cell, id: string,
    duration: real, completion: real, shape: string, color: string, group: Cell, description: string)

  datatype ViewModel = ViewModel(tasks: seq<Task>, fixedHeight: real, paddingLines: real, paddingTasks: real)

  const FixedHeight: real := 45.0
  const PaddingLines: real := 0.0
  const PaddingTasks: real := 0.15

  /**
   * `getValue` (lines 353-361): 0 when the first column is missing or has no
   * roles; otherwise `values[0]` when it carries the role and `values[1]` when
   * not, a missing entry or a falsy value giving 0.
   */
  function GetValue(columnSource: seq<ColumnMeta>, roleName: string, values: map<nat, NodeValue>): (v: real)
    ensures (|columnSource| == 0 || columnSource[0].roles.None?) ==> v == 0.0
    ensures |columnSource| > 0 && columnSource[0].roles.Some? ==>
      var roles := columnSource[0].roles.value;
      var at := if roleName in roles && roles[roleName] then 0 else 1;
      v == (if at in values && values[at].value.Some? then values[at].value.value else 0.0)
  {
    if |columnSource| == 0 || columnSource[0].roles.None? then 0.0
    else
      var roles := columnSource[0].roles.value;
      var nodeValue := if roleName in roles && roles[roleName] then (if 0 in values then Some(values[0]) else None)
                       else (if 1 in values then Some(values[1]) else None);
      if nodeValue.Some? then
        var x := nodeValue.value.value;
        if x.Some? && x.value != 0.0 then x.value else 0.0
      else 0.0
  }

  /** The node's own measures are used: it has a `values[0]` entry. */
  predicate HasValues(n: TreeNode)
  {
    n.values.Some? && 0 in n.values.value
  }

  /** `child.children[0]`, which `undefined` stands for when there is none. */
  function FirstChild(n: TreeNode): (c: Option<TreeNode>)
    ensures c.Some? ==> n.hasChildren && |n.children| > 0 && c.value == n.children[0]
  {
    if n.hasChildren && |n.children| > 0 then Some(n.children[0]) else None
  }

  /** `{duration, completion}` as a pair. */
  function Measures(columnSource: seq<ColumnMeta>, n: TreeNode): (r: (real, real))
    requires HasValues(n)
  {
    (GetValue(columnSource, "Duration", n.values.value), GetValue(columnSource, "Completion", n.values.value))
  }

  /** `getDurationAndCompletion` (lines 333-351). */
  function DurationAndCompletion(columnSource: seq<ColumnMeta>, child: Option<TreeNode>): (r: (real, real))
    ensures child.None? || |columnSource| == 0 ==> r == (0.0, 0.0)
  {
    if child.None? || !(|columnSource| > 0) then (0.0, 0.0)
    else Descend(columnSource, child.value)
  }

  /** The recursive part: this node's measures, or the first child's, or zeros (`getDurationAndCompletion([], null)`). */
  function Descend(columnSource: seq<ColumnMeta>, n: TreeNode): (r: (real, real))
    requires |columnSource| > 0
    decreases n
  {
    if HasValues(n) then Measures(columnSource, n)
    else if n.hasChildren then
      if |n.children| > 0 then
        assert n.children[0] in n.children;
        Descend(columnSource, n.children[0])
      else (0.0, 0.0)
    else (0.0, 0.0)
  }

  /** The leftmost path down from a node: the node, its first child, that child's first child, and so on. */
  function Spine(n: TreeNode): (s: seq<TreeNode>)
    ensures |s| > 0 && s[0] == n
    decreases n
  {
    if n.hasChildren && |n.children| > 0 then
      assert n.children[0] in n.children;
      [n] + Spine(n.children[0])
    else [n]
  }

  /**
   * The descent reads the measures of the first node on the leftmost path
   * that has values, and gives zeros when no node on the path has any.
   */
  lemma {:induction false} DescentFindsFirstValues(columnSource: seq<ColumnMeta>, n: TreeNode, k: nat)
    requires |columnSource| > 0
    requires k <= |Spine(n)|
    requires forall j :: 0 <= j < k ==> !HasValues(Spine(n)[j])
    decreases n
    ensures k < |Spine(n)| && HasValues(Spine(n)[k]) ==>
              DurationAndCompletion(columnSource, Some(n)) == Measures(columnSource, Spine(n)[k])
    ensures k == |Spine(n)| ==> DurationAndCompletion(columnSource, Some(n)) == (0.0, 0.0)
  {
    if k > 0 {
      assert !HasValues(n);
      if FirstChild(n).None? {
        assert Spine(n) == [n];
      } else {
        var c := n.children[0];
        assert c in n.children;
        var s := Spine(n);
        assert s == [n] + Spine(c);
        forall j | 0 <= j < k - 1 ensures !HasValues(Spine(c)[j]) {
          assert Spine(c)[j] == s[j + 1];
        }
        DescentFindsFirstValues(columnSource, c, k - 1);
      }
    }
  }

  /** `getStartDateOfTask` (lines 310-316): the first child's value, or `null`. */
  function StartDateOfTask(child: TreeNode): (c: Cell)
    ensures FirstChild(child).None? ==> c == Null
    ensures FirstChild(child).Some? ==> c == FirstChild(child).value.value
  {
    match FirstChild(child)
    case None => Null
    case Some(c) => c.value
  }

  /**
   * `getResource` (lines 318-330), as written: "" without a grandchild, else
   * the boolean negation of the grandchild's value rather than the value.
   */
  function Resource(child: TreeNode): (c: Cell)
  {
    match FirstChild(child)
    case None => Text("")
    case Some(c) =>
      match FirstChild(c)
      case None => Text("")
      case Some(g) => Flag(!CellTruthy(g.value))
  }

  /** The resource is never the grandchild's text: it is "" or a boolean, true exactly for a falsy value. */
  lemma ResourceIsNegation(child: TreeNode)
    ensures Resource(child) == Text("") || Resource(child).Flag?
    ensures FirstChild(child).Some? && FirstChild(FirstChild(child).value).Some? ==>
      Resource(child) == Flag(!CellTruthy(FirstChild(FirstChild(child).value).value.value))
    ensures Resource(child).Flag? ==> FirstChild(child).Some? && FirstChild(FirstChild(child).value).Some?
  {
  }

  /** The task built for the `index`-th child of the root (lines 283-306). */
  function TaskOf(columnSource: seq<ColumnMeta>, child: TreeNode, index: nat): Task
  {
    var dc := DurationAndCompletion(columnSource, Some(child));
    Task(index, child.value, StartDateOfTask(child), Resource(child), "ID" + NatToString(index),
         dc.0, dc.1 * 100.0, "none", "green", Null, "")
  }

  /** `getTasks` (lines 282-308): one task per child of the root, built field by field. */
  method GetTasks(columnSource: seq<ColumnMeta>, root: TreeNode) returns (r: Result<seq<Task>>)
    ensures !root.hasChildren <==> r.Err?
    ensures r.Ok? ==> |r.value| == |root.children|
    ensures r.Ok? ==> forall k :: 0 <= k < |r.value| ==> r.value[k] == TaskOf(columnSource, root.children[k], k)
  {
    if !root.hasChildren {
      return Err(TypeError("root.children is undefined"));
    }
    var children := root.children;
    var tasks: seq<Task> := [];
    for index := 0 to |children|
      invariant |tasks| == index
      invariant forall k :: 0 <= k < index ==> tasks[k] == TaskOf(columnSource, children[k], k)
    {
      var child := children[index];
      var task := Task(0, Null, Null, Null, "", 0.0, 0.0, "", "", Null, "");
      task := task.(index := index);
      task := task.(name := child.value);
      task := task.(start := StartDateOfTask(child));
      task := task.(resource := Resource(child));
      task := task.(id := "ID" + NatToString(index));
      var durationAndCompletion := DurationAndCompletion(columnSource, Some(child));
      task := task.(duration := durationAndCompletion.0);
      task := task.(completion := durationAndCompletion.1 * 100.0);
      task := task.(shape := "none", color := "green");
      task := task.(group := Null, description := "");
      tasks := tasks + [task];
    }
    return Ok(tasks);
  }

  /** Tasks carry their position, a distinct id, a completion in percent, and are bars shaded green. */
  lemma TasksOfRoot(columnSource: seq<ColumnMeta>, children: seq<TreeNode>, i: nat, j: nat)
    requires i < |children| && j < |children|
    ensures var a, b := TaskOf(columnSource, children[i], i), TaskOf(columnSource, children[j], j);
      && a.index == i && a.id[..2] == "ID" && a.id[2..] == NatToString(i)
      && (i != j ==> a.id != b.id)
      && a.completion == DurationAndCompletion(columnSource, Some(children[i])).1 * 100.0
      && a.shape == "none" && a.color == "green"
  {
    var a, b := TaskOf(columnSource, children[i], i), TaskOf(columnSource, children[j], j);
    assert a.id[2..] == NatToString(i);
    if i != j {
      NatToStringInjective(i, j);
      assert b.id[2..] == NatToString(j);
    }
  }

  /** `matrix.columns.levels[0].sources`, or [] when any part is missing (lines 265-270). */
  function ColumnSource(m: Matrix): (cs: seq<ColumnMeta>)
    ensures m.columns.None? ==> cs == []
  {
    if m.columns.Some? && m.columns.value.levels.Some? && |m.columns.value.levels.value| > 0
       && m.columns.value.levels.value[0].sources.Some?
    then m.columns.value.levels.value[0].sources.value
    else []
  }

  /**
   * What the converter makes of a data view: the fixed layout constants
   * always; no tasks without a row root; otherwise one task per child of
   * the root, and a throw when the root has no children.
   */
  ghost predicate ConvertedFrom(dv: Option<DataView>, r: Result<ViewModel>)
  {
    && (r.Ok? ==> r.value.fixedHeight == 45.0 && r.value.paddingLines == 0.0 && r.value.paddingTasks == 0.15)
    && ((dv.None? || dv.value.matrix.None? || dv.value.matrix.value.rows.None? || dv.value.matrix.value.rows.value.root.None?)
         ==> r == Ok(ViewModel([], 45.0, 0.0, 0.15)))
    && (dv.Some? && dv.value.matrix.Some? && dv.value.matrix.value.rows.Some? && dv.value.matrix.value.rows.value.root.Some? ==>
         var root := dv.value.matrix.value.rows.value.root.value;
         && (r.Err? <==> !root.hasChildren)
         && (r.Ok? ==>
               && |r.value.tasks| == |root.children|
               && forall k :: 0 <= k < |r.value.tasks| ==>
                    r.value.tasks[k] == TaskOf(ColumnSource(dv.value.matrix.value), root.children[k], k)))
  }

  /** `converter` (lines 249-280). */
  method Converter(dv: Option<DataView>) returns (r: Result<ViewModel>)
    ensures ConvertedFrom(dv, r)
  {
    if dv.None? || dv.value.matrix.None? || dv.value.matrix.value.rows.None? || dv.value.matrix.value.rows.value.root.None? {
      return Ok(ViewModel([], FixedHeight, PaddingLines, PaddingTasks));
    }
    var columnSource := ColumnSource(dv.value.matrix.value);
    var tasks := GetTasks(columnSource, dv.value.matrix.value.rows.value.root.value);
    if tasks.Err? {
      return Err(tasks.error);
    }
    return Ok(ViewModel(tasks.value, FixedHeight, PaddingLines, PaddingTasks));
  }

  /** `getBarY(i)`. */
  function BarY(m: ViewModel, i: int): real
  {
    m.fixedHeight * (i as real) + m.fixedHeight * m.paddingTasks
  }

  /** `getBarHeight()`. */
  function BarHeight(m: ViewModel): real
  {
    m.fixedHeight - m.fixedHeight * m.paddingTasks * 2.0
  }

  /** `getFontSize()`. */
  function FontSize(m: ViewModel): real
  {
    m.fixedHeight - m.fixedHeight * m.paddingTasks * 2.0
  }

  /** `getLabelY(i)`, with its final `y - 16`. */
  function LabelY(m: ViewModel, i: int): real
  {
    var y := m.fixedHeight * (i as real) + m.fixedHeight * m.paddingTasks + FontSize(m);
    y - 16.0
  }

  /** `getBarLineY(i)` and `getBarLineHeight()`: the row stripes. */
  function BarLineY(m: ViewModel, i: int): real
  {
    m.fixedHeight * (i as real) + m.fixedHeight * m.paddingLines
  }

  function BarLineHeight(m: ViewModel): real
  {
    m.fixedHeight - m.fixedHeight * m.paddingLines * 2.0
  }

  /** `getTasklineOpacity(i)`: `i % 2` is truthy on odd rows. */
  function TasklineOpacity(i: int): real
  {
    if JsRem(i, 2) != 0 then 0.0 else 0.04
  }

  /** `getNowlineY()`. */
  function NowlineY(m: ViewModel): real
  {
    (|m.tasks| as real) * m.fixedHeight
  }

  /** The vertical part of `getMilestonePos`. */
  function MilestoneY(m: ViewModel, task: Task): real
  {
    ((task.index as real) + 0.5) * m.fixedHeight
  }

  /**
   * Rows start `fixedHeight` apart; with a padding between 0 and one half the
   * bar height is not negative and a bar ends before the next one starts.
   */
  lemma BarsDoNotOverlap(m: ViewModel, i: int)
    requires m.fixedHeight >= 0.0 && 0.0 <= m.paddingTasks <= 0.5
    ensures BarY(m, i + 1) - BarY(m, i) == m.fixedHeight
    ensures BarHeight(m) >= 0.0
    ensures BarY(m, i) + BarHeight(m) <= BarY(m, i + 1)
    ensures BarY(m, i) >= BarLineY(m, i) || m.paddingLines > m.paddingTasks
  {
    assert m.fixedHeight * m.paddingTasks * 2.0 <= m.fixedHeight * 1.0;
    assert m.fixedHeight * ((i + 1) as real) == m.fixedHeight * (i as real) + m.fixedHeight;
    assert m.paddingLines <= m.paddingTasks ==> m.fixedHeight * m.paddingLines <= m.fixedHeight * m.paddingTasks;
  }

  /** A label's baseline sits 16 above the bottom of its bar: the font size is the bar height. */
  lemma LabelAboveBarBottom(m: ViewModel, i: int)
    ensures FontSize(m) == BarHeight(m)
    ensures LabelY(m, i) == BarY(m, i) + BarHeight(m) - 16.0
  {
  }

  /** A milestone is centred on its task's row, at the middle of where the bar would be. */
  lemma MilestoneCentred(m: ViewModel, task: Task)
    ensures MilestoneY(m, task) == BarY(m, task.index) + BarHeight(m) / 2.0
  {
  }

  /** Even rows are shaded at 0.04, odd ones (of either sign) not at all. */
  lemma StripeOpacity(i: int)
    ensures i % 2 == 0 ==> TasklineOpacity(i) == 0.04
    ensures i % 2 == 1 ==> TasklineOpacity(i) == 0.0
  {
  }

  /**
   * Without line padding the stripes tile the rows exactly, and the now line
   * reaches the bottom of the last one.
   */
  lemma StripesTile(m: ViewModel, i: int)
    requires m.paddingLines == 0.0
    ensures BarLineY(m, i) + BarLineHeight(m) == BarLineY(m, i + 1)
    ensures NowlineY(m) == BarLineY(m, |m.tasks|)
  {
    assert m.fixedHeight * ((i + 1) as real) == m.fixedHeight * (i as real) + m.fixedHeight;
  }

  /** The converter's constants give bars 31.5 high starting 6.75 into each 45-high row. */
  lemma ConverterGeometry(tasks: seq<Task>, i: int)
    ensures var m := ViewModel(tasks, FixedHeight, PaddingLines, PaddingTasks);
      && BarHeight(m) == 31.5 && BarY(m, i) == 45.0 * (i as real) + 6.75
      && LabelY(m, i) == 45.0 * (i as real) + 22.25
      && NowlineY(m) == 45.0 * (|tasks| as real)
  {
  }

  /** `tasks.filter(task => task.shape === "none")`: the tasks drawn as bars (line 505). */
  function Bars(tasks: seq<Task>): (r: seq<Task>)
    ensures forall t :: t in r ==> t in tasks && t.shape == "none"
  {
    if |tasks| == 0 then []
    else (if tasks[0].shape == "none" then [tasks[0]] else []) + Bars(tasks[1..])
  }

  /** `tasks.filter(task => task.shape !== "none")`: the tasks drawn as milestones (line 481). */
  function Milestones(tasks: seq<Task>): (r: seq<Task>)
    ensures forall t :: t in r ==> t in tasks && t.shape != "none"
  {
    if |tasks| == 0 then []
    else (if tasks[0].shape != "none" then [tasks[0]] else []) + Milestones(tasks[1..])
  }

  /** Every task is drawn exactly once, as a bar or as a milestone. */
  lemma {:induction false} ShapesPartition(tasks: seq<Task>)
    ensures multiset(Bars(tasks)) + multiset(Milestones(tasks)) == multiset(tasks)
    ensures |Bars(tasks)| + |Milestones(tasks)| == |tasks|
  {
    if |tasks| > 0 {
      ShapesPartition(tasks[1..]);
      assert tasks == [tasks[0]] + tasks[1..];
    }
  }

  /** The converter only makes bars: every task it builds is drawn as a bar, in order, and none as a milestone. */
  lemma {:induction false} ConvertedTasksAreBars(tasks: seq<Task>)
    requires forall k :: 0 <= k < |tasks| ==> tasks[k].shape == "none"
    ensures Bars(tasks) == tasks && Milestones(tasks) == []
  {
    if |tasks| > 0 {
      ConvertedTasksAreBars(tasks[1..]);
      assert tasks == [tasks[0]] + tasks[1..];
    }
  }

  /**
   * The guard of `update` as written (line 380), `!dataViews && !dataViews[0]`:
   * `Ok(true)` means return early. Without data views it reads `[0]` of
   * `undefined` and throws; with them it never returns early.
   */
  function UpdateGuardAsWritten(dataViews: Option<seq<Option<DataView>>>): (r: Result<bool>)
  {
    if dataViews.None? then Err(TypeError("dataViews is undefined"))
    else Ok(false)
  }

  /** `dataViews[0]`: `undefined` past the end of the list. */
  function FirstView(dataViews: seq<Option<DataView>>): (dv: Option<DataView>)
    ensures dv.Some? ==> |dataViews| > 0 && dv == dataViews[0]
    ensures |dataViews| > 0 ==> dv == dataViews[0]
  {
    if |dataViews| == 0 then None else dataViews[0]
  }

  /** The early return the guard is meant to be: no data views, or no first one. */
  function UpdateGuard(dataViews: Option<seq<Option<DataView>>>): (stop: bool)
    ensures stop <==> dataViews.None? || |dataViews.value| == 0 || dataViews.value[0].None?
  {
    dataViews.None? || |dataViews.value| == 0 || dataViews.value[0].None?
  }

  /** The guard as written stops nothing: missing data views throw, an empty list goes on. */
  lemma UpdateGuardAsWrittenNeverStops(dataViews: Option<seq<Option<DataView>>>)
    ensures UpdateGuardAsWritten(dataViews) != Ok(true)
    ensures dataViews.None? ==> UpdateGuardAsWritten(dataViews).Err? && UpdateGuard(dataViews)
    ensures dataViews == Some([]) ==> UpdateGuardAsWritten(dataViews) == Ok(false) && UpdateGuard(dataViews)
  {
  }

  /** The visual's state that the geometry reads: the view model `update` assigns. */
  class GanttChart {
    var viewModel: ViewModel

    constructor ()
      ensures viewModel == ViewModel([], FixedHeight, PaddingLines, PaddingTasks)
    {
      viewModel := ViewModel([], FixedHeight, PaddingLines, PaddingTasks);
    }

    /**
     * The start of `update` (lines 378-390) as written: missing data views
     * throw in the guard; otherwise the first data view (`undefined` for an
     * empty list) is converted and the result kept.
     */
    method Update(dataViews: Option<seq<Option<DataView>>>) returns (r: Result<()>)
      modifies this
      ensures dataViews.None? ==> r.Err? && viewModel == old(viewModel)
      ensures dataViews.Some? ==>
        ConvertedFrom(FirstView(dataViews.value), if r.Ok? then Ok(viewModel) else Err(r.error))
      ensures r.Err? ==> viewModel == old(viewModel)
      ensures r.Ok? ==> Bars(viewModel.tasks) == viewModel.tasks && Milestones(viewModel.tasks) == []
    {
      var stop := UpdateGuardAsWritten(dataViews);
      if stop.Err? {
        return Err(stop.error);
      }
      // the early return of line 381 is never taken
      UpdateGuardAsWrittenNeverStops(dataViews);
      r := Store(FirstView(dataViews.value));
    }

    /** `update` with the guard it is meant to have: stop without data, else as written. */
    method UpdateIntended(dataViews: Option<seq<Option<DataView>>>) returns (r: Result<()>)
      modifies this
      ensures UpdateGuard(dataViews) ==> r == Ok(()) && viewModel == old(viewModel)
      ensures !UpdateGuard(dataViews) ==>
        ConvertedFrom(dataViews.value[0], if r.Ok? then Ok(viewModel) else Err(r.error))
      ensures r.Err? ==> viewModel == old(viewModel)
      ensures !UpdateGuard(dataViews) && r.Ok? ==> Bars(viewModel.tasks) == viewModel.tasks && Milestones(viewModel.tasks) == []
    {
      if UpdateGuard(dataViews) {
        return Ok(());
      }
      r := Store(dataViews.value[0]);
    }

    /** Lines 383-389: convert the data view and keep the view model, unless converting throws. */
    method Store(dv: Option<DataView>) returns (r: Result<()>)
      modifies this
      ensures ConvertedFrom(dv, if r.Ok? then Ok(viewModel) else Err(r.error))
      ensures r.Err? ==> viewModel == old(viewModel)
      ensures r.Ok? ==> Bars(viewModel.tasks) == viewModel.tasks && Milestones(viewModel.tasks) == []
    {
      var vm := Converter(dv);
      if vm.Err? {
        return Err(vm.error);
      }
      ConvertedTasksAreBars(vm.value.tasks);
      viewModel := vm.value;
      return Ok(());
    }
  }
}
