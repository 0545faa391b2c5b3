/**
 * The sankey flow visual: the converter that validates the categorical data
 * view and keeps the rows with a source, a target and a positive value; the
 * first part of `update`, which lists the distinct node names, resolves every
 * link's endpoints to node positions and composes the link labels; and the
 * clamp applied when a node is dragged.
 */
module Sankey {
  import opened Wrappers
  import opened CategoricalView
  import KeyedJoin

  /**
   * The data view of the flows: labels and cells may be `null`. A value
   * cell is a finite number; NaN and infinite cells are not modelled here.
   */
  type FlowView = DataView<Option<string>, Option<real>>

  /** `isEmpty(str)` on a label: `null` or of length 0. */
  predicate IsEmptyLabel(str: Option<string>)
  {
    str.None? || |str.value| == 0
  }

  /** `isEmpty(v)` on a numeric cell: `!v` holds for `null` and 0, and a number has no `length`. */
  predicate IsEmptyValue(v: Option<real>)
  {
    v.None? || v.value == 0.0
  }

  /** `roles && roles["Source"] === undefined`: the first column has roles, and Source is not among them. */
  predicate SourceSecond(c: CategoryColumn<Option<string>>)
  {
    c.source.roles.Some? && "Source" !in c.source.roles.value
  }

  /** The category column the sources are read from (`sourceCat`); the targets come from the other one. */
  function SourceCat(dv: Option<FlowView>): (k: nat)
    requires !Rejected(dv)
    ensures k < 2
    ensures k == 1 <==> SourceSecond(First(dv))
  {
    if SourceSecond(First(dv)) then 1 else 0
  }

  /** Row `i` is skipped: an empty source, target or value, or a value not above 0. */
  predicate Skipped(dv: Option<FlowView>, i: nat)
    requires !Rejected(dv) && i < |Cells(dv)|
  {
    var sourceCat := SourceCat(dv);
    || IsEmptyLabel(Labels(dv, sourceCat)[i])
    || IsEmptyLabel(Labels(dv, 1 - sourceCat)[i])
    || IsEmptyValue(Cells(dv)[i])
    || Cells(dv)[i].value <= 0.0
  }

  /** One datum of the converter; its `name` is never set. */
  datatype Flow = Flow(source: string, target: string, value: real)

  function FlowAt(dv: Option<FlowView>, i: nat): Flow
    requires !Rejected(dv) && i < |Cells(dv)| && !Skipped(dv, i)
  {
    var sourceCat := SourceCat(dv);
    Flow(Labels(dv, sourceCat)[i].value, Labels(dv, 1 - sourceCat)[i].value, Cells(dv)[i].value)
  }

  /** The data the converter pushes for the first `n` rows. */
  function Flows(dv: Option<FlowView>, n: nat): seq<Flow>
    requires !Rejected(dv) && n <= |Cells(dv)|
  {
    if n == 0 then []
    else Flows(dv, n - 1) + (if Skipped(dv, n - 1) then [] else [FlowAt(dv, n - 1)])
  }

  /** The positions of the rows kept among the first `n`, in increasing order. */
  function KeptRows(dv: Option<FlowView>, n: nat): seq<nat>
    requires !Rejected(dv) && n <= |Cells(dv)|
  {
    if n == 0 then []
    else KeptRows(dv, n - 1) + (if Skipped(dv, n - 1) then [] else [n - 1])
  }

  /** `Sankey.converter` (lines 72-143). */
  method Converter(dv: Option<FlowView>) returns (data: seq<Flow>)
    ensures Rejected(dv) ==> data == []
    ensures !Rejected(dv) ==> data == Flows(dv, |Cells(dv)|)
  {
    data := [];
    if Rejected(dv) {
      return;
    }
    var categories := dv.value.categorical.value.categories.value;
    var values := Cells(dv);
    for index := 0 to |categories[0].values.value|
      invariant data == Flows(dv, index)
    {
      var sourceCat, targetCat := 0, 1;
      if SourceSecond(categories[0]) {
        sourceCat, targetCat := 1, 0;
      }
      var source, target := categories[sourceCat].values.value[index], categories[targetCat].values.value[index];
      if IsEmptyLabel(source) || IsEmptyLabel(target) || IsEmptyValue(values[index]) || values[index].value <= 0.0 {
        continue;
      }
      data := data + [Flow(source.value, target.value, values[index].value)];
    }
  }

  /**
   * The converter keeps, in their input order, exactly the rows with a
   * non-empty source and target and a positive value.
   */
  lemma {:induction false} FlowsAreKeptRows(dv: Option<FlowView>, n: nat)
    requires !Rejected(dv) && n <= |Cells(dv)|
    ensures var rows, data := KeptRows(dv, n), Flows(dv, n);
      && |rows| == |data|
      && (forall k, l :: 0 <= k < l < |rows| ==> rows[k] < rows[l])
      && (forall k :: 0 <= k < |rows| ==> rows[k] < n && !Skipped(dv, rows[k]) && data[k] == FlowAt(dv, rows[k]))
      && (forall i :: 0 <= i < n && !Skipped(dv, i) ==> i in rows)
  {
    if n > 0 {
      FlowsAreKeptRows(dv, n - 1);
    }
  }

  /** Every datum has a source, a target and a value above 0. */
  lemma FlowsPositive(dv: Option<FlowView>)
    requires !Rejected(dv)
    ensures forall f :: f in Flows(dv, |Cells(dv)|) ==> f.value > 0.0 && f.source != "" && f.target != ""
  {
    var data := Flows(dv, |Cells(dv)|);
    FlowsAreKeptRows(dv, |Cells(dv)|);
    forall f | f in data ensures f.value > 0.0 && f.source != "" && f.target != "" {
      var k :| 0 <= k < |data| && data[k] == f;
    }
  }

  /** The names `nodeList` receives: the source, then the target, of every datum. */
  function Endpoints(data: seq<Flow>): (names: seq<string>)
  {
    seq(2 * |data|, k requires 0 <= k < 2 * |data| => if k % 2 == 0 then data[k / 2].source else data[k / 2].target)
  }

  /** The `$.each` of lines 181-185. */
  method NodeList(data: seq<Flow>) returns (nodeList: seq<string>)
    ensures nodeList == Endpoints(data)
  {
    nodeList := [];
    for index := 0 to |data|
      invariant nodeList == Endpoints(data[..index])
    {
      nodeList := nodeList + [data[index].source];
      nodeList := nodeList + [data[index].target];
    }
    assert data[..|data|] == data;
  }

  /** A name is in the node list exactly when some datum has it as source or target. */
  lemma EndpointsOfData(data: seq<Flow>, name: string)
    ensures name in Endpoints(data) <==> exists k :: 0 <= k < |data| && (data[k].source == name || data[k].target == name)
  {
    var names := Endpoints(data);
    if exists k :: 0 <= k < |data| && (data[k].source == name || data[k].target == name) {
      var k :| 0 <= k < |data| && (data[k].source == name || data[k].target == name);
      if data[k].source == name {
        assert names[2 * k] == name;
      } else {
        assert names[2 * k + 1] == name;
      }
    }
  }

  /**
   * `d3.keys(d3.nest().key(name).map(nodeList))` (line 188): the distinct
   * names, taken here in the order they first occur.
   */
  function Nodes(nodeList: seq<string>): (nodes: seq<string>)
    ensures KeyedJoin.Distinct(nodes)
    ensures KeyedJoin.Elements(nodes) == KeyedJoin.Elements(nodeList)
  {
    KeyedJoin.Walk({}, nodeList, {}).0
  }

  /** Every source and target occurs in the node list exactly once. */
  lemma NodesOnce(data: seq<Flow>, k: nat)
    requires k < |data|
    ensures var nodes := Nodes(Endpoints(data));
      && (exists i :: 0 <= i < |nodes| && nodes[i] == data[k].source)
      && (exists i :: 0 <= i < |nodes| && nodes[i] == data[k].target)
      && (forall i, j :: 0 <= i < j < |nodes| ==> nodes[i] != nodes[j])
  {
    var nodes := Nodes(Endpoints(data));
    EndpointsOfData(data, data[k].source);
    EndpointsOfData(data, data[k].target);
    assert data[k].source in KeyedJoin.Elements(nodes);
    assert data[k].target in KeyedJoin.Elements(nodes);
  }

  /** The node list holds the names of the data and nothing else. */
  lemma NodesAreEndpoints(data: seq<Flow>, name: string)
    ensures name in Nodes(Endpoints(data)) <==> exists k :: 0 <= k < |data| && (data[k].source == name || data[k].target == name)
  {
    EndpointsOfData(data, name);
    assert name in Nodes(Endpoints(data)) <==> name in KeyedJoin.Elements(Endpoints(data));
  }

  /** `nodes.indexOf(name)`: the first position holding `name`, or -1. */
  function IndexOf(nodes: seq<string>, name: string): (i: int)
    ensures -1 <= i < |nodes|
    ensures i == -1 <==> name !in nodes
    ensures 0 <= i ==> nodes[i] == name && forall j :: 0 <= j < i ==> nodes[j] != name
  {
    if |nodes| == 0 then -1
    else if nodes[0] == name then 0
    else
      var i := IndexOf(nodes[1..], name);
      if i == -1 then -1 else i + 1
  }

  /** The link label with both options known: the closed form of lines 194-203. */
  function LabelOf(source: string, target: string, valueText: string, fullLinkLabel: bool, numberLinkLabel: bool): (s: string)
  {
    if fullLinkLabel && numberLinkLabel then source + " → " + target + ": " + valueText
    else if fullLinkLabel then source + " → " + target
    else if numberLinkLabel then valueText
    else ""
  }

  /**
   * Lines 194-203, step by step: the arrow form with names on (the datum's
   * own `name` is never set), ": " only when values follow, then the value.
   */
  method LinkLabel(value: Flow, valueText: string, fullLinkLabel: bool, numberLinkLabel: bool) returns (linkLabel: string)
    ensures linkLabel == LabelOf(value.source, value.target, valueText, fullLinkLabel, numberLinkLabel)
  {
    linkLabel := "";
    if fullLinkLabel {
      linkLabel := value.source + " " + "→" + " " + value.target;
      if numberLinkLabel {
        linkLabel := linkLabel + ": ";
      }
    }
    if numberLinkLabel {
      linkLabel := linkLabel + valueText;
    }
  }

  /** The four shapes of a label. */
  lemma LabelShapes(source: string, target: string, valueText: string, fullLinkLabel: bool, numberLinkLabel: bool)
    ensures var s := LabelOf(source, target, valueText, fullLinkLabel, numberLinkLabel);
      && (fullLinkLabel ==> s[..|source| + 3 + |target|] == source + " → " + target)
      && (numberLinkLabel ==> s[|s| - |valueText|..] == valueText)
      && (fullLinkLabel && numberLinkLabel ==> |s| == |source| + |target| + |valueText| + 5)
      && (fullLinkLabel && !numberLinkLabel ==> |s| == |source| + |target| + 3)
      && (!fullLinkLabel ==> s == if numberLinkLabel then valueText else "")
  {
  }

  /** A link of the graph handed to the layout: endpoints as positions in the node list. */
  datatype GraphLink = GraphLink(source: int, target: int, value: real, name: string)

  /** The `$.each` of lines 191-211; `valueText` is the decimal text JavaScript gives a number. */
  method Links(data: seq<Flow>, nodes: seq<string>, valueText: real -> string, fullLinkLabel: bool, numberLinkLabel: bool)
    returns (links: seq<GraphLink>)
    ensures |links| == |data|
    ensures forall k :: 0 <= k < |data| ==>
      links[k] == GraphLink(IndexOf(nodes, data[k].source), IndexOf(nodes, data[k].target), data[k].value,
                            LabelOf(data[k].source, data[k].target, valueText(data[k].value), fullLinkLabel, numberLinkLabel))
  {
    links := [];
    for index := 0 to |data|
      invariant |links| == index
      invariant forall k :: 0 <= k < index ==>
        links[k] == GraphLink(IndexOf(nodes, data[k].source), IndexOf(nodes, data[k].target), data[k].value,
                              LabelOf(data[k].source, data[k].target, valueText(data[k].value), fullLinkLabel, numberLinkLabel))
    {
      var value := data[index];
      var linkLabel := LinkLabel(value, valueText(value.value), fullLinkLabel, numberLinkLabel);
      links := links + [GraphLink(IndexOf(nodes, value.source), IndexOf(nodes, value.target), value.value, linkLabel)];
    }
  }

  /** `dataView.metadata && getValue(objects, linkLabels.showNames, false)`: off without metadata. */
  function ShowNames(dv: FlowView): bool
  {
    dv.metadata.Some? && Property(dv.metadata.value, "linkLabels", "showNames", false)
  }

  /** `dataView.metadata && getValue(objects, linkLabels.showValues, true)`: on by default, but off without metadata. */
  function ShowValues(dv: FlowView): bool
  {
    dv.metadata.Some? && Property(dv.metadata.value, "linkLabels", "showValues", true)
  }

  /** With metadata that sets nothing, labels show the value only; without metadata they are empty. */
  lemma DefaultLabels(dv: FlowView, f: Flow, text: string)
    ensures dv.metadata == Some(Metadata(map[])) ==> LabelOf(f.source, f.target, text, ShowNames(dv), ShowValues(dv)) == text
    ensures dv.metadata.None? ==> LabelOf(f.source, f.target, text, ShowNames(dv), ShowValues(dv)) == ""
  {
  }

  /** Stored link-label settings are used as stored; a setting left unset keeps its default. */
  lemma StoredLabels(dv: FlowView)
    requires dv.metadata.Some? && "linkLabels" in dv.metadata.value.objects
    ensures var stored := dv.metadata.value.objects["linkLabels"];
      && ShowNames(dv) == (if "showNames" in stored then stored["showNames"] else false)
      && ShowValues(dv) == (if "showValues" in stored then stored["showValues"] else true)
  {
  }

  datatype Graph = Graph(nodes: seq<string>, links: seq<GraphLink>)

  /** `update` up to the layout (lines 155-228): nothing without data views or data, else the graph. */
  method Update(dataViews: seq<Option<FlowView>>, valueText: real -> string) returns (graph: Option<Graph>)
    ensures |dataViews| == 0 ==> graph.None?
    ensures |dataViews| > 0 && Rejected(dataViews[0]) ==> graph.None?
    ensures graph.Some? ==>
      && !Rejected(dataViews[0])
      && var data := Flows(dataViews[0], |Cells(dataViews[0])|);
      && |data| > 0
      && graph.value.nodes == Nodes(Endpoints(data))
      && |graph.value.links| == |data|
      && (forall k :: 0 <= k < |data| ==>
            var l := graph.value.links[k];
            && 0 <= l.source < |graph.value.nodes| && graph.value.nodes[l.source] == data[k].source
            && 0 <= l.target < |graph.value.nodes| && graph.value.nodes[l.target] == data[k].target
            && l.value == data[k].value > 0.0
            && l.name == LabelOf(data[k].source, data[k].target, valueText(data[k].value),
                                 ShowNames(dataViews[0].value), ShowValues(dataViews[0].value)))
    ensures |dataViews| > 0 && !Rejected(dataViews[0]) && |Flows(dataViews[0], |Cells(dataViews[0])|)| > 0 ==> graph.Some?
  {
    if |dataViews| < 1 {
      return None;
    }
    var data := Converter(dataViews[0]);
    if |data| == 0 {
      return None;
    }
    var dv := dataViews[0].value;
    var nodeList := NodeList(data);
    var nodes := Nodes(nodeList);
    var links := Links(data, nodes, valueText, ShowNames(dv), ShowValues(dv));
    forall k | 0 <= k < |data|
      ensures 0 <= IndexOf(nodes, data[k].source) && 0 <= IndexOf(nodes, data[k].target)
    {
      NodesOnce(data, k);
    }
    FlowsPositive(dataViews[0]);
    graph := Some(Graph(nodes, links));
  }

  /** `Math.max(30, extent - margins)`: the drawing size (margins 0, 5, 8, 0). */
  function DrawingSize(viewportWidth: real, viewportHeight: real): (size: (real, real))
    ensures size.0 >= 30.0 && size.1 >= 30.0
    ensures viewportWidth - 5.0 >= 30.0 ==> size.0 == viewportWidth - 5.0
    ensures viewportHeight - 8.0 >= 30.0 ==> size.1 == viewportHeight - 8.0
  {
    var width := viewportWidth - 0.0 - 5.0;
    var height := viewportHeight - 0.0 - 8.0;
    (if width > 30.0 then width else 30.0, if height > 30.0 then height else 30.0)
  }

  /** `Math.max(0, Math.min(hi, v))`. */
  function Clamp(v: real, hi: real): (r: real)
    ensures 0.0 <= r
    ensures 0.0 <= hi ==> r <= hi
    ensures 0.0 <= v <= hi ==> r == v
    ensures hi < 0.0 ==> r == 0.0
  {
    var m := if hi < v then hi else v;
    if 0.0 < m then m else 0.0
  }

  /** A node as the layout leaves it: position `x`, `y` and extent `dx`, `dy`. */
  class LayoutNode {
    const name: string
    var x: real
    var y: real
    const dx: real
    const dy: real

    constructor (name: string, x: real, y: real, dx: real, dy: real)
      ensures this.name == name && this.x == x && this.y == y && this.dx == dx && this.dy == dy
    {
      this.name, this.x, this.y, this.dx, this.dy := name, x, y, dx, dy;
    }

    /**
     * The drag handler (lines 306-312): the node follows the pointer but stays
     * inside the drawing, with its left edge in [0, width - dx] and its top in
     * [0, height - dy].
     */
    method Drag(eventX: real, eventY: real, width: real, height: real)
      modifies this
      ensures x == Clamp(eventX, width - dx) && y == Clamp(eventY, height - dy)
      ensures 0.0 <= x && (dx <= width ==> x + dx <= width)
      ensures 0.0 <= y && (dy <= height ==> y + dy <= height)
    {
      x := Clamp(eventX, width - dx);
      y := Clamp(eventY, height - dy);
    }
  }
}
