/**
 * The part of a categorical data view the two sankey visuals read: two
 * category columns (labels of type `L`), a value column (cells of type `V`)
 * and the visual's metadata objects, every level of which may be missing.
 */
module CategoricalView {
  import opened Wrappers

  /** The roles a column is bound to (`source.roles`), if any. */
  datatype ColumnSource = ColumnSource(roles: Option<map<string, bool>>)

  datatype CategoryColumn<L> = CategoryColumn(source: ColumnSource, values: Option<seq<L>>)

  datatype ValueColumn<V> = ValueColumn(values: Option<seq<V>>)

  datatype Categorical<L, V> = Categorical(categories: Option<seq<CategoryColumn<L>>>, values: Option<seq<ValueColumn<V>>>)

  /** `metadata.objects`: the boolean properties set on the visual, by object and property name. */
  datatype Metadata = Metadata(objects: map<string, map<string, bool>>)

  datatype DataView<L, V> = DataView(metadata: Option<Metadata>, categorical: Option<Categorical<L, V>>)

  /**
   * The guard both converters start with: a missing data view, categorical
   * part, first or second category column, value column or list of values,
   * or columns of different lengths leave nothing to draw.
   */
  predicate Rejected<L, V>(dv: Option<DataView<L, V>>)
  {
    || dv.None?
    || dv.value.categorical.None?
    || (var cat := dv.value.categorical.value;
        || cat.categories.None?
        || |cat.categories.value| < 2
        || cat.categories.value[0].values.None?
        || cat.categories.value[1].values.None?
        || |cat.categories.value[1].values.value| != |cat.categories.value[0].values.value|
        || cat.values.None?
        || |cat.values.value| == 0
        || cat.values.value[0].values.None?
        || |cat.categories.value[1].values.value| != |cat.values.value[0].values.value|)
  }

  /** The first category column of a data view that passed the guard. */
  function First<L, V>(dv: Option<DataView<L, V>>): CategoryColumn<L>
    requires !Rejected(dv)
  {
    dv.value.categorical.value.categories.value[0]
  }

  /** The labels of category column `k` (0 or 1) of a data view that passed the guard. */
  function Labels<L, V>(dv: Option<DataView<L, V>>, k: nat): (r: seq<L>)
    requires !Rejected(dv) && k < 2
    ensures |r| == |Cells(dv)|
  {
    dv.value.categorical.value.categories.value[k].values.value
  }

  /** The cells of the first value column of a data view that passed the guard. */
  function Cells<L, V>(dv: Option<DataView<L, V>>): seq<V>
    requires !Rejected(dv)
  {
    dv.value.categorical.value.values.value[0].values.value
  }

  /**
   * `DataViewObjects.getValue(objects, {objectName, propertyName}, default)`:
   * the property when the object has it, else the default.
   */
  function Property(md: Metadata, objectName: string, propertyName: string, default: bool): (b: bool)
    ensures objectName in md.objects && propertyName in md.objects[objectName] ==> b == md.objects[objectName][propertyName]
    ensures objectName in md.objects && propertyName !in md.objects[objectName] ==> b == default
    ensures objectName !in md.objects ==> b == default
  {
    if objectName in md.objects && propertyName in md.objects[objectName] then md.objects[objectName][propertyName]
    else default
  }
}
