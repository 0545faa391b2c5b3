# Power BI custom visuals: box-and-whisker, Sankey, Sankey bar chart and Gantt

This project is a Dafny model of the data side of four custom visuals from the
Power BI visuals repository. It also models the d3 box plot plugin that the
box-and-whisker visual draws with.

- **Box-and-whisker visual** (`boxWhisker.ts`):
  - turns a categorical data view into one group of values per box;
  - sorts each group and computes its quantiles with d3 semantics;
  - collects the outliers with two scans and a threshold pass;
  - builds one record per box;
  - derives the y scales from the records;
  - formats the ordinal quantile names used by its tooltips.
- **d3 box plugin** (`d3.plugin.boxWhisker.js`):
  - a chart object holding a chained configuration;
  - a render step that either computes quartiles, whiskers, outliers and the mean
    from the points or takes them precomputed;
  - the linear scale and the box geometry.
- **Sankey bar chart** (`sankeyBarchart.ts`):
  - filters the (enter, exit, value) rows;
  - sorts them by descending value;
  - derives the enter and exit rates and the bar, footer and edge layers.
- **Sankey** (`sankey.ts`):
  - filters the (source, target, value) flows;
  - builds the distinct node list and the links that point into it;
  - formats the link labels;
  - sizes the drawing area and clamps a node being dragged.
- **Gantt sample** (`samples/gantt.ts`):
  - converts a matrix data view into tasks;
  - descends the row tree for duration and completion;
  - computes the row geometry and the bar/milestone split;
  - guards its `update`.

JavaScript numbers are `JsNumber.Number`, which is `NaN`, plus or minus
infinity, or a finite real. Comparisons with `NaN` are false, and `undefined`
used in arithmetic becomes `NaN`. The d3 v3 helpers the visuals call
(`d3.quantile`, `d3.median`, `d3.mean`, `d3.min`, `d3.max`, `d3.range`,
`d3.scale.linear`, the keyed data join) are written out in `D3Arrays` and
`KeyedJoin` from their d3 v3 definitions. The d3 library is not part of this
model, so rows about those helpers cite the lines that call them.

Where the code and its design description disagree, the model follows the code:

- `createPlotAndAxesScales` sets the top of the domain to
  `min(max, hw + 0.5 * (hw - medianOfMedians))`, which starts from the high
  whisker `hw`, not from the median of medians.
- `getResource` in the Gantt sample returns the boolean negation of the
  resource cell, not the cell itself.

## Model

| member | source | states |
|---|---|---|
| JsNumber.Add | src/Clients/Visuals/visuals/boxWhisker.ts:228 | JS `+`: finite operands give their real sum, and NaN in either operand gives NaN |
| JsNumber.Sub | src/Clients/Visuals/visuals/boxWhisker.ts:227-228 | JS `-`: finite operands give their real difference, and NaN in either operand gives NaN |
| JsNumber.Mul | src/Clients/Visuals/visuals/boxWhisker.ts:227 | JS `*`: finite operands give their real product, and NaN in either operand gives NaN |
| JsNumber.Div | src/Clients/Visuals/visuals/boxWhisker.ts:492 | JS `/`: finite operands with a non-zero divisor give their real quotient, and NaN in either operand gives NaN |
| JsNumber.Min | src/Clients/Visuals/visuals/boxWhisker.ts:497 | `Math.min` of two numbers: NaN if either is NaN, otherwise the smaller |
| JsNumber.Trunc | src/Clients/Visuals/visuals/boxWhisker.ts:253-254 | `parseInt` of a finite number's text: truncation toward zero (within one of the value, never past zero) |
| JsNumber.JsRem | src/Clients/Visuals/visuals/boxWhisker.ts:356-357 | JS `%` keeps the sign of the dividend and has magnitude below the divisor |
| JsNumber.RealRemOfInt | src/Clients/Visuals/visuals/boxWhisker.ts:356-357 | JS `%` on reals agrees with the integer remainder on whole numbers |
| JsNumber.RealRemOfFraction | src/Clients/Visuals/visuals/boxWhisker.ts:356-357 | the remainder of a number with a fractional part, by a whole divisor, keeps a fractional part |
| JsNumber.NatToStringInjective | src/Clients/Visuals/visuals/boxWhisker.ts:357 | decimal text of naturals is injective (distinct numbers print differently) |
| JsNumber.IntToString | src/Clients/Visuals/visuals/boxWhisker.ts:357 | the text of an integer starts with '-' exactly when it is negative |
| JsNumber.IntToStringInjective | src/Clients/Visuals/visuals/boxWhisker.ts:357 | decimal text of integers, with a leading minus for negatives, is injective |
| JsNumber.NegativeToString | src/Clients/Visuals/visuals/boxWhisker.ts:357 | a negative integer prints as "-" followed by its magnitude |
| JsNumber.LtTransitive | src/Clients/Visuals/visuals/boxWhisker.ts:485-487 | JS `<` is transitive |
| JsNumber.NotLtIsLe | src/Clients/Visuals/visuals/boxWhisker.ts:485-487 | on non-NaN numbers, not less-than means greater-or-equal |
| Seqs.SortSeq | src/Clients/Visuals/visuals/boxWhisker.ts:221 | the ascending sort: result is ascending and a permutation of the input |
| Seqs.SortSeqOfPermutation | src/Clients/Visuals/visuals/boxWhisker.ts:221 | sorting depends only on the multiset: permutations sort to the same sequence |
| Seqs.SortSeqIdempotent | src/Clients/Visuals/visuals/boxWhisker.ts:221 | sorting a sorted sequence changes nothing |
| Seqs.SortSeqOfAscending | src/Clients/Externals/ThirdPartyIP/D3/d3.plugin.boxWhisker.js:36 | an ascending sequence is its own sort, so re-sorting the plugin's points is a no-op |
| Seqs.AscendingUnique | src/Clients/Visuals/visuals/boxWhisker.ts:221 | two ascending sequences with the same multiset are equal |
| Seqs.SortAscending | src/Clients/Visuals/visuals/boxWhisker.ts:221 | in-place `values.sort(d3.ascending)`: the array ends as the sorted permutation of its old contents |
| Seqs.SortByKey | src/Clients/Visuals/visuals/sankeyBarchart.ts:73 | in-place sort by a key: keys end in ascending order and the contents are a permutation of the old ones |
| Seqs.SumBounds | src/Clients/Visuals/visuals/boxWhisker.ts:255 | n terms all within [lo, hi] sum to between n*lo and n*hi |
| D3Arrays.Quantile | src/Clients/Visuals/visuals/boxWhisker.ts:223-226 | `d3.quantile` is a number iff the fraction is a number and the list has one element, or at least two with the fraction in [0, 1]; otherwise NaN/undefined |
| D3Arrays.QuantileEnds | src/Clients/Visuals/visuals/boxWhisker.ts:223-226 | the 0 quantile is the first element and the 1 quantile the last |
| D3Arrays.QuantileBetween | src/Clients/Visuals/visuals/boxWhisker.ts:223-226 | on ascending data every quantile lies between the first and last element |
| D3Arrays.QuantileMonotone | src/Clients/Visuals/visuals/boxWhisker.ts:223-226 | on ascending data a larger fraction never gives a smaller quantile |
| D3Arrays.InterpolatedMonotone | src/Clients/Visuals/visuals/boxWhisker.ts:223-226 | interpolation between neighbours is monotone in the position |
| D3Arrays.Median | src/Clients/Visuals/visuals/boxWhisker.ts:251 | `d3.median` is a number iff the list is non-empty, and then lies between the smallest and largest value |
| D3Arrays.MedianMiddle | src/Clients/Visuals/visuals/boxWhisker.ts:251 | on sorted data the median is the middle element (odd count) or the average of the two middle elements (even count) |
| D3Arrays.MedianOfAscending | src/Clients/Visuals/visuals/boxWhisker.ts:490 | on ascending data the median is the 0.5 quantile of the data itself |
| D3Arrays.Mean | src/Clients/Visuals/visuals/boxWhisker.ts:255 | `d3.mean` is a number iff the list is non-empty |
| D3Arrays.MeanBounds | src/Clients/Externals/ThirdPartyIP/D3/d3.plugin.boxWhisker.js:302-304 | a mean of values all within [lo, hi] lies within [lo, hi] |
| D3Arrays.SeqMin | src/Clients/Visuals/visuals/boxWhisker.ts:253 | `d3.min`: None on empty input, else an element not above any element |
| D3Arrays.SeqMax | src/Clients/Visuals/visuals/boxWhisker.ts:254 | `d3.max`: None on empty input, else an element not below any element |
| D3Arrays.ExtremesOfAscending | src/Clients/Visuals/visuals/boxWhisker.ts:253-254 | on ascending data min is the head and max the last element |
| D3Arrays.Range | src/Clients/Externals/ThirdPartyIP/D3/d3.plugin.boxWhisker.js:53-54 | `d3.range(a, b)`: exactly the integers from a up to b, in order |
| D3Arrays.Linear | src/Clients/Externals/ThirdPartyIP/D3/d3.plugin.boxWhisker.js:65-67 | `d3.scale.linear` on finite arguments gives a finite value, and the range start when the domain is a single point |
| D3Arrays.LinearEnds | src/Clients/Externals/ThirdPartyIP/D3/d3.plugin.boxWhisker.js:65-67 | the scale sends min to the range start and max to the range end |
| D3Arrays.LinearAntitone | src/Clients/Externals/ThirdPartyIP/D3/d3.plugin.boxWhisker.js:67 | with range [height, 0] a larger value maps to a smaller pixel coordinate |
| KeyedJoin.Walk | src/Clients/Externals/ThirdPartyIP/D3/d3.plugin.boxWhisker.js:148-160 | key join: the enter keys are the new distinct keys; update keys are the incoming keys already bound |
| KeyedJoin.JoinPartitions | src/Clients/Externals/ThirdPartyIP/D3/d3.plugin.boxWhisker.js:148-160 | enter, update and exit are disjoint, and together they cover old and new keys |
| KeyedJoin.JoinFresh | src/Clients/Externals/ThirdPartyIP/D3/d3.plugin.boxWhisker.js:148-152 | on a fresh selection everything enters once per distinct key and nothing updates or exits |
| KeyedJoin.DistinctCard | src/Clients/Externals/ThirdPartyIP/D3/d3.plugin.boxWhisker.js:148-152 | a sequence of distinct keys has as many elements as its key set |
| CategoricalView.Labels | src/Clients/Visuals/visuals/sankey.ts:107-115 | once the guard has passed, each of the two category columns has as many labels as there are value cells |
| CategoricalView.Property | src/Clients/Visuals/visuals/sankey.ts:62-67 | `DataViewObjects.getValue`: the stored property when the object has it, and the default when the object or the property is absent |
| BoxWhiskerStats.Setting | src/Clients/Visuals/visuals/boxWhisker.ts:118-131 | a quantile getter is NaN exactly when metadata is missing, else the stored value or the default |
| BoxWhiskerStats.FractionsOf | src/Clients/Visuals/visuals/boxWhisker.ts:175-180 | box fractions from the "q2" and "q3" settings, whisker fractions from "q1" and "q4", and the outlier factor; DefaultFractions, FractionsVerbatim and NoMetadataFractions state the values |
| BoxWhiskerStats.DefaultFractions | src/Clients/Visuals/visuals/boxWhisker.ts:176-181 | with no stored settings the fractions are 0.25/0.75 for the box, 0.05/0.95 for the whiskers and factor 0 |
| BoxWhiskerStats.FractionsVerbatim | src/Clients/Visuals/visuals/boxWhisker.ts:176-181 | stored settings are used as they are: box bottom from Q2, box top from Q3, whiskers from Q1 and Q4 |
| BoxWhiskerStats.NoMetadataFractions | src/Clients/Visuals/visuals/boxWhisker.ts:176-181 | without metadata every fraction is NaN, so every quantile is NaN |
| BoxWhiskerStats.LowEnd | src/Clients/Visuals/visuals/boxWhisker.ts:228-230 | first index whose value is not at or below the bound; every earlier value is |
| BoxWhiskerStats.HighEnd | src/Clients/Visuals/visuals/boxWhisker.ts:231-233 | last index whose value is not at or above the bound; every later value is |
| BoxWhiskerStats.ScanLow | src/Clients/Visuals/visuals/boxWhisker.ts:228-230 | the low scan stops at LowEnd of the values |
| BoxWhiskerStats.ScanHigh | src/Clients/Visuals/visuals/boxWhisker.ts:231-233 | the high scan stops at HighEnd of the values |
| BoxWhiskerStats.Fence | src/Clients/Visuals/visuals/boxWhisker.ts:227 | the scans' fence `(q2 - q1) * outlierFactor`; SampleFence shows a zero factor gives 0 |
| BoxWhiskerStats.Outside | src/Clients/Visuals/visuals/boxWhisker.ts:235-239 | the threshold pass keeps at most the group's values; OutsideMembers proves a value is kept iff it is at or beyond a whisker |
| BoxWhiskerStats.OutlierList | src/Clients/Visuals/visuals/boxWhisker.ts:227-239 | the outlier list: the low scan, the high scan from the top down, then the threshold pass; CollectOutliers proves the loops build it and OutsideOfAscending and ZeroFenceListsTwice describe its parts |
| BoxWhiskerStats.Threshold | src/Clients/Visuals/visuals/boxWhisker.ts:235-239 | the threshold pass keeps exactly the values at or below the low whisker or at or above the high whisker, in order |
| BoxWhiskerStats.CollectOutliers | src/Clients/Visuals/visuals/boxWhisker.ts:227-239 | the outlier list is the low run, then the high run reversed, then the threshold values; returns both stop indexes |
| BoxWhiskerStats.OutsideMembers | src/Clients/Visuals/visuals/boxWhisker.ts:235-239 | a value is kept by the threshold pass iff it is in the group and beyond a whisker |
| BoxWhiskerStats.OutsideAscending | src/Clients/Visuals/visuals/boxWhisker.ts:235-239 | the threshold values of a sorted group are sorted |
| BoxWhiskerStats.OutsideAppend | src/Clients/Visuals/visuals/boxWhisker.ts:235-239 | the threshold pass distributes over concatenation |
| BoxWhiskerStats.OutsideOfAscending | src/Clients/Visuals/visuals/boxWhisker.ts:228-239 | on a sorted group the two scans do not cross, and the threshold values are the prefix before the low stop plus the suffix after the high stop |
| BoxWhiskerStats.ScansDisjoint | src/Clients/Visuals/visuals/boxWhisker.ts:228-233 | on a sorted group the low stop is at most one past the high stop |
| BoxWhiskerStats.MiddleNotBeyond | src/Clients/Visuals/visuals/boxWhisker.ts:235-239 | values between the two stops are not beyond either whisker |
| BoxWhiskerStats.ReverseMultiset | src/Clients/Visuals/visuals/boxWhisker.ts:231-233 | the high run, collected backwards, holds the same values |
| BoxWhiskerStats.ZeroFenceListsTwice | src/Clients/Visuals/visuals/boxWhisker.ts:227-239 | when the low whisker is below the high one, with outlier factor 0 every value beyond a whisker is listed twice: once by a scan, once by the threshold pass |
| BoxWhiskerStats.StatsOf | src/Clients/Visuals/visuals/boxWhisker.ts:219-263 | one group's record; a TypeError exactly when the group is empty |
| BoxWhiskerStats.GroupStatistics | src/Clients/Visuals/visuals/boxWhisker.ts:219-263 | sorts the group's array in place and returns StatsOf of the sorted values |
| BoxWhiskerStats.MinIsSortedHead | src/Clients/Visuals/visuals/boxWhisker.ts:253-254 | the record's minimum and maximum are the first and last sorted values |
| BoxWhiskerStats.StatsOfGroup | src/Clients/Visuals/visuals/boxWhisker.ts:219-263 | record fields of a non-empty group: quantiles, median, truncated min/max, mean, count and points |
| BoxWhiskerStats.QuantilesOrdered | src/Clients/Visuals/visuals/boxWhisker.ts:223-226 | with ordered fractions, low whisker <= box bottom <= box top <= high whisker, all within the data |
| BoxWhiskerStats.StatsOrdered | src/Clients/Visuals/visuals/boxWhisker.ts:248-263 | with ordered fractions, a record's low whisker <= Q1 <= median <= Q3 <= high whisker |
| BoxWhiskerStats.RecordOrdered | src/Clients/Visuals/visuals/boxWhisker.ts:248-263 | the same ordering stated for a record with the quantiles finite |
| BoxWhisker.PassesGuard | src/Clients/Visuals/visuals/boxWhisker.ts:150-153 | the guard passes when values exist, stops when the first category lacks the Values role, and throws when there are no categories |
| BoxWhisker.FindCategoryIndex | src/Clients/Visuals/visuals/boxWhisker.ts:155-163 | the category index is 0 iff some category column lacks the Values role |
| BoxWhisker.RowKey | src/Clients/Visuals/visuals/boxWhisker.ts:196-199 | the property name row `x` is grouped under: the key cell's property-key string, or "undefined" past the key column |
| BoxWhisker.Normalize | src/Clients/Visuals/visuals/boxWhisker.ts:189-207 | every non-category cell lands in the group named by the property-key string of its row's key cell (so keys with the same string share a group), and every grouped value comes from such a cell |
| BoxWhisker.CellInItsGroup | src/Clients/Visuals/visuals/boxWhisker.ts:193-200 | a cell of a non-category column is in the group named by the string form of its row key |
| BoxWhisker.GroupValueFromCell | src/Clients/Visuals/visuals/boxWhisker.ts:205-207 | each value of each group comes from a cell of a row whose key has that group's string form |
| BoxWhisker.ColumnGroup | src/Clients/Visuals/visuals/boxWhisker.ts:185-187 | a value column as a group: its source and its values, with no name; ColumnGroups proves one group per column |
| BoxWhisker.ColumnGroups | src/Clients/Visuals/visuals/boxWhisker.ts:186-188 | without normalising, each value column becomes one group with its values and source |
| BoxWhisker.SelectGroups | src/Clients/Visuals/visuals/boxWhisker.ts:144-211 | no groups without data views or past the guard; columns, rows normalised by the string form of their key, or categories are chosen by the category index and values |
| BoxWhisker.ValueFormat | src/Clients/Visuals/visuals/boxWhisker.ts:212-217 | the format of the last non-category column that has one, or "0" |
| BoxWhisker.LabelOf | src/Clients/Visuals/visuals/boxWhisker.ts:241-246 | label is the display name with an optional group suffix, otherwise the group's name |
| BoxWhisker.BuildPlotData | src/Clients/Visuals/visuals/boxWhisker.ts:219-266 | Ok iff every group is non-empty; then one record per group equal to StatsOf of its sorted values, and each array left sorted |
| BoxWhisker.SortGroups | src/Clients/Visuals/visuals/boxWhisker.ts:219-264 | the per-group loop: arrays sorted up to the first empty group, records in order |
| BoxWhisker.SortGroup | src/Clients/Visuals/visuals/boxWhisker.ts:221-263 | one iteration: the group's array is sorted and its record is StatsOf |
| BoxWhisker.OrdinalSuffix | src/Clients/Visuals/visuals/boxWhisker.ts:355-357 | the suffix is always two characters |
| BoxWhisker.OrdinalSuffixOfWhole | src/Clients/Visuals/visuals/boxWhisker.ts:354-358 | on any whole JS number the suffix (JS `%` on reals, table lookup) is the integer rule's |
| BoxWhisker.OrdinalSuffixOfFraction | src/Clients/Visuals/visuals/boxWhisker.ts:354-358 | a number with a fractional part, NaN or an infinity always gets "th" (`2.5` gives "th"), since the table has only the keys 1, 2 and 3 |
| BoxWhisker.AddOrd | src/Clients/Visuals/visuals/boxWhisker.ts:354-358 | the integer's decimal text followed by a two-character suffix; AddOrdTeens, AddOrdLastDigit and AddOrdNegative state which suffix |
| BoxWhisker.OrdinalSuffixOf | src/Clients/Visuals/visuals/boxWhisker.ts:354-358 | the suffix of any JS number is "st", "nd", "rd" or "th"; OrdinalSuffixOfWhole and OrdinalSuffixOfFraction say which |
| BoxWhisker.AddOrdTeens | src/Clients/Visuals/visuals/boxWhisker.ts:356-357 | numbers ending in 11, 12 or 13 (mod 100) get "th" |
| BoxWhisker.AddOrdLastDigit | src/Clients/Visuals/visuals/boxWhisker.ts:355-357 | otherwise last digit 1, 2, 3 give "st", "nd", "rd", and any other digit gives "th" |
| BoxWhisker.AddOrdNegative | src/Clients/Visuals/visuals/boxWhisker.ts:355-357 | negative numbers always get "th", since the JS remainder is negative |
| BoxWhisker.AddOrdInjective | src/Clients/Visuals/visuals/boxWhisker.ts:354-358 | distinct integers get distinct ordinal texts |
| BoxWhisker.AddOrdExamples | src/Clients/Visuals/visuals/boxWhisker.ts:365-373 | ordinal texts of the default percentages: "5th", "25th", "75th", "95th" |
| BoxWhisker.AddOrdSuffixExamples | src/Clients/Visuals/visuals/boxWhisker.ts:365-373 | one ordinal per suffix rule: "1st", "22nd", "103rd", "112th" |
| BoxWhisker.WhiskerValues | src/Clients/Externals/ThirdPartyIP/D3/d3.plugin.boxWhisker.js:59 | the whisker data are [low whisker, high whisker], in that order |
| BoxWhisker.WhiskerTooltipAsWritten | src/Clients/Visuals/visuals/boxWhisker.ts:392-398 | as written both branches name the high-whisker fraction (again at 409-415); WhiskerTooltipMislabelsLow shows the low tick mislabelled |
| BoxWhisker.WhiskerTooltip | src/Clients/Visuals/visuals/boxWhisker.ts:392-398 | the corrected choice: even ticks name the low-whisker fraction; WhiskerTooltipNamesItsQuantile proves each tick names its own quantile |
| BoxWhisker.WhiskerTooltipNamesItsQuantile | src/Clients/Visuals/visuals/boxWhisker.ts:390-422 | with the corrected label, whisker tick k shows the quantile its label names |
| BoxWhisker.WhiskerTooltipMislabelsLow | src/Clients/Visuals/visuals/boxWhisker.ts:394-397 | as written, the low whisker tick is labelled with the high whisker fraction (95th instead of 5th by default) |
| BoxWhiskerScales.Seed | src/Clients/Visuals/visuals/boxWhisker.ts:471-472 | the running min/max start at the goal when set, else at plus or minus infinity |
| BoxWhiskerScales.Minimums | src/Clients/Visuals/visuals/boxWhisker.ts:480 | the per-record minimums, in order |
| BoxWhiskerScales.Maximums | src/Clients/Visuals/visuals/boxWhisker.ts:479 | the per-record maximums, in order |
| BoxWhiskerScales.HighWhiskers | src/Clients/Visuals/visuals/boxWhisker.ts:481 | the per-record high whiskers, in order |
| BoxWhiskerScales.Medians | src/Clients/Visuals/visuals/boxWhisker.ts:483 | the per-record medians, in order |
| BoxWhiskerScales.Numeric | src/Clients/Visuals/visuals/boxWhisker.ts:490 | the finite medians `d3.median` keeps, none dropped |
| BoxWhiskerScales.LeastIsLeast | src/Clients/Visuals/visuals/boxWhisker.ts:487 | the `<` fold returns the seed or an element and nothing is below it |
| BoxWhiskerScales.GreatestIsGreatest | src/Clients/Visuals/visuals/boxWhisker.ts:485-486 | the `>` fold returns the seed or an element and nothing is above it |
| BoxWhiskerScales.ScaleFactor | src/Clients/Visuals/visuals/boxWhisker.ts:492-495 | median of medians over max, raised to at least 0.30 unless NaN |
| BoxWhiskerScales.ScalesOf | src/Clients/Visuals/visuals/boxWhisker.ts:470-515 | the scales; a TypeError exactly when there are no records |
| BoxWhiskerScales.Domains | src/Clients/Visuals/visuals/boxWhisker.ts:497-514 | box and axis domains are the same, start at min and end at `min(max, hw + 0.5(hw - mom))` |
| BoxWhiskerScales.Extents | src/Clients/Visuals/visuals/boxWhisker.ts:471-488 | the loop computes min, max, the largest high whisker and the medians exactly as the folds |
| BoxWhiskerScales.CreatePlotAndAxesScales | src/Clients/Visuals/visuals/boxWhisker.ts:470-515 | returns ScalesOf of the records |
| BoxWhiskerScales.ScalesLowerEnd | src/Clients/Visuals/visuals/boxWhisker.ts:471-514 | the lower end of the domain is finite, at most the goal and every minimum, and is one of them |
| BoxWhiskerScales.MaxIsGreatest | src/Clients/Visuals/visuals/boxWhisker.ts:472-485 | max is finite, at least the goal and every maximum, and one of them |
| BoxWhiskerScales.HighWhiskerIsGreatest | src/Clients/Visuals/visuals/boxWhisker.ts:473-486 | the high whisker is at least every record's high whisker and is one of them |
| BoxWhiskerScales.TopAtMostMax | src/Clients/Visuals/visuals/boxWhisker.ts:497 | the top of the domain is never above max (unless NaN) |
| BoxWhiskerSample.SortedColumnAscending | src/Clients/PowerBIVisualsPlayground/sampleDataViews/SimpleBoxWhiskerData.ts:43 | the first sample column, sorted, is ascending |
| BoxWhiskerSample.SampleLowWhisker | src/Clients/PowerBIVisualsPlayground/sampleDataViews/SimpleBoxWhiskerData.ts:43 | 5th percentile of the first sample column is 735.5 |
| BoxWhiskerSample.SampleHighWhisker | src/Clients/PowerBIVisualsPlayground/sampleDataViews/SimpleBoxWhiskerData.ts:43 | 95th percentile is 1003.5 |
| BoxWhiskerSample.SampleBoxBottom | src/Clients/PowerBIVisualsPlayground/sampleDataViews/SimpleBoxWhiskerData.ts:43 | 25th percentile is 850 |
| BoxWhiskerSample.SampleBoxTop | src/Clients/PowerBIVisualsPlayground/sampleDataViews/SimpleBoxWhiskerData.ts:43 | 75th percentile is 980 |
| BoxWhiskerSample.SampleMedian | src/Clients/PowerBIVisualsPlayground/sampleDataViews/SimpleBoxWhiskerData.ts:43 | median is 940 |
| BoxWhiskerSample.SampleHalf | src/Clients/PowerBIVisualsPlayground/sampleDataViews/SimpleBoxWhiskerData.ts:43 | the 0.5 quantile agrees with the median, 940 |
| BoxWhiskerSample.SampleFence | src/Clients/Visuals/visuals/boxWhisker.ts:227 | with factor 0 the fence is 0 |
| BoxWhiskerSample.SampleMiddle | src/Clients/Visuals/visuals/boxWhisker.ts:235-239 | the 18 inner sample values are not beyond the whiskers |
| BoxWhiskerSample.SampleEnds | src/Clients/Visuals/visuals/boxWhisker.ts:235-239 | 650 and 1070 are beyond the whiskers |
| BoxWhiskerSample.SampleScans | src/Clients/Visuals/visuals/boxWhisker.ts:228-233 | the scans stop at indexes 1 and 18 |
| BoxWhiskerSample.SampleThreshold | src/Clients/Visuals/visuals/boxWhisker.ts:235-239 | the threshold pass keeps [650, 1070] |
| BoxWhiskerSample.SampleOutliers | src/Clients/Visuals/visuals/boxWhisker.ts:227-239 | the sample's outlier list is [650, 1070, 650, 1070] |
| BoxWhiskerSample.SampleOutlierCircles | src/Clients/Externals/ThirdPartyIP/D3/d3.plugin.boxWhisker.js:148-152 | keyed by value, those four outliers enter as two circles |
| BoxWhiskerSample.TwoRepeatedKeys | src/Clients/Externals/ThirdPartyIP/D3/d3.plugin.boxWhisker.js:148-152 | a fresh join of [650, 1070, 650, 1070] enters 650 and 1070 once each |
| BoxPlugin.PluginScope.constructor | src/Clients/Externals/ThirdPartyIP/D3/d3.plugin.boxWhisker.js:302-304 | the shared `mean` rule starts as `d3.mean` |
| BoxPlugin.BoxChart.constructor | src/Clients/Externals/ThirdPartyIP/D3/d3.plugin.boxWhisker.js:3-16 | a new chart has width 1, height 1, duration 0, no domain/range/format, default whiskers and quartiles, labels and points shown |
| BoxPlugin.BoxChart.SetWidth | src/Clients/Externals/ThirdPartyIP/D3/d3.plugin.boxWhisker.js:227-231 | changes the width only and returns the same chart |
| BoxPlugin.BoxChart.SetHeight | src/Clients/Externals/ThirdPartyIP/D3/d3.plugin.boxWhisker.js:233-237 | changes the height only and returns the same chart |
| BoxPlugin.BoxChart.SetTickFormat | src/Clients/Externals/ThirdPartyIP/D3/d3.plugin.boxWhisker.js:239-243 | changes the tick format only and returns the same chart |
| BoxPlugin.BoxChart.SetDuration | src/Clients/Externals/ThirdPartyIP/D3/d3.plugin.boxWhisker.js:245-249 | changes the duration only and returns the same chart |
| BoxPlugin.BoxChart.SetDomain | src/Clients/Externals/ThirdPartyIP/D3/d3.plugin.boxWhisker.js:251-255 | changes the domain only and returns the same chart |
| BoxPlugin.BoxChart.SetRange | src/Clients/Externals/ThirdPartyIP/D3/d3.plugin.boxWhisker.js:257-261 | changes the range only and returns the same chart |
| BoxPlugin.BoxChart.SetWhiskers | src/Clients/Externals/ThirdPartyIP/D3/d3.plugin.boxWhisker.js:269-273 | changes the whisker rule only and returns the same chart |
| BoxPlugin.BoxChart.SetShowLabels | src/Clients/Externals/ThirdPartyIP/D3/d3.plugin.boxWhisker.js:275-279 | changes the label flag only and returns the same chart |
| BoxPlugin.BoxChart.SetShowDataPoints | src/Clients/Externals/ThirdPartyIP/D3/d3.plugin.boxWhisker.js:281-285 | changes the data-point flag only and returns the same chart |
| BoxPlugin.BoxChart.SetQuartiles | src/Clients/Externals/ThirdPartyIP/D3/d3.plugin.boxWhisker.js:287-291 | changes the quartile rule only and returns the same chart |
| BoxPlugin.BoxChart.SetMean | src/Clients/Externals/ThirdPartyIP/D3/d3.plugin.boxWhisker.js:293-297 | replaces the plugin-wide mean rule, which every chart shares |
| BoxPlugin.BoxChart.Render | src/Clients/Externals/ThirdPartyIP/D3/d3.plugin.boxWhisker.js:19-225 | compute mode sorts the points in place, writes back the record fields and draws from derived data; precomputed mode leaves the record unchanged and draws its stored fields; the default whisker rule is the intended one (first and last point), not line 47's `[d[0], undefined]` |
| BoxPlugin.PlotRecord.Summarize | src/Clients/Externals/ThirdPartyIP/D3/d3.plugin.boxWhisker.js:35-45 | sorts the points in place, then writes Q1, median, Q3, the 5%/95% whiskers and the mean |
| BoxPlugin.PlotRecord.constructor | src/Clients/Visuals/visuals/boxWhisker.ts:248-263 | a plot record holds exactly the fields of the visual's record |
| BoxPlugin.PlotRecord.WriteBack | src/Clients/Externals/ThirdPartyIP/D3/d3.plugin.boxWhisker.js:39-44 | the record takes the given statistics; its points are unchanged |
| BoxPlugin.Summarized | src/Clients/Externals/ThirdPartyIP/D3/d3.plugin.boxWhisker.js:36-44 | the record after the write-back: quartiles, 0.05 and 0.95 quantiles and mean of the sorted points; SummarizedKeepsRest and DefaultWriteBack state what changes |
| BoxPlugin.SummarizedKeepsRest | src/Clients/Externals/ThirdPartyIP/D3/d3.plugin.boxWhisker.js:39-44 | the write-back changes only the quartiles, the whiskers and the mean |
| BoxPlugin.MeanOf | src/Clients/Externals/ThirdPartyIP/D3/d3.plugin.boxWhisker.js:37 | `mean(d)`: d3.mean by default, or the value a caller set; MeanWithinSpan bounds the default |
| BoxPlugin.QuartilesOf | src/Clients/Externals/ThirdPartyIP/D3/d3.plugin.boxWhisker.js:310-316 | the quartile rule yields three numbers (default: the 0.25, 0.5 and 0.75 quantiles) |
| BoxPlugin.WhiskerData | src/Clients/Externals/ThirdPartyIP/D3/d3.plugin.boxWhisker.js:47-48 | whisker data exist iff whisker indices do, and are the points at those indices |
| BoxPlugin.WhiskerIndices | src/Clients/Externals/ThirdPartyIP/D3/d3.plugin.boxWhisker.js:47 | the whisker indices as intended: none without a rule, the first and last point for the default, the given pair otherwise; DefaultWhiskersSpanPoints states the default |
| BoxPlugin.OutlierIndices | src/Clients/Externals/ThirdPartyIP/D3/d3.plugin.boxWhisker.js:52-54 | the indices outside the whiskers, or all of them without whiskers; OutlierIndicesExact and OutlierIndicesIncrease characterise them |
| BoxPlugin.NonOutliers | src/Clients/Externals/ThirdPartyIP/D3/d3.plugin.boxWhisker.js:162-164 | the distinct points that are not outliers; DataPointsSplit and NoOutliersAllDataPoints state the partition |
| BoxPlugin.Pick | src/Clients/Externals/ThirdPartyIP/D3/d3.plugin.boxWhisker.js:48-55 | `indices.map(i => d[i])`: one element per index, undefined out of range |
| BoxPlugin.Finites | src/Clients/Externals/ThirdPartyIP/D3/d3.plugin.boxWhisker.js:60 | precomputed outliers become numbers one for one |
| BoxPlugin.OutlierIndicesExact | src/Clients/Externals/ThirdPartyIP/D3/d3.plugin.boxWhisker.js:52-54 | an index is an outlier index iff it lies below the low whisker index or above the high one (all indices with no whiskers) |
| BoxPlugin.OutlierIndicesIncrease | src/Clients/Externals/ThirdPartyIP/D3/d3.plugin.boxWhisker.js:52-54 | outlier indices are strictly increasing when the whiskers are ordered |
| BoxPlugin.DefaultWhiskersSpanPoints | src/Clients/Externals/ThirdPartyIP/D3/d3.plugin.boxWhisker.js:306-308 | the corrected default whiskers are the first and last points, with no outliers |
| BoxPlugin.OutliersArePoints | src/Clients/Externals/ThirdPartyIP/D3/d3.plugin.boxWhisker.js:52-55 | every computed outlier is a finite point of the data |
| BoxPlugin.DataPointsSplit | src/Clients/Externals/ThirdPartyIP/D3/d3.plugin.boxWhisker.js:162-178 | data-point circles and outlier values partition the point set |
| BoxPlugin.NoOutliersAllDataPoints | src/Clients/Externals/ThirdPartyIP/D3/d3.plugin.boxWhisker.js:162-178 | with no outliers every point is drawn as a data point |
| BoxPlugin.Apply | src/Clients/Externals/ThirdPartyIP/D3/d3.plugin.boxWhisker.js:62-64 | the scale `x1` at a value; DefaultScaleEnds and ApplyNaN state its ends and NaN |
| BoxPlugin.FrameOf | src/Clients/Externals/ThirdPartyIP/D3/d3.plugin.boxWhisker.js:57-225 | the data each layer of a fresh group is bound to; FrameCardinalities and BoxHeightNonNegative state it |
| BoxPlugin.FrameCardinalities | src/Clients/Externals/ThirdPartyIP/D3/d3.plugin.boxWhisker.js:94-222 | one box, one median line, whisker lines and ticks per whisker, box ticks per quartile, and the outlier layer bound to exactly the outlier values (one circle per distinct value by OutlierCircles) |
| BoxPlugin.OutlierCircles | src/Clients/Externals/ThirdPartyIP/D3/d3.plugin.boxWhisker.js:148-152 | the value-keyed outlier join enters each distinct outlier value once, with no updates or exits |
| BoxPlugin.OneMeanCircle | src/Clients/Externals/ThirdPartyIP/D3/d3.plugin.boxWhisker.js:116-128 | a fresh mean join enters exactly the single mean value |
| BoxPlugin.DefaultScaleEnds | src/Clients/Externals/ThirdPartyIP/D3/d3.plugin.boxWhisker.js:65-67 | without domain and range settings, min maps to height and max maps to 0 |
| BoxPlugin.BoxHeightNonNegative | src/Clients/Externals/ThirdPartyIP/D3/d3.plugin.boxWhisker.js:94-102 | the box's y is the scaled Q3 and its height is non-negative when Q1 <= Q3 |
| BoxPlugin.BoxWhiskersAsWritten | src/Clients/Externals/ThirdPartyIP/D3/d3.plugin.boxWhisker.js:306-308 | `[0, d.length - 1]` with the length as a JS number: NaN length gives a NaN index |
| BoxPlugin.ElemAt | src/Clients/Externals/ThirdPartyIP/D3/d3.plugin.boxWhisker.js:48 | indexing by a NaN index gives undefined (NaN) |
| BoxPlugin.ApplyNaN | src/Clients/Externals/ThirdPartyIP/D3/d3.plugin.boxWhisker.js:131-145 | scaling NaN yields NaN |
| BoxPlugin.ElemAtWhole | src/Clients/Externals/ThirdPartyIP/D3/d3.plugin.boxWhisker.js:48 | indexing by a whole number agrees with indexing by the integer |
| BoxPlugin.DefaultWhiskersOfRecord | src/Clients/Externals/ThirdPartyIP/D3/d3.plugin.boxWhisker.js:47 | as written the default rule sees the record, so the high whisker is NaN; called with the points it gives the last point |
| BoxPlugin.DefaultWriteBack | src/Clients/Externals/ThirdPartyIP/D3/d3.plugin.boxWhisker.js:36-44 | with default rules the write-back gives the 0.25/0.5/0.75 quantiles, the 0.05/0.95 whiskers and the mean |
| BoxPlugin.MeanWithinSpan | src/Clients/Externals/ThirdPartyIP/D3/d3.plugin.boxWhisker.js:37 | on sorted non-empty points the mean lies between the first and last point |
| SankeyBarchart.Columns | src/Clients/Visuals/visuals/sankeyBarchart.ts:48-63 | rejected views give no table; otherwise the enter and exit columns are swapped iff the first column has the Exit role |
| SankeyBarchart.Filter | src/Clients/Visuals/visuals/sankeyBarchart.ts:65-71 | keeps exactly the rows with a positive value, in order |
| SankeyBarchart.KeptPositive | src/Clients/Visuals/visuals/sankeyBarchart.ts:68 | every kept row has a positive value |
| SankeyBarchart.KeptRows | src/Clients/Visuals/visuals/sankeyBarchart.ts:67-71 | a row is kept iff it is built from some index whose value passes the filter |
| SankeyBarchart.KeptCount | src/Clients/Visuals/visuals/sankeyBarchart.ts:67-71 | as many rows are kept as there are passing indexes |
| SankeyBarchart.SortDescending | src/Clients/Visuals/visuals/sankeyBarchart.ts:73 | sorts rows by descending value and keeps the same rows |
| SankeyBarchart.LinkAt | src/Clients/Visuals/visuals/sankeyBarchart.ts:75-96 | the entry for one sorted row; EnterRates and ExitDrops state its rates and exit value |
| SankeyBarchart.LinksOf | src/Clients/Visuals/visuals/sankeyBarchart.ts:75-96 | one entry per sorted row; RowsOfLinks recovers the rows and Links proves the loop builds it |
| SankeyBarchart.Links | src/Clients/Visuals/visuals/sankeyBarchart.ts:75-96 | one link per sorted row, equal to LinksOf |
| SankeyBarchart.RowsOfLinks | src/Clients/Visuals/visuals/sankeyBarchart.ts:75-96 | the rows can be read back from the links (nothing lost) |
| SankeyBarchart.Converter | src/Clients/Visuals/visuals/sankeyBarchart.ts:43-98 | empty for rejected views, otherwise the links of the filtered rows sorted by descending value |
| SankeyBarchart.EnterRates | src/Clients/Visuals/visuals/sankeyBarchart.ts:78 | the first enter rate is 1 and every enter rate lies in (0, 1] |
| SankeyBarchart.ExitDrops | src/Clients/Visuals/visuals/sankeyBarchart.ts:80-86 | each exit is the drop to the next row with a rate in [0, 1); the last row has no exit |
| SankeyBarchart.Ratio | src/Clients/Visuals/visuals/sankeyBarchart.ts:78-85 | a part over a positive whole lies in [0, 1], below 1 for a smaller part |
| SankeyBarchart.DropsTelescope | src/Clients/Visuals/visuals/sankeyBarchart.ts:84 | the drops add up to first minus last value |
| SankeyBarchart.ExitsSumToDrop | src/Clients/Visuals/visuals/sankeyBarchart.ts:80-86 | the exit values sum to the first enter value minus the last |
| SankeyBarchart.LayersOf | src/Clients/Visuals/visuals/sankeyBarchart.ts:146-349 | nothing for an empty dataset, else the bound data of every layer; LayerCounts and EdgesDescend state the counts and the edges |
| SankeyBarchart.LayerCounts | src/Clients/Visuals/visuals/sankeyBarchart.ts:146-349 | n bars, n-1 footers and n-1 edges; edge k joins bar k to bar k+1 |
| SankeyBarchart.EdgesDescend | src/Clients/Visuals/visuals/sankeyBarchart.ts:342-360 | on sorted data every edge goes from a taller bar to a shorter one |
| SankeyBarchart.Update | src/Clients/Visuals/visuals/sankeyBarchart.ts:106-371 | no layers without data views, for rejected views or empty data; otherwise the layers of data satisfying everything the converter promises (filtered rows, descending, positive) |
| Sankey.SourceCat | src/Clients/Visuals/visuals/sankey.ts:123-128 | the source column is 1 iff the first column has roles but no Source role |
| Sankey.Converter | src/Clients/Visuals/visuals/sankey.ts:72-143 | empty for rejected views, otherwise the flows of the rows that are not skipped, in order |
| Sankey.FlowsAreKeptRows | src/Clients/Visuals/visuals/sankey.ts:120-141 | each flow is built from a kept row, the kept rows increase, and every non-skipped row is kept |
| Sankey.FlowsPositive | src/Clients/Visuals/visuals/sankey.ts:129-135 | every flow has a positive value and non-empty source and target |
| Sankey.NodeList | src/Clients/Visuals/visuals/sankey.ts:181-185 | the node list is source then target of each flow, in order |
| Sankey.EndpointsOfData | src/Clients/Visuals/visuals/sankey.ts:181-185 | a name is in the node list iff some flow has it as source or target |
| Sankey.FlowAt | src/Clients/Visuals/visuals/sankey.ts:123-140 | the flow of row `i`: its source and target labels (by the source column) and its value |
| Sankey.Flows | src/Clients/Visuals/visuals/sankey.ts:119-142 | the flows of the first rows, skipping rows with an empty label, an empty value or a value at or below 0; FlowsAreKeptRows and FlowsPositive state which |
| Sankey.Nodes | src/Clients/Visuals/visuals/sankey.ts:188 | the node keys are distinct and are exactly the names of the node list |
| Sankey.NodesOnce | src/Clients/Visuals/visuals/sankey.ts:188-207 | each flow's source and target occur exactly once among the nodes |
| Sankey.NodesAreEndpoints | src/Clients/Visuals/visuals/sankey.ts:188 | a name is a node iff some flow has it as source or target |
| Sankey.IndexOf | src/Clients/Visuals/visuals/sankey.ts:206-207 | `indexOf`: -1 iff absent, otherwise the first position holding the name |
| Sankey.LabelOf | src/Clients/Visuals/visuals/sankey.ts:194-203 | the closed form of the link label; LabelShapes gives its four shapes and LinkLabel proves the stepwise label equals it |
| Sankey.LinkLabel | src/Clients/Visuals/visuals/sankey.ts:194-203 | the label built step by step equals the label function |
| Sankey.LabelShapes | src/Clients/Visuals/visuals/sankey.ts:194-203 | the four label shapes: empty; value; "source → target"; "source → target: value" |
| Sankey.Links | src/Clients/Visuals/visuals/sankey.ts:191-211 | one link per flow with its value and label, pointing at the source and target node indexes |
| Sankey.ShowNames | src/Clients/Visuals/visuals/sankey.ts:62-64 | off without metadata, else the stored `showNames` or false; DefaultLabels and StoredLabels state it |
| Sankey.ShowValues | src/Clients/Visuals/visuals/sankey.ts:65-67 | off without metadata, else the stored `showValues` or true; DefaultLabels and StoredLabels state it |
| Sankey.DefaultLabels | src/Clients/Visuals/visuals/sankey.ts:62-67 | with no stored settings labels show the value only; with no metadata they are empty |
| Sankey.StoredLabels | src/Clients/Visuals/visuals/sankey.ts:62-67 | a stored link-label setting is used as stored, and an unset one keeps its default |
| Sankey.Update | src/Clients/Visuals/visuals/sankey.ts:155-228 | no graph without views, for rejected views or empty data; otherwise distinct nodes, and links whose indexes name their endpoints, with each row's positive value and its label (names and value as the settings choose) |
| Sankey.DrawingSize | src/Clients/Visuals/visuals/sankey.ts:239-241 | width and height are at least 30 and otherwise the viewport less its margins |
| Sankey.Clamp | src/Clients/Visuals/visuals/sankey.ts:309-311 | `max(0, min(hi, v))`: non-negative, at most hi when hi >= 0, v itself when in range |
| Sankey.LayoutNode.constructor | src/Clients/Visuals/visuals/sankey.ts:217-228 | a layout node holds its name, position and size |
| Sankey.LayoutNode.Drag | src/Clients/Visuals/visuals/sankey.ts:306-312 | a dragged node is clamped to the drawing area and nothing else changes |
| Gantt.GetValue | src/Clients/Visuals/visuals/samples/gantt.ts:353-361 | 0 without a first column or roles; otherwise the cell picked by the role, or 0 when missing or falsy |
| Gantt.FirstChild | src/Clients/Visuals/visuals/samples/gantt.ts:314 | the first child, only when there are children |
| Gantt.DurationAndCompletion | src/Clients/Visuals/visuals/samples/gantt.ts:333-351 | (0, 0) without a node or column sources; otherwise from the first node down the first-child chain that has values |
| Gantt.Spine | src/Clients/Visuals/visuals/samples/gantt.ts:346-347 | the first-child chain starts at the node itself |
| Gantt.DescentFindsFirstValues | src/Clients/Visuals/visuals/samples/gantt.ts:341-350 | the descent returns the measures of the first node with values on the chain, or (0, 0) if there is none |
| Gantt.StartDateOfTask | src/Clients/Visuals/visuals/samples/gantt.ts:313-319 | the first child's value, or null without one |
| Gantt.ResourceIsNegation | src/Clients/Visuals/visuals/samples/gantt.ts:321-331 | as written the resource is "" or the boolean negation of the grandchild's value |
| Gantt.Resource | src/Clients/Visuals/visuals/samples/gantt.ts:321-330 | "" without a grandchild, else the negated truthiness of its value; ResourceIsNegation states it |
| Gantt.TaskOf | src/Clients/Visuals/visuals/samples/gantt.ts:283-302 | the task of one child of the root; TasksOfRoot states its fixed fields |
| Gantt.GetTasks | src/Clients/Visuals/visuals/samples/gantt.ts:283-311 | one task per child of the root, in order; a TypeError when the root has no children |
| Gantt.TasksOfRoot | src/Clients/Visuals/visuals/samples/gantt.ts:288-302 | a task's index is its position, its id is "ID" followed by that index (so ids are distinct), its shape is "none", its colour green and its completion scaled by 100 |
| Gantt.ColumnSource | src/Clients/Visuals/visuals/samples/gantt.ts:266-271 | the first level's sources, or empty |
| Gantt.Converter | src/Clients/Visuals/visuals/samples/gantt.ts:249-281 | an empty model without a row root, else the tasks of the root; always height 45 and paddings 0 and 0.15 |
| Gantt.BarY | src/Clients/Visuals/visuals/samples/gantt.ts:601-606 | `getBarY`; BarsDoNotOverlap and ConverterGeometry place it |
| Gantt.BarHeight | src/Clients/Visuals/visuals/samples/gantt.ts:608-610 | `getBarHeight`; BarsDoNotOverlap bounds it |
| Gantt.FontSize | src/Clients/Visuals/visuals/samples/gantt.ts:703-707 | `getFontSize`, equal to the bar height (LabelAboveBarBottom) |
| Gantt.LabelY | src/Clients/Visuals/visuals/samples/gantt.ts:579-587 | `getLabelY` with its `- 16`; LabelAboveBarBottom places it |
| Gantt.BarLineY | src/Clients/Visuals/visuals/samples/gantt.ts:612-617 | `getBarLineY`; StripesTile proves the stripes tile |
| Gantt.BarLineHeight | src/Clients/Visuals/visuals/samples/gantt.ts:619-624 | `getBarLineHeight`; StripesTile proves the stripes tile |
| Gantt.TasklineOpacity | src/Clients/Visuals/visuals/samples/gantt.ts:630-641 | `getTasklineOpacity` on the truthiness of `i % 2`; StripeOpacity states it |
| Gantt.NowlineY | src/Clients/Visuals/visuals/samples/gantt.ts:697-701 | `getNowlineY`; StripesTile puts it after the last row |
| Gantt.MilestoneY | src/Clients/Visuals/visuals/samples/gantt.ts:589-591 | the vertical part of `getMilestonePos`; MilestoneCentred centres it on the bar |
| Gantt.BarsDoNotOverlap | src/Clients/Visuals/visuals/samples/gantt.ts:601-610 | rows are one fixed height apart and a bar fits inside its row |
| Gantt.LabelAboveBarBottom | src/Clients/Visuals/visuals/samples/gantt.ts:579-587 | the font size equals the bar height and the label sits 16 px above the bar's bottom |
| Gantt.MilestoneCentred | src/Clients/Visuals/visuals/samples/gantt.ts:589-591 | a milestone sits at the vertical centre of its task's bar |
| Gantt.StripeOpacity | src/Clients/Visuals/visuals/samples/gantt.ts:630-641 | even rows have opacity 0.04 and odd rows 0 |
| Gantt.StripesTile | src/Clients/Visuals/visuals/samples/gantt.ts:612-624 | with zero line padding the stripes tile, and the now-line ends after the last row |
| Gantt.ConverterGeometry | src/Clients/Visuals/visuals/samples/gantt.ts:601-610 | with the converter's constants a bar is 31.5 high and starts 6.75 into its row, its label sits at 22.25, and the now-line ends at 45 per task |
| Gantt.Bars | src/Clients/Visuals/visuals/samples/gantt.ts:505 | the bar tasks are tasks whose shape is "none" |
| Gantt.Milestones | src/Clients/Visuals/visuals/samples/gantt.ts:480-482 | the milestone tasks are tasks whose shape is not "none" |
| Gantt.ShapesPartition | src/Clients/Visuals/visuals/samples/gantt.ts:480-506 | bars and milestones together are exactly the tasks |
| Gantt.ConvertedTasksAreBars | src/Clients/Visuals/visuals/samples/gantt.ts:299 | every converted task is a bar and none is a milestone |
| Gantt.UpdateGuardAsWritten | src/Clients/Visuals/visuals/samples/gantt.ts:380 | the guard as written: a TypeError without data views, else no early return; UpdateGuardAsWrittenNeverStops states it |
| Gantt.UpdateGuard | src/Clients/Visuals/visuals/samples/gantt.ts:379-382 | the corrected guard stops iff there is no first data view |
| Gantt.UpdateGuardAsWrittenNeverStops | src/Clients/Visuals/visuals/samples/gantt.ts:380 | as written the guard never returns: it throws on missing views and lets an empty list through |
| Gantt.GanttChart.constructor | src/Clients/Visuals/visuals/samples/gantt.ts:51-56 | a new chart holds an empty view model with the default constants |
| Gantt.FirstView | src/Clients/Visuals/visuals/samples/gantt.ts:385 | `dataViews[0]`: the first view, or `undefined` for an empty list |
| Gantt.GanttChart.Update | src/Clients/Visuals/visuals/samples/gantt.ts:378-390 | as written: missing data views throw and leave the view model; otherwise the first view (`undefined` for `[]`) is converted, the result is exactly the converter's, and the stored tasks are all bars |
| Gantt.GanttChart.UpdateIntended | src/Clients/Visuals/visuals/samples/gantt.ts:378-390 | with the corrected guard: no first view leaves the view model; otherwise the converter's result is stored |
| Gantt.GanttChart.Store | src/Clients/Visuals/visuals/samples/gantt.ts:383-389 | the stored view model is the converter's result for the view; a conversion error leaves it unchanged |

## Left out

- Drawing: SVG elements, CSS classes, transitions, tooltips, axes, colours and
  `valueFormatter` output are not modelled. Where the layout is arithmetic, the
  model keeps the arithmetic (the plugin frame, bar layers, Gantt rows).
- Dates and time scales in the Gantt sample (`d3.time.day.offset`, the
  `yScale`) and `Date.now()` are not modelled. A task's start is the raw cell,
  and its end and progress width are left out.
- IEEE-754 rounding, signed zero and the 53-bit mantissa: numbers are exact
  reals, plus NaN and the infinities.
- `parseInt(x.toString())` is modelled as truncation of the number. Very large
  or very small values, which JavaScript prints in exponent notation, are not
  modelled.
- The order of `d3.nest` keys and of `Object.keys` is modelled as first
  occurrence. The lemmas about nodes rely only on membership and distinctness.
- `Math.random` in the Sankey `init` (the DOM id) is left out, since it is
  random and only names an element.
- The `d3.sankey` layout (node positions, link paths, `relayout`) belongs to a
  separate plugin, which is not part of this model. Only the drag clamp is
  modelled, with the layout's node sizes as inputs.
- The plugin's `value` accessor is stored but never read by the render step,
  so it is left out of the configuration.
- `BoxWhiskerSample`: the sample lemmas start from the sorted first column;
  the fact that sorting the raw column yields it is not proved.
- `SankeyBarchart.SortDescending`: the order of rows with equal values is not
  stated, since the engine's sort stability is not specified for this code.
- `SankeyBarchart.Update`: pixel positions (`xaxis_range_gap`, bar heights in
  pixels, footer widths) are left out; the layers hold the values they are
  computed from.
- `BoxWhiskerStats.ZeroFenceListsTwice`: stated only when the low whisker is
  below the high one. With equal whiskers a value at the whisker is listed a
  third time, and that case is not stated.
- `BoxWhisker.Normalize`: the key's property-name string is a parameter
  (`keyOf`), since JavaScript's conversion of a cell to a property key is not
  modelled. Keys that name a property every object inherits (`constructor`,
  `toString`) make `.push` throw in the source; the model groups them like any
  other key.
- `BoxWhisker.BuildPlotData`: the groups are taken as finite numbers. The
  conversion of `null` and text cells (`+null` is 0), and `d3.ascending` on
  mixed cells, are not modelled, so `SelectGroups` and `BuildPlotData` are not
  composed.
- `BoxWhisker.OrdinalSuffix`: `AddOrd` prints only integers. The suffix of any
  number is `OrdinalSuffixOf`, but the printed text of a number with a fraction
  (`2.5th`) or of NaN (`NaNth`) is not modelled.
- `BoxPlugin.BoxChart.Render`: the default whisker rule is drawn as intended,
  from the first to the last point. The as-written `[d[0], undefined]` of
  line 47 is stated by `BoxWhiskersAsWritten` and `DefaultWhiskersOfRecord`,
  and it is not drawn.
- `Sankey.Update`: a value cell is a finite number or `null`. NaN and infinite
  values in the flows are not modelled.
- Selection, the selection manager, `enumerateObjectInstances`, `destroy` and
  the capabilities files are not modelled.
- Colour scales and `getColor` are not modelled.

## Findings

| source | as written | input that shows it | evidently intended | confidence | as-written member | corrected member |
|---|---|---|---|---|---|---|
| src/Clients/Externals/ThirdPartyIP/D3/d3.plugin.boxWhisker.js:47 | the default whisker rule `boxWhiskers(d)` is called with the record `data`, so `d.length` is undefined and the high whisker index is NaN | any record with `ComputeFromPoints` and the default whiskers: whisker data `[d[0], undefined]` | `[0, Points.length - 1]`: whiskers at the first and last point, no outliers | not executed | BoxPlugin.BoxWhiskersAsWritten, BoxPlugin.DefaultWhiskersOfRecord | BoxPlugin.DefaultWhiskersSpanPoints |
| src/Clients/Visuals/visuals/boxWhisker.ts:394-397 | both branches label a whisker tick with `highWhiskerQuantile` | default settings: the low whisker tick (index 0) reads "95th quantile" for the 5% value | the low tick (even index) names `lowWhiskerQuantile` | not executed | BoxWhisker.WhiskerTooltipMislabelsLow | BoxWhisker.WhiskerTooltipNamesItsQuantile |
| src/Clients/Visuals/visuals/samples/gantt.ts:380 | `!options.dataViews && !options.dataViews[0]` can never return: it throws when `dataViews` is missing and passes when it is empty | `dataViews` undefined (TypeError), or `[]` (continues and reads `dataViews[0]`) | `!options.dataViews \|\| !options.dataViews[0]` | not executed | Gantt.UpdateGuardAsWrittenNeverStops, Gantt.GanttChart.Update | Gantt.UpdateGuard, Gantt.GanttChart.UpdateIntended |
