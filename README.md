# Tooltip builder of the Power BI stream graph visual, in Dafny

This project models the tooltip assembly of the stream graph visual
(`src/tooltipBuilder.ts`). The builder takes a grouping column (`valuesSource`)
and a list of series data items, and returns the ordered list of
`(displayName, value)` entries the host shows on hover:

- first a group entry for the grouping column;
- then, for each series item in order, a value entry, a `"Highlighted"` entry
  and a `"values"` entry, each only when its condition holds.

`createTooltipInfo` builds that series list from a categorical query result. It
picks one value column, and it drops the column when it is auto-generated.

Files:

- `wrappers.dfy`: the `Option` datatype, standing for properties and arguments that
  may be absent.
- `js_values.dfy` (module `JsValues`): the JavaScript semantics the code relies on.
  This covers the value datatype, truthiness and the `v || v === 0` test (`Present`).
  It also covers ToInt32 and the bitwise `|`, `Array.prototype.join`, the
  `filter(d => d === null ? false : true)` of the highlights, and
  `String.prototype.split`. Split is used only to state that the join separator is
  exactly one space.
- `tooltip_builder.dfy` (module `TooltipBuilder`): the records the builder reads, and
  `getFormatStringFromColumn` and `getFormattedValue` as functions.
  `createTooltipData` and `createTooltipInfo` are methods, written in the source's
  imperative form (an index loop that pushes entries, and reassigned locals). The
  loop body of `createTooltipData` is its own method, `PushSeriesEntries`. Each
  method is proved equal to a specification function (`TooltipData`).
- `tooltip_properties.dfy` (module `TooltipProperties`): lemmas about those
  specification functions.

The host's formatting service (`valueFormatter.format` and
`valueFormatter.getFormatStringByColumn`) lives in the host SDK, outside this
repository, so it is a parameter: the
`Host` datatype holds both as uninterpreted total functions. `Host` also holds the
engine's number-to-string conversion, which `join` uses. So the properties are about
which entries appear and in what order, not about how numbers are rendered.

Three behaviours of the code are easy to misread; the model follows the code:

- The group entry is emitted whenever `valuesSource` is present, even when there are
  no series items. Its value is then undefined (`None`).
- The `"values"` entry needs `metadata.values`. A column that has `highlights` but no
  `values` emits nothing.
- An out-of-range `seriesIndex` does not always fail. `dataViewCat.values[seriesIndex]`
  is then undefined, and the pushed item has no metadata (`SelectedColumn` returns
  `None`). Without a grouping column nothing is emitted (`InfoOutOfRangeWithoutGroupIsEmpty`).
  With one, the builder fails with a TypeError, and the precondition
  `InfoDereferenceable` excludes that case.

## Model

| member | source | states |
|---|---|---|
| `TooltipBuilder.GetFormatStringFromColumn` | src/tooltipBuilder.ts:149-157 | null for an absent column; otherwise the host's format string when it is truthy, else the column's raw `format`; the result is truthy exactly when one of the two is |
| `TooltipProperties.FormattedValueUsesColumnFormat` | src/tooltipBuilder.ts:143-147 | `GetFormattedValue`: the formatter receives exactly the string `getFormatStringFromColumn` returns: null for no column, the host's string when truthy, else `column.format` |
| `TooltipBuilder.CreateTooltipData` | src/tooltipBuilder.ts:71-141 | the imperative group-entry-then-loop code returns exactly `TooltipData`, the group entry followed by every item's entries in input order |
| `TooltipBuilder.PushSeriesEntries` | src/tooltipBuilder.ts:97-136 | one pass of the loop body pushes onto `items` exactly the entries of that series item (value, then "Highlighted", then "values", each when its condition holds) |
| `TooltipBuilder.SeriesItemEntries` | src/tooltipBuilder.ts:96-137 | a skipped item (absent, or without metadata) contributes nothing; any item contributes at most three entries, each with a string value |
| `TooltipBuilder.SeriesEntries` | src/tooltipBuilder.ts:96-138 | the loop emits at most three entries per series item, each with a string value |
| `TooltipProperties.GroupEntryReadsFirstItemOnly` | src/tooltipBuilder.ts:80-93 | `GroupEntry`: the group entry depends on the first series item only; appending items leaves it unchanged |
| `TooltipProperties.TooltipDataAppend` | src/tooltipBuilder.ts:71-141 | `TooltipData`: appending series items to a non-empty list appends exactly their entries to the output |
| `TooltipProperties.GroupEntryFirst` | src/tooltipBuilder.ts:78-94 | with a grouping column, entry 0 has its display name and the first item's `groupName` formatted with the grouping column's format string (undefined when there are no items), and the series entries follow; without one, only series entries |
| `TooltipProperties.SeriesEntriesAppend` | src/tooltipBuilder.ts:96-138 | entries follow input order: the entries of `a + b` are the entries of `a` followed by those of `b` |
| `TooltipProperties.SkippedItemContributesNothing` | src/tooltipBuilder.ts:99 | removing an absent item, or one without metadata, anywhere in the list leaves the entries unchanged |
| `TooltipProperties.AllSkippedGivesGroupOnly` | src/tooltipBuilder.ts:78-138 | when every series item is skipped, only the group entry (if any) is emitted |
| `TooltipProperties.TooltipDataLength` | src/tooltipBuilder.ts:78-138 | the output has at most `(valuesSource ? 1 : 0) + 3 * |seriesValues|` entries |
| `TooltipProperties.ItemEntriesInOrder` | src/tooltipBuilder.ts:104-136 | an item with metadata emits exactly its value entry (if `value || value === 0`), then `"Highlighted"` (if `highlightedValue || highlightedValue === 0`), then `"values"` (if `metadata.values`), at the positions those conditions give |
| `TooltipProperties.ZeroStillEmits` | src/tooltipBuilder.ts:104-124 | a value or highlighted value of exactly 0 still emits its entry, formatted with the column's format string; the highlighted entry is named `"Highlighted"` |
| `TooltipProperties.FalsyValuesEmitNothing` | src/tooltipBuilder.ts:104-124 | undefined, null, false, NaN and the empty string as value or highlight emit nothing; only the `"values"` entry remains, if there is one |
| `TooltipProperties.OnlyGroupValueMayBeUndefined` | src/tooltipBuilder.ts:78-138 | every entry other than the group entry carries a formatted string value |
| `TooltipProperties.ValuesListPieces` | src/tooltipBuilder.ts:126-136 | the `"values"` text is the null-filtered highlights (or, with no highlights, all values) joined by a single space: when that list is non-empty and no element's text contains a space, splitting the text at spaces gives the elements' texts back in order |
| `TooltipProperties.ValuesListHighlightsTakePrecedence` | src/tooltipBuilder.ts:127-131 | `ValuesList`: with highlights, the text does not depend on the contents of `values`, and highlights that are all null give the empty text |
| `TooltipProperties.RegionSalesScenario` | src/tooltipBuilder.ts:78-138 | grouping column "Region", one "Sales" item with group name "East", value 1500 and no highlight give exactly the "Region" entry and then the "Sales" entry |
| `TooltipBuilder.CreateTooltipInfo` | src/tooltipBuilder.ts:40-69 | the imperative selection code returns what `createTooltipData` returns for `dataViewCat.values.source` and the series list `SeriesSourceOf` describes |
| `TooltipBuilder.SeriesIndexOf` | src/tooltipBuilder.ts:48 | `seriesIndex | DefaultSeriesIndex` is 0 when the index is unspecified, the index itself for every 32-bit index, and otherwise congruent to it modulo 2^32 |
| `TooltipProperties.InfoOutOfRangeWithoutGroupIsEmpty` | src/tooltipBuilder.ts:53-63 | an out-of-range index without a grouping column pushes one item without metadata, does not fail, and yields an empty list |
| `TooltipBuilder.SeriesSourceOf` | src/tooltipBuilder.ts:49-66 | at most one series item, present exactly when there are value columns and the chosen one is not auto-generated, always with a null value and an undefined highlight |
| `TooltipProperties.InfoEmptyWithoutValues` | src/tooltipBuilder.ts:45-68 | without `dataViewCat` or without `dataViewCat.values`, the result is empty |
| `TooltipProperties.InfoKeepsUnflaggedColumn` | src/tooltipBuilder.ts:54-64 | `IsAutoGenerated`: an in-range column that is not flagged auto-generated becomes the one series item, and its `"values"` entry follows the group entry exactly when it carries `values` |
| `TooltipProperties.InfoGroupEntry` | src/tooltipBuilder.ts:50-94 | `ValuesSourceOf`: with a grouping column `dataViewCat.values.source`, the first entry has its display name and the chosen column's group name formatted with its format string, or an undefined value when the column was excluded |
| `TooltipProperties.InfoExcludesAutoGenerated` | src/tooltipBuilder.ts:53-64 | an auto-generated column is excluded from the series list; only the group entry remains, with an undefined value |
| `TooltipProperties.InfoAtMostGroupAndValues` | src/tooltipBuilder.ts:59-68 | the result has at most two entries, the group entry and otherwise only `"values"` entries, because the value is null and the highlight undefined |
| `JsValues.Truthy` | src/tooltipBuilder.ts:54-56 | a JavaScript value is falsy exactly when it is undefined, null, false, 0, NaN or the empty string |
| `JsValues.Present` | src/tooltipBuilder.ts:104 | `v || v === 0` holds for every value except undefined, null, false, NaN and the empty string |
| `JsValues.ToInt32` | src/tooltipBuilder.ts:48 | the 32-bit conversion the bitwise operator applies lands in the int32 range and is congruent to its argument modulo 2^32 |
| `JsValues.OrBitsBounds` | src/tooltipBuilder.ts:48 | `BitOr`: the bitwise or of two words is at least each of them and at most their sum |
| `JsValues.BitOrZero` | src/tooltipBuilder.ts:48 | `a | 0` is the 32-bit conversion of `a`, so it leaves every int32 unchanged |
| `JsValues.WithoutNulls` | src/tooltipBuilder.ts:129 | the highlight filter leaves no null, and its result's multiset is the input's with the nulls removed |
| `JsValues.WithoutNullsAppend` | src/tooltipBuilder.ts:129 | the filter keeps the relative order of what it keeps |
| `JsValues.WithoutNullsIdentity` | src/tooltipBuilder.ts:129 | highlights without nulls pass the filter unchanged |
| `JsValues.JoinAppend` | src/tooltipBuilder.ts:129-131 | `Join`: the separator stands exactly between the joined texts of two non-empty parts |
| `JsValues.SplitJoin` | src/tooltipBuilder.ts:129-131 | joining with a one-character separator loses nothing: splitting the joined text at it gives every element's text back in order |

## Left out

- `src/dataInterfaces.ts` is not part of this model. It declares records
  (`StreamData`, `StreamGraphSeries`, `StreamDataPoint`, `AxisLabelProperties`) and has
  no behaviour.
- The `dataView` parameter of both builder functions is never read, so it is dropped.
- The host formatter (`valueFormatter.format`, `valueFormatter.getFormatStringByColumn`)
  and the engine's number-to-string conversion are uninterpreted parameters (`Host`).
  Locale and number formatting (such as `"#,0"` giving `"1,500"`) are not modelled.
- Numbers are integers. Floating point, `-0`, and non-integer `seriesIndex` values are
  not modelled. Objects and dates as group names or array elements are not modelled
  either: `JsValue` has no object case.
- CreateTooltipData: the three places where the source throws a TypeError are
  preconditions (`Dereferenceable`), not modelled errors. Line 83 reads
  `seriesValues[0].metadata.source` without the guard the loop applies. Line 87 reads
  `groupName` of that source when it is absent. Line 110 reads `displayName` of an
  absent column when a value is present.
- CreateTooltipInfo: its precondition (`InfoDereferenceable`) excludes the same
  TypeErrors. With a grouping column present, it excludes an out-of-range
  `seriesIndex`, and also an in-range column without `source`. An out-of-range index
  without a grouping column is modelled, and yields an empty list.
- `DataViewMetadataColumn` and `DataViewValueColumn` carry only the fields the builder
  reads.
