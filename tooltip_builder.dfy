/**
  The tooltip builder of the stream graph visual: it turns a grouping column and
  a list of series data items into the ordered (display name, value) entries the
  host shows on hover. The host's value formatter is a parameter (`Host`).
 */
module TooltipBuilder {
  import opened Wrappers
  import opened JsValues

  const HighlightedValueDisplayName: string := "Highlighted"
  const DefaultSeriesIndex: int := 0
  /** Display name of the entry that lists a column's per-point values. */
  const ValuesDisplayName: string := "values"
  const ValuesSeparator: char := ' '

  /** Column metadata (the host's DataViewMetadataColumn), as far as the builder reads it. */
  datatype Column = Column(
    displayName: string,
    format: JsValue,
    groupName: JsValue,
    isAutoGeneratedColumn: JsValue)

  /** A value column (DataViewValueColumn): its metadata and optional per-point arrays. */
  datatype ValueColumn = ValueColumn(
    source: Option<Column>,
    values: Option<seq<JsValue>>,
    highlights: Option<seq<JsValue>>)

  /** The grouped value columns of a categorical result (DataViewValueColumns). */
  datatype ValueColumns = ValueColumns(source: Option<Column>, columns: seq<ValueColumn>)

  /** A categorical query result (DataViewCategorical); only its value columns are read. */
  datatype Categorical = Categorical(values: Option<ValueColumns>)

  /** TooltipSeriesDataItem: a value, a highlighted value and the originating column. */
  datatype SeriesItem = SeriesItem(value: JsValue, highlightedValue: JsValue, metadata: Option<ValueColumn>)

  /** VisualTooltipDataItem; `value` is None where the source leaves it undefined. */
  datatype TooltipItem = TooltipItem(displayName: string, value: Option<string>)

  /**
    The host SDK services the builder calls, which lie outside this repository:
    `valueFormatter.format`, `valueFormatter.getFormatStringByColumn` (with its
    second argument `true`), and the engine's conversion of a number to a
    string, used by `join`.
   */
  datatype Host = Host(
    format: (JsValue, JsValue) -> string,
    formatStringByColumn: Column -> JsValue,
    numberToString: int -> string)

  /**
    getFormatStringFromColumn: null for an absent column, else the host's format
    string when it is truthy, else the column's own `format` (JavaScript `||`).
   */
  function GetFormatStringFromColumn(host: Host, column: Option<Column>): (r: JsValue)
    ensures column.None? ==> r == Null
    ensures column.Some? ==> r == host.formatStringByColumn(column.value) || r == column.value.format
    ensures column.Some? && Truthy(host.formatStringByColumn(column.value)) ==>
              r == host.formatStringByColumn(column.value)
    ensures column.Some? && !Truthy(host.formatStringByColumn(column.value)) ==> r == column.value.format
    ensures column.Some? ==>
              (Truthy(r) <==> Truthy(host.formatStringByColumn(column.value)) || Truthy(column.value.format))
  {
    match column
    case None => Null
    case Some(c) =>
      var formatString := host.formatStringByColumn(c);
      if Truthy(formatString) then formatString else c.format
  }

  /** getFormattedValue: the value rendered by the host with the column's format string. */
  function GetFormattedValue(host: Host, column: Option<Column>, value: JsValue): string
  {
    host.format(value, GetFormatStringFromColumn(host, column))
  }

  /** An item the loop of createTooltipData skips: absent, or without metadata. */
  predicate Skipped(s: Option<SeriesItem>)
  {
    s.None? || s.value.metadata.None?
  }

  /** The item does not make createTooltipData read `displayName` of an absent column. */
  predicate SafeItem(s: Option<SeriesItem>)
  {
    !Skipped(s) && Present(s.value.value) ==> s.value.metadata.value.source.Some?
  }

  /** The first item can be read as `seriesValues[0].metadata.source.groupName`. */
  predicate GroupSafe(valuesSource: Option<Column>, seriesValues: seq<Option<SeriesItem>>)
  {
    valuesSource.Some? && |seriesValues| > 0 ==>
      !Skipped(seriesValues[0]) && seriesValues[0].value.metadata.value.source.Some?
  }

  /** createTooltipData runs without a TypeError on these arguments. */
  predicate Dereferenceable(valuesSource: Option<Column>, seriesValues: seq<Option<SeriesItem>>)
  {
    && GroupSafe(valuesSource, seriesValues)
    && forall k :: 0 <= k < |seriesValues| ==> SafeItem(seriesValues[k])
  }

  /** The text of the "values" entry: non-null highlights if there are highlights, else all values. */
  function ValuesList(host: Host, metadata: ValueColumn): string
    requires metadata.values.Some?
  {
    if metadata.highlights.Some? then
      Join(host.numberToString, WithoutNulls(metadata.highlights.value), [ValuesSeparator])
    else
      Join(host.numberToString, metadata.values.value, [ValuesSeparator])
  }

  /** The value entry of an item that has metadata: present when `value || value === 0`. */
  function ValueEntry(host: Host, item: SeriesItem): seq<TooltipItem>
    requires item.metadata.Some? && SafeItem(Some(item))
  {
    var column := item.metadata.value.source;
    if Present(item.value) then
      [TooltipItem(column.value.displayName, Some(GetFormattedValue(host, column, item.value)))]
    else []
  }

  /** The "Highlighted" entry of an item that has metadata. */
  function HighlightedEntry(host: Host, item: SeriesItem): seq<TooltipItem>
    requires item.metadata.Some?
  {
    var column := item.metadata.value.source;
    if Present(item.highlightedValue) then
      [TooltipItem(HighlightedValueDisplayName, Some(GetFormattedValue(host, column, item.highlightedValue)))]
    else []
  }

  /** The "values" entry of an item that has metadata: present when the column carries `values`. */
  function ValuesEntry(host: Host, item: SeriesItem): seq<TooltipItem>
    requires item.metadata.Some?
  {
    var metadata := item.metadata.value;
    if metadata.values.Some? then [TooltipItem(ValuesDisplayName, Some(ValuesList(host, metadata)))] else []
  }

  /** The entries one series item contributes, in the order the loop body pushes them. */
  function SeriesItemEntries(host: Host, s: Option<SeriesItem>): (r: seq<TooltipItem>)
    requires SafeItem(s)
    ensures Skipped(s) ==> r == []
    ensures |r| <= 3
    ensures forall k :: 0 <= k < |r| ==> r[k].value.Some?
  {
    if Skipped(s) then []
    else ValueEntry(host, s.value) + HighlightedEntry(host, s.value) + ValuesEntry(host, s.value)
  }

  /** The entries of all series items, item after item. */
  function SeriesEntries(host: Host, seriesValues: seq<Option<SeriesItem>>): (r: seq<TooltipItem>)
    requires forall k :: 0 <= k < |seriesValues| ==> SafeItem(seriesValues[k])
    ensures |r| <= 3 * |seriesValues|
    ensures forall k :: 0 <= k < |r| ==> r[k].value.Some?
  {
    if seriesValues == [] then []
    else
      SeriesEntries(host, seriesValues[..|seriesValues| - 1])
      + SeriesItemEntries(host, seriesValues[|seriesValues| - 1])
  }

  /** The leading entry for the grouping column, if there is one. */
  function GroupEntry(host: Host, valuesSource: Option<Column>, seriesValues: seq<Option<SeriesItem>>): seq<TooltipItem>
    requires GroupSafe(valuesSource, seriesValues)
  {
    if valuesSource.None? then []
    else
      var dynamicValue :=
        if |seriesValues| > 0 then
          Some(GetFormattedValue(host, valuesSource, seriesValues[0].value.metadata.value.source.value.groupName))
        else None;
      [TooltipItem(valuesSource.value.displayName, dynamicValue)]
  }

  /** What createTooltipData returns. */
  function TooltipData(host: Host, valuesSource: Option<Column>, seriesValues: seq<Option<SeriesItem>>): seq<TooltipItem>
    requires Dereferenceable(valuesSource, seriesValues)
  {
    GroupEntry(host, valuesSource, seriesValues) + SeriesEntries(host, seriesValues)
  }

  /** createTooltipData: the group entry, then one loop pass per series item pushing its entries. */
  method CreateTooltipData(host: Host, valuesSource: Option<Column>, seriesValues: seq<Option<SeriesItem>>)
    returns (items: seq<TooltipItem>)
    requires Dereferenceable(valuesSource, seriesValues)
    ensures items == TooltipData(host, valuesSource, seriesValues)
  {
    items := [];
    if valuesSource.Some? {
      var dynamicValue: Option<string> := None;
      if |seriesValues| > 0 {
        var dynamicValueMetadata := seriesValues[0].value.metadata.value.source.value;
        dynamicValue := Some(GetFormattedValue(host, valuesSource, dynamicValueMetadata.groupName));
      }
      items := items + [TooltipItem(valuesSource.value.displayName, dynamicValue)];
    }
    ghost var group := GroupEntry(host, valuesSource, seriesValues);
    assert items == group;
    for index := 0 to |seriesValues|
      invariant items == group + SeriesEntries(host, seriesValues[..index])
    {
      assert SafeItem(seriesValues[index]);
      assert seriesValues[..index + 1][..index] == seriesValues[..index];
      ghost var done := SeriesEntries(host, seriesValues[..index]);
      ghost var entries := SeriesItemEntries(host, seriesValues[index]);
      items := PushSeriesEntries(host, items, seriesValues[index]);
      ConcatAssociative(group, done, entries);
    }
    assert seriesValues[..|seriesValues|] == seriesValues;
  }

  /** One pass of createTooltipData's loop: push the entries of one series item onto `items`. */
  method PushSeriesEntries(host: Host, items: seq<TooltipItem>, seriesData: Option<SeriesItem>)
    returns (pushed: seq<TooltipItem>)
    requires SafeItem(seriesData)
    ensures pushed == items + SeriesItemEntries(host, seriesData)
  {
    pushed := items;
    if seriesData.Some? && seriesData.value.metadata.Some? {
      ghost var item := seriesData.value;
      ghost var valueEntry := ValueEntry(host, item);
      ghost var highlightedEntry := HighlightedEntry(host, item);
      ghost var valuesEntry := ValuesEntry(host, item);
      var metadata := seriesData.value.metadata.value;
      var seriesMetadataColumn := metadata.source;
      var value := seriesData.value.value;
      var highlightedValue := seriesData.value.highlightedValue;
      if Present(value) {
        var formattedValue := GetFormattedValue(host, seriesMetadataColumn, value);
        pushed := pushed + [TooltipItem(seriesMetadataColumn.value.displayName, Some(formattedValue))];
      }
      assert pushed == items + valueEntry;
      ghost var afterValue := pushed;
      if Present(highlightedValue) {
        var formattedHighlightedValue := GetFormattedValue(host, seriesMetadataColumn, highlightedValue);
        pushed := pushed + [TooltipItem(HighlightedValueDisplayName, Some(formattedHighlightedValue))];
      }
      assert pushed == afterValue + highlightedEntry;
      ghost var afterHighlighted := pushed;
      if metadata.values.Some? {
        var valuesList: string;
        if metadata.highlights.Some? {
          valuesList := Join(host.numberToString, WithoutNulls(metadata.highlights.value), [ValuesSeparator]);
        } else {
          valuesList := Join(host.numberToString, metadata.values.value, [ValuesSeparator]);
        }
        pushed := pushed + [TooltipItem(ValuesDisplayName, Some(valuesList))];
      }
      assert pushed == afterHighlighted + valuesEntry;
      ConcatAssociative(items, valueEntry, highlightedEntry);
      ConcatAssociative(items, valueEntry + highlightedEntry, valuesEntry);
    }
  }

  lemma ConcatAssociative(a: seq<TooltipItem>, b: seq<TooltipItem>, c: seq<TooltipItem>)
    ensures (a + b) + c == a + (b + c)
  {
  }

  /** `seriesIndex | DefaultSeriesIndex`, where an unspecified index reads as 0. */
  function SeriesIndexOf(seriesIndex: Option<int>): (r: int)
    ensures seriesIndex.None? ==> r == 0
    ensures seriesIndex.Some? && -TwoTo31 <= seriesIndex.value < TwoTo31 ==> r == seriesIndex.value
    ensures seriesIndex.Some? ==> (seriesIndex.value - r) % TwoTo32 == 0
  {
    var operand := if seriesIndex.Some? then seriesIndex.value else 0;
    BitOrZero(operand);
    BitOr(operand, DefaultSeriesIndex)
  }

  /** The grouping column createTooltipInfo passes on: `dataViewCat.values.source`, if reachable. */
  function ValuesSourceOf(dataViewCat: Option<Categorical>): Option<Column>
  {
    if dataViewCat.Some? && dataViewCat.value.values.Some? then dataViewCat.value.values.value.source else None
  }

  /** `dataViewCat.values[seriesIndex]`: undefined when the index is out of range. */
  function SelectedColumn(columns: seq<ValueColumn>, index: int): (r: Option<ValueColumn>)
    ensures r.Some? <==> 0 <= index < |columns|
    ensures r.Some? ==> r.value == columns[index]
  {
    if 0 <= index < |columns| then Some(columns[index]) else None
  }

  /** `!!(valueColumn && valueColumn.source && valueColumn.source.isAutoGeneratedColumn)`. */
  predicate IsAutoGenerated(valueColumn: Option<ValueColumn>)
  {
    valueColumn.Some? && valueColumn.value.source.Some? && Truthy(valueColumn.value.source.value.isAutoGeneratedColumn)
  }

  /** The column createTooltipInfo looks at, when it gets as far as selecting one. */
  function ChosenColumn(dataViewCat: Option<Categorical>, seriesIndex: Option<int>): Option<ValueColumn>
  {
    if dataViewCat.Some? && dataViewCat.value.values.Some? then
      SelectedColumn(dataViewCat.value.values.value.columns, SeriesIndexOf(seriesIndex))
    else None
  }

  /** The series list createTooltipInfo builds: at most one item, for a column that is not auto-generated. */
  function SeriesSourceOf(dataViewCat: Option<Categorical>, seriesIndex: Option<int>): (r: seq<Option<SeriesItem>>)
    ensures |r| <= 1
    ensures |r| == 1 <==>
              dataViewCat.Some? && dataViewCat.value.values.Some? && |dataViewCat.value.values.value.columns| > 0
              && !IsAutoGenerated(ChosenColumn(dataViewCat, seriesIndex))
    ensures forall k :: 0 <= k < |r| ==>
              r[k] == Some(SeriesItem(Null, Undefined, ChosenColumn(dataViewCat, seriesIndex)))
  {
    if dataViewCat.Some? && dataViewCat.value.values.Some? && |dataViewCat.value.values.value.columns| > 0 then
      var valueColumn := ChosenColumn(dataViewCat, seriesIndex);
      if IsAutoGenerated(valueColumn) then [] else [Some(SeriesItem(Null, Undefined, valueColumn))]
    else []
  }

  /** createTooltipInfo runs without a TypeError on these arguments. */
  predicate InfoDereferenceable(dataViewCat: Option<Categorical>, seriesIndex: Option<int>)
  {
    Dereferenceable(ValuesSourceOf(dataViewCat), SeriesSourceOf(dataViewCat, seriesIndex))
  }

  /** createTooltipInfo: pick the series column, drop it if auto-generated, and build its tooltip. */
  method CreateTooltipInfo(host: Host, dataViewCat: Option<Categorical>, seriesIndex: Option<int>)
    returns (items: seq<TooltipItem>)
    requires InfoDereferenceable(dataViewCat, seriesIndex)
    ensures items == TooltipData(host, ValuesSourceOf(dataViewCat), SeriesSourceOf(dataViewCat, seriesIndex))
  {
    var seriesSource: seq<Option<SeriesItem>> := [];
    var valuesSource: Option<Column> := None;
    var index := SeriesIndexOf(seriesIndex);
    if dataViewCat.Some? && dataViewCat.value.values.Some? {
      var values := dataViewCat.value.values.value;
      valuesSource := values.source;
      if |values.columns| > 0 {
        var valueColumn := if 0 <= index < |values.columns| then Some(values.columns[index]) else None;
        var isAutoGeneratedColumn := valueColumn.Some? && valueColumn.value.source.Some?
                                     && Truthy(valueColumn.value.source.value.isAutoGeneratedColumn);
        if !isAutoGeneratedColumn {
          seriesSource := seriesSource + [Some(SeriesItem(Null, Undefined, valueColumn))];
        }
      }
    }
    items := CreateTooltipData(host, valuesSource, seriesSource);
  }
}
