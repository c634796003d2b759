/** What the tooltip builder promises about the entries it emits. */
module TooltipProperties {
  import opened Wrappers
  import opened JsValues
  import opened TooltipBuilder

  /** Every item of a series list is safe to read. */
  predicate AllSafe(seriesValues: seq<Option<SeriesItem>>)
  {
    forall k :: 0 <= k < |seriesValues| ==> SafeItem(seriesValues[k])
  }

  /**
    With a grouping column the first entry is the group entry: the column's display
    name and the first series item's group name formatted by the grouping column,
    or an undefined value when there are no series items. Without one, only series
    entries are emitted.
   */
  lemma GroupEntryFirst(host: Host, valuesSource: Option<Column>, seriesValues: seq<Option<SeriesItem>>)
    requires Dereferenceable(valuesSource, seriesValues)
    ensures var r := TooltipData(host, valuesSource, seriesValues);
      && (valuesSource.Some? ==>
            && |r| > 0
            && r[0].displayName == valuesSource.value.displayName
            && r[0].value ==
                 (if |seriesValues| > 0 then
                    Some(host.format(seriesValues[0].value.metadata.value.source.value.groupName,
                                     GetFormatStringFromColumn(host, valuesSource)))
                  else None)
            && r[1..] == SeriesEntries(host, seriesValues))
      && (valuesSource.None? ==> r == SeriesEntries(host, seriesValues))
  {
  }

  /** The group entry reads only the first series item: later items do not change it. */
  lemma GroupEntryReadsFirstItemOnly(host: Host, valuesSource: Option<Column>,
                                     seriesValues: seq<Option<SeriesItem>>, rest: seq<Option<SeriesItem>>)
    requires GroupSafe(valuesSource, seriesValues) && |seriesValues| > 0
    ensures GroupSafe(valuesSource, seriesValues + rest)
    ensures GroupEntry(host, valuesSource, seriesValues + rest) == GroupEntry(host, valuesSource, seriesValues)
  {
    assert (seriesValues + rest)[0] == seriesValues[0];
  }

  /** Series entries follow input order: the entries of a concatenation are the concatenation of entries. */
  lemma {:induction false} SeriesEntriesAppend(host: Host, a: seq<Option<SeriesItem>>, b: seq<Option<SeriesItem>>)
    requires AllSafe(a) && AllSafe(b)
    ensures AllSafe(a + b)
    ensures SeriesEntries(host, a + b) == SeriesEntries(host, a) + SeriesEntries(host, b)
    decreases |b|
  {
    assert forall k :: 0 <= k < |a + b| ==> (a + b)[k] == if k < |a| then a[k] else b[k - |a|];
    if b == [] {
      assert a + b == a;
    } else {
      var b' := b[..|b| - 1];
      assert AllSafe(b') by {
        forall k | 0 <= k < |b'| ensures SafeItem(b'[k]) { assert b'[k] == b[k]; }
      }
      assert (a + b)[..|a + b| - 1] == a + b';
      assert (a + b)[|a + b| - 1] == b[|b| - 1];
      SeriesEntriesAppend(host, a, b');
      ConcatAssociative(SeriesEntries(host, a), SeriesEntries(host, b'), SeriesItemEntries(host, b[|b| - 1]));
    }
  }

  /** A one-item list contributes exactly that item's entries. */
  lemma SeriesEntriesSingleton(host: Host, s: Option<SeriesItem>)
    requires SafeItem(s)
    ensures SeriesEntries(host, [s]) == SeriesItemEntries(host, s)
  {
    assert [s][..0] == [];
  }

  /** An absent item, or one without metadata, can be removed from the list without changing the entries. */
  lemma SkippedItemContributesNothing(host: Host, a: seq<Option<SeriesItem>>, s: Option<SeriesItem>, b: seq<Option<SeriesItem>>)
    requires AllSafe(a) && AllSafe(b)
    requires Skipped(s)
    ensures AllSafe(a + [s] + b)
    ensures SeriesEntries(host, a + [s] + b) == SeriesEntries(host, a + b)
  {
    SeriesEntriesSingleton(host, s);
    SeriesEntriesAppend(host, a, [s]);
    SeriesEntriesAppend(host, a + [s], b);
    SeriesEntriesAppend(host, a, b);
    assert SeriesEntries(host, a + [s]) == SeriesEntries(host, a);
  }

  /** Appending series items to a non-empty list appends exactly their entries to the tooltip. */
  lemma TooltipDataAppend(host: Host, valuesSource: Option<Column>, a: seq<Option<SeriesItem>>, b: seq<Option<SeriesItem>>)
    requires Dereferenceable(valuesSource, a) && |a| > 0
    requires AllSafe(b)
    ensures Dereferenceable(valuesSource, a + b)
    ensures TooltipData(host, valuesSource, a + b) == TooltipData(host, valuesSource, a) + SeriesEntries(host, b)
  {
    GroupEntryReadsFirstItemOnly(host, valuesSource, a, b);
    SeriesEntriesAppend(host, a, b);
    ConcatAssociative(GroupEntry(host, valuesSource, a), SeriesEntries(host, a), SeriesEntries(host, b));
  }

  /** When every item is skipped, the group entry is all that is emitted. */
  lemma {:induction false} AllSkippedGivesGroupOnly(host: Host, valuesSource: Option<Column>, seriesValues: seq<Option<SeriesItem>>)
    requires Dereferenceable(valuesSource, seriesValues)
    requires forall k :: 0 <= k < |seriesValues| ==> Skipped(seriesValues[k])
    ensures SeriesEntries(host, seriesValues) == []
    ensures TooltipData(host, valuesSource, seriesValues) == GroupEntry(host, valuesSource, seriesValues)
    decreases |seriesValues|
  {
    if seriesValues != [] {
      var init := seriesValues[..|seriesValues| - 1];
      assert forall k :: 0 <= k < |init| ==> init[k] == seriesValues[k];
      AllSkippedGivesGroupOnly(host, None, init);
    }
  }

  /** At most one group entry and three entries per series item. */
  lemma TooltipDataLength(host: Host, valuesSource: Option<Column>, seriesValues: seq<Option<SeriesItem>>)
    requires Dereferenceable(valuesSource, seriesValues)
    ensures |TooltipData(host, valuesSource, seriesValues)| <= (if valuesSource.Some? then 1 else 0) + 3 * |seriesValues|
  {
  }

  /**
    The entries of one item with metadata: its value entry if `value || value === 0`,
    then the "Highlighted" entry if `highlightedValue || highlightedValue === 0`,
    then the "values" entry if the column carries `values`, and nothing else.
   */
  lemma ItemEntriesInOrder(host: Host, item: SeriesItem)
    requires item.metadata.Some? && SafeItem(Some(item))
    ensures var r := SeriesItemEntries(host, Some(item));
      var column := item.metadata.value.source;
      var p := if Present(item.value) then 1 else 0;
      var q := p + if Present(item.highlightedValue) then 1 else 0;
      && |r| == q + (if item.metadata.value.values.Some? then 1 else 0)
      && (Present(item.value) ==>
            r[0] == TooltipItem(column.value.displayName, Some(GetFormattedValue(host, column, item.value))))
      && (Present(item.highlightedValue) ==>
            r[p] == TooltipItem(HighlightedValueDisplayName, Some(GetFormattedValue(host, column, item.highlightedValue))))
      && (item.metadata.value.values.Some? ==>
            r[q] == TooltipItem(ValuesDisplayName, Some(ValuesList(host, item.metadata.value))))
  {
  }

  /** A value of exactly zero, or a highlighted value of exactly zero, still emits its entry. */
  lemma ZeroStillEmits(host: Host, item: SeriesItem)
    requires item.metadata.Some? && SafeItem(Some(item))
    ensures var r := SeriesItemEntries(host, Some(item));
      var column := item.metadata.value.source;
      && (item.value == Num(0) ==>
            r[0] == TooltipItem(column.value.displayName, Some(host.format(Num(0), GetFormatStringFromColumn(host, column)))))
      && (item.highlightedValue == Num(0) ==>
            var p := if Present(item.value) then 1 else 0;
            r[p] == TooltipItem(HighlightedValueDisplayName, Some(host.format(Num(0), GetFormatStringFromColumn(host, column)))))
  {
  }

  /**
    Falsy values other than zero (undefined, null, false, NaN, the empty string)
    emit nothing: an item whose value and highlighted value are such contributes
    only its "values" entry, if any.
   */
  lemma FalsyValuesEmitNothing(host: Host, item: SeriesItem)
    requires item.metadata.Some?
    requires item.value in {Undefined, Null, Bool(false), NaN, Str("")}
    requires item.highlightedValue in {Undefined, Null, Bool(false), NaN, Str("")}
    ensures SafeItem(Some(item))
    ensures SeriesItemEntries(host, Some(item)) ==
              if item.metadata.value.values.Some? then
                [TooltipItem(ValuesDisplayName, Some(ValuesList(host, item.metadata.value)))]
              else []
  {
  }

  /** Every entry after the group entry carries a formatted string value. */
  lemma OnlyGroupValueMayBeUndefined(host: Host, valuesSource: Option<Column>, seriesValues: seq<Option<SeriesItem>>)
    requires Dereferenceable(valuesSource, seriesValues)
    ensures var r := TooltipData(host, valuesSource, seriesValues);
      forall k :: 0 <= k < |r| && (valuesSource.None? || k > 0) ==> r[k].value.Some?
  {
  }

  /** No element of `xs` renders with a space inside it. */
  predicate NoSpaceInside(host: Host, xs: seq<JsValue>)
  {
    forall k :: 0 <= k < |xs| ==> ValuesSeparator !in ElementText(host.numberToString, xs[k])
  }

  /**
    The "values" text is the highlights without their nulls, separated by single
    spaces (undefined highlights stay, as empty pieces), or, without highlights, all
    values separated by single spaces: splitting it at the spaces gives those
    elements' texts back, in order.
   */
  lemma ValuesListPieces(host: Host, metadata: ValueColumn)
    requires metadata.values.Some?
    requires metadata.highlights.Some? ==>
               |WithoutNulls(metadata.highlights.value)| > 0 && NoSpaceInside(host, metadata.highlights.value)
    requires metadata.highlights.None? ==> |metadata.values.value| > 0 && NoSpaceInside(host, metadata.values.value)
    ensures metadata.highlights.Some? ==>
              Split(ValuesList(host, metadata), ValuesSeparator) ==
              Texts(host.numberToString, WithoutNulls(metadata.highlights.value))
    ensures metadata.highlights.None? ==>
              Split(ValuesList(host, metadata), ValuesSeparator) == Texts(host.numberToString, metadata.values.value)
  {
    if metadata.highlights.Some? {
      var hs := metadata.highlights.value;
      var kept := WithoutNulls(hs);
      forall k | 0 <= k < |kept| ensures ValuesSeparator !in ElementText(host.numberToString, kept[k]) {
        assert kept[k] in multiset(kept);
        assert kept[k] in multiset(hs);
        var j :| 0 <= j < |hs| && hs[j] == kept[k];
      }
      SplitJoin(host.numberToString, kept, ValuesSeparator);
    } else {
      SplitJoin(host.numberToString, metadata.values.value, ValuesSeparator);
    }
  }

  /**
    With highlights, the "values" text ignores the contents of `values` (which only
    decides whether the entry appears), and highlights that are all null give the
    empty text.
   */
  lemma ValuesListHighlightsTakePrecedence(host: Host, metadata: ValueColumn, otherValues: seq<JsValue>)
    requires metadata.values.Some? && metadata.highlights.Some?
    ensures ValuesList(host, metadata) == ValuesList(host, metadata.(values := Some(otherValues)))
    ensures (forall k :: 0 <= k < |metadata.highlights.value| ==> metadata.highlights.value[k] == Null) ==>
              ValuesList(host, metadata) == ""
  {
    var hs := metadata.highlights.value;
    if forall k :: 0 <= k < |hs| ==> hs[k] == Null {
      var kept := WithoutNulls(hs);
      forall v | v != Null ensures multiset(hs)[v] == 0 {
        assert v !in hs;
      }
      assert multiset(kept) == multiset{};
      assert kept == [];
    }
  }

  /** The output of createTooltipInfo as a function of its inputs. */
  function TooltipInfo(host: Host, dataViewCat: Option<Categorical>, seriesIndex: Option<int>): seq<TooltipItem>
    requires InfoDereferenceable(dataViewCat, seriesIndex)
  {
    TooltipData(host, ValuesSourceOf(dataViewCat), SeriesSourceOf(dataViewCat, seriesIndex))
  }

  /** Without a categorical result, or without value columns, createTooltipInfo emits nothing. */
  lemma InfoEmptyWithoutValues(host: Host, dataViewCat: Option<Categorical>, seriesIndex: Option<int>)
    requires dataViewCat.None? || dataViewCat.value.values.None?
    ensures InfoDereferenceable(dataViewCat, seriesIndex)
    ensures TooltipInfo(host, dataViewCat, seriesIndex) == []
  {
  }

  /** An auto-generated column never reaches the tooltip: only the group entry, with an undefined value. */
  lemma InfoExcludesAutoGenerated(host: Host, dataViewCat: Option<Categorical>, seriesIndex: Option<int>)
    requires IsAutoGenerated(ChosenColumn(dataViewCat, seriesIndex))
    ensures InfoDereferenceable(dataViewCat, seriesIndex)
    ensures SeriesSourceOf(dataViewCat, seriesIndex) == []
    ensures TooltipInfo(host, dataViewCat, seriesIndex) ==
              if ValuesSourceOf(dataViewCat).Some? then [TooltipItem(ValuesSourceOf(dataViewCat).value.displayName, None)]
              else []
  {
  }

  /**
    createTooltipInfo emits at most two entries: the group entry (when there is a
    grouping column) and the chosen column's "values" entry; its null value and
    undefined highlight never produce an entry.
   */
  lemma InfoAtMostGroupAndValues(host: Host, dataViewCat: Option<Categorical>, seriesIndex: Option<int>)
    requires InfoDereferenceable(dataViewCat, seriesIndex)
    ensures var r := TooltipInfo(host, dataViewCat, seriesIndex);
      var valuesSource := ValuesSourceOf(dataViewCat);
      && |r| <= (if valuesSource.Some? then 1 else 0) + 1
      && |r| <= 2
      && forall k :: 0 <= k < |r| && (valuesSource.None? || k > 0) ==> r[k].displayName == ValuesDisplayName
  {
  }

  /**
    With a grouping column, createTooltipInfo's first entry carries its display name
    and the chosen column's group name formatted with the grouping column's format
    string, or an undefined value once the chosen column has been excluded.
   */
  lemma InfoGroupEntry(host: Host, dataViewCat: Option<Categorical>, seriesIndex: Option<int>)
    requires InfoDereferenceable(dataViewCat, seriesIndex)
    requires ValuesSourceOf(dataViewCat).Some?
    ensures var r := TooltipInfo(host, dataViewCat, seriesIndex);
      var valuesSource := ValuesSourceOf(dataViewCat);
      var series := SeriesSourceOf(dataViewCat, seriesIndex);
      && |r| > 0
      && r[0].displayName == valuesSource.value.displayName
      && r[0].value ==
           (if series != [] then
              Some(GetFormattedValue(host, valuesSource,
                                     ChosenColumn(dataViewCat, seriesIndex).value.source.value.groupName))
            else None)
  {
    GroupEntryFirst(host, ValuesSourceOf(dataViewCat), SeriesSourceOf(dataViewCat, seriesIndex));
  }

  /**
    An out-of-range series index without a grouping column does not fail: the
    pushed item has no metadata, so nothing is emitted.
   */
  lemma InfoOutOfRangeWithoutGroupIsEmpty(host: Host, dataViewCat: Option<Categorical>, seriesIndex: Option<int>)
    requires dataViewCat.Some? && dataViewCat.value.values.Some?
    requires ValuesSourceOf(dataViewCat).None?
    requires |dataViewCat.value.values.value.columns| > 0
    requires !(0 <= SeriesIndexOf(seriesIndex) < |dataViewCat.value.values.value.columns|)
    ensures SeriesSourceOf(dataViewCat, seriesIndex) == [Some(SeriesItem(Null, Undefined, None))]
    ensures InfoDereferenceable(dataViewCat, seriesIndex)
    ensures TooltipInfo(host, dataViewCat, seriesIndex) == []
  {
    SeriesEntriesSingleton(host, Some(SeriesItem(Null, Undefined, None)));
  }

  /**
    A chosen column that is not flagged auto-generated is kept: it becomes the one
    series item, and its "values" entry follows the group entry exactly when it
    carries `values`.
   */
  lemma InfoKeepsUnflaggedColumn(host: Host, dataViewCat: Option<Categorical>, seriesIndex: Option<int>)
    requires dataViewCat.Some? && dataViewCat.value.values.Some?
    requires 0 <= SeriesIndexOf(seriesIndex) < |dataViewCat.value.values.value.columns|
    requires InfoDereferenceable(dataViewCat, seriesIndex)
    requires !IsAutoGenerated(ChosenColumn(dataViewCat, seriesIndex))
    ensures var column := dataViewCat.value.values.value.columns[SeriesIndexOf(seriesIndex)];
      var r := TooltipInfo(host, dataViewCat, seriesIndex);
      var g := if ValuesSourceOf(dataViewCat).Some? then 1 else 0;
      && SeriesSourceOf(dataViewCat, seriesIndex) == [Some(SeriesItem(Null, Undefined, Some(column)))]
      && |r| == g + (if column.values.Some? then 1 else 0)
      && (column.values.Some? ==> r[g] == TooltipItem(ValuesDisplayName, Some(ValuesList(host, column))))
  {
    var column := dataViewCat.value.values.value.columns[SeriesIndexOf(seriesIndex)];
    var s := Some(SeriesItem(Null, Undefined, Some(column)));
    SeriesEntriesSingleton(host, s);
    assert !Present(Null) && !Present(Undefined);
    assert SeriesItemEntries(host, s) == ValuesEntry(host, s.value);
  }

  /** The host's format string wins when it is truthy; otherwise the column's raw `format` is used. */
  lemma FormattedValueUsesColumnFormat(host: Host, column: Option<Column>, value: JsValue)
    ensures column.None? ==> GetFormattedValue(host, column, value) == host.format(value, Null)
    ensures column.Some? && Truthy(host.formatStringByColumn(column.value)) ==>
              GetFormattedValue(host, column, value) == host.format(value, host.formatStringByColumn(column.value))
    ensures column.Some? && !Truthy(host.formatStringByColumn(column.value)) ==>
              GetFormattedValue(host, column, value) == host.format(value, column.value.format)
  {
  }

  /**
    A grouping column "Region" and one series item of column "Sales" with group
    name "East", value 1500 and no highlight give exactly two entries: the
    formatted group name under "Region", then the formatted value under "Sales".
   */
  lemma RegionSalesScenario(host: Host)
    ensures var region := Column("Region", Undefined, Undefined, Undefined);
      var sales := Column("Sales", Str("#,0"), Str("East"), Undefined);
      var item := SeriesItem(Num(1500), Undefined, Some(ValueColumn(Some(sales), None, None)));
      && Dereferenceable(Some(region), [Some(item)])
      && TooltipData(host, Some(region), [Some(item)]) ==
           [ TooltipItem("Region", Some(host.format(Str("East"), GetFormatStringFromColumn(host, Some(region))))),
             TooltipItem("Sales", Some(host.format(Num(1500), GetFormatStringFromColumn(host, Some(sales))))) ]
  {
  }
}
