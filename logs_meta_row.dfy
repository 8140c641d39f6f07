/**
 * The row of meta information above the logs in Explore (LogsMetaRow.tsx):
 * the items given by the logs model, followed by the items the row adds
 * itself for deduplication, over-long lines, detected fields and
 * unescaped content, and how each item's value is rendered.
 */
module LogsMetaRow {
  import opened Js
  import opened Logs

  /**
   * Lines longer than this are not parsed or highlighted. The constant comes
   * from LogRowMessage.tsx, which is not part of this model; its value is the
   * one the info item's text states.
   */
  const MAX_CHARACTERS: nat := 100000

  /**
   * Some row's log line is too long to highlight (`logRows.some(...)`), its
   * length counted in UTF-16 code units: certainly so when a line has more
   * characters than the limit, and never when every line has at most half as many.
   */
  predicate HasLongLine(rows: seq<LogRowModel>): (some: bool)
    ensures (exists i :: 0 <= i < |rows| && |rows[i].entry| > MAX_CHARACTERS) ==> some
    ensures (forall i :: 0 <= i < |rows| ==> 2 * |rows[i].entry| <= MAX_CHARACTERS) ==> !some
  {
    exists i :: 0 <= i < |rows| && Utf16Length(rows[i].entry) > MAX_CHARACTERS
  }

  /** An item the row adds to the given meta items, in the order it adds them. */
  datatype AddedItem =
    | DedupCount(count: int)
    | LongLineInfo
    | DetectedFields(fields: seq<string>)
    | ClearDetectedFields
    | UnescapedContent(forceEscape: bool)

  datatype MetaEntry = Given(item: LogsMetaItem) | Added(added: AddedItem)

  /** The position of an entry in the fixed order: given items first, then the added ones. */
  function Rank(e: MetaEntry): nat {
    match e
    case Given(_) => 0
    case Added(DedupCount(_)) => 1
    case Added(LongLineInfo) => 2
    case Added(DetectedFields(_)) => 3
    case Added(ClearDetectedFields) => 4
    case Added(UnescapedContent(_)) => 5
  }

  function Count(b: bool): nat {
    if b then 1 else 0
  }

  /**
   * The list the row shows: a copy of `meta`, then a dedup-count item unless
   * dedup is off, a long-line item when some line is too long, the detected
   * fields and a button that clears them when there are any, and an
   * unescaped-content item when the logs have such content.
   */
  method BuildMetaItems(meta: seq<LogsMetaItem>, dedupStrategy: LogsDedupStrategy, dedupCount: int,
                        showDetectedFields: seq<string>, hasUnescapedContent: bool, forceEscape: bool,
                        logRows: seq<LogRowModel>) returns (items: seq<MetaEntry>)
    ensures items == GivenEntries(meta) + AddedEntries(dedupStrategy, dedupCount, showDetectedFields,
                                                       hasUnescapedContent, forceEscape, logRows)
  {
    var given := GivenEntries(meta);
    items := given;
    if dedupStrategy != NoDedup {
      items := items + [Added(DedupCount(dedupCount))];
    }
    ghost var p1 := When(dedupStrategy != NoDedup, [Added(DedupCount(dedupCount))]);
    assert items == given + p1;
    if HasLongLine(logRows) {
      items := items + [Added(LongLineInfo)];
    }
    ghost var p2 := p1 + When(HasLongLine(logRows), [Added(LongLineInfo)]);
    assert items == given + p2;
    if |showDetectedFields| > 0 {
      items := items + [Added(DetectedFields(showDetectedFields)), Added(ClearDetectedFields)];
    }
    ghost var p3 := p2 + When(|showDetectedFields| > 0, [Added(DetectedFields(showDetectedFields)), Added(ClearDetectedFields)]);
    assert items == given + p3;
    if hasUnescapedContent {
      items := items + [Added(UnescapedContent(forceEscape))];
    }
    assert items == given + (p3 + When(hasUnescapedContent, [Added(UnescapedContent(forceEscape))]));
  }

  /**
   * The list the row shows starts with the given items unchanged and in
   * order; behind them come only added entries, in the fixed order, one per
   * condition met and two for the detected fields.
   */
  lemma MetaItemsOrder(meta: seq<LogsMetaItem>, dedupStrategy: LogsDedupStrategy, dedupCount: int,
                       showDetectedFields: seq<string>, hasUnescapedContent: bool, forceEscape: bool,
                       logRows: seq<LogRowModel>)
    ensures var items := GivenEntries(meta) + AddedEntries(dedupStrategy, dedupCount, showDetectedFields,
                                                           hasUnescapedContent, forceEscape, logRows);
      && |items| == |meta| + Count(dedupStrategy != NoDedup) + Count(HasLongLine(logRows))
                    + 2 * Count(|showDetectedFields| > 0) + Count(hasUnescapedContent)
      && (forall i :: 0 <= i < |meta| ==> items[i] == Given(meta[i]))
      && (forall i :: |meta| <= i < |items| ==> items[i].Added?)
      && (forall i, j :: |meta| <= i < j < |items| ==> Rank(items[i]) < Rank(items[j]))
  {
    var added := AddedEntries(dedupStrategy, dedupCount, showDetectedFields, hasUnescapedContent, forceEscape, logRows);
    AddedEntriesCount(dedupStrategy, dedupCount, showDetectedFields, hasUnescapedContent, forceEscape, logRows);
    AddedEntriesRanked(dedupStrategy, dedupCount, showDetectedFields, hasUnescapedContent, forceEscape, logRows);
    GivenThenAdded(meta, added);
  }

  /** Each item the row adds is in the list it shows exactly when that item's condition holds. */
  lemma MetaItemsPresence(meta: seq<LogsMetaItem>, dedupStrategy: LogsDedupStrategy, dedupCount: int,
                          showDetectedFields: seq<string>, hasUnescapedContent: bool, forceEscape: bool,
                          logRows: seq<LogRowModel>)
    ensures var items := GivenEntries(meta) + AddedEntries(dedupStrategy, dedupCount, showDetectedFields,
                                                           hasUnescapedContent, forceEscape, logRows);
      && (Added(DedupCount(dedupCount)) in items <==> dedupStrategy != NoDedup)
      && (Added(LongLineInfo) in items <==> HasLongLine(logRows))
      && (Added(DetectedFields(showDetectedFields)) in items <==> |showDetectedFields| > 0)
      && (Added(ClearDetectedFields) in items <==> |showDetectedFields| > 0)
      && (Added(UnescapedContent(forceEscape)) in items <==> hasUnescapedContent)
  {
    var added := AddedEntries(dedupStrategy, dedupCount, showDetectedFields, hasUnescapedContent, forceEscape, logRows);
    AddedEntriesPresence(dedupStrategy, dedupCount, showDetectedFields, hasUnescapedContent, forceEscape, logRows);
    AddedMembership(meta, added);
  }

  /** Given items followed by ranked added entries: the given ones form the prefix, the ranked added ones the rest. */
  lemma GivenThenAdded(meta: seq<LogsMetaItem>, added: seq<MetaEntry>)
    requires forall i :: 0 <= i < |added| ==> added[i].Added?
    requires Ranked(added)
    ensures var items := GivenEntries(meta) + added;
      && |items| == |meta| + |added|
      && (forall i :: 0 <= i < |meta| ==> items[i] == Given(meta[i]))
      && (forall i :: |meta| <= i < |items| ==> items[i].Added?)
      && (forall i, j :: |meta| <= i < j < |items| ==> Rank(items[i]) < Rank(items[j]))
  {
    var items := GivenEntries(meta) + added;
    assert forall i :: |meta| <= i < |items| ==> items[i] == added[i - |meta|];
  }

  /** `xs` when the condition holds, nothing otherwise. */
  function When(c: bool, xs: seq<MetaEntry>): seq<MetaEntry> {
    if c then xs else []
  }

  /** The entries the row appends after the given ones. */
  function AddedEntries(dedupStrategy: LogsDedupStrategy, dedupCount: int, showDetectedFields: seq<string>,
                        hasUnescapedContent: bool, forceEscape: bool, logRows: seq<LogRowModel>): seq<MetaEntry>
  {
    When(dedupStrategy != NoDedup, [Added(DedupCount(dedupCount))])
    + When(HasLongLine(logRows), [Added(LongLineInfo)])
    + When(|showDetectedFields| > 0, [Added(DetectedFields(showDetectedFields)), Added(ClearDetectedFields)])
    + When(hasUnescapedContent, [Added(UnescapedContent(forceEscape))])
  }

  /** One entry per condition met, two for the detected fields, and only added entries. */
  lemma AddedEntriesCount(dedupStrategy: LogsDedupStrategy, dedupCount: int, showDetectedFields: seq<string>,
                          hasUnescapedContent: bool, forceEscape: bool, logRows: seq<LogRowModel>)
    ensures var added := AddedEntries(dedupStrategy, dedupCount, showDetectedFields, hasUnescapedContent, forceEscape, logRows);
      |added| == Count(dedupStrategy != NoDedup) + Count(HasLongLine(logRows))
                 + 2 * Count(|showDetectedFields| > 0) + Count(hasUnescapedContent)
      && forall i :: 0 <= i < |added| ==> added[i].Added?
  {
  }

  /** The appended entries follow the fixed order dedup, long line, detected fields, clear button, unescaped. */
  lemma AddedEntriesRanked(dedupStrategy: LogsDedupStrategy, dedupCount: int, showDetectedFields: seq<string>,
                           hasUnescapedContent: bool, forceEscape: bool, logRows: seq<LogRowModel>)
    ensures Ranked(AddedEntries(dedupStrategy, dedupCount, showDetectedFields, hasUnescapedContent, forceEscape, logRows))
  {
    var a := When(dedupStrategy != NoDedup, [Added(DedupCount(dedupCount))]);
    var b := When(HasLongLine(logRows), [Added(LongLineInfo)]);
    var c := When(|showDetectedFields| > 0, [Added(DetectedFields(showDetectedFields)), Added(ClearDetectedFields)]);
    var d := When(hasUnescapedContent, [Added(UnescapedContent(forceEscape))]);
    WhenPart(dedupStrategy != NoDedup, [Added(DedupCount(dedupCount))], 1, 2);
    WhenPart(HasLongLine(logRows), [Added(LongLineInfo)], 2, 3);
    WhenPart(|showDetectedFields| > 0, [Added(DetectedFields(showDetectedFields)), Added(ClearDetectedFields)], 3, 5);
    WhenPart(hasUnescapedContent, [Added(UnescapedContent(forceEscape))], 5, 6);
    FourPartsRanked(a, b, c, d);
  }

  /** Four ranked parts whose ranks lie in [1, 2), [2, 3), [3, 5) and [5, 6) concatenate to a ranked list. */
  lemma FourPartsRanked(a: seq<MetaEntry>, b: seq<MetaEntry>, c: seq<MetaEntry>, d: seq<MetaEntry>)
    requires Ranked(a) && RanksBelow(a, 2)
    requires Ranked(b) && RanksFrom(b, 2) && RanksBelow(b, 3)
    requires Ranked(c) && RanksFrom(c, 3) && RanksBelow(c, 5)
    requires Ranked(d) && RanksFrom(d, 5)
    ensures Ranked(a + b + c + d)
  {
    RankedConcat(a, b, 2);
    RanksBelowConcat(a, b, 2, 3);
    RankedConcat(a + b, c, 3);
    RanksBelowConcat(a + b, c, 3, 5);
    RankedConcat(a + b + c, d, 5);
  }

  /** A part that is there or not keeps the ranks of its entries. */
  lemma WhenPart(c: bool, xs: seq<MetaEntry>, lo: nat, hi: nat)
    requires Ranked(xs) && RanksFrom(xs, lo) && RanksBelow(xs, hi)
    ensures Ranked(When(c, xs)) && RanksFrom(When(c, xs), lo) && RanksBelow(When(c, xs), hi)
  {
  }

  /** Each added entry is present exactly when its condition holds. */
  lemma AddedEntriesPresence(dedupStrategy: LogsDedupStrategy, dedupCount: int, showDetectedFields: seq<string>,
                             hasUnescapedContent: bool, forceEscape: bool, logRows: seq<LogRowModel>)
    ensures var added := AddedEntries(dedupStrategy, dedupCount, showDetectedFields, hasUnescapedContent, forceEscape, logRows);
      && (Added(DedupCount(dedupCount)) in added <==> dedupStrategy != NoDedup)
      && (Added(LongLineInfo) in added <==> HasLongLine(logRows))
      && (Added(DetectedFields(showDetectedFields)) in added <==> |showDetectedFields| > 0)
      && (Added(ClearDetectedFields) in added <==> |showDetectedFields| > 0)
      && (Added(UnescapedContent(forceEscape)) in added <==> hasUnescapedContent)
  {
  }

  predicate Ranked(xs: seq<MetaEntry>) {
    forall i, j :: 0 <= i < j < |xs| ==> Rank(xs[i]) < Rank(xs[j])
  }

  /** Every entry of xs ranks below k. */
  predicate RanksBelow(xs: seq<MetaEntry>, k: nat) {
    forall i :: 0 <= i < |xs| ==> Rank(xs[i]) < k
  }

  /** Every entry of xs ranks at least k. */
  predicate RanksFrom(xs: seq<MetaEntry>, k: nat) {
    forall i :: 0 <= i < |xs| ==> k <= Rank(xs[i])
  }

  /** Two ranked lists, the first ranking below k and the second at least k, concatenate to a ranked list. */
  lemma RankedConcat(xs: seq<MetaEntry>, ys: seq<MetaEntry>, k: nat)
    requires Ranked(xs) && Ranked(ys)
    requires RanksBelow(xs, k) && RanksFrom(ys, k)
    ensures Ranked(xs + ys)
  {
    forall i, j | 0 <= i < j < |xs + ys|
      ensures Rank((xs + ys)[i]) < Rank((xs + ys)[j])
    {
      if j < |xs| {
      } else if i >= |xs| {
        assert (xs + ys)[i] == ys[i - |xs|];
      } else {
        assert Rank(xs[i]) < k <= Rank(ys[j - |xs|]);
      }
    }
  }

  /** Entries below k followed by entries below m, with k <= m, are all below m. */
  lemma RanksBelowConcat(xs: seq<MetaEntry>, ys: seq<MetaEntry>, k: nat, m: nat)
    requires k <= m && RanksBelow(xs, k) && RanksBelow(ys, m)
    ensures RanksBelow(xs + ys, m)
  {
    forall i | 0 <= i < |xs + ys|
      ensures Rank((xs + ys)[i]) < m
    {
      if i >= |xs| {
        assert (xs + ys)[i] == ys[i - |xs|];
      }
    }
  }

  /** Behind the given items, an added entry is in the whole list exactly when it is in the appended part. */
  lemma AddedMembership(meta: seq<LogsMetaItem>, added: seq<MetaEntry>)
    ensures forall a: AddedItem :: Added(a) in GivenEntries(meta) + added <==> Added(a) in added
  {
    var given := GivenEntries(meta);
    forall a: AddedItem
      ensures Added(a) in given + added <==> Added(a) in added
    {
      if Added(a) in given + added {
        var k :| 0 <= k < |given + added| && (given + added)[k] == Added(a);
        assert k >= |given|;
        assert added[k - |given|] == Added(a);
      }
    }
  }

  /** `[...meta]`: the given items, copied in order. */
  function GivenEntries(meta: seq<LogsMetaItem>): (entries: seq<MetaEntry>)
    ensures |entries| == |meta|
    ensures forall i :: 0 <= i < |meta| ==> entries[i] == Given(meta[i])
  {
    seq(|meta|, i requires 0 <= i < |meta| => Given(meta[i]))
  }

  /** A value handed to `renderMetaItem`: a meta item's value, or the detected field names. */
  datatype ShownValue = Value(v: MetaValue) | FieldNames(names: seq<string>)

  /** What the row displays for an item. */
  datatype Rendered =
    | Plain(value: ShownValue)        // the value itself
    | LabelsSpan(value: ShownValue)   // the value laid out as labels
    | ErrorSpan(value: ShownValue)    // the value styled as an error
    | ClearFieldsButton               // the button that shows all detected fields again
    | EscapeButton(removeEscaping: bool)  // the button that toggles escaping of newlines

  /** `renderMetaItem`: labels and errors are wrapped, any other kind is shown as it is. */
  function RenderMetaItem(value: ShownValue, kind: LogsMetaKind): (r: Rendered)
    ensures r.Plain? || r.LabelsSpan? || r.ErrorSpan?
    ensures r.value == value
    ensures r.LabelsSpan? <==> kind == LabelsMapKind
    ensures r.ErrorSpan? <==> kind == ErrorKind
  {
    if kind == LabelsMapKind then LabelsSpan(value)
    else if kind == ErrorKind then ErrorSpan(value)
    else Plain(value)
  }

  /** An item as the row pushes it: a `LogsMetaItem` with a kind, or a bare label and rendered value. */
  datatype MetaObject = WithKind(item: LogsMetaItem) | Props(title: string, shown: Rendered)

  /** The object each entry stands for, with the row's own labels and texts. */
  function ObjectOf(e: MetaEntry): MetaObject {
    match e
    case Given(item) => WithKind(item)
    case Added(DedupCount(n)) => WithKind(LogsMetaItem("重复数据消除计数", NumberValue(n), NumberKind))
    case Added(LongLineInfo) =>
      WithKind(LogsMetaItem("信息", TextValue("Logs with more than 100,000 characters could not be parsed and highlighted"), StringKind))
    case Added(DetectedFields(fields)) => Props("仅显示检测到的字段", RenderMetaItem(FieldNames(fields), LabelsMapKind))
    case Added(ClearDetectedFields) => Props("", ClearFieldsButton)
    case Added(UnescapedContent(forceEscape)) => Props("您的日志可能转义的内容不正确", EscapeButton(forceEscape))
  }

  /** The label and rendered value shown for an entry: items with a kind go through `renderMetaItem`. */
  function Display(e: MetaEntry): (shown: (string, Rendered))
    ensures e.Given? ==> shown.0 == e.item.title && !shown.1.ClearFieldsButton? && !shown.1.EscapeButton?
                         && shown.1.value == Value(e.item.value)
    ensures e.Given? ==> (shown.1.Plain? <==> e.item.kind == NumberKind || e.item.kind == StringKind)
  {
    match ObjectOf(e)
    case WithKind(item) => (item.title, RenderMetaItem(Value(item.value), item.kind))
    case Props(title, shown) => (title, shown)
  }

  /** The added items are shown in full: the count as a plain number, the detected fields as labels. */
  lemma AddedItemsDisplay(n: int, fields: seq<string>, forceEscape: bool)
    ensures Display(Added(DedupCount(n))).1 == Plain(Value(NumberValue(n)))
    ensures Display(Added(LongLineInfo)).1.Plain?
    ensures Display(Added(DetectedFields(fields))).1 == LabelsSpan(FieldNames(fields))
    ensures Display(Added(UnescapedContent(forceEscape))).1 == EscapeButton(forceEscape)
  {
  }

  /** The items displayed by the row, in list order. */
  function DisplayItems(items: seq<MetaEntry>): (shown: seq<(string, Rendered)>)
    ensures |shown| == |items|
    ensures forall i :: 0 <= i < |items| ==> shown[i] == Display(items[i])
  {
    seq(|items|, i requires 0 <= i < |items| => Display(items[i]))
  }
}
