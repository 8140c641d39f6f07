/**
 * The options group of the Loki query builder
 * (LokiQueryBuilderOptions.tsx): the handlers that update the query and run
 * it, and the summary shown while the group is collapsed.
 */
module LokiQueryBuilderOptions {
  import opened Js
  import opened Select
  import opened Callbacks
  import opened LokiOptionFields

  /** `onQueryTypeChange`: set `queryType` (the `instant` and `range` flags are kept here) and run. */
  function OnQueryTypeChange(q: LokiQuery, t: LokiQueryType): (effects: seq<Effect<LokiQuery>>)
    ensures effects == ChangeAndRun(q.(queryType := Some(t)))
    ensures EffectiveQueryType(effects[0].query) == t
  {
    ChangeAndRun(q.(queryType := Some(t)))
  }

  /** `onResolutionChange`: store the resolution and run. */
  function OnResolutionChange(q: LokiQuery, option: SelectOption<int>): (effects: seq<Effect<LokiQuery>>)
    ensures |effects| == 2 && effects[0].Change? && effects[1] == RunQuery
    ensures effects[0].query.resolution == Some(option.value)
    ensures effects[0].query.(resolution := q.resolution) == q
  {
    ChangeAndRun(q.(resolution := Some(option.value)))
  }

  /** `onLegendFormatChanged`: store the committed legend format and run. */
  function OnLegendFormatChanged(q: LokiQuery, legendFormat: string): (effects: seq<Effect<LokiQuery>>)
    ensures |effects| == 2 && effects[0].Change? && effects[1] == RunQuery
    ensures effects[0].query.legendFormat == Some(legendFormat)
    ensures effects[0].query.(legendFormat := q.legendFormat) == q
  {
    ChangeAndRun(q.(legendFormat := Some(legendFormat)))
  }

  /** `onMaxLinesChange`: store the preprocessed limit and run, only when it differs from the stored one. */
  function OnMaxLinesChange(q: LokiQuery, value: string): (effects: seq<Effect<LokiQuery>>)
    ensures effects == [] || effects == ChangeAndRun(q.(maxLines := Some(PreprocessMaxLines(value))))
    ensures effects != [] <==> StrictlyDiffers(q.maxLines, PreprocessMaxLines(value))
  {
    var newMaxLines := PreprocessMaxLines(value);
    if StrictlyDiffers(q.maxLines, newMaxLines) then ChangeAndRun(q.(maxLines := Some(newMaxLines))) else []
  }

  /** An entry of the collapsed summary; labels that the option lookup did not find are missing. */
  datatype InfoItem =
    | LegendInfo(format: string)
    | ResolutionInfo(resolutionLabel: Option<string>)
    | TypeInfo(typeLabel: Option<string>)
    | LineLimitInfo(limit: int)

  function Rank(item: InfoItem): nat {
    match item
    case LegendInfo(_) => 0
    case ResolutionInfo(_) => 1
    case TypeInfo(_) => 2
    case LineLimitInfo(_) => 3
  }

  /** A template literal's rendering of an optional label (`${x?.label}`). */
  function LabelText(text: Option<string>): string {
    match text
    case Some(s) => s
    case None => "undefined"
  }

  /** The text of a summary entry. */
  function InfoText(item: InfoItem): string {
    match item
    case LegendInfo(f) => "图例: " + f
    case ResolutionInfo(l) => "分辨率: " + LabelText(l)
    case TypeInfo(l) => "类型: " + LabelText(l)
    case LineLimitInfo(n) => "行限制: " + IntString(n)
  }

  /** The label of the option carrying value v, if there is one. */
  function LabelOf<T(==)>(options: seq<SelectOption<T>>, v: T): (text: Option<string>)
    ensures text.None? <==> forall i :: 0 <= i < |options| ==> options[i].value != v
    ensures text.Some? ==> exists i :: 0 <= i < |options| && options[i].value == v && options[i].text == text.value
                                      && forall j :: 0 <= j < i ==> options[j].value != v
  {
    match Find(options, v)
    case Some(o) => Some(o.text)
    case None => None
  }

  /**
   * The summary while the group is collapsed, given the labels found for the
   * resolution and the query type: the legend when one is set, the
   * resolution when one is set, always the query type, and the line limit
   * when it is shown and neither 0 nor NaN, in that order.
   */
  function Summary(q: LokiQuery, showMaxLines: bool, resolutionLabel: Option<string>, typeLabel: Option<string>)
    : (items: seq<InfoItem>)
    ensures |items| == 1 + (if StringTruthy(q.legendFormat) then 1 else 0) + (if IntTruthy(q.resolution) then 1 else 0)
                         + (if showMaxLines && NumberTruthy(q.maxLines) then 1 else 0)
    ensures 1 <= |items| <= 4
  {
    (if StringTruthy(q.legendFormat) then [LegendInfo(q.legendFormat.value)] else [])
    + (if IntTruthy(q.resolution) then [ResolutionInfo(resolutionLabel)] else [])
    + [TypeInfo(typeLabel)]
    + (if showMaxLines && NumberTruthy(q.maxLines) then [LineLimitInfo(q.maxLines.value.n)] else [])
  }

  /** `getCollapsedInfo`, which looks up both labels and pushes the entries one by one. */
  method GetCollapsedInfo(q: LokiQuery, queryType: LokiQueryType, showMaxLines: bool, lokiLive: bool)
    returns (items: seq<InfoItem>)
    ensures items == Summary(q, showMaxLines, LabelOf(RESOLUTION_OPTIONS, q.resolution.GetOr(1)),
                             LabelOf(QueryTypeOptions(lokiLive), queryType))
  {
    var queryTypeLabel := LabelOf(QueryTypeOptions(lokiLive), queryType);
    var resolutionLabel := LabelOf(RESOLUTION_OPTIONS, q.resolution.GetOr(1));
    items := [];
    if StringTruthy(q.legendFormat) {
      items := items + [LegendInfo(q.legendFormat.value)];
    }
    if IntTruthy(q.resolution) {
      items := items + [ResolutionInfo(resolutionLabel)];
    }
    items := items + [TypeInfo(queryTypeLabel)];
    ghost var prefix := items;
    if showMaxLines && NumberTruthy(q.maxLines) {
      items := items + [LineLimitInfo(q.maxLines.value.n)];
    }
    assert items == prefix + (if showMaxLines && NumberTruthy(q.maxLines) then [LineLimitInfo(q.maxLines.value.n)] else []);
  }

  /** The entries come in the fixed order legend, resolution, type, limit; the legend first and the limit last when present. */
  lemma SummaryOrder(q: LokiQuery, showMaxLines: bool, resolutionLabel: Option<string>, typeLabel: Option<string>)
    ensures var items := Summary(q, showMaxLines, resolutionLabel, typeLabel);
      && (forall i, j :: 0 <= i < j < |items| ==> Rank(items[i]) < Rank(items[j]))
      && (StringTruthy(q.legendFormat) ==> items[0] == LegendInfo(q.legendFormat.value))
      && (showMaxLines && NumberTruthy(q.maxLines) ==> items[|items| - 1] == LineLimitInfo(q.maxLines.value.n))
  {
  }

  /** Each entry is there exactly when its condition holds; the type always is. */
  lemma SummaryPresence(q: LokiQuery, showMaxLines: bool, resolutionLabel: Option<string>, typeLabel: Option<string>)
    ensures var items := Summary(q, showMaxLines, resolutionLabel, typeLabel);
      && ((exists i :: 0 <= i < |items| && items[i].LegendInfo?) <==> StringTruthy(q.legendFormat))
      && ((exists i :: 0 <= i < |items| && items[i].ResolutionInfo?) <==> IntTruthy(q.resolution))
      && (IntTruthy(q.resolution) ==> ResolutionInfo(resolutionLabel) in items)
      && TypeInfo(typeLabel) in items
      && ((exists i :: 0 <= i < |items| && items[i].LineLimitInfo?) <==> showMaxLines && NumberTruthy(q.maxLines))
  {
    var legend := if StringTruthy(q.legendFormat) then 1 else 0;
    var resolution := if IntTruthy(q.resolution) then 1 else 0;
    var items := Summary(q, showMaxLines, resolutionLabel, typeLabel);
    if StringTruthy(q.legendFormat) {
      assert items[0].LegendInfo?;
    }
    if IntTruthy(q.resolution) {
      assert items[legend].ResolutionInfo?;
    }
    assert items[legend + resolution] == TypeInfo(typeLabel);
    if showMaxLines && NumberTruthy(q.maxLines) {
      assert items[|items| - 1].LineLimitInfo?;
    }
  }

  /** The summary's strings, in order. */
  function CollapsedText(items: seq<InfoItem>): (texts: seq<string>)
    ensures |texts| == |items|
    ensures forall i :: 0 <= i < |items| ==> texts[i] == InfoText(items[i])
  {
    seq(|items|, i requires 0 <= i < |items| => InfoText(items[i]))
  }

  /** Every resolution that is offered is found with its label; the default resolution reads `1/1`. */
  lemma OfferedResolutionsLabelled(i: nat)
    requires i < |RESOLUTION_OPTIONS|
    ensures LabelOf(RESOLUTION_OPTIONS, RESOLUTION_OPTIONS[i].value) == Some(RESOLUTION_OPTIONS[i].text)
  {
    ResolutionOptionsTable();
    assert forall j :: 0 <= j < i ==> RESOLUTION_OPTIONS[j].value != RESOLUTION_OPTIONS[i].value;
  }

  /** The type label is missing only for the stream type with the live toggle off. */
  lemma TypeLabelFound(t: LokiQueryType, lokiLive: bool)
    ensures LabelOf(QueryTypeOptions(lokiLive), t).None? <==> t == Stream && !lokiLive
  {
  }
}
