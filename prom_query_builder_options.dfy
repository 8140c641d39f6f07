/**
 * The options group of the Prometheus query builder
 * (PromQueryBuilderOptions.tsx): the single-member handlers, which controls
 * are shown, and the summary shown while the group is collapsed.
 */
module PromQueryBuilderOptions {
  import opened Js
  import opened Select
  import opened Callbacks
  import opened PromTypes
  import opened PromExploreExtraField
  import opened PromQueryLegendEditor
  import opened PromQueryEditor

  /** `onChangeFormat`: store the chosen format (`value.value`, which may be missing) and run. */
  function OnChangeFormat(q: PromQuery, format: Option<string>): (effects: seq<Effect<PromQuery>>)
    ensures |effects| == 2 && effects[0].Change? && effects[1] == RunQuery
    ensures effects[0].query.format == format && effects[0].query.(format := q.format) == q
  {
    ChangeAndRun(q.(format := format))
  }

  /** `onChangeStep`: store the committed step and run. */
  function OnChangeStep(q: PromQuery, value: string): (effects: seq<Effect<PromQuery>>)
    ensures |effects| == 2 && effects[0].Change? && effects[1] == RunQuery
    ensures effects[0].query.interval == Some(value) && effects[0].query.(interval := q.interval) == q
  {
    ChangeAndRun(q.(interval := Some(value)))
  }

  /** `onExemplarChange`: store whether the switch is checked and run. */
  function OnExemplarChange(q: PromQuery, checked: bool): (effects: seq<Effect<PromQuery>>)
    ensures |effects| == 2 && effects[0].Change? && effects[1] == RunQuery
    ensures effects[0].query.exemplar == Some(checked) && effects[0].query.(exemplar := q.exemplar) == q
  {
    ChangeAndRun(q.(exemplar := Some(checked)))
  }

  /** `onIntervalFactorChange`: store the chosen factor (which may be missing) and run. */
  function OnIntervalFactorChange(q: PromQuery, factor: Option<int>): (effects: seq<Effect<PromQuery>>)
    ensures |effects| == 2 && effects[0].Change? && effects[1] == RunQuery
    ensures effects[0].query.intervalFactor == factor && effects[0].query.(intervalFactor := q.intervalFactor) == q
  {
    ChangeAndRun(q.(intervalFactor := factor))
  }

  /** The exemplar switch is hidden in alerting and for queries that do not run over a range. */
  function ShouldShowExemplarSwitch(q: PromQuery, app: Option<CoreApp>): (show: bool)
    ensures show <==> app != Some(UnifiedAlerting) && BoolTruthy(q.range)
  {
    if app == Some(UnifiedAlerting) || !BoolTruthy(q.range) then false else true
  }

  /** The resolution select is shown only for an interval factor above 1. */
  function ShowsResolutionSelect(q: PromQuery): (show: bool)
    ensures show <==> q.intervalFactor.Some? && q.intervalFactor.value > 1
    ensures show ==> IntTruthy(q.intervalFactor)
  {
    IntTruthy(q.intervalFactor) && q.intervalFactor.value > 1
  }

  /** The format option shown: the one for the query's format, else the first (time series). */
  function FormatOption(q: PromQuery): (option: SelectOption<string>)
    ensures option in FORMAT_OPTIONS
    ensures (q.format.None? || forall i :: 0 <= i < |FORMAT_OPTIONS| ==> FORMAT_OPTIONS[i].value != q.format.value)
            ==> option == SelectOption("时间序列", "time_series")
    ensures q.format.Some? && q.format.value in ["time_series", "table", "heatmap"] ==> option.value == q.format.value
  {
    FindOrFirst(FORMAT_OPTIONS, q.format)
  }

  /**
   * The label of the query type the radio group shows
   * (`queryTypeOptions.find(...)!.label`). The `both` option is only
   * offered in Explore, so for a query that is both range and instant
   * elsewhere there is no label: the non-null assertion does not hold and
   * the component fails to render.
   */
  method QueryTypeLabel(q: PromQuery, app: Option<CoreApp>) returns (typeLabel: Option<string>)
    ensures typeLabel.None? <==> app != Some(Explore) && BoolTruthy(q.range) && BoolTruthy(q.instant)
    ensures QueryTypeValue(q) == "range" ==> typeLabel == Some("范围")
    ensures QueryTypeValue(q) == "instant" ==> typeLabel == Some("即时")
    ensures app == Some(Explore) && QueryTypeValue(q) == "both" ==> typeLabel == Some("全部")
  {
    var options := GetQueryTypeOptions(app == Some(Explore));
    var value := QueryTypeValue(q);
    match Find(options, value)
    case Some(o) => typeLabel := Some(o.text);
    case None => typeLabel := None;
  }

  /** An entry of the collapsed summary. */
  datatype InfoItem =
    | LegendInfo(legendLabel: Option<string>)
    | FormatInfo(formatLabel: string)
    | StepInfo(step: string)
    | TypeInfo(typeLabel: string)
    | ExemplarInfo

  function Rank(item: InfoItem): nat {
    match item
    case LegendInfo(_) => 0
    case FormatInfo(_) => 1
    case StepInfo(_) => 2
    case TypeInfo(_) => 3
    case ExemplarInfo => 4
  }

  /** The text of a summary entry. */
  function InfoText(item: InfoItem): string {
    match item
    case LegendInfo(l) => "图例: " + (match l case Some(s) => s case None => "undefined")
    case FormatInfo(f) => "格式: " + f
    case StepInfo(s) => "步长: " + s
    case TypeInfo(t) => "类型: " + t
    case ExemplarInfo => "范例: 是"
  }

  /**
   * The summary while the group is collapsed, given the legend label: the
   * legend and the format first, the step when one is set, always the query
   * type, and the exemplar entry last when exemplars are on.
   */
  function Summary(q: PromQuery, legendLabel: Option<string>, formatLabel: string, queryTypeLabel: string)
    : (items: seq<InfoItem>)
    ensures |items| == 3 + (if StringTruthy(q.interval) then 1 else 0) + (if BoolTruthy(q.exemplar) then 1 else 0)
    ensures items[0] == LegendInfo(legendLabel) && items[1] == FormatInfo(formatLabel)
  {
    [LegendInfo(legendLabel), FormatInfo(formatLabel)]
    + (if StringTruthy(q.interval) then [StepInfo(q.interval.value)] else [])
    + [TypeInfo(queryTypeLabel)]
    + (if BoolTruthy(q.exemplar) then [ExemplarInfo] else [])
  }

  /** `getCollapsedInfo`, which pushes the entries one by one behind the legend mode's label. */
  method GetCollapsedInfo(q: PromQuery, formatLabel: string, queryTypeLabel: string) returns (items: seq<InfoItem>)
    ensures items == Summary(q, GetLegendModeLabel(q.legendFormat), formatLabel, queryTypeLabel)
  {
    items := [LegendInfo(GetLegendModeLabel(q.legendFormat))];
    items := items + [FormatInfo(formatLabel)];
    if StringTruthy(q.interval) {
      items := items + [StepInfo(q.interval.value)];
    }
    items := items + [TypeInfo(queryTypeLabel)];
    ghost var prefix := items;
    if BoolTruthy(q.exemplar) {
      items := items + [ExemplarInfo];
    }
    assert items == prefix + (if BoolTruthy(q.exemplar) then [ExemplarInfo] else []);
  }

  /**
   * Legend and format come first, the step third when set, the exemplar
   * entry last when on, in the fixed order, one entry per condition met.
   */
  lemma SummaryShape(q: PromQuery, legendLabel: Option<string>, formatLabel: string, queryTypeLabel: string)
    ensures var items := Summary(q, legendLabel, formatLabel, queryTypeLabel);
      && |items| == 3 + (if StringTruthy(q.interval) then 1 else 0) + (if BoolTruthy(q.exemplar) then 1 else 0)
      && items[0] == LegendInfo(legendLabel) && items[1] == FormatInfo(formatLabel)
      && (forall i, j :: 0 <= i < j < |items| ==> Rank(items[i]) < Rank(items[j]))
      && (StringTruthy(q.interval) ==> items[2] == StepInfo(q.interval.value))
      && (BoolTruthy(q.exemplar) ==> items[|items| - 1] == ExemplarInfo)
  {
  }

  /** The step and exemplar entries are there exactly when set; the type always is. */
  lemma SummaryPresence(q: PromQuery, legendLabel: Option<string>, formatLabel: string, queryTypeLabel: string)
    ensures var items := Summary(q, legendLabel, formatLabel, queryTypeLabel);
      && (StepInfo(q.interval.GetOr("")) in items <==> StringTruthy(q.interval))
      && TypeInfo(queryTypeLabel) in items
      && (ExemplarInfo in items <==> BoolTruthy(q.exemplar))
  {
    var items := Summary(q, legendLabel, formatLabel, queryTypeLabel);
    var step := if StringTruthy(q.interval) then 1 else 0;
    assert items[2 + step] == TypeInfo(queryTypeLabel);
  }
}
