/**
 * The Loki query options in Explore (LokiOptionFields.tsx): the query type
 * radio group, the line limit input and the resolution select, with the
 * normalisation of the typed line limit and the query records the handlers
 * hand to `onChange`.
 */
module LokiOptionFields {
  import opened Js
  import opened Select
  import opened Callbacks

  datatype LokiQueryType = Range | Instant | Stream

  /**
   * A Loki query; the members the editors read or write. `maxLines` is a
   * number that may be NaN, `resolution` comes from the resolution options.
   */
  datatype LokiQuery = LokiQuery(
    refId: string,
    expr: string,
    queryType: Option<LokiQueryType>,
    instant: Option<bool>,
    range: Option<bool>,
    maxLines: Option<JsNumber>,
    resolution: Option<int>,
    legendFormat: Option<string>
  )

  /** The radio options; the stream option is offered only when the `lokiLive` feature toggle is on. */
  function QueryTypeOptions(lokiLive: bool): (options: seq<SelectOption<LokiQueryType>>)
    ensures |options| == if lokiLive then 3 else 2
    ensures options[0] == SelectOption("范围", Range) && options[1] == SelectOption("即时", Instant)
    ensures lokiLive ==> options[2] == SelectOption("流", Stream)
  {
    var base := [SelectOption("范围", Range), SelectOption("即时", Instant)];
    if lokiLive then base + [SelectOption("流", Stream)] else base
  }

  /** A resolution option: one data point for every `value` pixels. */
  function ResolutionOption(value: nat): SelectOption<int> {
    SelectOption("1/" + NatString(value), value)
  }

  const DEFAULT_RESOLUTION: SelectOption<int> := SelectOption("1/1", 1)

  const RESOLUTION_OPTIONS: seq<SelectOption<int>> :=
    [DEFAULT_RESOLUTION] + [ResolutionOption(2), ResolutionOption(3), ResolutionOption(4),
                            ResolutionOption(5), ResolutionOption(10)]

  /** The resolutions 1, 2, 3, 4, 5 and 10, the default first, each labelled `1/<value>`. */
  lemma ResolutionOptionsTable()
    ensures |RESOLUTION_OPTIONS| == 6 && RESOLUTION_OPTIONS[0] == DEFAULT_RESOLUTION
    ensures forall i :: 0 <= i < 6 ==> RESOLUTION_OPTIONS[i].value == [1, 2, 3, 4, 5, 10][i]
    ensures forall i :: 0 <= i < 6 ==> RESOLUTION_OPTIONS[i] == ResolutionOption(RESOLUTION_OPTIONS[i].value)
  {
    assert DEFAULT_RESOLUTION == ResolutionOption(1);
  }

  /**
   * `preprocessMaxLines`: empty input falls back to the datasource's limit
   * (NaN), input that is not a number or is negative becomes 0, anything
   * else is its numeric value.
   */
  function PreprocessMaxLines(value: string): (r: JsNumber)
    ensures r.NaN? <==> |value| == 0
    ensures r.Num? ==> r.n >= 0
    ensures |value| > 0 && (UnaryPlus(value).NaN? || UnaryPlus(value).n < 0) ==> r == Num(0)
    ensures |value| > 0 && UnaryPlus(value).Num? && UnaryPlus(value).n >= 0 ==> r == UnaryPlus(value)
  {
    if |value| == 0 then NaN
    else if UnaryPlus(value).NaN? || UnaryPlus(value).n < 0 then Num(0)
    else UnaryPlus(value)
  }

  /** The decimal text of a line count reads back as that count. */
  lemma PreprocessRoundTrip(n: nat)
    ensures PreprocessMaxLines(NatString(n)) == Num(n)
  {
    NatStringRoundTrip(n);
  }

  /** A negative count is clamped to 0, not passed on. */
  lemma NegativeLimitClamped(n: nat)
    requires n > 0
    ensures PreprocessMaxLines("-" + NatString(n)) == Num(0)
  {
    var s := "-" + NatString(n);
    assert s[1..] == NatString(n);
    assert !AllDigits(s) by { assert !IsDigit(s[0]); }
    NatStringRoundTrip(n);
  }

  /** The query type shown: the explicit one, else instant when `instant` is set, else range. */
  function EffectiveQueryType(q: LokiQuery): (t: LokiQueryType)
    ensures q.queryType.Some? ==> t == q.queryType.value
    ensures q.queryType.None? ==> (t == Instant <==> BoolTruthy(q.instant))
    ensures q.queryType.None? ==> t != Stream
  {
    q.queryType.GetOr(if BoolTruthy(q.instant) then Instant else Range)
  }

  /** `onQueryTypeChange`: drop the legacy `instant` and `range` flags and set `queryType`. */
  function WithQueryType(q: LokiQuery, t: LokiQueryType): (r: LokiQuery)
    ensures r.queryType == Some(t) && r.instant.None? && r.range.None?
    ensures r.refId == q.refId && r.expr == q.expr && r.maxLines == q.maxLines
    ensures r.resolution == q.resolution && r.legendFormat == q.legendFormat
  {
    q.(instant := None, range := None, queryType := Some(t))
  }

  /** The query type set by the radio group is the one the radio group then shows. */
  lemma QueryTypeRoundTrip(q: LokiQuery, t: LokiQueryType)
    ensures EffectiveQueryType(WithQueryType(q, t)) == t
  {
  }

  /** The radio group's handler: change the query type, then run the query when `runOnBlur` is set. */
  function OnQueryTypeSelected(q: LokiQuery, t: LokiQueryType, runOnBlur: bool): (effects: seq<Effect<LokiQuery>>)
    ensures |effects| >= 1 && effects[0] == Change(WithQueryType(q, t))
    ensures |effects| == 2 <==> runOnBlur
    ensures runOnBlur ==> effects[1] == RunQuery
  {
    [Change(WithQueryType(q, t))] + (if runOnBlur then [RunQuery] else [])
  }

  /** `onMaxLinesChange`: store the preprocessed limit, only when it differs from the stored one. */
  function OnMaxLinesChange(q: LokiQuery, value: string): (effects: seq<Effect<LokiQuery>>)
    ensures |effects| <= 1
    ensures |effects| == 1 <==> StrictlyDiffers(q.maxLines, PreprocessMaxLines(value))
    ensures |effects| == 1 ==> effects[0] == Change(q.(maxLines := Some(PreprocessMaxLines(value))))
  {
    var limit := PreprocessMaxLines(value);
    if StrictlyDiffers(q.maxLines, limit) then [Change(q.(maxLines := Some(limit)))] else []
  }

  /** Clearing the limit input always emits a change, because NaN differs from itself. */
  lemma EmptyLimitAlwaysEmits(q: LokiQuery)
    ensures OnMaxLinesChange(q, "") == [Change(q.(maxLines := Some(NaN)))]
  {
  }

  /** Retyping the stored limit emits nothing. */
  lemma SameLimitEmitsNothing(q: LokiQuery, n: nat)
    requires q.maxLines == Some(Num(n))
    ensures OnMaxLinesChange(q, NatString(n)) == []
  {
    PreprocessRoundTrip(n);
  }

  /** `onResolutionChange`: store the chosen resolution, nothing else. */
  function OnResolutionChange(q: LokiQuery, option: SelectOption<int>): (effects: seq<Effect<LokiQuery>>)
    ensures |effects| == 1 && effects[0].Change?
    ensures effects[0].query.resolution == Some(option.value)
    ensures effects[0].query.(resolution := q.resolution) == q
  {
    [Change(q.(resolution := Some(option.value)))]
  }
}
