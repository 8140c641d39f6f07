/**
 * The legend editor of the Prometheus query builder
 * (PromQueryLegendEditor.tsx): which legend mode a legend format stands
 * for, the label shown for it, and what choosing a mode or committing a
 * custom format writes back.
 */
module PromQueryLegendEditor {
  import opened Js
  import opened Select
  import opened Callbacks

  datatype LegendFormatMode = Auto | Verbose | Custom

  /**
   * The legend format that asks for automatic, minimal series names
   * (`LegendFormatMode.Auto`). The enum is declared in the datasource's
   * types.ts, which is not part of this model.
   */
  const AutoToken: string := "__auto"

  /** The format a newly chosen custom legend starts with. */
  const CustomTemplate: string := "{{label_name}}"

  const LegendModeOptions: seq<SelectOption<LegendFormatMode>> := [
    SelectOption("自动", Auto),
    SelectOption("详细", Verbose),
    SelectOption("自定义", Custom)
  ]

  /** `getLegendMode`: the token is Auto, a missing or empty format is Verbose, anything else is Custom. */
  function GetLegendMode(legendFormat: Option<string>): (mode: LegendFormatMode)
    ensures mode == Auto <==> legendFormat == Some(AutoToken)
    ensures mode == Verbose <==> legendFormat.None? || legendFormat == Some("")
    ensures mode == Custom <==> legendFormat.Some? && legendFormat.value != AutoToken && legendFormat.value != ""
  {
    if legendFormat == Some(AutoToken) then Auto
    else if legendFormat.None? || legendFormat.value == "" then Verbose
    else Custom
  }

  /** `getLegendModeLabel`: the option label for Auto and Verbose, the format itself for a custom one. */
  function GetLegendModeLabel(legendFormat: Option<string>): (shown: Option<string>)
    ensures GetLegendMode(legendFormat) == Auto ==> shown == Some("自动")
    ensures GetLegendMode(legendFormat) == Verbose ==> shown == Some("详细")
    ensures GetLegendMode(legendFormat) == Custom ==> shown == legendFormat
    ensures shown.Some?
  {
    var mode := GetLegendMode(legendFormat);
    if mode != Custom then
      match Find(LegendModeOptions, mode)
      case Some(o) => Some(o.text)
      case None => None
    else legendFormat
  }

  /** The legend format written when a mode is chosen in the select. */
  function ModeFormat(mode: LegendFormatMode): string {
    match mode
    case Auto => AutoToken
    case Custom => CustomTemplate
    case Verbose => ""
  }

  /** `onLegendModeChanged`: write the mode's format and run the query. */
  function OnLegendModeChanged(mode: LegendFormatMode): (effects: seq<Effect<string>>)
    ensures effects == ChangeAndRun(ModeFormat(mode))
    ensures GetLegendMode(Some(effects[0].query)) == mode
  {
    ChangeAndRun(ModeFormat(mode))
  }

  /** The format a mode writes is read back as that mode. */
  lemma LegendModeRoundTrip(mode: LegendFormatMode)
    ensures GetLegendMode(Some(ModeFormat(mode))) == mode
  {
    assert AutoToken != CustomTemplate;
  }

  /**
   * `onLegendFormatChanged`: an empty custom format becomes the Auto token;
   * the format is written and the query run only when it differs from the
   * current one.
   */
  function OnLegendFormatChanged(legendFormat: Option<string>, input: string): (effects: seq<Effect<string>>)
    ensures effects == [] || effects == ChangeAndRun(if input == "" then AutoToken else input)
    ensures effects == [] <==> legendFormat == Some(if input == "" then AutoToken else input)
    ensures effects != [] ==> GetLegendMode(Some(effects[0].query)) != Verbose
  {
    var newFormat := if |input| == 0 then AutoToken else input;
    if Some(newFormat) != legendFormat then ChangeAndRun(newFormat) else []
  }
}
