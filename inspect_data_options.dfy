/**
 * The data options of the panel inspector (InspectDataOptions.tsx): which
 * frames can be selected, whether the panel-transformations switch is
 * offered, and the one-line summary of the active options.
 */
module InspectDataOptions {
  import opened Js
  import opened Select

  /** `selectedDataFrame`: a frame index or a transformer id. */
  datatype Selection = FrameIndex(index: int) | Transformer(id: string)

  /** `DataTransformerID.seriesToColumns` */
  const SeriesToColumns: Selection := Transformer("seriesToColumns")

  /** `GetDataOptions`: the two switches the summary reports. */
  datatype DataOptions = DataOptions(withTransforms: bool, withFieldConfig: bool)

  /**
   * `Boolean(panelTransformations?.length) && transformId !== 'join by time'`;
   * the panel's transformation count is missing when there is no panel.
   */
  function ShowPanelTransformationsOption(panelTransformations: Option<nat>, transformId: string): (show: bool)
    ensures show <==> panelTransformations.Some? && panelTransformations.value > 0 && transformId != "join by time"
  {
    IntTruthy(panelTransformations) && transformId != "join by time"
  }

  /**
   * The frames offered for selection: the joined `data` when the series
   * are joined by time, else the panel's `dataFrames`. The component
   * asserts that `data` is there in the first case.
   */
  method DataSelect<F>(dataFrames: seq<F>, data: Option<seq<F>>, selected: Selection) returns (frames: seq<F>)
    requires selected == SeriesToColumns ==> data.Some?
    ensures selected == SeriesToColumns ==> frames == data.value
    ensures selected != SeriesToColumns ==> frames == dataFrames
  {
    frames := dataFrames;
    if selected == SeriesToColumns {
      frames := data.value;
    }
  }

  /** One choice per frame: value i, labelled with the frame's display name and `(i)`. */
  function Choices<F>(frames: seq<F>, displayName: F -> string): (choices: seq<SelectOption<int>>)
    ensures |choices| == |frames|
    ensures forall i :: 0 <= i < |frames| ==>
              choices[i] == SelectOption(displayName(frames[i]) + " (" + NatString(i) + ")", i)
  {
    seq(|frames|, i requires 0 <= i < |frames| => SelectOption(displayName(frames[i]) + " (" + NatString(i) + ")", i))
  }

  /** An option of the frame select: a transformation or a frame. */
  datatype FrameSelectOption = TransformationOption(transformation: SelectOption<string>) | FrameOption(frame: SelectOption<int>)

  /** `[...transformationOptions, ...choices]` */
  function SelectableOptions(transformationOptions: seq<SelectOption<string>>, choices: seq<SelectOption<int>>)
    : (options: seq<FrameSelectOption>)
    ensures |options| == |transformationOptions| + |choices|
    ensures forall i :: 0 <= i < |transformationOptions| ==> options[i] == TransformationOption(transformationOptions[i])
    ensures forall i :: 0 <= i < |choices| ==> options[|transformationOptions| + i] == FrameOption(choices[i])
  {
    seq(|transformationOptions|, i requires 0 <= i < |transformationOptions| => TransformationOption(transformationOptions[i]))
    + seq(|choices|, i requires 0 <= i < |choices| => FrameOption(choices[i]))
  }

  /** A part of the summary. */
  datatype ActivePart = JoinedByTime | FrameName(name: string) | PanelTransforms | FormattedData | ExcelHeader

  function PartText(part: ActivePart): string {
    match part
    case JoinedByTime => "按时间加入的系列"
    case FrameName(name) => name
    case PanelTransforms => "面板转换"
    case FormattedData => "格式化的数据"
    case ExcelHeader => "excel标题"
  }

  function Rank(part: ActivePart): nat {
    match part
    case JoinedByTime => 0
    case FrameName(_) => 0
    case PanelTransforms => 1
    case FormattedData => 2
    case ExcelHeader => 3
  }

  /** `xs` when the condition holds, nothing otherwise. */
  function When(c: bool, xs: seq<ActivePart>): seq<ActivePart> {
    if c then xs else []
  }

  /** What the summary says is shown: the joined series, or the selected frame's name when there are several frames. */
  function ShownPart<F>(data: seq<F>, selected: Selection, displayName: F -> string): seq<ActivePart>
    requires selected != SeriesToColumns && |data| > 1 ==> selected.FrameIndex? && 0 <= selected.index < |data|
  {
    if selected == SeriesToColumns then [JoinedByTime]
    else if |data| > 1 then [FrameName(displayName(data[selected.index]))]
    else []
  }

  /** The parts of the summary, in order. */
  function Parts<F>(options: DataOptions, data: seq<F>, selected: Selection, downloadForExcel: bool,
                    displayName: F -> string): seq<ActivePart>
    requires selected != SeriesToColumns && |data| > 1 ==> selected.FrameIndex? && 0 <= selected.index < |data|
  {
    ShownPart(data, selected, displayName)
    + When(options.withTransforms, [PanelTransforms])
    + When(options.withFieldConfig, [FormattedData])
    + When(downloadForExcel, [ExcelHeader])
  }

  /**
   * The parts of the summary for the given `data`, pushed one by one. A
   * frame index must select one of the frames.
   */
  method ActiveParts<F>(options: DataOptions, data: seq<F>, selected: Selection, downloadForExcel: bool,
                        displayName: F -> string) returns (parts: seq<ActivePart>)
    requires selected != SeriesToColumns && |data| > 1 ==> selected.FrameIndex? && 0 <= selected.index < |data|
    ensures parts == Parts(options, data, selected, downloadForExcel, displayName)
  {
    parts := [];
    if selected == SeriesToColumns {
      parts := parts + [JoinedByTime];
    } else if |data| > 1 {
      parts := parts + [FrameName(displayName(data[selected.index]))];
    }
    ghost var p0 := ShownPart(data, selected, displayName);
    assert parts == p0;
    if options.withTransforms || options.withFieldConfig {
      if options.withTransforms {
        parts := parts + [PanelTransforms];
      }
      if options.withFieldConfig {
        parts := parts + [FormattedData];
      }
    }
    assert parts == p0 + When(options.withTransforms, [PanelTransforms]) + When(options.withFieldConfig, [FormattedData]);
    if downloadForExcel {
      parts := parts + [ExcelHeader];
    }
  }

  /** The parts follow the fixed order: what is shown, transforms, formatting, Excel header. */
  lemma PartsInOrder<F>(options: DataOptions, data: seq<F>, selected: Selection, downloadForExcel: bool,
                        displayName: F -> string)
    requires selected != SeriesToColumns && |data| > 1 ==> selected.FrameIndex? && 0 <= selected.index < |data|
    ensures Ranked(Parts(options, data, selected, downloadForExcel, displayName))
  {
    var a := ShownPart(data, selected, displayName);
    var b := When(options.withTransforms, [PanelTransforms]);
    var c := When(options.withFieldConfig, [FormattedData]);
    var d := When(downloadForExcel, [ExcelHeader]);
    assert forall x :: x in a ==> Rank(x) == 0;
    RankedConcat(a, b);
    RankedConcat(a + b, c);
    RankedConcat(a + b + c, d);
  }

  /**
   * The summary first says what is shown: the joined series, or the
   * selected frame's name when there is more than one frame, and nothing
   * for a single frame.
   */
  lemma PartsStartWithShown<F>(options: DataOptions, data: seq<F>, selected: Selection, downloadForExcel: bool,
                               displayName: F -> string)
    requires selected != SeriesToColumns && |data| > 1 ==> selected.FrameIndex? && 0 <= selected.index < |data|
    ensures var parts := Parts(options, data, selected, downloadForExcel, displayName);
      && (selected == SeriesToColumns ==> |parts| > 0 && parts[0] == JoinedByTime)
      && (selected != SeriesToColumns && |data| > 1 ==> |parts| > 0 && parts[0] == FrameName(displayName(data[selected.index])))
      && (selected != SeriesToColumns && |data| <= 1 ==> forall i :: 0 <= i < |parts| ==> Rank(parts[i]) > 0)
  {
  }

  /** The transforms, formatting and Excel parts are there exactly when switched on, the Excel header last. */
  lemma PartsPresence<F>(options: DataOptions, data: seq<F>, selected: Selection, downloadForExcel: bool,
                         displayName: F -> string)
    requires selected != SeriesToColumns && |data| > 1 ==> selected.FrameIndex? && 0 <= selected.index < |data|
    ensures var parts := Parts(options, data, selected, downloadForExcel, displayName);
      && (PanelTransforms in parts <==> options.withTransforms)
      && (FormattedData in parts <==> options.withFieldConfig)
      && (ExcelHeader in parts <==> downloadForExcel)
      && (downloadForExcel ==> parts[|parts| - 1] == ExcelHeader)
  {
  }

  predicate Ranked(xs: seq<ActivePart>) {
    forall i, j :: 0 <= i < j < |xs| ==> Rank(xs[i]) < Rank(xs[j])
  }

  lemma RankedConcat(xs: seq<ActivePart>, ys: seq<ActivePart>)
    requires Ranked(xs) && Ranked(ys)
    requires forall x, y :: x in xs && y in ys ==> Rank(x) < Rank(y)
    ensures Ranked(xs + ys)
  {
    forall i, j | 0 <= i < j < |xs + ys|
      ensures Rank((xs + ys)[i]) < Rank((xs + ys)[j])
    {
      if j < |xs| {
      } else if i >= |xs| {
        assert (xs + ys)[i] == ys[i - |xs|];
      } else {
        assert (xs + ys)[i] in xs && (xs + ys)[j] in ys;
      }
    }
  }

  /** `parts.join(sep)` */
  function Join(parts: seq<string>, sep: string): (s: string)
    ensures |parts| == 0 ==> s == ""
    ensures |parts| == 1 ==> s == parts[0]
  {
    if |parts| == 0 then ""
    else if |parts| == 1 then parts[0]
    else Join(parts[..|parts| - 1], sep) + sep + parts[|parts| - 1]
  }

  /** Joining is associative with appending: a part pushed later comes after the separator. */
  lemma {:induction false} JoinPrepend(first: string, rest: seq<string>, sep: string)
    requires |rest| > 0
    ensures Join([first] + rest, sep) == first + sep + Join(rest, sep)
  {
    if |rest| == 1 {
      assert [first] + rest == [first, rest[0]];
    } else {
      var all := [first] + rest;
      assert all[..|all| - 1] == [first] + rest[..|rest| - 1];
      JoinPrepend(first, rest[..|rest| - 1], sep);
    }
  }

  /** The length of a join: the parts plus one separator between each two. */
  lemma {:induction false} JoinLength(parts: seq<string>, sep: string)
    requires |parts| > 0
    ensures |Join(parts, sep)| == SumLengths(parts) + (|parts| - 1) * |sep|
  {
    if |parts| > 1 {
      JoinLength(parts[..|parts| - 1], sep);
      SumLengthsSnoc(parts[..|parts| - 1], parts[|parts| - 1]);
      assert parts[..|parts| - 1] + [parts[|parts| - 1]] == parts;
    }
  }

  function SumLengths(parts: seq<string>): nat {
    if |parts| == 0 then 0 else |parts[0]| + SumLengths(parts[1..])
  }

  lemma {:induction false} SumLengthsSnoc(parts: seq<string>, last: string)
    ensures SumLengths(parts + [last]) == SumLengths(parts) + |last|
  {
    if |parts| > 0 {
      assert (parts + [last])[1..] == parts[1..] + [last];
      SumLengthsSnoc(parts[1..], last);
    }
  }

  /** The texts of the parts, in order. */
  function PartTexts(parts: seq<ActivePart>): (texts: seq<string>)
    ensures |texts| == |parts|
    ensures forall i :: 0 <= i < |parts| ==> texts[i] == PartText(parts[i])
  {
    seq(|parts|, i requires 0 <= i < |parts| => PartText(parts[i]))
  }

  /** `getActiveString`: empty without `data`, else the texts of the active parts joined by `, `. */
  method GetActiveString<F>(options: DataOptions, data: Option<seq<F>>, selected: Selection, downloadForExcel: bool,
                            displayName: F -> string) returns (s: string)
    requires data.Some? && selected != SeriesToColumns && |data.value| > 1 ==>
               selected.FrameIndex? && 0 <= selected.index < |data.value|
    ensures data.None? ==> s == ""
    ensures data.Some? ==> s == Join(PartTexts(Parts(options, data.value, selected, downloadForExcel, displayName)), ", ")
  {
    s := "";
    if data.None? {
      return;
    }
    var parts := ActiveParts(options, data.value, selected, downloadForExcel, displayName);
    s := Join(PartTexts(parts), ", ");
  }

  /** With only the Excel header switched on and one frame, the summary is just that header. */
  lemma ExcelOnlySummary<F>(frame: F, selected: Selection, displayName: F -> string)
    requires selected != SeriesToColumns
    ensures Join(PartTexts(Parts(DataOptions(false, false), [frame], selected, true, displayName)), ", ") == "excel标题"
  {
    assert Parts(DataOptions(false, false), [frame], selected, true, displayName) == [ExcelHeader];
  }

  /** Joined series with transforms on read `按时间加入的系列, 面板转换`. */
  lemma JoinedWithTransformsSummary<F>(data: seq<F>, displayName: F -> string)
    ensures Join(PartTexts(Parts(DataOptions(true, false), data, SeriesToColumns, false, displayName)), ", ")
            == "按时间加入的系列, 面板转换"
  {
    assert Parts(DataOptions(true, false), data, SeriesToColumns, false, displayName) == [JoinedByTime, PanelTransforms];
    assert PartTexts([JoinedByTime, PanelTransforms]) == ["按时间加入的系列", "面板转换"];
    JoinPrepend("按时间加入的系列", ["面板转换"], ", ");
  }
}
