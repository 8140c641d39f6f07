/**
 * The constant tables of the time picker (options.ts): the quick ranges
 * offered in the picker and the months a fiscal year may start in.
 */
module TimePickerOptions {
  import opened Js
  import opened Select
  import opened TimeRangeForm

  /** A quick range: raw `from` and `to` texts and the text shown for them. */
  datatype TimeOption = TimeOption(from: string, to: string, display: string)

  const QuickOptions: seq<TimeOption> := [
    TimeOption("now-5m", "now", "最后5分钟"),
    TimeOption("now-15m", "now", "最后15分钟"),
    TimeOption("now-30m", "now", "最后30分钟"),
    TimeOption("now-1h", "now", "最后1小时"),
    TimeOption("now-3h", "now", "最后3小时"),
    TimeOption("now-6h", "now", "最后6小时"),
    TimeOption("now-12h", "now", "最后12小时"),
    TimeOption("now-24h", "now", "最后24小时"),
    TimeOption("now-2d", "now", "最后2天"),
    TimeOption("now-7d", "now", "最后7天"),
    TimeOption("now-30d", "now", "最后30天"),
    TimeOption("now-90d", "now", "最后90天"),
    TimeOption("now-6M", "now", "最后6个月"),
    TimeOption("now-1y", "now", "最后1年"),
    TimeOption("now-2y", "now", "最后2年"),
    TimeOption("now-5y", "now", "最后5年"),
    TimeOption("now-1d/d", "now-1d/d", "昨天"),
    TimeOption("now-2d/d", "now-2d/d", "前天"),
    TimeOption("now-7d/d", "now-7d/d", "上一周的今日"),
    TimeOption("now-1w/w", "now-1w/w", "上周"),
    TimeOption("now-1M/M", "now-1M/M", "上月"),
    TimeOption("now-1Q/fQ", "now-1Q/fQ", "上一财政季度"),
    TimeOption("now-1y/y", "now-1y/y", "上一年"),
    TimeOption("now-1y/fy", "now-1y/fy", "上一财政年"),
    TimeOption("now/d", "now/d", "今天"),
    TimeOption("now/d", "now", "今天到目前为止"),
    TimeOption("now/w", "now/w", "本周"),
    TimeOption("now/w", "now", "本周到目前为止"),
    TimeOption("now/M", "now/M", "本月"),
    TimeOption("now/M", "now", "本月到目前为止"),
    TimeOption("now/y", "now/y", "今年"),
    TimeOption("now/y", "now", "今年到目前为止"),
    TimeOption("now/fQ", "now", "本财政季度到目前为止"),
    TimeOption("now/fQ", "now/fQ", "本财政季度"),
    TimeOption("now/fy", "now", "本财政年到目前为止"),
    TimeOption("now/fy", "now/fy", "本财政年")
  ]

  /** The month a fiscal year starts in: label and zero-based month number. */
  const MonthOptions: seq<SelectOption<int>> := [
    SelectOption("1月", 0),
    SelectOption("2月", 1),
    SelectOption("3月", 2),
    SelectOption("4月", 3),
    SelectOption("5月", 4),
    SelectOption("6月", 5),
    SelectOption("7月", 6),
    SelectOption("8月", 7),
    SelectOption("9月", 8),
    SelectOption("10月", 9),
    SelectOption("11月", 10),
    SelectOption("12月", 11)
  ]

  /** Twelve months, numbered 0 to 11 in calendar order, labelled with their one-based number. */
  lemma MonthOptionsInCalendarOrder()
    ensures |MonthOptions| == 12
    ensures forall i :: 0 <= i < |MonthOptions| ==>
              MonthOptions[i].value == i && MonthOptions[i].text == NatString(i + 1) + "月"
  {
  }

  /** Every quick range ends now or spans exactly one rounded unit (`to` equals `from`). */
  lemma QuickOptionsEndNowOrSame()
    ensures forall i :: 0 <= i < |QuickOptions| ==>
              QuickOptions[i].to == "now" || QuickOptions[i].to == QuickOptions[i].from
  {
  }

  /** The first sixteen options, the "last N" ranges, are accepted by the form's recogniser and end now. */
  lemma LastNOptionsMatchRecogniser()
    ensures forall i :: 0 <= i < 16 ==> MatchesRelative(QuickOptions[i].from) && QuickOptions[i].to == "now"
  {
    HourRangesMatch();
    DayToYearRangesMatch();
  }

  /** The "last N" ranges of minutes and hours are accepted by the recogniser. */
  lemma HourRangesMatch()
    ensures forall i :: 0 <= i < 8 ==> MatchesRelative(QuickOptions[i].from)
  {
    forall i | 0 <= i < 8
      ensures MatchesRelative(QuickOptions[i].from)
    {
      LastNOptionMatches(i);
    }
  }

  /** The "last N" ranges of days, months and years are accepted by the recogniser. */
  lemma DayToYearRangesMatch()
    ensures forall i :: 8 <= i < 16 ==> MatchesRelative(QuickOptions[i].from)
  {
    forall i | 8 <= i < 16
      ensures MatchesRelative(QuickOptions[i].from)
    {
      LastNOptionMatches(i);
    }
  }

  /** One "last N" range: its start is `now-` followed by a count and a unit letter. */
  lemma LastNOptionMatches(i: nat)
    requires i < 16
    requires var t := QuickOptions[i].from[4..];
      QuickOptions[i].from == "now-" + t && |t| >= 2 && AllDigits(t[..|t| - 1]) && IsUnitChar(t[|t| - 1])
    ensures MatchesRelative(QuickOptions[i].from)
  {
    LastNMatches(QuickOptions[i].from[4..]);
  }

  /** `now-` followed by a count and a unit letter is what the recogniser accepts. */
  lemma LastNMatches(t: string)
    requires |t| >= 2 && AllDigits(t[..|t| - 1]) && IsUnitChar(t[|t| - 1])
    ensures MatchesRelative("now-" + t)
  {
    var f := RelativeForm(true, t[..|t| - 1], Some(t[|t| - 1]));
    RenderedMatches(f);
    assert Render(f) == "now-" + t;
  }

  /** Every other option carries a `/unit` rounding suffix on both ends, unless it ends now, and is rejected by the recogniser. */
  lemma RoundedOptionsRejected()
    ensures forall i :: 16 <= i < |QuickOptions| ==> !MatchesRelative(QuickOptions[i].from)
    ensures forall i :: 16 <= i < |QuickOptions| ==> QuickOptions[i].to == "now" || !MatchesRelative(QuickOptions[i].to)
  {
    forall i | 16 <= i < |QuickOptions|
      ensures !MatchesRelative(QuickOptions[i].from)
      ensures QuickOptions[i].to == "now" || !MatchesRelative(QuickOptions[i].to)
    {
      var o := QuickOptions[i];
      assert '/' in o.from;
      assert o.to != "now" ==> '/' in o.to;
      RoundingFormsRejected(o.from);
      RoundingFormsRejected(o.to);
    }
  }

  /** Every quick range is relative to the current time: both ends start with `now`. */
  lemma QuickOptionsAreRelative()
    ensures forall i :: 0 <= i < |QuickOptions| ==> "now" <= QuickOptions[i].from && "now" <= QuickOptions[i].to
  {
    forall i | 0 <= i < |QuickOptions|
      ensures "now" <= QuickOptions[i].from && "now" <= QuickOptions[i].to
    {
      var o := QuickOptions[i];
      assert "now" <= o.from;
      assert "now" <= o.to;
    }
  }

  predicate EndsWith(s: string, suffix: string) {
    |s| >= |suffix| && s[|s| - |suffix|..] == suffix
  }

  /** The fiscal options round to the fiscal quarter (`/fQ`) or the fiscal year (`/fy`) and end now or at the same rounded time. */
  lemma FiscalOptionsRoundToFiscalUnits()
    ensures forall i :: i in {21, 23, 32, 33, 34, 35} ==>
              (EndsWith(QuickOptions[i].from, "/fQ") || EndsWith(QuickOptions[i].from, "/fy"))
              && (QuickOptions[i].to == "now" || QuickOptions[i].to == QuickOptions[i].from)
  {
  }
}
