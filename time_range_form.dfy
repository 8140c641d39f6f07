/**
 * Input validation of the time picker's range form (TimeRangeForm.tsx).
 *
 * Each of the two fields ("From", "To") holds a text and a validity flag
 * with an error message. A value is valid when the date library accepts it
 * and, for a date-math string, when it has the shape `now-<n><unit>`;
 * "From" is also invalid when it resolves after "To". When the user edits a
 * field, the value is further checked against the window from 1 January 1970
 * to the current instant.
 *
 * The date library (`dateMath`, `dateTimeParse`, `dateTimeFormat`,
 * `new Date(text)`) is given as a `DateLib` of functions over instants in
 * milliseconds since the epoch, and the current instant is a parameter.
 */
module TimeRangeForm {
  import opened Js

  /** The parts of the date library the form calls, for the form's time zone. */
  datatype DateLib = DateLib(
    isMathString: string -> bool,         // dateMath.isMathString
    isValidMath: string -> bool,          // dateMath.isValid
    parse: (string, bool) -> Option<int>, // dateTimeParse(text, { roundUp, timeZone }); None for an invalid DateTime
    format: int -> string,                // dateTimeFormat(instant, { timeZone })
    toDate: string -> Option<int>,        // new Date(text); None for an Invalid Date
    localEpoch: int                       // new Date(1970, 0, 1): local midnight of 1 January 1970
  )

  /** A side of a raw range: a DateTime or a string. */
  datatype RawValue = Text(text: string) | Moment(instant: int)

  /** The raw range the form hands to its `onApply` prop. */
  datatype RawRange = RawRange(from: string, to: string)

  /** Which of the form's error texts a field carries. */
  datatype ErrorMessage =
    | DefaultMessage  // unsupported time format
    | RangeMessage    // "From" may not be later than "To"
    | WindowMessage   // enter a time within 1970-01-01 00:00:00 and now

  datatype InputState = InputState(value: string, invalid: bool, errorMessage: ErrorMessage)

  // ---------------------------------------------------------------------
  // The recogniser /^now-?\d{0,}[YyMwdhms]?$/

  predicate IsUnitChar(c: char) {
    c in "YyMwdhms"
  }

  /** `\d{0,}[YyMwdhms]?` anchored at both ends. */
  predicate DigitsThenUnit(t: string) {
    if |t| == 0 then true
    else if IsDigit(t[0]) then DigitsThenUnit(t[1..])
    else |t| == 1 && IsUnitChar(t[0])
  }

  /** `/^now-?\d{0,}[YyMwdhms]?$/.test(s)` */
  predicate MatchesRelative(s: string) {
    && |s| >= 3
    && s[..3] == "now"
    && var t := s[3..];
       DigitsThenUnit(if |t| > 0 && t[0] == '-' then t[1..] else t)
  }

  /** The strings of the pattern, by their parts: an optional minus, a digit run, an optional unit. */
  datatype RelativeForm = RelativeForm(minus: bool, digits: string, unit: Option<char>)

  predicate WellFormed(f: RelativeForm) {
    AllDigits(f.digits) && (f.unit.Some? ==> IsUnitChar(f.unit.value))
  }

  function UnitText(unit: Option<char>): string {
    match unit
    case Some(u) => [u]
    case None => []
  }

  function Render(f: RelativeForm): string {
    "now" + (if f.minus then "-" else "") + f.digits + UnitText(f.unit)
  }

  lemma {:induction false} DigitsThenUnitOfParts(d: string, u: string)
    requires AllDigits(d)
    requires |u| == 0 || (|u| == 1 && IsUnitChar(u[0]))
    ensures DigitsThenUnit(d + u)
  {
    if |d| > 0 {
      assert (d + u)[0] == d[0];
      assert (d + u)[1..] == d[1..] + u;
      DigitsThenUnitOfParts(d[1..], u);
    } else {
      assert d + u == u;
    }
  }

  lemma {:induction false} DigitsThenUnitParts(t: string)
    requires DigitsThenUnit(t)
    ensures var d := LeadingDigits(t);
            t == d || (|t| == |d| + 1 && t == d + [t[|d|]] && IsUnitChar(t[|d|]))
  {
    if |t| > 0 && IsDigit(t[0]) {
      DigitsThenUnitParts(t[1..]);
      assert t == [t[0]] + t[1..];
    }
  }

  lemma RenderedMatches(f: RelativeForm)
    requires WellFormed(f)
    ensures MatchesRelative(Render(f))
  {
    var s := Render(f);
    var sign := if f.minus then "-" else "";
    var body := f.digits + UnitText(f.unit);
    RenderAssoc(sign, f.digits, UnitText(f.unit));
    assert s == "now" + (sign + body);
    assert s[..3] == "now" && s[3..] == sign + body;
    DigitsThenUnitOfParts(f.digits, UnitText(f.unit));
    if f.minus {
      assert (sign + body)[1..] == body;
    } else {
      assert sign + body == body;
      assert |body| > 0 ==> body[0] != '-' by {
        if |f.digits| > 0 { assert body[0] == f.digits[0]; }
      }
    }
  }

  lemma MatchedIsRendered(s: string)
    requires MatchesRelative(s)
    ensures exists f :: WellFormed(f) && Render(f) == s
  {
    var t := s[3..];
    var minus := |t| > 0 && t[0] == '-';
    var sign := if minus then "-" else "";
    var u := if minus then t[1..] else t;
    SignSplit(t);
    DigitsThenUnitParts(u);
    var d := LeadingDigits(u);
    var unit := if u == d then None else Some(u[|d|]);
    assert u == d + UnitText(unit);
    var f := RelativeForm(minus, d, unit);
    assert WellFormed(f);
    RenderAssoc(sign, d, UnitText(unit));
    assert Render(f) == "now" + (sign + u);
    assert s == s[..3] + t;
  }

  /** A text is its optional leading minus followed by the rest. */
  lemma SignSplit(t: string)
    ensures var minus := |t| > 0 && t[0] == '-';
            t == (if minus then "-" else "") + (if minus then t[1..] else t)
  {
    if |t| > 0 && t[0] == '-' {
      assert t == [t[0]] + t[1..];
    }
  }

  lemma RenderAssoc(sign: string, d: string, u: string)
    ensures "now" + sign + d + u == "now" + (sign + (d + u))
  {
  }

  /** The recogniser accepts exactly the strings `now`, optional `-`, digits, optional unit. */
  lemma MatchesRelativeIffRendered(s: string)
    ensures MatchesRelative(s) <==> exists f :: WellFormed(f) && Render(f) == s
  {
    if MatchesRelative(s) {
      MatchedIsRendered(s);
    }
    if exists f :: WellFormed(f) && Render(f) == s {
      var f :| WellFormed(f) && Render(f) == s;
      RenderedMatches(f);
    }
  }

  /** Rounding forms such as `now/d` or `now-1d/d` never match. */
  lemma RoundingFormsRejected(s: string)
    ensures '/' in s ==> !MatchesRelative(s)
  {
    if MatchesRelative(s) {
      var t := s[3..];
      var minus := |t| > 0 && t[0] == '-';
      var u := if minus then t[1..] else t;
      DigitsThenUnitNoSlash(u);
      forall i | 0 <= i < |s|
        ensures s[i] != '/'
      {
        if i < 3 {
          assert s[i] == s[..3][i];
        } else if !(minus && i == 3) {
          assert s[i] == u[i - 3 - (if minus then 1 else 0)];
        }
      }
    }
  }

  lemma {:induction false} DigitsThenUnitNoSlash(t: string)
    requires DigitsThenUnit(t)
    ensures forall i :: 0 <= i < |t| ==> t[i] != '/'
  {
    if |t| > 0 && IsDigit(t[0]) {
      DigitsThenUnitNoSlash(t[1..]);
      assert forall i :: 1 <= i < |t| ==> t[i] == t[1..][i - 1];
    }
  }

  // ---------------------------------------------------------------------
  // Field validity and range order

  /** `isValid(value, roundUp, timeZone)`; value is always a string here, so its DateTime branch never runs. */
  function IsValid(value: string, roundUp: bool, lib: DateLib): (ok: bool)
    ensures lib.isMathString(value) ==> (ok <==> lib.isValidMath(value) && MatchesRelative(value))
    ensures !lib.isMathString(value) ==> (ok <==> lib.parse(value, roundUp).Some?)
  {
    if lib.isMathString(value) then
      if lib.isValidMath(value) then
        MatchesRelative(value) || value == "now"
      else
        lib.isValidMath(value)
    else
      lib.parse(value, roundUp).Some?
  }

  /** `DateTime.isSame`: false when either side is invalid. */
  predicate IsSame(a: Option<int>, b: Option<int>) {
    a.Some? && b.Some? && a.value == b.value
  }

  /** `DateTime.isBefore`: false when either side is invalid. */
  predicate IsBefore(a: Option<int>, b: Option<int>) {
    a.Some? && b.Some? && a.value < b.value
  }

  /** `isRangeInvalid`: "from" is resolved rounding down and "to" rounding up. */
  function IsRangeInvalid(from: string, to: string, lib: DateLib): (inverted: bool)
    ensures !inverted <==> && lib.parse(from, false).Some?
                           && lib.parse(to, true).Some?
                           && lib.parse(from, false).value <= lib.parse(to, true).value
  {
    var start := lib.parse(from, false);
    var end := lib.parse(to, true);
    var valid := IsSame(start, end) || IsBefore(start, end);
    !valid
  }

  /** `valueAsString`: a text is kept as it is, a moment is formatted by the date library. */
  function ValueAsString(value: RawValue, lib: DateLib): (text: string)
    ensures value.Text? ==> text == value.text
    ensures value.Moment? ==> text == lib.format(value.instant)
  {
    match value
    case Text(s) => s
    case Moment(instant) => lib.format(instant)
  }

  /**
   * `valueToState`: "To" is invalid only for its own value; "From" is
   * invalid for its own value or, when "To" is valid, for coming after "To",
   * and only the latter with "From" itself valid gives the range message.
   */
  function ValueToState(rawFrom: RawValue, rawTo: RawValue, lib: DateLib): (r: (InputState, InputState))
    ensures r.0.value == ValueAsString(rawFrom, lib) && r.1.value == ValueAsString(rawTo, lib)
    ensures r.1.invalid <==> !IsValid(r.1.value, true, lib)
    ensures r.1.errorMessage == DefaultMessage
    ensures r.0.invalid <==> || !IsValid(r.0.value, false, lib)
                             || (IsValid(r.1.value, true, lib) && IsRangeInvalid(r.0.value, r.1.value, lib))
    ensures r.0.errorMessage == RangeMessage <==>
              && IsValid(r.0.value, false, lib)
              && IsValid(r.1.value, true, lib)
              && IsRangeInvalid(r.0.value, r.1.value, lib)
    ensures r.0.errorMessage != WindowMessage
  {
    var fromValue := ValueAsString(rawFrom, lib);
    var toValue := ValueAsString(rawTo, lib);
    var fromInvalid := !IsValid(fromValue, false, lib);
    var toInvalid := !IsValid(toValue, true, lib);
    var rangeInvalid := IsRangeInvalid(fromValue, toValue, lib) && !toInvalid;
    (InputState(fromValue, fromInvalid || rangeInvalid,
                if rangeInvalid && !fromInvalid then RangeMessage else DefaultMessage),
     InputState(toValue, toInvalid, DefaultMessage))
  }

  /**
   * An inverted range of two well-formed values is reported on "From" with
   * the range message; "To" stays valid.
   */
  lemma InvertedRangeFlagsFrom(from: string, to: string, lib: DateLib, start: int, end: int)
    requires IsValid(from, false, lib) && IsValid(to, true, lib)
    requires lib.parse(from, false) == Some(start) && lib.parse(to, true) == Some(end)
    requires start > end
    ensures var r := ValueToState(Text(from), Text(to), lib);
            r.0.invalid && r.0.errorMessage == RangeMessage && !r.1.invalid
  {
  }

  /** Equal endpoints form a valid range. */
  lemma EqualEndpointsAreOrdered(from: string, to: string, lib: DateLib)
    requires lib.parse(from, false).Some? && lib.parse(from, false) == lib.parse(to, true)
    ensures !IsRangeInvalid(from, to, lib)
  {
  }

  // ---------------------------------------------------------------------
  // The plausibility window [1970-01-01, now]

  const MsPerSecond: nat := 1000
  const MsPerMinute: nat := 60 * MsPerSecond
  const MsPerHour: nat := 60 * MsPerMinute
  const MsPerDay: nat := 24 * MsPerHour
  const MsPerWeek: nat := 7 * MsPerDay
  /** 365.25 days, a whole number of milliseconds. */
  const MsPerYear: nat := MsPerDay * 1461 / 4
  /** 365.25 / 12 days, a whole number of milliseconds. */
  const MsPerMonth: nat := MsPerDay * 1461 / 48

  /** The length of a unit of `judegTime`, by its letter; `m` is the minute and `M` the month. */
  function UnitMillis(unit: char): (ms: Option<nat>)
    ensures ms.Some? <==> unit in "YyMwdhms"
    ensures ms.Some? ==> ms.value > 0
  {
    if unit == 'Y' || unit == 'y' then Some(MsPerYear)
    else if unit == 'M' then Some(MsPerMonth)
    else if unit == 'w' then Some(MsPerWeek)
    else if unit == 'd' then Some(MsPerDay)
    else if unit == 'h' then Some(MsPerHour)
    else if unit == 'm' then Some(MsPerMinute)
    else if unit == 's' then Some(MsPerSecond)
    else None
  }

  /**
   * What `judegTime` decides: the last character names the unit, the text
   * before it is the count, and the result is whether the count exceeds the
   * whole units elapsed from the epoch to `now`.
   */
  function JudgeTimeSpec(arg: string, now: int): bool {
    && |arg| > 0
    && UnitMillis(arg[|arg| - 1]).Some?
    && var count := ParseLeadingNumber(arg[..|arg| - 1]);
       count.Num? && count.n > now / UnitMillis(arg[|arg| - 1]).value
  }

  /** `compareDate > elapsed`; a NaN count compares false. */
  predicate Exceeds(compareDate: JsNumber, elapsed: int) {
    compareDate.Num? && compareDate.n > elapsed
  }

  /**
   * `judegTime`: a chain of tests on the unit letter, each overwriting the
   * result, so that for `m` the minute test runs after the month test and wins.
   */
  method JudgeTime(arg: string, now: int) returns (result: bool)
    ensures result == JudgeTimeSpec(arg, now)
  {
    var unit := if |arg| > 0 then arg[|arg| - 1..] else "";
    var compareDate := ParseLeadingNumber(if |arg| > 0 then arg[..|arg| - 1] else "");
    result := false;
    var timeDifference := now - 0;
    if unit == "Y" || unit == "y" {
      var years := timeDifference / (MsPerDay * 1461 / 4);
      result := Exceeds(compareDate, years);
    }
    if unit == "M" || unit == "m" {
      var months := timeDifference / (MsPerDay * 1461 / 48);
      result := Exceeds(compareDate, months);
    }
    if unit == "d" {
      var days := timeDifference / MsPerDay;
      result := Exceeds(compareDate, days);
    }
    if unit == "w" {
      var weeks := timeDifference / MsPerWeek;
      result := Exceeds(compareDate, weeks);
    }
    if unit == "h" {
      var hours := timeDifference / MsPerHour;
      result := Exceeds(compareDate, hours);
    }
    if unit == "m" {
      var minutes := timeDifference / MsPerMinute;
      result := Exceeds(compareDate, minutes);
    }
    if unit == "s" {
      var seconds := timeDifference / MsPerSecond;
      result := Exceeds(compareDate, seconds);
    }
    assert |arg| > 0 ==> (unit == [arg[|arg| - 1]]);
  }

  /** For a count written in decimal and a known unit, the window test is `n > now / unit`. */
  lemma JudgeTimeOfCount(n: nat, unit: char, now: int)
    requires unit in "YyMwdhms"
    ensures JudgeTimeSpec(NatString(n) + [unit], now) <==> n > now / UnitMillis(unit).value
  {
    var arg := NatString(n) + [unit];
    assert arg[..|arg| - 1] == NatString(n) + [];
    ParseLeadingNumberOfNatString(n, []);
  }

  /** `timeJudeg`: a valid date before local 1970-01-01 or after now is outside the window. */
  function TimeJudge(dateArg: string, lib: DateLib, now: int): (outside: bool)
    ensures outside ==> lib.toDate(dateArg).Some?
    ensures lib.toDate(dateArg).Some? ==>
              (outside <==> !(lib.localEpoch <= lib.toDate(dateArg).value <= now))
  {
    var date := lib.toDate(dateArg);
    IsBefore(date, Some(lib.localEpoch)) || IsBefore(Some(now), date)
  }

  /** `s.indexOf('now') >= 0` */
  predicate ContainsNow(s: string) {
    |s| >= 3 && (s[..3] == "now" || ContainsNow(s[1..]))
  }

  /** `now` occurs in s at position i. */
  predicate NowAt(s: string, i: nat) {
    i + 3 <= |s| && s[i..i + 3] == "now"
  }

  /** The scan finds `now` exactly when it occurs somewhere in s. */
  lemma ContainsNowIffOccurs(s: string)
    ensures ContainsNow(s) <==> exists i: nat :: NowAt(s, i)
  {
    if ContainsNow(s) {
      ContainsNowOccurs(s);
    }
    if exists i: nat :: NowAt(s, i) {
      var i: nat :| NowAt(s, i);
      OccursContainsNow(s, i);
    }
  }

  lemma {:induction false} ContainsNowOccurs(s: string)
    requires ContainsNow(s)
    ensures exists i: nat :: NowAt(s, i)
  {
    if s[..3] == "now" {
      assert NowAt(s, 0);
    } else {
      ContainsNowOccurs(s[1..]);
      var j: nat :| NowAt(s[1..], j);
      assert s[j + 1..j + 4] == s[1..][j..j + 3];
      assert NowAt(s, j + 1);
    }
  }

  lemma {:induction false} OccursContainsNow(s: string, i: nat)
    requires NowAt(s, i)
    ensures ContainsNow(s)
    decreases i
  {
    if i > 0 {
      assert s[1..][i - 1..i + 2] == s[i..i + 3];
      OccursContainsNow(s[1..], i - 1);
    } else {
      assert s[..3] == s[i..i + 3];
    }
  }

  /** `s.indexOf(c)` for a character that occurs in s. */
  function IndexOf(s: string, c: char): (i: nat)
    requires c in s
    ensures i < |s| && s[i] == c && c !in s[..i]
  {
    if s[0] == c then 0
    else
      assert c in s[1..] by { var k :| 0 <= k < |s| && s[k] == c; assert s[1..][k - 1] == c; }
      var i := 1 + IndexOf(s[1..], c);
      assert s[..i] == [s[0]] + s[1..][..i - 1];
      i
  }

  /** `s.split('-')[1]`: the text between the first `-` and the next `-`, or the end. */
  function SecondDashField(s: string): (field: string)
    requires '-' in s
    ensures '-' !in field
  {
    var rest := s[IndexOf(s, '-') + 1..];
    if '-' in rest then rest[..IndexOf(rest, '-')] else rest
  }

  /**
   * The window test `onChange` applies to one field's text: a text without
   * `now` is judged as a date, a relative text with a dash by the count
   * after the dash, and a relative text without a dash is never outside.
   */
  function OutsideWindow(value: string, lib: DateLib, now: int): (outside: bool)
    ensures !ContainsNow(value) ==>
              (outside <==> lib.toDate(value).Some? && !(lib.localEpoch <= lib.toDate(value).value <= now))
    ensures ContainsNow(value) && '-' !in value ==> !outside
    ensures ContainsNow(value) && '-' in value ==>
              (outside <==> JudgeTimeSpec(SecondDashField(value), now))
  {
    if !ContainsNow(value) then TimeJudge(value, lib, now)
    else if '-' in value then JudgeTimeSpec(SecondDashField(value), now)
    else false
  }

  /** Marking a field out of the window. */
  function WindowChecked(state: InputState, outside: bool): (r: InputState)
    ensures r.value == state.value
    ensures r.invalid <==> state.invalid || outside
    ensures r.errorMessage == if outside then WindowMessage else state.errorMessage
  {
    if outside then state.(invalid := true, errorMessage := WindowMessage) else state
  }

  /** A plain `now` is never outside the window. */
  lemma PlainNowInWindow(lib: DateLib, now: int)
    ensures !OutsideWindow("now", lib, now)
  {
    assert ContainsNow("now");
    assert '-' !in "now";
  }

  /** `now-<n><unit>` is outside the window exactly when n exceeds the units elapsed since the epoch. */
  lemma RelativeWindow(n: nat, unit: char, lib: DateLib, now: int)
    requires unit in "YyMwdhms"
    ensures OutsideWindow("now-" + NatString(n) + [unit], lib, now) <==> n > now / UnitMillis(unit).value
  {
    var rest := NatString(n) + [unit];
    var value := "now-" + rest;
    assert "now-" + NatString(n) + [unit] == value;
    assert value[..3] == "now" && value[3] == '-' && value[4..] == rest;
    assert ContainsNow(value);
    IndexOfFirst(value, '-', 3);
    assert '-' !in rest by {
      forall i | 0 <= i < |rest| ensures rest[i] != '-' {
        if i < |NatString(n)| { assert rest[i] == NatString(n)[i]; }
      }
    }
    assert SecondDashField(value) == rest;
    JudgeTimeOfCount(n, unit, now);
  }

  /** `indexOf` finds the first occurrence: a position holding c with no c before it. */
  lemma IndexOfFirst(s: string, c: char, k: nat)
    requires k < |s| && s[k] == c && c !in s[..k]
    ensures IndexOf(s, c) == k
  {
    var i := IndexOf(s, c);
    forall j | 0 <= j < k ensures s[j] != c {
      assert s[..k][j] == s[j];
    }
    forall j | 0 <= j < i ensures s[j] != c {
      assert s[..i][j] == s[j];
    }
  }

  /** The form component: its two fields are the component's state. */
  class TimeRangeForm {
    const lib: DateLib
    var from: InputState
    var to: InputState

    /** The initial state derived from the `value` prop. */
    constructor (lib: DateLib, rawFrom: RawValue, rawTo: RawValue)
      ensures this.lib == lib
      ensures (from, to) == ValueToState(rawFrom, rawTo, lib)
    {
      this.lib := lib;
      var r := ValueToState(rawFrom, rawTo, lib);
      from, to := r.0, r.1;
    }

    /** The effect that re-derives both fields when the `value` prop changes. */
    method Synchronize(rawFrom: RawValue, rawTo: RawValue)
      modifies this
      ensures (from, to) == ValueToState(rawFrom, rawTo, lib)
    {
      var r := ValueToState(rawFrom, rawTo, lib);
      from, to := r.0, r.1;
    }

    /**
     * `onChange`: validate both texts, then flag each one that lies outside
     * the window; a flag is only ever added, never cleared.
     */
    method OnChange(rawFrom: RawValue, rawTo: RawValue, now: int)
      modifies this
      ensures var r := ValueToState(rawFrom, rawTo, lib);
              && from == WindowChecked(r.0, OutsideWindow(r.0.value, lib, now))
              && to == WindowChecked(r.1, OutsideWindow(r.1.value, lib, now))
    {
      var r := ValueToState(rawFrom, rawTo, lib);
      var fromValue, toValue := r.0, r.1;
      var fromInvalidRange := false;
      var toInvalidRange := false;
      if !ContainsNow(fromValue.value) {
        fromInvalidRange := TimeJudge(fromValue.value, lib, now);
      } else {
        if '-' in fromValue.value {
          fromInvalidRange := JudgeTime(SecondDashField(fromValue.value), now);
        }
      }
      if !ContainsNow(toValue.value) {
        toInvalidRange := TimeJudge(toValue.value, lib, now);
      } else {
        if '-' in toValue.value {
          toInvalidRange := JudgeTime(SecondDashField(toValue.value), now);
        }
      }
      if fromInvalidRange {
        fromValue := fromValue.(invalid := true, errorMessage := WindowMessage);
      }
      if toInvalidRange {
        toValue := toValue.(invalid := true, errorMessage := WindowMessage);
      }
      from, to := fromValue, toValue;
    }

    /** `onApply`: nothing is emitted while either field is invalid. */
    method OnApply() returns (emitted: Option<RawRange>)
      ensures emitted.None? <==> from.invalid || to.invalid
      ensures emitted.Some? ==> emitted.value == RawRange(from.value, to.value)
    {
      if to.invalid || from.invalid {
        return None;
      }
      emitted := Some(RawRange(from.value, to.value));
    }
  }
}
