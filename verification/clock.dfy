/**
 * Times of day as the widget and the reminder planner handle them: `H:mm` /
 * `HH:mm` strings, the parse both of them do, the single-borrow subtraction of
 * the reminder offset, and the zero-padded `HH:mm` the widget compares as a
 * string.
 */
module Clock {
  import opened Text

  /** Minutes past midnight of an hour and minute. */
  function MinuteOfDay(hour: int, minute: int): int {
    hour * 60 + minute
  }

  predicate ValidTime(hour: int, minute: int) {
    0 <= hour < 24 && 0 <= minute < 60
  }

  /**
   * The reminder offset as both call sites compute it: subtract the minutes,
   * and if that goes below zero add one hour of minutes back and step the hour
   * back once, wrapping hour -1 to 23. Only one hour is ever borrowed.
   */
  function OffsetTime(hour: int, minute: int, minutesBefore: int): (int, int) {
    var m := minute - minutesBefore;
    if m < 0 then (if hour - 1 < 0 then 23 else hour - 1, m + 60) else (hour, m)
  }

  /** For a valid time and an offset of at most an hour, the result is that time minus the offset, modulo one day. */
  lemma OffsetTimeIsModular(hour: int, minute: int, minutesBefore: int)
    requires ValidTime(hour, minute) && 0 <= minutesBefore <= 60
    ensures ValidTime(OffsetTime(hour, minute, minutesBefore).0, OffsetTime(hour, minute, minutesBefore).1)
    ensures MinuteOfDay(OffsetTime(hour, minute, minutesBefore).0, OffsetTime(hour, minute, minutesBefore).1)
         == (MinuteOfDay(hour, minute) - minutesBefore) % 1440
  {
    var t := MinuteOfDay(hour, minute) - minutesBefore;
    var m := minute - minutesBefore;
    if m >= 0 {
      assert 0 <= t < 1440;
    } else if hour >= 1 {
      assert MinuteOfDay(hour - 1, m + 60) == t && 0 <= t < 1440;
    } else {
      assert MinuteOfDay(23, m + 60) == t + 1440 && -1440 <= t < 0;
    }
  }

  /** Offsets above one hour leave the minute negative: the single borrow does not suffice. */
  lemma OffsetTimeLongOffset()
    ensures OffsetTime(10, 0, 90) == (9, -30)
  {
  }

  /** `${pad(h)}:${pad(m)}`: the zero-padded clock string. */
  function FormatHHmm(hour: int, minute: int): string {
    Pad2(hour) + ":" + Pad2(minute)
  }

  lemma FormatHHmmFixed(hour: int, minute: int)
    requires ValidTime(hour, minute)
    ensures FormatHHmm(hour, minute) == FixedDigits(hour, 2) + ([':'] + FixedDigits(minute, 2))
  {
    Pad2Fixed(hour);
    Pad2Fixed(minute);
  }

  /** String order of formatted valid times is the order of the times themselves. */
  lemma FormatHHmmOrder(h1: int, m1: int, h2: int, m2: int)
    requires ValidTime(h1, m1) && ValidTime(h2, m2)
    ensures LexLe(FormatHHmm(h1, m1), FormatHHmm(h2, m2)) <==> MinuteOfDay(h1, m1) <= MinuteOfDay(h2, m2)
  {
    assert Pow10(2) == 100;
    FormatHHmmFixed(h1, m1);
    FormatHHmmFixed(h2, m2);
    var a, b := FixedDigits(h1, 2), FixedDigits(h2, 2);
    var c, d := FixedDigits(m1, 2), FixedDigits(m2, 2);
    LexLeConcat(a, [':'] + c, b, [':'] + d);
    FixedDigitsOrder(h1, h2, 2);
    if a == b {
      FixedDigitsInjective(h1, h2, 2);
      LexLeConcat([':'], c, [':'], d);
      FixedDigitsOrder(m1, m2, 2);
    } else {
      assert h1 != h2;
    }
  }

  // ---------------------------------------------------------------------------
  // parseTime: /^(\d{1,2}):(\d{2})$/
  // ---------------------------------------------------------------------------

  predicate AllDigits(s: string) {
    forall k :: 0 <= k < |s| ==> IsDigit(s[k])
  }

  /** Whether `t` is one or two ASCII digits, a colon at `i`, and exactly two more digits. */
  predicate TimeShapeAt(t: string, i: nat) {
    (i == 1 || i == 2) && |t| == i + 3 && t[i] == ':' && AllDigits(t[..i]) && AllDigits(t[i + 1..])
  }

  /** `parseTime`: the two captured numbers, or `None` when the text does not have the shape. There is no range check. */
  function ParseTime(t: string): (r: Option<(int, int)>)
    ensures r.Some? <==> TimeShapeAt(t, 1) || TimeShapeAt(t, 2)
    ensures forall i: nat :: TimeShapeAt(t, i) ==> r == Some((DigitsValue(t[..i]), DigitsValue(t[i + 1..])))
  {
    if |t| == 4 && IsDigit(t[0]) && t[1] == ':' && IsDigit(t[2]) && IsDigit(t[3]) then
      Some((DigitsValue(t[..1]), DigitsValue(t[2..])))
    else if |t| == 5 && IsDigit(t[0]) && IsDigit(t[1]) && t[2] == ':' && IsDigit(t[3]) && IsDigit(t[4]) then
      Some((DigitsValue(t[..2]), DigitsValue(t[3..])))
    else None
  }

  /** The parse and the zero-padded format are inverse on valid times. */
  lemma ParseFormat(hour: int, minute: int)
    requires ValidTime(hour, minute)
    ensures ParseTime(FormatHHmm(hour, minute)) == Some((hour, minute))
  {
    FormatHHmmFixed(hour, minute);
    var t := FormatHHmm(hour, minute);
    assert Pow10(2) == 100;
    assert t[..2] == FixedDigits(hour, 2) && t[3..] == FixedDigits(minute, 2);
    DigitsValueFixed(hour, 2);
    DigitsValueFixed(minute, 2);
    assert TimeShapeAt(t, 2);
  }

  /** Values outside a clock's range pass the parse. */
  lemma ParseTimeNoRangeCheck()
    ensures ParseTime("99:99") == Some((99, 99))
    ensures ParseTime("7:05") == Some((7, 5))
    ensures ParseTime("7:5") == None && ParseTime("07:005") == None
  {
    assert "99:99"[..2] == "99" && "99:99"[3..] == "99";
    assert DigitsValue("99") == 99 by { assert "99"[..1] == "9" && "9"[..0] == ""; }
    assert "7:05"[..1] == "7" && "7:05"[2..] == "05";
  }

  // ---------------------------------------------------------------------------
  // computeAlarmTime: split(':').map(Number), offset, pad
  // ---------------------------------------------------------------------------

  /** A JavaScript number as far as the alarm arithmetic needs one. */
  datatype JsNumber = Num(value: int) | NaN

  /** `Number(s)`: surrounding white space is ignored, blank is 0, a run of ASCII digits is its value, anything else NaN. */
  function ToNumber(s: string): JsNumber {
    var t := Trim(s);
    if AllDigits(t) then Num(DigitsValue(t)) else NaN
  }

  /** `String(x)`. */
  function NumberString(x: JsNumber): string {
    match x
    case Num(n) => IntToString(n)
    case NaN => "NaN"
  }

  /** `padStart(2, '0')`. */
  function PadStart2(s: string): string {
    if |s| < 2 then "0" + s else s
  }

  /** The offset on JavaScript numbers: NaN propagates and compares false. */
  function JsOffsetTime(hour: JsNumber, minute: JsNumber, minutesBefore: int): (JsNumber, JsNumber) {
    match minute
    case NaN => (hour, NaN)
    case Num(m) =>
      if m - minutesBefore < 0 then
        (match hour
         case NaN => NaN
         case Num(h) => Num(if h - 1 < 0 then 23 else h - 1),
         Num(m - minutesBefore + 60))
      else (hour, Num(m - minutesBefore))
  }

  /** `computeAlarmTime(scheduledTime, minutesBefore)`. */
  function ComputeAlarmTime(scheduledTime: string, minutesBefore: int): string {
    var parts := Split(scheduledTime, ':');
    var hour := ToNumber(parts[0]);
    var minute := if |parts| > 1 then ToNumber(parts[1]) else NaN;
    var alarm := JsOffsetTime(hour, minute, minutesBefore);
    PadStart2(NumberString(alarm.0)) + ":" + PadStart2(NumberString(alarm.1))
  }

  lemma SplitTime(t: string, i: nat)
    requires TimeShapeAt(t, i)
    ensures Split(t, ':') == [t[..i], t[i + 1..]]
  {
    assert t[i] == ':';
    assert forall k :: 0 <= k < i ==> t[k] != ':' by {
      forall k | 0 <= k < i ensures t[k] != ':' { assert IsDigit(t[..i][k]); }
    }
    var rest := t[i + 1..];
    assert forall k :: 0 <= k < |rest| ==> rest[k] != ':' by {
      forall k | 0 <= k < |rest| ensures rest[k] != ':' { assert IsDigit(rest[k]); }
    }
  }

  /**
   * For a well-formed time within a day and an offset of at most an hour, the
   * alarm string is the zero-padded time the offset arithmetic gives (which
   * OffsetTimeIsModular shows is that time minus the offset, modulo one day).
   */
  lemma ComputeAlarmTimeWellFormed(t: string, minutesBefore: int)
    requires ParseTime(t).Some? && ValidTime(ParseTime(t).value.0, ParseTime(t).value.1)
    requires 0 <= minutesBefore <= 60
    ensures ComputeAlarmTime(t, minutesBefore)
         == FormatHHmm(OffsetTime(ParseTime(t).value.0, ParseTime(t).value.1, minutesBefore).0,
                       OffsetTime(ParseTime(t).value.0, ParseTime(t).value.1, minutesBefore).1)
  {
    var i: nat := if TimeShapeAt(t, 1) then 1 else 2;
    SplitTime(t, i);
    var hs, ms := t[..i], t[i + 1..];
    DigitsToNumber(hs);
    DigitsToNumber(ms);
    var (h, m) := ParseTime(t).value;
    assert h == DigitsValue(hs) && m == DigitsValue(ms);
    OffsetTimeIsModular(h, m, minutesBefore);
    var (ah, am) := OffsetTime(h, m, minutesBefore);
    JsOffsetTimeOnNumbers(h, m, minutesBefore);
    PadStartClock(ah);
    PadStartClock(am);
  }

  /** On numbers the JavaScript offset is the integer offset. */
  lemma JsOffsetTimeOnNumbers(h: int, m: int, minutesBefore: int)
    ensures JsOffsetTime(Num(h), Num(m), minutesBefore)
         == (Num(OffsetTime(h, m, minutesBefore).0), Num(OffsetTime(h, m, minutesBefore).1))
  {
  }

  /** `Number` of a non-empty run of digits is its value. */
  lemma DigitsToNumber(s: string)
    requires |s| > 0 && AllDigits(s)
    ensures ToNumber(s) == Num(DigitsValue(s))
  {
    assert !IsSpace(s[0]) && !IsSpace(s[|s| - 1]);
  }

  /** On a clock field, `padStart(2, '0')` of the decimal string is the two-digit form. */
  lemma PadStartClock(x: int)
    requires 0 <= x < 60
    ensures PadStart2(IntToString(x)) == Pad2(x)
  {
  }

  /** A time without a colon has no minute part, so the alarm minute is NaN. */
  lemma ComputeAlarmTimeNoColon()
    ensures ComputeAlarmTime("7", 10) == "07:NaN"
  {
    assert ':' !in "7";
    assert Trim("7") == "7";
    assert DigitsValue("7") == 7 by { assert "7"[..0] == []; }
    assert IntToString(7) == "7";
  }
}
