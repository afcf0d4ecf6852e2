/**
 * Wall-clock readings and the two formats GenerateValue renders them in:
 * "yyyy-MM-ddTHH:mm:ss.fffK" for `datetime` and "yyyy-MM-dd" for `date`
 * (Gregorian calendar, ':' as time separator, local time with its offset).
 */
module Timestamps {

  import opened Wrappers
  import opened Text

  datatype Timestamp = Timestamp(
    year: int, month: int, day: int,
    hour: int, minute: int, second: int, millisecond: int,
    offsetMinutes: int)

  predicate IsLeapYear(y: int)
  {
    y % 4 == 0 && (y % 100 != 0 || y % 400 == 0)
  }

  function DaysInMonth(y: int, m: int): int
  {
    if m == 2 then (if IsLeapYear(y) then 29 else 28)
    else if m == 4 || m == 6 || m == 9 || m == 11 then 30
    else 31
  }

  predicate ValidDate(y: int, m: int, d: int)
  {
    1 <= y <= 9999 && 1 <= m <= 12 && 1 <= d <= DaysInMonth(y, m)
  }

  /** A reading `DateTime.Now` can return: a calendar date, a time of day and a UTC offset of at most 14 hours. */
  predicate ValidTimestamp(t: Timestamp)
  {
    && ValidDate(t.year, t.month, t.day)
    && 0 <= t.hour < 24 && 0 <= t.minute < 60 && 0 <= t.second < 60
    && 0 <= t.millisecond < 1000
    && -840 <= t.offsetMinutes <= 840
  }

  type LocalTime = t: Timestamp | ValidTimestamp(t) witness Timestamp(1, 1, 1, 0, 0, 0, 0, 0)

  lemma PowersOfTen()
    ensures Pow(10, 2) == 100 && Pow(10, 3) == 1000 && Pow(10, 4) == 10000
  {
    assert Pow(10, 1) == 10;
  }

  /** "yyyy-MM-dd" */
  function FormatDate(t: LocalTime): (r: string)
    ensures |r| == 10
  {
    Digits(t.year, 10, 4) + "-" + Digits(t.month, 10, 2) + "-" + Digits(t.day, 10, 2)
  }

  /** "K" of a local reading: sign, hours and minutes of the offset. */
  function OffsetText(off: int): (r: string)
    requires -840 <= off <= 840
    ensures |r| == 6
  {
    var a := if off < 0 then -off else off;
    (if off < 0 then "-" else "+") + Digits(a / 60, 10, 2) + ":" + Digits(a % 60, 10, 2)
  }

  /** "HH:mm:ss.fff" */
  function FormatTime(t: LocalTime): (r: string)
    ensures |r| == 12
  {
    Digits(t.hour, 10, 2) + ":" + Digits(t.minute, 10, 2) + ":" + Digits(t.second, 10, 2)
      + "." + Digits(t.millisecond, 10, 3)
  }

  /** "yyyy-MM-ddTHH:mm:ss.fffK" */
  function FormatDateTime(t: LocalTime): (r: string)
    ensures |r| == 29
  {
    FormatDate(t) + "T" + FormatTime(t) + OffsetText(t.offsetMinutes)
  }

  predicate AllDigits(s: string)
  {
    forall i :: 0 <= i < |s| ==> IsDigit(s[i], 10)
  }

  /** The decimal number written in `s[i..i + w]`, if those are all digits. */
  function NumberAt(s: string, i: nat, w: nat): Option<nat>
  {
    if i + w <= |s| && AllDigits(s[i..i + w]) then Some(ParseDigits(s[i..i + w], 10)) else None
  }

  /** Reads "yyyy-MM-dd" back into a valid calendar date. */
  function ParseDate(s: string): Option<(int, int, int)>
  {
    if |s| != 10 || s[4] != '-' || s[7] != '-' then None
    else match (NumberAt(s, 0, 4), NumberAt(s, 5, 2), NumberAt(s, 8, 2))
      case (Some(y), Some(m), Some(d)) => if ValidDate(y, m, d) then Some((y, m, d)) else None
      case _ => None
  }

  /** Reads "HH:mm:ss.fff" back into hour, minute, second and millisecond. */
  function ParseTime(s: string): Option<(int, int, int, int)>
  {
    if |s| != 12 || s[2] != ':' || s[5] != ':' || s[8] != '.' then None
    else match (NumberAt(s, 0, 2), NumberAt(s, 3, 2), NumberAt(s, 6, 2), NumberAt(s, 9, 3))
      case (Some(h), Some(mi), Some(sec), Some(ms)) => Some((h, mi, sec, ms))
      case _ => None
  }

  /** Reads "+HH:mm" or "-HH:mm" back into an offset in minutes. */
  function ParseOffset(s: string): Option<int>
  {
    if |s| != 6 || (s[0] != '+' && s[0] != '-') || s[3] != ':' then None
    else match (NumberAt(s, 1, 2), NumberAt(s, 4, 2))
      case (Some(oh), Some(om)) =>
        var a: int := oh * 60 + om;
        Some(if s[0] == '-' then -a else a)
      case _ => None
  }

  /** Reads "yyyy-MM-ddTHH:mm:ss.fffK" back into a valid reading. */
  function ParseDateTime(s: string): Option<Timestamp>
  {
    if |s| != 29 || s[10] != 'T' then None
    else match (ParseDate(s[..10]), ParseTime(s[11..23]), ParseOffset(s[23..]))
      case (Some((y, mo, d)), Some((h, mi, sec, ms)), Some(off)) =>
        var t := Timestamp(y, mo, d, h, mi, sec, ms, off);
        if ValidTimestamp(t) then Some(t) else None
      case _ => None
  }

  /** What the `date` case produces: text that reads back as a date. */
  predicate IsDateText(s: string)
  {
    ParseDate(s).Some?
  }

  /** What the `datetime` case produces: text that reads back as a reading. */
  predicate IsDateTimeText(s: string)
  {
    ParseDateTime(s).Some?
  }

  lemma NumberAtDigits(s: string, i: nat, n: nat, w: nat)
    requires n < Pow(10, w)
    requires i + w <= |s| && s[i..i + w] == Digits(n, 10, w)
    ensures NumberAt(s, i, w) == Some(n)
  {
    DigitsRoundTrip(n, 10, w);
  }

  /** A formatted date reads back as the date it was formatted from. */
  lemma DateRoundTrip(t: LocalTime)
    ensures ParseDate(FormatDate(t)) == Some((t.year, t.month, t.day))
  {
    var s := FormatDate(t);
    PowersOfTen();
    NumberAtDigits(s, 0, t.year, 4);
    NumberAtDigits(s, 5, t.month, 2);
    NumberAtDigits(s, 8, t.day, 2);
  }

  lemma TimeRoundTrip(t: LocalTime)
    ensures ParseTime(FormatTime(t)) == Some((t.hour, t.minute, t.second, t.millisecond))
  {
    var s := FormatTime(t);
    PowersOfTen();
    NumberAtDigits(s, 0, t.hour, 2);
    NumberAtDigits(s, 3, t.minute, 2);
    NumberAtDigits(s, 6, t.second, 2);
    NumberAtDigits(s, 9, t.millisecond, 3);
  }

  lemma OffsetRoundTrip(off: int)
    requires -840 <= off <= 840
    ensures ParseOffset(OffsetText(off)) == Some(off)
  {
    var s := OffsetText(off);
    var a := if off < 0 then -off else off;
    PowersOfTen();
    NumberAtDigits(s, 1, a / 60, 2);
    NumberAtDigits(s, 4, a % 60, 2);
  }

  /** A formatted reading reads back as the reading it was formatted from. */
  lemma DateTimeRoundTrip(t: LocalTime)
    ensures ParseDateTime(FormatDateTime(t)) == Some(t)
  {
    var s := FormatDateTime(t);
    assert s[..10] == FormatDate(t);
    assert s[11..23] == FormatTime(t);
    assert s[23..] == OffsetText(t.offsetMinutes);
    DateRoundTrip(t);
    TimeRoundTrip(t);
    OffsetRoundTrip(t.offsetMinutes);
  }
}
