/**
 * The `RUN_AT` attribute of the `Local` profile: the current UTC time, read once
 * when the module is imported, rendered with the layout `%Y-%m-%d %H:%M:%S +0000`.
 * The clock is a parameter here (a `DateTime` value).
 */
module Timestamp {
  import opened Wrappers

  /** A `datetime` value; only `Valid` ones exist in Python. */
  datatype DateTime = DateTime(year: int, month: int, day: int,
                               hour: int, minute: int, second: int, microsecond: int)

  predicate IsLeapYear(y: int) {
    y % 4 == 0 && (y % 100 != 0 || y % 400 == 0)
  }

  function DaysInMonth(y: int, m: int): int
    requires 1 <= m <= 12
  {
    if m == 2 then (if IsLeapYear(y) then 29 else 28)
    else if m == 4 || m == 6 || m == 9 || m == 11 then 30
    else 31
  }

  /** The ranges Python's `datetime` enforces on its fields. */
  predicate Valid(t: DateTime) {
    && 1 <= t.year <= 9999
    && 1 <= t.month <= 12
    && 1 <= t.day <= DaysInMonth(t.year, t.month)
    && 0 <= t.hour < 24
    && 0 <= t.minute < 60
    && 0 <= t.second < 60
    && 0 <= t.microsecond < 1000000
  }

  function Pow10(n: nat): (r: nat)
    ensures r >= 1
  {
    if n == 0 then 1 else 10 * Pow10(n - 1)
  }

  predicate IsDigit(c: char) {
    '0' <= c <= '9'
  }

  predicate AllDigits(s: string) {
    forall i :: 0 <= i < |s| ==> IsDigit(s[i])
  }

  /** `n` in decimal, zero-padded on the left to exactly `width` characters. */
  function Digits(n: nat, width: nat): (r: string)
    requires n < Pow10(width)
    ensures |r| == width
    ensures AllDigits(r)
  {
    if width == 0 then ""
    else
      assert n / 10 < Pow10(width - 1);
      Digits(n / 10, width - 1) + [('0' as int + n % 10) as char]
  }

  /** The number a string of decimal digits denotes. */
  function DigitsValue(s: string): nat
    requires AllDigits(s)
  {
    if s == "" then 0
    else 10 * DigitsValue(s[..|s| - 1]) + (s[|s| - 1] as int - '0' as int)
  }

  /** A non-empty run of decimal digits, read as a number. */
  function ParseNumber(s: string): Option<nat> {
    if s != "" && AllDigits(s) then Some(DigitsValue(s)) else None
  }

  /**
   * The layout every `RUN_AT` value has: `D` stands for one decimal digit,
   * every other character for itself.
   */
  const Layout: string := "DDDD-DD-DD DD:DD:DD +0000"

  predicate MatchesLayout(s: string) {
    && |s| == |Layout|
    && forall i :: 0 <= i < |s| ==> if Layout[i] == 'D' then IsDigit(s[i]) else s[i] == Layout[i]
  }

  /** `t.strftime('%Y-%m-%d %H:%M:%S +0000')`: microseconds are dropped. */
  function FormatRunAt(t: DateTime): (r: string)
    requires Valid(t)
    ensures MatchesLayout(r)
    ensures r[|r| - 6..] == " +0000"
  {
    var r := Digits(t.year, 4) + "-" + Digits(t.month, 2) + "-" + Digits(t.day, 2) + " "
             + Digits(t.hour, 2) + ":" + Digits(t.minute, 2) + ":" + Digits(t.second, 2) + " +0000";
    assert forall i :: 0 <= i < 4 ==> r[i] == Digits(t.year, 4)[i];
    assert forall i :: 5 <= i < 7 ==> r[i] == Digits(t.month, 2)[i - 5];
    assert forall i :: 8 <= i < 10 ==> r[i] == Digits(t.day, 2)[i - 8];
    assert forall i :: 11 <= i < 13 ==> r[i] == Digits(t.hour, 2)[i - 11];
    assert forall i :: 14 <= i < 16 ==> r[i] == Digits(t.minute, 2)[i - 14];
    assert forall i :: 17 <= i < 19 ==> r[i] == Digits(t.second, 2)[i - 17];
    r
  }

  /**
   * The strict reading of `%Y-%m-%d %H:%M:%S`: every field zero-padded to its
   * width, and the date and time checked as `datetime` checks them. The
   * result carries no microseconds.
   */
  function ParseTimestamp(s: string): (r: Option<DateTime>)
    ensures r.Some? ==> Valid(r.value) && r.value.microsecond == 0
  {
    if |s| != 19 || s[4] != '-' || s[7] != '-' || s[10] != ' ' || s[13] != ':' || s[16] != ':' then None
    else
      var y, mo, d := ParseNumber(s[..4]), ParseNumber(s[5..7]), ParseNumber(s[8..10]);
      var h, mi, se := ParseNumber(s[11..13]), ParseNumber(s[14..16]), ParseNumber(s[17..19]);
      if y.None? || mo.None? || d.None? || h.None? || mi.None? || se.None? then None
      else
        var t := DateTime(y.value, mo.value, d.value, h.value, mi.value, se.value, 0);
        if Valid(t) then Some(t) else None
  }

  /** Reading back a zero-padded field gives the number that was written. */
  lemma {:induction false} DigitsRoundTrip(n: nat, width: nat)
    requires n < Pow10(width)
    ensures DigitsValue(Digits(n, width)) == n
  {
    if width > 0 {
      var s := Digits(n, width);
      assert s[..|s| - 1] == Digits(n / 10, width - 1);
      DigitsRoundTrip(n / 10, width - 1);
    }
  }

  lemma ParseNumberOfDigits(n: nat, width: nat)
    requires 0 < width && n < Pow10(width)
    ensures ParseNumber(Digits(n, width)) == Some(n)
  {
  }

  /**
   * The check the end-to-end test makes of `run_at`: it ends with ` +0000`,
   * and what precedes that suffix parses back to the same instant, to the second.
   */
  lemma RunAtRoundTrip(t: DateTime)
    requires Valid(t)
    ensures var r := FormatRunAt(t);
            && r[|r| - 6..] == " +0000"
            && ParseTimestamp(r[..|r| - 6]) == Some(t.(microsecond := 0))
  {
    var r := FormatRunAt(t);
    var s := r[..|r| - 6];
    assert s[..4] == Digits(t.year, 4);
    assert s[5..7] == Digits(t.month, 2);
    assert s[8..10] == Digits(t.day, 2);
    assert s[11..13] == Digits(t.hour, 2);
    assert s[14..16] == Digits(t.minute, 2);
    assert s[17..19] == Digits(t.second, 2);
    ParseNumberOfDigits(t.year, 4);
    ParseNumberOfDigits(t.month, 2);
    ParseNumberOfDigits(t.day, 2);
    ParseNumberOfDigits(t.hour, 2);
    ParseNumberOfDigits(t.minute, 2);
    ParseNumberOfDigits(t.second, 2);
  }
}
