/** The `date-time` production of RFC 3339 (section 5.6), with the value limits of
    section 5.7, as the acceptance test for the feed's timestamps. */
module Rfc3339 {

  predicate IsDigit(c: char) {
    '0' <= c <= '9'
  }

  /** `count` decimal digits stand in `s` from index `start` on. */
  predicate DigitsAt(s: string, start: nat, count: nat) {
    start + count <= |s| && forall i :: start <= i < start + count ==> IsDigit(s[i])
  }

  function DigitValue(c: char): nat
    requires IsDigit(c)
  {
    c as int - '0' as int
  }

  /** Two digits stand in `s` at `i`. */
  predicate TwoDigitsAt(s: string, i: nat) {
    i + 2 <= |s| && IsDigit(s[i]) && IsDigit(s[i + 1])
  }

  /** The value of the two digits at `i`. */
  function TwoDigits(s: string, i: nat): nat
    requires TwoDigitsAt(s, i)
  {
    10 * DigitValue(s[i]) + DigitValue(s[i + 1])
  }

  /** Four digits stand in `s` at `i`. */
  predicate FourDigitsAt(s: string, i: nat) {
    TwoDigitsAt(s, i) && TwoDigitsAt(s, i + 2)
  }

  /** The value of the four digits at `i`. */
  function FourDigits(s: string, i: nat): nat
    requires FourDigitsAt(s, i)
  {
    100 * TwoDigits(s, i) + TwoDigits(s, i + 2)
  }

  /** The number of digits `s` starts with. */
  function LeadingDigits(s: string): (n: nat)
    ensures n <= |s| && DigitsAt(s, 0, n)
    ensures n < |s| ==> !IsDigit(s[n])
  {
    if |s| == 0 || !IsDigit(s[0]) then 0
    else
      var n := 1 + LeadingDigits(s[1..]);
      assert forall i :: 1 <= i < n ==> s[i] == s[1..][i - 1];
      n
  }

  predicate IsLeapYear(year: nat) {
    year % 4 == 0 && (year % 100 != 0 || year % 400 == 0)
  }

  function DaysInMonth(year: nat, month: nat): nat
    requires 1 <= month <= 12
  {
    if month == 2 then (if IsLeapYear(year) then 29 else 28)
    else if month == 4 || month == 6 || month == 9 || month == 11 then 30
    else 31
  }

  /** full-date = date-fullyear "-" date-month "-" date-mday, at the start of `s`. */
  predicate IsFullDate(s: string) {
    && |s| >= 10 && FourDigitsAt(s, 0) && s[4] == '-' && TwoDigitsAt(s, 5) && s[7] == '-' && TwoDigitsAt(s, 8)
    && 1 <= TwoDigits(s, 5) <= 12
    && 1 <= TwoDigits(s, 8) <= DaysInMonth(FourDigits(s, 0), TwoDigits(s, 5))
  }

  /** time-hour ":" time-minute ":" time-second, from index `start` on. */
  predicate IsTimeOfDay(s: string, start: nat) {
    && |s| >= start + 8
    && TwoDigitsAt(s, start) && s[start + 2] == ':'
    && TwoDigitsAt(s, start + 3) && s[start + 5] == ':'
    && TwoDigitsAt(s, start + 6)
    && TwoDigits(s, start) <= 23
    && TwoDigits(s, start + 3) <= 59
    && TwoDigits(s, start + 6) <= 60
  }

  /** time-offset = "Z" / time-numoffset, the whole of `s`. */
  predicate IsTimeOffset(s: string) {
    || s == "Z" || s == "z"
    || (&& |s| == 6 && (s[0] == '+' || s[0] == '-')
        && TwoDigitsAt(s, 1) && s[3] == ':' && TwoDigitsAt(s, 4)
        && TwoDigits(s, 1) <= 23 && TwoDigits(s, 4) <= 59)
  }

  /** [time-secfrac] time-offset, the whole of `s`. */
  predicate IsTimeTail(s: string) {
    if |s| > 0 && s[0] == '.' then
      var n := LeadingDigits(s[1..]);
      n > 0 && IsTimeOffset(s[1 + n..])
    else IsTimeOffset(s)
  }

  /** date-time = full-date "T" full-time; "T" and "Z" may also be lower case. */
  predicate IsDateTime(s: string) {
    && |s| >= 20
    && IsFullDate(s)
    && (s[10] == 'T' || s[10] == 't')
    && IsTimeOfDay(s, 11)
    && IsTimeTail(s[19..])
  }

  /** A UTC date-time, kept as the text it was read from. */
  type DateTime = s: string | IsDateTime(s) witness "1970-01-01T00:00:00Z"
}
