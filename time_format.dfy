/**
 * Time of day as QTime holds it (to the second) and its text form
 * "HH:mm:ss": two zero-padded 24-hour digits per field, separated by ':'.
 * The same form is produced by QTime::toString("hh:mm:ss") when the
 * format has no AM/PM marker, so both spellings in the program agree.
 */
module TimeFormat {
  import opened Wrappers

  datatype TimeOfDay = TimeOfDay(hour: int, minute: int, second: int)

  /** The range a QTime can hold. */
  predicate ValidTime(t: TimeOfDay) {
    0 <= t.hour < 24 && 0 <= t.minute < 60 && 0 <= t.second < 60
  }

  predicate IsDigit(c: char) {
    '0' <= c <= '9'
  }

  function DigitValue(c: char): (d: int)
    requires IsDigit(c)
    ensures 0 <= d < 10
  {
    c as int - '0' as int
  }

  function DigitChar(d: int): (c: char)
    requires 0 <= d < 10
    ensures IsDigit(c) && DigitValue(c) == d
  {
    ('0' as int + d) as char
  }

  /** A number below 100 as exactly two decimal digits, zero-padded. */
  function TwoDigits(n: int): (s: string)
    requires 0 <= n < 100
    ensures |s| == 2 && IsDigit(s[0]) && IsDigit(s[1])
    ensures DigitValue(s[0]) * 10 + DigitValue(s[1]) == n
  {
    [DigitChar(n / 10), DigitChar(n % 10)]
  }

  /** QTime::toString("HH:mm:ss"). */
  function Format(t: TimeOfDay): (s: string)
    requires ValidTime(t)
    ensures |s| == 8 && s[2] == ':' && s[5] == ':'
    ensures forall i :: 0 <= i < 8 && i != 2 && i != 5 ==> IsDigit(s[i])
  {
    TwoDigits(t.hour) + ":" + TwoDigits(t.minute) + ":" + TwoDigits(t.second)
  }

  /** The shape Format produces: eight characters, digits around two colons. */
  predicate Shaped(s: string) {
    |s| == 8 && s[2] == ':' && s[5] == ':'
    && IsDigit(s[0]) && IsDigit(s[1]) && IsDigit(s[3])
    && IsDigit(s[4]) && IsDigit(s[6]) && IsDigit(s[7])
  }

  /** QTime::fromString(s, "hh:mm:ss"): None for text that is not a valid time. */
  function Parse(s: string): (r: Option<TimeOfDay>)
    ensures r.Some? ==> ValidTime(r.value) && Shaped(s)
  {
    if !Shaped(s) then None
    else
      var t := TimeOfDay(DigitValue(s[0]) * 10 + DigitValue(s[1]),
                         DigitValue(s[3]) * 10 + DigitValue(s[4]),
                         DigitValue(s[6]) * 10 + DigitValue(s[7]));
      if ValidTime(t) then Some(t) else None
  }

  /** Reading back what was written gives the same time. */
  lemma ParseFormat(t: TimeOfDay)
    requires ValidTime(t)
    ensures Parse(Format(t)) == Some(t)
  {
    var s := Format(t);
    var h, m, x := TwoDigits(t.hour), TwoDigits(t.minute), TwoDigits(t.second);
    assert s == h + ":" + m + ":" + x;
    assert s[0] == h[0] && s[1] == h[1];
    assert s[3] == m[0] && s[4] == m[1];
    assert s[6] == x[0] && s[7] == x[1];
  }

  /** Two digits read as a number are written back as the same two digits. */
  lemma TwoDigitsOfDigits(c0: char, c1: char)
    requires IsDigit(c0) && IsDigit(c1)
    ensures TwoDigits(DigitValue(c0) * 10 + DigitValue(c1)) == [c0, c1]
  {
    var n := DigitValue(c0) * 10 + DigitValue(c1);
    assert n / 10 == DigitValue(c0) && n % 10 == DigitValue(c1);
  }

  /** Writing back what was read gives the same text: a valid time has one spelling. */
  lemma FormatParse(s: string)
    requires Parse(s).Some?
    ensures Format(Parse(s).value) == s
  {
    TwoDigitsOfDigits(s[0], s[1]);
    TwoDigitsOfDigits(s[3], s[4]);
    TwoDigitsOfDigits(s[6], s[7]);
    assert s == [s[0], s[1]] + ":" + [s[3], s[4]] + ":" + [s[6], s[7]];
  }

  /**
   * Two clock strings are equal exactly when the times are: the stored time
   * and the ticking clock match iff their (h, m, s) agree.
   */
  lemma FormatInjective(a: TimeOfDay, b: TimeOfDay)
    requires ValidTime(a) && ValidTime(b)
    ensures Format(a) == Format(b) <==> a == b
  {
    if Format(a) == Format(b) {
      ParseFormat(a);
      ParseFormat(b);
    }
  }
}
