/**
 * `dt_to_rfc3339`: a naive datetime rendered as the date-time profile of
 * section 5.6 of RFC 3339 (`YYYY-MM-DDTHH:MM:SSZ`, every field zero-padded,
 * `Z` appended whatever the time zone), or only the `full-date` part
 * (`YYYY-MM-DD`) when the time is not wanted.  The parser beside it is the
 * partner that shows the rendering loses nothing.
 */
module Rfc3339 {
  import opened Wrappers
  import opened Calendar

  function DigitChar(d: int): (c: char)
    requires 0 <= d < 10
    ensures '0' <= c <= '9'
  {
    (48 + d) as char
  }

  predicate IsDigit(c: char)
  {
    '0' <= c <= '9'
  }

  function DigitValue(c: char): (d: int)
    requires IsDigit(c)
    ensures 0 <= d < 10
  {
    c as int - 48
  }

  /** `%m`, `%d`, `%H`, `%M`, `%S`: two digits, zero-padded. */
  function Pad2(n: int): (s: string)
    requires 0 <= n < 100
  {
    [DigitChar(n / 10), DigitChar(n % 10)]
  }

  /** `%Y`: four digits, zero-padded. */
  function Pad4(n: int): (s: string)
    requires 0 <= n < 10000
  {
    Pad2(n / 100) + Pad2(n % 100)
  }

  /** `dt_to_rfc3339(t)`, that is `t.strftime("%Y-%m-%dT%H:%M:%SZ")`. */
  function Format(t: DateTime): string
    requires Valid(t)
  {
    FormatDate(t) + "T" + Pad2(t.hour) + ":" + Pad2(t.minute) + ":" + Pad2(t.second) + "Z"
  }

  /** `dt_to_rfc3339(t, use_time=False)`, that is `t.strftime("%Y-%m-%d")`. */
  function FormatDate(t: DateTime): string
    requires Valid(t)
  {
    Pad4(t.year) + "-" + Pad2(t.month) + "-" + Pad2(t.day)
  }

  /** Value of the decimal digits `s[i..j]`. */
  function Number(s: string, i: nat, j: nat): int
    requires i <= j <= |s|
    requires forall k :: i <= k < j ==> IsDigit(s[k])
    decreases j - i
  {
    if i == j then 0 else Number(s, i, j - 1) * 10 + DigitValue(s[j - 1])
  }

  predicate DigitsAt(s: string, i: nat, j: nat)
    requires i <= j <= |s|
  {
    forall k :: i <= k < j ==> IsDigit(s[k])
  }

  /** Reads back a `YYYY-MM-DD` date; `None` unless it names a day Python's `date` can hold. */
  function ParseDate(s: string): Option<(int, int, int)>
  {
    if |s| == 10 && s[4] == '-' && s[7] == '-'
       && DigitsAt(s, 0, 4) && DigitsAt(s, 5, 7) && DigitsAt(s, 8, 10)
    then
      var (y, m, d) := (Number(s, 0, 4), Number(s, 5, 7), Number(s, 8, 10));
      if ValidDate(y, m, d) then Some((y, m, d)) else None
    else None
  }

  /** Reads back a `YYYY-MM-DDTHH:MM:SSZ` date-time; `None` unless it names a valid naive datetime. */
  function Parse(s: string): Option<DateTime>
  {
    if |s| == 20 && s[10] == 'T' && s[13] == ':' && s[16] == ':' && s[19] == 'Z'
       && DigitsAt(s, 11, 13) && DigitsAt(s, 14, 16) && DigitsAt(s, 17, 19)
    then
      match ParseDate(s[..10])
      case None => None
      case Some((y, m, d)) =>
        var t := DateTime(y, m, d, Number(s, 11, 13), Number(s, 14, 16), Number(s, 17, 19));
        if Valid(t) then Some(t) else None
    else None
  }

  lemma DigitRoundTrip(d: int)
    requires 0 <= d < 10
    ensures DigitValue(DigitChar(d)) == d
  {
  }

  lemma Pad2Value(s: string, i: nat, n: int)
    requires 0 <= n < 100 && i + 2 <= |s| && s[i..i + 2] == Pad2(n)
    ensures DigitsAt(s, i, i + 2) && Number(s, i, i + 2) == n
  {
    assert s[i] == DigitChar(n / 10) && s[i + 1] == DigitChar(n % 10);
    DigitRoundTrip(n / 10);
    DigitRoundTrip(n % 10);
    assert Number(s, i, i + 1) == n / 10;
  }

  lemma Pad4Value(s: string, n: int)
    requires 0 <= n < 10000 && 4 <= |s| && s[..4] == Pad4(n)
    ensures DigitsAt(s, 0, 4) && Number(s, 0, 4) == n
  {
    var hi, lo := n / 100, n % 100;
    assert s[0..2] == Pad2(hi) && s[2..4] == Pad2(lo);
    Pad2Value(s, 0, hi);
    Pad2Value(s, 2, lo);
    DigitRoundTrip(lo / 10);
    DigitRoundTrip(lo % 10);
    assert s[2] == DigitChar(lo / 10) && s[3] == DigitChar(lo % 10);
    assert Number(s, 0, 3) == hi * 10 + lo / 10;
    assert Number(s, 0, 4) == (hi * 10 + lo / 10) * 10 + lo % 10;
    HundredsSplit(n);
  }

  lemma HundredsSplit(n: int)
    requires 0 <= n
    ensures (n / 100 * 10 + n % 100 / 10) * 10 + n % 100 % 10 == n
  {
  }

  /** The date rendering is ten characters and reads back to the same day. */
  lemma ParseFormatDate(t: DateTime)
    requires Valid(t)
    ensures |FormatDate(t)| == 10
    ensures ParseDate(FormatDate(t)) == Some((t.year, t.month, t.day))
  {
    var s := FormatDate(t);
    assert s[..4] == Pad4(t.year);
    assert s[5..7] == Pad2(t.month);
    assert s[8..10] == Pad2(t.day);
    Pad4Value(s, t.year);
    Pad2Value(s, 5, t.month);
    Pad2Value(s, 8, t.day);
  }

  /** The date-time rendering is twenty characters and reads back to the same datetime. */
  lemma ParseFormat(t: DateTime)
    requires Valid(t)
    ensures |Format(t)| == 20
    ensures Parse(Format(t)) == Some(t)
  {
    var s := Format(t);
    ParseFormatDate(t);
    assert s[..10] == FormatDate(t);
    assert s[11..13] == Pad2(t.hour);
    assert s[14..16] == Pad2(t.minute);
    assert s[17..19] == Pad2(t.second);
    Pad2Value(s, 11, t.hour);
    Pad2Value(s, 14, t.minute);
    Pad2Value(s, 17, t.second);
  }

  /** Distinct datetimes render distinctly. */
  lemma FormatInjective(a: DateTime, b: DateTime)
    requires Valid(a) && Valid(b) && Format(a) == Format(b)
    ensures a == b
  {
    ParseFormat(a);
    ParseFormat(b);
  }

  /** The rendering uses only digits and `-`, `:`, `T`, `Z` (no quote, comma, space or parenthesis). */
  lemma FormatAlphabet(t: DateTime)
    requires Valid(t)
    ensures forall k :: 0 <= k < |Format(t)| ==> IsDigit(Format(t)[k]) || Format(t)[k] in "-:TZ"
  {
  }
}
