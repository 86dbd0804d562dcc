/** The timestamp codec of the model classes: the fixed pattern
    `%Y-%m-%dT%H:%M:%SZ` of `Base._DATETIME_FORMAT`, that is, the `date-time`
    profile of section 5.6 of RFC 3339 with the literal offset `Z` and no
    fractional seconds.  Parsing is strict: four digits of year, two of every
    other field, and the date and time must exist, as a Python `datetime`
    requires. */
module Timestamp {
  import opened Errors

  /** A naive Python `datetime` with no microseconds. */
  datatype DateTime = DateTime(year: int, month: int, day: int, hour: int, minute: int, second: int)

  predicate IsLeapYear(y: int) {
    y % 4 == 0 && (y % 100 != 0 || y % 400 == 0)
  }

  function DaysInMonth(y: int, m: int): int
    requires 1 <= m <= 12
  {
    if m == 2 then (if IsLeapYear(y) then 29 else 28)
    else if m == 4 || m == 6 || m == 9 || m == 11 then 30
    else 31
  }

  /** The values a Python `datetime` can hold: years 1 to 9999, real calendar
      days, seconds 0 to 59. */
  predicate Valid(t: DateTime) {
    && 1 <= t.year <= 9999
    && 1 <= t.month <= 12
    && 1 <= t.day <= DaysInMonth(t.year, t.month)
    && 0 <= t.hour <= 23
    && 0 <= t.minute <= 59
    && 0 <= t.second <= 59
  }

  type Timestamp = t: DateTime | Valid(t) witness DateTime(1970, 1, 1, 0, 0, 0)

  predicate IsDigit(c: char) {
    '0' <= c <= '9'
  }

  function Digit(d: int): (c: char)
    requires 0 <= d <= 9
    ensures IsDigit(c)
  {
    ('0' as int + d) as char
  }

  function DigitValue(c: char): (d: int)
    requires IsDigit(c)
    ensures 0 <= d <= 9
  {
    c as int - '0' as int
  }

  /** `n` as exactly two decimal digits. */
  function Pad2(n: int): string
    requires 0 <= n <= 99
  {
    [Digit(n / 10), Digit(n % 10)]
  }

  /** `n` as exactly four decimal digits. */
  function Pad4(n: int): string
    requires 0 <= n <= 9999
  {
    Pad2(n / 100) + Pad2(n % 100)
  }


  /** The positions of the 20-character pattern that hold digits. */
  predicate IsDigitPosition(i: int) {
    0 <= i < 20 && i != 4 && i != 7 && i != 10 && i != 13 && i != 16 && i != 19
  }

  /** `s` has the shape of the pattern: digits, separators and the literal `T`
      and `Z`, each at its fixed position. */
  predicate Shaped(s: string) {
    && |s| == 20
    && s[4] == '-' && s[7] == '-' && s[10] == 'T'
    && s[13] == ':' && s[16] == ':' && s[19] == 'Z'
    && forall i :: 0 <= i < 20 && IsDigitPosition(i) ==> IsDigit(s[i])
  }

  /** The number written by the digits `s[i..i+2]`. */
  function Num2(s: string, i: int): int
    requires 0 <= i && i + 2 <= |s| && IsDigit(s[i]) && IsDigit(s[i + 1])
  {
    10 * DigitValue(s[i]) + DigitValue(s[i + 1])
  }

  /** The number written by the digits `s[i..i+4]`. */
  function Num4(s: string, i: int): int
    requires 0 <= i && i + 4 <= |s| && forall k :: i <= k < i + 4 ==> IsDigit(s[k])
  {
    100 * Num2(s, i) + Num2(s, i + 2)
  }

  /** The fields a shaped string spells out, before the calendar check. */
  function Fields(s: string): DateTime
    requires Shaped(s)
  {
    assert IsDigitPosition(0) && IsDigitPosition(1) && IsDigitPosition(2) && IsDigitPosition(3);
    assert IsDigitPosition(5) && IsDigitPosition(6) && IsDigitPosition(8) && IsDigitPosition(9);
    assert IsDigitPosition(11) && IsDigitPosition(12) && IsDigitPosition(14) && IsDigitPosition(15);
    assert IsDigitPosition(17) && IsDigitPosition(18);
    DateTime(Num4(s, 0), Num2(s, 5), Num2(s, 8), Num2(s, 11), Num2(s, 14), Num2(s, 17))
  }

  /** `datetime.strptime(s, "%Y-%m-%dT%H:%M:%SZ")`. */
  function Parse(s: string): (r: Result<Timestamp>)
    ensures r.Err? ==> r.error == BadTimestamp(s)
    ensures |s| != 20 ==> r.Err?
  {
    if Shaped(s) && Valid(Fields(s)) then Ok(Fields(s)) else Err(BadTimestamp(s))
  }

  lemma Pad2Digits(n: int)
    requires 0 <= n <= 99
    ensures var p := Pad2(n); IsDigit(p[0]) && IsDigit(p[1]) && Num2(p, 0) == n
  {
  }

  lemma Pad4Digits(n: int)
    requires 0 <= n <= 9999
    ensures var p := Pad4(n); (forall k :: 0 <= k < 4 ==> IsDigit(p[k])) && Num4(p, 0) == n
  {
    var p := Pad4(n);
    Pad2Digits(n / 100);
    Pad2Digits(n % 100);
    assert Num2(p, 0) == Num2(Pad2(n / 100), 0);
    assert Num2(p, 2) == Num2(Pad2(n % 100), 0);
  }

  lemma DivMod100(x: int, y: int)
    requires 0 <= y < 100
    ensures (100 * x + y) / 100 == x && (100 * x + y) % 100 == y
  {
  }

  /** `strftime` with the fixed pattern: always 20 characters of the pattern's
      shape. */
  function Format(t: Timestamp): (s: string)
    ensures |s| == 20 && Shaped(s)
  {
    var s := Pad4(t.year) + "-" + Pad2(t.month) + "-" + Pad2(t.day) + "T"
             + Pad2(t.hour) + ":" + Pad2(t.minute) + ":" + Pad2(t.second) + "Z";
    Pad4Digits(t.year);
    assert forall i :: 0 <= i < 4 ==> s[i] == Pad4(t.year)[i];
    s
  }

  /** Parsing a formatted timestamp gives back the same timestamp. */
  lemma {:induction false} ParseFormat(t: Timestamp)
    ensures Parse(Format(t)) == Ok(t)
  {
    var s := Format(t);
    Pad4Digits(t.year);
    Pad2Digits(t.month);
    Pad2Digits(t.day);
    Pad2Digits(t.hour);
    Pad2Digits(t.minute);
    Pad2Digits(t.second);
    assert s[0..4] == Pad4(t.year);
    assert Num4(s, 0) == Num4(Pad4(t.year), 0);
    assert Num2(s, 5) == Num2(Pad2(t.month), 0);
    assert Num2(s, 8) == Num2(Pad2(t.day), 0);
    assert Num2(s, 11) == Num2(Pad2(t.hour), 0);
    assert Num2(s, 14) == Num2(Pad2(t.minute), 0);
    assert Num2(s, 17) == Num2(Pad2(t.second), 0);
    assert Fields(s) == t;
  }

  lemma Num2Pad(s: string, i: int)
    requires 0 <= i && i + 2 <= |s| && IsDigit(s[i]) && IsDigit(s[i + 1])
    ensures Pad2(Num2(s, i)) == s[i..i + 2]
  {
  }

  lemma Num4Pad(s: string, i: int)
    requires 0 <= i && i + 4 <= |s| && forall k :: i <= k < i + 4 ==> IsDigit(s[k])
    ensures Pad4(Num4(s, i)) == s[i..i + 4]
  {
    DivMod100(Num2(s, i), Num2(s, i + 2));
    Num2Pad(s, i);
    Num2Pad(s, i + 2);
    assert s[i..i + 4] == s[i..i + 2] + s[i + 2..i + 4];
  }

  /** The fields of a shaped string, written back with the pattern, spell out
      that string. */
  lemma SpelledFields(s: string)
    requires Shaped(s)
    ensures var f := Fields(s);
            && 0 <= f.year <= 9999 && 0 <= f.month <= 99 && 0 <= f.day <= 99
            && 0 <= f.hour <= 99 && 0 <= f.minute <= 99 && 0 <= f.second <= 99
            && Pad4(f.year) + "-" + Pad2(f.month) + "-" + Pad2(f.day) + "T"
               + Pad2(f.hour) + ":" + Pad2(f.minute) + ":" + Pad2(f.second) + "Z" == s
  {
    var f := Fields(s);
    assert IsDigitPosition(0) && IsDigitPosition(1) && IsDigitPosition(2) && IsDigitPosition(3);
    assert IsDigitPosition(5) && IsDigitPosition(6) && IsDigitPosition(8) && IsDigitPosition(9);
    assert IsDigitPosition(11) && IsDigitPosition(12) && IsDigitPosition(14) && IsDigitPosition(15);
    assert IsDigitPosition(17) && IsDigitPosition(18);
    Num4Pad(s, 0);
    Num2Pad(s, 5);
    Num2Pad(s, 8);
    Num2Pad(s, 11);
    Num2Pad(s, 14);
    Num2Pad(s, 17);
    var date := Pad4(f.year) + "-" + Pad2(f.month) + "-" + Pad2(f.day);
    var time := "T" + Pad2(f.hour) + ":" + Pad2(f.minute) + ":" + Pad2(f.second) + "Z";
    assert date == s[..10] by {
      assert s[..10] == s[0..4] + [s[4]] + s[5..7] + [s[7]] + s[8..10];
    }
    assert time == s[10..] by {
      assert s[10..] == [s[10]] + s[11..13] + [s[13]] + s[14..16] + [s[16]] + s[17..19] + [s[19]];
    }
    assert s == s[..10] + s[10..];
  }

  /** A string that parses is exactly the formatting of what it parses to. */
  lemma FormatParse(s: string)
    requires Parse(s).Ok?
    ensures Format(Parse(s).value) == s
  {
    SpelledFields(s);
  }

  // Examples the test suite relies on.

  lemma ParseSpaceCreated()
    ensures Parse("2013-01-01T00:00:00Z") == Ok(DateTime(2013, 1, 1, 0, 0, 0))
  {
    var t: Timestamp := DateTime(2013, 1, 1, 0, 0, 0);
    assert Pad4(2013) == "2013" && Pad2(1) == "01" && Pad2(0) == "00";
    assert Format(t) == "2013-01-01T00:00:00Z";
    ParseFormat(t);
  }

  lemma FormatSpaceUpdated()
    ensures Format(DateTime(2022, 12, 31, 23, 59, 59)) == "2022-12-31T23:59:59Z"
  {
    assert Pad4(2022) == "2022" && Pad2(12) == "12" && Pad2(31) == "31";
    assert Pad2(23) == "23" && Pad2(59) == "59";
    var date := Pad4(2022) + "-" + Pad2(12) + "-" + Pad2(31);
    var time := "T" + Pad2(23) + ":" + Pad2(59) + ":" + Pad2(59) + "Z";
    assert date == "2022-12-31";
    assert time == "T23:59:59Z";
    assert Format(DateTime(2022, 12, 31, 23, 59, 59)) == date + time;
  }

  lemma ParseSpaceUpdated()
    ensures Parse("2022-12-31T23:59:59Z") == Ok(DateTime(2022, 12, 31, 23, 59, 59))
  {
    FormatSpaceUpdated();
    ParseFormat(DateTime(2022, 12, 31, 23, 59, 59));
  }

  lemma ParseAttachmentCreated()
    ensures Parse("2014-01-06T11:10:45Z") == Ok(DateTime(2014, 1, 6, 11, 10, 45))
  {
    var t: Timestamp := DateTime(2014, 1, 6, 11, 10, 45);
    assert Pad4(2014) == "2014" && Pad2(1) == "01" && Pad2(6) == "06";
    assert Pad2(11) == "11" && Pad2(10) == "10" && Pad2(45) == "45";
    assert Format(t) == "2014-01-06T11:10:45Z";
    ParseFormat(t);
  }

  lemma ParseStarCreated()
    ensures Parse("2014-01-23T10:55:19Z") == Ok(DateTime(2014, 1, 23, 10, 55, 19))
  {
    var t: Timestamp := DateTime(2014, 1, 23, 10, 55, 19);
    assert Pad4(2014) == "2014" && Pad2(1) == "01" && Pad2(23) == "23";
    assert Pad2(10) == "10" && Pad2(55) == "55" && Pad2(19) == "19";
    assert Format(t) == "2014-01-23T10:55:19Z";
    ParseFormat(t);
  }

  /** A date that does not exist is refused even though it has the right shape. */
  lemma ParseRejectsImpossibleDates()
    ensures Parse("2023-02-29T00:00:00Z").Err?
    ensures Parse("2022-12-31T24:00:00Z").Err?
    ensures Parse("2022-12-31T23:59:60Z").Err?
  {
    var s := "2023-02-29T00:00:00Z";
    assert Shaped(s) ==> Fields(s) == DateTime(2023, 2, 29, 0, 0, 0);
    var s2 := "2022-12-31T24:00:00Z";
    assert Shaped(s2) ==> Fields(s2).hour == 24;
    var s3 := "2022-12-31T23:59:60Z";
    assert Shaped(s3) ==> Fields(s3).second == 60;
  }
}
