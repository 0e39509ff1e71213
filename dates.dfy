/** The calendar's date keys: `formatDate(year, month, day)` builds the
    `YYYY-MM-DD` string that bookings store in `eventDate`, from a 0-based
    month. */
module Dates {
  import opened Types
  import opened Strings

  /** `String(n).padStart(2, '0')`: only a single digit is short of two
      characters. */
  function Pad2(n: int): string {
    if 0 <= n < 10 then "0" + IntToString(n) else IntToString(n)
  }

  /** `Pad2` is the general left padding to width two with zeros. */
  lemma Pad2IsPadStart(n: int)
    ensures Pad2(n) == PadStart(IntToString(n), 2, '0')
    ensures |Pad2(n)| >= 2
  {
    if 0 <= n < 10 {
      assert PadStart(IntToString(n), 2, '0') == "0" + IntToString(n);
    } else if n < 0 {
      assert |IntToString(n)| >= 2;
    }
  }

  /** `formatDate(year, month, day)`: for a month and day of the calendar's
      ranges, the year followed by two fixed-width fields, each after a dash. */
  function FormatDate(year: int, month: int, day: int): (r: string)
    ensures 0 <= month < 99 && 0 <= day < 100 ==>
      |r| == |IntToString(year)| + 6 && r[..|IntToString(year)|] == IntToString(year)
      && r[|IntToString(year)|] == '-' && r[|r| - 3] == '-'
  {
    IntToString(year) + "-" + Pad2(month + 1) + "-" + Pad2(day)
  }

  /** Reads a `YYYY-MM-DD` key back: a non-empty run of digits, a dash, two
      digits holding the 1-based month, a dash, two digits. */
  function ParseDate(s: string): (r: Option<(int, int, int)>)
    ensures r.Some? ==> r.value.0 >= 0 && r.value.1 >= -1 && r.value.2 >= 0
  {
    if |s| >= 7 && s[|s| - 3] == '-' && s[|s| - 6] == '-'
       && AllDigits(s[..|s| - 6]) && AllDigits(s[|s| - 5..|s| - 3]) && AllDigits(s[|s| - 2..])
    then Some((DigitsValue(s[..|s| - 6]), DigitsValue(s[|s| - 5..|s| - 3]) - 1, DigitsValue(s[|s| - 2..])))
    else None
  }

  /** A number below 100 pads to exactly two digits holding its value. */
  lemma Pad2Digits(n: nat)
    requires n < 100
    ensures |Pad2(n)| == 2 && AllDigits(Pad2(n)) && DigitsValue(Pad2(n)) == n
  {
    var s := NatToString(n);
    NatToStringRoundTrip(n);
    if n < 10 {
      assert Pad2(n) == "0" + s;
      DigitsValueLeadingZero(s);
    }
  }

  lemma {:induction false} SplitKey(y: string, m: string, d: string)
    requires |m| == 2 && |d| == 2
    ensures var s := y + "-" + m + "-" + d;
      && |s| == |y| + 6 && s[..|s| - 6] == y && s[|s| - 5..|s| - 3] == m
      && s[|s| - 2..] == d && s[|s| - 3] == '-' && s[|s| - 6] == '-'
  {
    var s := y + "-" + m + "-" + d;
    assert s[..|y|] == y;
    assert s[|y| + 1..|y| + 3] == m;
    assert s[|y| + 4..] == d;
  }

  lemma {:induction false} ParseOfParts(y: string, m: string, d: string)
    requires |y| >= 1 && |m| == 2 && |d| == 2 && AllDigits(y) && AllDigits(m) && AllDigits(d)
    ensures ParseDate(y + "-" + m + "-" + d) == Some((DigitsValue(y), DigitsValue(m) - 1, DigitsValue(d)))
  {
    var s := y + "-" + m + "-" + d;
    SplitKey(y, m, d);
    assert s[..|s| - 6] == y && s[|s| - 5..|s| - 3] == m && s[|s| - 2..] == d;
    assert AllDigits(s[..|s| - 6]) && AllDigits(s[|s| - 5..|s| - 3]) && AllDigits(s[|s| - 2..]);
    assert |s| >= 7 && s[|s| - 3] == '-' && s[|s| - 6] == '-';
  }

  /** Reading back a formatted date gives the year, the 0-based month and the
      day it was built from, for every year from 0 and every month and day
      that pad to two digits. */
  lemma FormatParseRoundTrip(year: int, month: int, day: int)
    requires 0 <= year && 0 <= month < 99 && 0 <= day < 100
    ensures ParseDate(FormatDate(year, month, day)) == Some((year, month, day))
  {
    var y := IntToString(year);
    var m := Pad2(month + 1);
    var d := Pad2(day);
    Pad2Digits(month + 1);
    Pad2Digits(day);
    NatToStringRoundTrip(year);
    assert y == NatToString(year);
    ParseOfParts(y, m, d);
  }

  /** Distinct days of the calendar get distinct keys, so a booking's date
      matches at most one cell. */
  lemma FormatDateInjective(y1: int, m1: int, d1: int, y2: int, m2: int, d2: int)
    requires 0 <= y1 && 0 <= m1 < 99 && 0 <= d1 < 100
    requires 0 <= y2 && 0 <= m2 < 99 && 0 <= d2 < 100
    ensures FormatDate(y1, m1, d1) == FormatDate(y2, m2, d2) <==> (y1, m1, d1) == (y2, m2, d2)
  {
    FormatParseRoundTrip(y1, m1, d1);
    FormatParseRoundTrip(y2, m2, d2);
  }
}
