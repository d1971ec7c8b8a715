/** The "YYYY-MM" month key: how it is printed from a year and a month index,
    and how the views read it back (split at '-' and apply `Number` to the
    two parts). */
module Formatters {
  import opened Wrappers

  /** A year and a 1-based month, as read back from a key. */
  datatype YearMonth = YearMonth(year: int, month: int)

  predicate IsDigit(c: char) {
    '0' <= c <= '9'
  }

  predicate AllDigits(s: string) {
    forall i :: 0 <= i < |s| ==> IsDigit(s[i])
  }

  function DigitChar(d: nat): (c: char)
    requires d < 10
    ensures IsDigit(c) && (c as int) - ('0' as int) == d
  {
    (('0' as int) + d) as char
  }

  /** The number a string of decimal digits denotes; the empty string is 0. */
  function DigitsValue(s: string): nat
    requires AllDigits(s)
  {
    if |s| == 0 then 0
    else DigitsValue(s[..|s| - 1]) * 10 + ((s[|s| - 1] as int) - ('0' as int))
  }

  /** Decimal rendering of a natural number (what a template literal prints). */
  function NatToString(n: nat): (s: string)
    ensures 1 <= |s| && AllDigits(s)
    ensures DigitsValue(s) == n
    ensures n < 10 <==> |s| == 1
  {
    if n < 10 then [DigitChar(n)]
    else
      var s := NatToString(n / 10) + [DigitChar(n % 10)];
      assert s[..|s| - 1] == NatToString(n / 10);
      s
  }

  /** Decimal rendering of an integer: a minus sign before negative ones. */
  function IntToString(i: int): (s: string)
    ensures i >= 0 ==> AllDigits(s) && DigitsValue(s) == i
    ensures i < 0 ==> |s| >= 2 && s[0] == '-' && AllDigits(s[1..]) && DigitsValue(s[1..]) == -i
  {
    if i < 0 then "-" + NatToString(-i) else NatToString(i)
  }

  /** `String(s).padStart(2, '0')`. */
  function PadStart2(s: string): (r: string)
    ensures |s| >= 2 ==> r == s
    ensures |s| < 2 ==> |r| == 2 && r[2 - |s|..] == s
    ensures |s| < 2 ==> forall i :: 0 <= i < 2 - |s| ==> r[i] == '0'
  {
    if |s| >= 2 then s else seq(2 - |s|, _ => '0') + s
  }

  /** Leading zeros do not change the value of a digit string. */
  lemma {:induction false} LeadingZeroValue(s: string)
    requires AllDigits(s)
    ensures AllDigits(['0'] + s) && DigitsValue(['0'] + s) == DigitsValue(s)
    decreases |s|
  {
    var t := ['0'] + s;
    if |s| > 0 {
      assert t[..|t| - 1] == ['0'] + s[..|s| - 1];
      LeadingZeroValue(s[..|s| - 1]);
    }
  }

  /** A day or month number padded to two digits, as both keys use it. */
  function TwoDigits(n: nat): (r: string)
    requires n < 100
    ensures |r| == 2 && AllDigits(r)
    ensures DigitsValue(r) == n
  {
    var s := NatToString(n);
    if |s| == 1 then
      LeadingZeroValue(s);
      assert PadStart2(s) == ['0'] + s;
      PadStart2(s)
    else
      PadStart2(s)
  }

  /** getMonthYearKey: the year, a dash and the 1-based month on two digits. */
  function MonthYearKey(year: int, monthIndex: int): (k: string)
    requires 0 <= monthIndex <= 11
    ensures |k| >= 4 && k[|k| - 3] == '-'
    ensures k[..|k| - 3] == IntToString(year)
    ensures AllDigits(k[|k| - 2..])
    ensures 1 <= DigitsValue(k[|k| - 2..]) <= 12
    ensures DigitsValue(k[|k| - 2..]) == monthIndex + 1
  {
    var k := IntToString(year) + "-" + TwoDigits(monthIndex + 1);
    assert k[|k| - 2..] == TwoDigits(monthIndex + 1);
    assert k[..|k| - 3] == IntToString(year);
    k
  }

  /** `s.split(sep)`: the pieces between separators, empty ones included. */
  function Split(s: string, sep: char): (parts: seq<string>)
    ensures |parts| >= 1
  {
    if |s| == 0 then [""]
    else
      var rest := Split(s[1..], sep);
      if s[0] == sep then [""] + rest else [[s[0]] + rest[0]] + rest[1..]
  }

  /** `Number(s)` on the strings a key can hold: a digit string (the empty
      string reads as 0); anything else is NaN, here None. */
  function JsNumber(s: string): (r: Option<int>)
    ensures r.Some? <==> AllDigits(s)
    ensures r.Some? ==> r.value >= 0
  {
    if AllDigits(s) then Some(DigitsValue(s)) else None
  }

  /** `key.split('-').map(Number)` destructured into year and month; None
      stands for a NaN in either place. */
  function ParseMonthKey(key: string): (r: Option<YearMonth>)
    ensures r.Some? ==> r.value.year >= 0 && r.value.month >= 0
  {
    var parts := Split(key, '-');
    if |parts| < 2 then None
    else
      match (JsNumber(parts[0]), JsNumber(parts[1]))
      case (Some(y), Some(m)) => Some(YearMonth(y, m))
      case _ => None
  }

  lemma {:induction false} SplitNoSeparator(s: string, sep: char)
    requires sep !in s
    ensures Split(s, sep) == [s]
    decreases |s|
  {
    if |s| > 0 {
      SplitNoSeparator(s[1..], sep);
      assert [s[0]] + s[1..] == s;
    }
  }

  lemma {:induction false} SplitAtSeparator(a: string, b: string, sep: char)
    requires sep !in a && sep !in b
    ensures Split(a + [sep] + b, sep) == [a, b]
    decreases |a|
  {
    var s := a + [sep] + b;
    if |a| == 0 {
      assert s[1..] == b;
      SplitNoSeparator(b, sep);
    } else {
      assert s[1..] == a[1..] + [sep] + b;
      SplitAtSeparator(a[1..], b, sep);
      assert [a[0]] + a[1..] == a;
    }
  }

  /** A key is read exactly when it has a dash and digit strings on both
      sides of the first one; in particular a key without a dash is NaN. */
  lemma ParseMonthKeyAccepts(key: string)
    ensures var parts := Split(key, '-');
            ParseMonthKey(key).Some? <==> |parts| >= 2 && AllDigits(parts[0]) && AllDigits(parts[1])
    ensures '-' !in key ==> ParseMonthKey(key).None?
  {
    if '-' !in key {
      SplitNoSeparator(key, '-');
    }
  }

  /** Reading a key back recovers the year and the 1-based month, for every
      year a calendar date of the common era has. */
  lemma KeyRoundTrip(year: int, monthIndex: int)
    requires year >= 0 && 0 <= monthIndex <= 11
    ensures ParseMonthKey(MonthYearKey(year, monthIndex)) == Some(YearMonth(year, monthIndex + 1))
  {
    var y := IntToString(year);
    var m := TwoDigits(monthIndex + 1);
    assert MonthYearKey(year, monthIndex) == y + ['-'] + m;
    assert '-' !in y by { assert AllDigits(y); }
    assert '-' !in m by { assert AllDigits(m); }
    SplitAtSeparator(y, m, '-');
  }
}
