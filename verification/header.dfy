/** Month navigation: the previous/next buttons parse the active key, build
    `new Date(year, month ± 1 - 1, 1)` and print the resulting key. */
module Header {
  import opened Wrappers
  import opened Formatters

  /** What the buttons produce when the active key does not parse. */
  const INVALID_KEY: string := "NaN-NaN"

  /** The Date constructor's month carry: month index `mi` (any integer) of
      year `y` is the 1-based month `month` of year `year`. */
  function Normalize(y: int, mi: int): (r: YearMonth)
    ensures 1 <= r.month <= 12
    ensures r.year * 12 + (r.month - 1) == y * 12 + mi
  {
    YearMonth(y + mi / 12, mi % 12 + 1)
  }

  /** The month after a valid (year, month). */
  function NextMonth(ym: YearMonth): (r: YearMonth)
    requires 1 <= ym.month <= 12
    ensures ym.month == 12 ==> r == YearMonth(ym.year + 1, 1)
    ensures ym.month < 12 ==> r == YearMonth(ym.year, ym.month + 1)
  {
    Normalize(ym.year, ym.month)
  }

  /** The month before a valid (year, month). */
  function PrevMonth(ym: YearMonth): (r: YearMonth)
    requires 1 <= ym.month <= 12
    ensures ym.month == 1 ==> r == YearMonth(ym.year - 1, 12)
    ensures ym.month > 1 ==> r == YearMonth(ym.year, ym.month - 1)
  {
    Normalize(ym.year, ym.month - 2)
  }

  lemma PrevOfNext(ym: YearMonth)
    requires 1 <= ym.month <= 12
    ensures PrevMonth(NextMonth(ym)) == ym
  {
  }

  lemma NextOfPrev(ym: YearMonth)
    requires 1 <= ym.month <= 12
    ensures NextMonth(PrevMonth(ym)) == ym
  {
  }

  function KeyOf(ym: YearMonth): string
    requires 1 <= ym.month <= 12
  {
    MonthYearKey(ym.year, ym.month - 1)
  }

  /** The year the Date constructor actually uses: as written, the source
      hands the parsed year straight to it, and it reads 0..99 as 1900..1999. */
  function DateConstructorYear(y: int): (r: int)
    ensures 0 <= y <= 99 ==> r == 1900 + y
    ensures (y < 0 || y > 99) ==> r == y
  {
    if 0 <= y <= 99 then 1900 + y else y
  }

  /** handlePrevMonth as written. */
  function PrevKeyAsWritten(key: string): (r: string)
    ensures ParseMonthKey(key).None? ==> r == INVALID_KEY
    ensures ParseMonthKey(key).Some? && 1 <= ParseMonthKey(key).value.month <= 12 ==>
              r == KeyOf(PrevMonth(ParseMonthKey(key).value.(year := DateConstructorYear(ParseMonthKey(key).value.year))))
  {
    match ParseMonthKey(key)
    case None => INVALID_KEY
    case Some(ym) =>
      var d := ym.(year := DateConstructorYear(ym.year));
      assert 1 <= d.month <= 12 ==> PrevMonth(d) == Normalize(d.year, d.month - 2);
      KeyOf(Normalize(d.year, d.month - 2))
  }

  /** handleNextMonth as written. */
  function NextKeyAsWritten(key: string): (r: string)
    ensures ParseMonthKey(key).None? ==> r == INVALID_KEY
    ensures ParseMonthKey(key).Some? && 1 <= ParseMonthKey(key).value.month <= 12 ==>
              r == KeyOf(NextMonth(ParseMonthKey(key).value.(year := DateConstructorYear(ParseMonthKey(key).value.year))))
  {
    match ParseMonthKey(key)
    case None => INVALID_KEY
    case Some(ym) =>
      var d := ym.(year := DateConstructorYear(ym.year));
      assert 1 <= d.month <= 12 ==> NextMonth(d) == Normalize(d.year, d.month);
      KeyOf(Normalize(d.year, d.month))
  }

  /** handlePrevMonth with the year kept as parsed. */
  function PrevKey(key: string): (r: string)
    ensures ParseMonthKey(key).None? ==> r == INVALID_KEY
    ensures ParseMonthKey(key).Some? && 1 <= ParseMonthKey(key).value.month <= 12 ==>
              r == KeyOf(PrevMonth(ParseMonthKey(key).value))
  {
    match ParseMonthKey(key)
    case None => INVALID_KEY
    case Some(ym) =>
      assert 1 <= ym.month <= 12 ==> PrevMonth(ym) == Normalize(ym.year, ym.month - 2);
      KeyOf(Normalize(ym.year, ym.month - 2))
  }

  /** handleNextMonth with the year kept as parsed. */
  function NextKey(key: string): (r: string)
    ensures ParseMonthKey(key).None? ==> r == INVALID_KEY
    ensures ParseMonthKey(key).Some? && 1 <= ParseMonthKey(key).value.month <= 12 ==>
              r == KeyOf(NextMonth(ParseMonthKey(key).value))
  {
    match ParseMonthKey(key)
    case None => INVALID_KEY
    case Some(ym) =>
      assert 1 <= ym.month <= 12 ==> NextMonth(ym) == Normalize(ym.year, ym.month);
      KeyOf(Normalize(ym.year, ym.month))
  }

  /** On a well-formed key the buttons print the calendar neighbour, and the
      printed key has a two-digit month in 01..12. */
  lemma NavigationOnKeys(ym: YearMonth)
    requires ym.year >= 0 && 1 <= ym.month <= 12
    ensures NextKey(KeyOf(ym)) == KeyOf(NextMonth(ym))
    ensures PrevKey(KeyOf(ym)) == KeyOf(PrevMonth(ym))
  {
    KeyParses(ym);
  }

  lemma KeyParses(ym: YearMonth)
    requires ym.year >= 0 && 1 <= ym.month <= 12
    ensures ParseMonthKey(KeyOf(ym)) == Some(ym)
  {
    KeyRoundTrip(ym.year, ym.month - 1);
  }

  /** Next then previous returns to the same key. */
  lemma PrevKeyOfNextKey(ym: YearMonth)
    requires ym.year >= 0 && 1 <= ym.month <= 12
    ensures PrevKey(NextKey(KeyOf(ym))) == KeyOf(ym)
  {
    NavigationOnKeys(ym);
    NavigationOnKeys(NextMonth(ym));
    PrevOfNext(ym);
  }

  /** Previous then next returns to the same key, as long as the previous
      month is still in a non-negative year (a negative year prints a second
      dash, which the split does not read back). */
  lemma NextKeyOfPrevKey(ym: YearMonth)
    requires 1 <= ym.month <= 12
    requires ym.year >= 1 || (ym.year == 0 && ym.month > 1)
    ensures NextKey(PrevKey(KeyOf(ym))) == KeyOf(ym)
  {
    NavigationOnKeys(ym);
    NavigationOnKeys(PrevMonth(ym));
    NextOfPrev(ym);
  }

  /** From year 100 on the code as written agrees with the corrected one. */
  lemma AsWrittenAgreesFromYear100(ym: YearMonth)
    requires ym.year >= 100 && 1 <= ym.month <= 12
    ensures PrevKeyAsWritten(KeyOf(ym)) == PrevKey(KeyOf(ym))
    ensures NextKeyAsWritten(KeyOf(ym)) == NextKey(KeyOf(ym))
  {
    KeyParses(ym);
  }

  /** As written, "previous" from December of year 99 lands in November 1999,
      not November 99. */
  lemma PrevKeyAsWrittenJumpsCenturies()
    ensures PrevKeyAsWritten(KeyOf(YearMonth(99, 12))) == KeyOf(YearMonth(1999, 11))
    ensures PrevKey(KeyOf(YearMonth(99, 12))) == KeyOf(YearMonth(99, 11))
    ensures KeyOf(YearMonth(1999, 11)) != KeyOf(YearMonth(99, 11))
  {
    PrevOfDecember99AsWritten();
    PrevOfDecember99();
    DistinctMonthsHaveDistinctKeys(YearMonth(1999, 11), YearMonth(99, 11));
  }

  /** As written, the previous month of December 99 is November 1999. */
  lemma PrevOfDecember99AsWritten()
    ensures PrevKeyAsWritten(KeyOf(YearMonth(99, 12))) == KeyOf(YearMonth(1999, 11))
  {
    var dec := YearMonth(99, 12);
    KeyParses(dec);
    assert ParseMonthKey(KeyOf(dec)) == Some(dec);
    var d := dec.(year := DateConstructorYear(dec.year));
    assert d == YearMonth(1999, 12);
    assert PrevMonth(d) == YearMonth(1999, 11);
  }

  /** Corrected, the previous month of December 99 is November 99. */
  lemma PrevOfDecember99()
    ensures PrevKey(KeyOf(YearMonth(99, 12))) == KeyOf(YearMonth(99, 11))
  {
    var dec := YearMonth(99, 12);
    KeyParses(dec);
    assert ParseMonthKey(KeyOf(dec)) == Some(dec);
    assert PrevMonth(dec) == YearMonth(99, 11);
  }

  /** Different months of the common era print different keys. */
  lemma DistinctMonthsHaveDistinctKeys(a: YearMonth, b: YearMonth)
    requires a.year >= 0 && 1 <= a.month <= 12
    requires b.year >= 0 && 1 <= b.month <= 12
    requires a != b
    ensures KeyOf(a) != KeyOf(b)
  {
    KeyParses(a);
    KeyParses(b);
  }
}
