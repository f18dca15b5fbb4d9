/** The date check of the validation rule: `datetime.strptime(date, "%Y-%m-%d")`.

    CPython's strptime turns the format into a regular expression, matches it at the start
    of the string, fails when characters remain, and then builds a `datetime.date`, which
    refuses year 0 and days past the end of the month. The directives used here match:
      %Y  exactly four digits
      %m  `1[0-2]`, `0[1-9]` or `[1-9]`          (a one-digit month is accepted)
      %d  `3[01]`, `[12]\d`, `0[1-9]`, `[1-9]` or a space then `[1-9]`
    Between them stand the literal `-` of the format. */
module Dates {
  import opened Records

  datatype Date = Date(year: int, month: int, day: int)

  predicate IsLeapYear(y: int) {
    y % 4 == 0 && (y % 100 != 0 || y % 400 == 0)
  }

  function DaysInMonth(y: int, m: int): (n: int)
    requires 1 <= m <= 12
    ensures 28 <= n <= 31
    ensures n == 29 <==> m == 2 && IsLeapYear(y)
    ensures n == 28 <==> m == 2 && !IsLeapYear(y)
    ensures n == 31 <==> m in {1, 3, 5, 7, 8, 10, 12}
  {
    if m == 2 then (if IsLeapYear(y) then 29 else 28)
    else if m == 4 || m == 6 || m == 9 || m == 11 then 30
    else 31
  }

  /** A date `datetime.date` accepts with a year of at most four digits. */
  predicate IsCalendarDate(d: Date) {
    1 <= d.year <= 9999 && 1 <= d.month <= 12 && 1 <= d.day <= DaysInMonth(d.year, d.month)
  }

  predicate IsDigit(c: char) { '0' <= c <= '9' }

  function DigitValue(c: char): (v: int)
    requires IsDigit(c)
    ensures 0 <= v <= 9
  {
    c as int - '0' as int
  }

  function DigitChar(v: int): (c: char)
    requires 0 <= v <= 9
    ensures IsDigit(c) && DigitValue(c) == v
  {
    ('0' as int + v) as char
  }

  function Pad2(n: int): (t: string)
    requires 0 <= n <= 99
    ensures |t| == 2 && IsDigit(t[0]) && IsDigit(t[1])
  {
    [DigitChar(n / 10), DigitChar(n % 10)]
  }

  function Pad4(n: int): (t: string)
    requires 0 <= n <= 9999
    ensures |t| == 4 && IsDigit(t[0]) && IsDigit(t[1]) && IsDigit(t[2]) && IsDigit(t[3])
  {
    Pad2(n / 100) + Pad2(n % 100)
  }

  /** The three ways the month and day directives let a number be written: two digits with
      a leading zero, one digit alone, or (for the day only) a space then one digit. */
  datatype FieldForm = Padded | Bare | SpacePadded

  predicate FormFits(v: int, form: FieldForm) {
    match form
    case Padded => 0 <= v <= 99
    case Bare => 1 <= v <= 9
    case SpacePadded => 1 <= v <= 9
  }

  function SpellField(v: int, form: FieldForm): (t: string)
    requires FormFits(v, form)
  {
    match form
    case Padded => Pad2(v)
    case Bare => [DigitChar(v)]
    case SpacePadded => [' ', DigitChar(v)]
  }

  /** The form a token is written in, read off its shape. */
  function FormOf(t: string): FieldForm {
    if |t| == 1 then Bare else if |t| == 2 && t[0] == ' ' then SpacePadded else Padded
  }

  /** Two digits read as a number and written back with Pad2 give the same two characters. */
  lemma Pad2OfDigits(a: char, b: char)
    requires IsDigit(a) && IsDigit(b)
    ensures Pad2(10 * DigitValue(a) + DigitValue(b)) == [a, b]
  {
  }

  /** `%Y`: the whole token is four digits, and the value is the number they spell. */
  function ParseYear(t: string): (r: Option<int>)
    ensures r.Some? <==> |t| == 4 && IsDigit(t[0]) && IsDigit(t[1]) && IsDigit(t[2]) && IsDigit(t[3])
    ensures r.Some? ==> 0 <= r.value <= 9999 && t == Pad4(r.value)
  {
    if |t| == 4 && IsDigit(t[0]) && IsDigit(t[1]) && IsDigit(t[2]) && IsDigit(t[3]) then
      var hi, lo := 10 * DigitValue(t[0]) + DigitValue(t[1]), 10 * DigitValue(t[2]) + DigitValue(t[3]);
      Pad2OfDigits(t[0], t[1]);
      Pad2OfDigits(t[2], t[3]);
      assert (100 * hi + lo) / 100 == hi && (100 * hi + lo) % 100 == lo;
      Some(100 * hi + lo)
    else None
  }

  /** `%m`: the whole token is one of `1[0-2]`, `0[1-9]`, `[1-9]`; that is, a month written
      with two digits or, below 10, with one. */
  function ParseMonth(t: string): (r: Option<int>)
    ensures r.Some? ==> 1 <= r.value <= 12 && FormOf(t) != SpacePadded
    ensures r.Some? ==> FormFits(r.value, FormOf(t)) && t == SpellField(r.value, FormOf(t))
  {
    if |t| == 2 && t[0] == '1' && '0' <= t[1] <= '2' then
      Pad2OfDigits(t[0], t[1]);
      Some(10 + DigitValue(t[1]))
    else if |t| == 2 && t[0] == '0' && '1' <= t[1] <= '9' then
      Pad2OfDigits(t[0], t[1]);
      Some(DigitValue(t[1]))
    else if |t| == 1 && '1' <= t[0] <= '9' then Some(DigitValue(t[0]))
    else None
  }

  /** `%d`: the whole token is one of `3[01]`, `[12]\d`, `0[1-9]`, `[1-9]`, ` [1-9]`; that is,
      a day written with two digits or, below 10, with one digit alone or after a space. */
  function ParseDay(t: string): (r: Option<int>)
    ensures r.Some? ==> 1 <= r.value <= 31 && FormFits(r.value, FormOf(t)) && t == SpellField(r.value, FormOf(t))
  {
    if |t| == 2 && t[0] == '3' && '0' <= t[1] <= '1' then
      Pad2OfDigits(t[0], t[1]);
      Some(30 + DigitValue(t[1]))
    else if |t| == 2 && '1' <= t[0] <= '2' && IsDigit(t[1]) then
      Pad2OfDigits(t[0], t[1]);
      Some(10 * DigitValue(t[0]) + DigitValue(t[1]))
    else if |t| == 2 && t[0] == '0' && '1' <= t[1] <= '9' then
      Pad2OfDigits(t[0], t[1]);
      Some(DigitValue(t[1]))
    else if |t| == 1 && '1' <= t[0] <= '9' then Some(DigitValue(t[0]))
    else if |t| == 2 && t[0] == ' ' && '1' <= t[1] <= '9' then Some(DigitValue(t[1]))
    else None
  }

  /** Every four-digit year is read back. */
  lemma ParseYearComplete(y: int)
    requires 0 <= y <= 9999
    ensures ParseYear(Pad4(y)) == Some(y)
  {
  }

  /** Every spelling of every month is accepted as that month. */
  lemma ParseMonthComplete(m: int, form: FieldForm)
    requires 1 <= m <= 12 && form != SpacePadded && FormFits(m, form)
    ensures ParseMonth(SpellField(m, form)) == Some(m)
  {
  }

  /** Every spelling of every day of the month is accepted as that day. */
  lemma ParseDayComplete(d: int, form: FieldForm)
    requires 1 <= d <= 31 && FormFits(d, form)
    ensures ParseDay(SpellField(d, form)) == Some(d)
  {
  }

  /** Where the month token ends in `rest` (the text after the year's `-`): the month
      alternatives are one or two characters long and none contains `-`, so the token is
      everything up to the next `-` at position 1 or 2, and 0 means there is none. */
  function MonthLength(rest: string): (k: nat)
    ensures k == 0 || (k <= 2 && k < |rest| && rest[k] == '-')
  {
    if |rest| >= 2 && rest[1] == '-' then 1
    else if |rest| >= 3 && rest[2] == '-' then 2
    else 0
  }

  /** `datetime.strptime(s, "%Y-%m-%d")`: the parsed date, or None where it raises ValueError. */
  function ParseDate(s: string): (r: Option<Date>)
    ensures r.Some? ==> IsCalendarDate(r.value)
    ensures r.Some? ==> 8 <= |s| <= 10 && s[4] == '-'
  {
    if |s| < 5 || s[4] != '-' then None
    else
      var rest := s[5..];
      var k := MonthLength(rest);
      if k == 0 then None
      else
        var y, m, d := ParseYear(s[..4]), ParseMonth(rest[..k]), ParseDay(rest[k + 1..]);
        if y.None? || m.None? || d.None? then None
        else if !IsCalendarDate(Date(y.value, m.value, d.value)) then None
        else Some(Date(y.value, m.value, d.value))
  }

  predicate IsValidDate(s: string) {
    ParseDate(s).Some?
  }

  /** The forms a date may be written in: the month in either of its forms, the day in any. */
  predicate DateFormsFit(d: Date, mf: FieldForm, df: FieldForm) {
    mf != SpacePadded && FormFits(d.month, mf) && FormFits(d.day, df)
  }

  /** A spelling of a date: the four-digit year, then the month and day in the given forms. */
  function SpellDate(d: Date, mf: FieldForm, df: FieldForm): (s: string)
    requires IsCalendarDate(d) && DateFormsFit(d, mf, df)
  {
    Pad4(d.year) + "-" + SpellField(d.month, mf) + "-" + SpellField(d.day, df)
  }

  /** The canonical `YYYY-MM-DD` text of a date. */
  function FormatDate(d: Date): (s: string)
    requires IsCalendarDate(d)
    ensures |s| == 10 && s[4] == '-' && s[7] == '-'
  {
    SpellDate(d, Padded, Padded)
  }

  /** Every spelling of every calendar date is accepted, as that date. */
  lemma ParseSpelledDate(d: Date, mf: FieldForm, df: FieldForm)
    requires IsCalendarDate(d) && DateFormsFit(d, mf, df)
    ensures ParseDate(SpellDate(d, mf, df)) == Some(d)
  {
    var mt, dt := SpellField(d.month, mf), SpellField(d.day, df);
    var s := SpellDate(d, mf, df);
    var rest := s[5..];
    assert s[..4] == Pad4(d.year) && s[4] == '-';
    assert rest == mt + "-" + dt;
    assert MonthLength(rest) == |mt|;
    assert rest[..|mt|] == mt && rest[|mt| + 1..] == dt;
    ParseYearComplete(d.year);
    ParseMonthComplete(d.month, mf);
    ParseDayComplete(d.day, df);
  }

  /** Every accepted string is a spelling of the date it parses to. */
  lemma ParsedDateIsSpelling(s: string) returns (mf: FieldForm, df: FieldForm)
    requires IsValidDate(s)
    ensures DateFormsFit(ParseDate(s).value, mf, df) && s == SpellDate(ParseDate(s).value, mf, df)
  {
    var rest := s[5..];
    var k := MonthLength(rest);
    var mt, dt := rest[..k], rest[k + 1..];
    mf, df := FormOf(mt), FormOf(dt);
    assert s == s[..4] + "-" + mt + "-" + dt;
  }

  /** Every calendar date written in the canonical form parses back to itself. */
  lemma ParseFormatRoundTrip(d: Date)
    requires IsCalendarDate(d)
    ensures ParseDate(FormatDate(d)) == Some(d)
  {
    ParseSpelledDate(d, Padded, Padded);
  }

  /** An accepted ten-character string without the space-padded day is the canonical text
      of the date it parses to. */
  lemma FormatParseRoundTrip(s: string)
    requires IsValidDate(s) && |s| == 10 && s[8] != ' '
    ensures FormatDate(ParseDate(s).value) == s
  {
    var mf, df := ParsedDateIsSpelling(s);
    var d := ParseDate(s).value;
    assert |SpellField(d.month, mf)| + |SpellField(d.day, df)| == 4;
    assert mf == Padded;
    assert df == Padded;
  }

  /** The format lets one-digit months and days through, and a space before a one-digit day. */
  lemma ShortFieldsAccepted()
    ensures ParseDate("2026-1-5") == Some(Date(2026, 1, 5))
    ensures ParseDate("2026-12- 5") == Some(Date(2026, 12, 5))
  {
    assert SpellDate(Date(2026, 1, 5), Bare, Bare) == "2026-1-5";
    ParseSpelledDate(Date(2026, 1, 5), Bare, Bare);
    assert SpellDate(Date(2026, 12, 5), Padded, SpacePadded) == "2026-12- 5";
    ParseSpelledDate(Date(2026, 12, 5), Padded, SpacePadded);
  }

  /** February 29 exists in a leap year, a century year being one when divisible by 400. */
  lemma LeapDayAccepted()
    ensures ParseDate("2024-02-29") == Some(Date(2024, 2, 29))
    ensures ParseDate("2000-02-29") == Some(Date(2000, 2, 29))
  {
    assert IsCalendarDate(Date(2024, 2, 29)) && IsCalendarDate(Date(2000, 2, 29));
    assert FormatDate(Date(2024, 2, 29)) == "2024-02-29";
    ParseFormatRoundTrip(Date(2024, 2, 29));
    assert FormatDate(Date(2000, 2, 29)) == "2000-02-29";
    ParseFormatRoundTrip(Date(2000, 2, 29));
  }

  /** February 29 does not exist in other years, nor in a century year not divisible by 400. */
  lemma LeapDayRefused()
    ensures ParseDate("2026-02-29") == None
    ensures ParseDate("1900-02-29") == None
  {
  }

  /** Year 0 is outside `datetime.date`'s range, and characters left after the day are refused. */
  lemma OutOfRangeExamples()
    ensures ParseDate("0000-01-01") == None
    ensures ParseDate("2026-01-270") == None
    ensures ParseDate("2026-13-01") == None
  {
  }
}
