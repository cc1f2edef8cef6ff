/**
 * Calendar dates as `datetime.strptime` reads them from a ten-character
 * match and as `strftime('%d.%m.%Y')` writes them (bot_full.py:145-155).
 */
module Dates {
  import opened Wrappers

  /** A `datetime` reduced to the fields the analyser uses. */
  datatype Date = Date(year: int, month: int, day: int)

  /** The Gregorian leap-year rule. */
  predicate IsLeapYear(y: int)
  {
    y % 4 == 0 && (y % 100 != 0 || y % 400 == 0)
  }

  /** The length of month `m` of year `y` in the Gregorian calendar. */
  function DaysInMonth(y: int, m: int): (r: int)
    requires 1 <= m <= 12
    ensures 28 <= r <= 31
    ensures r == 28 <==> m == 2 && !IsLeapYear(y)
    ensures r == 29 <==> m == 2 && IsLeapYear(y)
    ensures r == 31 <==> m in {1, 3, 5, 7, 8, 10, 12}
  {
    if m == 2 then (if IsLeapYear(y) then 29 else 28)
    else if m == 4 || m == 6 || m == 9 || m == 11 then 30
    else 31
  }

  /**
   * What `datetime` accepts: a year from 1 to 9999, a month from 1 to 12
   * and a day that exists in that month of that year.
   */
  predicate ValidDate(d: Date)
  {
    1 <= d.year <= 9999 && 1 <= d.month <= 12 && 1 <= d.day <= DaysInMonth(d.year, d.month)
  }

  /** `\d`, for ASCII digits. */
  predicate IsDigit(c: char)
  {
    '0' <= c <= '9'
  }

  predicate AllDigits(s: string)
  {
    forall i :: 0 <= i < |s| ==> IsDigit(s[i])
  }

  function DigitChar(n: nat): (c: char)
    requires n < 10
    ensures IsDigit(c)
  {
    ('0' as int + n) as char
  }

  function DigitValue(c: char): (n: nat)
    requires IsDigit(c)
    ensures n < 10 && DigitChar(n) == c
  {
    c as int - '0' as int
  }

  function Pow10(k: nat): (r: nat)
    ensures r >= 1
  {
    if k == 0 then 1 else 10 * Pow10(k - 1)
  }

  /** `int(s)` for a string of decimal digits. */
  function DigitsValue(s: string): (n: nat)
    requires AllDigits(s)
    ensures n < Pow10(|s|)
  {
    if s == [] then 0 else DigitsValue(s[..|s| - 1]) * 10 + DigitValue(s[|s| - 1])
  }

  /** Appending a digit shifts the value one place left. */
  lemma DigitsValueSnoc(s: string, c: char)
    requires AllDigits(s) && IsDigit(c)
    ensures AllDigits(s + [c]) && DigitsValue(s + [c]) == DigitsValue(s) * 10 + DigitValue(c)
  {
    assert (s + [c])[..|s|] == s;
  }

  /** `%d` and `%m` of `strftime`: two digits, zero-padded. */
  function Pad2(n: nat): (s: string)
    requires n < 100
    ensures |s| == 2 && AllDigits(s) && DigitsValue(s) == n
  {
    var s := [DigitChar(n / 10), DigitChar(n % 10)];
    assert s[..1] == [DigitChar(n / 10)];
    s
  }

  /**
   * `%Y` of `strftime` and `str(n)`: the decimal digits of `n` with no
   * leading zero (glibc does not pad years below 1000).
   */
  function DecimalString(n: nat): (s: string)
    ensures AllDigits(s) && DigitsValue(s) == n
    ensures |s| >= 1 && (|s| == 1 || s[0] != '0') && (n >= 1 ==> s[0] != '0')
    ensures 1000 <= n <= 9999 <==> |s| == 4 && s[0] != '0'
  {
    if n < 10 then
      assert [DigitChar(n)][..0] == [];
      [DigitChar(n)]
    else
      var prefix := DecimalString(n / 10);
      DigitsValueSnoc(prefix, DigitChar(n % 10));
      FourDigitsBound(prefix);
      prefix + [DigitChar(n % 10)]
  }

  /** Digit strings of three and four characters without a leading zero span exactly 100..999 and 1000..9999. */
  lemma FourDigitsBound(s: string)
    requires AllDigits(s) && |s| >= 1 && (|s| == 1 || s[0] != '0')
    ensures 100 <= DigitsValue(s) <= 999 <==> |s| == 3 && s[0] != '0'
    ensures 1000 <= DigitsValue(s) <= 9999 ==> |s| == 4
  {
    LeadingDigitBound(s);
  }

  /** A digit string without a leading zero is at least 10^(length-1). */
  lemma {:induction false} LeadingDigitBound(s: string)
    requires AllDigits(s) && |s| >= 1 && (|s| == 1 || s[0] != '0')
    ensures |s| > 1 ==> DigitsValue(s) >= Pow10(|s| - 1)
    ensures DigitsValue(s) < Pow10(|s|)
  {
    if |s| > 2 {
      var p := s[..|s| - 1];
      assert p[0] == s[0];
      LeadingDigitBound(p);
    } else if |s| == 2 {
      assert s[..1] == [s[0]];
    }
  }

  /** The two `strptime` formats the analyser uses. */
  datatype Layout =
    | DayMonthYear(sep: char)   // '%d.%m.%Y' and '%d/%m/%Y'
    | YearMonthDay              // '%Y-%m-%d'

  /** The string has the layout's shape: separators in place and digits elsewhere. */
  predicate Shaped(s: string, layout: Layout)
  {
    |s| == 10 &&
    match layout
    case DayMonthYear(sep) =>
      s[2] == sep && s[5] == sep && AllDigits(s[..2]) && AllDigits(s[3..5]) && AllDigits(s[6..])
    case YearMonthDay =>
      s[4] == '-' && s[7] == '-' && AllDigits(s[..4]) && AllDigits(s[5..7]) && AllDigits(s[8..])
  }

  /** The day, month and year fields of a shaped string. */
  function Fields(s: string, layout: Layout): Date
    requires Shaped(s, layout)
  {
    match layout
    case DayMonthYear(_) => Date(DigitsValue(s[6..]), DigitsValue(s[3..5]), DigitsValue(s[..2]))
    case YearMonthDay => Date(DigitsValue(s[..4]), DigitsValue(s[5..7]), DigitsValue(s[8..]))
  }

  /**
   * `datetime.strptime(s, format)` on the ten-character strings the date
   * patterns match: the fields must sit where the format puts them and
   * name a real calendar day; otherwise `ValueError`, here `None`.
   */
  function ParseDate(s: string, layout: Layout): (r: Option<Date>)
    ensures r.Some? ==> Shaped(s, layout) && r.value == Fields(s, layout) && ValidDate(r.value)
    ensures Shaped(s, layout) && ValidDate(Fields(s, layout)) ==> r.Some?
    ensures r.Some? ==> 1 <= r.value.day <= 31 && 1 <= r.value.month <= 12
  {
    if Shaped(s, layout) && ValidDate(Fields(s, layout)) then Some(Fields(s, layout)) else None
  }

  /** `date.strftime('%d.%m.%Y')`. */
  function FormatDate(d: Date): (s: string)
    requires ValidDate(d)
    ensures |s| >= 7 && s[2] == '.' && s[5] == '.'
    ensures |s| == 10 <==> d.year >= 1000
  {
    Pad2(d.day) + "." + Pad2(d.month) + "." + DecimalString(d.year)
  }

  /** Writing a date with a four-digit year as dd.mm.yyyy and reading it back gives the date. */
  lemma ParseFormatted(d: Date)
    requires ValidDate(d) && d.year >= 1000
    ensures Shaped(FormatDate(d), DayMonthYear('.'))
    ensures ParseDate(FormatDate(d), DayMonthYear('.')) == Some(d)
  {
    var s := FormatDate(d);
    assert s[..2] == Pad2(d.day);
    assert s[3..5] == Pad2(d.month);
    assert s[6..] == DecimalString(d.year);
  }

  /**
   * Reading dd.mm.yyyy and writing the date back gives the same text,
   * unless the year has a leading zero, which `%Y` drops.
   */
  lemma FormatParsed(s: string, d: Date)
    requires ParseDate(s, DayMonthYear('.')) == Some(d)
    ensures FormatDate(d) == s <==> s[6] != '0'
  {
    var y := s[6..];
    assert y[0] == s[6];
    assert Pad2(d.day) == s[..2] by { Pad2Unique(s[..2]); }
    assert Pad2(d.month) == s[3..5] by { Pad2Unique(s[3..5]); }
    if s[6] != '0' {
      assert DecimalString(d.year) == y by { LeadingDigitBound(y); DecimalUnique(y); }
      assert s == s[..2] + "." + s[3..5] + "." + y;
    } else {
      assert FormatDate(d)[6] != '0';
    }
  }

  /** Two digits are the zero-padded rendering of their own value. */
  lemma Pad2Unique(s: string)
    requires |s| == 2 && AllDigits(s)
    ensures Pad2(DigitsValue(s)) == s
  {
    assert s[..1] == [s[0]];
  }

  /** A non-empty string is its front followed by its last character. */
  lemma SplitLast(s: string)
    requires s != []
    ensures s == s[..|s| - 1] + [s[|s| - 1]]
  {
  }

  /** A digit string without a leading zero is the decimal rendering of its own value. */
  lemma {:induction false} DecimalUnique(s: string)
    requires AllDigits(s) && |s| >= 1 && (|s| == 1 || s[0] != '0')
    ensures DecimalString(DigitsValue(s)) == s
  {
    if |s| > 1 {
      var p := s[..|s| - 1];
      var c := s[|s| - 1];
      assert p[0] == s[0];
      LeadingDigitBound(s);
      var v := DigitsValue(s);
      assert v == DigitsValue(p) * 10 + DigitValue(c);
      assert v >= 10;
      assert v / 10 == DigitsValue(p) && v % 10 == DigitValue(c);
      DecimalUnique(p);
      assert DecimalString(v) == DecimalString(v / 10) + [DigitChar(v % 10)];
      SplitLast(s);
    } else {
      assert s == [s[0]];
    }
  }
}
