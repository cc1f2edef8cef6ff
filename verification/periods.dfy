/**
 * The period detector (`detect_periods`, bot_full.py:126-181): which
 * reporting periods the column headers of a balance sheet name.
 */
module Periods {
  import opened Wrappers
  import opened Text
  import opened Dates

  /** A detected period: the column it heads, its date, the date as dd.mm.yyyy, and its year. */
  datatype Period = Period(column: nat, date: Date, formatted: string, year: int)

  /** One position of a fixed-width date pattern. */
  datatype Slot =
    | Digit            // \d
    | AnyChar          // an unescaped '.': anything but a line break
    | Exactly(c: char) // a literal character

  type Pattern = seq<Slot>

  predicate SlotMatches(slot: Slot, c: char)
  {
    match slot
    case Digit => IsDigit(c)
    case AnyChar => c != '\n'
    case Exactly(x) => c == x
  }

  /** The pattern matches `s` at index `i`. */
  predicate MatchesAt(p: Pattern, s: string, i: int)
  {
    0 <= i && i + |p| <= |s| && forall k :: 0 <= k < |p| ==> SlotMatches(p[k], s[i + k])
  }

  /** `\d{2}.\d{2}.\d{4}`: its dots are unescaped, so any character may separate the fields. */
  const DotPattern: Pattern := [Digit, Digit, AnyChar, Digit, Digit, AnyChar, Digit, Digit, Digit, Digit]

  /** `\d{4}-\d{2}-\d{2}`. */
  const IsoPattern: Pattern := [Digit, Digit, Digit, Digit, Exactly('-'), Digit, Digit, Exactly('-'), Digit, Digit]

  /** `\d{2}/\d{2}/\d{4}`. */
  const SlashPattern: Pattern := [Digit, Digit, Exactly('/'), Digit, Digit, Exactly('/'), Digit, Digit, Digit, Digit]

  /** The date patterns, in the order they are tried. */
  const DatePatterns: seq<Pattern> := [DotPattern, IsoPattern, SlashPattern]

  /** The "за YYYY" phrases with their years, in the order they are tried. */
  const PeriodKeywords: seq<(string, string)> := [("за 2024", "2024"), ("за 2023", "2023"), ("за 2022", "2022")]

  /**
   * Where `re.findall(p, s)[0]` starts: the leftmost index, from `from`
   * on, at which the pattern matches. The patterns have a fixed width,
   * so the first match `findall` reports is the leftmost one.
   */
  function LeftmostMatch(p: Pattern, s: string, from: nat): (r: Option<nat>)
    ensures r.Some? ==> && from <= r.value && MatchesAt(p, s, r.value)
                        && forall i :: from <= i < r.value ==> !MatchesAt(p, s, i)
    ensures r.None? ==> forall i :: from <= i ==> !MatchesAt(p, s, i)
    decreases |s| - from
  {
    if from + |p| > |s| then None
    else if MatchesAt(p, s, from) then Some(from)
    else LeftmostMatch(p, s, from + 1)
  }

  /** `len(s.split(c)[0])`: the length of the part before the first `c`. */
  function SplitHeadLength(s: string, c: char): (n: nat)
    ensures n <= |s| && (n < |s| ==> s[n] == c)
    ensures forall i :: 0 <= i < n ==> s[i] != c
  {
    if s == [] || s[0] == c then 0 else 1 + SplitHeadLength(s[1..], c)
  }

  /**
   * The separator test (bot_full.py:145-150): the `strptime` format a
   * matched string is read with. `None` when no branch applies.
   */
  function ChooseLayout(m: string): (r: Option<Layout>)
    ensures r == Some(DayMonthYear('.')) <==> '.' in m && SplitHeadLength(m, '.') == 2
    ensures r == Some(YearMonthDay) <==> !('.' in m && SplitHeadLength(m, '.') == 2) && '-' in m
    ensures r == Some(DayMonthYear('/')) <==> !('.' in m && SplitHeadLength(m, '.') == 2) && '-' !in m && '/' in m
    ensures r.None? <==> !('.' in m && SplitHeadLength(m, '.') == 2) && '-' !in m && '/' !in m
  {
    if '.' in m && SplitHeadLength(m, '.') == 2 then Some(DayMonthYear('.'))
    else if '-' in m then Some(YearMonthDay)
    else if '/' in m then Some(DayMonthYear('/'))
    else None
  }

  /**
   * One pattern tried on a lower-cased, stripped header
   * (bot_full.py:141-159): its leftmost match read with the chosen
   * format. `None` when the pattern does not occur, when no separator
   * branch applies, or when the match is no calendar date; in each case
   * the header goes on to the next pattern.
   */
  function TryPattern(p: Pattern, h: string): (r: Option<Date>)
    ensures r.Some? ==> ValidDate(r.value)
  {
    match LeftmostMatch(p, h, 0)
    case None => None
    case Some(i) =>
      var m := h[i..i + |p|];
      match ChooseLayout(m)
      case None => None
      case Some(layout) => ParseDate(m, layout)
  }

  /** The date of the first pattern, from the `from`-th on, that yields one. */
  function FirstDate(h: string, from: nat): (r: Option<Date>)
    ensures r.Some? ==> ValidDate(r.value)
    ensures r.None? <==> forall k :: from <= k < |DatePatterns| ==> TryPattern(DatePatterns[k], h).None?
    ensures r.Some? ==> exists k :: && from <= k < |DatePatterns| && TryPattern(DatePatterns[k], h) == r
                                    && forall j :: from <= j < k ==> TryPattern(DatePatterns[j], h).None?
    decreases |DatePatterns| - from
  {
    if from >= |DatePatterns| then None
    else if TryPattern(DatePatterns[from], h).Some? then TryPattern(DatePatterns[from], h)
    else FirstDate(h, from + 1)
  }

  /** The first "за YYYY" phrase, from the `from`-th on, that occurs in the header. */
  function FirstKeyword(h: string, from: nat): (r: Option<nat>)
    ensures r.None? <==> forall k :: from <= k < |PeriodKeywords| ==> !IsSubstring(PeriodKeywords[k].0, h)
    ensures r.Some? ==> && from <= r.value < |PeriodKeywords| && IsSubstring(PeriodKeywords[r.value].0, h)
                        && forall j :: from <= j < r.value ==> !IsSubstring(PeriodKeywords[j].0, h)
    decreases |PeriodKeywords| - from
  {
    if from >= |PeriodKeywords| then None
    else if IsSubstring(PeriodKeywords[from].0, h) then Some(from)
    else FirstKeyword(h, from + 1)
  }

  /** The period a parsed date gives its column (bot_full.py:152-157). */
  function DatePeriod(column: nat, d: Date): (p: Period)
    requires ValidDate(d)
    ensures WellFormed(p) && p.column == column && p.date == d
  {
    Period(column, d, FormatDate(d), d.year)
  }

  /** The period the `k`-th "за YYYY" phrase gives its column (bot_full.py:170-176): 31 December of that year. */
  function KeywordPeriod(column: nat, k: nat): (p: Period)
    requires k < |PeriodKeywords|
    ensures WellFormed(p) && p.column == column
    ensures p.date == Date(2024 - k, 12, 31)
  {
    var year := PeriodKeywords[k].1;
    KeywordYearFormat(k);
    Period(column, Date(DigitsValue(year), 12, 31), "31.12." + year, DigitsValue(year))
  }

  /** "31.12." and the phrase's year text is how `strftime('%d.%m.%Y')` writes 31 December of that year. */
  lemma KeywordYearFormat(k: nat)
    requires k < |PeriodKeywords|
    ensures AllDigits(PeriodKeywords[k].1) && DigitsValue(PeriodKeywords[k].1) == 2024 - k
    ensures ValidDate(Date(2024 - k, 12, 31))
    ensures "31.12." + PeriodKeywords[k].1 == FormatDate(Date(2024 - k, 12, 31))
  {
    var last := if k == 0 then '4' else if k == 1 then '3' else '2';
    assert PeriodKeywords[k].1 == "202" + [last];
    YearTwentyValue(last);
    YearTextFormat("202" + [last], 2024 - k);
  }

  /** The digits 2, 0, 2 and one more spell 2020 plus that digit. */
  lemma YearTwentyValue(last: char)
    requires IsDigit(last)
    ensures AllDigits("202" + [last]) && DigitsValue("202" + [last]) == 2020 + DigitValue(last)
  {
    DigitsValueSnoc([], '2');
    assert "2" == [] + ['2'];
    DigitsValueSnoc("2", '0');
    assert "20" == "2" + ['0'];
    DigitsValueSnoc("20", '2');
    assert "202" == "20" + ['2'];
    DigitsValueSnoc("202", last);
  }

  /** A four-digit year text after "31.12." is how `strftime` writes 31 December of that year. */
  lemma YearTextFormat(text: string, year: nat)
    requires |text| == 4 && AllDigits(text) && text[0] != '0' && DigitsValue(text) == year
    ensures 1000 <= year <= 9999 && ValidDate(Date(year, 12, 31))
    ensures "31.12." + text == FormatDate(Date(year, 12, 31))
  {
    LeadingDigitBound(text);
    DecimalUnique(text);
    Pad2Unique("31");
    Pad2Unique("12");
  }

  /** A period's text and year agree with its date (bot_full.py:154-155, 173-174). */
  predicate WellFormed(p: Period)
  {
    ValidDate(p.date) && p.formatted == FormatDate(p.date) && p.year == p.date.year
  }

  /** The period of the first pattern that yields a date, if any. */
  function DatePart(column: nat, h: string): (r: seq<Period>)
    ensures |r| <= 1 && forall p :: p in r ==> WellFormed(p) && p.column == column
    ensures |r| == 1 <==> FirstDate(h, 0).Some?
    ensures |r| == 1 ==> r[0].date == FirstDate(h, 0).value
  {
    match FirstDate(h, 0)
    case Some(d) => [DatePeriod(column, d)]
    case None => []
  }

  /** The period of the first "за YYYY" phrase in the header, if any. */
  function KeywordPart(column: nat, h: string): (r: seq<Period>)
    ensures |r| <= 1 && forall p :: p in r ==> WellFormed(p) && p.column == column
    ensures |r| == 1 <==> FirstKeyword(h, 0).Some?
    ensures |r| == 1 ==> r[0].date == Date(2024 - FirstKeyword(h, 0).value, 12, 31)
  {
    match FirstKeyword(h, 0)
    case Some(k) => [KeywordPeriod(column, k)]
    case None => []
  }

  /**
   * The periods of one column, in the order they are appended: the date
   * of the first pattern that yields one, then the first "за YYYY"
   * phrase, which is looked for whether or not a date was found.
   */
  function HeaderPeriods(column: nat, header: string): (r: seq<Period>)
    ensures |r| <= 2
    ensures forall p :: p in r ==> WellFormed(p) && p.column == column
  {
    DatePart(column, Normalize(header)) + KeywordPart(column, Normalize(header))
  }

  /** The date of a header is that of the first pattern, in order, that reads one. */
  lemma DateFromTries(h: string)
    ensures TryPattern(DotPattern, h).Some? ==> FirstDate(h, 0) == TryPattern(DotPattern, h)
    ensures TryPattern(DotPattern, h).None? && TryPattern(IsoPattern, h).Some? ==> FirstDate(h, 0) == TryPattern(IsoPattern, h)
    ensures TryPattern(DotPattern, h).None? && TryPattern(IsoPattern, h).None? && TryPattern(SlashPattern, h).None?
            ==> FirstDate(h, 0).None?
  {
    assert DatePatterns[0] == DotPattern && DatePatterns[1] == IsoPattern && DatePatterns[2] == SlashPattern;
  }

  /** A header already in normal form is read as it stands. */
  lemma NormalHeader(column: nat, h: string)
    requires IsNormal(h)
    ensures HeaderPeriods(column, h) == DatePart(column, h) + KeywordPart(column, h)
  {
    NormalizeLowercase(h);
  }

  /** A normalised header with a date and no phrase gives that date's period alone. */
  lemma DateOnlyHeader(column: nat, h: string, d: Date)
    requires IsNormal(h) && FirstDate(h, 0) == Some(d) && FirstKeyword(h, 0).None?
    ensures HeaderPeriods(column, h) == [DatePeriod(column, d)]
  {
    NormalHeader(column, h);
  }

  /** A normalised header with neither a date nor a phrase gives no period. */
  lemma EmptyHeader(column: nat, h: string)
    requires IsNormal(h) && FirstDate(h, 0).None? && FirstKeyword(h, 0).None?
    ensures HeaderPeriods(column, h) == []
  {
    NormalHeader(column, h);
  }

  /** Adding a column adds that column's periods at the end. */
  lemma CollectedStep(headers: seq<string>, column: nat)
    requires column < |headers|
    ensures Collected(headers[..column + 1]) == Collected(headers[..column]) + HeaderPeriods(column, headers[column])
  {
    assert headers[..column + 1][..column] == headers[..column];
  }

  /** The periods of all columns, in column order, before sorting. */
  function Collected(headers: seq<string>): (r: seq<Period>)
    ensures forall p :: p in r ==> WellFormed(p) && p.column < |headers|
  {
    if headers == [] then []
    else Collected(headers[..|headers| - 1]) + HeaderPeriods(|headers| - 1, headers[|headers| - 1])
  }

  /** Periods are in non-decreasing year order. */
  predicate SortedByYear(s: seq<Period>)
  {
    forall i, j :: 0 <= i < j < |s| ==> s[i].year <= s[j].year
  }

  /** The periods of year `y`, in their order in `s`. */
  function OfYear(s: seq<Period>, y: int): (r: seq<Period>)
    ensures forall p :: p in r <==> p in s && p.year == y
  {
    if s == [] then []
    else OfYear(s[..|s| - 1], y) + (if s[|s| - 1].year == y then [s[|s| - 1]] else [])
  }

  /** `x` placed after every period whose year is not above its own. */
  function InsertByYear(s: seq<Period>, x: Period): (r: seq<Period>)
    ensures multiset(r) == multiset(s) + multiset{x}
  {
    if s == [] || s[|s| - 1].year <= x.year then s + [x]
    else
      assert s == s[..|s| - 1] + [s[|s| - 1]];
      InsertByYear(s[..|s| - 1], x) + [s[|s| - 1]]
  }

  /** Inserting into a sorted sequence keeps it sorted. */
  lemma {:induction false} InsertKeepsSorted(s: seq<Period>, x: Period)
    requires SortedByYear(s)
    ensures SortedByYear(InsertByYear(s, x))
  {
    if s == [] || s[|s| - 1].year <= x.year {
    } else {
      var init := s[..|s| - 1];
      var last := s[|s| - 1];
      InsertKeepsSorted(init, x);
      var r := InsertByYear(init, x);
      forall p | p in r ensures p.year <= last.year {
        InsertByYearMembers(init, x, p);
        if p != x {
          var i :| 0 <= i < |init| && init[i] == p;
          assert s[i] == p;
        }
      }
      forall i, j | 0 <= i < j < |r| + 1 ensures (r + [last])[i].year <= (r + [last])[j].year {
        if j == |r| {
          assert r[i] in r;
        }
      }
    }
  }

  /** The periods of an insertion are those inserted into and the one inserted. */
  lemma InsertByYearMembers(s: seq<Period>, x: Period, p: Period)
    ensures p in InsertByYear(s, x) <==> p in s || p == x
  {
    assert p in InsertByYear(s, x) <==> p in multiset(InsertByYear(s, x));
    assert p in s <==> p in multiset(s);
  }

  /** `periods.sort(key=lambda x: x['year'])`: a stable sort by year. */
  function SortByYear(s: seq<Period>): (r: seq<Period>)
    ensures multiset(r) == multiset(s)
  {
    if s == [] then []
    else
      assert s == s[..|s| - 1] + [s[|s| - 1]];
      InsertByYear(SortByYear(s[..|s| - 1]), s[|s| - 1])
  }

  /**
   * The pattern loop for one header (bot_full.py:140-159): the patterns
   * are tried in order and the first date found is appended.
   */
  method AppendDatePeriod(periods: seq<Period>, column: nat, h: string) returns (result: seq<Period>)
    ensures result == periods + DatePart(column, h)
  {
    result := periods;
    var k := 0;
    while k < |DatePatterns|
      invariant 0 <= k <= |DatePatterns|
      invariant FirstDate(h, 0) == FirstDate(h, k)
      invariant result == periods
    {
      var attempt := TryPattern(DatePatterns[k], h);
      if attempt.Some? {
        result := result + [DatePeriod(column, attempt.value)];
        break;
      }
      k := k + 1;
    }
  }

  /**
   * The phrase loop for one header (bot_full.py:162-177): the first
   * "за YYYY" phrase found is appended as 31 December of its year.
   */
  method AppendKeywordPeriod(periods: seq<Period>, column: nat, h: string) returns (result: seq<Period>)
    ensures result == periods + KeywordPart(column, h)
  {
    result := periods;
    var k := 0;
    while k < |PeriodKeywords|
      invariant 0 <= k <= |PeriodKeywords|
      invariant FirstKeyword(h, 0) == FirstKeyword(h, k)
      invariant result == periods
    {
      if IsSubstring(PeriodKeywords[k].0, h) {
        result := result + [KeywordPeriod(column, k)];
        break;
      }
      k := k + 1;
    }
  }

  /**
   * One column (bot_full.py:131-177): the header lower-cased and
   * stripped, then the pattern loop and the phrase loop.
   */
  method AppendHeaderPeriods(periods: seq<Period>, column: nat, header: string) returns (result: seq<Period>)
    ensures result == periods + HeaderPeriods(column, header)
  {
    var h := Normalize(header);
    result := AppendDatePeriod(periods, column, h);
    result := AppendKeywordPeriod(result, column, h);
    AppendAssociative(periods, DatePart(column, h), KeywordPart(column, h));
  }

  lemma AppendAssociative(a: seq<Period>, b: seq<Period>, c: seq<Period>)
    ensures (a + b) + c == a + (b + c)
  {
  }

  /**
   * `detect_periods(df)` on the column headers: every column's periods
   * appended in column order, then sorted by year.
   */
  method DetectPeriods(headers: seq<string>) returns (periods: seq<Period>)
    ensures periods == SortByYear(Collected(headers))
  {
    periods := [];
    var column := 0;
    while column < |headers|
      invariant 0 <= column <= |headers|
      invariant periods == Collected(headers[..column])
    {
      periods := AppendHeaderPeriods(periods, column, headers[column]);
      CollectedStep(headers, column);
      column := column + 1;
    }
    assert headers[..column] == headers;
    periods := SortByYear(periods);
  }

  // ---------------------------------------------------------------------
  // What the detector promises.

  /** The result is sorted by year. */
  lemma {:induction false} SortByYearSorted(s: seq<Period>)
    ensures SortedByYear(SortByYear(s))
  {
    if s != [] {
      SortByYearSorted(s[..|s| - 1]);
      InsertKeepsSorted(SortByYear(s[..|s| - 1]), s[|s| - 1]);
    }
  }

  /** Inserting `x` puts it after the periods of its own year already there. */
  lemma {:induction false} OfYearInsert(s: seq<Period>, x: Period, y: int)
    ensures OfYear(InsertByYear(s, x), y) == OfYear(s, y) + (if x.year == y then [x] else [])
  {
    if s == [] || s[|s| - 1].year <= x.year {
      OfYearSnoc(s, x, y);
    } else {
      var init := s[..|s| - 1];
      var last := s[|s| - 1];
      var r := InsertByYear(init, x);
      assert InsertByYear(s, x) == r + [last];
      assert s == init + [last];
      OfYearInsert(init, x, y);
      OfYearSnoc(r, last, y);
      OfYearSnoc(init, last, y);
      if x.year == y {
        assert last.year != y;
        assert OfYear(InsertByYear(s, x), y) == OfYear(r, y);
        assert OfYear(s, y) == OfYear(init, y);
      } else {
        assert OfYear(r, y) == OfYear(init, y);
      }
    }
  }

  /** One period more at the end adds it to the periods of its year. */
  lemma OfYearSnoc(s: seq<Period>, p: Period, y: int)
    ensures OfYear(s + [p], y) == OfYear(s, y) + (if p.year == y then [p] else [])
  {
    assert (s + [p])[..|s|] == s;
  }

  /** The sort is stable: the periods of any one year keep their relative order. */
  lemma {:induction false} SortByYearStable(s: seq<Period>, y: int)
    ensures OfYear(SortByYear(s), y) == OfYear(s, y)
  {
    if s != [] {
      SortByYearStable(s[..|s| - 1], y);
      OfYearInsert(SortByYear(s[..|s| - 1]), s[|s| - 1], y);
    }
  }

  /** A period is detected exactly when its own column's header gives it. */
  lemma {:induction false} CollectedProvenance(headers: seq<string>, p: Period)
    ensures p in Collected(headers) <==> p.column < |headers| && p in HeaderPeriods(p.column, headers[p.column])
  {
    if headers != [] {
      var init := headers[..|headers| - 1];
      var n := |headers| - 1;
      CollectedProvenance(init, p);
      assert Collected(headers) == Collected(init) + HeaderPeriods(n, headers[n]);
      if p.column < n {
        assert headers[p.column] == init[p.column];
        assert p !in HeaderPeriods(n, headers[n]);
      } else if p.column > n {
        assert p !in HeaderPeriods(n, headers[n]);
      }
    }
  }

  /** Each header gives at most two periods, and nothing is merged away. */
  lemma {:induction false} CollectedLength(headers: seq<string>)
    ensures |Collected(headers)| <= 2 * |headers|
    ensures |SortByYear(Collected(headers))| == |Collected(headers)|
  {
    if headers != [] {
      CollectedLength(headers[..|headers| - 1]);
    }
    assert |multiset(SortByYear(Collected(headers)))| == |multiset(Collected(headers))|;
  }

  /**
   * Corrected: the periods of a column are decided by its own header
   * alone, whatever the other columns hold.
   */
  lemma ColumnPeriodsOwnHeader(headers1: seq<string>, headers2: seq<string>, p: Period)
    requires p.column < |headers1| && p.column < |headers2| && headers1[p.column] == headers2[p.column]
    ensures p in Collected(headers1) <==> p in Collected(headers2)
  {
    CollectedProvenance(headers1, p);
    CollectedProvenance(headers2, p);
  }
}
