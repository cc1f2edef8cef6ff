/**
 * What the period detector makes of particular headers: a lone date in
 * each accepted form, an invalid date, two dates in one header, a date
 * followed by a "за <year>" phrase.
 */
module PeriodHeaders {
  import opened Wrappers
  import opened Text
  import opened Dates
  import opened Periods

  /** The positions of a layout's two separators. */
  function SeparatorPositions(layout: Layout): set<int>
  {
    if layout.YearMonthDay? then {4, 7} else {2, 5}
  }

  /** The separator character of a layout. */
  function SeparatorOf(layout: Layout): char
  {
    if layout.YearMonthDay? then '-' else layout.sep
  }

  /** A shaped string holds digits everywhere but at its two separators. */
  lemma ShapedDigits(s: string, layout: Layout)
    requires Shaped(s, layout)
    ensures forall i :: 0 <= i < 10 && i !in SeparatorPositions(layout) ==> IsDigit(s[i])
    ensures forall i :: i in SeparatorPositions(layout) ==> 0 <= i < 10 && s[i] == SeparatorOf(layout)
  {
    forall i | 0 <= i < 10 && i !in SeparatorPositions(layout) ensures IsDigit(s[i]) {
      if layout.YearMonthDay? {
        if i < 4 { assert s[..4][i] == s[i]; }
        else if i < 7 { assert s[5..7][i - 5] == s[i]; }
        else { assert s[8..][i - 8] == s[i]; }
      } else {
        if i < 2 { assert s[..2][i] == s[i]; }
        else if i < 5 { assert s[3..5][i - 3] == s[i]; }
        else { assert s[6..][i - 6] == s[i]; }
      }
    }
  }

  /** No "за YYYY" phrase occurs in a header without the letter 'з'. */
  lemma NoPhraseWithoutZe(h: string)
    requires 'з' !in h
    ensures FirstKeyword(h, 0).None?
  {
    forall k | 0 <= k < |PeriodKeywords| ensures !IsSubstring(PeriodKeywords[k].0, h) {
      assert PeriodKeywords[k].0[0] == 'з';
      NotSubstringByChar(PeriodKeywords[k].0, h, 'з');
    }
  }

  /** A shaped string is already lower-case and stripped, and holds no phrase. */
  lemma ShapedHeaderIsNormal(s: string, layout: Layout)
    requires Shaped(s, layout) && !IsUpper(SeparatorOf(layout)) && SeparatorOf(layout) != 'з'
    ensures IsNormal(s) && FirstKeyword(s, 0).None?
  {
    ShapedDigits(s, layout);
    forall c | c in s ensures !IsUpper(c) && c != 'з' {
      var i :| 0 <= i < |s| && s[i] == c;
      assert i in SeparatorPositions(layout) || IsDigit(s[i]);
    }
    assert IsDigit(s[0]) && IsDigit(s[9]);
    NoPhraseWithoutZe(s);
  }

  /** The first pattern reads a header starting with a day-first date, separated by '.' or by '/', as that date. */
  lemma DayFirstMatch(h: string, sep: char, d: Date)
    requires sep == '.' || sep == '/'
    requires |h| >= 10 && ParseDate(h[..10], DayMonthYear(sep)) == Some(d)
    ensures TryPattern(DotPattern, h) == Some(d)
  {
    var layout := DayMonthYear(sep);
    var s := h[..10];
    ShapedDigits(s, layout);
    assert MatchesAt(DotPattern, h, 0) by {
      assert forall k :: 0 <= k < 10 ==> h[k] == s[k];
    }
    assert h[0..10] == s;
    if sep == '.' {
      assert SplitHeadLength(s, '.') == 2 by {
        assert s[1..][1..] == s[2..];
      }
    } else {
      assert '.' !in s && '-' !in s by {
        forall i | 0 <= i < |s| ensures s[i] != '.' && s[i] != '-' {
          assert i in SeparatorPositions(layout) || IsDigit(s[i]);
        }
      }
    }
    assert ChooseLayout(s) == Some(layout);
  }

  /**
   * A header that is exactly a day-first date, separated by '.' or by
   * '/', gives that date's period and nothing else; the first pattern
   * catches both, its '.' matching any separator.
   */
  lemma DayFirstHeader(column: nat, s: string, sep: char, d: Date)
    requires sep == '.' || sep == '/'
    requires ParseDate(s, DayMonthYear(sep)) == Some(d)
    ensures HeaderPeriods(column, s) == [DatePeriod(column, d)]
  {
    ShapedHeaderIsNormal(s, DayMonthYear(sep));
    assert s[..10] == s;
    DayFirstMatch(s, sep, d);
    DateFromTries(s);
    DateOnlyHeader(column, s, d);
  }

  /** The first pattern finds nothing in a yyyy-mm-dd date, and the second reads it as that date. */
  lemma IsoMatch(s: string, d: Date)
    requires ParseDate(s, YearMonthDay) == Some(d)
    ensures TryPattern(DotPattern, s).None? && TryPattern(IsoPattern, s) == Some(d)
  {
    ShapedDigits(s, YearMonthDay);
    assert !MatchesAt(DotPattern, s, 0) by {
      assert !SlotMatches(DotPattern[4], s[4]);
    }
    assert LeftmostMatch(DotPattern, s, 0).None?;
    assert MatchesAt(IsoPattern, s, 0);
    assert s[0..10] == s;
    assert '.' !in s by {
      forall i | 0 <= i < |s| ensures s[i] != '.' {
        assert i in SeparatorPositions(YearMonthDay) || IsDigit(s[i]);
      }
    }
    assert ChooseLayout(s) == Some(YearMonthDay);
  }

  /** A header that is exactly a yyyy-mm-dd date gives that date's period and nothing else. */
  lemma IsoHeader(column: nat, s: string, d: Date)
    requires ParseDate(s, YearMonthDay) == Some(d)
    ensures HeaderPeriods(column, s) == [DatePeriod(column, d)]
  {
    ShapedHeaderIsNormal(s, YearMonthDay);
    IsoMatch(s, d);
    DateFromTries(s);
    DateOnlyHeader(column, s, d);
  }

  /** Writing a period's date as dd.mm.yyyy and detecting it again gives the same period. */
  lemma FormattedHeaderRoundTrip(column: nat, d: Date)
    requires ValidDate(d) && d.year >= 1000
    ensures HeaderPeriods(column, FormatDate(d)) == [DatePeriod(column, d)]
    ensures HeaderPeriods(column, FormatDate(d))[0].formatted == FormatDate(d)
  {
    ParseFormatted(d);
    DayFirstHeader(column, FormatDate(d), '.', d);
  }

  /** No pattern reads a date from a dd.mm.yyyy string naming no calendar day. */
  lemma InvalidDayFirstMatch(s: string)
    requires Shaped(s, DayMonthYear('.')) && !ValidDate(Fields(s, DayMonthYear('.')))
    ensures FirstDate(s, 0).None?
  {
    ShapedDigits(s, DayMonthYear('.'));
    assert MatchesAt(DotPattern, s, 0);
    assert s[0..10] == s;
    assert SplitHeadLength(s, '.') == 2 by {
      assert s[1..][1..] == s[2..];
    }
    assert TryPattern(DotPattern, s).None?;
    assert !MatchesAt(IsoPattern, s, 0) by {
      assert !SlotMatches(IsoPattern[4], s[4]);
    }
    assert LeftmostMatch(IsoPattern, s, 0).None?;
    assert !MatchesAt(SlashPattern, s, 0) by {
      assert !SlotMatches(SlashPattern[2], s[2]);
    }
    assert LeftmostMatch(SlashPattern, s, 0).None?;
  }

  /** A dd.mm.yyyy header naming no calendar day (31.02, 29.02 of a common year, month 13) gives no period. */
  lemma InvalidDayFirstHeader(column: nat, s: string)
    requires Shaped(s, DayMonthYear('.')) && !ValidDate(Fields(s, DayMonthYear('.')))
    ensures HeaderPeriods(column, s) == []
  {
    ShapedHeaderIsNormal(s, DayMonthYear('.'));
    InvalidDayFirstMatch(s);
    EmptyHeader(column, s);
  }

  // ---------------------------------------------------------------------
  // Headers with more than one date or period.

  /** A string of digits, '.' and ' ' between two digits. */
  predicate Plain(h: string)
  {
    && |h| > 0 && IsDigit(h[0]) && IsDigit(h[|h| - 1])
    && forall i :: 0 <= i < |h| ==> IsDigit(h[i]) || h[i] == '.' || h[i] == ' '
  }

  /** A plain header is lower-case and stripped, and holds no phrase. */
  lemma PlainIsNormal(h: string)
    requires Plain(h)
    ensures IsNormal(h) && FirstKeyword(h, 0).None?
  {
    forall c | c in h ensures !IsUpper(c) && c != 'з' {
      var i :| 0 <= i < |h| && h[i] == c;
    }
    NoPhraseWithoutZe(h);
  }

  /** Neither the second nor the third pattern reads anything from a plain header. */
  lemma PlainNoIsoOrSlash(h: string)
    requires Plain(h)
    ensures TryPattern(IsoPattern, h).None? && TryPattern(SlashPattern, h).None?
  {
    PlainNoIso(h);
    PlainNoSlash(h);
  }

  /** A plain header holds no '-', so the second pattern matches nowhere in it. */
  lemma PlainNoIso(h: string)
    requires Plain(h)
    ensures LeftmostMatch(IsoPattern, h, 0).None?
  {
    forall i | 0 <= i ensures !MatchesAt(IsoPattern, h, i) {
      if i + 10 <= |h| {
        assert !SlotMatches(IsoPattern[4], h[i + 4]);
      }
    }
  }

  /** A plain header holds no '/', so the third pattern matches nowhere in it. */
  lemma PlainNoSlash(h: string)
    requires Plain(h)
    ensures LeftmostMatch(SlashPattern, h, 0).None?
  {
    forall i | 0 <= i ensures !MatchesAt(SlashPattern, h, i) {
      if i + 10 <= |h| {
        assert !SlotMatches(SlashPattern[2], h[i + 2]);
      }
    }
  }

  /** A day-first date with '.' or ' ' as its separator is plain. */
  lemma ShapedPlain(s: string, sep: char)
    requires (sep == '.' || sep == ' ') && Shaped(s, DayMonthYear(sep))
    ensures Plain(s)
  {
    ShapedDigits(s, DayMonthYear(sep));
    assert forall i :: 0 <= i < |s| ==> i in SeparatorPositions(DayMonthYear(sep)) || IsDigit(s[i]);
  }

  /** Two plain strings joined by a space are plain. */
  lemma PlainJoin(a: string, b: string)
    requires Plain(a) && Plain(b)
    ensures Plain(a + " " + b)
  {
    var h := a + " " + b;
    forall i | 0 <= i < |h| ensures IsDigit(h[i]) || h[i] == '.' || h[i] == ' ' {
      if i < |a| {
        assert h[i] == a[i];
      } else if i > |a| {
        assert h[i] == b[i - |a| - 1];
      }
    }
  }

  lemma JoinPrefix(a: string, b: string)
    requires |a| == 10
    ensures |a + " " + b| >= 10 && (a + " " + b)[..10] == a
  {
  }

  /** The first pattern reads nothing from a header starting with a dd.mm.yyyy that names no calendar day. */
  lemma LeadingInvalidMatch(h: string)
    requires |h| >= 10 && Shaped(h[..10], DayMonthYear('.')) && !ValidDate(Fields(h[..10], DayMonthYear('.')))
    ensures TryPattern(DotPattern, h).None?
  {
    var a := h[..10];
    ShapedDigits(a, DayMonthYear('.'));
    assert MatchesAt(DotPattern, h, 0) by {
      assert forall k :: 0 <= k < 10 ==> h[k] == a[k];
    }
    assert h[0..10] == a;
    assert SplitHeadLength(a, '.') == 2 by {
      assert a[1..][1..] == a[2..];
    }
  }

  /**
   * Only the leftmost match of a pattern is read: a header whose first
   * dd.mm.yyyy names no calendar day gets no date, even when a later
   * dd.mm.yyyy in it would have given one.
   */
  lemma OnlyLeftmostMatchRead(column: nat, a: string, b: string, d: Date)
    requires Shaped(a, DayMonthYear('.')) && !ValidDate(Fields(a, DayMonthYear('.')))
    requires ParseDate(b, DayMonthYear('.')) == Some(d)
    ensures HeaderPeriods(column, b) == [DatePeriod(column, d)]
    ensures HeaderPeriods(column, a + " " + b) == []
  {
    DayFirstHeader(column, b, '.', d);
    var h := a + " " + b;
    assert Plain(h) by {
      ShapedPlain(a, '.');
      ShapedPlain(b, '.');
      PlainJoin(a, b);
    }
    PlainIsNormal(h);
    assert FirstDate(h, 0).None? by {
      PlainNoIsoOrSlash(h);
      JoinPrefix(a, b);
      LeadingInvalidMatch(h);
      DateFromTries(h);
    }
    EmptyHeader(column, h);
  }

  /** Of the phrases, "за 2023" is the first found after a date and a space. */
  lemma PhraseAfterDate(s: string)
    requires Plain(s) && |s| == 10
    ensures FirstKeyword(s + " за 2023", 0) == Some(1)
  {
    var h := s + " за 2023";
    assert forall i :: 10 <= i < |h| ==> h[i] == " за 2023"[i - 10];
    assert !IsSubstring("за 2024", h) by {
      forall i | 0 <= i <= |h| - 7 ensures !OccursAt("за 2024", h, i) {
        assert h[i..i + 7][0] == h[i] && h[i..i + 7][6] == h[i + 6];
        if i < 10 {
          assert h[i] == s[i];
        }
      }
    }
    assert h == (s + " ") + "за 2023" + [];
    SubstringOfInfix(s + " ", "за 2023", []);
  }

  /** A plain header followed by " за 2023" is lower-case and stripped. */
  lemma PhraseHeaderIsNormal(s: string)
    requires Plain(s)
    ensures IsNormal(s + " за 2023")
  {
    var h := s + " за 2023";
    forall c | c in h ensures !IsUpper(c) {
      var i :| 0 <= i < |h| && h[i] == c;
      if i < |s| {
        assert h[i] == s[i];
      } else {
        assert h[i] == " за 2023"[i - |s|];
      }
    }
    assert h[0] == s[0] && h[|h| - 1] == '3';
  }

  /**
   * The phrases are looked for even after a date was found, so a header
   * holding a date and "за 2023" gives two periods, the date's first.
   */
  lemma DateAndPhrase(column: nat, s: string, d: Date)
    requires ParseDate(s, DayMonthYear('.')) == Some(d)
    ensures HeaderPeriods(column, s + " за 2023") == [DatePeriod(column, d), KeywordPeriod(column, 1)]
  {
    ShapedPlain(s, '.');
    PhraseHeaderIsNormal(s);
    NormalHeader(column, s + " за 2023");
    DateBeforePhrase(column, s, d);
    PhrasePart(column, s);
  }

  /** The phrase period of a plain date followed by " за 2023" is that of 2023. */
  lemma PhrasePart(column: nat, s: string)
    requires Plain(s) && |s| == 10
    ensures KeywordPart(column, s + " за 2023") == [KeywordPeriod(column, 1)]
  {
    PhraseAfterDate(s);
  }

  /** The date at the start of a header followed by " за 2023" is read. */
  lemma DateBeforePhrase(column: nat, s: string, d: Date)
    requires ParseDate(s, DayMonthYear('.')) == Some(d)
    ensures DatePart(column, s + " за 2023") == [DatePeriod(column, d)]
  {
    var h := s + " за 2023";
    assert h[..10] == s;
    DayFirstMatch(h, '.', d);
    DateFromTries(h);
  }
}
