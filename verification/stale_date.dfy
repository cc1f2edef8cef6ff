/**
 * The period detector as bot_full.py:143-157 is written: a header that
 * matches a date pattern but no separator branch reuses the `date_obj`
 * of an earlier header.
 */
module StaleDate {
  import opened Wrappers
  import opened Text
  import opened Dates
  import opened Periods
  import opened PeriodHeaders

  /**
   * `TryPattern` as bot_full.py:143-157 is written: when no separator
   * branch applies nothing is assigned, and the append reads whatever
   * `date_obj` still holds from the last header that gave a date
   * (`stale`); when it holds nothing, the `NameError` is swallowed like
   * a failed parse.
   */
  function TryPatternAsWritten(p: Pattern, h: string, stale: Option<Date>): (r: Option<Date>)
    requires stale.Some? ==> ValidDate(stale.value)
    ensures r.Some? ==> ValidDate(r.value)
    ensures TryPattern(p, h).Some? ==> r == TryPattern(p, h)
    ensures stale.None? ==> r == TryPattern(p, h)
  {
    match LeftmostMatch(p, h, 0)
    case None => None
    case Some(i) =>
      var m := h[i..i + |p|];
      match ChooseLayout(m)
      case None => stale
      case Some(layout) => ParseDate(m, layout)
  }

  /** `FirstDate` as written. */
  function FirstDateAsWritten(h: string, from: nat, stale: Option<Date>): (r: Option<Date>)
    requires stale.Some? ==> ValidDate(stale.value)
    ensures r.Some? ==> ValidDate(r.value)
    ensures r.None? <==> forall k :: from <= k < |DatePatterns| ==> TryPatternAsWritten(DatePatterns[k], h, stale).None?
    ensures stale.None? ==> r == FirstDate(h, from)
    decreases |DatePatterns| - from
  {
    if from >= |DatePatterns| then None
    else if TryPatternAsWritten(DatePatterns[from], h, stale).Some? then TryPatternAsWritten(DatePatterns[from], h, stale)
    else FirstDateAsWritten(h, from + 1, stale)
  }

  /** What `date_obj` holds after the headers: the date of the last header that gave one. */
  function DateObjAfter(headers: seq<string>): (r: Option<Date>)
    ensures r.Some? ==> ValidDate(r.value)
  {
    if headers == [] then None
    else
      var before := DateObjAfter(headers[..|headers| - 1]);
      match FirstDateAsWritten(Normalize(headers[|headers| - 1]), 0, before)
      case Some(d) => Some(d)
      case None => before
  }

  /** `HeaderPeriods` as written, given what `date_obj` holds before the header. */
  function HeaderPeriodsAsWritten(column: nat, header: string, stale: Option<Date>): (r: seq<Period>)
    requires stale.Some? ==> ValidDate(stale.value)
    ensures |r| <= 2
    ensures forall p :: p in r ==> WellFormed(p) && p.column == column
    ensures stale.None? ==> r == HeaderPeriods(column, header)
  {
    var h := Normalize(header);
    (match FirstDateAsWritten(h, 0, stale)
     case Some(d) => [DatePeriod(column, d)]
     case None => [])
    + KeywordPart(column, h)
  }

  /** `Collected` as written. */
  function CollectedAsWritten(headers: seq<string>): (r: seq<Period>)
    ensures forall p :: p in r ==> WellFormed(p) && p.column < |headers|
  {
    if headers == [] then []
    else
      var n := |headers| - 1;
      CollectedAsWritten(headers[..n]) + HeaderPeriodsAsWritten(n, headers[n], DateObjAfter(headers[..n]))
  }

  /**
   * As written, a header whose date has an unrecognised separator takes
   * the date `date_obj` still holds: after headers whose last date is
   * `stale`, a header such as "01 01 2024" adds a period dated `stale`.
   * The model adds none.
   */
  lemma StaleDateTaken(headers: seq<string>, second: string, stale: Date)
    requires DateObjAfter(headers) == Some(stale)
    requires Shaped(second, DayMonthYear(' '))
    ensures CollectedAsWritten(headers + [second]) == CollectedAsWritten(headers) + [DatePeriod(|headers|, stale)]
    ensures Collected(headers + [second]) == Collected(headers)
  {
    SpacedHeaderPeriods(|headers|, second, stale);
    CollectedAsWrittenSnoc(headers, second);
    CollectedSnoc(headers, second);
  }

  /** `CollectedAsWritten` one header further. */
  lemma CollectedAsWrittenSnoc(headers: seq<string>, header: string)
    ensures CollectedAsWritten(headers + [header])
         == CollectedAsWritten(headers) + HeaderPeriodsAsWritten(|headers|, header, DateObjAfter(headers))
  {
    assert (headers + [header])[..|headers|] == headers;
  }

  /** `Collected` one header further. */
  lemma CollectedSnoc(headers: seq<string>, header: string)
    ensures Collected(headers + [header]) == Collected(headers) + HeaderPeriods(|headers|, header)
  {
    var all := headers + [header];
    assert all[..|headers|] == headers && all[|headers|] == header;
  }

  /** A dd mm yyyy header gives the stale date as written and no period in the model. */
  lemma SpacedHeaderPeriods(column: nat, h: string, stale: Date)
    requires Shaped(h, DayMonthYear(' ')) && ValidDate(stale)
    ensures HeaderPeriodsAsWritten(column, h, Some(stale)) == [DatePeriod(column, stale)]
    ensures HeaderPeriods(column, h) == []
  {
    SpacedHeader(h, stale);
    DateOnlyHeaderAsWritten(column, h, Some(stale), stale);
    EmptyHeader(column, h);
  }

  /** As written, a normalised header with a date and no phrase gives that date's period alone. */
  lemma DateOnlyHeaderAsWritten(column: nat, h: string, stale: Option<Date>, d: Date)
    requires stale.Some? ==> ValidDate(stale.value)
    requires IsNormal(h) && FirstDateAsWritten(h, 0, stale) == Some(d) && FirstKeyword(h, 0).None?
    ensures HeaderPeriodsAsWritten(column, h, stale) == [DatePeriod(column, d)]
  {
    NormalizeLowercase(h);
  }

  /** A normalised header whose date is `d`, as written, leaves `d` in `date_obj`. */
  lemma DateObjAfterSnoc(headers: seq<string>, h: string, d: Date)
    requires IsNormal(h) && FirstDateAsWritten(h, 0, DateObjAfter(headers)) == Some(d)
    ensures DateObjAfter(headers + [h]) == Some(d)
  {
    NormalizeLowercase(h);
    assert (headers + [h])[..|headers|] == headers;
  }

  /** As written too, a header that is a dd.mm.yyyy date gives that date's period alone, whatever `date_obj` held. */
  lemma DatedHeaderAsWritten(column: nat, h: string, d: Date, stale: Option<Date>)
    requires stale.Some? ==> ValidDate(stale.value)
    requires ParseDate(h, DayMonthYear('.')) == Some(d)
    ensures IsNormal(h) && FirstDateAsWritten(h, 0, stale) == Some(d)
    ensures HeaderPeriodsAsWritten(column, h, stale) == [DatePeriod(column, d)]
  {
    ShapedHeaderIsNormal(h, DayMonthYear('.'));
    assert h[..10] == h;
    DayFirstMatch(h, '.', d);
    AsWrittenLeadingDate(h, stale);
    DateOnlyHeaderAsWritten(column, h, stale, d);
  }

  /** A first header holding a date gives its period, in both versions, and leaves the date in `date_obj`. */
  lemma DatedFirstHeader(first: string, d: Date)
    requires ParseDate(first, DayMonthYear('.')) == Some(d)
    ensures Collected([first]) == [DatePeriod(0, d)] && CollectedAsWritten([first]) == [DatePeriod(0, d)]
    ensures DateObjAfter([first]) == Some(d)
  {
    DayFirstHeader(0, first, '.', d);
    DatedHeaderAsWritten(0, first, d, None);
    FirstColumn(first);
    FirstColumnAsWritten(first);
    DateObjAfterFirst(first, d);
  }

  /** A single header gives its own periods. */
  lemma FirstColumn(h: string)
    ensures Collected([h]) == HeaderPeriods(0, h)
  {
    assert [h][..0] == [];
  }

  /** As written, a single header is read with nothing in `date_obj`. */
  lemma FirstColumnAsWritten(h: string)
    ensures CollectedAsWritten([h]) == HeaderPeriodsAsWritten(0, h, None)
  {
    assert [h][..0] == [];
  }

  /** A single normalised header whose date is `d`, as written, leaves `d` in `date_obj`. */
  lemma DateObjAfterFirst(h: string, d: Date)
    requires IsNormal(h) && FirstDateAsWritten(h, 0, None) == Some(d)
    ensures DateObjAfter([h]) == Some(d)
  {
    assert [] + [h] == [h];
    DateObjAfterSnoc([], h, d);
  }

  /** Where the first pattern reads a date, the code as written reads the same one. */
  lemma AsWrittenLeadingDate(h: string, stale: Option<Date>)
    requires stale.Some? ==> ValidDate(stale.value)
    requires TryPattern(DotPattern, h).Some?
    ensures FirstDateAsWritten(h, 0, stale) == TryPattern(DotPattern, h)
  {
    assert DatePatterns[0] == DotPattern;
  }

  /**
   * A dd mm yyyy header is lower-case and stripped and holds no phrase;
   * the first pattern matches it with no separator branch applying, so
   * the code as written reads the stale date and the model reads none.
   */
  lemma SpacedHeader(h: string, stale: Date)
    requires Shaped(h, DayMonthYear(' ')) && ValidDate(stale)
    ensures IsNormal(h) && FirstKeyword(h, 0).None?
    ensures FirstDate(h, 0).None? && FirstDateAsWritten(h, 0, Some(stale)) == Some(stale)
  {
    ShapedPlain(h, ' ');
    PlainIsNormal(h);
    SpacedTries(h, stale);
    PlainNoIsoOrSlash(h);
    DateFromTries(h);
    AsWrittenFirstPattern(h, Some(stale));
  }

  /** The first pattern matches a dd mm yyyy string whole, and no separator branch applies to it. */
  lemma SpacedDotMatch(h: string)
    requires Shaped(h, DayMonthYear(' '))
    ensures LeftmostMatch(DotPattern, h, 0) == Some(0) && h[0..10] == h && ChooseLayout(h).None?
  {
    ShapedDigits(h, DayMonthYear(' '));
    assert MatchesAt(DotPattern, h, 0);
    assert h[0..10] == h;
    assert '.' !in h && '-' !in h && '/' !in h by {
      forall i | 0 <= i < |h| ensures h[i] != '.' && h[i] != '-' && h[i] != '/' {
        assert i in SeparatorPositions(DayMonthYear(' ')) || IsDigit(h[i]);
      }
    }
  }

  /** On a dd mm yyyy string the first pattern yields nothing in the model and the stale date as written. */
  lemma SpacedTries(h: string, stale: Date)
    requires Shaped(h, DayMonthYear(' ')) && ValidDate(stale)
    ensures TryPattern(DotPattern, h).None? && TryPatternAsWritten(DotPattern, h, Some(stale)) == Some(stale)
  {
    SpacedDotMatch(h);
  }

  /** As written, a date the first pattern yields is the header's date. */
  lemma AsWrittenFirstPattern(h: string, stale: Option<Date>)
    requires stale.Some? ==> ValidDate(stale.value)
    requires TryPatternAsWritten(DotPattern, h, stale).Some?
    ensures FirstDateAsWritten(h, 0, stale) == TryPatternAsWritten(DotPattern, h, stale)
  {
    assert DatePatterns[0] == DotPattern;
  }

  /**
   * The headers "31.12.2023" then "01 01 2024" meet `StaleDateTaken`:
   * the first leaves 31 December 2023 in `date_obj`, the second has the
   * dd mm yyyy shape.
   */
  lemma StaleDateExample()
    ensures DateObjAfter(["31.12.2023"]) == Some(Date(2023, 12, 31))
    ensures Shaped("01 01 2024", DayMonthYear(' '))
  {
    YearEndParsed();
    DatedFirstHeader("31.12.2023", Date(2023, 12, 31));
    SpacedNewYear();
  }

  /** "31.12.2023" reads as 31 December 2023. */
  lemma YearEndParsed()
    ensures ParseDate("31.12.2023", DayMonthYear('.')) == Some(Date(2023, 12, 31))
  {
    var d := Date(2023, 12, 31);
    assert FormatDate(d) == "31.12.2023" by {
      assert DecimalString(2023) == "2023";
    }
    ParseFormatted(d);
  }

  /** "01 01 2024" has the dd mm yyyy shape with spaces. */
  lemma SpacedNewYear()
    ensures Shaped("01 01 2024", DayMonthYear(' '))
  {
    var second := "01 01 2024";
    assert second[..2] == "01" && second[3..5] == "01" && second[6..] == "2024";
  }
}
