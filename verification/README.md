# Financial statement analyser: a Dafny model of its core

`bot_full.py` is a chat bot. It receives a balance sheet or an income statement
as a spreadsheet and replies with an analysis. This project models the
deterministic pipeline inside it, from the decoded table to the decisions the
reports show:

- **Line-item classifier** (module `Classifier`, file `classifier.dfy`).
  - `BALANCE_ITEMS` is an ordered table of 22 canonical line items, each with
    its keywords.
  - `find_balance_item` returns the first item, in declaration order, that
    has a keyword occurring in the lower-cased, stripped label.
- **Period detector** (`Periods`, `periods.dfy`; with `Dates`, `dates.dfy`).
  - `detect_periods` reads reporting periods from the column headers. It
    tries three date patterns, reading only the leftmost match of each with
    `strptime`, and then three "за YYYY" phrases.
  - It stable-sorts the periods it found by year.
  - `PeriodHeaders` (`period_headers.dfy`) works through concrete header
    shapes: a bare date in each format, an invalid date, a date with a phrase.
  - `StaleDate` (`stale_date.dfy`) models the detector as written, where a
    match with no separator branch reuses an earlier header's date (see
    "## Findings").
- **Data extractor** (`Extraction`, `extraction.dfy`).
  - `extract_financial_data_by_period` opens one empty map per period label
    and finds the label column.
  - It books every non-zero number of each classified row under its line
    item, per period; a later write wins.
- **Ratio engine** (`Ratios`, `ratios.dfy`).
  - `calculate_financial_ratios_for_period` computes seven ratios.
  - Each ratio is present only when its denominator is positive.
  - A missing or zero current-assets figure is replaced by the sum of its
    components.
- **Report decisions** (`Reports`, `reports.dfy`).
  - The trend of each key indicator: first and last value, absolute and
    relative change, and direction.
  - The liquidity tier of each period's current ratio.

The string primitives are in `Text` (`text.dfy`): Python's `lower()`,
`strip()` and the `in` substring test. `Wrappers` holds `Option`.

The period detector and the data extractor change state step by step in the
source: they append to a list, sort it, and assign into nested dictionaries.
Each is modelled as a method with loops, proved equal to a specification
function:

- `Periods.DetectPeriods` against `SortByYear(Collected(headers))`.
- `Extraction.ExtractFinancialData` against `Extracted(headers, rows, periods)`.

The properties are proved about those functions. The classifier, the ratio
engine and the report decisions are pure in the source and are functions here.

Numbers are `real`, so division is exact. A period's figures are a
`map<string, real>`. A `Dataset` keeps the period labels in the order they
were inserted, because both reports iterate in that order.

## Model

| member | source | states |
|---|---|---|
| Text.LowerChar | bot_full.py:185 | one character of `lower()`: changed exactly when it is a capital, never a capital afterwards, and whitespace stays whitespace |
| Text.Lower | bot_full.py:185 | `str.lower()`: the same length; every character is lower-cased independently of the others |
| Text.LowerIdempotent | bot_full.py:185 | lower-casing an already lower-cased string changes nothing |
| Text.Strip | bot_full.py:214 | `str.strip()`: the result is an infix of the input, everything cut off is whitespace, and it neither starts nor ends with whitespace |
| Text.StripUntrimmed | bot_full.py:214 | a string without surrounding whitespace is left alone by `strip()` |
| Text.Normalize | bot_full.py:131 | `str(x).lower().strip()`, for headers and labels alike: the result has no capital and no surrounding whitespace |
| Text.NormalizeIdempotent | bot_full.py:131 | normalising an already normalised header changes nothing more |
| Text.NormalizeLowercase | bot_full.py:131 | a header with no capital and no surrounding whitespace (`IsNormal`) is its own `lower().strip()` form |
| Classifier.FirstMatchingKey | bot_full.py:187-192 | the scan returns the first key, from a given index on, that has a keyword occurring in the label; `None` exactly when no key from there on does |
| Classifier.FindBalanceItem | bot_full.py:183-192 | `None` exactly when no keyword of any key occurs in the normalised label; otherwise the key of the first matching entry in declaration order |
| Classifier.FirstMatchIsReturned | bot_full.py:187-190 | the converse: the first matching key is the one returned |
| Classifier.TableWellFormed | bot_full.py:36-64 | every key has keywords, and no keyword is empty, so an empty label matches nothing |
| Classifier.FixedAssetsAreNonCurrent | bot_full.py:38-39 | "основные средства" is filed under 'внеоборотные активы', which lists it as a keyword before 'основные средства' does |
| Classifier.FixedAssetsAreNonCurrentNormalises | bot_full.py:185 | the label "Основные средства" normalises to "основные средства" |
| Classifier.TotalAssetsLabel | bot_full.py:45 | "итого активы" is filed under 'активы всего' |
| Classifier.TotalAssetsLabelNormalises | bot_full.py:185 | the label "Итого активы" normalises to "итого активы" |
| Classifier.ShareCapitalIsEquity | bot_full.py:48-49 | "уставный капитал" is filed under 'капитал', through the keyword 'капитал', before 'уставный капитал' is reached |
| Classifier.ShareCapitalIsEquityNormalises | bot_full.py:185 | the label "Уставный капитал" normalises to "уставный капитал" |
| Classifier.RevenueLabel | bot_full.py:57 | "выручка" is filed under 'выручка' |
| Classifier.NetProfitOrLossIsGrossProfit | bot_full.py:60 | "чистая прибыль (убыток)" is filed under 'валовая прибыль', because that key's keyword 'убыток' comes before 'чистая прибыль' is reached |
| Classifier.NetProfitOrLossIsGrossProfitNormalises | bot_full.py:185 | the label "Чистая прибыль (убыток)" normalises to "чистая прибыль (убыток)" |
| Dates.DaysInMonth | bot_full.py:146 | the Gregorian month lengths: 28 days exactly for February of a common year, 29 exactly for February of a leap year, 31 exactly for the seven long months |
| Dates.ParseDate | bot_full.py:146-150 | `strptime` accepts exactly the strings with the format's shape whose fields name a real calendar day, and returns the day the fields name |
| Dates.DecimalString | bot_full.py:155 | `%Y` writes the year's decimal digits without a leading zero; it has four digits exactly for the years 1000 to 9999 |
| Dates.Pad2 | bot_full.py:155 | `%d` and `%m`: two decimal digits, zero-padded, whose value is the number |
| Dates.FormatDate | bot_full.py:155 | `strftime('%d.%m.%Y')` writes two-digit day and month with '.' between; ten characters exactly for a four-digit year |
| Dates.ParseFormatted | bot_full.py:146-155 | a date with a four-digit year, written as dd.mm.yyyy and read back, is the same date |
| Dates.FormatParsed | bot_full.py:146-155 | a dd.mm.yyyy string, read and written again, is the same text exactly when its year has no leading zero |
| Periods.LeftmostMatch | bot_full.py:141-144 | the index of `findall(...)[0]`: the pattern matches there and nowhere before it |
| Periods.SplitHeadLength | bot_full.py:145 | `len(s.split('.')[0])`: the length of the part before the first separator |
| Periods.ChooseLayout | bot_full.py:145-150 | the separator test: each of the three `strptime` formats, or none, exactly under its branch's condition |
| Periods.TryPattern | bot_full.py:141-159 | a pattern yields only valid calendar dates |
| Periods.FirstDate | bot_full.py:140-160 | no date exactly when every remaining pattern fails; otherwise the date of one of them |
| Periods.DateFromTries | bot_full.py:140-160 | the patterns are tried in order and the first one that yields a date decides |
| Periods.FirstKeyword | bot_full.py:169-177 | no phrase exactly when none of "за 2024", "за 2023" and "за 2022" occurs; otherwise the first that does |
| Periods.DatePart | bot_full.py:140-160 | a header gives a date period exactly when some pattern reads a date, and then the period of the first pattern's date |
| Periods.KeywordPart | bot_full.py:169-177 | a header gives a phrase period exactly when some "за YYYY" phrase occurs, and then 31 December of the first phrase's year |
| Periods.DatePeriod | bot_full.py:152-157 | the period of a parsed date is well formed: its text is the date as dd.mm.yyyy and its year the date's year |
| Periods.KeywordPeriod | bot_full.py:171-176 | a phrase's period is 31 December of its year, and well formed |
| Periods.KeywordYearFormat | bot_full.py:173-175 | "31.12." followed by the phrase's year is how `strftime` writes 31 December of that year |
| Periods.HeaderPeriods | bot_full.py:130-177 | one header gives at most two periods, all of its own column and well formed |
| Periods.Collected | bot_full.py:130-177 | before sorting, every period is well formed and belongs to an existing column |
| Periods.CollectedStep | bot_full.py:130 | each column adds its own periods at the end |
| Periods.InsertByYear | bot_full.py:180 | inserting into the sorted list adds exactly the new period |
| Periods.InsertKeepsSorted | bot_full.py:180 | inserting into a list sorted by year keeps it sorted |
| Periods.SortByYear | bot_full.py:180 | the sort is a permutation: nothing is merged away or added |
| Periods.SortByYearSorted | bot_full.py:180 | the sort leaves the periods in non-decreasing year order |
| Periods.OfYearInsert | bot_full.py:180 | an inserted period goes after the periods of its own year already there |
| Periods.SortByYearStable | bot_full.py:180 | the sort is stable: the periods of each year keep their relative order |
| Periods.AppendDatePeriod | bot_full.py:140-160 | the pattern loop appends the date period of the first pattern that yields one, and nothing else |
| Periods.AppendKeywordPeriod | bot_full.py:169-177 | the phrase loop appends the period of the first phrase found, and nothing else |
| Periods.AppendHeaderPeriods | bot_full.py:131-177 | one column: the header lower-cased and stripped, then its date period, if any, then its phrase period, if any, appended after the periods already found |
| Periods.DetectPeriods | bot_full.py:126-181 | `detect_periods` returns every column's periods, gathered in column order and then stable-sorted by year |
| Periods.CollectedProvenance | bot_full.py:130-177 | a period is detected exactly when its own column's header gives it |
| Periods.CollectedLength | bot_full.py:130-180 | at most two periods per header, and none dropped by the sort, so duplicates are kept |
| PeriodHeaders.ShapedHeaderIsNormal | bot_full.py:131 | a header that is just a date is unchanged by `lower().strip()` and holds no phrase |
| PeriodHeaders.DayFirstMatch | bot_full.py:135-146 | the first pattern reads a leading day-first date separated by '.' or '/' as that date, because its unescaped '.' matches any character |
| PeriodHeaders.DayFirstHeader | bot_full.py:135-177 | a header that is exactly a day-first date, with '.' or '/', gives that date's period and nothing else |
| PeriodHeaders.IsoMatch | bot_full.py:135-148 | the first pattern finds nothing in a yyyy-mm-dd date, and the second reads it as that date |
| PeriodHeaders.IsoHeader | bot_full.py:136-177 | a header that is exactly a yyyy-mm-dd date gives that date's period and nothing else |
| PeriodHeaders.FormattedHeaderRoundTrip | bot_full.py:152-157 | a period's own dd.mm.yyyy text, used as a header, gives back the same period |
| PeriodHeaders.InvalidDayFirstMatch | bot_full.py:143-160 | no pattern reads a date from a dd.mm.yyyy string that names no calendar day, such as 31.02 or month 13 |
| PeriodHeaders.InvalidDayFirstHeader | bot_full.py:130-177 | such a header gives no period at all |
| PeriodHeaders.PlainNoIsoOrSlash | bot_full.py:136-137 | neither the ISO pattern nor the '/' pattern reads anything from a header of digits, dots and spaces |
| PeriodHeaders.LeadingInvalidMatch | bot_full.py:144-146 | the first pattern reads nothing from a header starting with a dd.mm.yyyy that names no calendar day |
| PeriodHeaders.OnlyLeftmostMatchRead | bot_full.py:144 | only the leftmost match is read: an invalid first date hides a valid second one, which alone would give a period |
| PeriodHeaders.DateAndPhrase | bot_full.py:152-177 | the phrases are looked for even after a date was found: a date followed by "за 2023" gives two periods, the date's first |
| PeriodHeaders.NoPhraseWithoutZe | bot_full.py:163-170 | no phrase occurs in a header without the letter 'з' |
| StaleDate.TryPatternAsWritten | bot_full.py:143-160 | as written, a match with no separator branch takes the date left over from an earlier header, if any; wherever the model's pattern reads a date, and whenever nothing is left over, both agree |
| StaleDate.FirstDateAsWritten | bot_full.py:140-160 | as written, no date exactly when every pattern yields none; with nothing left over, the model's first date |
| StaleDate.HeaderPeriodsAsWritten | bot_full.py:130-177 | as written, a header gives at most two well-formed periods of its own column; with nothing left over, the model's periods |
| StaleDate.DateObjAfter | bot_full.py:145-157 | what `date_obj` holds after a run of headers: nothing, or a valid calendar date |
| StaleDate.CollectedAsWritten | bot_full.py:130-177 | the periods gathered as written are well formed and belong to existing columns, like the corrected ones |
| StaleDate.SpacedHeaderPeriods | bot_full.py:145-157 | a dd mm yyyy header gives the left-over date's period as written, and no period when corrected |
| StaleDate.DatedFirstHeader | bot_full.py:145-157 | a first header holding a day-first date gives that period in both versions and leaves the date in `date_obj` |
| StaleDate.StaleDateTaken | bot_full.py:145-157 | as written, after a header that gave date d, a dd mm yyyy header adds a period dated d; the model adds none |
| StaleDate.StaleDateExample | bot_full.py:145-157 | the headers "31.12.2023" then "01 01 2024" meet the conditions of `StaleDateTaken` |
| StaleDate.SpacedHeader | bot_full.py:145-150 | a dd mm yyyy header matches the first pattern but no separator branch applies |
| StaleDate.AsWrittenLeadingDate | bot_full.py:145-146 | where the first pattern reads a date, the code as written reads the same one |
| Periods.ColumnPeriodsOwnHeader | bot_full.py:130-177 | the corrected detector gives each column the periods of its own header alone, whatever the other headers hold |
| Extraction.NumericValue | bot_full.py:230-231 | `pd.to_numeric(..., errors='coerce')` then `isna`: only a number cell has a value, and it is that number |
| Extraction.Labels | bot_full.py:199-200 | the period maps' keys: each distinct `formatted` label exactly once |
| Extraction.LabelsInOrder | bot_full.py:199-200 | the keys are in dictionary insertion order: a label comes before another exactly when its first period does |
| Extraction.EmptyMaps | bot_full.py:199-200 | one empty map per label |
| Extraction.EmptyPeriodMaps | bot_full.py:199-200 | the first loop creates exactly those keys, in that order, each with an empty map |
| Extraction.IndicatorColumn | bot_full.py:203-207 | none exactly when no header contains 'наименование' or 'показатель' after lower-casing; otherwise the first that does |
| Extraction.FindIndicatorColumn | bot_full.py:203-207 | the search loop finds that column |
| Extraction.RowItem | bot_full.py:214-223 | a row is booked exactly when its stripped label is a non-empty string, not a noise label, and classified; it is then booked under the classifier's key for that label, a key of the table |
| Extraction.RowItems | bot_full.py:213-221 | the line item of each row, row by row |
| Extraction.RowWrites | bot_full.py:225-232 | a classified row writes only non-zero values, and only under its own line item |
| Extraction.CellWrite | bot_full.py:229-232 | a cell writes at most once, and only a non-zero number |
| Extraction.RowWritesMembers | bot_full.py:225-232 | a row writes a value for a period exactly when that period's cell holds that non-zero number |
| Extraction.RowPartMembers | bot_full.py:217-232 | an unclassified or skipped row writes nothing; a classified one writes exactly its booked cells |
| Extraction.SheetWritesMembers | bot_full.py:213-232 | a write is made exactly when some row is booked under its item and some period with its label holds its non-zero value in that row |
| Extraction.SheetWritesLabelled | bot_full.py:226-232 | every write targets the label of one of the periods, so it lands in an existing map |
| Extraction.StoreAllKeys | bot_full.py:232 | writing into existing maps adds no period label |
| Extraction.LastWrite | bot_full.py:232 | the position of the last write to a period's line item, none exactly when there is none |
| Extraction.StoreAllLastWrite | bot_full.py:232 | last write wins: after the writes, an item holds its last written value, or what it held before |
| Extraction.Extracted | bot_full.py:194-236 | the result has exactly one map per distinct period label, in first-occurrence order, and all maps are empty when there is no label column |
| Extraction.ExtractedLastWrite | bot_full.py:213-234 | a line item is present exactly when it was written, and holds the last value written, in row order and within a row in period order |
| Extraction.ExtractedBooked | bot_full.py:213-234 | a line item is present exactly when some row is booked under it with a non-zero number in a column of that label; the stored value is such a number, never zero |
| Extraction.StoreRow | bot_full.py:225-234 | the inner loop stores exactly the row's writes, in period order |
| Extraction.StoreClassifiedRow | bot_full.py:214-234 | one row stores exactly its writes: nothing for a skipped or unclassified row, its booked cells under its line item otherwise |
| Extraction.StoreRows | bot_full.py:213-234 | the row loop stores exactly the sheet's writes, in row order |
| Extraction.ExtractFinancialData | bot_full.py:194-236 | `extract_financial_data_by_period` returns `Extracted(headers, rows, periods)` |
| Ratios.Get | bot_full.py:244-259 | `data.get(key, 0)`: the figure when present, 0 otherwise |
| Ratios.GatedRatio | bot_full.py:262-280 | a quotient is present exactly when the denominator is positive, and then times the denominator gives the numerator |
| Ratios.GatedPercent | bot_full.py:267-272 | a percentage is present exactly when the denominator is positive, and then times the denominator gives 100 times the numerator |
| Ratios.RatiosFor | bot_full.py:238-285 | each of the seven ratios is present exactly when its gating denominator is positive, and then has its defining value |
| Ratios.CurrentAssets | bot_full.py:245-252 | a non-zero current-assets figure is used as is; a missing or zero one is replaced by cash + receivables + inventory |
| Ratios.AnyRatioGated | bot_full.py:261-280 | some ratio is present exactly when current liabilities, assets, equity or revenue is positive |
| Ratios.TotalLiabilitiesUnused | bot_full.py:256 | total liabilities are read but never used: changing them changes no ratio |
| Ratios.KeysAreLineItems | bot_full.py:244-259 | every key the engine reads is a line item the classifier can produce |
| Ratios.ComponentsGiveCurrentRatio | bot_full.py:251-263 | cash 500, receivables 600 and inventory 400 with no current-assets line, against 1000 of current liabilities, give a current ratio of 1.5 |
| Reports.CarriersBefore | bot_full.py:303-304 | the positions below a bound, in increasing order, of periods that have figures and the indicator |
| Reports.CarrierPositions | bot_full.py:303-304 | the positions, in increasing order, of periods that have figures and the indicator |
| Reports.CarriersBeforeComplete | bot_full.py:303-304 | every period below the bound that carries the indicator has its position listed |
| Reports.CarrierPositionsComplete | bot_full.py:303-304 | no carrier is missed: every period that carries the indicator has its position listed |
| Reports.ValuesBefore | bot_full.py:302-305 | the indicator's figures of the carriers below a bound, one each, in the dataset's order |
| Reports.IndicatorValues | bot_full.py:302-305 | the indicator's figures of exactly those periods, one each, in the dataset's order |
| Reports.AllCarryBefore | bot_full.py:303-304 | when every period has the indicator, the carriers below a bound are all the positions below it |
| Reports.IndicatorValuesAll | bot_full.py:302-305 | when every period has the indicator, the values are its figures in period order |
| Reports.IndicatorValuesFrom | bot_full.py:302-305 | every value listed is the figure of a period of the dataset that has the indicator |
| Reports.RelativeChange | bot_full.py:317 | the relative change times the first value is 100 times the change; it is 0 when the first value is 0 |
| Reports.DirectionOf | bot_full.py:318 | the arrow is up exactly for a positive relative change and down exactly for a negative one |
| Reports.TrendOf | bot_full.py:313-318 | a trend exactly when there are two values or more; it runs from the first value to the last, the change is their difference, the relative change and arrow are those of that pair |
| Reports.IndicatorValuesEnds | bot_full.py:313-315 | the first and last values are the figures of the first and last carriers |
| Reports.IndicatorTrend | bot_full.py:301-319 | an indicator has a trend exactly when at least two periods carry it; it runs from the first carrier's figure to the last's |
| Reports.IndicatorTrendPresent | bot_full.py:301-313 | a trend exactly when two distinct positions of the dataset carry the indicator |
| Reports.TwoCarriers | bot_full.py:303-313 | two distinct periods that carry the indicator give at least two values |
| Reports.IndicatorTrendEnds | bot_full.py:301-315 | the trend's ends are the figures of two carriers with no carrier before the first or after the last |
| Reports.CarriersBetween | bot_full.py:303-305 | no period before the first carrier or after the last one carries the indicator |
| Reports.Sections | bot_full.py:301-319 | every section is for a listed indicator that some period carries, and holds its values and trend; every such indicator has a section |
| Reports.PeriodReport | bot_full.py:297-319 | the four key indicators, each listed exactly when some period carries it, with its values and trend |
| Reports.RelativeSign | bot_full.py:317 | the relative change has the sign of the change for a positive base, and the opposite sign for a negative one |
| Reports.TrendDirectionPositiveBase | bot_full.py:317-318 | with a positive first value the arrow is up, down or flat exactly as the value rose, fell or stayed |
| Reports.TrendDirectionZeroBase | bot_full.py:317-318 | with a first value of 0 the relative change is 0 and the arrow flat, whatever the last value |
| Reports.TrendDirectionNegativeBase | bot_full.py:317-318 | with a negative first value the arrow points against the change |
| Reports.RevenueGrowthExample | bot_full.py:313-318 | 800000 then 1000000 is a rise of 200000, +25 %, arrow up |
| Reports.TierOf | bot_full.py:352-359 | the tiers are the bands [2, ∞), [1.5, 2), [1, 1.5) and below 1 |
| Reports.TierMonotone | bot_full.py:352-359 | a higher current ratio never gets a worse tier |
| Reports.ListedBefore | bot_full.py:344-347 | the positions below a bound, in increasing order, of periods with figures whose current ratio the engine gives |
| Reports.ListedPositions | bot_full.py:344-347 | the positions, in increasing order, of periods with figures whose current ratio the engine gives |
| Reports.ListedBeforeComplete | bot_full.py:344-347 | every such period below the bound has its position listed |
| Reports.ListedPositionsComplete | bot_full.py:344-347 | no such period is missed: every one has its position listed |
| Reports.LineOf | bot_full.py:347-359 | a listed period's line holds its label, the current ratio the engine gives it and that ratio's tier |
| Reports.LinesBefore | bot_full.py:344-359 | the lines of the listed periods below a bound, one each, in the dataset's order |
| Reports.LiquidityReport | bot_full.py:344-359 | one line for each listed period, in the dataset's order: its label, the engine's current ratio and that ratio's tier |
| Reports.LiquidityReportDistinct | bot_full.py:344-348 | with distinct period labels, as a dictionary has, no period is listed twice |
| Reports.LiquidityReportLines | bot_full.py:344-359 | each line is for a period of the dataset with figures; it carries the current ratio the ratio engine gives that period, and that ratio's tier |
| Reports.LiquidityReportRatio | bot_full.py:344-348 | a period is listed only with positive current liabilities, and its ratio times them is its current assets |
| Reports.LiquidityReportCovers | bot_full.py:344-348 | every period with figures and positive current liabilities has a line |
| Reports.CurrentRatioValue | bot_full.py:262-263 | a current ratio the engine gives comes with positive current liabilities, and times them gives current assets |

## Left out

- The chat side of the bot (bot_full.py:367-543): command handlers, document upload, per-user sessions, message chunking and `main`. Startup code (bot_full.py:13-30) is left out too. All of it is I/O.
- `read_excel_file` (bot_full.py:113-124) is not part of this model. The table comes in already decoded, as headers plus rows of `Cell`.
- `pd.to_numeric` on strings, and NaN and infinity. A string cell never counts as a number, even one that pandas would coerce, such as "1500".
- Extraction.RowItem: a label cell holding a number or nothing is treated as unclassified. In the source, `str()` turns such a cell into text like "1500.0" or "nan", which holds no keyword of the table; this is argued here, not proved.
- Duplicate column names, where pandas would return a frame rather than a column, are not modelled. A row shorter than the header reads as blank in the missing columns.
- Text.Lower: lower-cases only the Latin capitals A-Z and the Cyrillic capitals U+0400 to U+042F; Python's `lower()` covers every script. The keywords of the table use only these two scripts.
- `\d` is taken to match the ASCII digits only; Python also matches other Unicode decimal digits.
- `strptime` is applied only to the ten-character strings the patterns match, and only their form is modelled.
- Dates.DecimalString: `%Y` is written without zero padding for years below 1000, as glibc does. Such a date's text then no longer reads back.
- The text of both reports is left out: headings, emoji, and number formatting such as `:,.0f` and `.2f`. So is the listing of ratios per period (bot_full.py:323-336); it shows what `RatiosFor` computes.
- The `try`/`except` blocks and the `print` in the ratio engine are left out. With real numbers, none of the guarded operations can fail.
- `INDUSTRY_STANDARDS` and `INDICATOR_GROUPS` (bot_full.py:66-109) are declared but never read.

## Findings

| source | as written | input that shows it | evidently intended | confidence | as-written member | corrected member |
|---|---|---|---|---|---|---|
| bot_full.py:145-157 | A pattern match can fit none of the three separator branches. A match with a space as separator is one example, since the first pattern's '.' matches any character. No date is then parsed, yet the period is still appended with `date_obj` left over from an earlier header. | the headers "31.12.2023" then "01 01 2024": the second column gets a second 31.12.2023 period | a match with no applicable branch yields no period, and the next pattern is tried | not executed | StaleDate.StaleDateTaken, with StaleDate.StaleDateExample | Periods.ColumnPeriodsOwnHeader, with Periods.DetectPeriods |
