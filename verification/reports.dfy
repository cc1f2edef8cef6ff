/**
 * The decisions inside the two report generators: the trend of a key
 * indicator across periods (`generate_period_analysis_report`,
 * bot_full.py:289-338) and the liquidity tier of each period
 * (`generate_liquidity_analysis_report`, bot_full.py:340-362). The text
 * they render is not modelled.
 */
module Reports {
  import opened Wrappers
  import opened Extraction
  import opened Ratios

  /** The indicators whose trend the period report shows, in order (bot_full.py:299). */
  const KeyIndicators: seq<string> := [Revenue, NetProfit, TotalAssets, Equity]

  // ---------------------------------------------------------------------
  // Trends (bot_full.py:301-319).

  /** The period labelled `l` has figures, among them one for `indicator` (`if data and indicator in data`). */
  predicate Carries(ds: Dataset, l: string, indicator: string)
  {
    l in ds.data && ds.data[l] != map[] && indicator in ds.data[l]
  }

  /** The positions below `n` in `ds.order` of the periods that carry `indicator`, in increasing order. */
  function CarriersBefore(ds: Dataset, indicator: string, n: nat): (idx: seq<nat>)
    requires n <= |ds.order|
    ensures forall k :: 0 <= k < |idx| ==> idx[k] < n && Carries(ds, ds.order[idx[k]], indicator)
    ensures forall k, k' :: 0 <= k < k' < |idx| ==> idx[k] < idx[k']
  {
    if n == 0 then []
    else CarriersBefore(ds, indicator, n - 1) + if Carries(ds, ds.order[n - 1], indicator) then [n - 1] else []
  }

  /** The positions in `ds.order` of the periods that carry `indicator`, in increasing order. */
  function CarrierPositions(ds: Dataset, indicator: string): (idx: seq<nat>)
    ensures forall k :: 0 <= k < |idx| ==> idx[k] < |ds.order| && Carries(ds, ds.order[idx[k]], indicator)
    ensures forall k, k' :: 0 <= k < k' < |idx| ==> idx[k] < idx[k']
  {
    CarriersBefore(ds, indicator, |ds.order|)
  }

  /** Every period below `n` that carries the indicator has its position listed. */
  lemma {:induction false} CarriersBeforeComplete(ds: Dataset, indicator: string, n: nat)
    requires n <= |ds.order|
    ensures forall j :: 0 <= j < n && Carries(ds, ds.order[j], indicator) ==> j in CarriersBefore(ds, indicator, n)
  {
    if n > 0 {
      CarriersBeforeComplete(ds, indicator, n - 1);
    }
  }

  /** No carrier is missed: every period that carries the indicator has its position listed. */
  lemma CarrierPositionsComplete(ds: Dataset, indicator: string)
    ensures forall j :: 0 <= j < |ds.order| && Carries(ds, ds.order[j], indicator) ==> j in CarrierPositions(ds, indicator)
  {
    CarriersBeforeComplete(ds, indicator, |ds.order|);
  }

  /** The figures of `indicator` in the periods below `n` that carry it, in the dataset's order. */
  function ValuesBefore(ds: Dataset, indicator: string, n: nat): (r: seq<real>)
    requires n <= |ds.order|
    ensures |r| == |CarriersBefore(ds, indicator, n)|
    ensures forall k :: 0 <= k < |r| ==> r[k] == ds.data[ds.order[CarriersBefore(ds, indicator, n)[k]]][indicator]
  {
    if n == 0 then []
    else
      var l := ds.order[n - 1];
      ValuesBefore(ds, indicator, n - 1) + if Carries(ds, l, indicator) then [ds.data[l][indicator]] else []
  }

  /**
   * The values of `indicator` over the periods (bot_full.py:302-305): the
   * figures of the periods that carry it, in the dataset's order, and no
   * others.
   */
  function IndicatorValues(ds: Dataset, indicator: string): (r: seq<real>)
    ensures |r| == |CarrierPositions(ds, indicator)|
    ensures forall k :: 0 <= k < |r| ==> r[k] == ds.data[ds.order[CarrierPositions(ds, indicator)[k]]][indicator]
  {
    ValuesBefore(ds, indicator, |ds.order|)
  }

  /** The arrow of a trend. */
  datatype Direction = Up | Down | Flat

  /** What the report says about an indicator with two or more values. */
  datatype Trend = Trend(first: real, last: real, change: real, relative: real, direction: Direction)

  /** The relative change in percent: `(last - first) / first * 100`, or 0 when `first` is 0. */
  function RelativeChange(first: real, last: real): (r: real)
    ensures first != 0.0 ==> r * first == (last - first) * 100.0
    ensures first == 0.0 ==> r == 0.0
  {
    if first != 0.0 then
      var q := (last - first) / first;
      assert q * first == last - first;
      assert (q * 100.0) * first == 100.0 * (q * first);
      q * 100.0
    else 0.0
  }

  /** The arrow: up for a positive relative change, down for a negative one, flat for none. */
  function DirectionOf(relative: real): (d: Direction)
    ensures d == Up <==> relative > 0.0
    ensures d == Down <==> relative < 0.0
  {
    if relative > 0.0 then Up else if relative < 0.0 then Down else Flat
  }

  /** The trend of a series of values; `None` with fewer than two, when the report shows none. */
  function TrendOf(values: seq<real>): (r: Option<Trend>)
    ensures r.Some? <==> |values| >= 2
    ensures r.Some? ==> r.value.first == values[0] && r.value.last == values[|values| - 1]
    ensures r.Some? ==> r.value.change + r.value.first == r.value.last
    ensures r.Some? ==> r.value.relative == RelativeChange(r.value.first, r.value.last)
                        && r.value.direction == DirectionOf(r.value.relative)
  {
    if |values| < 2 then None
    else
      var first := values[0];
      var last := values[|values| - 1];
      var relative := RelativeChange(first, last);
      Some(Trend(first, last, last - first, relative, DirectionOf(relative)))
  }

  /**
   * The trend of an indicator over a dataset: present when two periods or
   * more carry it, from the figure of the first such period to that of
   * the last.
   */
  function IndicatorTrend(ds: Dataset, indicator: string): (r: Option<Trend>)
    ensures var idx := CarrierPositions(ds, indicator);
            && (r.Some? <==> |idx| >= 2)
            && (r.Some? ==> && r.value.first == ds.data[ds.order[idx[0]]][indicator]
                            && r.value.last == ds.data[ds.order[idx[|idx| - 1]]][indicator])
  {
    IndicatorValuesEnds(ds, indicator);
    TrendOf(IndicatorValues(ds, indicator))
  }

  /** The first and last values are the figures of the first and last carriers. */
  lemma IndicatorValuesEnds(ds: Dataset, indicator: string)
    ensures var values := IndicatorValues(ds, indicator);
            var idx := CarrierPositions(ds, indicator);
            && |values| == |idx|
            && (|idx| > 0 ==> && values[0] == ds.data[ds.order[idx[0]]][indicator]
                              && values[|values| - 1] == ds.data[ds.order[idx[|idx| - 1]]][indicator])
  {
    var values := IndicatorValues(ds, indicator);
    var idx := CarrierPositions(ds, indicator);
    if |idx| > 0 {
      var k := |idx| - 1;
      assert values[k] == ds.data[ds.order[idx[k]]][indicator];
    }
  }

  /** What the period report shows for one indicator: its values and, from two values on, its trend. */
  datatype Section = Section(indicator: string, values: seq<real>, trend: Option<Trend>)

  /** The sections for `indicators`, in their order; an indicator no period carries gets none (bot_full.py:301-319). */
  function Sections(ds: Dataset, indicators: seq<string>): (r: seq<Section>)
    ensures |r| <= |indicators|
    ensures forall s :: s in r ==> && s.indicator in indicators && s.values == IndicatorValues(ds, s.indicator)
                                   && s.values != [] && s.trend == IndicatorTrend(ds, s.indicator)
    ensures forall i :: i in indicators && IndicatorValues(ds, i) != [] ==> exists s :: s in r && s.indicator == i
  {
    if indicators == [] then []
    else
      var values := IndicatorValues(ds, indicators[0]);
      (if values != [] then [Section(indicators[0], values, TrendOf(values))] else [])
      + Sections(ds, indicators[1..])
  }

  /** The period report's sections: one per key indicator that some period carries. */
  function PeriodReport(ds: Dataset): (r: seq<Section>)
    ensures forall s :: s in r ==> s.indicator in KeyIndicators && s.values != [] && s.trend == IndicatorTrend(ds, s.indicator)
    ensures forall i :: i in KeyIndicators && |CarrierPositions(ds, i)| > 0 ==> exists s :: s in r && s.indicator == i
  {
    Sections(ds, KeyIndicators)
  }

  // ---------------------------------------------------------------------
  // Liquidity tiers (bot_full.py:352-359).

  /** The verdict on a current-liquidity ratio. */
  datatype Tier = Excellent | Normal | Reduced | Critical

  /** The thresholds 2.0, 1.5 and 1.0, checked from the top; the first one reached decides. */
  function TierOf(currentRatio: real): (t: Tier)
    ensures t == Excellent <==> currentRatio >= 2.0
    ensures t == Normal <==> 1.5 <= currentRatio < 2.0
    ensures t == Reduced <==> 1.0 <= currentRatio < 1.5
    ensures t == Critical <==> currentRatio < 1.0
  {
    if currentRatio >= 2.0 then Excellent
    else if currentRatio >= 1.5 then Normal
    else if currentRatio >= 1.0 then Reduced
    else Critical
  }

  /** How good a tier is: 0 for critical up to 3 for excellent. */
  function Rank(t: Tier): nat
  {
    match t
    case Critical => 0
    case Reduced => 1
    case Normal => 2
    case Excellent => 3
  }

  /** One period of the liquidity report: its label, its current ratio and the tier. */
  datatype LiquidityLine = LiquidityLine(period: string, currentRatio: real, tier: Tier)

  /** The period labelled `l` has figures and a current ratio: the liquidity report lists it. */
  predicate Listed(ds: Dataset, l: string)
  {
    l in ds.data && ds.data[l] != map[] && RatiosFor(ds.data[l]).currentLiquidity.Some?
  }

  /** The positions below `n` in `ds.order` of the listed periods, in increasing order. */
  function ListedBefore(ds: Dataset, n: nat): (idx: seq<nat>)
    requires n <= |ds.order|
    ensures forall k :: 0 <= k < |idx| ==> idx[k] < n && Listed(ds, ds.order[idx[k]])
    ensures forall k, k' :: 0 <= k < k' < |idx| ==> idx[k] < idx[k']
  {
    if n == 0 then []
    else ListedBefore(ds, n - 1) + if Listed(ds, ds.order[n - 1]) then [n - 1] else []
  }

  /** The positions in `ds.order` of the listed periods, in increasing order. */
  function ListedPositions(ds: Dataset): (idx: seq<nat>)
    ensures forall k :: 0 <= k < |idx| ==> idx[k] < |ds.order| && Listed(ds, ds.order[idx[k]])
    ensures forall k, k' :: 0 <= k < k' < |idx| ==> idx[k] < idx[k']
  {
    ListedBefore(ds, |ds.order|)
  }

  /** Every listed period below `n` has its position listed. */
  lemma {:induction false} ListedBeforeComplete(ds: Dataset, n: nat)
    requires n <= |ds.order|
    ensures forall j :: 0 <= j < n && Listed(ds, ds.order[j]) ==> j in ListedBefore(ds, n)
  {
    if n > 0 {
      ListedBeforeComplete(ds, n - 1);
    }
  }

  /** No listed period is missed: every one has its position in the report. */
  lemma ListedPositionsComplete(ds: Dataset)
    ensures forall j :: 0 <= j < |ds.order| && Listed(ds, ds.order[j]) ==> j in ListedPositions(ds)
  {
    ListedBeforeComplete(ds, |ds.order|);
  }

  /** The report line of a listed period: its current ratio and that ratio's tier. */
  function LineOf(ds: Dataset, l: string): (line: LiquidityLine)
    requires Listed(ds, l)
    ensures line.period == l && RatiosFor(ds.data[l]).currentLiquidity == Some(line.currentRatio)
    ensures line.tier == TierOf(line.currentRatio)
  {
    var cr := RatiosFor(ds.data[l]).currentLiquidity.value;
    LiquidityLine(l, cr, TierOf(cr))
  }

  /** The report lines of the listed periods below `n`, in the dataset's order. */
  function LinesBefore(ds: Dataset, n: nat): (r: seq<LiquidityLine>)
    requires n <= |ds.order|
    ensures |r| == |ListedBefore(ds, n)|
    ensures forall k :: 0 <= k < |r| ==> r[k] == LineOf(ds, ds.order[ListedBefore(ds, n)[k]])
  {
    if n == 0 then []
    else
      var l := ds.order[n - 1];
      LinesBefore(ds, n - 1) + if Listed(ds, l) then [LineOf(ds, l)] else []
  }

  /**
   * The periods of the liquidity report (bot_full.py:344-359): one line
   * for each listed period, in the dataset's order, and no others.
   */
  function LiquidityReport(ds: Dataset): (r: seq<LiquidityLine>)
    ensures |r| == |ListedPositions(ds)|
    ensures forall k :: 0 <= k < |r| ==> r[k] == LineOf(ds, ds.order[ListedPositions(ds)[k]])
  {
    LinesBefore(ds, |ds.order|)
  }

  // ---------------------------------------------------------------------
  // What the reports promise.

  /** When every period has figures for the indicator, every position below `n` carries it. */
  lemma {:induction false} AllCarryBefore(ds: Dataset, indicator: string, n: nat)
    requires n <= |ds.order|
    requires forall l :: l in ds.order ==> l in ds.data && indicator in ds.data[l]
    ensures var idx := CarriersBefore(ds, indicator, n);
            |idx| == n && forall k :: 0 <= k < n ==> idx[k] == k
  {
    if n > 0 {
      AllCarryBefore(ds, indicator, n - 1);
      var l := ds.order[n - 1];
      assert Carries(ds, l, indicator) by {
        assert indicator in ds.data[l];
      }
    }
  }

  /** When every period has figures for the indicator, its values are those figures in period order. */
  lemma IndicatorValuesAll(ds: Dataset, indicator: string)
    requires forall l :: l in ds.order ==> l in ds.data && indicator in ds.data[l]
    ensures IndicatorValues(ds, indicator) == seq(|ds.order|, j requires 0 <= j < |ds.order| => ds.data[ds.order[j]][indicator])
  {
    AllCarryBefore(ds, indicator, |ds.order|);
  }

  /** A value is listed only for a period of the dataset that has the indicator, and is that period's figure. */
  lemma IndicatorValuesFrom(ds: Dataset, indicator: string, i: nat)
    requires i < |IndicatorValues(ds, indicator)|
    ensures exists j :: 0 <= j < |ds.order| && ds.order[j] in ds.data && indicator in ds.data[ds.order[j]]
                        && IndicatorValues(ds, indicator)[i] == ds.data[ds.order[j]][indicator]
  {
    var j := CarrierPositions(ds, indicator)[i];
    assert Carries(ds, ds.order[j], indicator);
  }

  /** No period before the first carrier position, or after the last one, carries the indicator. */
  lemma CarriersBetween(ds: Dataset, indicator: string)
    requires |CarrierPositions(ds, indicator)| > 0
    ensures var idx := CarrierPositions(ds, indicator);
            && (forall k :: 0 <= k < idx[0] ==> !Carries(ds, ds.order[k], indicator))
            && (forall k :: idx[|idx| - 1] < k < |ds.order| ==> !Carries(ds, ds.order[k], indicator))
  {
    var idx := CarrierPositions(ds, indicator);
    CarrierPositionsComplete(ds, indicator);
    forall k | 0 <= k < |ds.order| && Carries(ds, ds.order[k], indicator)
      ensures idx[0] <= k <= idx[|idx| - 1]
    {
      var m :| 0 <= m < |idx| && idx[m] == k;
      if 0 < m {
        assert idx[0] < idx[m];
      }
      if m < |idx| - 1 {
        assert idx[m] < idx[|idx| - 1];
      }
    }
  }

  /**
   * The trend compares the figure of the first period, in the dataset's
   * order, that carries the indicator with that of the last one; periods
   * without it in between are passed over.
   */
  lemma IndicatorTrendEnds(ds: Dataset, indicator: string)
    requires IndicatorTrend(ds, indicator).Some?
    ensures exists i, j :: && 0 <= i < j < |ds.order|
                           && Carries(ds, ds.order[i], indicator) && Carries(ds, ds.order[j], indicator)
                           && (forall k :: 0 <= k < i ==> !Carries(ds, ds.order[k], indicator))
                           && (forall k :: j < k < |ds.order| ==> !Carries(ds, ds.order[k], indicator))
                           && IndicatorTrend(ds, indicator).value.first == ds.data[ds.order[i]][indicator]
                           && IndicatorTrend(ds, indicator).value.last == ds.data[ds.order[j]][indicator]
  {
    var idx := CarrierPositions(ds, indicator);
    var i, j := idx[0], idx[|idx| - 1];
    assert i < j;
    assert Carries(ds, ds.order[i], indicator) && Carries(ds, ds.order[j], indicator);
    CarriersBetween(ds, indicator);
    var t := IndicatorTrend(ds, indicator).value;
    assert t.first == ds.data[ds.order[i]][indicator] && t.last == ds.data[ds.order[j]][indicator];
  }

  /** The report shows a trend for an indicator exactly when two periods or more carry it. */
  lemma IndicatorTrendPresent(ds: Dataset, indicator: string)
    ensures IndicatorTrend(ds, indicator).Some? <==>
              exists i, j :: 0 <= i < j < |ds.order| && Carries(ds, ds.order[i], indicator) && Carries(ds, ds.order[j], indicator)
  {
    var idx := CarrierPositions(ds, indicator);
    if IndicatorTrend(ds, indicator).Some? {
      assert idx[0] < idx[1];
      assert Carries(ds, ds.order[idx[0]], indicator) && Carries(ds, ds.order[idx[1]], indicator);
      assert exists i, j :: 0 <= i < j < |ds.order| && Carries(ds, ds.order[i], indicator) && Carries(ds, ds.order[j], indicator);
    }
    if exists i, j :: 0 <= i < j < |ds.order| && Carries(ds, ds.order[i], indicator) && Carries(ds, ds.order[j], indicator) {
      var i, j :| 0 <= i < j < |ds.order| && Carries(ds, ds.order[i], indicator) && Carries(ds, ds.order[j], indicator);
      TwoCarriers(ds, indicator, i, j);
    }
  }

  /** Two periods that carry the indicator have two carrier positions. */
  lemma TwoCarriers(ds: Dataset, indicator: string, i: nat, j: nat)
    requires i < j < |ds.order| && Carries(ds, ds.order[i], indicator) && Carries(ds, ds.order[j], indicator)
    ensures |CarrierPositions(ds, indicator)| >= 2
  {
    var idx := CarrierPositions(ds, indicator);
    CarrierPositionsComplete(ds, indicator);
    assert i in idx && j in idx;
    var m :| 0 <= m < |idx| && idx[m] == i;
    var m' :| 0 <= m' < |idx| && idx[m'] == j;
    assert m != m';
  }

  /** The arrow against the values: with a positive first value it points the way the value moved. */
  lemma TrendDirectionPositiveBase(values: seq<real>)
    requires |values| >= 2 && values[0] > 0.0
    ensures var t := TrendOf(values).value;
            && (t.direction == Up <==> t.last > t.first)
            && (t.direction == Down <==> t.last < t.first)
            && (t.direction == Flat <==> t.last == t.first)
  {
    var t := TrendOf(values).value;
    RelativeSign(t.first, t.last);
  }

  /** With a first value of 0 the relative change is 0 and the arrow flat, whatever the last value. */
  lemma TrendDirectionZeroBase(values: seq<real>)
    requires |values| >= 2 && values[0] == 0.0
    ensures TrendOf(values).value.direction == Flat && TrendOf(values).value.relative == 0.0
  {
  }

  /**
   * With a negative first value (a loss, say) the relative change has the
   * opposite sign of the change, so the arrow points down when the value
   * rose and up when it fell.
   */
  lemma TrendDirectionNegativeBase(values: seq<real>)
    requires |values| >= 2 && values[0] < 0.0
    ensures var t := TrendOf(values).value;
            && (t.direction == Up <==> t.last < t.first)
            && (t.direction == Down <==> t.last > t.first)
            && (t.direction == Flat <==> t.last == t.first)
  {
    var t := TrendOf(values).value;
    RelativeSign(t.first, t.last);
  }

  /** The sign of the relative change: that of the change for a positive base, the opposite for a negative one. */
  lemma RelativeSign(first: real, last: real)
    ensures first > 0.0 ==> (RelativeChange(first, last) > 0.0 <==> last > first)
    ensures first > 0.0 ==> (RelativeChange(first, last) < 0.0 <==> last < first)
    ensures first < 0.0 ==> (RelativeChange(first, last) > 0.0 <==> last < first)
    ensures first < 0.0 ==> (RelativeChange(first, last) < 0.0 <==> last > first)
  {
    var r := RelativeChange(first, last);
    if first > 0.0 {
      if r > 0.0 { assert r * first > 0.0; }
      if r < 0.0 { assert r * first < 0.0; }
      if r == 0.0 { assert r * first == 0.0; }
    } else if first < 0.0 {
      if r > 0.0 { assert r * first < 0.0; }
      if r < 0.0 { assert r * first > 0.0; }
      if r == 0.0 { assert r * first == 0.0; }
    }
  }

  /** 800 000 then 1 000 000 is a rise of 200 000, +25 %. */
  lemma RevenueGrowthExample()
    ensures TrendOf([800000.0, 1000000.0]) == Some(Trend(800000.0, 1000000.0, 200000.0, 25.0, Up))
  {
    assert RelativeChange(800000.0, 1000000.0) == 25.0 by {
      var r := RelativeChange(800000.0, 1000000.0);
      assert r * 800000.0 == 20000000.0;
    }
  }

  /** A higher current ratio never gets a worse tier. */
  lemma TierMonotone(a: real, b: real)
    requires a <= b
    ensures Rank(TierOf(a)) <= Rank(TierOf(b))
  {
  }

  /**
   * Every line of the liquidity report is that of a period of the dataset
   * with figures: it holds the ratio engine's current ratio for that
   * period and that ratio's tier.
   */
  lemma LiquidityReportLines(ds: Dataset, line: LiquidityLine)
    requires line in LiquidityReport(ds)
    ensures line.period in ds.order && line.period in ds.data && ds.data[line.period] != map[]
    ensures RatiosFor(ds.data[line.period]).currentLiquidity == Some(line.currentRatio)
    ensures line.tier == TierOf(line.currentRatio)
  {
    var r := LiquidityReport(ds);
    var k :| 0 <= k < |r| && r[k] == line;
    assert Listed(ds, ds.order[ListedPositions(ds)[k]]);
  }

  /**
   * A period is in the liquidity report only with positive current
   * liabilities, and its ratio is current assets over them.
   */
  lemma LiquidityReportRatio(ds: Dataset, line: LiquidityLine)
    requires line in LiquidityReport(ds)
    ensures line.period in ds.data && Get(ds.data[line.period], CurrentLiabilities) > 0.0
    ensures line.currentRatio * Get(ds.data[line.period], CurrentLiabilities) == CurrentAssets(ds.data[line.period])
  {
    LiquidityReportLines(ds, line);
    CurrentRatioValue(ds, line);
  }

  /** A line whose ratio the engine gives for its period: the ratio is current assets over positive current liabilities. */
  lemma CurrentRatioValue(ds: Dataset, line: LiquidityLine)
    requires line.period in ds.data && RatiosFor(ds.data[line.period]).currentLiquidity == Some(line.currentRatio)
    ensures Get(ds.data[line.period], CurrentLiabilities) > 0.0
    ensures line.currentRatio * Get(ds.data[line.period], CurrentLiabilities) == CurrentAssets(ds.data[line.period])
  {
  }

  /** With distinct period labels, as a dictionary has, the report lists each period at most once, in the dataset's order. */
  lemma LiquidityReportDistinct(ds: Dataset)
    requires forall a, b :: 0 <= a < b < |ds.order| ==> ds.order[a] != ds.order[b]
    ensures var r := LiquidityReport(ds);
            forall i, j :: 0 <= i < j < |r| ==> r[i].period != r[j].period
  {
    var r := LiquidityReport(ds);
    var idx := ListedPositions(ds);
    forall i, j | 0 <= i < j < |r| ensures r[i].period != r[j].period {
      assert idx[i] < idx[j];
    }
  }

  /** Conversely, every period with figures and positive current liabilities has a line. */
  lemma LiquidityReportCovers(ds: Dataset, l: string)
    requires l in ds.order && l in ds.data && ds.data[l] != map[] && Get(ds.data[l], CurrentLiabilities) > 0.0
    ensures exists line :: line in LiquidityReport(ds) && line.period == l
  {
    var j :| 0 <= j < |ds.order| && ds.order[j] == l;
    assert Listed(ds, ds.order[j]);
    ListedPositionsComplete(ds);
    var idx := ListedPositions(ds);
    var k :| 0 <= k < |idx| && idx[k] == j;
    assert LiquidityReport(ds)[k].period == l;
  }
}
