/**
 * The ratio engine (`calculate_financial_ratios_for_period`,
 * bot_full.py:238-285): seven ratios from one period's figures, each
 * present only when its denominator is positive.
 */
module Ratios {
  import opened Wrappers
  import Classifier

  /** One period's figures: line-item key to value. */
  type Figures = map<string, real>

  // The line-item keys the engine reads (bot_full.py:244-258).
  const TotalAssets := "активы всего"
  const CurrentAssetsKey := "оборотные активы"
  const Cash := "денежные средства"
  const Receivables := "дебиторская задолженность"
  const Inventory := "запасы"
  const Equity := "капитал"
  const CurrentLiabilities := "краткосрочные обязательства"
  const TotalLiabilities := "обязательства всего"
  const Revenue := "выручка"
  const NetProfit := "чистая прибыль"

  /** `data.get(key, 0)`. */
  function Get(data: Figures, key: string): (v: real)
    ensures key !in data ==> v == 0.0
    ensures key in data ==> v == data[key]
  {
    if key in data then data[key] else 0.0
  }

  /**
   * Current assets as the engine uses them (bot_full.py:245-252): the
   * reported figure, or cash + receivables + inventory when it is
   * missing or zero.
   */
  function CurrentAssets(data: Figures): (r: real)
    ensures CurrentAssetsKey in data && data[CurrentAssetsKey] != 0.0 ==> r == data[CurrentAssetsKey]
    ensures CurrentAssetsKey !in data || data[CurrentAssetsKey] == 0.0 ==>
              r == Get(data, Cash) + Get(data, Receivables) + Get(data, Inventory)
  {
    if Get(data, CurrentAssetsKey) == 0.0 then Get(data, Cash) + Get(data, Receivables) + Get(data, Inventory)
    else Get(data, CurrentAssetsKey)
  }

  /** The seven ratios, `None` where the engine leaves the key out. */
  datatype Ratios = Ratios(
    currentLiquidity: Option<real>,   // 'Коэффициент текущей ликвидности'
    absoluteLiquidity: Option<real>,  // 'Коэффициент абсолютной ликвидности'
    returnOnAssets: Option<real>,     // 'Рентабельность активов (ROA)', in percent
    returnOnEquity: Option<real>,     // 'Рентабельность капитала (ROE)', in percent
    returnOnSales: Option<real>,      // 'Рентабельность продаж (ROS)', in percent
    autonomy: Option<real>,           // 'Коэффициент автономии'
    assetTurnover: Option<real>       // 'Оборачиваемость активов'
  )

  /** `numerator / denominator`, present only for a positive denominator. */
  function GatedRatio(numerator: real, denominator: real): (r: Option<real>)
    ensures r.Some? <==> denominator > 0.0
    ensures r.Some? ==> r.value * denominator == numerator
  {
    if denominator > 0.0 then Some(numerator / denominator) else None
  }

  /** `calculate_financial_ratios_for_period(data)`. */
  function RatiosFor(data: Figures): (r: Ratios)
    ensures r.currentLiquidity.Some? <==> Get(data, CurrentLiabilities) > 0.0
    ensures r.absoluteLiquidity.Some? <==> Get(data, CurrentLiabilities) > 0.0
    ensures r.returnOnAssets.Some? <==> Get(data, TotalAssets) > 0.0
    ensures r.autonomy.Some? <==> Get(data, TotalAssets) > 0.0
    ensures r.assetTurnover.Some? <==> Get(data, TotalAssets) > 0.0
    ensures r.returnOnEquity.Some? <==> Get(data, Equity) > 0.0
    ensures r.returnOnSales.Some? <==> Get(data, Revenue) > 0.0
    ensures r.currentLiquidity.Some? ==> r.currentLiquidity.value * Get(data, CurrentLiabilities) == CurrentAssets(data)
    ensures r.absoluteLiquidity.Some? ==> r.absoluteLiquidity.value * Get(data, CurrentLiabilities) == Get(data, Cash)
    ensures r.returnOnAssets.Some? ==> r.returnOnAssets.value * Get(data, TotalAssets) == 100.0 * Get(data, NetProfit)
    ensures r.returnOnEquity.Some? ==> r.returnOnEquity.value * Get(data, Equity) == 100.0 * Get(data, NetProfit)
    ensures r.returnOnSales.Some? ==> r.returnOnSales.value * Get(data, Revenue) == 100.0 * Get(data, NetProfit)
    ensures r.autonomy.Some? ==> r.autonomy.value * Get(data, TotalAssets) == Get(data, Equity)
    ensures r.assetTurnover.Some? ==> r.assetTurnover.value * Get(data, TotalAssets) == Get(data, Revenue)
  {
    var assets := Get(data, TotalAssets);
    var currentAssets := CurrentAssets(data);
    var cash := Get(data, Cash);
    var equity := Get(data, Equity);
    var currentLiabilities := Get(data, CurrentLiabilities);
    var revenue := Get(data, Revenue);
    var netProfit := Get(data, NetProfit);
    Ratios(
      GatedRatio(currentAssets, currentLiabilities),
      GatedRatio(cash, currentLiabilities),
      GatedPercent(netProfit, assets),
      GatedPercent(netProfit, equity),
      GatedPercent(netProfit, revenue),
      GatedRatio(equity, assets),
      GatedRatio(revenue, assets))
  }

  /** `(numerator / denominator) * 100`, present only for a positive denominator. */
  function GatedPercent(numerator: real, denominator: real): (r: Option<real>)
    ensures r.Some? <==> denominator > 0.0
    ensures r.Some? ==> r.value * denominator == 100.0 * numerator
  {
    if denominator > 0.0 then
      var q := numerator / denominator;
      assert q * denominator == numerator;
      assert (q * 100.0) * denominator == 100.0 * (q * denominator);
      Some(q * 100.0)
    else None
  }

  /** Some ratio is present: the report lists the period. */
  predicate AnyRatio(r: Ratios)
  {
    r.currentLiquidity.Some? || r.absoluteLiquidity.Some? || r.returnOnAssets.Some? || r.returnOnEquity.Some?
    || r.returnOnSales.Some? || r.autonomy.Some? || r.assetTurnover.Some?
  }

  // ---------------------------------------------------------------------
  // Properties.

  /** Some ratio is present exactly when one of the four denominators is positive. */
  lemma AnyRatioGated(data: Figures)
    ensures AnyRatio(RatiosFor(data)) <==>
              Get(data, CurrentLiabilities) > 0.0 || Get(data, TotalAssets) > 0.0 || Get(data, Equity) > 0.0 || Get(data, Revenue) > 0.0
  {
  }

  /**
   * The total-liabilities figure is read but never used: changing it
   * leaves every ratio as it was.
   */
  lemma TotalLiabilitiesUnused(data: Figures, v: real)
    ensures RatiosFor(data[TotalLiabilities := v]) == RatiosFor(data)
  {
    var data' := data[TotalLiabilities := v];
    KeysDistinct();
    assert forall k :: (k in {TotalAssets, CurrentAssetsKey, Cash, Receivables, Inventory, Equity, CurrentLiabilities, Revenue, NetProfit}
      ==> Get(data', k) == Get(data, k));
  }

  /** The keys the engine reads are distinct from one another. */
  lemma KeysDistinct()
    ensures TotalLiabilities !in {TotalAssets, CurrentAssetsKey, Cash, Receivables, Inventory, Equity, CurrentLiabilities, Revenue, NetProfit}
  {
  }

  /** Each key the engine reads is one the classifier can produce. */
  lemma KeysAreLineItems()
    ensures forall k :: (k in [TotalAssets, CurrentAssetsKey, Cash, Receivables, Inventory, Equity, CurrentLiabilities, TotalLiabilities, Revenue, NetProfit]
      ==> exists i :: 0 <= i < |Classifier.BalanceItems| && Classifier.BalanceItems[i].0 == k)
  {
    assert Classifier.BalanceItems[7].0 == TotalAssets;
    assert Classifier.BalanceItems[6].0 == CurrentAssetsKey;
    assert Classifier.BalanceItems[5].0 == Cash;
    assert Classifier.BalanceItems[4].0 == Receivables;
    assert Classifier.BalanceItems[3].0 == Inventory;
    assert Classifier.BalanceItems[8].0 == Equity;
    assert Classifier.BalanceItems[12].0 == CurrentLiabilities;
    assert Classifier.BalanceItems[15].0 == TotalLiabilities;
    assert Classifier.BalanceItems[16].0 == Revenue;
    assert Classifier.BalanceItems[21].0 == NetProfit;
  }

  /** Cash 500, receivables 600 and inventory 400 with no current-assets line, against 1000 of current liabilities, give a current ratio of 1.5. */
  lemma ComponentsGiveCurrentRatio()
    ensures RatiosFor(map[Cash := 500.0, Receivables := 600.0, Inventory := 400.0, CurrentLiabilities := 1000.0]).currentLiquidity
         == Some(1.5)
  {
    var data := map[Cash := 500.0, Receivables := 600.0, Inventory := 400.0, CurrentLiabilities := 1000.0];
    KeysDistinct();
    assert CurrentAssetsKey !in data;
    assert CurrentAssets(data) == 1500.0;
  }
}
