/** The zakat page: totals the zakatable assets, compares the net wealth with the nisab
    threshold (the value of 85 grams of gold) and takes 2.5% of the net wealth when it reaches
    the threshold. Amounts are in riyals, gold and silver in grams. */
module ZakatCalculator {
  import Charts

  /** The nisab in grams of gold. */
  const NisabGoldGrams: real := 85.0
  /** The page's starting gold and silver prices per gram. */
  const GoldPricePerGram: real := 250.0
  const SilverPricePerGram: real := 3.0
  /** Zakat is 2.5% of the net wealth. */
  const ZakatRate: real := 0.025

  datatype ZakatInput = ZakatInput(
    cash: real,
    gold: real,
    silver: real,
    stocks: real,
    business: real,
    debts: real,
    goldPrice: real,
    silverPrice: real)

  /** The form's starting values. */
  function DefaultInput(): ZakatInput
  {
    ZakatInput(50000.0, 100.0, 0.0, 0.0, 0.0, 0.0, GoldPricePerGram, SilverPricePerGram)
  }

  datatype ZakatResult = ZakatResult(
    totalAssets: real,
    netWealth: real,
    nisabThreshold: real,
    isEligible: bool,
    zakatAmount: real,
    goldValue: real,
    silverValue: real)

  /** `calculateZakat`: the assets are cash, the value of the gold and silver, stocks and
      business assets; the net wealth is what is left after debts; the threshold is the value
      of 85 grams of gold; wealth at or above the threshold owes 2.5% of it, and wealth below
      owes nothing. */
  function CalculateZakat(z: ZakatInput): (r: ZakatResult)
    ensures r.goldValue == z.gold * z.goldPrice && r.silverValue == z.silver * z.silverPrice
    ensures r.totalAssets == z.cash + r.goldValue + r.silverValue + z.stocks + z.business
    ensures r.netWealth + z.debts == r.totalAssets
    ensures r.nisabThreshold == 85.0 * z.goldPrice
    ensures r.isEligible <==> r.netWealth >= r.nisabThreshold
    ensures r.isEligible ==> r.zakatAmount * 40.0 == r.netWealth
    ensures !r.isEligible ==> r.zakatAmount == 0.0
  {
    var goldValue := z.gold * z.goldPrice;
    var silverValue := z.silver * z.silverPrice;
    var totalAssets := z.cash + goldValue + silverValue + z.stocks + z.business;
    var netWealth := totalAssets - z.debts;
    var nisabThreshold := NisabGoldGrams * z.goldPrice;
    var isEligible := netWealth >= nisabThreshold;
    var zakatAmount := if isEligible then netWealth * ZakatRate else 0.0;
    ZakatResult(totalAssets, netWealth, nisabThreshold, isEligible, zakatAmount, goldValue, silverValue)
  }

  /** The threshold depends on the gold price alone: no silver quantity or silver price moves
      it. */
  lemma NisabIgnoresSilver(z: ZakatInput, silver: real, silverPrice: real)
    ensures CalculateZakat(z.(silver := silver, silverPrice := silverPrice)).nisabThreshold
         == CalculateZakat(z).nisabThreshold
  {
  }

  /** Wealth exactly at the threshold is eligible. */
  lemma ThresholdIsEligible(z: ZakatInput)
    requires CalculateZakat(z).netWealth == CalculateZakat(z).nisabThreshold
    ensures CalculateZakat(z).isEligible
    ensures CalculateZakat(z).zakatAmount == CalculateZakat(z).nisabThreshold * ZakatRate
  {
  }

  /** With a non-negative gold price zakat is never negative, and it is positive exactly when
      the wealth is eligible and positive. */
  lemma ZakatNonNegative(z: ZakatInput)
    requires z.goldPrice >= 0.0
    ensures CalculateZakat(z).zakatAmount >= 0.0
    ensures CalculateZakat(z).zakatAmount > 0.0 <==> CalculateZakat(z).isEligible && CalculateZakat(z).netWealth > 0.0
  {
  }

  /** With a non-negative gold price, more cash never lowers the zakat: eligible wealth stays
      eligible and owes more, and wealth that reaches the threshold starts to owe. */
  lemma MoreCashNeverLowersZakat(z: ZakatInput, extra: real)
    requires z.goldPrice >= 0.0 && extra >= 0.0
    ensures CalculateZakat(z).isEligible ==> CalculateZakat(z.(cash := z.cash + extra)).isEligible
    ensures CalculateZakat(z.(cash := z.cash + extra)).zakatAmount >= CalculateZakat(z).zakatAmount
  {
    ZakatNonNegative(z.(cash := z.cash + extra));
  }

  /** The page's worked example: 50,000 in cash, 100 grams of gold at 250, 20,000 in stocks
      and 5,000 of debts give assets of 95,000, net wealth of 90,000, a threshold of 21,250 and
      zakat of 2,250. */
  lemma WorkedExample()
    ensures CalculateZakat(ZakatInput(50000.0, 100.0, 0.0, 20000.0, 0.0, 5000.0, 250.0, 3.0))
         == ZakatResult(95000.0, 90000.0, 21250.0, true, 2250.0, 25000.0, 0.0)
  {
  }

  /** The asset breakdown the chart draws: the asset classes with a positive value, in the
      page's order (ChartDataInOrder). At most the five classes are drawn, all positive. */
  function ChartData(z: ZakatInput): (r: seq<Charts.Slice>)
    ensures |r| <= 5
    ensures forall s :: s in r ==> s.value > 0.0
  {
    var result := CalculateZakat(z);
    var slices := [
      Charts.Slice("Cash", z.cash),
      Charts.Slice("Gold", result.goldValue),
      Charts.Slice("Silver", result.silverValue),
      Charts.Slice("Stocks", z.stocks),
      Charts.Slice("Business", z.business)];
    Charts.PositiveSlices(slices)
  }

  /** The chart keeps exactly the positive asset classes, in the page's order. */
  lemma ChartDataInOrder(z: ZakatInput)
    ensures ChartData(z) ==
      Charts.Kept(Charts.Slice("Cash", z.cash)) +
      Charts.Kept(Charts.Slice("Gold", z.gold * z.goldPrice)) +
      Charts.Kept(Charts.Slice("Silver", z.silver * z.silverPrice)) +
      Charts.Kept(Charts.Slice("Stocks", z.stocks)) +
      Charts.Kept(Charts.Slice("Business", z.business))
  {
    var r := CalculateZakat(z);
    assert r.goldValue == z.gold * z.goldPrice && r.silverValue == z.silver * z.silverPrice;
    Charts.FiveSlices(
      Charts.Slice("Cash", z.cash),
      Charts.Slice("Gold", r.goldValue),
      Charts.Slice("Silver", r.silverValue),
      Charts.Slice("Stocks", z.stocks),
      Charts.Slice("Business", z.business));
  }

  /** With the form's starting values the chart shows cash and gold only. */
  lemma DefaultChart()
    ensures ChartData(DefaultInput()) == [Charts.Slice("Cash", 50000.0), Charts.Slice("Gold", 25000.0)]
  {
    ChartDataInOrder(DefaultInput());
  }

  /** With the form's starting values the wealth is eligible: 75,000 against a threshold of
      21,250, owing 1,875. */
  lemma DefaultInputOwesZakat()
    ensures CalculateZakat(DefaultInput()).netWealth == 75000.0
    ensures CalculateZakat(DefaultInput()).isEligible
    ensures CalculateZakat(DefaultInput()).zakatAmount == 1875.0
  {
  }
}
