/** The rental yield page: the yearly rent, what a vacancy rate leaves of it, the net income
    after expenses, and the gross and net yields on the property value. Rates and yields are
    percentages. */
module RentalYieldCalculator {
  import Charts
  import RealArith

  datatype RentalInput = RentalInput(
    propertyValue: real,
    monthlyRent: real,
    annualExpenses: real,
    vacancyRate: real)

  /** The form's starting values. */
  function DefaultInput(): RentalInput
  {
    RentalInput(1000000.0, 5000.0, 12000.0, 5.0)
  }

  datatype YieldResult = YieldResult(
    annualRent: real,
    adjustedAnnualRent: real,
    annualExpenses: real,
    netAnnualIncome: real,
    grossYield: real,
    netYield: real,
    roi: real)

  /** `calculateYield`: twelve months of rent, less the vacancy rate's share; the net income is
      that less the expenses; the gross yield is the yearly rent and the net yield the net
      income as a percentage of the property value; the return on investment is the net
      yield. */
  function CalculateYield(p: RentalInput): (r: YieldResult)
    requires p.propertyValue != 0.0
    ensures r.annualRent == 12.0 * p.monthlyRent
    ensures r.adjustedAnnualRent * 100.0 == r.annualRent * (100.0 - p.vacancyRate)
    ensures r.annualExpenses == p.annualExpenses
    ensures r.netAnnualIncome + p.annualExpenses == r.adjustedAnnualRent
    ensures r.grossYield * p.propertyValue == r.annualRent * 100.0
    ensures r.netYield * p.propertyValue == r.netAnnualIncome * 100.0
    ensures r.roi == r.netYield
  {
    var annualRent := p.monthlyRent * 12.0;
    var adjustedAnnualRent := annualRent * (1.0 - p.vacancyRate / 100.0);
    var netAnnualIncome := adjustedAnnualRent - p.annualExpenses;
    var grossYield := annualRent / p.propertyValue * 100.0;
    var netYield := netAnnualIncome / p.propertyValue * 100.0;
    var roi := netAnnualIncome / p.propertyValue * 100.0;
    YieldResult(annualRent, adjustedAnnualRent, p.annualExpenses, netAnnualIncome, grossYield, netYield, roi)
  }

  /** Vacancy and expenses only take away: with a positive property value, a non-negative rent
      and expenses and a vacancy rate between 0 and 100, the net yield is at most the gross
      yield, and the net income at most the yearly rent. */
  lemma NetYieldAtMostGross(p: RentalInput)
    requires p.propertyValue > 0.0 && p.monthlyRent >= 0.0 && p.annualExpenses >= 0.0
    requires 0.0 <= p.vacancyRate <= 100.0
    ensures CalculateYield(p).netAnnualIncome <= CalculateYield(p).annualRent
    ensures CalculateYield(p).netYield <= CalculateYield(p).grossYield
  {
    var r := CalculateYield(p);
    assert r.annualRent * 100.0 - r.adjustedAnnualRent * 100.0 == r.annualRent * p.vacancyRate;
    RealArith.MulWeak(r.annualRent, 0.0, p.vacancyRate);
    assert (r.grossYield - r.netYield) * p.propertyValue == (r.annualRent - r.netAnnualIncome) * 100.0;
  }

  /** Without vacancy and expenses the net yield is the gross yield. */
  lemma NoVacancyNoExpenses(p: RentalInput)
    requires p.propertyValue != 0.0 && p.vacancyRate == 0.0 && p.annualExpenses == 0.0
    ensures CalculateYield(p).netAnnualIncome == CalculateYield(p).annualRent
    ensures CalculateYield(p).netYield == CalculateYield(p).grossYield
  {
  }

  /** With a non-negative rent, a higher vacancy rate never raises the net income. */
  lemma VacancyLowersIncome(p: RentalInput, vacancyRate: real)
    requires p.propertyValue != 0.0 && p.monthlyRent >= 0.0 && p.vacancyRate <= vacancyRate
    ensures CalculateYield(p.(vacancyRate := vacancyRate)).netAnnualIncome <= CalculateYield(p).netAnnualIncome
  {
    var r := CalculateYield(p);
    var r' := CalculateYield(p.(vacancyRate := vacancyRate));
    assert (r.adjustedAnnualRent - r'.adjustedAnnualRent) * 100.0 == r.annualRent * (vacancyRate - p.vacancyRate);
    RealArith.MulWeak(r.annualRent, 0.0, vacancyRate - p.vacancyRate);
  }

  /** The page's worked example, which is also the form's starting values: 60,000 a year in
      rent, 57,000 after 5% vacancy, 45,000 net of 12,000 expenses, a 6% gross yield and a
      4.5% net yield and return. */
  lemma WorkedExample()
    ensures CalculateYield(DefaultInput()) == YieldResult(60000.0, 57000.0, 12000.0, 45000.0, 6.0, 4.5, 4.5)
  {
  }

  /** The chart: the net income and the expenses, those with a positive value, in that
      order. */
  function PieData(r: YieldResult): (p: seq<Charts.Slice>)
    ensures |p| <= 2
    ensures forall s :: s in p ==> s.value > 0.0
    ensures Charts.Slice("Net Income", r.netAnnualIncome) in p <==> r.netAnnualIncome > 0.0
    ensures Charts.Slice("Expenses", r.annualExpenses) in p <==> r.annualExpenses > 0.0
  {
    var slices := [Charts.Slice("Net Income", r.netAnnualIncome), Charts.Slice("Expenses", r.annualExpenses)];
    assert slices[0] in slices && slices[1] in slices;
    Charts.PositiveSlices(slices)
  }

  /** The chart keeps exactly its positive entries, net income first. */
  lemma PieDataInOrder(r: YieldResult)
    ensures PieData(r) ==
      Charts.Kept(Charts.Slice("Net Income", r.netAnnualIncome)) + Charts.Kept(Charts.Slice("Expenses", r.annualExpenses))
  {
    Charts.TwoSlices(Charts.Slice("Net Income", r.netAnnualIncome), Charts.Slice("Expenses", r.annualExpenses));
  }

  /** A property whose expenses swallow the rent shows only the expenses. */
  lemma LossMakingChart()
    ensures CalculateYield(RentalInput(1000000.0, 1000.0, 20000.0, 0.0)).netAnnualIncome == -8000.0
    ensures PieData(CalculateYield(RentalInput(1000000.0, 1000.0, 20000.0, 0.0))) == [Charts.Slice("Expenses", 20000.0)]
  {
    var r := CalculateYield(RentalInput(1000000.0, 1000.0, 20000.0, 0.0));
    PieDataInOrder(r);
  }
}
