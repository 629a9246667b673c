/** The salary page: a monthly gross salary plus housing, transport and other allowances, less
    the employee's GOSI (social insurance) contribution and other deductions, and the yearly
    figures. */
module SalaryCalculator {
  import Charts

  /** The employee's GOSI share of the gross salary. */
  const GosiRateEmployee: real := 0.10
  /** The employer's GOSI share, which the employer pays and the employee's salary never loses. */
  const GosiRateEmployer: real := 0.12

  /** The housing-allowance selector; any value other than "percentage" is a fixed amount. */
  datatype HousingType = Percentage | Fixed

  /** The nationality selector. */
  datatype Nationality = Saudi | Expatriate

  datatype SalaryInput = SalaryInput(
    grossSalary: real,
    housingAllowance: real,
    housingType: HousingType,
    transportAllowance: real,
    otherAllowances: real,
    deductions: real,
    hasGosi: bool,
    nationality: Nationality)

  /** The form's starting values. */
  function DefaultInput(): SalaryInput
  {
    SalaryInput(10000.0, 0.0, Percentage, 0.0, 0.0, 0.0, true, Saudi)
  }

  datatype SalaryResult = SalaryResult(
    grossSalary: real,
    housingAmount: real,
    transportAllowance: real,
    otherAllowances: real,
    totalAllowances: real,
    gosiDeduction: real,
    deductions: real,
    netSalary: real,
    yearlyGross: real,
    yearlyAllowances: real,
    yearlyGosi: real,
    yearlyDeductions: real,
    yearlyNet: real)

  /** `calculateSalary`: housing is a percentage of the gross salary or a fixed amount; the
      allowances are housing, transport and other; GOSI is 10% of the gross salary alone when
      the employee is covered and nothing otherwise; the net salary is the gross plus the
      allowances less GOSI and the other deductions; every yearly figure is twelve months of
      its monthly one. */
  function CalculateSalary(s: SalaryInput): (r: SalaryResult)
    ensures s.housingType == Percentage ==> r.housingAmount * 100.0 == s.grossSalary * s.housingAllowance
    ensures s.housingType == Fixed ==> r.housingAmount == s.housingAllowance
    ensures r.totalAllowances == r.housingAmount + s.transportAllowance + s.otherAllowances
    ensures r.gosiDeduction * 10.0 == (if s.hasGosi then s.grossSalary else 0.0)
    ensures r.netSalary + r.gosiDeduction + s.deductions == s.grossSalary + r.totalAllowances
    ensures r.grossSalary == s.grossSalary && r.deductions == s.deductions
    ensures r.transportAllowance == s.transportAllowance && r.otherAllowances == s.otherAllowances
    ensures r.yearlyGross == 12.0 * r.grossSalary && r.yearlyAllowances == 12.0 * r.totalAllowances
    ensures r.yearlyGosi == 12.0 * r.gosiDeduction && r.yearlyDeductions == 12.0 * r.deductions
    ensures r.yearlyNet == 12.0 * r.netSalary
  {
    var housingAmount := if s.housingType == Percentage
      then s.grossSalary * (s.housingAllowance / 100.0)
      else s.housingAllowance;
    var totalAllowances := housingAmount + s.transportAllowance + s.otherAllowances;
    var gosiDeduction := if s.hasGosi then s.grossSalary * GosiRateEmployee else 0.0;
    var netSalary := s.grossSalary + totalAllowances - gosiDeduction - s.deductions;
    SalaryResult(
      s.grossSalary, housingAmount, s.transportAllowance, s.otherAllowances, totalAllowances,
      gosiDeduction, s.deductions, netSalary,
      s.grossSalary * 12.0, totalAllowances * 12.0, gosiDeduction * 12.0, s.deductions * 12.0,
      netSalary * 12.0)
  }

  /** Nationality is asked for but changes nothing in the result. */
  lemma NationalityIrrelevant(s: SalaryInput, n: Nationality)
    ensures CalculateSalary(s.(nationality := n)) == CalculateSalary(s)
  {
  }

  /** GOSI is taken from the gross salary only: no allowance moves it. */
  lemma GosiIgnoresAllowances(s: SalaryInput, housing: real, housingType: HousingType, transport: real, other: real)
    ensures CalculateSalary(s.(housingAllowance := housing, housingType := housingType,
                               transportAllowance := transport, otherAllowances := other)).gosiDeduction
         == CalculateSalary(s).gosiDeduction
  {
  }

  /** Only the employee's 10% is deducted, never the employer's 12%: covering an employee lowers
      the net salary by exactly a tenth of the gross salary. */
  lemma EmployerShareNotDeducted(s: SalaryInput)
    ensures CalculateSalary(s.(hasGosi := false)).netSalary - CalculateSalary(s.(hasGosi := true)).netSalary
         == GosiRateEmployee * s.grossSalary
  {
  }

  /** The yearly net is what is left of the yearly gross and allowances after the yearly GOSI
      and deductions. */
  lemma YearlyFiguresBalance(s: SalaryInput)
    ensures var r := CalculateSalary(s);
      r.yearlyNet == r.yearlyGross + r.yearlyAllowances - r.yearlyGosi - r.yearlyDeductions
  {
  }

  /** With a non-negative salary and non-negative allowances, the net salary is at least nine
      tenths of the gross salary less the other deductions. */
  lemma NetSalaryLowerBound(s: SalaryInput)
    requires s.grossSalary >= 0.0 && s.housingAllowance >= 0.0
    requires s.transportAllowance >= 0.0 && s.otherAllowances >= 0.0
    ensures CalculateSalary(s).netSalary >= 0.9 * s.grossSalary - s.deductions
  {
    assert s.grossSalary * s.housingAllowance >= 0.0;
  }

  /** The page's worked example: 10,000 gross with a 25% housing allowance, 500 for transport
      and GOSI gives allowances of 3,000, GOSI of 1,000, a net salary of 12,000, and 120,000
      gross and 144,000 net a year. */
  lemma WorkedExample()
    ensures var r := CalculateSalary(SalaryInput(10000.0, 25.0, Percentage, 500.0, 0.0, 0.0, true, Saudi));
      r.housingAmount == 2500.0 && r.totalAllowances == 3000.0 && r.gosiDeduction == 1000.0 &&
      r.netSalary == 12000.0 && r.yearlyGross == 120000.0 && r.yearlyNet == 144000.0
  {
  }

  /** The earnings chart: gross salary and the three allowances, those with a positive value, in
      that order. */
  function PieData(r: SalaryResult): (p: seq<Charts.Slice>)
    ensures |p| <= 4
    ensures forall s :: s in p ==> s.value > 0.0
    ensures Charts.Slice("Gross Salary", r.grossSalary) in p <==> r.grossSalary > 0.0
    ensures Charts.Slice("Housing Allowance", r.housingAmount) in p <==> r.housingAmount > 0.0
    ensures Charts.Slice("Transport Allowance", r.transportAllowance) in p <==> r.transportAllowance > 0.0
    ensures Charts.Slice("Other Allowances", r.otherAllowances) in p <==> r.otherAllowances > 0.0
  {
    var slices := [
      Charts.Slice("Gross Salary", r.grossSalary),
      Charts.Slice("Housing Allowance", r.housingAmount),
      Charts.Slice("Transport Allowance", r.transportAllowance),
      Charts.Slice("Other Allowances", r.otherAllowances)];
    assert slices[0] in slices && slices[1] in slices && slices[2] in slices && slices[3] in slices;
    Charts.PositiveSlices(slices)
  }

  /** The deductions chart: GOSI and the other deductions, those with a positive value, in that
      order. */
  function DeductionPieData(r: SalaryResult): (p: seq<Charts.Slice>)
    ensures |p| <= 2
    ensures forall s :: s in p ==> s.value > 0.0
    ensures Charts.Slice("GOSI Deduction", r.gosiDeduction) in p <==> r.gosiDeduction > 0.0
    ensures Charts.Slice("Other Deductions", r.deductions) in p <==> r.deductions > 0.0
  {
    var slices := [
      Charts.Slice("GOSI Deduction", r.gosiDeduction),
      Charts.Slice("Other Deductions", r.deductions)];
    assert slices[0] in slices && slices[1] in slices;
    Charts.PositiveSlices(slices)
  }

  /** The earnings chart keeps exactly its positive entries, in the page's order. */
  lemma PieDataInOrder(r: SalaryResult)
    ensures PieData(r) ==
      Charts.Kept(Charts.Slice("Gross Salary", r.grossSalary)) +
      Charts.Kept(Charts.Slice("Housing Allowance", r.housingAmount)) +
      Charts.Kept(Charts.Slice("Transport Allowance", r.transportAllowance)) +
      Charts.Kept(Charts.Slice("Other Allowances", r.otherAllowances))
  {
    Charts.FourSlices(
      Charts.Slice("Gross Salary", r.grossSalary),
      Charts.Slice("Housing Allowance", r.housingAmount),
      Charts.Slice("Transport Allowance", r.transportAllowance),
      Charts.Slice("Other Allowances", r.otherAllowances));
  }

  /** The deductions chart keeps exactly its positive entries, GOSI first. */
  lemma DeductionPieDataInOrder(r: SalaryResult)
    ensures DeductionPieData(r) ==
      Charts.Kept(Charts.Slice("GOSI Deduction", r.gosiDeduction)) +
      Charts.Kept(Charts.Slice("Other Deductions", r.deductions))
  {
    Charts.TwoSlices(
      Charts.Slice("GOSI Deduction", r.gosiDeduction),
      Charts.Slice("Other Deductions", r.deductions));
  }
}
