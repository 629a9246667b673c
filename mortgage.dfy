/** The mortgage page: the loan is the property price less the down payment, repaid in equal
    monthly instalments by the same amortisation formula as the loan page, which the page
    writes out again for itself. */
module MortgageCalculator {
  import LoanCalculator
  import Inputs

  datatype MortgageInput = MortgageInput(
    propertyPrice: real,
    downPayment: real,
    interestRate: real,
    tenure: nat,
    unit: LoanCalculator.TenureUnit)

  /** The form's starting values. */
  function DefaultInput(): MortgageInput
  {
    MortgageInput(2000000.0, 400000.0, 5.5, 20, LoanCalculator.Years)
  }

  datatype MortgageResult = MortgageResult(
    loanAmount: real,
    emi: real,
    totalInterest: real,
    totalPayment: real,
    downPaymentPercent: real,
    totalMonths: nat)

  /** The divisions of `calculateMortgage` are defined: the price is not zero and the
      amortisation has a defined instalment. */
  predicate Defined(m: MortgageInput)
  {
    m.propertyPrice != 0.0 &&
    LoanCalculator.EmiDefined(LoanCalculator.MonthlyRate(m.interestRate), LoanCalculator.TotalMonths(m.tenure, m.unit))
  }

  /** `calculateMortgage`, with the term in months in both branches: the loan and the down
      payment make up the price, the down payment is its percentage of the price, and the
      instalment, total interest and total payment are the loan page's on the loan amount
      (the page repeats that formula, zero-rate case included, word for word). */
  function CalculateMortgage(m: MortgageInput): (r: MortgageResult)
    requires Defined(m)
    ensures r.loanAmount + m.downPayment == m.propertyPrice
    ensures r.downPaymentPercent * m.propertyPrice == m.downPayment * 100.0
    ensures r.totalMonths == LoanCalculator.TotalMonths(m.tenure, m.unit)
    ensures var e := LoanCalculator.CalculateEmi(r.loanAmount, m.interestRate, m.tenure, m.unit);
      r.emi == e.emi && r.totalInterest == e.totalInterest && r.totalPayment == e.totalPayment
    ensures r.totalPayment == r.emi * r.totalMonths as real
    ensures r.totalInterest == r.totalPayment - r.loanAmount
  {
    var loanAmount := m.propertyPrice - m.downPayment;
    var totalMonths := LoanCalculator.TotalMonths(m.tenure, m.unit);
    var payments := LoanCalculator.Amortize(loanAmount, LoanCalculator.MonthlyRate(m.interestRate), totalMonths);
    var downPaymentPercent := m.downPayment / m.propertyPrice * 100.0;
    MortgageResult(loanAmount, payments.emi, payments.totalInterest, payments.totalPayment, downPaymentPercent, totalMonths)
  }

  /** The monthly instalment pays the loan off exactly over the term. */
  lemma MortgagePaysOff(m: MortgageInput)
    requires Defined(m)
    ensures var r := CalculateMortgage(m);
      LoanCalculator.Balance(r.loanAmount, LoanCalculator.MonthlyRate(m.interestRate), r.emi, r.totalMonths) == 0.0
  {
    var r := CalculateMortgage(m);
    LoanCalculator.CalculateEmiPaysOff(r.loanAmount, m.interestRate, m.tenure, m.unit);
  }

  /** What the code returns: at a zero rate the result carries no `totalMonths`, so the page's
      "Total Payments" line has no number to show. */
  function ReturnedTotalMonths(m: MortgageInput): (r: Inputs.Option<nat>)
    requires Defined(m)
    ensures r.None? <==> m.interestRate == 0.0
    ensures r.Some? ==> r.value == LoanCalculator.TotalMonths(m.tenure, m.unit)
  {
    if LoanCalculator.MonthlyRate(m.interestRate) == 0.0 then Inputs.None else Inputs.Some(CalculateMortgage(m).totalMonths)
  }

  /** A zero-rate mortgage (an interest field left at 0 or cleared) of 20 years: the code
      returns no term, while the corrected result has its 240 months. */
  lemma ZeroRateTermMissing()
    ensures Defined(MortgageInput(2000000.0, 400000.0, 0.0, 20, LoanCalculator.Years))
    ensures ReturnedTotalMonths(MortgageInput(2000000.0, 400000.0, 0.0, 20, LoanCalculator.Years)).None?
    ensures CalculateMortgage(MortgageInput(2000000.0, 400000.0, 0.0, 20, LoanCalculator.Years)).totalMonths == 240
  {
  }

  /** With the form's starting values: a loan of 1,600,000 (a 20% down payment) over 240
      months. */
  lemma WorkedExample()
    ensures Defined(DefaultInput())
    ensures CalculateMortgage(DefaultInput()).loanAmount == 1600000.0
    ensures CalculateMortgage(DefaultInput()).downPaymentPercent == 20.0
    ensures CalculateMortgage(DefaultInput()).totalMonths == 240
  {
    LoanCalculator.PositiveRateDefined(LoanCalculator.MonthlyRate(5.5), 240);
    var r := CalculateMortgage(DefaultInput());
    assert r.downPaymentPercent * 2000000.0 == 400000.0 * 100.0;
  }

  /** At a positive rate and a positive term, a larger down payment lowers the instalment. */
  lemma LargerDownPaymentLowersEmi(m: MortgageInput, extra: real)
    requires m.propertyPrice != 0.0 && m.interestRate > 0.0 && LoanCalculator.TotalMonths(m.tenure, m.unit) >= 1
    requires extra > 0.0
    ensures Defined(m) && Defined(m.(downPayment := m.downPayment + extra))
    ensures CalculateMortgage(m.(downPayment := m.downPayment + extra)).emi < CalculateMortgage(m).emi
  {
    LoanCalculator.PositiveRateDefined(LoanCalculator.MonthlyRate(m.interestRate), LoanCalculator.TotalMonths(m.tenure, m.unit));
    var m' := m.(downPayment := m.downPayment + extra);
    LoanCalculator.SmallerLoanLowersEmi(
      CalculateMortgage(m').loanAmount, CalculateMortgage(m).loanAmount, m.interestRate, m.tenure, m.unit);
  }
}
