/** The loan page: the EMI (equated monthly instalment) calculator and the loan eligibility
    estimate. Amounts are real numbers; a tenure is a whole number of years or months. */
module LoanCalculator {
  import RealArith

  /** The tenure selector; any value other than "years" counts as months. */
  datatype TenureUnit = Years | Months

  /** The term in months. */
  function TotalMonths(tenure: nat, unit: TenureUnit): (n: nat)
    ensures unit == Years ==> n == 12 * tenure
    ensures unit == Months ==> n == tenure
  {
    if unit == Years then tenure * 12 else tenure
  }

  /** The monthly rate for an annual rate given in percent. */
  function MonthlyRate(interestRate: real): (r: real)
    ensures r * 1200.0 == interestRate
    ensures r == 0.0 <==> interestRate == 0.0
  {
    interestRate / 100.0 / 12.0
  }

  /** `Math.pow` for a whole-number exponent. */
  function Pow(x: real, n: nat): (r: real)
    ensures x > 0.0 ==> r > 0.0
    ensures x >= 1.0 ==> r >= 1.0
  {
    if n == 0 then 1.0 else x * Pow(x, n - 1)
  }

  /** The divisions of the calculation are defined: the term is positive at a zero rate, and
      the growth factor differs from 1 otherwise. */
  predicate EmiDefined(monthlyRate: real, months: nat)
  {
    if monthlyRate == 0.0 then months > 0 else Pow(1.0 + monthlyRate, months) != 1.0
  }

  datatype EmiResult = EmiResult(emi: real, totalInterest: real, totalPayment: real)

  /** The loan balance after `k` monthly payments of `payment`: each month the balance earns
      interest at `monthlyRate`, then one payment is deducted. */
  function Balance(principal: real, monthlyRate: real, payment: real, k: nat): real
  {
    if k == 0 then principal
    else Balance(principal, monthlyRate, payment, k - 1) * (1.0 + monthlyRate) - payment
  }

  /** The instalment `P r g / (g - 1)` for a growth factor `g = (1 + r)^n` over the term. */
  function Instalment(principal: real, monthlyRate: real, growth: real): real
    requires growth != 1.0
  {
    principal * monthlyRate * growth / (growth - 1.0)
  }

  /** The amortisation formula on a monthly rate and a term in months, with the special case
      for a zero rate. */
  function Amortize(principal: real, monthlyRate: real, months: nat): (r: EmiResult)
    requires EmiDefined(monthlyRate, months)
    ensures r.totalPayment == r.emi * months as real
    ensures r.totalInterest == r.totalPayment - principal
    ensures monthlyRate == 0.0 ==> r.totalInterest == 0.0 && r.totalPayment == principal
  {
    if monthlyRate == 0.0 then
      EmiResult(principal / months as real, 0.0, principal)
    else
      var growth := Pow(1.0 + monthlyRate, months);
      var emi := Instalment(principal, monthlyRate, growth);
      var totalPayment := emi * months as real;
      EmiResult(emi, totalPayment - principal, totalPayment)
  }

  /** `calculateEMI`: the payments over the term add up to the total, the total exceeds the
      principal by the interest, and at a zero rate there is no interest (CalculateEmiPaysOff
      shows the instalment repays the loan). */
  function CalculateEmi(principal: real, interestRate: real, tenure: nat, unit: TenureUnit): (r: EmiResult)
    requires EmiDefined(MonthlyRate(interestRate), TotalMonths(tenure, unit))
    ensures r.totalPayment == r.emi * TotalMonths(tenure, unit) as real
    ensures r.totalInterest == r.totalPayment - principal
    ensures interestRate == 0.0 ==> r.totalInterest == 0.0 && r.totalPayment == principal
  {
    var monthlyRate := MonthlyRate(interestRate);
    var totalMonths := TotalMonths(tenure, unit);
    Amortize(principal, monthlyRate, totalMonths)
  }

  /** The instalment `calculateEMI` returns is the one that pays the loan off exactly: after
      that many payments at the monthly rate nothing is owed. */
  lemma CalculateEmiPaysOff(principal: real, interestRate: real, tenure: nat, unit: TenureUnit)
    requires EmiDefined(MonthlyRate(interestRate), TotalMonths(tenure, unit))
    ensures Balance(principal, MonthlyRate(interestRate), CalculateEmi(principal, interestRate, tenure, unit).emi,
                    TotalMonths(tenure, unit)) == 0.0
  {
    AmortizePaysOff(principal, MonthlyRate(interestRate), TotalMonths(tenure, unit));
  }

  /** The balance in closed form, scaled by the rate. */
  lemma {:induction false} BalanceClosedForm(principal: real, monthlyRate: real, payment: real, k: nat)
    ensures Balance(principal, monthlyRate, payment, k) * monthlyRate
         == principal * monthlyRate * Pow(1.0 + monthlyRate, k) - payment * (Pow(1.0 + monthlyRate, k) - 1.0)
  {
    if k > 0 {
      BalanceClosedForm(principal, monthlyRate, payment, k - 1);
      ClosedFormStep(principal, monthlyRate, payment, k);
    }
  }

  /** One step of BalanceClosedForm: one more month of interest and one more payment keep the
      closed form. */
  lemma ClosedFormStep(principal: real, monthlyRate: real, payment: real, k: nat)
    requires k > 0
    requires Balance(principal, monthlyRate, payment, k - 1) * monthlyRate
          == principal * monthlyRate * Pow(1.0 + monthlyRate, k - 1) - payment * (Pow(1.0 + monthlyRate, k - 1) - 1.0)
    ensures Balance(principal, monthlyRate, payment, k) * monthlyRate
         == principal * monthlyRate * Pow(1.0 + monthlyRate, k) - payment * (Pow(1.0 + monthlyRate, k) - 1.0)
  {
    ClosedFormArithmetic(principal, monthlyRate, payment,
      Balance(principal, monthlyRate, payment, k - 1), Pow(1.0 + monthlyRate, k - 1),
      Balance(principal, monthlyRate, payment, k), Pow(1.0 + monthlyRate, k));
  }

  /** The arithmetic of ClosedFormStep, taking the balance from `b` to `b'` and the growth from
      `q` to `q'`. */
  lemma ClosedFormArithmetic(principal: real, monthlyRate: real, payment: real, b: real, q: real, b': real, q': real)
    requires b * monthlyRate == principal * monthlyRate * q - payment * (q - 1.0)
    requires b' == b * (1.0 + monthlyRate) - payment && q' == (1.0 + monthlyRate) * q
    ensures b' * monthlyRate == principal * monthlyRate * q' - payment * (q' - 1.0)
  {
    var a := 1.0 + monthlyRate;
    calc {
      b' * monthlyRate;
      (b * a - payment) * monthlyRate;
      a * (b * monthlyRate) - payment * monthlyRate;
      a * (principal * monthlyRate * q - payment * (q - 1.0)) - payment * monthlyRate;
      principal * monthlyRate * (a * q) - payment * (a * q - 1.0);
    }
  }

  /** At a zero rate every payment reduces the balance by its full amount. */
  lemma {:induction false} BalanceZeroRate(principal: real, payment: real, k: nat)
    ensures Balance(principal, 0.0, payment, k) == principal - k as real * payment
  {
    if k > 0 {
      BalanceZeroRate(principal, payment, k - 1);
    }
  }

  /** Paying the instalment for the whole term leaves nothing owing. */
  lemma {:induction false} AmortizePaysOff(principal: real, monthlyRate: real, months: nat)
    requires EmiDefined(monthlyRate, months)
    ensures Balance(principal, monthlyRate, Amortize(principal, monthlyRate, months).emi, months) == 0.0
  {
    if monthlyRate == 0.0 {
      var emi := Amortize(principal, monthlyRate, months).emi;
      BalanceZeroRate(principal, emi, months);
      EvenSplit(principal, months as real, emi, Balance(principal, monthlyRate, emi, months));
    } else {
      InstalmentPaysOff(principal, monthlyRate, months);
    }
  }

  /** At a positive rate the instalment `P r g / (g - 1)` pays the loan off over the term. */
  lemma InstalmentPaysOff(principal: real, monthlyRate: real, months: nat)
    requires monthlyRate != 0.0 && Pow(1.0 + monthlyRate, months) != 1.0
    ensures Balance(principal, monthlyRate, Instalment(principal, monthlyRate, Pow(1.0 + monthlyRate, months)), months) == 0.0
  {
    var q := Pow(1.0 + monthlyRate, months);
    var emi := Instalment(principal, monthlyRate, q);
    BalanceClosedForm(principal, monthlyRate, emi, months);
    InstalmentRepays(principal, monthlyRate, q);
    NothingOwed(principal, monthlyRate, q, emi, Balance(principal, monthlyRate, emi, months));
  }

  /** The arithmetic of the zero-rate case of AmortizePaysOff: `m` payments of `P / m` leave
      nothing of `P`. */
  lemma EvenSplit(principal: real, m: real, emi: real, balance: real)
    requires m != 0.0 && emi == principal / m && balance == principal - m * emi
    ensures balance == 0.0
  {
  }

  /** The arithmetic of the positive-rate case of AmortizePaysOff: when the instalment times
      `g - 1` is `P r g`, the closed form of the balance is zero. */
  lemma NothingOwed(principal: real, monthlyRate: real, q: real, emi: real, balance: real)
    requires monthlyRate != 0.0 && q != 1.0 && emi == Instalment(principal, monthlyRate, q)
    requires balance * monthlyRate == principal * monthlyRate * q - emi * (q - 1.0)
    requires Instalment(principal, monthlyRate, q) * (q - 1.0) == principal * monthlyRate * q
    ensures balance == 0.0
  {
    assert balance * monthlyRate == 0.0;
  }

  /** The instalment times `g - 1` is `P r g`. */
  lemma InstalmentRepays(principal: real, monthlyRate: real, growth: real)
    requires growth != 1.0
    ensures Instalment(principal, monthlyRate, growth) * (growth - 1.0) == principal * monthlyRate * growth
  {
  }

  /** Bernoulli's inequality: `(1 + r)^n >= 1 + n r` for a non-negative rate. */
  lemma {:induction false} PowBernoulli(r: real, n: nat)
    requires r >= 0.0
    ensures Pow(1.0 + r, n) >= 1.0 + n as real * r
  {
    if n > 0 {
      PowBernoulli(r, n - 1);
      var q := Pow(1.0 + r, n - 1);
      assert Pow(1.0 + r, n) == (1.0 + r) * q == q + r * q;
      RealArith.MulWeak(r, 1.0, q);
      assert q >= 1.0 + (n - 1) as real * r;
      assert r * q >= r;
      assert q + r * q >= 1.0 + (n - 1) as real * r + r;
      assert (n - 1) as real * r + r == n as real * r;
    }
  }

  /** The arithmetic of one step of PowGrowthBound, with `q = (1 + r) p`. */
  lemma GrowthStep(r: real, m: real, p: real, q: real)
    requires r > 0.0 && m >= 1.0 && p >= 1.0 && q == p + r * p
    requires p - 1.0 < r * (m - 1.0) * p
    ensures q - 1.0 < r * m * q
  {
    assert r * (m - 1.0) * p + r * p == (r * m) * p;
    RealArith.MulWeak(r * m, p, q);
  }

  /** `(1 + r)^n - 1 < n r (1 + r)^n` for a positive rate and a positive term. */
  lemma {:induction false} PowGrowthBound(r: real, n: nat)
    requires r > 0.0 && n >= 1
    ensures Pow(1.0 + r, n) - 1.0 < r * n as real * Pow(1.0 + r, n)
  {
    if n == 1 {
      assert Pow(1.0 + r, n) == 1.0 + r;
      assert n as real == 1.0;
      RealArith.MulStrict(r, 1.0, 1.0 + r);
      assert r * n as real * Pow(1.0 + r, n) == r * (1.0 + r);
    } else {
      PowGrowthBound(r, n - 1);
      var p := Pow(1.0 + r, n - 1);
      assert Pow(1.0 + r, n) == (1.0 + r) * p == p + r * p;
      assert (n - 1) as real == n as real - 1.0;
      GrowthStep(r, n as real, p, Pow(1.0 + r, n));
    }
  }

  /** At a positive rate every positive term is a valid input. */
  lemma {:induction false} PositiveRateDefined(r: real, n: nat)
    requires r > 0.0 && n >= 1
    ensures EmiDefined(r, n)
    ensures Pow(1.0 + r, n) > 1.0
  {
    PowBernoulli(r, n);
    RealArith.MulStrict(n as real, 0.0, r);
  }

  /** The arithmetic of TotalInterestPositive: with `q - 1 < r m q`, the payments
      `m (P r q / (q - 1))` are at least `P`. */
  lemma PaymentsCoverPrincipal(principal: real, r: real, q: real, m: real)
    requires principal >= 0.0 && r > 0.0 && q > 1.0 && m > 0.0 && q - 1.0 < r * m * q
    ensures Instalment(principal, r, q) * m >= principal
    ensures principal > 0.0 ==> Instalment(principal, r, q) * m > principal
  {
    var d := q - 1.0;
    var e := Instalment(principal, r, q);
    assert e * d == principal * r * q;
    assert (e * m) * d == principal * (r * m * q);
    RealArith.MulWeak(principal, d, r * m * q);
    if e * m < principal {
      RealArith.MulStrict(d, e * m, principal);
      assert false;
    }
    if principal > 0.0 {
      RealArith.MulStrict(principal, d, r * m * q);
      if e * m <= principal {
        RealArith.MulWeak(d, e * m, principal);
        assert false;
      }
    }
  }

  /** At a positive rate the borrower pays back more than was borrowed: the total interest is
      positive for a positive principal and never negative for a non-negative one. */
  lemma {:induction false} TotalInterestPositive(principal: real, r: real, n: nat)
    requires r > 0.0 && n >= 1 && principal >= 0.0
    ensures EmiDefined(r, n)
    ensures Amortize(principal, r, n).totalInterest >= 0.0
    ensures principal > 0.0 ==> Amortize(principal, r, n).totalInterest > 0.0
  {
    PositiveRateDefined(r, n);
    InstalmentsCoverPrincipal(principal, r, n);
  }

  /** At a positive rate the instalments over the term add up to at least the principal, and
      to more than a positive principal. */
  lemma InstalmentsCoverPrincipal(principal: real, r: real, n: nat)
    requires r > 0.0 && n >= 1 && principal >= 0.0
    ensures Pow(1.0 + r, n) > 1.0
    ensures Instalment(principal, r, Pow(1.0 + r, n)) * n as real >= principal
    ensures principal > 0.0 ==> Instalment(principal, r, Pow(1.0 + r, n)) * n as real > principal
  {
    PositiveRateDefined(r, n);
    PowGrowthBound(r, n);
    PaymentsCoverPrincipal(principal, r, Pow(1.0 + r, n), n as real);
  }

  /** `x / (x - 1)` falls as `x` grows beyond 1. */
  lemma RatioDecreasing(x: real, y: real)
    requires 1.0 < x < y
    ensures y / (y - 1.0) < x / (x - 1.0)
  {
    assert y * (x - 1.0) == x * y - y;
    assert x * (y - 1.0) == x * y - x;
    RealArith.DivStrict(y, y - 1.0, x, x - 1.0);
  }

  /** From Bernoulli's bound `q >= 1 + m r` with `a = 1 + r`: `a q > a + m r`. */
  lemma GrowthExceedsLinear(q: real, a: real, m: real)
    requires a > 1.0 && m >= 1.0 && q >= 1.0 + m * (a - 1.0)
    ensures a * q > a + m * (a - 1.0)
  {
    var r := a - 1.0;
    RealArith.MulStrict(m, 0.0, r);
    RealArith.MulWeak(a, 1.0 + m * r, q);
    assert a * (1.0 + m * r) == a + a * (m * r);
    RealArith.MulStrict(m * r, 1.0, a);
  }

  /** The total paid, `m x / (x - 1)` with `x = (1 + r)^m`, grows by one more month of term. */
  lemma TotalRatioGrows(q: real, q': real, a: real, m: real)
    requires a > 1.0 && m >= 1.0 && q >= 1.0 + m * (a - 1.0) && q' == a * q
    ensures (m + 1.0) * q' / (q' - 1.0) > m * q / (q - 1.0)
  {
    var r := a - 1.0;
    GrowthExceedsLinear(q, a, m);
    RealArith.MulStrict(m, 0.0, r);
    assert q > 1.0;
    RealArith.MulStrict(a, 1.0, q);
    var lhs := (m + 1.0) * (a * q) * (q - 1.0);
    var rhs := m * q * (a * q - 1.0);
    assert lhs - rhs == q * (a * q - a - m * r);
    RealArith.MulStrict(q, 0.0, a * q - a - m * r);
    RealArith.DivStrict(m * q, q - 1.0, (m + 1.0) * q', q' - 1.0);
  }

  /** The growth factor over one more month, and both terms valid. */
  lemma {:induction false} OneMoreMonth(r: real, n: nat)
    requires r > 0.0 && n >= 1
    ensures EmiDefined(r, n) && EmiDefined(r, n + 1)
    ensures Pow(1.0 + r, n) > 1.0 && Pow(1.0 + r, n + 1) > 1.0
    ensures Pow(1.0 + r, n + 1) == (1.0 + r) * Pow(1.0 + r, n)
    ensures Pow(1.0 + r, n) >= 1.0 + n as real * r
  {
    PositiveRateDefined(r, n);
    PositiveRateDefined(r, n + 1);
    PowBernoulli(r, n);
  }

  /** The arithmetic of LongerTenureLowersEmi, with `q' = (1 + r) q`. */
  lemma LowerInstalment(principal: real, r: real, q: real, q': real)
    requires principal > 0.0 && r > 0.0 && q > 1.0 && q' == (1.0 + r) * q
    ensures Instalment(principal, r, q') < Instalment(principal, r, q)
  {
    var k := principal * r;
    RealArith.MulStrict(q, 1.0, 1.0 + r);
    RatioDecreasing(q, q');
    RealArith.MulStrict(principal, 0.0, r);
    RealArith.MulStrict(k, q' / (q' - 1.0), q / (q - 1.0));
    RealArith.MulDiv(k, q, q - 1.0);
    RealArith.MulDiv(k, q', q' - 1.0);
  }

  /** The arithmetic of LongerTenureRaisesInterest, with `q' = (1 + r) q` and `q >= 1 + m r`. */
  lemma LargerTotal(principal: real, r: real, q: real, q': real, m: real)
    requires principal > 0.0 && r > 0.0 && m >= 1.0 && q >= 1.0 + m * r && q' == (1.0 + r) * q
    ensures Instalment(principal, r, q') * (m + 1.0) > Instalment(principal, r, q) * m
  {
    TotalRatioGrows(q, q', 1.0 + r, m);
    RealArith.MulStrict(principal, 0.0, r);
    RealArith.MulStrict(principal * r, m * q / (q - 1.0), (m + 1.0) * q' / (q' - 1.0));
    InstalmentTimes(principal, r, q, m);
    InstalmentTimes(principal, r, q', m + 1.0);
  }

  /** `m` instalments: `P r (m g / (g - 1))`. */
  lemma InstalmentTimes(principal: real, r: real, growth: real, m: real)
    requires growth != 1.0
    ensures Instalment(principal, r, growth) * m == principal * r * (m * growth / (growth - 1.0))
  {
    RealArith.MulDivTimes(principal * r, growth, growth - 1.0, m);
  }

  /** A longer tenure at the same positive rate lowers the instalment. */
  lemma {:induction false} LongerTenureLowersEmi(principal: real, r: real, n: nat)
    requires r > 0.0 && n >= 1 && principal > 0.0
    ensures EmiDefined(r, n) && EmiDefined(r, n + 1)
    ensures Amortize(principal, r, n + 1).emi < Amortize(principal, r, n).emi
  {
    OneMoreMonth(r, n);
    LowerInstalment(principal, r, Pow(1.0 + r, n), Pow(1.0 + r, n + 1));
  }

  /** A longer tenure at the same positive rate raises the total interest. */
  lemma {:induction false} LongerTenureRaisesInterest(principal: real, r: real, n: nat)
    requires r > 0.0 && n >= 1 && principal > 0.0
    ensures EmiDefined(r, n) && EmiDefined(r, n + 1)
    ensures Amortize(principal, r, n + 1).totalInterest > Amortize(principal, r, n).totalInterest
  {
    OneMoreMonth(r, n);
    assert (n + 1) as real == n as real + 1.0;
    LargerTotal(principal, r, Pow(1.0 + r, n), Pow(1.0 + r, n + 1), n as real);
  }

  /** At a positive rate and a positive term, a smaller loan has a smaller instalment. */
  lemma SmallerLoanLowersEmi(principal: real, principal': real, interestRate: real, tenure: nat, unit: TenureUnit)
    requires principal < principal' && interestRate > 0.0 && TotalMonths(tenure, unit) >= 1
    ensures EmiDefined(MonthlyRate(interestRate), TotalMonths(tenure, unit))
    ensures CalculateEmi(principal, interestRate, tenure, unit).emi < CalculateEmi(principal', interestRate, tenure, unit).emi
  {
    var r := MonthlyRate(interestRate);
    var n := TotalMonths(tenure, unit);
    PositiveRateDefined(r, n);
    InstalmentGrowsWithPrincipal(principal, principal', r, Pow(1.0 + r, n));
  }

  /** The arithmetic of SmallerLoanLowersEmi: the instalment grows with the principal. */
  lemma InstalmentGrowsWithPrincipal(principal: real, principal': real, r: real, q: real)
    requires principal < principal' && r > 0.0 && q > 1.0
    ensures Instalment(principal, r, q) < Instalment(principal', r, q)
  {
    RealArith.MulStrict(r * q / (q - 1.0), principal, principal');
    RealArith.MulDiv(principal * r, q, q - 1.0);
    RealArith.MulDiv(principal' * r, q, q - 1.0);
    RealArith.DivStrict(0.0, 1.0, q, q - 1.0);
  }

  datatype Eligibility = Eligibility(
    availableIncome: real,
    monthlyEmiCapacity: real,
    yearlyEmiCapacity: real,
    estimatedMaxLoan: real)

  /** `calculateEligibility`: the bank's share of the income left after obligations, and a loan
      estimate of twenty years of that instalment. */
  function CalculateEligibility(monthlyIncome: real, existingObligations: real, bankLimit: real): (r: Eligibility)
    ensures r.availableIncome + existingObligations == monthlyIncome
    ensures r.monthlyEmiCapacity * 100.0 == r.availableIncome * bankLimit
    ensures r.yearlyEmiCapacity == 12.0 * r.monthlyEmiCapacity
    ensures r.estimatedMaxLoan == 20.0 * r.yearlyEmiCapacity
  {
    var availableIncome := monthlyIncome - existingObligations;
    var monthlyEmiCapacity := availableIncome * (bankLimit / 100.0);
    var yearlyEmiCapacity := monthlyEmiCapacity * 12.0;
    var estimatedMaxLoan := monthlyEmiCapacity * 12.0 * 20.0;
    Eligibility(availableIncome, monthlyEmiCapacity, yearlyEmiCapacity, estimatedMaxLoan)
  }

  /** The estimate ignores interest: it is the loan that the monthly capacity repays over 240
      months at a zero rate, and at any positive rate its instalment exceeds that capacity. */
  lemma EstimateIgnoresInterest(monthlyIncome: real, existingObligations: real, bankLimit: real, r: real)
    requires r > 0.0
    ensures Amortize(CalculateEligibility(monthlyIncome, existingObligations, bankLimit).estimatedMaxLoan, 0.0, 240).emi
         == CalculateEligibility(monthlyIncome, existingObligations, bankLimit).monthlyEmiCapacity
    ensures EmiDefined(r, 240)
    ensures CalculateEligibility(monthlyIncome, existingObligations, bankLimit).monthlyEmiCapacity > 0.0 ==>
      Amortize(CalculateEligibility(monthlyIncome, existingObligations, bankLimit).estimatedMaxLoan, r, 240).emi
        > CalculateEligibility(monthlyIncome, existingObligations, bankLimit).monthlyEmiCapacity
  {
    var e := CalculateEligibility(monthlyIncome, existingObligations, bankLimit);
    assert e.estimatedMaxLoan == 240.0 * e.monthlyEmiCapacity;
    PositiveRateDefined(r, 240);
    if e.monthlyEmiCapacity > 0.0 {
      TotalInterestPositive(e.estimatedMaxLoan, r, 240);
      var res := Amortize(e.estimatedMaxLoan, r, 240);
      assert res.emi * 240.0 > e.monthlyEmiCapacity * 240.0;
    }
  }
}
