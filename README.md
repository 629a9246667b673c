# Gulf Helper calculators in Dafny

This project models the arithmetic behind the Gulf Helper website's calculator pages:

- the VAT calculator that adds VAT to an amount or takes it out;
- the zakat calculator, with its gold-based nisab threshold and 2.5% rate;
- the salary calculator, with housing, transport and other allowances and the employee's 10% GOSI deduction;
- the loan page's EMI (equated monthly instalment) calculator and its eligibility estimate;
- the mortgage calculator;
- the rental yield calculator;
- the VAT invoice generator's list of lines and its totals.

Each calculator is a function from its form's values to its result record. The positive-value filters that select what the pie charts draw are modelled as well. Amounts are real numbers, and a term is a whole number of months or years.

The modules:

- `Seqs` holds the list filter that the remove operation and every chart use.
- `RealArith` holds a few facts about real multiplication and division.
- `Inputs` models how the number fields coerce what was typed.
- `Charts` holds the chart slices.
- `VatCalculator`, `Invoice`, `ZakatCalculator`, `SalaryCalculator`, `LoanCalculator`, `MortgageCalculator` and `RentalYieldCalculator` follow the pages one by one.

What is specified and proved:

- Every result field's relation to the inputs.
- The round trip between adding and removing VAT.
- The zakat threshold rule in both directions.
- On the loan page:
  - The instalment really repays the loan. After that many months of interest and payments the balance is exactly zero.
  - The interest is never negative at a positive rate.
  - A longer term lowers the instalment and raises the interest, as the page says.
- For the invoice:
  - Exactly what adding, removing and updating a line keep and change.
  - The totals loop computes the sums of the per-line figures, and the per-line totals add up to the invoice total.

## Model

| member | source | states |
|---|---|---|
| Inputs.AmountField | app/tools/vat-calculator/page.tsx:78 | An amount field reads 0 exactly when the entry is unparsable or 0, and otherwise keeps the typed number. |
| Inputs.QuantityField | app/tools/vat-calculator/page.tsx:88 | The quantity field is never 0: an unparsable or zero entry reads as 1, and any other entry is kept. |
| VatCalculator.AddVat | app/tools/vat-calculator/page.tsx:26-31 | With VAT added, the original amount is the base, the VAT times 100 is the base times the rate, and the original plus the VAT is the total. |
| VatCalculator.RemoveVat | app/tools/vat-calculator/page.tsx:32-37 | With VAT taken out, the total is the given amount, the original amount with the rate added gives back the total, and the original plus the VAT is the total. |
| VatCalculator.CalculateVat | app/tools/vat-calculator/page.tsx:19-45 | The mode decides whether amount times quantity is taken to exclude VAT (AddVat) or to include it (RemoveVat). In both modes the original amount plus the VAT is the total, and the rate is returned unchanged. |
| VatCalculator.RemoveAfterAdd | app/tools/vat-calculator/page.tsx:238-248 | Taking VAT out of the total that adding VAT produced, at the same rate, gives back the same breakdown and so the original base. |
| VatCalculator.AddAfterRemove | app/tools/vat-calculator/page.tsx:32-37 | Adding VAT back to what removing it left gives back the same breakdown and so the original total. |
| VatCalculator.ZeroRate | app/tools/vat-calculator/page.tsx:25-37 | At a 0% rate both modes give no VAT, and the original amount equals the total. |
| VatCalculator.VatWithinTotal | app/tools/vat-calculator/page.tsx:25-37 | With a non-negative amount and rate, the VAT lies between 0 and the total in both modes. |
| VatCalculator.WorkedExamples | app/tools/vat-calculator/page.tsx:225-248 | At 15%, VAT on 1,000 is 150 for a total of 1,150, and taking VAT out of 1,150 leaves 1,000. |
| Invoice.AddItem | app/tools/vat-invoice-generator/page.tsx:36-44 | Adding a line keeps every earlier line unchanged and in place. It appends exactly one line at the end: the given id, an empty description, quantity 1, unit price 0 and a 15% rate. |
| Invoice.AddItemKeepsIdsUnique | app/tools/vat-invoice-generator/page.tsx:36-44 | Adding a line with a fresh id keeps the ids distinct. |
| Invoice.RemoveItem | app/tools/vat-invoice-generator/page.tsx:46-48 | Removing by id never grows the list. No remaining line has that id, every remaining line was in the list, and every line with another id remains. |
| Invoice.RemoveItemKeepsOrder | app/tools/vat-invoice-generator/page.tsx:46-48 | Removing from two lists joined together is removing from each part, so the lines that stay keep their order. |
| Invoice.RemoveAbsentId | app/tools/vat-invoice-generator/page.tsx:46-48 | Removing an id that no line has leaves the list as it was. |
| Invoice.RemoveExactlyOne | app/tools/vat-invoice-generator/page.tsx:46-48 | When the ids are distinct, removing line k's id deletes exactly line k and keeps the others in order. |
| Invoice.RemoveItemKeepsIdsUnique | app/tools/vat-invoice-generator/page.tsx:46-48 | Removing a line keeps distinct ids distinct. |
| Invoice.RemoveFromUiKeepsALine | app/tools/vat-invoice-generator/page.tsx:283-292 | The page offers removal only when there is more than one line, so removing a line never empties the invoice. |
| Invoice.SetField | app/tools/vat-invoice-generator/page.tsx:50-54 | Updating a line sets the named field to the new value and keeps every other field. |
| Invoice.UpdateItem | app/tools/vat-invoice-generator/page.tsx:50-54 | Updating by id keeps the length and the order. Lines with that id get the field update, and every other line is unchanged. |
| Invoice.UpdateReachesOneLine | app/tools/vat-invoice-generator/page.tsx:50-54 | When the ids are distinct, updating line k's id changes line k alone. |
| Invoice.UpdateItemKeepsIdsUnique | app/tools/vat-invoice-generator/page.tsx:50-54 | An update of any field other than the id keeps distinct ids distinct. |
| Invoice.LineVat | app/tools/vat-invoice-generator/page.tsx:115-118 | A line's VAT times 100 is its quantity times its unit price times its rate. |
| Invoice.LineTotal | app/tools/vat-invoice-generator/page.tsx:389-392 | A line's total with VAT times 100 is its net amount times 100 plus its rate. |
| Invoice.CalculateTotals | app/tools/vat-invoice-generator/page.tsx:56-68 | The subtotal is the sum of the lines' net amounts and the VAT is the sum of their VAT. The total is the two together, which is also the sum of the line totals. An empty invoice gives zeros. |
| Invoice.LineTotalsAddUp | app/tools/vat-invoice-generator/page.tsx:115-118 | The per-line totals with VAT add up to the net sum plus the VAT sum, which is the invoice total. |
| Invoice.ZeroRatedInvoice | app/tools/vat-invoice-generator/page.tsx:56-68 | When every line is zero-rated, there is no VAT and the total is the subtotal. |
| Invoice.TotalsNonNegative | app/tools/vat-invoice-generator/page.tsx:56-68 | With non-negative quantities, prices and rates, the subtotal and the VAT are non-negative. |
| Invoice.AddItemKeepsTotals | app/tools/vat-invoice-generator/page.tsx:36-44 | The new empty line has a zero price, so adding it changes no total. |
| Invoice.InitialTotals | app/tools/vat-invoice-generator/page.tsx:32-34 | The starting invoice (2 at 1,000 at 15%) has a subtotal of 2,000, VAT of 300 and a total of 2,300. |
| Charts.PositiveSlices | app/tools/salary-calculator/page.tsx:72-77 | The chart filter keeps exactly the slices with a positive value and never adds any. |
| Charts.PositiveSlicesKeepOrder | app/tools/salary-calculator/page.tsx:72-77 | Filtering keeps the order of the slices. |
| ZakatCalculator.CalculateZakat | app/tools/zakat-calculator/page.tsx:32-53 | The assets are cash plus the gold and silver values plus stocks and business, and the net wealth is that less the debts. The threshold is 85 grams' worth of gold. The wealth is eligible if and only if it reaches the threshold. Eligible wealth owes a fortieth of itself (2.5%), and other wealth owes nothing. |
| ZakatCalculator.NisabIgnoresSilver | app/tools/zakat-calculator/page.tsx:39 | No silver quantity or silver price changes the threshold. |
| ZakatCalculator.ThresholdIsEligible | app/tools/zakat-calculator/page.tsx:41-42 | Wealth exactly at the threshold is eligible and owes 2.5% of it. |
| ZakatCalculator.ZakatNonNegative | app/tools/zakat-calculator/page.tsx:39-42 | With a non-negative gold price, zakat is never negative. It is positive exactly when the wealth is eligible and positive. |
| ZakatCalculator.MoreCashNeverLowersZakat | app/tools/zakat-calculator/page.tsx:33-42 | With a non-negative gold price, more cash keeps eligible wealth eligible and never lowers the zakat. |
| ZakatCalculator.WorkedExample | app/tools/zakat-calculator/page.tsx:333-342 | The page's example gives assets of 95,000, a net of 90,000, a threshold of 21,250 and zakat of 2,250. |
| ZakatCalculator.ChartData | app/tools/zakat-calculator/page.tsx:57-63 | The asset chart has at most the five asset classes, all of them positive. |
| ZakatCalculator.ChartDataInOrder | app/tools/zakat-calculator/page.tsx:57-63 | The asset chart keeps exactly the positive asset classes, in the page's order. |
| ZakatCalculator.DefaultChart | app/tools/zakat-calculator/page.tsx:23-30 | With the form's starting values, the chart shows cash (50,000) and gold (25,000) only. |
| ZakatCalculator.DefaultInputOwesZakat | app/tools/zakat-calculator/page.tsx:23-30 | With the form's starting values, the net wealth of 75,000 is eligible and owes 1,875. |
| SalaryCalculator.CalculateSalary | app/tools/salary-calculator/page.tsx:29-68 | Housing is the percentage of the gross salary or the fixed amount. The allowances are housing, transport and other. GOSI is a tenth of the gross salary when the employee is covered, and 0 otherwise. The net salary plus GOSI plus the deductions is the gross salary plus the allowances. Every yearly figure is twelve times its monthly one. |
| SalaryCalculator.NationalityIrrelevant | app/tools/salary-calculator/page.tsx:27 | The nationality never changes any result. |
| SalaryCalculator.GosiIgnoresAllowances | app/tools/salary-calculator/page.tsx:39-41 | No allowance changes the GOSI deduction. |
| SalaryCalculator.EmployerShareNotDeducted | app/tools/salary-calculator/page.tsx:14-15 | Being covered lowers the net salary by exactly 10% of the gross salary. The employer's 12% is never taken. |
| SalaryCalculator.YearlyFiguresBalance | app/tools/salary-calculator/page.tsx:47-51 | The yearly net is the yearly gross plus the yearly allowances, less the yearly GOSI and deductions. |
| SalaryCalculator.NetSalaryLowerBound | app/tools/salary-calculator/page.tsx:31-44 | With a non-negative salary and allowances, the net salary is at least 90% of the gross salary less the deductions. |
| SalaryCalculator.WorkedExample | app/tools/salary-calculator/page.tsx:419-436 | The page's example gives allowances of 3,000, GOSI of 1,000, a net salary of 12,000, and yearly gross and net of 120,000 and 144,000. |
| SalaryCalculator.PieData | app/tools/salary-calculator/page.tsx:72-77 | The earnings chart shows each of gross, housing, transport and other if and only if it is positive. |
| SalaryCalculator.DeductionPieData | app/tools/salary-calculator/page.tsx:79-82 | The deductions chart shows GOSI and the other deductions, each if and only if it is positive. |
| SalaryCalculator.PieDataInOrder | app/tools/salary-calculator/page.tsx:72-77 | The earnings chart keeps exactly its positive entries, in the page's order. |
| SalaryCalculator.DeductionPieDataInOrder | app/tools/salary-calculator/page.tsx:79-82 | The deductions chart keeps exactly its positive entries, GOSI first. |
| LoanCalculator.TotalMonths | app/tools/loan-calculator/page.tsx:25 | A term in years is twelve times as many months, and a term in months is kept. |
| LoanCalculator.MonthlyRate | app/tools/loan-calculator/page.tsx:23-24 | The monthly rate is a twelfth of the annual percentage rate, and it is 0 exactly when that rate is 0. |
| LoanCalculator.Amortize | app/tools/loan-calculator/page.tsx:27-39 | The payments over the term add up to the total, and the interest is the total less the principal. At a zero rate there is no interest. |
| LoanCalculator.CalculateEmi | app/tools/loan-calculator/page.tsx:21-47 | The instalment times the months is the total payment, the total less the principal is the interest, and a 0% loan has no interest. |
| LoanCalculator.CalculateEmiPaysOff | app/tools/loan-calculator/page.tsx:35-36 | Paying the returned instalment every month for the term, with interest at the monthly rate, leaves exactly nothing owed. |
| LoanCalculator.BalanceClosedForm | app/tools/loan-calculator/page.tsx:35-36 | The balance after k months, scaled by the rate, is the principal grown by (1+r)^k less the payments grown likewise. |
| LoanCalculator.AmortizePaysOff | app/tools/loan-calculator/page.tsx:27-36 | Both branches of the formula repay the principal exactly over the term. |
| LoanCalculator.InstalmentPaysOff | app/tools/loan-calculator/page.tsx:35-36 | The instalment P·r·g/(g−1) with g = (1+r)^N leaves nothing owed after N months. |
| LoanCalculator.TotalInterestPositive | app/tools/loan-calculator/page.tsx:35-39 | At a positive rate and term the formula is defined. The interest is non-negative, and it is positive for a positive principal. |
| LoanCalculator.LongerTenureLowersEmi | app/tools/loan-calculator/page.tsx:464 | At the same positive rate, one more month of term lowers the instalment. |
| LoanCalculator.LongerTenureRaisesInterest | app/tools/loan-calculator/page.tsx:464 | At the same positive rate, one more month of term raises the total interest. |
| LoanCalculator.SmallerLoanLowersEmi | app/tools/loan-calculator/page.tsx:35-36 | At a positive rate and term, a smaller principal has a smaller instalment. |
| LoanCalculator.CalculateEligibility | app/tools/loan-calculator/page.tsx:150-169 | The available income is the income less the obligations, and the monthly capacity is the bank's percentage of it. The yearly capacity is twelve months of that, and the estimate is twenty years of it. |
| LoanCalculator.EstimateIgnoresInterest | app/tools/loan-calculator/page.tsx:159-161 | The estimate is exactly the loan that the monthly capacity repays over 240 months at a zero rate. At any positive rate its instalment exceeds that capacity. |
| MortgageCalculator.CalculateMortgage | app/tools/mortgage-calculator/page.tsx:20-51 | The loan plus the down payment is the price, and the down-payment percentage of the price is the down payment. The term is counted in months. The instalment, interest and total are the loan page's on the loan amount. |
| MortgageCalculator.MortgagePaysOff | app/tools/mortgage-calculator/page.tsx:36-41 | The mortgage instalment pays the loan off exactly over the term. |
| MortgageCalculator.LargerDownPaymentLowersEmi | app/tools/mortgage-calculator/page.tsx:36-37 | At a positive rate and term, a larger down payment lowers the instalment. |
| MortgageCalculator.ReturnedTotalMonths | app/tools/mortgage-calculator/page.tsx:26-34 | As written, the result carries no term in months if and only if the rate is zero. |
| MortgageCalculator.ZeroRateTermMissing | app/tools/mortgage-calculator/page.tsx:188 | For a 20-year mortgage at 0%, the code returns no term for the "Total Payments" line, while the corrected result has 240 months. |
| MortgageCalculator.WorkedExample | app/tools/mortgage-calculator/page.tsx:276-278 | With 2,000,000 and 400,000 down, the loan is 1,600,000, the down payment is 20%, and the term is 240 months. |
| RentalYieldCalculator.CalculateYield | app/tools/rental-yield-calculator/page.tsx:21-38 | The yearly rent is twelve months of it, and the adjusted rent is what the vacancy rate leaves. The net income plus the expenses is the adjusted rent. The gross and net yields are the rent and the net income as percentages of the value, and the return is the net yield. |
| RentalYieldCalculator.NetYieldAtMostGross | app/tools/rental-yield-calculator/page.tsx:22-26 | With a vacancy rate between 0 and 100, non-negative rent and expenses and a positive value, the net income is at most the rent and the net yield at most the gross yield. |
| RentalYieldCalculator.NoVacancyNoExpenses | app/tools/rental-yield-calculator/page.tsx:22-26 | Without vacancy and expenses, the net figures equal the gross ones. |
| RentalYieldCalculator.VacancyLowersIncome | app/tools/rental-yield-calculator/page.tsx:23-24 | With a non-negative rent, a higher vacancy rate never raises the net income. |
| RentalYieldCalculator.WorkedExample | app/tools/rental-yield-calculator/page.tsx:298-312 | The page's example gives 60,000 a year, 57,000 adjusted, 45,000 net, a 6% gross yield, and a 4.5% net yield and return. |
| RentalYieldCalculator.PieData | app/tools/rental-yield-calculator/page.tsx:42-45 | The chart shows the net income and the expenses, each if and only if it is positive. |
| RentalYieldCalculator.PieDataInOrder | app/tools/rental-yield-calculator/page.tsx:42-45 | The chart keeps exactly its positive entries, net income first. |
| RentalYieldCalculator.LossMakingChart | app/tools/rental-yield-calculator/page.tsx:42-45 | When the expenses exceed the rent, the net income is negative and the chart shows only the expenses. |

## Left out

- Rendering: the JSX, the explanatory and FAQ text, the card and sidebar components, navigation highlighting and the static article and template lists. None of them computes anything.
- Document output: the invoice's PDF generation (jsPDF) and printing. Both are calls into a foreign library and the browser.
- Number formatting (`toLocaleString`, `toFixed`) and chart drawing (recharts). Only the positive-value filters that decide which slices are drawn are modelled.
- The slices' `amount` and `color` fields. A slice is its name and value, because the filter looks at nothing else.
- The clock: a new invoice line's id comes from `Date.now()`. The model takes the id as a parameter. The invoice date is not modelled.
- React state: setters, re-rendering and the zakat page's re-render button. Each calculator is a function of its form's values.
- Floating point: numbers are exact reals, and `Math.pow` has a whole-number exponent. Rounding, NaN and Infinity are not modelled. A fractional term typed into the form is outside the model.
- Division by zero: the code does not guard a zero term at a zero rate, a zero property price or value, or a VAT rate of −100%. In the model a non-zero divisor is a precondition, and NaN or Infinity results are not modelled.
- The prose instalment figures ("approximately 3,445", "11,020", "1,044,800"). They are rounded approximations of the formula, so they are not asserted.
- Browser parsing of a typed number: `Inputs` takes the parse as an optional value and models only the `|| fallback` coercion. Only the VAT page's amount and quantity fields are stated. The other pages' fields use the same `|| 0` coercion.
- The VAT rate and selector strings ("add", "years", "percentage", "yes", "saudi") are modelled as datatypes, with the code's else branch as the other constructor. The VAT rate is taken as the number `Number(vatRate)` gives.
- The loan page's result also omits `totalMonths` in its zero-rate branch, but that page never shows the field. `LoanCalculator.EmiResult` therefore has no such field.
- `NISAB_SILVER` (595 grams) is declared but never used by the calculation, so it is not modelled.
- Invoice.SetField: a field update is typed, so the number fields take numbers and the text fields take text. The code's untyped `[field]: value` could store a string in a number field, but the page never does that.
- Invoice.RemoveExactlyOne: assumes the lines' ids are distinct. `Date.now()` ids are distinct only when lines are added at least a millisecond apart. Without uniqueness, RemoveItem still removes every line with the id.
- LoanCalculator.TotalInterestPositive: stated for a non-negative principal. A negative principal, which the form accepts, gives negative interest.
- `Seqs` (the filter and its lemmas), `RealArith` and the arithmetic helper lemmas in `LoanCalculator` are proof steps and have no rows of their own.

## Findings

| source | as written | input that shows it | evidently intended | confidence | as-written member | corrected member |
|---|---|---|---|---|---|---|
| app/tools/mortgage-calculator/page.tsx:26-34 | At a zero rate, `calculateMortgage` returns early without `totalMonths`, yet line 188 shows `results.totalMonths` as the number of payments. | A price of 2,000,000, 400,000 down, a 0% rate and 20 years: the "Total Payments" line shows no number of months. | Both branches return `totalMonths` (240 here). | not executed | MortgageCalculator.ReturnedTotalMonths | MortgageCalculator.CalculateMortgage |
