/** The VAT calculator page: adds VAT to an amount that excludes it, or takes VAT out of an
    amount that includes it. Rates are percentages (15, 5 or 0 on the page). */
module VatCalculator {

  /** The calculation-type selector; any value other than "add" removes VAT. */
  datatype Mode = Add | Remove

  datatype VatResult = VatResult(originalAmount: real, vatAmount: real, totalAmount: real, rate: real)

  /** The price breakdown when `base` excludes VAT: the VAT is the rate's share of the base and
      the total is the base plus the VAT. */
  function AddVat(base: real, ratePercent: real): (r: VatResult)
    ensures r.originalAmount == base
    ensures r.vatAmount * 100.0 == base * ratePercent
    ensures r.originalAmount + r.vatAmount == r.totalAmount
    ensures r.rate == ratePercent
  {
    var rate := ratePercent / 100.0;
    VatResult(base, base * rate, base + base * rate, ratePercent)
  }

  /** The price breakdown when `total` includes VAT: the original amount is the one that, with
      VAT added, gives the total, and the VAT is the difference. */
  function RemoveVat(total: real, ratePercent: real): (r: VatResult)
    requires ratePercent != -100.0
    ensures r.totalAmount == total
    ensures r.originalAmount * (100.0 + ratePercent) == total * 100.0
    ensures r.originalAmount + r.vatAmount == r.totalAmount
    ensures r.rate == ratePercent
  {
    var rate := ratePercent / 100.0;
    var originalAmount := total / (1.0 + rate);
    VatResult(originalAmount, total - originalAmount, total, ratePercent)
  }

  /** `calculateVAT`: the amount times the quantity is the base of the calculation, which the
      mode takes as excluding or as including VAT. In both modes the original amount and the
      VAT add up to the total. */
  method CalculateVat(amount: real, quantity: real, ratePercent: real, mode: Mode) returns (r: VatResult)
    requires mode == Remove ==> ratePercent != -100.0
    ensures mode == Add ==> r == AddVat(amount * quantity, ratePercent)
    ensures mode == Remove ==> r == RemoveVat(amount * quantity, ratePercent)
    ensures r.originalAmount + r.vatAmount == r.totalAmount
    ensures r.rate == ratePercent
  {
    var baseAmount := amount * quantity;
    var vatAmount := 0.0;
    var totalAmount := 0.0;
    var originalAmount := 0.0;
    var rate := ratePercent / 100.0;
    if mode == Add {
      originalAmount := baseAmount;
      vatAmount := baseAmount * rate;
      totalAmount := baseAmount + vatAmount;
    } else {
      totalAmount := baseAmount;
      originalAmount := baseAmount / (1.0 + rate);
      vatAmount := totalAmount - originalAmount;
    }
    r := VatResult(originalAmount, vatAmount, totalAmount, ratePercent);
  }

  /** Taking VAT out of a total that had VAT added at the same rate gives back the same
      breakdown, and so the original base. */
  lemma RemoveAfterAdd(base: real, ratePercent: real)
    requires ratePercent != -100.0
    ensures RemoveVat(AddVat(base, ratePercent).totalAmount, ratePercent) == AddVat(base, ratePercent)
  {
    var added := AddVat(base, ratePercent);
    var removed := RemoveVat(added.totalAmount, ratePercent);
    assert added.totalAmount * 100.0 == base * (100.0 + ratePercent);
    CancelFactor(removed.originalAmount, base, 100.0 + ratePercent);
  }

  /** Adding VAT back to the amount that removing it left gives back the same breakdown, and so
      the original total. */
  lemma AddAfterRemove(total: real, ratePercent: real)
    requires ratePercent != -100.0
    ensures AddVat(RemoveVat(total, ratePercent).originalAmount, ratePercent) == RemoveVat(total, ratePercent)
  {
    var removed := RemoveVat(total, ratePercent);
    var added := AddVat(removed.originalAmount, ratePercent);
    assert added.totalAmount * 100.0 == removed.originalAmount * (100.0 + ratePercent);
    CancelFactor(added.totalAmount, total, 100.0);
  }

  /** A non-zero factor can be cancelled from both sides of an equation. */
  lemma CancelFactor(x: real, y: real, k: real)
    requires k != 0.0 && x * k == y * k
    ensures x == y
  {
  }

  /** At the zero rate there is no VAT in either mode: the original amount is the total. */
  lemma ZeroRate(amount: real)
    ensures AddVat(amount, 0.0).vatAmount == 0.0
    ensures AddVat(amount, 0.0).originalAmount == AddVat(amount, 0.0).totalAmount == amount
    ensures RemoveVat(amount, 0.0).vatAmount == 0.0
    ensures RemoveVat(amount, 0.0).originalAmount == RemoveVat(amount, 0.0).totalAmount == amount
  {
  }

  /** With a non-negative base and rate the VAT is never negative and never exceeds the total,
      in either mode. */
  lemma VatWithinTotal(amount: real, ratePercent: real)
    requires amount >= 0.0 && ratePercent >= 0.0
    ensures 0.0 <= AddVat(amount, ratePercent).vatAmount <= AddVat(amount, ratePercent).totalAmount
    ensures 0.0 <= RemoveVat(amount, ratePercent).vatAmount <= RemoveVat(amount, ratePercent).totalAmount
  {
  }

  /** The page's worked examples at the 15% rate: VAT on 1,000 is 150 for a total of 1,150, and
      taking VAT out of 1,150 leaves 1,000. */
  lemma WorkedExamples()
    ensures AddVat(1000.0, 15.0) == VatResult(1000.0, 150.0, 1150.0, 15.0)
    ensures RemoveVat(1150.0, 15.0) == VatResult(1000.0, 150.0, 1150.0, 15.0)
  {
    RemoveAfterAdd(1000.0, 15.0);
  }
}
