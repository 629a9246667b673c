/** What a numeric form field hands to a calculator. Every field of every page stores
    `Number(e.target.value) || fallback`: the browser's parse of the typed text, replaced by a
    fallback when it is falsy. The parse itself belongs to the browser and is an input here:
    `None` stands for an entry that does not parse (NaN), `Some(v)` for a number. */
module Inputs {

  datatype Option<T> = None | Some(value: T)

  /** `parsed || fallback`: NaN and 0 are the falsy numbers, so both fall back. */
  function OrDefault(parsed: Option<real>, fallback: real): (r: real)
    ensures parsed.Some? && parsed.value != 0.0 ==> r == parsed.value
    ensures parsed.None? || parsed.value == 0.0 ==> r == fallback
  {
    match parsed
    case None => fallback
    case Some(v) => if v == 0.0 then fallback else v
  }

  /** An amount field (`|| 0`): an unparsable entry reads as 0, and the coerced amount is 0
      exactly when the entry was unparsable or 0. */
  function AmountField(parsed: Option<real>): (r: real)
    ensures r == 0.0 <==> parsed.None? || parsed.value == 0.0
    ensures parsed.Some? ==> r == parsed.value
  {
    OrDefault(parsed, 0.0)
  }

  /** The VAT page's quantity field (`|| 1`): an unparsable or zero entry reads as 1, so the
      quantity is never 0, and any other entry is kept as typed. */
  function QuantityField(parsed: Option<real>): (r: real)
    ensures r != 0.0
    ensures parsed.None? || parsed.value == 0.0 ==> r == 1.0
    ensures parsed.Some? && parsed.value != 0.0 ==> r == parsed.value
  {
    OrDefault(parsed, 1.0)
  }
}
