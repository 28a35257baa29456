/** The bill summary shown under an order: subtotal, a flat 10% tax and the
    total. Both order screens compute it the same way from their subtotal. */
module Pricing {

  const TaxRate: real := 0.1

  datatype Totals = Totals(subtotal: real, tax: real, total: real)

  /** The summary for a given subtotal: the total is 110% of the subtotal
      and the tax is exactly the difference. */
  function TotalsOf(subtotal: real): (r: Totals)
    ensures r.subtotal == subtotal
    ensures r.total == subtotal * 1.1
    ensures r.tax == r.total - r.subtotal
    ensures subtotal >= 0.0 ==> 0.0 <= r.tax <= r.total
  {
    var tax := subtotal * TaxRate;
    Totals(subtotal, tax, subtotal + tax)
  }
}
