/** Checkout totals: grand total, tax and subtotal of the cart.

    The grand total is read as tax-inclusive: the tax is the store's tax
    rate applied to the grand total and the subtotal is what remains once
    that tax is taken out.
 */
module Totals {
  import opened LineItems

  datatype CheckoutValues = CheckoutValues(subtotal: real, taxtotal: real, grandtotal: real)

  /** The totals of a cart of line items under a tax rate given in percent. */
  function TotalsOf(s: seq<LineItem>, tax: real): (t: CheckoutValues)
    ensures t.grandtotal == GrandTotal(s)
    ensures t.taxtotal == (tax / 100.0) * t.grandtotal
    ensures t.subtotal + t.taxtotal == t.grandtotal
  {
    var g := GrandTotal(s);
    var tx := (tax / 100.0) * g;
    CheckoutValues(g - tx, tx, g)
  }

  /** Accumulates the line totals in cart order and derives tax and subtotal. */
  method ComputeTotals(products: seq<LineItem>, tax: real) returns (t: CheckoutValues)
    ensures t.grandtotal == GrandTotal(products)
    ensures t.taxtotal == (tax / 100.0) * t.grandtotal
    ensures t.subtotal == t.grandtotal - t.taxtotal
    ensures t == TotalsOf(products, tax)
  {
    var newGrandtotal := 0.0;
    var i := 0;
    while i < |products|
      invariant 0 <= i <= |products|
      invariant newGrandtotal == SumTo(products, i)
    {
      newGrandtotal := newGrandtotal + products[i].totalPrice;
      i := i + 1;
    }
    var newTax := (tax / 100.0) * newGrandtotal;
    var newSubtotal := newGrandtotal - newTax;
    t := CheckoutValues(newSubtotal, newTax, newGrandtotal);
  }

  /** An empty cart totals to zero whatever the tax rate. */
  lemma EmptyCartTotals(tax: real)
    ensures TotalsOf([], tax) == CheckoutValues(0.0, 0.0, 0.0)
  {
  }

  /** With a tax rate between 0 and 100 percent and non-negative line totals,
      tax and subtotal are each between 0 and the grand total. */
  lemma TotalsBounds(s: seq<LineItem>, tax: real)
    requires 0.0 <= tax <= 100.0
    requires forall i :: 0 <= i < |s| ==> s[i].totalPrice >= 0.0
    ensures var t := TotalsOf(s, tax);
            0.0 <= t.taxtotal <= t.grandtotal && 0.0 <= t.subtotal <= t.grandtotal
  {
    GrandTotalNonNegative(s);
    var g := GrandTotal(s);
    var f := tax / 100.0;
    assert 0.0 <= f <= 1.0;
    assert f * g <= 1.0 * g;
  }

  /** A 10% tax rate on a single line of 110 gives tax 11 and subtotal 99. */
  lemma TaxInclusiveExample(x: LineItem)
    requires x.totalPrice == 110.0
    ensures TotalsOf([x], 10.0) == CheckoutValues(99.0, 11.0, 110.0)
  {
    assert SumTo([x], 1) == SumTo([x], 0) + 110.0;
  }
}
