/** The checkout screen's cart: an ordered sequence of line items, the
    "transaction buttons disabled" flag, and the last computed totals.

    Each handler is one user action (pick a product, press +, press -,
    press the bin, press Cancel). The totals are recomputed by a separate
    step that the screen runs after every change of the cart.
 */
module Checkout {
  import opened Pricing
  import opened LineItems
  import opened Totals
  import opened Cart

  class Transaction {
    /** The cart, in the order the products were first picked. */
    var products: seq<LineItem>
    /** True while Cancel and Checkout are disabled. */
    var transButtons: bool
    /** The totals as last computed. */
    var checkoutValues: CheckoutValues

    /** No duplicate products, every line total is quantity times unit price,
        every quantity is at least one, and the buttons are disabled exactly
        when the cart is empty. */
    ghost predicate Valid()
      reads this
    {
      UniqueIds(products) && LineTotalsConsistent(products) &&
      QuantitiesAtLeastOne(products) && transButtons == (products == [])
    }

    /** A fresh screen: empty cart, buttons disabled, all totals zero. */
    constructor ()
      ensures Valid()
      ensures products == [] && transButtons
      ensures checkoutValues == CheckoutValues(0.0, 0.0, 0.0)
    {
      products := [];
      transButtons := true;
      checkoutValues := CheckoutValues(0.0, 0.0, 0.0);
    }

    /** The step run after every change of the cart or of the store's tax
        rate: recompute the totals and enable the buttons when the cart holds
        something. */
    method RecalculateCheckoutValues(storeTax: real)
      modifies this
      ensures products == old(products)
      ensures checkoutValues == TotalsOf(products, storeTax)
      ensures transButtons == (old(transButtons) && products == [])
      ensures old(Valid()) ==> Valid()
    {
      checkoutValues := ComputeTotals(products, storeTax);
      if |products| != 0 {
        transButtons := false;
      }
    }

    /** Sets the quantity of the entry at `index` and recomputes its line
        total from its stored unit price; nothing else changes. */
    method UpdateProducts(index: int, amount: real)
      requires Valid()
      requires 0 <= index < |products|
      requires amount >= 1.0
      modifies this
      ensures Valid()
      ensures products == Updated(old(products), index, amount)
      ensures transButtons == old(transButtons) && checkoutValues == old(checkoutValues)
    {
      UpdatedKeepsInvariants(products, index, amount);
      var item := products[index].(items := amount);
      item := item.(totalPrice := amount * item.price);
      assert item == WithQuantity(products[index], amount);
      products := products[index := item];
    }

    /** Picks a product: one more item on the entry with the same id, or a
        new entry at the end priced by the discount resolved at `now` against
        the category table. Returns false, changing nothing, when that
        resolution fails because the product's category is not in the table. */
    method HandlePickProduct(pickedProduct: Product, categoryDiscount: seq<CategoryDiscount>, now: int)
      returns (ok: bool)
      requires Valid()
      modifies this
      ensures Valid()
      ensures ok == Pick(old(products), pickedProduct, categoryDiscount, now).Ok?
      ensures ok ==> products == Pick(old(products), pickedProduct, categoryDiscount, now).value && !transButtons
      ensures !ok ==> products == old(products) && transButtons == old(transButtons)
      ensures checkoutValues == old(checkoutValues)
    {
      var productExist := FindIndex(products, pickedProduct.id);
      if productExist != -1 {
        PickProperties(products, pickedProduct, categoryDiscount, now);
        var newAmount := products[productExist].items + 1.0;
        UpdateProducts(productExist, newAmount);
      } else {
        var result := CalculatePrice(pickedProduct, categoryDiscount, now);
        if result.Err? {
          return false;
        }
        var newProduct := LineItem(pickedProduct.id, pickedProduct.title, pickedProduct.category,
                                   pickedProduct.price, pickedProduct.price, 1.0,
                                   pickedProduct.discount, pickedProduct.discountExpiration);
        newProduct := newProduct.(price := result.value.price, totalPrice := result.value.price);
        newProduct := newProduct.(discount := result.value.discount);
        assert newProduct == NewLineItem(pickedProduct, result.value);
        PickProperties(products, pickedProduct, categoryDiscount, now);
        products := products + [newProduct];
      }
      transButtons := false;
      ok := true;
    }

    /** The + button of the entry at `index`: one more item. */
    method HandleIncreaseClick(index: int)
      requires Valid()
      requires 0 <= index < |products|
      modifies this
      ensures Valid()
      ensures products == Increased(old(products), index)
      ensures transButtons == old(transButtons) && checkoutValues == old(checkoutValues)
    {
      var newAmount := products[index].items + 1.0;
      UpdatedKeepsInvariants(products, index, newAmount);
      UpdateProducts(index, newAmount);
    }

    /** The - button of the entry at `index`: one item fewer, but never fewer
        than one; the entry is never removed. */
    method HandleDecreaseClick(index: int)
      requires Valid()
      requires 0 <= index < |products|
      modifies this
      ensures Valid()
      ensures products == Decreased(old(products), index)
      ensures transButtons == old(transButtons) && checkoutValues == old(checkoutValues)
    {
      var newAmount := products[index].items - 1.0;
      if newAmount < 1.0 {
        newAmount := 1.0;
      }
      UpdatedKeepsInvariants(products, index, newAmount);
      UpdateProducts(index, newAmount);
    }

    /** The bin button of the entry at `index`: the entry goes, later entries
        move one place forward, and an emptied cart disables the buttons. */
    method HandleDeleteClick(index: int)
      requires Valid()
      requires 0 <= index < |products|
      modifies this
      ensures Valid()
      ensures products == Removed(old(products), index)
      ensures transButtons == (products == [])
      ensures checkoutValues == old(checkoutValues)
    {
      RemovedKeepsInvariants(products, index);
      var newArray := products[..index] + products[index + 1..];
      products := newArray;
      if |newArray| == 0 {
        transButtons := true;
      }
    }

    /** The Cancel button: the cart is emptied and the buttons disabled. */
    method HandleCancelClick()
      modifies this
      ensures Valid()
      ensures products == [] && transButtons
      ensures checkoutValues == old(checkoutValues)
    {
      var newArray := [];
      products := newArray;
      transButtons := true;
    }
  }
}
