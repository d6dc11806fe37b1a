/** The line items of the checkout cart and the sums taken over them. */
module LineItems {

  /** One entry of the cart. `price` is the unit price after the discount
      resolved when the product was first added, `discount` that discount's
      percentage, `items` the quantity and `totalPrice` the line total. */
  datatype LineItem = LineItem(
    id: string,
    title: string,
    category: string,
    price: real,
    totalPrice: real,
    items: real,
    discount: real,
    discountExpiration: int)

  /** No two entries share a product id. */
  predicate UniqueIds(s: seq<LineItem>)
  {
    forall i, j :: 0 <= i < j < |s| ==> s[i].id != s[j].id
  }

  /** Every line total is its quantity times its unit price. */
  predicate LineTotalsConsistent(s: seq<LineItem>)
  {
    forall i :: 0 <= i < |s| ==> s[i].totalPrice == s[i].items * s[i].price
  }

  /** Every quantity is at least one. */
  predicate QuantitiesAtLeastOne(s: seq<LineItem>)
  {
    forall i :: 0 <= i < |s| ==> s[i].items >= 1.0
  }

  /** Appending an entry with a fresh id keeps ids unique. */
  lemma AppendFreshKeepsUnique(s: seq<LineItem>, x: LineItem)
    requires UniqueIds(s)
    requires forall i :: 0 <= i < |s| ==> s[i].id != x.id
    ensures UniqueIds(s + [x])
  {
  }

  /** Position of the first entry with product id `id`, or -1 when there is none. */
  function FindIndex(s: seq<LineItem>, id: string): (r: int)
    ensures -1 <= r < |s|
    ensures r == -1 <==> forall i :: 0 <= i < |s| ==> s[i].id != id
    ensures r >= 0 ==> s[r].id == id && forall j :: 0 <= j < r ==> s[j].id != id
  {
    if s == [] then -1
    else if s[0].id == id then 0
    else
      var k := FindIndex(s[1..], id);
      if k == -1 then -1 else k + 1
  }

  /** In a cart with unique ids, the found entry is the only one with that id. */
  lemma FindIndexUnique(s: seq<LineItem>, id: string, i: int)
    requires UniqueIds(s)
    requires 0 <= i < |s| && s[i].id == id
    ensures FindIndex(s, id) == i
  {
  }

  /** Sum of the line totals of the first `n` entries, accumulated from the
      first entry onwards. */
  function SumTo(s: seq<LineItem>, n: int): (r: real)
    requires 0 <= n <= |s|
  {
    if n == 0 then 0.0 else SumTo(s, n - 1) + s[n - 1].totalPrice
  }

  /** Sum of all line totals of the cart. */
  function GrandTotal(s: seq<LineItem>): (r: real)
  {
    SumTo(s, |s|)
  }

  /** Prefix sums only look at the entries they cover. */
  lemma {:induction false} SumToSamePrefix(s: seq<LineItem>, t: seq<LineItem>, n: int)
    requires 0 <= n <= |s| && n <= |t|
    requires forall k :: 0 <= k < n ==> s[k].totalPrice == t[k].totalPrice
    ensures SumTo(s, n) == SumTo(t, n)
  {
    if n > 0 {
      SumToSamePrefix(s, t, n - 1);
    }
  }

  /** Appending an entry adds its line total. */
  lemma GrandTotalAppend(s: seq<LineItem>, x: LineItem)
    ensures GrandTotal(s + [x]) == GrandTotal(s) + x.totalPrice
  {
    SumToSamePrefix(s + [x], s, |s|);
  }

  /** A prefix sum that covers entry `i` moves by the change of that entry's line total. */
  lemma {:induction false} SumToUpdate(s: seq<LineItem>, i: int, x: LineItem, n: int)
    requires 0 <= i < n <= |s|
    ensures SumTo(s[i := x], n) == SumTo(s, n) - s[i].totalPrice + x.totalPrice
  {
    if n == i + 1 {
      SumToSamePrefix(s[i := x], s, i);
    } else {
      SumToUpdate(s, i, x, n - 1);
    }
  }

  /** Replacing one entry changes the grand total by the difference of the two line totals. */
  lemma GrandTotalUpdate(s: seq<LineItem>, i: int, x: LineItem)
    requires 0 <= i < |s|
    ensures GrandTotal(s[i := x]) == GrandTotal(s) - s[i].totalPrice + x.totalPrice
  {
    SumToUpdate(s, i, x, |s|);
  }

  /** Past the removed entry `i`, a prefix sum of the shortened cart is the
      matching prefix sum of the original one without that entry's line total. */
  lemma {:induction false} SumToRemove(s: seq<LineItem>, i: int, n: int)
    requires 0 <= i < |s| && i <= n < |s|
    ensures SumTo(s[..i] + s[i + 1..], n) == SumTo(s, n + 1) - s[i].totalPrice
  {
    var r := s[..i] + s[i + 1..];
    if n == i {
      SumToSamePrefix(r, s, i);
    } else {
      SumToRemove(s, i, n - 1);
      assert r[n - 1] == s[n];
    }
  }

  /** Removing one entry subtracts its line total. */
  lemma GrandTotalRemove(s: seq<LineItem>, i: int)
    requires 0 <= i < |s|
    ensures GrandTotal(s[..i] + s[i + 1..]) == GrandTotal(s) - s[i].totalPrice
  {
    SumToRemove(s, i, |s| - 1);
  }

  /** Sum of quantity times unit price, the independent reading of a grand total. */
  function QuantityPriceSum(s: seq<LineItem>): (r: real)
  {
    if s == [] then 0.0 else s[0].items * s[0].price + QuantityPriceSum(s[1..])
  }

  /** A prefix sum splits into its first line total and the sum over the rest. */
  lemma {:induction false} SumToFirst(s: seq<LineItem>, n: int)
    requires 1 <= n <= |s|
    ensures SumTo(s, n) == s[0].totalPrice + SumTo(s[1..], n - 1)
  {
    if n > 1 {
      SumToFirst(s, n - 1);
    }
  }

  /** When the line totals are consistent, the grand total is the sum of
      quantity times unit price over the cart. */
  lemma {:induction false} GrandTotalIsQuantityPriceSum(s: seq<LineItem>)
    requires LineTotalsConsistent(s)
    ensures GrandTotal(s) == QuantityPriceSum(s)
  {
    if s != [] {
      SumToFirst(s, |s|);
      assert LineTotalsConsistent(s[1..]) by {
        forall k | 0 <= k < |s[1..]| ensures s[1..][k].totalPrice == s[1..][k].items * s[1..][k].price {
          assert s[1..][k] == s[k + 1];
        }
      }
      GrandTotalIsQuantityPriceSum(s[1..]);
      assert s[0].totalPrice == s[0].items * s[0].price;
    }
  }

  /** Non-negative line totals give non-negative prefix sums. */
  lemma {:induction false} SumToNonNegative(s: seq<LineItem>, n: int)
    requires 0 <= n <= |s|
    requires forall i :: 0 <= i < |s| ==> s[i].totalPrice >= 0.0
    ensures SumTo(s, n) >= 0.0
  {
    if n > 0 {
      SumToNonNegative(s, n - 1);
    }
  }

  /** Non-negative line totals give a non-negative grand total. */
  lemma GrandTotalNonNegative(s: seq<LineItem>)
    requires forall i :: 0 <= i < |s| ==> s[i].totalPrice >= 0.0
    ensures GrandTotal(s) >= 0.0
  {
    SumToNonNegative(s, |s|);
  }
}
