/** What each cart action does to the sequence of line items, as functions
    from the old cart to the new one, and the properties those actions keep. */
module Cart {
  import opened Pricing
  import opened LineItems

  /** The entry with its quantity set to `amount` and its line total
      recomputed from its stored unit price. */
  function WithQuantity(item: LineItem, amount: real): (r: LineItem)
    ensures r.items == amount
    ensures r.totalPrice == amount * item.price
    ensures r.id == item.id && r.title == item.title && r.category == item.category
    ensures r.price == item.price && r.discount == item.discount
    ensures r.discountExpiration == item.discountExpiration
  {
    item.(items := amount, totalPrice := amount * item.price)
  }

  /** The cart with the entry at `index` set to quantity `amount`. */
  function Updated(s: seq<LineItem>, index: int, amount: real): (r: seq<LineItem>)
    requires 0 <= index < |s|
    ensures |r| == |s|
    ensures r[index] == WithQuantity(s[index], amount)
    ensures forall j :: 0 <= j < |s| && j != index ==> r[j] == s[j]
  {
    s[index := WithQuantity(s[index], amount)]
  }

  /** The quantity after pressing -: one fewer, but at least one. */
  function DecreasedAmount(items: real): (r: real)
    ensures r >= 1.0
    ensures items >= 2.0 ==> r == items - 1.0
    ensures items < 2.0 ==> r == 1.0
  {
    if items - 1.0 < 1.0 then 1.0 else items - 1.0
  }

  /** The cart after pressing + on the entry at `index`. */
  function Increased(s: seq<LineItem>, index: int): (r: seq<LineItem>)
    requires 0 <= index < |s|
    ensures |r| == |s| && r[index].items == s[index].items + 1.0
    ensures forall j :: 0 <= j < |s| && j != index ==> r[j] == s[j]
  {
    Updated(s, index, s[index].items + 1.0)
  }

  /** The cart after pressing - on the entry at `index`. */
  function Decreased(s: seq<LineItem>, index: int): (r: seq<LineItem>)
    requires 0 <= index < |s|
    ensures |r| == |s| && r[index].items >= 1.0
    ensures s[index].items >= 2.0 ==> r[index].items == s[index].items - 1.0
    ensures forall j :: 0 <= j < |s| && j != index ==> r[j] == s[j]
  {
    Updated(s, index, DecreasedAmount(s[index].items))
  }

  /** The cart without the entry at `index`. */
  function Removed(s: seq<LineItem>, index: int): (r: seq<LineItem>)
    requires 0 <= index < |s|
    ensures |r| == |s| - 1
    ensures forall j :: 0 <= j < index ==> r[j] == s[j]
    ensures forall j :: index <= j < |r| ==> r[j] == s[j + 1]
  {
    s[..index] + s[index + 1..]
  }

  /** The entry created for a product seen for the first time: one item,
      unit price and line total both the resolved price. */
  function NewLineItem(p: Product, priced: Priced): (r: LineItem)
    ensures r.id == p.id && r.items == 1.0
    ensures r.price == priced.price && r.totalPrice == priced.price
    ensures r.discount == priced.discount
  {
    LineItem(p.id, p.title, p.category, priced.price, priced.price, 1.0, priced.discount, p.discountExpiration)
  }

  /** The cart after picking `p` at time `now`: one more item on the entry
      with the same id if there is one, otherwise a new entry at the end,
      priced by the discount resolved against `table`. */
  function Pick(s: seq<LineItem>, p: Product, table: seq<CategoryDiscount>, now: int): (r: Result<seq<LineItem>>)
    ensures r.Err? <==> FindIndex(s, p.id) == -1 && CalculatePrice(p, table, now).Err?
  {
    var k := FindIndex(s, p.id);
    if k != -1 then Ok(Increased(s, k))
    else
      match CalculatePrice(p, table, now)
      case Err(e) => Err(e)
      case Ok(priced) => Ok(s + [NewLineItem(p, priced)])
  }

  // ---------------------------------------------------------------------------
  // Setting a quantity

  /** Setting a quantity keeps ids unique, keeps line totals consistent, and
      keeps quantities at least one when the new one is. */
  lemma UpdatedKeepsInvariants(s: seq<LineItem>, index: int, amount: real)
    requires 0 <= index < |s|
    ensures UniqueIds(s) ==> UniqueIds(Updated(s, index, amount))
    ensures LineTotalsConsistent(s) ==> LineTotalsConsistent(Updated(s, index, amount))
    ensures QuantitiesAtLeastOne(s) && amount >= 1.0 ==> QuantitiesAtLeastOne(Updated(s, index, amount))
  {
    var r := Updated(s, index, amount);
    assert forall j :: 0 <= j < |r| ==> r[j].id == s[j].id && r[j].price == s[j].price;
  }

  /** Setting a quantity swaps the entry's line total for the new quantity
      times its unit price. */
  lemma UpdatedGrandTotal(s: seq<LineItem>, index: int, amount: real)
    requires 0 <= index < |s|
    ensures GrandTotal(Updated(s, index, amount))
            == GrandTotal(s) - s[index].totalPrice + amount * s[index].price
  {
    GrandTotalUpdate(s, index, WithQuantity(s[index], amount));
  }

  /** Pressing + raises the entry's line total by one unit price. */
  lemma IncreasedLineTotal(s: seq<LineItem>, index: int)
    requires 0 <= index < |s|
    requires s[index].totalPrice == s[index].items * s[index].price
    ensures Increased(s, index)[index].totalPrice == s[index].totalPrice + s[index].price
    ensures Increased(s, index) == s[index := Increased(s, index)[index]]
  {
    assert Increased(s, index) == Updated(s, index, s[index].items + 1.0);
  }

  /** Pressing + adds one unit price to the grand total. */
  lemma IncreasedGrandTotal(s: seq<LineItem>, index: int)
    requires 0 <= index < |s|
    requires s[index].totalPrice == s[index].items * s[index].price
    ensures GrandTotal(Increased(s, index)) == GrandTotal(s) + s[index].price
  {
    IncreasedLineTotal(s, index);
    GrandTotalUpdate(s, index, Increased(s, index)[index]);
  }

  /** Pressing - on an entry with at least two items lowers its line total by
      one unit price. */
  lemma DecreasedLineTotal(s: seq<LineItem>, index: int)
    requires 0 <= index < |s|
    requires s[index].totalPrice == s[index].items * s[index].price
    requires s[index].items >= 2.0
    ensures Decreased(s, index)[index].totalPrice == s[index].totalPrice - s[index].price
    ensures Decreased(s, index) == s[index := Decreased(s, index)[index]]
  {
    assert Decreased(s, index) == Updated(s, index, s[index].items - 1.0);
  }

  /** Pressing - on an entry with at least two items takes one unit price off
      the grand total. */
  lemma DecreasedGrandTotal(s: seq<LineItem>, index: int)
    requires 0 <= index < |s|
    requires s[index].totalPrice == s[index].items * s[index].price
    requires s[index].items >= 2.0
    ensures GrandTotal(Decreased(s, index)) == GrandTotal(s) - s[index].price
  {
    DecreasedLineTotal(s, index);
    GrandTotalUpdate(s, index, Decreased(s, index)[index]);
  }

  /** Pressing - never takes a quantity below one and never removes the
      entry; on an entry with a single item it changes nothing. */
  lemma DecreasedFloorsAtOne(s: seq<LineItem>, index: int)
    requires QuantitiesAtLeastOne(s)
    requires 0 <= index < |s|
    requires s[index].totalPrice == s[index].items * s[index].price
    ensures QuantitiesAtLeastOne(Decreased(s, index))
    ensures s[index].items == 1.0 ==> Decreased(s, index) == s
  {
    UpdatedKeepsInvariants(s, index, DecreasedAmount(s[index].items));
    if s[index].items == 1.0 {
      assert Decreased(s, index)[index] == s[index];
      assert Decreased(s, index) == s;
    }
  }

  /** Pressing + and then - on the same entry gives back the original cart. */
  lemma IncreaseThenDecrease(s: seq<LineItem>, index: int)
    requires QuantitiesAtLeastOne(s) && LineTotalsConsistent(s)
    requires 0 <= index < |s|
    ensures Decreased(Increased(s, index), index) == s
  {
    var r := Decreased(Increased(s, index), index);
    assert r[index].items == s[index].items;
    assert r[index].totalPrice == s[index].items * s[index].price;
    assert r[index] == s[index];
  }

  // ---------------------------------------------------------------------------
  // Removing an entry

  /** Removing an entry keeps ids unique, line totals consistent and
      quantities at least one. */
  lemma RemovedKeepsInvariants(s: seq<LineItem>, index: int)
    requires 0 <= index < |s|
    ensures UniqueIds(s) ==> UniqueIds(Removed(s, index))
    ensures LineTotalsConsistent(s) ==> LineTotalsConsistent(Removed(s, index))
    ensures QuantitiesAtLeastOne(s) ==> QuantitiesAtLeastOne(Removed(s, index))
  {
    var r := Removed(s, index);
    if UniqueIds(s) {
      forall i, j | 0 <= i < j < |r| ensures r[i].id != r[j].id {
        var i' := if i < index then i else i + 1;
        var j' := if j < index then j else j + 1;
        assert r[i] == s[i'] && r[j] == s[j'];
      }
    }
  }

  /** Removing an entry takes its line total off the grand total. */
  lemma RemovedGrandTotal(s: seq<LineItem>, index: int)
    requires 0 <= index < |s|
    ensures GrandTotal(Removed(s, index)) == GrandTotal(s) - s[index].totalPrice
  {
    GrandTotalRemove(s, index);
  }

  // ---------------------------------------------------------------------------
  // Picking a product

  /** Picking a product already in the cart succeeds whatever the category
      table and the time: the entry gets one more item at its stored price
      and discount, no entry is added, and nothing else changes. */
  lemma PickExisting(s: seq<LineItem>, p: Product, table: seq<CategoryDiscount>, now: int, k: int)
    requires UniqueIds(s)
    requires 0 <= k < |s| && s[k].id == p.id
    ensures Pick(s, p, table, now).Ok?
    ensures var r := Pick(s, p, table, now).value;
            |r| == |s| &&
            r[k].items == s[k].items + 1.0 &&
            r[k].price == s[k].price && r[k].discount == s[k].discount &&
            r[k].totalPrice == (s[k].items + 1.0) * s[k].price &&
            forall j :: 0 <= j < |s| && j != k ==> r[j] == s[j]
  {
    FindIndexUnique(s, p.id, k);
  }

  /** Picking a product not yet in the cart appends exactly one entry with one
      item, priced at the resolved price, and leaves earlier entries alone. It
      fails only when the discount cannot be resolved. */
  lemma PickNew(s: seq<LineItem>, p: Product, table: seq<CategoryDiscount>, now: int)
    requires forall i :: 0 <= i < |s| ==> s[i].id != p.id
    ensures Pick(s, p, table, now).Ok? <==> CalculatePrice(p, table, now).Ok?
    ensures Pick(s, p, table, now).Ok? ==>
              var r := Pick(s, p, table, now).value;
              var priced := CalculatePrice(p, table, now).value;
              |r| == |s| + 1 && r[..|s|] == s &&
              r[|s|].id == p.id && r[|s|].items == 1.0 &&
              r[|s|].price == priced.price && r[|s|].totalPrice == priced.price &&
              r[|s|].discount == priced.discount
  {
    if Pick(s, p, table, now).Ok? {
      var r := Pick(s, p, table, now).value;
      assert r == s + [NewLineItem(p, CalculatePrice(p, table, now).value)];
      assert r[..|s|] == s;
    }
  }

  /** A successful pick keeps ids unique, line totals consistent and
      quantities at least one, and never shrinks the cart. */
  lemma PickProperties(s: seq<LineItem>, p: Product, table: seq<CategoryDiscount>, now: int)
    requires Pick(s, p, table, now).Ok?
    ensures UniqueIds(s) ==> UniqueIds(Pick(s, p, table, now).value)
    ensures LineTotalsConsistent(s) ==> LineTotalsConsistent(Pick(s, p, table, now).value)
    ensures QuantitiesAtLeastOne(s) ==> QuantitiesAtLeastOne(Pick(s, p, table, now).value)
    ensures |Pick(s, p, table, now).value| >= 1
    ensures exists j :: 0 <= j < |Pick(s, p, table, now).value| && Pick(s, p, table, now).value[j].id == p.id
  {
    var k := FindIndex(s, p.id);
    var r := Pick(s, p, table, now).value;
    if k != -1 {
      UpdatedKeepsInvariants(s, k, s[k].items + 1.0);
      assert r[k].id == p.id;
    } else {
      var x := NewLineItem(p, CalculatePrice(p, table, now).value);
      assert r == s + [x];
      if UniqueIds(s) {
        AppendFreshKeepsUnique(s, x);
      }
      assert r[|s|].id == p.id;
    }
  }

  /** A successful pick adds one unit price to the grand total: the stored
      price for a product already in the cart, the resolved price otherwise. */
  lemma PickGrandTotal(s: seq<LineItem>, p: Product, table: seq<CategoryDiscount>, now: int)
    requires LineTotalsConsistent(s)
    requires Pick(s, p, table, now).Ok?
    ensures var k := FindIndex(s, p.id);
            GrandTotal(Pick(s, p, table, now).value)
            == GrandTotal(s) + (if k != -1 then s[k].price else CalculatePrice(p, table, now).value.price)
  {
    var k := FindIndex(s, p.id);
    if k != -1 {
      assert s[k].totalPrice == s[k].items * s[k].price;
      IncreasedGrandTotal(s, k);
    } else {
      GrandTotalAppend(s, NewLineItem(p, CalculatePrice(p, table, now).value));
    }
  }

  /** Price 100 with a live 20% product discount gives an entry at 80, and
      two more picks bring its line total to 240. */
  lemma PickThreeTimes(p: Product, now: int)
    requires p.price == 100.0 && p.discount == 20.0 && p.discountExpiration >= now
    ensures var s1 := Pick([], p, [], now).value;
            var s2 := Pick(s1, p, [], now).value;
            var s3 := Pick(s2, p, [], now).value;
            s1[0].price == 80.0 && s3 == [s1[0].(items := 3.0, totalPrice := 240.0)]
  {
    var s1 := Pick([], p, [], now).value;
    assert s1 == [NewLineItem(p, Priced(80.0, 20.0))];
    assert FindIndex(s1, p.id) == 0;
    var s2 := Pick(s1, p, [], now).value;
    assert s2 == [s1[0].(items := 2.0, totalPrice := 160.0)];
    assert FindIndex(s2, p.id) == 0;
  }
}
