/** Discount resolution for a product being added to the checkout cart.

    A product carries its own promotional discount with an expiration time;
    its category may carry another. The product's discount wins while it has
    not expired; otherwise the category's discount applies while that one has
    not expired; otherwise there is no discount. Times are milliseconds and
    "now" is an explicit parameter. Money and percentages are reals.
 */
module Pricing {

  /** A catalog product as the product picker hands it to the cart. */
  datatype Product = Product(
    id: string,
    title: string,
    category: string,
    price: real,
    discount: real,
    discountExpiration: int)

  /** One row of the category-discount table (title, discount, expiration). */
  datatype CategoryDiscount = CategoryDiscount(
    title: string,
    discount: real,
    discountExpiration: int)

  /** The discount finally applied and the unit price it yields. */
  datatype Priced = Priced(price: real, discount: real)

  /** Reading the first matching table row when there is none fails at run time. */
  datatype PricingError = CategoryNotFound(category: string)

  datatype Result<T> = Ok(value: T) | Err(error: PricingError)

  /** `k` is the position of the first row of `table` titled `t`. */
  predicate FirstWithTitle(table: seq<CategoryDiscount>, t: string, k: int)
  {
    0 <= k < |table| && table[k].title == t &&
    forall j :: 0 <= j < k ==> table[j].title != t
  }

  /** The rows of `table` titled `t`, in table order. */
  function FilterByTitle(table: seq<CategoryDiscount>, t: string): (r: seq<CategoryDiscount>)
    ensures |r| <= |table|
    ensures forall c :: c in r ==> c in table && c.title == t
  {
    if table == [] then []
    else if table[0].title == t then [table[0]] + FilterByTitle(table[1..], t)
    else FilterByTitle(table[1..], t)
  }

  /** The filter keeps every row carrying the title. */
  lemma {:induction false} FilterKeepsMatches(table: seq<CategoryDiscount>, t: string, i: int)
    requires 0 <= i < |table| && table[i].title == t
    ensures table[i] in FilterByTitle(table, t)
  {
    if i > 0 {
      FilterKeepsMatches(table[1..], t, i - 1);
    }
  }

  /** The filter comes back empty exactly when no row carries the title. */
  lemma FilterEmptyIff(table: seq<CategoryDiscount>, t: string)
    ensures FilterByTitle(table, t) == [] <==> forall i :: 0 <= i < |table| ==> table[i].title != t
  {
    if FilterByTitle(table, t) == [] {
      forall i | 0 <= i < |table| ensures table[i].title != t {
        if table[i].title == t {
          FilterKeepsMatches(table, t, i);
        }
      }
    } else {
      var c := FilterByTitle(table, t)[0];
      assert c in FilterByTitle(table, t);
      var i :| 0 <= i < |table| && table[i] == c;
    }
  }

  /** The head of the filter is the first row carrying the title. */
  lemma {:induction false} FilterHeadIsFirst(table: seq<CategoryDiscount>, t: string, k: int)
    requires FirstWithTitle(table, t, k)
    ensures FilterByTitle(table, t) != [] && FilterByTitle(table, t)[0] == table[k]
  {
    if k > 0 {
      assert table[0].title != t;
      FilterHeadIsFirst(table[1..], t, k - 1);
    }
  }

  /** Every title that occurs in the table has a first occurrence. */
  lemma {:induction false} FirstOccurrenceExists(table: seq<CategoryDiscount>, t: string, i: int)
    requires 0 <= i < |table| && table[i].title == t
    ensures exists k :: FirstWithTitle(table, t, k)
  {
    if forall j :: 0 <= j < i ==> table[j].title != t {
      assert FirstWithTitle(table, t, i);
    } else {
      var j :| 0 <= j < i && table[j].title == t;
      FirstOccurrenceExists(table, t, j);
    }
  }

  /** The discount percentage applicable at time `now`. The product's own
      discount when it has not expired; otherwise the first table row for the
      product's category decides, and it is an error when there is none. */
  function ResolveDiscount(p: Product, table: seq<CategoryDiscount>, now: int): (r: Result<real>)
    ensures p.discountExpiration >= now ==> r == Ok(p.discount)
    ensures p.discountExpiration < now ==>
              (r.Err? <==> forall i :: 0 <= i < |table| ==> table[i].title != p.category)
    ensures r.Err? ==> r.error == CategoryNotFound(p.category)
  {
    if p.discountExpiration >= now then Ok(p.discount)
    else
      var matches := FilterByTitle(table, p.category);
      FilterEmptyIff(table, p.category);
      if matches == [] then Err(CategoryNotFound(p.category))
      else if matches[0].discountExpiration >= now then Ok(matches[0].discount)
      else Ok(0.0)
  }

  /** Once the product's discount has expired, the category row that decides
      is the first one carrying the product's category. */
  lemma CategoryDecides(p: Product, table: seq<CategoryDiscount>, now: int, k: int)
    requires p.discountExpiration < now
    requires FirstWithTitle(table, p.category, k)
    ensures ResolveDiscount(p, table, now)
            == Ok(if table[k].discountExpiration >= now then table[k].discount else 0.0)
  {
    FilterHeadIsFirst(table, p.category, k);
  }

  /** The resolved discount is one of: the product's, a category row's, or 0. */
  lemma ResolvedDiscountOrigin(p: Product, table: seq<CategoryDiscount>, now: int)
    requires ResolveDiscount(p, table, now).Ok?
    ensures var d := ResolveDiscount(p, table, now).value;
            d == p.discount || d == 0.0 ||
            exists i :: 0 <= i < |table| && table[i].title == p.category &&
                        table[i].discountExpiration >= now && table[i].discount == d
  {
    if p.discountExpiration < now {
      var i :| 0 <= i < |table| && table[i].title == p.category;
      FirstOccurrenceExists(table, p.category, i);
      var k :| FirstWithTitle(table, p.category, k);
      CategoryDecides(p, table, now, k);
    }
  }

  /** The unit price after a discount of `d` percent; a zero discount returns
      the price untouched. */
  function DiscountedPrice(price: real, d: real): (r: real)
    ensures r == price * (100.0 - d) / 100.0
    ensures d == 0.0 ==> r == price
  {
    if d == 0.0 then price else price - (d / 100.0) * price
  }

  /** For a discount between 0 and 100 percent the price never goes up and
      never goes negative. */
  lemma DiscountedPriceBounds(price: real, d: real)
    requires price >= 0.0 && 0.0 <= d <= 100.0
    ensures 0.0 <= DiscountedPrice(price, d) <= price
  {
    var f := (100.0 - d) / 100.0;
    assert 0.0 <= f <= 1.0;
    assert DiscountedPrice(price, d) == price * f;
    assert price * f <= price * 1.0;
  }

  /** The discount applicable to `p` at `now` and the unit price it yields. */
  function CalculatePrice(p: Product, table: seq<CategoryDiscount>, now: int): (r: Result<Priced>)
    ensures r.Ok? <==> ResolveDiscount(p, table, now).Ok?
    ensures r.Ok? ==>
              r.value.discount == ResolveDiscount(p, table, now).value &&
              r.value.price == p.price * (100.0 - r.value.discount) / 100.0
    ensures r.Err? ==> r.error == CategoryNotFound(p.category)
  {
    match ResolveDiscount(p, table, now)
    case Err(e) => Err(e)
    case Ok(d) => Ok(Priced(DiscountedPrice(p.price, d), d))
  }

  /** With discounts kept between 0 and 100 percent, the resolved price lies
      between 0 and the base price. Those are the bounds the product and
      category forms declare on their discount inputs; the forms are submitted
      without browser validation, so nothing enforces them and they are
      hypotheses here. */
  lemma CalculatedPriceBounds(p: Product, table: seq<CategoryDiscount>, now: int)
    requires p.price >= 0.0 && 0.0 <= p.discount <= 100.0
    requires forall i :: 0 <= i < |table| ==> 0.0 <= table[i].discount <= 100.0
    requires CalculatePrice(p, table, now).Ok?
    ensures 0.0 <= CalculatePrice(p, table, now).value.price <= p.price
    ensures 0.0 <= CalculatePrice(p, table, now).value.discount <= 100.0
  {
    ResolvedDiscountOrigin(p, table, now);
    DiscountedPriceBounds(p.price, ResolveDiscount(p, table, now).value);
  }

  /** A live product discount of 20% beats a live category discount of 50%,
      and a base price of 100 becomes 80. */
  lemma ProductDiscountTakesPrecedence(now: int)
    ensures var p := Product("p1", "Soap", "Hygiene", 100.0, 20.0, now + 1000);
            var table := [CategoryDiscount("Hygiene", 50.0, now + 1000)];
            CalculatePrice(p, table, now) == Ok(Priced(80.0, 20.0))
  {
  }
}
