# Checkout cart and pricing engine

This project models the cart-and-pricing engine of a point-of-sale checkout
screen, `src/Pages/Transaction/index.js`. The operator picks products. The
screen keeps an ordered cart of line items and resolves each new product's
discount once, when it is first added. It recomputes the grand total, the
tax and the subtotal after every change. It also enables the Cancel and
Checkout buttons only while the cart holds something.

The project has five modules, one per component of the screen:

- `Pricing` (`pricing.dfy`) covers `calculatePrice`. The product's own
  discount applies while its expiration has not passed. Otherwise the first
  row of the category-discount table titled with the product's category
  decides: its discount applies while it has not expired, and 0 applies
  after that. A zero discount returns the base price unchanged. Any other
  discount `d` gives `price - (d/100) * price`.
- `LineItems` (`line_items.dfy`) holds the line-item record (`_id`, `title`,
  `category`, `price`, `totalPrice`, `items`, `discount`,
  `discountExpiration`), the `findIndex` lookup by id and the grand-total sum.
- `Totals` (`totals.dfy`) covers the totals computation. The accumulator
  loop is a method, proved against the grand-total function. The tax is
  `tax/100` of the grand total, and the subtotal is the grand total minus
  the tax (a tax-inclusive grand total).
- `Cart` (`cart.dfy`) states what each handler does to the cart, as
  functions from the old cart to the new one. Lemmas about those functions
  state the handlers' properties.
- `Checkout` (`transaction.dfy`) is the screen's state as a class
  `Transaction`. Its fields are `products` (a sequence of line items),
  `transButtons` (true while Cancel and Checkout are disabled) and
  `checkoutValues`. Each handler is a method that ties the new `products` to
  the matching `Cart` function. Each method keeps the object invariant
  `Valid()`: no duplicate ids, every line total equals quantity times unit
  price, every quantity is at least one, and the buttons are disabled
  exactly when the cart is empty.

Modelling decisions:

- "Now" is an explicit integer parameter (milliseconds). Expiration dates
  are integers on the same scale.
- Prices, discounts, tax rates and quantities are `real`. In the source they
  are all JavaScript numbers. Reals make the arithmetic exact. A quantity is
  a real because the handlers only ever set it to 1, add 1 or subtract 1
  (with a floor at 1), so it stays a whole number.
- The category table is a sequence of `(title, discount, expiration)` rows,
  in the order the screen builds it (`index.js:39-47`). The lookup is the
  `filter` by title followed by `[0]`.
- Unknown category: the code dereferences the first filtered row without a
  check (`index.js:242-243`). A product whose own discount has expired and
  whose category has no row therefore throws. That throw aborts the handler
  before `setProducts` and `setTransButtons` run. The model follows the
  code: `ResolveDiscount` and `CalculatePrice` return
  `Err(CategoryNotFound(..))`, and `HandlePickProduct` then returns `false`
  and changes nothing. An unknown category throws; it does not fall back to
  a zero discount, and the model follows the code.
- The code overwrites a new entry's `price` with the discounted price
  (`index.js:127`). The base price is therefore not kept on the line item,
  and the model does not keep it either.
- The totals step (`useEffect` at `index.js:65-92`) runs after each change
  of the cart or of the store data. It is the separate method
  `RecalculateCheckoutValues(storeTax)`. The handlers leave `checkoutValues`
  unchanged until it runs.
- The + and - handlers read `products[index]` without a bounds check
  (`index.js:162`, `174`) and throw on a bad index, so they require
  `0 <= index < |products|`. The delete handler never reads
  `products[index]`; it calls `splice(index, 1)` on a copy
  (`index.js:190-191`). Its requirement `0 <= index < |products|` holds
  because every button's id is the index of the row it is rendered in
  (`index.js:322-356`).
- Every quantity is at least one, as part of the class invariant `Valid()`.
  `UpdateProducts` requires a new quantity of at least one, which all its
  callers pass (`index.js:108`, `162`, `174-180`).

## Model

| member | source | states |
|---|---|---|
| `Pricing.FilterByTitle` | src/Pages/Transaction/index.js:237-239 | every row the filter returns comes from the table and carries the requested title; the result is no longer than the table |
| `Pricing.FilterKeepsMatches` | src/Pages/Transaction/index.js:237-239 | every table row carrying the title is in the filtered result |
| `Pricing.FilterEmptyIff` | src/Pages/Transaction/index.js:237-243 | the filtered result is empty exactly when no row carries the title, which is when `categoryToCheck[0]` does not exist |
| `Pricing.FilterHeadIsFirst` | src/Pages/Transaction/index.js:237-247 | the row read as `categoryToCheck[0]` is the first table row carrying the title |
| `Pricing.ResolveDiscount` | src/Pages/Transaction/index.js:222-249 | a product discount whose expiration is at or after now is the result; once it has expired, the result is an error naming the category exactly when no row carries the category |
| `Pricing.CategoryDecides` | src/Pages/Transaction/index.js:234-249 | once the product discount has expired, the result is the first matching row's discount if that row has not expired, and 0 otherwise |
| `Pricing.ResolvedDiscountOrigin` | src/Pages/Transaction/index.js:228-249 | a resolved discount is the product's discount, 0, or the discount of a live table row for the product's category |
| `Pricing.DiscountedPrice` | src/Pages/Transaction/index.js:251-265 | the discounted price equals `price * (100 - d) / 100`, and a zero discount returns the price untouched |
| `Pricing.DiscountedPriceBounds` | src/Pages/Transaction/index.js:253-265 | for a non-negative price and a discount between 0 and 100, the discounted price lies between 0 and the price |
| `Pricing.CalculatePrice` | src/Pages/Transaction/index.js:220-266 | it succeeds exactly when the discount resolves; the returned discount is the resolved one and the returned price is `price * (100 - d) / 100`; on failure it names the product's category |
| `Pricing.CalculatedPriceBounds` | src/Pages/Transaction/index.js:220-266 | with product and category discounts within the 0-100 bounds of the entry forms, the resolved discount is within 0-100 and the resolved price within 0 and the base price |
| `Pricing.ProductDiscountTakesPrecedence` | src/Pages/Transaction/index.js:232-233 | a live 20% product discount beats a live 50% category discount, and a base price of 100 becomes 80 |
| `LineItems.FindIndex` | src/Pages/Transaction/index.js:102-104 | the result is -1 exactly when no entry has the id; otherwise it is the first entry with that id |
| `LineItems.FindIndexUnique` | src/Pages/Transaction/index.js:102-107 | in a cart without duplicate ids, the lookup returns the one entry with that id |
| `LineItems.AppendFreshKeepsUnique` | src/Pages/Transaction/index.js:111-133 | appending an entry whose id is absent keeps ids unique |
| `LineItems.GrandTotalAppend` | src/Pages/Transaction/index.js:66-71 | appending an entry raises the grand total by its line total |
| `LineItems.GrandTotalUpdate` | src/Pages/Transaction/index.js:66-71 | replacing an entry changes the grand total by the difference of the two line totals |
| `LineItems.GrandTotalRemove` | src/Pages/Transaction/index.js:66-71 | removing an entry lowers the grand total by its line total |
| `LineItems.GrandTotalIsQuantityPriceSum` | src/Pages/Transaction/index.js:66-71 | when every line total is quantity times unit price, the grand total is the sum of quantity times unit price |
| `LineItems.GrandTotalNonNegative` | src/Pages/Transaction/index.js:66-71 | non-negative line totals give a non-negative grand total |
| `Totals.TotalsOf` | src/Pages/Transaction/index.js:65-85 | the grand total is the sum of the line totals, the tax is `tax/100` of it, and subtotal plus tax equals the grand total |
| `Totals.ComputeTotals` | src/Pages/Transaction/index.js:65-85 | the accumulator loop yields the sum of all line totals, the tax `tax/100` of it and the subtotal the grand total minus the tax |
| `Totals.EmptyCartTotals` | src/Pages/Transaction/index.js:66-85 | an empty cart totals to zero under any tax rate |
| `Totals.TotalsBounds` | src/Pages/Transaction/index.js:73-75 | with a tax rate between 0 and 100 and non-negative line totals, tax and subtotal each lie between 0 and the grand total |
| `Totals.TaxInclusiveExample` | src/Pages/Transaction/index.js:73-75 | a 10% rate on a single line of 110 gives tax 11 and subtotal 99 |
| `Cart.WithQuantity` | src/Pages/Transaction/index.js:207-211 | an updated entry has the new quantity and a line total of new quantity times its stored price; id, title, category, price, discount and expiration are unchanged |
| `Cart.Updated` | src/Pages/Transaction/index.js:204-214 | setting a quantity changes only the entry at the index and keeps the length |
| `Cart.UpdatedKeepsInvariants` | src/Pages/Transaction/index.js:204-214 | setting a quantity keeps ids unique and line totals consistent, and keeps quantities at least 1 when the new one is |
| `Cart.UpdatedGrandTotal` | src/Pages/Transaction/index.js:204-214 | setting a quantity replaces the entry's line total in the grand total by new quantity times unit price |
| `Cart.DecreasedAmount` | src/Pages/Transaction/index.js:174-180 | the decreased quantity is never below 1; it is one less when the quantity is at least 2 and 1 otherwise |
| `Cart.Increased` | src/Pages/Transaction/index.js:160-164 | the + button keeps the length, adds 1 to the quantity at the index and leaves every other entry unchanged |
| `Cart.Decreased` | src/Pages/Transaction/index.js:172-183 | the - button keeps the length (never removes the entry), takes 1 off a quantity of at least 2, leaves the quantity at least 1 and leaves every other entry unchanged |
| `Cart.Removed` | src/Pages/Transaction/index.js:188-192 | deleting shortens the cart by one, keeps earlier entries and shifts later entries one place left |
| `Cart.NewLineItem` | src/Pages/Transaction/index.js:111-128 | a new entry has the product's id, quantity 1, and price and line total equal to the resolved price, with the resolved discount |
| `Cart.Pick` | src/Pages/Transaction/index.js:99-134 | picking fails exactly when the id is absent from the cart and the discount cannot be resolved |
| `Cart.IncreasedLineTotal` | src/Pages/Transaction/index.js:160-164 | the + button raises the entry's line total by one unit price and changes no other entry |
| `Cart.IncreasedGrandTotal` | src/Pages/Transaction/index.js:160-164 | the + button raises the grand total by the entry's unit price |
| `Cart.DecreasedLineTotal` | src/Pages/Transaction/index.js:172-183 | on a quantity of at least 2, the - button lowers the entry's line total by one unit price and changes no other entry |
| `Cart.DecreasedGrandTotal` | src/Pages/Transaction/index.js:172-183 | on a quantity of at least 2, the - button lowers the grand total by the entry's unit price |
| `Cart.DecreasedFloorsAtOne` | src/Pages/Transaction/index.js:174-182 | the - button keeps every quantity at least 1, and on a quantity of 1 leaves the cart unchanged |
| `Cart.IncreaseThenDecrease` | src/Pages/Transaction/index.js:160-183 | + followed by - on the same entry restores the original cart |
| `Cart.RemovedKeepsInvariants` | src/Pages/Transaction/index.js:188-192 | deleting keeps ids unique, line totals consistent and quantities at least 1 |
| `Cart.RemovedGrandTotal` | src/Pages/Transaction/index.js:188-192 | deleting lowers the grand total by the removed entry's line total |
| `Cart.PickExisting` | src/Pages/Transaction/index.js:102-109 | picking a product already in the cart always succeeds; the length is unchanged, its quantity rises by 1 at its stored price and discount, and no other entry changes |
| `Cart.PickNew` | src/Pages/Transaction/index.js:111-133 | picking a new product succeeds exactly when its price resolves; it appends exactly one entry at the end, with quantity 1, price and line total the resolved price and the resolved discount, and earlier entries are unchanged |
| `Cart.PickProperties` | src/Pages/Transaction/index.js:99-134 | a successful pick keeps ids unique, line totals consistent and quantities at least 1, and leaves an entry with the picked id in a non-empty cart |
| `Cart.PickGrandTotal` | src/Pages/Transaction/index.js:99-134 | a successful pick raises the grand total by the stored unit price of an existing entry or by the resolved price of a new one |
| `Cart.PickThreeTimes` | src/Pages/Transaction/index.js:99-133 | three picks of a product priced 100 with a live 20% discount give one entry at 80 with quantity 3 and line total 240 |
| `Checkout.Transaction.constructor` | src/Pages/Transaction/index.js:16-22 | a fresh screen has an empty cart, disabled buttons and zero totals, and satisfies the invariant |
| `Checkout.Transaction.RecalculateCheckoutValues` | src/Pages/Transaction/index.js:65-92 | the stored totals become the totals of the cart under the store's tax rate; the buttons are enabled when the cart is non-empty and otherwise left as they were |
| `Checkout.Transaction.UpdateProducts` | src/Pages/Transaction/index.js:204-214 | given a new quantity of at least 1, the cart becomes the cart with the quantity at the index set and its line total recomputed; the invariant (including every quantity at least 1) holds |
| `Checkout.Transaction.HandlePickProduct` | src/Pages/Transaction/index.js:99-139 | the cart becomes the picked cart and the buttons are enabled; when the category lookup fails, nothing changes |
| `Checkout.Transaction.HandleIncreaseClick` | src/Pages/Transaction/index.js:160-164 | the cart becomes the cart after +; the flag and the totals are unchanged |
| `Checkout.Transaction.HandleDecreaseClick` | src/Pages/Transaction/index.js:172-183 | the cart becomes the cart after -; quantities stay at least 1 |
| `Checkout.Transaction.HandleDeleteClick` | src/Pages/Transaction/index.js:188-199 | the cart loses the entry at the index, and the buttons are disabled exactly when the cart became empty |
| `Checkout.Transaction.HandleCancelClick` | src/Pages/Transaction/index.js:272-278 | the cart becomes empty and the buttons are disabled |

## Left out

- React state hooks, JSX rendering and the `toFixed(2)` display rounding
  (`index.js:280-405`) are presentation. The model keeps exact values.
- The category fetch over HTTP, its error alerts and the refetch-if-empty
  effect (`index.js:28-59`) are network I/O. The category table is a
  parameter of `HandlePickProduct`. The race where a pick runs before the
  table has loaded shows up only as that parameter being empty.
- Navigation on checkout (`index.js:151-153`) and the barcode/icon toggle
  (`index.js:144-146`) are UI.
- Clock reads and date-string parsing (`index.js:222-225`, `242-244`) are
  replaced by an integer `now` and integer expirations. An unparsable date
  (NaN in JavaScript, for which every comparison is false) is not modelled.
- JavaScript floating-point rounding of prices and tax is not modelled;
  arithmetic is exact over reals.
- Update in place: `updateProducts` copies the array shallowly and then
  assigns fields of the shared line-item object. The model treats line
  items as values. Code that still holds the previous array would see the
  change; the model does not capture that aliasing.
- The cart held in the shared cart context across navigation is not
  modelled: a `Transaction` starts with an empty cart. The index handed to
  the index-based handlers is a DOM id string in the source and an integer
  here.
- `src/components/ProductNew/index.js`, `src/components/CategoryNew/index.js`,
  `src/Pages/Login/index.js` and `src/components/HelperFunctions.js` are
  forms, HTTP calls and session storage, and are not part of this model.
  Only the 0-100 discount bounds of the product and category forms
  (`src/components/ProductNew/index.js:173-174`,
  `src/components/CategoryNew/index.js:107-108`) appear, as hypotheses of
  `Pricing.CalculatedPriceBounds`.
- Pricing.CalculatedPriceBounds: its 0-100 discount hypotheses are bounds
  the forms declare but do not enforce. Both forms are `<form noValidate>`
  (`src/components/ProductNew/index.js:104`,
  `src/components/CategoryNew/index.js:60`), so a stored discount outside
  0-100 is possible, and the lemma says nothing about it.
- Cart.Removed: `splice` also accepts an index at or past the end (nothing
  is removed) and a negative index (counted from the end). The model
  requires a valid index, since the rendered buttons only ever pass one,
  and does not capture those cases.
