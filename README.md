# POS dashboard core in Dafny

A Dafny model of the point-of-sale dashboard's client-side business logic. It covers five components:

- **The sidebar dashboard** (`components/sidebar.tsx`): a shopping cart keyed by product id. It supports add, remove and quantity adjustment. Its totals carry 14 % VAT. Checkout turns the cart into a new "Preparing" order numbered `max(ids, 0) + 1`.
- **The quick-stats popup** (`components/itempop.tsx`): four counters, their total floored at 1, rounded percentages and the progress-bar clamp.
- **The customers screen** (`components/customer.tsx`): search and city filter; add, edit, update, delete and favourite toggle; the "Loyal Customers" and "Cities" counters.
- **The sales screen** (`components/sales.tsx`): the date, payment-method and status filter; the summary of completed sales; "Clear Filters".
- **The products screen** (`components/product.tsx`): search and category filter; the add, update and delete handlers, which change the local list only after the store call succeeds; the stock badge.

Files:

- `wrappers.dfy`: `Option`.
- `seqs.dfy`: the JavaScript `filter`, the replace-by-id `map`, the subsequence relation, key uniqueness and the `Math.max(...ids, 0) + 1` numbering rule.
- `text.dfy`: `toLowerCase` and `includes`.
- `itempop.dfy`, `sidebar.dfy`, `customer.dfy`, `sales.dfy`, `product.dfy`: one module per component.

Each stateful component is a class: `Cart.Dashboard`, `Customers.CustomerBook` and `Products.ProductCatalog`. Its fields are the component's React state. Its methods are the handlers. Each handler is specified by a pure function on the old state, and the lemmas prove that function's properties.

Conventions:

- **Money** is integer cents, so `195.00` is `19500`. The VAT and grand-total display figures and the sales average are `real`.
- **Dates** in the sales list are day numbers.
- **Outside inputs are parameters:**
  - the random customer pick at checkout is an index `pick`;
  - the `window.confirm` answer is `confirmed`;
  - the Firestore call results are `outcome` / `succeeded`;
  - "today" for a new customer is `today`.

Four behaviours of the code that the model keeps as written:

- `adjustQuantity` clamps the quantity at 1 (`Math.max(1, …)`). Its trailing `filter(quantity > 0)` can therefore never remove a line, so decrementing never drops an item from the cart (`Cart.AdjustProperties`, `Cart.AdjustBelowOneExample`).
- The order that `checkout` records has `total` equal to the pre-VAT subtotal, not the VAT-inclusive figure the cart panel shows (`Cart.NewOrderProperties`).
- The stats popup does not coerce negative counters to zero. A negative counter gives a negative percentage, and only the bar width is clamped (`Stats.Progress`, `Stats.BarWidth`).
- The dashboard code has no operation that changes an order's status. Orders are created as "Preparing" and never move.

## Model

Rows name the function that renders a piece of the source, the lemma or method whose contract characterises it, and, marked "proof helper", the supporting lemmas those proofs use.

| member | source | states |
|---|---|---|
| Seqs.Filter | components/sidebar.tsx:217 | the result is no longer than the input, and holds exactly the input elements that pass the test; every copy of a passing element is kept (`Seqs.FilterMultiset`) and in order (`Seqs.FilterIsSubsequence`) |
| Seqs.FilterIsSubsequence | components/customer.tsx:69-78 | a filter keeps the input's order: its result is a subsequence of the input |
| Seqs.FilterKeepsAll | components/sidebar.tsx:226 | a filter whose test holds for every element returns the input unchanged |
| Seqs.FilterMultiset | components/sales.tsx:62 | a filter keeps every copy of a passing element and no copy of any other: the multiset count of each element is its input count when it passes, 0 otherwise |
| Seqs.FilterKeepsUnique | components/sidebar.tsx:217 | filtering a list whose keys are distinct leaves the keys distinct |
| Seqs.FilterCountUpdate | components/customer.tsx:185 | replacing one element changes the filtered count by exactly the old and new element's contributions |
| Seqs.FilterWhenSpec | components/sales.tsx:89-97 | a conditionally applied filter yields a subsequence holding an element iff it is in the input and, when the filter is active, passes it, with every copy of a kept element kept |
| Seqs.ReplacedBy | components/customer.tsx:111-113 | replacing by key keeps the number of elements |
| Seqs.ReplacedBySpec | components/product.tsx:112-114 | replacement keeps every key in place and so key uniqueness; with unique keys it replaces exactly the matching element; with no match it changes nothing |
| Seqs.Keys | components/sidebar.tsx:235 | `map(o => o.id)`: one key per element, in the same order |
| Seqs.KeyIsNot | components/sidebar.tsx:217 | renders the test `item => item.product.id !== id` of the remove and delete handlers, applied by `Cart.RemovedFromCart`, `Customers.Deleted` and `Products.Deleted` |
| Seqs.MaxOrZero | components/sidebar.tsx:235 | `Math.max(...ids, 0)` is non-negative, at least every id, and is either 0 or one of the ids |
| Seqs.NextId | components/customer.tsx:92 | the new id is at least 1, above every existing id, and is 1 or one more than an existing id |
| Text.ToLower | components/customer.tsx:70 | lower-casing keeps the length, maps each character by the ASCII rule and leaves no upper-case letter |
| Text.ToLowerIdempotent | components/product.tsx:61 | lower-casing an already lower-cased string changes nothing |
| Text.Contains | components/customer.tsx:70-73 | `includes` holds iff the needle occurs as a contiguous block at some index |
| Stats.Total | components/itempop.tsx:28 | the divisor is at least 1 and at least the sum of the counters, and equals the sum unless that is below 1 |
| Stats.Progress | components/itempop.tsx:42 | the percentage r is the rounding of 100·value/total: 100·value/total lies in [r − ½, r + ½), and a counter between 0 and the total gives 0..100 |
| Stats.RoundingBounds | components/itempop.tsx:42 | proof helper: the Euclidean quotient brackets its dividend, used by `Stats.Progress` |
| Stats.PercentInRange | components/itempop.tsx:42 | proof helper: the rounding characterization forces a result in [0, 100] for 0 ≤ value ≤ total |
| Stats.Percentages | components/itempop.tsx:94-97 | with non-negative counters all four bars lie in [0, 100] |
| Stats.BarWidth | components/itempop.tsx:117 | the bar width lies in [0, 100]: it equals the value inside the range, 0 below it and 100 above it |
| Stats.AllZeroStats | components/sidebar.tsx:76 | all-zero counters give a total of 1 and four empty bars |
| Stats.ProductStatsExample | components/sidebar.tsx:74 | the product counters give a total of 175 and bars 69, 26, 2, 4 |
| Stats.SalesStatsExample | components/sidebar.tsx:75 | the sales counters give a total of 212 and bars 0, 94, 1, 5 |
| Cart.ValidCart | components/sidebar.tsx:201-228 | the cart invariant the three cart handlers keep: every line has quantity at least 1, and no two lines share a product id; kept by `Cart.AddKeepsValid`, `Cart.RemoveProperties` and `Cart.AdjustProperties` |
| Cart.Subtotal | components/sidebar.tsx:261 | renders `cartTotal`, the sum of price × quantity; characterised by `Cart.SubtotalAppend`, `Cart.SubtotalUpdate` and `Cart.SubtotalNonNegative` |
| Cart.ItemCount | components/sidebar.tsx:237 | renders the order's item count, the sum of quantities; characterised by `Cart.SubtotalAppend`, `Cart.SubtotalUpdate` and `Cart.ItemCountAtLeastLines` |
| Cart.Vat | components/sidebar.tsx:425 | renders the VAT line, `cartTotal * 0.14`; characterised by `Cart.GrandTotalIsSubtotalPlusVat` |
| Cart.GrandTotal | components/sidebar.tsx:429 | renders the total line, `cartTotal * 1.14`; characterised by `Cart.GrandTotalIsSubtotalPlusVat` |
| Cart.GrandTotalIsSubtotalPlusVat | components/sidebar.tsx:421-429 | the displayed total is the subtotal plus the VAT, and an empty cart shows zero for all three |
| Cart.SubtotalAppend | components/sidebar.tsx:261 | subtotal and item count add up over concatenated carts |
| Cart.SubtotalUpdate | components/sidebar.tsx:261 | replacing one line changes subtotal and item count by exactly the difference of that line |
| Cart.ItemCountAtLeastLines | components/sidebar.tsx:237 | with every quantity at least 1 the item count is at least the number of lines |
| Cart.SubtotalNonNegative | components/sidebar.tsx:261 | non-negative prices give a non-negative subtotal |
| Cart.CartTotalsExample | components/sidebar.tsx:421-429 | two Pap en Vleis and one Moroho give 155.00, VAT 21.70 and a total of 176.70 |
| Cart.AddedToCart | components/sidebar.tsx:201-214 | renders `addToCart`: the matching line is bumped or a new line is appended; characterised by `Cart.AddExisting`, `Cart.AddNew` and `Cart.AddKeepsValid` |
| Cart.IncrementedAt | components/sidebar.tsx:205-209 | with distinct ids the map bumps only the one matching line |
| Cart.BumpedLine | components/sidebar.tsx:207 | bumping one line of a valid cart keeps it valid and adds that line's price to the subtotal and one to the item count |
| Cart.AddExisting | components/sidebar.tsx:203-209 | adding a product already in the cart bumps that line by one and nothing else, keeps the cart invariant, and raises subtotal by one price and item count by one |
| Cart.AddNew | components/sidebar.tsx:210-211 | adding a new product appends one line of quantity 1, keeps ids distinct, and raises subtotal by its price and item count by one |
| Cart.AddKeepsValid | components/sidebar.tsx:201-214 | either branch of add keeps the cart invariant; the length grows by one exactly when the product was absent |
| Cart.RemovedFromCart | components/sidebar.tsx:217 | renders `removeFromCart`'s filter; characterised by `Cart.RemoveProperties` |
| Cart.RemoveProperties | components/sidebar.tsx:216-218 | removal yields an order-preserving subsequence: no line with that id, every other line kept, the invariant kept, and nothing changed when the id is absent |
| Cart.Adjusted | components/sidebar.tsx:222-226 | renders `adjustQuantity`'s map followed by its filter; characterised by `Cart.AdjustProperties` |
| Cart.AdjustProperties | components/sidebar.tsx:220-228 | adjusting sets the matching line to max(1, q + amount), touches nothing else, keeps length and invariant, and changes nothing when the id is absent |
| Cart.AdjustBelowOneExample | components/sidebar.tsx:224-226 | decrementing a line of 2 by 5 leaves a line of 1 rather than removing it |
| Cart.NewOrder | components/sidebar.tsx:234-240 | renders the order `checkout` builds; characterised by `Cart.NewOrderProperties` |
| Cart.NewOrderProperties | components/sidebar.tsx:233-240 | the new order is Preparing; its id is above every current id (max + 1) and keeps ids increasing; it has at least one item per line; it records the subtotal, the shown total minus VAT |
| Cart.FirstCheckoutIsOrderFour | components/sidebar.tsx:188-192 | the first checkout after the three seeded orders is order #4 |
| Cart.SecondCheckoutIsOrderFive | components/sidebar.tsx:235 | once order #4 follows the seeded orders, the next checkout is order #5 |
| Cart.Dashboard.constructor | components/sidebar.tsx:187-192 | an empty cart and the three seeded orders, satisfying the invariant |
| Cart.Dashboard.AddToCart | components/sidebar.tsx:201-214 | the cart becomes the add result, the orders are unchanged, and the invariant is kept |
| Cart.Dashboard.RemoveFromCart | components/sidebar.tsx:216-218 | the cart becomes the removal result, the orders are unchanged, and the invariant is kept |
| Cart.Dashboard.AdjustQuantity | components/sidebar.tsx:220-228 | the cart becomes the adjusted cart of the same length, the orders are unchanged, and the invariant is kept |
| Cart.Dashboard.Checkout | components/sidebar.tsx:230-246 | an empty cart places nothing and changes nothing; otherwise one new order is appended and the cart is emptied, keeping ids increasing |
| Cart.TwoCheckouts | components/sidebar.tsx:230-243 | two checkouts from a fresh dashboard are orders #4 and #5 |
| Customers.MatchesSearch | components/customer.tsx:69-74 | renders the search test: lower-cased first name, last name or e-mail includes the lower-cased term, or the phone includes the raw term; used by `Customers.FilteredCustomersSpec` |
| Customers.FilteredCustomers | components/customer.tsx:65-82 | renders the filter effect; characterised by `Customers.FilteredCustomersSpec` and `Customers.UnfilteredShowsAll` |
| Customers.FilteredCustomersSpec | components/customer.tsx:65-82 | the visible list is an order-preserving subsequence holding a customer iff it matches the non-empty search term and the selected city, with every copy of a shown customer kept |
| Customers.UnfilteredShowsAll | components/customer.tsx:66-81 | no term and city "All" show every customer |
| Customers.FormComplete | components/customer.tsx:85 | renders the required-fields guard of `handleAddCustomer`; used by `Customers.CustomerBook.AddCustomer` |
| Customers.NewCustomer | components/customer.tsx:90-96 | renders the customer `handleAddCustomer` builds; characterised by `Customers.NewCustomerIsFresh` |
| Customers.NewCustomerIsFresh | components/customer.tsx:90-98 | the added customer's id is above every existing id, so ids stay distinct; it starts with no points and nothing spent |
| Customers.Replaced | components/customer.tsx:111-113 | renders `handleUpdateCustomer`'s map, as `Seqs.ReplacedBy` on the id; characterised by `Customers.ReplacedSpec` |
| Customers.ReplacedSpec | components/customer.tsx:108-113 | update keeps the number of customers, replaces exactly the entry with that id, keeps ids distinct, and changes nothing when no entry matches |
| Customers.Deleted | components/customer.tsx:122 | renders `handleDeleteCustomer`'s filter; characterised by `Customers.DeletedSpec` |
| Customers.DeletedSpec | components/customer.tsx:119-122 | deletion yields an order-preserving subsequence without that id, keeps every copy of the other customers, keeps ids distinct, and is a no-op for an absent id |
| Customers.FavoriteToggled | components/customer.tsx:125-128 | the toggled list has the same length |
| Customers.FavoriteToggledSpec | components/customer.tsx:125-128 | toggling flips only the matching customers' flag, keeps ids and their uniqueness, and toggling twice restores the list |
| Customers.FavoriteCount | components/customer.tsx:185 | the favourite count lies between 0 and the number of customers |
| Customers.FavoriteCountAfterToggle | components/customer.tsx:125-128 | with distinct ids, toggling one customer moves the favourite count down by one if it was a favourite, up by one otherwise |
| Customers.Cities | components/customer.tsx:197 | renders `new Set(customers.map(c => c.city))`; bounded by `Customers.CitiesBound` |
| Customers.CityCount | components/customer.tsx:197 | the number of distinct cities is at most the number of customers, and at least 1 for a non-empty list |
| Customers.CitiesBound | components/customer.tsx:197 | the city set is no larger than the list, and non-empty for a non-empty list |
| Customers.CustomerBook.constructor | components/customer.tsx:47-62 | the initial list, no search, city "All", both forms closed and empty |
| Customers.CustomerBook.AddCustomer | components/customer.tsx:84-101 | an incomplete form changes nothing; otherwise the new customer is appended, the form is cleared and closed, and ids stay distinct |
| Customers.CustomerBook.EditCustomer | components/customer.tsx:103-106 | the customer becomes the one being edited and the edit form opens |
| Customers.CustomerBook.UpdateCustomer | components/customer.tsx:108-117 | with no customer being edited nothing happens; otherwise the entry is replaced and the edit form closes |
| Customers.CustomerBook.DeleteCustomer | components/customer.tsx:119-123 | an unconfirmed delete changes nothing; a confirmed one removes the id |
| Customers.CustomerBook.ToggleFavorite | components/customer.tsx:125-129 | the list becomes the toggled list, ids stay distinct, everything else is kept |
| Customers.CustomerBook.ResetForm | components/customer.tsx:131-136 | both forms close and clear; the list and filters are kept |
| Sales.StatusNamesDistinct | components/sales.tsx:95-96 | proof helper: the status names are distinct and none is "All", so the name test at line 96 is a test of the status itself |
| Sales.Passes | components/sales.tsx:80-97 | renders the three active tests a sale must pass; used by `Sales.FilteredSalesSpec` and `Sales.FilteredSalesCounts` |
| Sales.ByDate | components/sales.tsx:80-87 | renders the date-range step; characterised by `Sales.ByDateSpec` |
| Sales.ByDateSpec | components/sales.tsx:80-87 | the date step yields an order-preserving subsequence holding a sale iff it lies in the inclusive range when both ends are set, with every copy of such a sale kept |
| Sales.FilteredSales | components/sales.tsx:76-100 | renders the filter effect; characterised by `Sales.FilteredSalesSpec` and `Sales.FilteredSalesCounts` |
| Sales.FilteredSalesSpec | components/sales.tsx:76-100 | the filtered list is an order-preserving subsequence holding a sale iff it lies in the inclusive date range when both ends are set, and matches the payment method and status unless "All" |
| Sales.FilteredSalesCounts | components/sales.tsx:76-100 | every copy of a sale passing the active filters is kept and no copy of any other |
| Sales.ClearedFilters | components/sales.tsx:269-273 | cleared filters have no active date range |
| Sales.ClearedFiltersShowAll | components/sales.tsx:269-273 | after "Clear Filters" every sale is shown |
| Sales.HalfRangeIgnored | components/sales.tsx:80 | a range with only the start set filters nothing by date |
| Sales.SumTotals | components/sales.tsx:63 | renders `completedSales.reduce((sum, sale) => sum + sale.total, 0)`; bounded by `Sales.SumTotalsBounds` |
| Sales.Summary | components/sales.tsx:61-73 | the summary is over the completed filtered sales: the count is at most the filtered length; the average is 0 for none and otherwise total / count |
| Sales.SummaryCountsCompleted | components/sales.tsx:62-64 | the count and total are those of the completed sales, every copy of a completed sale is counted and nothing else, and no completed sale gives an all-zero summary |
| Sales.SumTotalsBounds | components/sales.tsx:63 | per-sale bounds on the totals bound their sum |
| Sales.AverageWithinTotals | components/sales.tsx:65 | the average lies between the smallest and largest completed totals |
| Sales.AverageBounds | components/sales.tsx:65 | proof helper: integer bounds on a sum carry over to its exact average, used by `Sales.AverageWithinTotals` |
| Products.MatchesSearch | components/product.tsx:60-63 | renders the search test: the lower-cased name, or the lower-cased description when present, includes the lower-cased term; used by `Products.FilteredProductsSpec` |
| Products.FilteredProducts | components/product.tsx:56-71 | renders the filter effect; characterised by `Products.FilteredProductsSpec` |
| Products.FilteredProductsSpec | components/product.tsx:56-71 | the grid is an order-preserving subsequence holding a product iff its name or description matches the non-empty term and it is in the selected category, with every copy of a shown product kept |
| Products.SearchIgnoresTermCase | components/product.tsx:59-63 | the search gives the same answer for a term and its lower-cased form |
| Products.FormValid | components/product.tsx:74 | renders the add form's guard: a name, a category and a positive price; used by `Products.ProductCatalog.AddProduct` |
| Products.FromForm | components/product.tsx:83-88 | renders the product built from the form and the store's new id; used by `Products.ProductCatalog.AddProduct` |
| Products.Replaced | components/product.tsx:112-114 | renders `handleUpdateProduct`'s map, as `Seqs.ReplacedBy` on the id; characterised by `Products.ReplacedSpec` |
| Products.ReplacedSpec | components/product.tsx:112-114 | update keeps the number of products and every id in place; with distinct ids it replaces exactly the matching entry; with no match it changes nothing |
| Products.Deleted | components/product.tsx:132 | renders `handleDeleteProduct`'s filter; characterised by `Products.DeletedSpec` |
| Products.DeletedSpec | components/product.tsx:132 | deletion yields an order-preserving subsequence keeping every copy of each other-id product and no product with that id, and is a no-op for an absent id |
| Products.StockBadge | components/product.tsx:336-340 | green iff stock > 10, yellow iff 0 < stock ≤ 10, red iff stock ≤ 0; the text is "n in stock" for positive stock and "Out of stock" otherwise |
| Products.BadgeConsistent | components/product.tsx:336-340 | red exactly when the text says out of stock; more stock never gives a worse tone |
| Products.ProductCatalog.constructor | components/product.tsx:37-53 | the loaded list, no search, category "All", both forms closed and empty |
| Products.ProductCatalog.AddProduct | components/product.tsx:73-98 | the product is appended iff the form is valid and the store created it; the form is then cleared and closed; otherwise nothing changes |
| Products.ProductCatalog.EditProduct | components/product.tsx:100-103 | the product becomes the one being edited and the edit form opens |
| Products.ProductCatalog.UpdateProduct | components/product.tsx:105-123 | the list is replaced iff a product is being edited and the store update succeeded, then the edit form closes; otherwise nothing changes |
| Products.ProductCatalog.DeleteProduct | components/product.tsx:125-138 | the id is removed iff confirmed and the store delete succeeded; otherwise nothing changes |
| Products.ProductCatalog.ResetForm | components/product.tsx:140-145 | both forms close and clear; the list and filters are kept |

## Left out

- Stats.Progress: computes exact round-half-up of 100·value/total rather than the floating-point `Math.round((value / total) * 100)`. The two can differ where the float quotient lands just beside a half.
- Cart.Dashboard.Checkout: the `alert` with the order number and the `toFixed(2)` total is user interface output and is not modelled. The random choice of the customer name is the parameter `pick`.
- Money is integer cents, not JavaScript floating point. Rounding artefacts of float sums and `toFixed` formatting are not modelled.
- `toLowerCase` is modelled for ASCII letters only. Unicode case mapping is not modelled.
- Sales dates are day numbers. Parsing of date strings by `new Date(...)` is not modelled, nor the effect of unparsable dates on the range filter.
- Products.ProductCatalog.AddProduct: the price is an integer. `parseFloat` producing `NaN` from an empty price input, which passes the `price <= 0` guard, is not modelled.
- The product list's load from Firestore (`productService.getAllProducts`) and its `loading` / `error` flags are not modelled. The constructor takes the loaded list as a parameter.
- The Firestore service calls, their IDs, and the `createdAt` / `updatedAt` timestamps are left out. Only the success or failure of each call enters the model, as a parameter.
- `window.confirm`, `alert` and `console.error` are browser I/O. Only the confirmation answer enters the model, as a parameter.
- The form fields' `onChange` setters and the search, city, category, date and select inputs are plain state assignments. The model reads the resulting field values directly.
- The hard-coded display figures are constants with no logic and are not modelled:
  - the dashboard's "today's sales" card;
  - the sales summary's `comparison: 12`.
- The customers screen's average loyalty-points card is not modelled. It is `Math.round(sum / customers.length)`, with no guard, so an empty list shows `NaN`, and it has float rounding.
- Rendering, animation, routing, the sidebar navigation and the dark-mode styling are not modelled.
- The customer phone search is an exact-case `includes` on the raw phone string, as in the code. Phone number normalisation does not exist in the code.
- Product stock is not decremented at checkout: the code does not do it either.
