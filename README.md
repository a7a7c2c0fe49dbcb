# Storefront cart, shop listing and checkout — a Dafny model

This project models the parts of a client-rendered storefront that hold
real logic:

- **The cart engine** (`contexts/CartContext.jsx`). A reducer over a list of
  line items with five actions (`ADD_TO_CART`, `REMOVE_FROM_CART`,
  `UPDATE_QUANTITY`, `CLEAR_CART`, `LOAD_CART`). Around it sit the public
  operations `addToCart`, `removeFromCart`, `updateQuantity` and `clearCart`,
  the folds `getCartTotal` and `getCartItemsCount`, and the provider that
  reads the saved cart back from local storage once (hydration). Only after
  that does it write the items to the `"cart"` record.
- **The shop listing** (`app/shop/page.jsx`). A three-condition filter (name
  search, category, price range), the category options, twelve-per-page
  pagination and the clamped Previous/Next buttons.
- **The checkout page** (`app/checkout/page.jsx`). A three-step form, its
  field updates, the order summary (8% tax, 9.99 flat shipping), the masked
  card number, and placing the order, which empties the cart.

Files and modules (one module per file):

| file | module | models |
|---|---|---|
| options.dfy | Options | `null`/`undefined` versus a value |
| seqs.dfy | Seqs | `filter`, `Set` de-duplication in insertion order, `slice`, concatenation of pages |
| catalog.dfy | Catalog | the product record |
| cart_reducer.dfy | CartReducer | line items, actions, the reducer, the public operations as actions, and their properties |
| cart_totals.dfy | CartTotals | `getCartTotal`, `getCartItemsCount` |
| cart_engine.dfy | CartEngine | the provider as a class: `items`, `hydrated` and the storage record |
| shop_filter.dfy | ShopFilter | the filter effect and the category options |
| pagination.dfy | Pagination | page count, page slice, Previous/Next |
| shop_page.dfy | ShopPage | the shop page's state as a class |
| checkout.dfy | Checkout | step machine, form, summary, card mask, the page as a class |

Modelling choices:

- Money is an exact `real`. Quantities are `int`. Product ids are `int`,
  compared by equality.
- The `"cart"` record is the datatype `Record`, with three cases: `Absent`
  (no record, or the empty string, which the code treats as falsy),
  `Unparseable`, and `Saved(items)`. The JSON text is not modelled.
- Each React effect runs right after the state change that triggers it.
  A setter called with an unchanged string does not re-render, so the filter
  effect does not run (search term and category). The price slider always
  installs a new array, so the effect always runs.
- The code sets the `hydrated` flag before it reads the saved cart. Both
  updates take effect together, so the first write already carries the loaded
  items.
- After a malformed record, the items stay empty and the persistence effect
  then overwrites the record with an empty list (`StartWithUnparseableRecord`).
- The provider's `getCartTotal` and `getCartItemsCount` are the folds
  `CartTotal` and `ItemsCount` applied to the provider's `items`.
- The code does not guard against a product without an id. Every product here
  carries one.
- `LOAD_CART` installs its payload unchecked. So uniqueness of ids and
  quantities of at least 1 are proved for the public operations
  (`RunKeepsWellFormed`), not for whatever a saved record holds.
- If a product's category is literally `"All"`, the category options hold
  `"All"` twice, as in the code.

## Model

| member | source | states |
|---|---|---|
| Seqs.Filter | contexts/CartContext.jsx:49 | `filter`: the result is an order-preserving subsequence of the input, every kept element passes the test, and every element that passes is kept |
| Seqs.Distinct | app/shop/page.jsx:40 | `Array.from(new Set(xs))`: every element of the input appears, nothing else, and no element twice |
| Seqs.DistinctFirstAppearanceOrder | app/shop/page.jsx:38-41 | the de-duplicated list is in order of first appearance in the input |
| Seqs.FilterCounts | app/shop/page.jsx:53-62 | a filter keeps every copy of a passing element and no copy of a failing one |
| Seqs.Slice | app/shop/page.jsx:70 | `slice` with clamped and negative bounds: never longer than the input or than `end - start`, equal to the plain subsequence for in-range bounds, and made of input elements |
| CartReducer.Find | contexts/CartContext.jsx:29 | `find` by id: finds something exactly when some item has the id, and then the first such item |
| CartReducer.MapQuantityWhere | contexts/CartContext.jsx:34-36 | the quantity `map`: same length and same product fields; the matching items get the new quantity, the others are untouched |
| CartReducer.Reduce | contexts/CartContext.jsx:24-79 | no action except LOAD_CART brings in an id that was not there before, other than the added product's |
| CartReducer.ActionOf | contexts/CartContext.jsx:131-154 | the public operations never dispatch LOAD_CART or an unknown action; `updateQuantity` with a quantity of 0 or less dispatches REMOVE_FROM_CART; an UPDATE_QUANTITY it dispatches carries a quantity of at least 1 |
| CartReducer.AddAbsentAppends | contexts/CartContext.jsx:39-43 | adding an absent product appends exactly one item, with quantity 1 and the product's fields; earlier items are unchanged |
| CartReducer.AddPresentIncrements | contexts/CartContext.jsx:29-37 | adding a present product keeps the length, adds 1 to that item's quantity, keeps its stored fields (no refresh), and leaves other items alone |
| CartReducer.AddTwiceGivesQuantityTwo | contexts/CartContext.jsx:27-43 | adding the same product twice to an empty cart gives one item with quantity 2 |
| CartReducer.RemoveKeepsUniqueIds | contexts/CartContext.jsx:49 | the removal filter keeps ids unique |
| CartReducer.RemoveDropsEveryMatch | contexts/CartContext.jsx:46-50 | REMOVE_FROM_CART keeps, in order, exactly the items with other ids, every copy of each (same multiplicities); the id is then absent; nothing changes when it was absent |
| CartReducer.SetQuantityEffect | contexts/CartContext.jsx:141-149 | `updateQuantity(id, q)` with `q <= 0` equals `removeFromCart(id)`; with `q > 0` it sets only that item's quantity and creates no item |
| CartReducer.ClearLoadAndUnrecognised | contexts/CartContext.jsx:62-77 | CLEAR_CART gives the empty list, LOAD_CART exactly its payload, and an unknown action the list unchanged |
| CartReducer.ReduceKeepsUniqueIds | contexts/CartContext.jsx:24-79 | every action except LOAD_CART keeps ids unique |
| CartReducer.ApplyKeepsWellFormed | contexts/CartContext.jsx:131-154 | each public operation keeps ids unique and all quantities at least 1 |
| CartReducer.RunKeepsWellFormed | contexts/CartContext.jsx:131-154 | any series of public operations keeps ids unique and all quantities at least 1 |
| CartTotals.CartTotal | contexts/CartContext.jsx:160-162 | 0 for an empty cart; never negative when prices and quantities are not |
| CartTotals.ItemsCount | contexts/CartContext.jsx:165-167 | 0 for an empty cart; at least the number of items when every quantity is at least 1 |
| CartTotals.IncrementTotals | contexts/CartContext.jsx:34-36 | incrementing the items with an id adds one unit per such item to the count, and their unit prices to the total |
| CartTotals.UniqueIdCounts | contexts/CartContext.jsx:29 | with unique ids, an id is carried by at most one item |
| CartTotals.AddRaisesTotals | contexts/CartContext.jsx:160-167 | with unique ids, an add raises the count by exactly 1 and the total by one unit price: the payload's for a new product, the stored one otherwise |
| CartTotals.ClearedCartIsZero | contexts/CartContext.jsx:62-66 | after CLEAR_CART the total and the count are 0 |
| CartEngine.CartProvider.constructor | contexts/CartContext.jsx:88-90 | the provider starts with no items, not hydrated, and the storage record as found |
| CartEngine.CartProvider.Persist | contexts/CartContext.jsx:115-123 | nothing is written before hydration; after it, the record becomes the items |
| CartEngine.CartProvider.Hydrate | contexts/CartContext.jsx:96-109 | sets the flag; a parsed record replaces the items exactly; an absent or unparseable record leaves them; the record then mirrors the items |
| CartEngine.CartProvider.Dispatch | contexts/CartContext.jsx:88 | the items become the reducer's result; the record follows only if hydrated |
| CartEngine.CartProvider.Perform | contexts/CartContext.jsx:131-154 | a public operation applies its action and keeps a well-formed cart well-formed |
| CartEngine.CartProvider.AddToCart | contexts/CartContext.jsx:131-133 | dispatches ADD_TO_CART; keeps the cart well-formed; raises the unit count by 1 when ids are unique |
| CartEngine.CartProvider.RemoveFromCart | contexts/CartContext.jsx:136-138 | dispatches REMOVE_FROM_CART; the id is absent afterwards |
| CartEngine.CartProvider.UpdateQuantity | contexts/CartContext.jsx:141-149 | a quantity of 0 or less removes the item, a positive one sets it; keeps the cart well-formed |
| CartEngine.CartProvider.ClearCart | contexts/CartContext.jsx:152-154 | the cart becomes empty, and so does the record once hydrated |
| CartEngine.Restart | contexts/CartContext.jsx:96-123 | a new provider over the record a hydrated provider left behind reads back exactly the same items |
| CartEngine.StartWithUnparseableRecord | contexts/CartContext.jsx:100-106 | a malformed record leaves the cart empty, still sets the flag, and is replaced by an empty list |
| ShopFilter.LowerChar | app/shop/page.jsx:53 | ASCII `toLowerCase` of one character: upper-case letters move down by 32, nothing else changes, and no upper-case letter remains |
| ShopFilter.Lower | app/shop/page.jsx:53 | ASCII `toLowerCase` of a string, character by character |
| ShopFilter.FilterProducts | app/shop/page.jsx:48-62 | the listing is an order-preserving subsequence of the products; every kept product meets all three conditions, and every product that does is kept |
| ShopFilter.FilterProductsIsOneFilter | app/shop/page.jsx:49-62 | the three successive, partly optional filters select what one filter by the conjunction selects |
| ShopFilter.SearchIgnoresCase | app/shop/page.jsx:53 | the search gives the same answer for a term and its lower-cased form |
| ShopFilter.TruthyCategories | app/shop/page.jsx:40 | `map(p => p.category).filter(Boolean)`: every non-empty category of a product, and only those |
| ShopFilter.Categories | app/shop/page.jsx:38-41 | "All" first, then each non-empty product category exactly once, and no other value |
| ShopFilter.CategoriesInFirstAppearanceOrder | app/shop/page.jsx:38-41 | the categories after "All" are in order of first appearance |
| ShopFilter.NoProductsOnlyAll | app/shop/page.jsx:28-34 | with no products the options are just "All" |
| Pagination.TotalPages | app/shop/page.jsx:68 | `ceil(n / 12)`: the fewest pages of twelve that hold `n` products |
| Pagination.ShowPagerWhenOverOnePage | app/shop/page.jsx:198 | the pager is shown exactly when there are more than twelve products |
| Pagination.PageItems | app/shop/page.jsx:69-70 | a page has at most twelve products, all from the list; pages 1 to TotalPages are non-empty and start at `(page - 1) * 12`; later pages are empty |
| Pagination.PagesCoverPrefix | app/shop/page.jsx:68-70 | pages 1 to `m` together are the first `12m` products |
| Pagination.PagesConcatenate | app/shop/page.jsx:68-70 | pages 1 to TotalPages together give back the whole list |
| Pagination.PreviousPageNumber | app/shop/page.jsx:75 | Previous never goes below 1 and otherwise goes back one page |
| Pagination.NextPageNumber | app/shop/page.jsx:95 | Next never exceeds the page count and otherwise goes forward one page |
| Pagination.PagerStaysInRange | app/shop/page.jsx:75-95 | from a page in range, Previous and Next land in range |
| ShopPage.Shop.constructor | app/shop/page.jsx:10-20 | the initial settings ("", "All", 0 to 300, page 1), options ["All"] and an empty listing |
| ShopPage.Shop.ApplyFilters | app/shop/page.jsx:48-66 | the filter effect recomputes the listing and resets the page to 1 |
| ShopPage.Shop.ReceiveProducts | app/shop/page.jsx:22-46 | on a fetch error all lists are empty and the options are ["All"]; otherwise the rows (none for `null`) and their categories are installed; the listing is then filtered and the page is 1 |
| ShopPage.Shop.SetSearchTerm | app/shop/page.jsx:130 | a new term resets the page to 1; an unchanged term keeps it |
| ShopPage.Shop.SelectCategory | app/shop/page.jsx:141 | a new category resets the page to 1; an unchanged one keeps it |
| ShopPage.Shop.SetMaxPrice | app/shop/page.jsx:162 | moving the slider sets the upper price bound and always resets the page to 1 |
| ShopPage.Shop.CurrentProducts | app/shop/page.jsx:68-70 | at most twelve products, all from the listing, and at least one whenever the listing is not empty |
| ShopPage.Shop.GoToPreviousPage | app/shop/page.jsx:75 | Previous stays within 1 to TotalPages |
| ShopPage.Shop.GoToNextPage | app/shop/page.jsx:95 | Next stays within 1 to TotalPages |
| ShopPage.Shop.GoToPage | app/shop/page.jsx:82-92 | a numbered button selects its page |
| Checkout.NextStep | app/checkout/page.jsx:47-51 | stays in 1 to 3; a no-op at step 3 |
| Checkout.PrevStep | app/checkout/page.jsx:53-57 | stays in 1 to 3; a no-op at step 1 |
| Checkout.PrevUndoesNext | app/checkout/page.jsx:47-57 | from a step below 3, Next then Previous returns to it |
| Checkout.PressesStayInRange | app/checkout/page.jsx:47-57 | any series of Next/Previous presses from a step in range stays in 1 to 3 |
| Checkout.InitialForm | app/checkout/page.jsx:14-32 | the form starts with country "United States", billing address "same" and an empty card number |
| Checkout.UpdateField | app/checkout/page.jsx:40-45 | the named field takes the value; every other field keeps its value and no other field appears |
| Checkout.Tax | app/checkout/page.jsx:69 | for a non-negative subtotal the tax lies between 0 and the subtotal |
| Checkout.OrderTotal | app/checkout/page.jsx:68-70 | the total is the subtotal times 1.08 plus 9.99, so at least 9.99 for a non-negative subtotal |
| Checkout.OrderTotalMonotone | app/checkout/page.jsx:70 | the total grows with the subtotal |
| Checkout.CartOrderTotalAtLeastShipping | app/checkout/page.jsx:68-70 | a cart with non-negative prices costs at least the shipping charge |
| Checkout.LastFour | app/checkout/page.jsx:343 | `slice(-4)`: the last `min(4, length)` characters of the card number |
| Checkout.MaskedCard | app/checkout/page.jsx:343 | the review line is "**** **** **** " followed by those characters |
| Checkout.CheckoutPage.constructor | app/checkout/page.jsx:11-32 | the page starts at step 1 with the initial form |
| Checkout.CheckoutPage.HandleInputChange | app/checkout/page.jsx:40-45 | only the named field changes; the step stays |
| Checkout.CheckoutPage.HandleNextStep | app/checkout/page.jsx:47-51 | the step advances by the step rule and stays in 1 to 3 |
| Checkout.CheckoutPage.HandlePrevStep | app/checkout/page.jsx:53-57 | the step goes back by the step rule and stays in 1 to 3 |
| Checkout.CheckoutPage.HandlePlaceOrder | app/checkout/page.jsx:59-60 | placing the order shows the success message |
| Checkout.CheckoutPage.OrderTimerElapsed | app/checkout/page.jsx:61-65 | when the timer fires the cart is empty, its record follows once hydrated, and the message is hidden |

## Left out

- JSON encoding and decoding of the `"cart"` record: the record is the datatype `Record`. A record that parses to something other than a list of line items (`null`, an object) is not modelled.
- A failed write to local storage (quota exceeded) is caught and logged by the code. The model treats every write as successful.
- React mechanics: effect scheduling beyond "right after the change that triggers it", render batching, Strict Mode double effects, context plumbing (`useCart`), and the `typeof window` checks.
- Floating-point money and its display (`toFixed`): prices, tax and totals are exact reals, so IEEE rounding is not modelled.
- Unicode `toLowerCase`: only ASCII letters are lower-cased.
- Quantities are integers. A fractional quantity passed to `updateQuantity` is not modelled.
- The product query is not modelled: its answer is the input `FetchResult`. The `loading` flag being set at the start of a fetch is also left out.
- Navigation (`router.push`): the redirect of an empty cart to the cart page and the return home after an order. The three-second delay before the cart is cleared becomes the separate method `OrderTimerElapsed`.
- Presentation state and markup: the filter panel toggle, the step indicator, the product cards.
- `CheckoutPage.HandlePlaceOrder` does not require step 3, although the Place Order button only appears there.
- Shop page handlers `GoToPreviousPage`, `GoToNextPage` and `GoToPage` require that the pager is shown. The buttons exist only then, so Next cannot reach page 0 when there are no pages.
- Pure presentation files (navigation bar, footer, product card, layout, account page, cart page) are not part of this model.
