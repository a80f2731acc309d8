# Belivers Fashion Brand storefront: cart and routing model

A Dafny model of the two pieces of logic in the storefront:

- the browser-side shopping cart (`Cart` in public/js/main.js). The cart is an
  ordered list of lines. Each line holds a product id, name, unit price, size,
  quantity and image. The cart supports add-or-merge, remove, set-quantity,
  clear, total and count, and it copies the whole list into a browser storage
  slot after every change. The model also covers the category filter the
  store page applies to the catalog.
- the server's routing decision (server.js). `/api/products` answers with the
  parsed products file or a 500 error. `/` serves the home page. A single path
  segment is lower-cased and checked against an allow-list of pages; anything
  else is not found.

Modules:

- `Lists` (lists.dfy): `Option`, `Filter` (JavaScript's `Array.filter`) and
  `Sum` (a summing `reduce`, folded from the left), with their lemmas.
- `Catalog` (catalog.dfy): `Product` and the category filter.
- `ShoppingCart` (cart.dfy): `Line`; the specification functions `FindLine`,
  `AddTo`, `Remove`, `SetQuantity`, `Total` and `Count`; the lemmas about them;
  class `Store`, the storage slot; class `Cart`, whose methods update `items`
  in place and write the slot. Each `Cart` method is proved against the
  matching specification function. It also keeps the invariant "at most one
  line per (id, size)".
- `Server` (server.js model, server.dfy): `ProductsReply`, `PageReply`,
  `MatchRoute` and `Handle`, all pure functions, with lemmas.

`updateQuantity` writes storage only when a line matches the key: a call for a
key not in the cart changes neither the lines nor the stored copy. A quantity
of zero or less removes the line, and the storage is then written twice with
the same lines. The model follows this code.

Prices and quantities are integers; a price is a whole amount of Naira.
Browser storage is the `Store` object's `slot`: `None` when the key was never
written, `Some(lines)` after a save. JSON serialisation is taken to round-trip
the lines exactly.

## Model

| member | source | states |
|---|---|---|
| Lists.Filter | public/js/main.js:37-39 | every kept element comes from the input and passes the test; every input element that passes the test is kept |
| Lists.FilterConcat | public/js/main.js:37-39 | filtering a concatenation is the concatenation of the filtered parts, so relative order is preserved |
| Lists.FilterKeepsAll | public/js/main.js:37-39 | filtering returns the list unchanged exactly when every element passes |
| Lists.FilterCount | public/js/main.js:37-39 | a passing value keeps all its copies; a failing value keeps none |
| Lists.FilterDropsOne | public/js/main.js:37-39 | when exactly one element fails the test, filtering deletes just that element and keeps the rest in order |
| Lists.SumConcat | public/js/main.js:60-66 | the reduce-sum of a concatenation is the sum of the parts' sums |
| Lists.SumUpdate | public/js/main.js:60-66 | replacing one element changes the sum by exactly the difference of their shares |
| Lists.SumDelete | public/js/main.js:60-66 | deleting one element lowers the sum by exactly its share |
| Lists.SumAtLeast | public/js/main.js:60-66 | when every share is at least `low`, the reduce-sum is at least `low` times the number of elements |
| Lists.SumBounds | public/js/main.js:60-66 | non-negative shares give a non-negative sum; shares of at least 1 give a sum of at least the number of elements |
| Lists.SumCons | public/js/main.js:60-66 | the left fold `reduce` performs can also be split at the front: the first share plus the sum of the rest |
| Catalog.FilterByCategory | public/js/main.js:347 | category "all" gives the catalog unchanged; any other category gives exactly the products whose category equals it |
| Catalog.FilterByCategoryKeepsOrder | public/js/main.js:347 | the category filter preserves catalog order across any split of the catalog |
| Catalog.FilterByCategoryCount | public/js/main.js:347 | a product of the chosen category (or any product under "all") appears as often as in the catalog; others do not appear |
| ShoppingCart.Total | public/js/main.js:60-62 | an empty cart totals 0; lines with non-negative prices and quantities total at least 0 |
| ShoppingCart.Count | public/js/main.js:64-66 | an empty cart counts 0; non-negative quantities count at least 0; quantities of at least 1 count at least the number of lines |
| ShoppingCart.FindLine | public/js/main.js:16-18 | the result is the first line matching (id, size); None exactly when no line matches |
| ShoppingCart.FindLineAt | public/js/main.js:16-18 | a matching line with no earlier match is the one found |
| ShoppingCart.FindLineUnique | public/js/main.js:45-47 | under the invariant, the line found is the only matching one |
| ShoppingCart.AddTo | public/js/main.js:15-31 | on a match, only that line changes and its quantity grows by exactly `quantity`; otherwise one line with the product's id, name, price, image and the given size and quantity is appended after the unchanged earlier lines |
| ShoppingCart.AddToKeepsKeysUnique | public/js/main.js:16-31 | adding keeps at most one line per (id, size) |
| ShoppingCart.AddToCount | public/js/main.js:15-31 | adding raises the count by exactly `quantity` |
| ShoppingCart.AddToTotal | public/js/main.js:15-31 | adding raises the total by `quantity` times the unit price of the receiving line (the stored snapshot when merging) |
| ShoppingCart.AddToAccumulates | public/js/main.js:15-31 | two adds of one (id, size) equal a single add of the summed quantity |
| ShoppingCart.AddToAdmitsNonPositive | public/js/main.js:15-31 | `addItem` does not keep quantities at 1 or more: adding 0 to an empty cart creates a line of quantity 0, and adding 2 then -5 leaves one line of quantity -3 |
| ShoppingCart.Remove | public/js/main.js:36-39 | every remaining line is an input line without the key; every input line without the key remains |
| ShoppingCart.RemoveKeepsOrder | public/js/main.js:36-39 | removal preserves the relative order of the remaining lines |
| ShoppingCart.RemoveAbsent | public/js/main.js:36-39 | removing a key no line carries leaves the list unchanged |
| ShoppingCart.RemoveFound | public/js/main.js:36-39 | under the invariant, removal deletes exactly the matching line, the rest in order |
| ShoppingCart.RemoveFoundSums | public/js/main.js:36-39 | under the invariant, removal lowers count and total by exactly the removed line's share |
| ShoppingCart.DeleteKeepsKeysUnique | public/js/main.js:36-39 | deleting one line from a cart with unique keys leaves the keys unique |
| ShoppingCart.RemoveKeepsKeysUnique | public/js/main.js:36-39 | removal keeps at most one line per (id, size) |
| ShoppingCart.SetQuantity | public/js/main.js:44-58 | no match leaves the list unchanged; a positive quantity replaces the matching line's quantity and changes nothing else |
| ShoppingCart.SetQuantityNonPositive | public/js/main.js:50-51 | a quantity of zero or less gives exactly the result of removing the key |
| ShoppingCart.SetQuantityCount | public/js/main.js:52-53 | a positive quantity moves the count by the difference between new and old quantity |
| ShoppingCart.SetQuantityTotal | public/js/main.js:52-53 | a positive quantity moves the total by that difference times the line's unit price |
| ShoppingCart.SetQuantityKeepsKeysUnique | public/js/main.js:44-58 | setting a quantity keeps at most one line per (id, size) |
| ShoppingCart.ScenarioAddMergeClear | public/js/main.js:15-66 | adding 2 of product 1 at 5000 in "M" gives one line and total 10000; adding 1 more gives quantity 3 and total 15000; quantity 0 empties the cart with total 0 |
| ShoppingCart.Load | public/js/main.js:6-9 | an empty slot loads no lines; a slot holding saved lines loads exactly those lines |
| ShoppingCart.Store.constructor | public/js/main.js:7 | the storage slot starts with the given contents |
| ShoppingCart.Cart.constructor | public/js/main.js:2-9 | a new cart holds the stored lines, or no lines when the slot is empty |
| ShoppingCart.Cart.SaveCart | public/js/main.js:11-13 | the slot then holds exactly the in-memory lines |
| ShoppingCart.Cart.AddItem | public/js/main.js:15-34 | the lines become `AddTo` of the old lines; the slot holds them; the count grows by `quantity`; the invariant is kept |
| ShoppingCart.Cart.RemoveItem | public/js/main.js:36-42 | the lines become `Remove` of the old lines; the slot holds them; the invariant is kept; under the invariant, a matching line is the one line deleted, the rest stay in order, and count and total drop by exactly its share |
| ShoppingCart.Cart.UpdateQuantity | public/js/main.js:44-58 | the lines become `SetQuantity` of the old lines; the slot is written only when a line matched; the invariant is kept; on a match a positive quantity moves the count by new minus old quantity, and under the invariant a quantity of 0 or less deletes just the matching line |
| ShoppingCart.Cart.GetTotal | public/js/main.js:60-62 | the cart total: 0 for an empty cart, at least 0 when every price and quantity is non-negative |
| ShoppingCart.Cart.GetCount | public/js/main.js:64-66 | the item count: 0 for an empty cart, at least the number of lines when every quantity is at least 1 |
| ShoppingCart.Cart.Clear | public/js/main.js:75-79 | the cart and the slot are empty, and total and count are 0 |
| ShoppingCart.Reload | public/js/main.js:2-13 | a cart built over a just-saved slot holds the same lines in the same order |
| Server.ProductsReply | server.js:25-41 | a missing file gives 500 with error "Products file not found"; a read or parse failure gives 500 with "Failed to load products"; status 200 exactly when the file reads and parses, with the parsed value as the body |
| Server.PageReply | server.js:53-62 | status 200 exactly when the lower-cased segment is about, store, cart or contact, serving that page's .html; otherwise 404 with views/404.html |
| Server.Lower | server.js:54 | keeps the length, turns each upper-case ASCII letter into its lower-case form, and leaves every other character in place |
| Server.MatchRoute | server.js:25-62 | the home route exactly for "/"; the products route only for "/" followed by something that lower-cases to "api/products", with at most one trailing slash; the page route only for a single non-empty segment without "/", with at most one trailing slash |
| Server.Handle | server.js:25-62 | a JSON reply exactly on the products route; Express's own 404 (echoing the path) exactly when no route matches; status 200 with a file only for "/" or an allow-listed page; any other file reply is 404 with views/404.html |
| Server.HandleHome | server.js:47-50 | `/` serves views/index.html |
| Server.HandleSegment | server.js:53-62 | a single-segment path, with or without a trailing slash, is answered by the page handler |
| Server.HandleProducts | server.js:25-41 | exactly the paths that lower-case to "/api/products" or "/api/products/" reach the products handler, and they get its reply |
| Server.ProductsPathsRoute | server.js:25 | every letter-case spelling of "/api/products", with or without a trailing slash, takes the products route |
| Server.ProductsRouteLowersTo | server.js:25 | a path on the products route lower-cases to "/api/products" or "/api/products/" |
| Server.LowerConcat | server.js:54 | lower-casing commutes with concatenation |
| Server.LowerSlashed | server.js:54 | lower-casing leaves the slashes around a segment in place |
| Server.RestCaseInsensitive | server.js:25-62 | when two paths are equal up to ASCII case and one starts with "/", so does the other, and their parts after it (one trailing slash dropped) have the same length, lower-case alike and agree on containing "/" |
| Server.PageReplyUpperCase | server.js:53-58 | the page segment "ABOUT" is served views/about.html |
| Server.SlashInCaseInsensitive | server.js:53 | strings equal up to ASCII case agree on containing "/" |
| Server.DropTrailingSlashCaseInsensitive | server.js:25-62 | dropping one trailing slash keeps two strings equal up to ASCII case and of equal length |
| Server.HandleUnknownPage | server.js:61 | a single segment outside the allow-list gives 404 with views/404.html |
| Server.MatchRouteCaseInsensitive | server.js:54 | paths equal up to ASCII case take the same route, with page segments equal up to case |
| Server.HandleCaseInsensitive | server.js:54-61 | paths equal up to ASCII case get the same reply, except Express's own 404, which echoes the path |

## Left out

- `updateCartCount` (public/js/main.js:68-73) writes the count into a page element. The DOM is not modelled; `Cart.GetCount` gives the value it would show.
- Rendering (`renderProducts`, `openProductModal`, `renderCartItems`, `showAlert`), `formatPrice` (`Intl.NumberFormat`) and `debounce` are left out. They are DOM templating, a locale formatter and timers.
- `loadProducts` and `addToCartFromModal` are left out. They use `fetch` and promises.
- `checkoutViaWhatsApp` is left out. It builds its message through `formatPrice`, `encodeURIComponent` and `window.open`, which are foreign calls. It warns and returns early on an empty cart.
- `localStorage.setItem` can throw (storage full or disabled); the model's save never fails, although in the source `items` has already changed when the throw happens.
- The cart does not keep quantities at 1 or more: `addItem` adds whatever quantity it gets (public/js/main.js:21, 28), and the modal passes `parseInt` of the quantity field unchecked (public/js/main.js:222). Only `updateQuantity` removes a line whose new quantity is 0 or less. `ShoppingCart.AddToAdmitsNonPositive` shows a line of quantity 0 and one of quantity -3.
- Prices and quantities are integers. JavaScript numbers are floats, and `parseInt` may produce `NaN` from the quantity field; neither is modelled.
- `JSON.stringify`/`JSON.parse` of the cart are taken as exact. Malformed stored data and a stored empty string are not modelled; `Load` reads `None` as "no cart".
- ShoppingCart.Cart.Valid: a cart loaded from storage is not validated by the source, so the invariant is stated as preserved (`old(Valid()) ==> Valid()`), not as always true.
- Server.Lower: models `toLowerCase` on ASCII letters only; the case mapping of other Unicode letters is not modelled.
- Express plumbing is left out: the static middleware (server.js:13, 19) that answers matching files before any route, `express.json`, `sendFile`, port binding and logging. `Handle` is the reply for paths the static middleware does not serve. Only GET is modelled, and percent-decoding of the `:page` parameter and query strings are not.
- The repository's second server definition (different allow-list, case-sensitive) is not part of this model; only server.js is.
- The file system and `JSON.parse` on the server are parameters: `ProductsFile` says whether the file is absent, unreadable or present with some text, and `parse` returns None where `JSON.parse` throws.
