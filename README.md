# Storefront cart and checkout, modelled in Dafny

This project models the client-side cart and checkout logic of a furniture
storefront built as three Next.js pages:

- the **catalogue** (`src/app/allproducts/page.tsx`): a conjunctive
  category / type / maximum-price filter on products, a "show more / show
  less" window over the fetched list that grows by 12 and resets to 12, and
  add-to-cart, which appends (never merges) and writes the whole cart to the
  browser's `"cart"` storage slot;
- the **cart page** (`src/app/cart/page.tsx`): on load, an absent or zero
  quantity becomes 1 (in memory only); remove-by-slug drops every entry with
  that slug after confirmation; "+" and "-" change every entry with the slug,
  "-" clamped at 1; the subtotal `(price || 0) * (quantity || 1)` summed, and
  the total with a fixed 200 shipping cost;
- the **checkout page** (`src/app/checkout/page.tsx`): the subtotal
  `price * quantity` with no default, the fixed 200 shipping fee, the promo
  code `"DISCOUNT10"` (a snapshot of 90% of the subtotal), the required
  billing fields (name, phone, address, city, zip code; not email), the order
  record, and the submission that clears the cart on success and keeps it on
  failure.

Each page is a class holding that page's own state (`CatalogueView`,
`CartView`, `CheckoutView`). The pages share one `Storage` object, which
stands for the `"cart"` slot. Its value is `None` when the key is absent.
Each state change is a method whose `ensures` gives the new state through a
pure function: `Query`, `Visible`, `NextCount`, `Normalise`, `WithoutSlug`,
`WithQuantityChanged`, `Discount` and `BuildOrder`. Lemmas prove what those
functions promise. JavaScript numbers that can become NaN are modelled by
`Num = Finite(real) | NaN`. Prices are `real`, so the model has no
floating-point rounding.

Files: `shop.dfy` holds the shared record, storage slot, `filter`/`map`
and NaN arithmetic. `catalogue.dfy`, `cart.dfy` and `checkout.dfy` hold one
page each. `flows.dfy` states how the pages disagree about the same stored
cart.

Three behaviours of the code are easy to misread; the model keeps them as written:

- A quantity change affects every entry with the slug, not only the first.
- Any code other than `"DISCOUNT10"`, the empty string included, clears the
  discount.
- The grand total is the recorded discounted total plus shipping. It is not
  the subtotal plus shipping minus a discount recomputed at submission.

## Model

| member | source | states |
|---|---|---|
| Shop.Storage.constructor | src/app/cart/page.tsx:26 | the browser's `"cart"` slot, shared by the three pages; `None` when the key is absent |
| Catalogue.Matches | src/app/allproducts/page.tsx:55-58 | the query condition: with no category, type or price selected every product matches; a matching product has the selected category and the selected type, and is never above a selected maximum price |
| Catalogue.EachSelectionFilters | src/app/allproducts/page.tsx:56-58 | a selected category admits exactly the products of that category, a selected type exactly those of that type, and a maximum price exactly those priced at or below it; with `MatchesIsConjunction` this is the whole filter |
| Catalogue.MatchesIsConjunction | src/app/allproducts/page.tsx:55-58 | a product passes the filter iff it passes each of the category, type and max-price filters separately; an empty selection imposes nothing |
| Catalogue.Query | src/app/allproducts/page.tsx:55-63 | the fetched products are exactly the documents that satisfy every selection made, and no more of them than there are documents; their order and multiplicity are stated by `QueryKeepsOrder` |
| Catalogue.QueryKeepsOrder | src/app/allproducts/page.tsx:55-63 | the answer is built document by document and distributes over concatenation: each matching document appears once, in document order, and no duplicates are introduced |
| Catalogue.QueryWithoutSelectionListsAll | src/app/allproducts/page.tsx:55-58 | with no category, type or price selected, every product document is listed, in order |
| Catalogue.Visible | src/app/allproducts/page.tsx:285 | the products shown are a prefix of the fetched list, `min(visibleCount, data.length)` long (JavaScript `slice` semantics for a negative end) |
| Catalogue.NextCount | src/app/allproducts/page.tsx:87-93 | the toggle adds exactly 12 while products are hidden and resets to exactly 12 once all are shown, so the count stays a positive multiple of 12 |
| Catalogue.ShowMoreRevealsNextPage | src/app/allproducts/page.tsx:87-93 | "show more" keeps the products already shown and appends the next (up to 12) of the fetched list |
| Catalogue.ShowLessReturnsToFirstPage | src/app/allproducts/page.tsx:88-89 | once every product is shown, pressing the toggle shows only the first 12 again |
| Catalogue.ToggleLabel | src/app/allproducts/page.tsx:319 | the label is "Show Less" exactly when every fetched product is shown, and "Show More" otherwise |
| Catalogue.LabelDescribesToggle | src/app/allproducts/page.tsx:319 | the label reads "Show Less" iff pressing resets the count to 12, and "Show More" iff pressing shows more products |
| Catalogue.TogglesKeepWholePages | src/app/allproducts/page.tsx:44-45 | from the initial 12, any sequence of toggles, with the fetched total changing in between, leaves a positive multiple of 12 |
| Catalogue.CatalogueView.constructor | src/app/allproducts/page.tsx:38-49 | the page starts with no products, loading, 12 visible and an empty cart |
| Catalogue.CatalogueView.LoadCart | src/app/allproducts/page.tsx:79-84 | a stored cart replaces the in-memory cart; with no stored cart it stays as it was |
| Catalogue.CatalogueView.Fetch | src/app/allproducts/page.tsx:52-76 | a successful fetch sets the products to the query's answer, a failed one keeps them; loading ends either way; the visible count is untouched |
| Catalogue.CatalogueView.ToggleView | src/app/allproducts/page.tsx:87-93 | the new count is `NextCount` of the old one, stays a positive multiple of 12, and `min(count, data.length)` products are shown |
| Catalogue.CatalogueView.AddToCart | src/app/allproducts/page.tsx:96-102 | the cart becomes the old cart plus the product at the end, one longer with earlier entries unchanged, and the storage slot holds exactly that cart |
| CartPage.OrOne | src/app/cart/page.tsx:78 | the quantity-or-1 default is never 0, keeps any present non-zero quantity, and is exactly 1 for an absent or zero one |
| CartPage.NormaliseItem | src/app/cart/page.tsx:29-32 | one loaded item gets a present non-zero quantity; every other field is kept, a present non-zero quantity too, and an absent or zero quantity becomes exactly 1 |
| CartPage.Normalise | src/app/cart/page.tsx:29-32 | loading keeps length, order and every field but quantity; an absent or zero quantity becomes 1, any other is kept |
| CartPage.NormaliseIdempotent | src/app/cart/page.tsx:29-32 | normalising an already normalised cart changes nothing |
| CartPage.WithoutSlug | src/app/cart/page.tsx:47 | after removal no entry has the slug, and every entry with another slug remains |
| CartPage.WithoutSlugKeepsOrder | src/app/cart/page.tsx:47 | removal works entry by entry and distributes over concatenation, so survivors keep their original order |
| CartPage.WithoutSlugCount | src/app/cart/page.tsx:47 | removal drops exactly the entries with the slug (every duplicate, not one), and is a no-op when none has it |
| CartPage.RemoveDropsAmount | src/app/cart/page.tsx:47 | a confirmed removal lowers the subtotal by exactly the amounts of the entries with the slug |
| CartPage.Bumped | src/app/cart/page.tsx:65-67 | "+" adds 1; "-" subtracts 1 exactly when the quantity is above 1, and otherwise gives exactly 1 |
| CartPage.WithQuantityChanged | src/app/cart/page.tsx:60-70 | a quantity change keeps length and order, leaves entries with another slug untouched, and bumps every entry with the slug |
| CartPage.DecreaseClampsAtOne | src/app/cart/page.tsx:67 | "-" leaves every matching quantity at least 1, and is a no-op when they are all 1 |
| CartPage.DecreaseUndoesIncrease | src/app/cart/page.tsx:65-67 | on quantities of at least 1, "-" after "+" restores the cart |
| CartPage.LineAmount | src/app/cart/page.tsx:78 | an entry's amount is its price times its quantity when that is present and non-zero, and its price alone when the quantity is absent or zero |
| CartPage.Subtotal | src/app/cart/page.tsx:76-81 | the `reduce` as a left fold from 0 over the line amounts; what it means is stated by `SubtotalAppend`, `SubtotalCons`, `NormaliseKeepsSubtotal`, `RemoveDropsAmount` and `IncreaseAddsPrices` |
| CartPage.SubtotalAppend | src/app/cart/page.tsx:76-81 | the subtotal of a concatenation is the sum of the subtotals |
| CartPage.SubtotalCons | src/app/cart/page.tsx:76-81 | the subtotal is the first entry's price times its quantity-or-1 plus the subtotal of the rest |
| CartPage.NormaliseKeepsSubtotal | src/app/cart/page.tsx:76-81 | normalising on load does not change the subtotal |
| CartPage.IncreaseAddsPrice | src/app/cart/page.tsx:65-66 | "+" on one entry whose quantity is at least 1 raises its amount by exactly its price |
| CartPage.IncreaseAddsPrices | src/app/cart/page.tsx:59-81 | with quantities at least 1, "+" raises the subtotal by the price of every entry with the slug |
| CartPage.TotalPrice | src/app/cart/page.tsx:83-85 | the total exceeds the subtotal by the 200 shipping cost |
| CartPage.CartView.constructor | src/app/cart/page.tsx:22 | the page starts with an empty cart |
| CartPage.CartView.Load | src/app/cart/page.tsx:25-35 | a stored cart is normalised into memory and not written back; with none, the cart is kept |
| CartPage.CartView.Remove | src/app/cart/page.tsx:37-57 | when confirmed, the cart loses every entry with the slug and the slot holds the new cart; when not, cart and slot are unchanged |
| CartPage.CartView.ChangeQuantity | src/app/cart/page.tsx:59-74 | the cart becomes `WithQuantityChanged` of the old cart and the slot holds exactly the new cart |
| Checkout.LineAmount | src/app/checkout/page.tsx:48 | an entry's amount is a number iff its quantity is present |
| Checkout.SubTotal | src/app/checkout/page.tsx:47-49 | the `reduce` as a left fold from 0 over `price * quantity` with NaN propagation; what it means is stated by `SubTotalFiniteIffQuantities`, `SubTotalAppend` and `Flows.CheckoutAgreesOnNormalisedCart` |
| Checkout.SubTotalFiniteIffQuantities | src/app/checkout/page.tsx:47-49 | the checkout subtotal is a number iff every entry has a quantity; one entry without one makes it NaN |
| Checkout.SubTotalAppend | src/app/checkout/page.tsx:47-49 | the subtotal of a concatenation is the sum of the subtotals |
| Checkout.Total | src/app/checkout/page.tsx:51-53 | the total is the subtotal plus the fixed 200 fee, NaN when the subtotal is |
| Checkout.Discount | src/app/checkout/page.tsx:125-134 | a discount is recorded iff the code is exactly "DISCOUNT10", and then it is 90% of the subtotal; any other code records none |
| Checkout.GrandTotal | src/app/checkout/page.tsx:94-97 | with a recorded discount the grand total is that discount plus 200, otherwise the plain total |
| Checkout.PromoTakesTenPercent | src/app/checkout/page.tsx:125-128 | with the promo applied to the current cart, the grand total is 90% of the subtotal plus 200, i.e. 10% of the subtotal below the total |
| Checkout.DiscountIsSnapshot | src/app/checkout/page.tsx:127-128 | a recorded discount does not follow the cart: any cart gets the same grand total from it, whether or not the subtotal it was taken from is a number |
| Checkout.MissingRequired | src/app/checkout/page.tsx:56 | the early-return guard: some one of name, phone, address, city and zip code is empty; its meaning is stated by `RequiredFields` |
| Checkout.RequiredFields | src/app/checkout/page.tsx:56 | emptying the email never changes whether the order is blocked; emptying any one of name, phone, address, city or zip code blocks it whatever the other fields hold; with all five filled the order goes through, with or without an email |
| Checkout.ImageUrl | src/app/checkout/page.tsx:81 | a line's image is the asset URL when that is present and non-empty, and the plain image URL otherwise |
| Checkout.ToLine | src/app/checkout/page.tsx:76-82 | an order line carries the entry's name, price and quantity unchanged, with the image chosen by `ImageUrl` |
| Checkout.BuildOrder | src/app/checkout/page.tsx:76-100 | the order carries the billing fields, one line per cart entry in cart order, that entry's `ToLine` (its name, price, quantity and chosen image), the undiscounted subtotal as total amount, fee 200, the grand total, and a null promo code exactly when the code is empty |
| Checkout.CheckoutView.constructor | src/app/checkout/page.tsx:27-37 | the page starts with an empty cart, empty form and code, no discount, not loading and no order placed |
| Checkout.CheckoutView.Load | src/app/checkout/page.tsx:40-45 | a stored cart is taken into memory as it is, quantities not normalised |
| Checkout.CheckoutView.EditPromoCode | src/app/checkout/page.tsx:182 | typing a code changes only the code field, so a recorded discount survives it |
| Checkout.CheckoutView.EditBilling | src/app/checkout/page.tsx:219-254 | typing in the form changes only the billing fields |
| Checkout.CheckoutView.ApplyPromoCode | src/app/checkout/page.tsx:125-134 | the recorded discount becomes `Discount` of the current code and subtotal |
| Checkout.CheckoutView.PlaceOrder | src/app/checkout/page.tsx:55-123 | a missing required field returns early with nothing sent and nothing changed; otherwise the order built from the current state is sent; on success the slot is removed, the cart emptied and the order marked placed; on failure cart, slot and placed flag are kept; loading ends false |
| Flows.CheckoutAgreesOnNormalisedCart | src/app/checkout/page.tsx:47-49 | on a cart the cart page has normalised, the checkout subtotal is a number equal to the cart page's subtotal |
| Flows.TotalsAgreeOnNormalisedCart | src/app/checkout/page.tsx:51-53 | on a cart the cart page has normalised, the checkout total equals the cart page's total (both add 200) |
| Flows.AddedProductPricedDifferently | src/app/allproducts/page.tsx:96-102 | a product appended by add-to-cart (no quantity) adds its price to the cart page's subtotal but makes the checkout subtotal NaN |
| Flows.ZeroQuantityPricedDifferently | src/app/cart/page.tsx:78 | a stored quantity 0 counts as 1 on the cart page and as 0 at checkout |
| Flows.AddThenCheckout | src/app/cart/page.tsx:25-35 | add in the catalogue, visit the cart page without touching quantities, go to checkout: the cart page shows the price, checkout computes NaN |
| Flows.AddAdjustThenCheckout | src/app/cart/page.tsx:59-74 | the same path with "+" then "-" pressed: the quantity is written back and checkout agrees with the cart page |
| Flows.FilledFormPlacesOrder | src/app/checkout/page.tsx:55-123 | checking out a stored cart with the five required fields filled and no email sends exactly the order `BuildOrder` makes for that customer and cart, with no discount and no promo code, and on acceptance empties the cart, removes the slot and marks the order placed |
| Flows.WorkedTotals | src/app/checkout/page.tsx:47-53 | entries (100 x 2) and (50 x 1) give subtotal 250, total 450, and 425 with "DISCOUNT10" |

## Left out

- Rendering is not modelled: JSX, styling, images, links, the mobile filter toggle, the loading spinner and the "No products found" message.
- SweetAlert dialogs and notifications are not modelled. The remove confirmation is the boolean `confirmed`.
- The category list fetch is not modelled, because it only fills the category drop-down.
- The GROQ query text is not modelled, and neither is the string interpolation of the selections into it. The filter is the predicate `Matches`. The price drop-down's string value is taken as an optional number.
- Catalogue.Query: the backend is modelled as a list of product documents answered in that list's order; the real service's ordering and failures beyond "not fetched" are outside the model.
- The backend `createOrder` call is reduced to its outcome `accepted`. `Date.now()` and `new Date().toISOString()` are clock reads: the order date is a parameter.
- Each order line's `_key` is omitted, because it depends on the clock.
- Checkout.CheckoutView.PlaceOrder: the submission runs as one step; the time during which `loading` is true while `createOrder` is pending, and the button disabled by `loading || orderPlaced`, are not modelled.
- `JSON.stringify`/`JSON.parse` are not modelled: the storage slot holds the list itself. A NaN would serialise as `null`, which the model does not capture.
- `price || 0` is not modelled: a price is always a number here, so a missing or NaN price is not covered (a zero price is modelled as it is).
- CartPage.Bumped: an absent quantity stays absent (it would be NaN); the cart page never holds one after loading, as `CartView.Valid` states.
- IEEE floating point is not modelled: `* 0.9` is exact on reals, and `toFixed(2)` display formatting is left out.
- Two tabs writing the same storage slot can lose updates. This is concurrency, not sequential logic, and is not modelled.
- `src/app/page.tsx` repeats the catalogue's load effect and is not part of this model.
- `src/app/about/page.tsx` is static content and is not part of this model.
- `src/app/products/[slug]/page.tsx` has its own append-only add-to-cart and is not part of this model.
