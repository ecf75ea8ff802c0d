# Storefront cart and quantity selector, modelled in Dafny

This project models the behaviour of the storefront script `script.js` that
has state worth stating:

- the **cart store**: an ordered list of line items kept under one local
  storage key (`cart`), read whole by `getCartItems`, written whole by
  `saveCartItems` (which also refreshes every cart badge), appended to by
  `addToCart`, filtered by `removeFromCart`, re-mapped by
  `updateCartQuantity`, and emptied by the cart page's "remove all" button;
- the **item count** shown by the badges and by the cart page title, the sum
  of the quantities with a missing or zero quantity counted as 1;
- the **quantity selector** of the product page: "+" steps up while below
  the maximum, "-" steps down while above the minimum, and the change event
  pulls a typed value into `[min, max]`; unparsable or zero values fall back
  to 1, a missing `min` to 1 and a missing `max` to 999;
- the **add-to-cart button**: the size check that refuses the click, and the
  line item built from the page.

Files and modules:

| file | module | contents |
|---|---|---|
| wrappers.dfy | `Wrappers` | `Option` |
| js_coercion.dfy | `JsCoercion` | `parseInt(x) \|\| d` as `OrDefault` |
| cart.dfy | `Cart` | `CartItem`, the filter / map / reduce over the list, the badge, and their lemmas |
| cart_store.dfy | `CartStore` | class `Store`: the stored entry and the badges, with the store operations as methods |
| quantity_stepper.dfy | `QuantityStepper` | the step and clamp rules as functions, their lemmas, and class `QuantityInput` with the three handlers |
| product_page.dfy | `ProductPage` | the size gate, the product built from the page, and the add-to-cart click |

Modelling choices:

- A parse is modelled by what `parseInt` yields: `Some(n)`, or `None` for
  NaN. A NaN quantity is written to storage as `null`, which is `None` too.
  The quantity input's text is modelled the same way.
- Local storage is the field `Store.stored`: `None` while the key is absent,
  otherwise the decoded list. `Store.badge` is what every `.cart-badge`
  element shows. `Store.Valid()` says the badges agree with the stored list;
  every store method ends in that state.
- The id of a new line is a parameter of `AddToCart`, because the script
  builds it from the clock and a random suffix.
- `filter`, `map` and `reduce` are functions that recurse on the last
  element. That is the order in which these built-ins accumulate.
- The `min`/`max` attributes and the `confirm` answer are parameters.

Points where the script's behaviour is easy to misread:

- `getCartItems` yields `[]` for an absent key or an empty entry, because
  `cart ? JSON.parse(cart) : []` never parses a falsy string (script.js:98).
  Any other entry that is not valid JSON makes `JSON.parse` throw. It does
  not give an empty cart. The model represents only an absent entry and an
  entry holding a list.
- `removeFromCart` drops every line carrying the id, not just one
  (script.js:119).
- The badge is hidden whenever the count is not positive (script.js:141).
  With no negative quantity this is the same as "the count is 0". It is also
  the same as "the cart is empty" (`Cart.BadgeHiddenExactlyWhenEmpty`).
- `updateCartQuantity` stores `parseInt(quantity)` as it comes
  (script.js:128). It defaults nothing itself.

## Model

| member | source | states |
|---|---|---|
| `JsCoercion.OrDefault` | script.js:62-63 | `parseInt(x) \|\| d` yields the parsed integer when it is a non-zero number, and `d` for NaN or 0 |
| `JsCoercion.WrittenBackReadsSame` | script.js:82-88 | with a non-zero default the result is never 0, so a value written back into the input reads back unchanged |
| `Cart.AppendKeepsIdsDistinct` | script.js:109-113 | appending a line whose id no line carries keeps all ids distinct, and the new id is then present |
| `Cart.Removed` | script.js:119 | the filtered list is no longer than the cart and holds no line with the removed id |
| `Cart.KeptIndices` | script.js:119 | the kept positions are valid, strictly increasing, carry a different id, and include every position whose id differs |
| `Cart.RemovedKeepsOthersInOrder` | script.js:119 | line k of the filtered list is the cart's line at kept position k, so every other line is kept unchanged and in order |
| `Cart.RemoveAbsentIsIdentity` | script.js:117-122 | removal leaves the cart equal to itself if and only if no line carries the id (this covers the empty cart) |
| `Cart.RemoveIsIdempotent` | script.js:119 | removing the same id twice equals removing it once |
| `Cart.RemoveKeepsIdsDistinct` | script.js:119 | removal keeps distinct ids distinct |
| `Cart.WithQuantity` | script.js:126-131 | the mapped list has the same length; a matching line becomes the same line with only its quantity replaced; every other line is unchanged |
| `Cart.UpdateKeepsIds` | script.js:126-131 | the update keeps every id at its position and so keeps ids distinct |
| `Cart.UpdateAbsentIsIdentity` | script.js:126-131 | updating an id no line carries leaves the cart unchanged |
| `Cart.Counted` | script.js:138 | a line counts as its quantity, or as 1 when the quantity is missing, NaN or 0 |
| `Cart.TotalItems` | script.js:138 | the empty cart counts 0; TotalOfConcat and TotalAfterAppend give how the sum grows line by line |
| `Cart.TotalOfConcat` | script.js:138 | the item count of a concatenation is the sum of the two counts |
| `Cart.TotalAfterAppend` | script.js:113 | appending a line raises the count by that line's quantity, or by 1 when it is missing or 0 |
| `Cart.TotalAtLeastLength` | script.js:138 | with no negative quantity the count is at least the number of lines, and is 0 exactly for the empty cart |
| `Cart.TotalAfterRemove` | script.js:119 | with distinct ids, removing a line lowers the count by exactly that line's contribution |
| `Cart.TotalAfterUpdate` | script.js:126-138 | with distinct ids, setting a line's quantity changes the count by the new contribution minus the old one |
| `Cart.BadgeFor` | script.js:141-147 | the badge is visible exactly when the count is positive; it then shows the count, and otherwise shows 0 |
| `Cart.BadgeHiddenExactlyWhenEmpty` | script.js:138-147 | the badge shows the count, and with no negative quantity it is hidden exactly when the cart is empty |
| `Cart.CartTitleCount` | script.js:295-310 | the title's number is the badge's sum, including 0 for the empty cart |
| `CartStore.Store.Items` | script.js:96-99 | the cart is the stored list, or the empty list when the key is absent |
| `CartStore.Store.constructor` | script.js:151-156 | at page load the store holds what storage holds and the badges agree with it |
| `CartStore.Store.UpdateCartBadge` | script.js:136-149 | storage is untouched and the badges now agree with it |
| `CartStore.Store.SaveCartItems` | script.js:101-104 | storage now holds exactly the given list, and the badges agree with it |
| `CartStore.Store.AddToCart` | script.js:106-115 | the new cart is the old one plus the product with the supplied id at the end; the length grows by one, earlier lines are unchanged and in order, the count grows by the product's contribution, and a fresh id keeps ids distinct |
| `CartStore.Store.RemoveFromCart` | script.js:117-122 | the stored and returned list are both the filtered cart; an absent id leaves the cart unchanged; distinct ids stay distinct |
| `CartStore.Store.UpdateCartQuantity` | script.js:124-134 | the stored and returned list are both the mapped cart; an absent id leaves the cart unchanged; distinct ids stay distinct |
| `CartStore.Store.RemoveAll` | script.js:371-379 | once confirmed the stored list is empty and the badges agree; without confirmation nothing changes |
| `QuantityStepper.Current` | script.js:62 | the value a handler reads is the parse of the input's text, or 1 when that is NaN or 0 |
| `QuantityStepper.MinOf` | script.js:73 | the minimum is the parse of the `min` attribute, or 1 when that is NaN or 0 |
| `QuantityStepper.MaxOf` | script.js:63 | the maximum is the parse of the `max` attribute, or 999 when that is NaN or 0 |
| `QuantityStepper.Increased` | script.js:60-67 | below the maximum the new value is the current one plus 1, which is at most the maximum; otherwise the input is untouched |
| `QuantityStepper.Decreased` | script.js:70-77 | above the minimum the new value is the current one minus 1, which is at least the minimum; otherwise the input is untouched |
| `QuantityStepper.Changed` | script.js:80-91 | below the minimum the input becomes the minimum, above the maximum it becomes the maximum, and inside the range it is untouched |
| `QuantityStepper.IncreaseStaysAtOrBelowMax` | script.js:60-67 | "+" never lowers the value the next handler reads, and never carries a value at or below the maximum past it |
| `QuantityStepper.DecreaseStaysAtOrAboveMin` | script.js:70-77 | "-" never raises the value the next handler reads, and never carries a value at or above the minimum past it |
| `QuantityStepper.DecreaseUndoesIncrease` | script.js:60-77 | inside the range, "-" after "+" gives back the value read before |
| `QuantityStepper.IncreaseUndoesDecrease` | script.js:60-77 | inside the range, "+" after "-" gives back the value read before |
| `QuantityStepper.ChangeClampsIntoRange` | script.js:80-91 | for a non-empty range the value read after a change event lies in `[min, max]`, and a second change event changes nothing |
| `QuantityStepper.QuantityInput.constructor` | script.js:56 | the input starts with the given text and attributes |
| `QuantityStepper.QuantityInput.OnIncrease` | script.js:60-67 | the input's new value is `Increased` of the old one |
| `QuantityStepper.QuantityInput.OnDecrease` | script.js:70-77 | the input's new value is `Decreased` of the old one |
| `QuantityStepper.QuantityInput.OnChange` | script.js:80-91 | the input's new value is `Changed` of the old one |
| `ProductPage.HasNonEmptyOption` | script.js:170 | true exactly when some option value is non-empty |
| `ProductPage.ChosenSize` | script.js:165 | with a size select the size is its value; without one the size is empty |
| `ProductPage.SizeMissing` | script.js:168-182 | the click is refused exactly when a select exists with more than one option, some option value is non-empty, and the chosen size is empty |
| `ProductPage.TextOr` | script.js:185-188 | a page text is used when present and non-empty, otherwise the fallback |
| `ProductPage.ProductFromPage` | script.js:185-200 | name, price and seller fall back to non-empty defaults, the image to empty; size and quantity are those read; material and color are fixed |
| `ProductPage.QuantityRead` | script.js:166 | the quantity is the parse of the input's text, or 1 without an input |
| `ProductPage.OnAddToCartClick` | script.js:163-217 | the product is added exactly when the size gate lets it through; a refused click leaves storage and badges as they were; an accepted one appends the product built from the page with the supplied id |

## Left out

- DOM and event wiring: the mobile menu (script.js:1-51), product tabs (script.js:219-236), search affordances (script.js:238-278), and which handlers get registered. It is presentation only.
- The HTML that `renderCartItems` builds (script.js:282-383), the quantity options 1 to 20, and the success and error message texts and their timers. These are markup and timing. The count in the cart title is modelled.
- Prices, line totals, subtotal, and the total with its fixed 60.00 discount and 14.00 tax (script.js:313-315, 385-421). These are floating-point arithmetic over display strings.
- JSON encoding and decoding of the stored entry, and a stored entry that is not valid JSON. From such an entry `getCartItems` throws.
- An empty `cart` entry: `getCartItems` reads it as `[]`, but `Store.stored` cannot hold it. The model has only an absent entry (also read as `[]`) and an entry holding a list.
- Increased, Decreased, Changed, Counted, TotalItems: these use unbounded integers, while the script's numbers are doubles. Quantities, attributes and sums are assumed to stay where doubles are exact integers. Past 2^53 `currentValue + 1` and the sums are no longer exact, and a very long digit string parses as `Infinity`. From 1e21 on, `parseInt(item.quantity || 1)` re-parses the text "1e+21" and counts the line as 1, while `Counted` gives the quantity.
- Id generation from `Date.now()` and `Math.random()`. The id is a parameter, and a collision is possible in the source.
- Concurrent writers: two tabs writing the same key.
- `parseInt` on text: each parse is modelled by its result. Text such as "3.7" reads as 3. When a handler leaves the input untouched, the model keeps only that reading.
- CartStore.Store.AddToCart: does not model that the script also writes the id into the caller's product object. The only caller builds that object fresh and does not use it again.
- ProductPage.ProductFromPage: the product built before `addToCart` has no id field in the script. The model gives it the empty id, and `AddToCart` always overwrites that id.
