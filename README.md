# eBilling cart and catalog search, modelled in Dafny

The page script `script.js` of the eBilling storefront keeps a shopping cart in
the browser's persistent storage under the key `cart`, shows its subtotal and
item count, builds a receipt from it, and filters the product catalog as the
user types a search. This project models those parts and proves what they
promise.

- `wrappers.dfy` (`Wrappers`): the `Option` type, used for "not found" and for
  an absent storage key.
- `seqs.dfy` (`Seqs`): `Array.prototype.filter` as `Filter` and the notion of an
  order-preserving subsequence, with the filter's laws.
- `jsstring.dfy` (`JsString`): `String.prototype.trim` over the exact set of
  code points ECMAScript strips, `toLowerCase` on ASCII letters, and
  `String.prototype.includes`.
- `cart.dfy` (`Cart`): the cart line, the cart invariant (one line per id,
  every quantity at least one), the three cart rewrites `addToCart`,
  `updateQuantity` and `removeFromCart` as reference functions, the totals, and
  the lemmas about them.
- `catalog.dfy` (`Catalog`): the product record, the projection a product card
  hands to `addToCart`, and the live search.
- `store.dfy` (`Store`): the class `CartStore`, whose field `saved` is the value
  under the key `cart`; its methods read the whole cart, rewrite it and store it
  back, as the script does. It also holds the totals loop of `updateCartUI` and
  the receipt loop of `downloadReceipt`.

Prices and quantities are integers (amounts in minor units). Ids are
strings. The optional `_id` of a product is `Product.dbId`: `None` when the
field is absent. It is truthy when present and non-empty.

`getCart` turns an absent key, or stored text that parses to a falsy value,
into the empty cart; `saveCart` only ever stores an array. `JSON.parse`
throws on malformed stored text, which cannot arise here because the model
stores the cart as a value: the absent key is `saved == None`.

## Model

| member | source | states |
|---|---|---|
| `Store.CartStore.constructor` | script.js:6 | a fresh store has no `cart` key, so reading it gives the empty cart |
| `Store.CartStore.SaveCart` | script.js:10-13 | after saveCart the key is set and holds exactly the cart passed in, which getCart reads back |
| `Store.CartStore.AddToCart` | script.js:16-25 | the new stored cart is the add rewrite of the old one; the invariant is kept; the item count rises by one |
| `Store.CartStore.UpdateQuantity` | script.js:28-38 | the new stored cart is the quantity rewrite of the old one (when the new quantity is zero or below, every line with the id is filtered out); an absent id leaves the cart unchanged; the invariant is kept |
| `Store.CartStore.RemoveFromCart` | script.js:41-44 | the new stored cart is the old one filtered by id; no line with the id remains; the invariant is kept |
| `Store.CartStore.UpdateCartUI` | script.js:54-59 | the loop's subtotal is the sum of price times quantity and its count the sum of quantities; both are 0 for an empty cart; a well-formed cart has count 0 only when empty |
| `Store.CartStore.DownloadReceipt` | script.js:151-179 | an empty cart yields the alert and no receipt; otherwise one row per line in cart order (name, quantity, price, price times quantity) and a total equal to the cart subtotal and to the sum of the rows' amounts |
| `Store.ReceiptTotalIsRowSum` | script.js:163-179 | the receipt total equals the sum of its rows' amounts and the cart subtotal |
| `Store.PositiveCount` | script.js:57-59 | a non-empty well-formed cart has a positive item count |
| `Store.FilterChangedLine` | script.js:32-34 | filtering after the in-place quantity change gives the same cart as filtering the original cart |
| `Cart.FindLine` | script.js:18 | find by id: the index of the first line with the id; none exactly when no line has it |
| `Cart.AddExisting` | script.js:18-20 | when a line has the product's id, the first such line gains exactly one unit; the length and every other line are unchanged |
| `Cart.AddExistingWellFormed` | script.js:18-20 | in a well-formed cart, the line with the product's id gains one unit and nothing else changes |
| `Cart.AddNew` | script.js:21-22 | when no line has the product's id, one line with quantity 1 is appended; every earlier line is unchanged |
| `Cart.AddPreservesWellFormed` | script.js:16-25 | adding keeps one line per id and every quantity at least one |
| `Cart.AddCountsOne` | script.js:16-25 | adding raises the item count by exactly one, for every cart |
| `Cart.AddRaisesSubtotal` | script.js:18-22 | adding raises the subtotal by the existing line's stored price, or by the product's price for a new line |
| `Cart.AddTwiceMerges` | script.js:16-25 | adding a new product twice gives one line with quantity 2, not two lines |
| `Cart.TwoProductScenario` | script.js:16-25 | "a" at 100 added twice and "b" at 50 added once give lines a x2, b x1, subtotal 250 and count 3 |
| `Cart.UpdateAbsentIsNoOp` | script.js:30-31 | changing the quantity of an id that is not in the cart leaves the cart exactly as it was |
| `Cart.UpdateDropsLine` | script.js:32-35 | when old quantity plus change is at most 0, no line with the id remains and the other lines keep their order |
| `Cart.UpdateChangesLine` | script.js:32-35 | otherwise only that line changes, to old quantity plus change |
| `Cart.DecrementLastUnitRemoves` | script.js:32-35 | a decrement of a line holding one unit deletes exactly that line |
| `Cart.UpdatePreservesWellFormed` | script.js:28-38 | a quantity change keeps one line per id and every quantity at least one |
| `Cart.UpdateCount` | script.js:32-35 | in a well-formed cart the item count moves by the change, or down by the line's quantity when the line is dropped |
| `Cart.RemoveSpec` | script.js:42 | after removal no line has the id; the survivors are original lines in original order, with every copy of each other line |
| `Cart.RemoveIdempotent` | script.js:42 | removing twice equals removing once |
| `Cart.RemoveAbsentIsNoOp` | script.js:42 | removing an id that is not in the cart leaves it unchanged |
| `Cart.RemoveUnique` | script.js:42 | in a cart with unique ids, removing the id of line j deletes exactly line j |
| `Cart.RemovePreservesWellFormed` | script.js:42 | removing keeps one line per id and every quantity at least one |
| `Cart.FilterWellFormed` | script.js:34 | any filter of a well-formed cart is well-formed |
| `Cart.RemoveCount` | script.js:42 | in a well-formed cart, removing a present line lowers the count by exactly its quantity |
| `Cart.SumConcat` | script.js:57-59 | the accumulated totals of two carts joined add up |
| `Cart.SumUpdate` | script.js:57-59 | replacing one line changes an accumulated total by the difference between the two lines |
| `Seqs.Filter` | script.js:42 | filter keeps only elements of the input that pass the test, and never lengthens it |
| `Seqs.FilterIsSubsequence` | script.js:42 | filter keeps the input order |
| `Seqs.FilterMultiset` | script.js:42 | filter keeps every copy of each passing element and no copy of any other |
| `Seqs.FilterIdempotent` | script.js:42 | filtering twice by one test equals filtering once |
| `Catalog.FallbackIdKeysLine` | script.js:111 | a product without a truthy `_id` is keyed in the cart by its `id` field: the line with that id (the first, if any) gains one unit, otherwise a new line with that id is appended |
| `Catalog.CardAddsLine` | script.js:110-116 | adding a card's product to a cart without its key appends a line with the product's fields, its current price and quantity 1 |
| `Catalog.SameDbIdSharesLine` | script.js:111 | two products with the same truthy `_id` share one cart line, whatever their `id` fields |
| `JsString.TrimStart` | script.js:129 | trim's leading part: a suffix of the input that is empty or starts with a non-whitespace character |
| `JsString.TrimEnd` | script.js:129 | trim's trailing part: a prefix of the input that is empty or ends with a non-whitespace character |
| `JsString.TrimSpec` | script.js:129 | trim yields a slice of the input; everything outside it is whitespace; it neither starts nor ends with whitespace |
| `JsString.TrimEmptyIff` | script.js:129-131 | trim yields the empty string exactly for an all-whitespace input |
| `JsString.TrimIdempotent` | script.js:129 | trimming twice equals trimming once |
| `JsString.TrimIgnoresPadding` | script.js:129 | whitespace around a string does not change its trimmed value |
| `JsString.ToLower` | script.js:129 | lower-casing keeps the length and maps each character by ToLowerChar |
| `JsString.WhitespaceLower` | script.js:129 | lower-casing maps whitespace to whitespace and nothing else to whitespace |
| `JsString.ToLowerIdempotent` | script.js:140-142 | a lower-cased string has no upper-case letter, and lower-casing it again changes nothing |
| `JsString.TrimLowerCommute` | script.js:129 | trimming and lower-casing commute |
| `JsString.IncludesIffOccurs` | script.js:140-142 | includes holds exactly when the query occurs as a contiguous slice |
| `Catalog.NormalizeQueryEmptyIff` | script.js:129-131 | the trimmed, lower-cased query is empty exactly when the input is all whitespace |
| `Catalog.MatchesIffOccurs` | script.js:138-144 | a product matches exactly when the query occurs in its lower-cased name, description or category |
| `Catalog.LiveSearch` | script.js:128-146 | an empty or all-whitespace query shows the whole catalog; any other query gives an order-preserving subsequence of the catalog in which every product matches, and each product occurs as often as in the catalog when it matches and not at all otherwise |
| `Catalog.SearchNoMatch` | script.js:138-146 | a query that matches no product gives an empty result |
| `Catalog.SearchIgnoresQueryCase` | script.js:129 | the result does not depend on the case of the typed query |
| `Catalog.SearchIgnoresPadding` | script.js:129 | whitespace typed around the query does not change the result |

## Left out

- Serialising the cart to JSON and parsing it back: the stored value is the cart itself. So the exception `JSON.parse` throws on malformed stored text is not modelled.
- The call to `updateCartUI` that `saveCart` makes after storing. Its computation is `Store.CartStore.UpdateCartUI`, a separate read-only method.
- The DOM markup: the cart panel, the product cards, the receipt table elements and showing or hiding them, the badge and subtotal text.
- The inline `onclick` handlers as text. The product card's projection (script.js:110-116) reaches `addToCart` as `JSON.stringify` output inside a single-quoted attribute. The cart buttons' ids (script.js:69, 71, 77) reach `updateQuantity` and `removeFromCart` quoted inside a double-quoted attribute. A field containing a quote or a backslash breaks that text, and the click then does nothing or passes a different id. The model passes the projection and the ids as values.
- `Catalog.CardAddsLine`: holds for every product in the model, while in the page a product whose name, description, image or id contains `'` breaks the card's handler and adds no line (see the `onclick` line above).
- The catalog fetch from the remote server and its promise chain. The catalog is a parameter of `Catalog.LiveSearch`.
- The event-listener wiring on the search box.
- PDF generation with `html2pdf`, the `await`, and the alert and console paths of its try/catch. This is a foreign library and asynchronous UI.
- The receipt date and its `bn-BD` locale formatting, which need a clock and a locale service.
- `toFixed(2)` currency formatting.
- Floating-point prices: prices are integers, with no rounding.
- `JsString.ToLowerChar`, `JsString.ToLower`: lower-case ASCII letters only, because the Unicode case mapping tables of `toLowerCase` are not modelled; so `ToLower` keeps the length, which `toLowerCase` does not for every character (U+0130 becomes two code units).
- Catalog records whose name, description or category is not a string: the script throws during the search and renders nothing; the model types every field as a string, so `Catalog.LiveSearch` is total.
- `JsString.Trim`: works on Unicode code points, not UTF-16 code units. Every character that trim strips lies in the Basic Multilingual Plane, so the two views agree.
- Ids of type number in the catalog. Ids are strings, so the strict comparison `===` between a stored numeric id and a string id passed from the cart's buttons is not modelled.
- Races between several browser tabs writing the same storage key, because the script assumes a single writer.
