# Storefront cart and product card, modelled in Dafny

This project models the display logic of two React components of a small storefront built on a
commerce platform's client SDK:

- `ShoppingCartButton` (with its row component `ShoppingCartItem`), the cart button and flyout
  panel. It sums the line-item quantities into a badge that saturates at "9+", chooses "item" or
  "items", decides which panel sections show (item list, spinner, error text, empty state), and
  derives for each line item its product slug and link, its description line, whether the
  original price is struck through, and which quantity buttons are disabled.
- `Product`, the product listing card. It builds the badge row (ribbon, discount, price), the
  link to the product page and the description, and computes the price text with
  `getFormattedPrice`.

Both components are pure functions of their inputs, so the model is made of datatypes and
functions. The subtle part is JavaScript's handling of absent values, which the module
`JsValues` pins down:
- `||` treats `undefined`, `0` and `""` alike as absent;
- a template literal writes `undefined` as the text "undefined";
- JSX writes `undefined` as nothing;
- `Array.prototype.join` writes an `undefined` element as the empty string.

Every optional field of the platform's records is an `Option`, and optional chaining is a
`match` through them.

The range branch of `getFormattedPrice` is guarded by `minPrice && maxPrice !== maxPrice`. That
guard compares the maximum price with itself, so it never holds for a number that is not `NaN`.
The model keeps the guard as written. `ProductCard.RangeBranchUnreachable` proves that every
product, ranged or not, shows the fallback chain: the discounted price, else the base price,
else "n/a".

Three behaviours of the code are worth stating plainly:
- The code shows the error text and the empty state together when a query that is not pending
  fails with no line items (`ShoppingCart.ErrorAndEmptyStateTogether`).
- The limit test is `quantity >= quantityAvailable`, and an availability of 0 never triggers it
  (`ShoppingCart.QuantityLimitRule`).
- The range guard compares the maximum price with itself (see above).

Modules: `Wrappers` (the `Option` type), `JsValues` (JavaScript value semantics),
`ShoppingCart` (src/app/ShoppingCartButton.tsx), `ProductCard` (src/components/Product.tsx).

## Model

| member | source | states |
|---|---|---|
| `JsValues.OrInt` | src/app/ShoppingCartButton.tsx:29 | `x \|\| fallback` on a number gives the number when it is present and non-zero, else the fallback |
| `JsValues.OrZeroIsValueOrZero` | src/app/ShoppingCartButton.tsx:29 | `quantity \|\| 0` is the quantity when present and 0 when absent (a zero contributes 0 either way) |
| `ShoppingCart.Reduce` | src/app/ShoppingCartButton.tsx:28-30 | computes the `reduce` fold `acc + (item.quantity \|\| 0)` from left to right; `ShoppingCart.ReduceIsSum` states it is the start value plus the sum of the quantities |
| `ShoppingCart.ReduceIsSum` | src/app/ShoppingCartButton.tsx:28-30 | the left-to-right `reduce` from any start value equals that value plus the sum of the quantities |
| `ShoppingCart.TotalQuantity` | src/app/ShoppingCartButton.tsx:27-31 | computes `data?.lineItems?.reduce(...) \|\| 0`; `ShoppingCart.TotalQuantityIsSum` states it is the sum of the quantities, 0 when the cart or the list is absent |
| `ShoppingCart.TotalQuantityIsSum` | src/app/ShoppingCartButton.tsx:27-31 | the total quantity is the sum of the line-item quantities; an absent cart or line-item list gives 0 |
| `ShoppingCart.SumAtLeastItemCount` | src/app/ShoppingCartButton.tsx:27-31 | when every quantity is present and at least 1, the total is at least the number of line items |
| `JsValues.NatText` | src/app/ShoppingCartButton.tsx:39 | a natural number's text is a non-empty run of digits, one digit long exactly when the number is below 10 |
| `JsValues.NumberText` | src/app/ShoppingCartButton.tsx:39 | an integer's text starts with "-" exactly when the integer is negative |
| `JsValues.NatTextRoundTrip` | src/app/ShoppingCartButton.tsx:39 | reading back a number's digits gives the number, so different counts render differently |
| `ShoppingCart.BadgeText` | src/app/ShoppingCartButton.tsx:39 | computes the badge text `totalQuantity < 10 ? totalQuantity : "9+"`; `ShoppingCart.BadgeSaturates` and `ShoppingCart.BadgeDigitsOnlyBelowTen` state that it saturates |
| `ShoppingCart.BadgeDigitsOnlyBelowTen` | src/app/ShoppingCartButton.tsx:39 | the badge text is all digits only for totals 0 to 9 |
| `ShoppingCart.BadgeSaturates` | src/app/ShoppingCartButton.tsx:39 | the badge shows the exact total below 10 and "9+" from 10 on, and a number it shows is the total and below 10 |
| `ShoppingCart.ItemWord` | src/app/ShoppingCartButton.tsx:49 | the header says "item" exactly when the total is 1 and "items" otherwise, including 0 |
| `ShoppingCart.HeaderCount` | src/app/ShoppingCartButton.tsx:48-50 | computes the header count `(N item(s))`; `ShoppingCart.HeaderShowsExactTotal` states it shows the exact total |
| `ShoppingCart.HeaderShowsExactTotal` | src/app/ShoppingCartButton.tsx:48-50 | the header count holds the exact total followed by a space, unsaturated: a total of 10 reads "(10 items)" |
| `JsValues.LastSegment` | src/app/ShoppingCartButton.tsx:104 | computes `split(sep).pop()`; `ShoppingCart.SlugIsLastSegment` states it is the text after the last separator |
| `JsValues.Split` | src/app/ShoppingCartButton.tsx:104 | `split("/")` gives at least one part, so `pop()` always finds one, and no part holds "/" |
| `JsValues.SplitLast` | src/app/ShoppingCartButton.tsx:104 | the last part of a split is a suffix of the text that is the whole text exactly when there is one part, and otherwise directly follows a "/" |
| `JsValues.SplitJoin` | src/app/ShoppingCartButton.tsx:104 | joining the parts of a split with the separator gives back the original text |
| `ShoppingCart.Slug` | src/app/ShoppingCartButton.tsx:104 | the slug is absent exactly when the URL is, and never contains "/" |
| `ShoppingCart.SlugIsLastSegment` | src/app/ShoppingCartButton.tsx:104 | the slug is the text after the last "/" of the URL, or the whole URL when there is none |
| `ShoppingCart.SlugWithoutSlash` | src/app/ShoppingCartButton.tsx:104 | a URL without "/" is its own slug |
| `ShoppingCart.SlugAfterTrailingSlash` | src/app/ShoppingCartButton.tsx:104 | a URL ending in "/" has the empty slug |
| `JsValues.TemplateText` | src/app/ShoppingCartButton.tsx:113 | a template literal writes a present string as itself and an absent one as "undefined" |
| `ShoppingCart.ItemHref` | src/app/ShoppingCartButton.tsx:113-123 | the row links to "/products/" + slug, and to "/products/undefined" when the URL is absent |
| `ShoppingCart.QuantityLimitReached` | src/app/ShoppingCartButton.tsx:106-109 | computes `!!quantity && !!availability?.quantityAvailable && quantity >= quantityAvailable`; `ShoppingCart.QuantityLimitRule` states the rule in plain terms |
| `JsValues.OrString` | src/app/ShoppingCartButton.tsx:118-124 | `x \|\| fallback` on an optional string gives the string when it is present and non-empty, else the fallback ("Product image", "Item", "n/a", "") |
| `JsValues.OrOptString` | src/app/ShoppingCartButton.tsx:131 | `x \|\| y` on two optional strings gives `x` when it is present and non-empty, else `y` unchanged (possibly `undefined`) |
| `ShoppingCart.QuantityLimitRule` | src/app/ShoppingCartButton.tsx:106-109 | the limit is reached iff quantity and availability are present and non-zero and quantity >= availability; absent or zero availability never triggers it |
| `ShoppingCart.LineText` | src/app/ShoppingCartButton.tsx:131 | a description line shows its colour text when non-empty, else its plain text, else nothing |
| `ShoppingCart.LineTexts` | src/app/ShoppingCartButton.tsx:128-132 | one text per description line, in line order |
| `ShoppingCart.Description` | src/app/ShoppingCartButton.tsx:126-135 | the description paragraph shows iff there is at least one line, and then is the line texts joined by ", " |
| `JsValues.Join` | src/app/ShoppingCartButton.tsx:133 | computes `parts.join(sep)`; `JsValues.JoinLength`, `JsValues.JoinSnoc` and `JsValues.SplitJoin` state its layout and that it inverts `split` |
| `JsValues.JoinLength` | src/app/ShoppingCartButton.tsx:133 | joining n >= 1 parts adds exactly n - 1 separators to their total length |
| `JsValues.JoinSnoc` | src/app/ShoppingCartButton.tsx:133 | joining one more part appends a separator and that part, leaving the earlier text unchanged |
| `ShoppingCart.DescriptionLayout` | src/app/ShoppingCartButton.tsx:128-133 | the description keeps the line texts in order with n - 1 ", " separators between n lines |
| `ShoppingCart.DescriptionExample` | src/app/ShoppingCartButton.tsx:126-135 | a colour line "Red" and a plain line "Cotton" render as "Red, Cotton" |
| `JsValues.JsxText` | src/app/ShoppingCartButton.tsx:140 | JSX writes a present string as itself and an absent one as nothing |
| `JsValues.JsxNumber` | src/app/ShoppingCartButton.tsx:137 | an optional quantity placed in JSX renders as its decimal text, or nothing when absent |
| `ShoppingCart.ShowsFullPrice` | src/app/ShoppingCartButton.tsx:138 | computes `item.fullPrice && item.fullPrice.amount !== item.price?.amount`; `ShoppingCart.RenderItem` and `ShoppingCart.SameAmountNoStrike` state when the struck-through price shows |
| `ShoppingCart.RenderItem` | src/app/ShoppingCartButton.tsx:103-161 | the struck-through full price shows iff a full price exists with an amount different from the price's; "-" is disabled iff quantity is 1; "+" is disabled and the limit notice shown exactly when the limit is reached |
| `ShoppingCart.SameAmountNoStrike` | src/app/ShoppingCartButton.tsx:138 | equal amounts show no struck-through price, whatever the formatted strings are |
| `ShoppingCart.DecrementIndependentOfAvailability` | src/app/ShoppingCartButton.tsx:145 | the "-" button's state does not depend on availability, and quantity 1 always disables it |
| `ShoppingCart.LimitAtAvailability` | src/app/ShoppingCartButton.tsx:149-156 | a quantity equal to a known non-zero availability disables "+" and shows the notice |
| `ShoppingCart.RenderItems` | src/app/ShoppingCartButton.tsx:55-57 | one rendered row per line item, in cart order |
| `ShoppingCart.RenderCart` | src/app/ShoppingCartButton.tsx:27-86 | the list has one row per line item in order; the spinner shows iff pending; the error text shows iff an error is present and is its message; the empty state shows iff not pending and the list is absent or empty |
| `ShoppingCart.EmptyStateExcludesItems` | src/app/ShoppingCartButton.tsx:55-78 | the empty state and a non-empty item list never show together |
| `ShoppingCart.ErrorAndEmptyStateTogether` | src/app/ShoppingCartButton.tsx:62-78 | every failed query that is not pending and has no line items shows both the error text and the empty state; changing the error never changes whether the empty state shows |
| `ShoppingCart.PendingHidesEmptyState` | src/app/ShoppingCartButton.tsx:59-65 | while pending the spinner shows and the empty state does not, even with no items |
| `ProductCard.FallbackPrice` | src/components/Product.tsx:54-58 | the discounted formatted price if non-empty, else the base formatted price if non-empty, else "n/a" |
| `ProductCard.RangeGuard` | src/components/Product.tsx:51 | computes the guard `minPrice && maxPrice !== maxPrice` as written; `ProductCard.RangeGuardNeedsMinPrice` and `ProductCard.RangeBranchUnreachable` state that it needs a minimum price and never holds |
| `ProductCard.GetFormattedPrice` | src/components/Product.tsx:47-60 | computes `getFormattedPrice` with the range branch as written; `ProductCard.RangeBranchUnreachable`, `ProductCard.FormattedPriceShape` and `ProductCard.NoFromPrefix` state its result |
| `ProductCard.RangeGuardNeedsMinPrice` | src/components/Product.tsx:51-52 | the "from" branch needs a present, non-zero minimum price |
| `ProductCard.RangeBranchUnreachable` | src/components/Product.tsx:47-60 | the guard `maxPrice !== maxPrice` never holds, so the price text always equals the fallback chain |
| `ProductCard.RangedProductShowsFallback` | src/components/Product.tsx:47-60 | a product priced from 5 to 10 shows its base formatted price, not "from ..." |
| `ProductCard.FormattedPriceShape` | src/components/Product.tsx:51-58 | the price text is never empty and is a formatted price or "n/a" |
| `ProductCard.NoFromPrefix` | src/components/Product.tsx:51-58 | the price text starts with "from " only if one of the formatted prices does |
| `ProductCard.Badges` | src/components/Product.tsx:29-33 | 1 to 3 badges in fixed order: the ribbon if non-empty, the discount if present, and always the price last |
| `ProductCard.RenderProduct` | src/components/Product.tsx:16-41 | the card links to "/products/" + slug ("/products/undefined" when absent), shows the badges above, and renders the description or "" when absent |

## Left out

- Markup, CSS classes and the `Sheet`, `Button`, `Badge` and `DiscountBadge` components are not modelled. The model keeps only the values the components compute. The HTML of the product description is passed through as a string, and its rendering is not modelled.
- The open/closed panel flag (`sheetOpen`) and its setters are UI wiring with no rule of their own, so they are not modelled.
- The cart query hook (`useCart`, fed by `initialData`) is not part of this model. Its `data`, `isPending` and `error` are plain inputs (`ShoppingCart.CartQuery`).
- Image delivery (`WixImage`, `mainImage`) is not part of this model. The image alt text of a cart row is kept; the product image's alt text is not.
- `formatCurrency` (`@/lib/utils`) is not part of this model. It is a function-valued parameter of `ProductCard.GetFormattedPrice`, and the card reaches it only in the dead range branch.
- Floating point is not modelled. Range prices are reals and quantities are integers, so `NaN` does not exist here. A cart price's `amount` is kept as the platform's string and compared with `!==`, so "10.0" and "10.00" count as different amounts. `NaN` is the only JavaScript value for which `maxPrice !== maxPrice` holds, so it is the only way the range branch could fire.
- `JsValues.NumberText` writes integers in plain decimal. JavaScript writes magnitudes of 10^21 and above in exponent form, and such quantities are not modelled.
- The "+", "-" and Checkout buttons have no handlers in the source. Quantity changes, checkout and serialising mutations per line item therefore have no behaviour to model.
- React's `key` prop on each row and the platform's SDK types beyond the fields the components read are not modelled.
