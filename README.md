# Checkout, payment reconciliation and product validation — a Dafny model

This project models the checkout core of a storefront backend. The backend takes
payments through the Thawani gateway. The model covers five parts:

- the price of a cart: pair discounts on shaylas, shipping by destination, deposit
  mode, and conversion of rials (OMR) to baisa for the gateway;
- gift-card normalisation;
- the process-wide pending-order cache (`ORDER_CACHE`) that holds a draft order
  between session creation and payment confirmation;
- the confirmation merge, which builds a new order, or enriches an existing one,
  from the gateway's answer, the cached draft and the stored order;
- the product routes' validation, payload building, list filter and pagination.

Money is `real`, so arithmetic is exact, and baisa are `int`. `Math.round(x)` is
`(x + 0.5).Floor`. A missing or falsy text field is `""`. A gift-card field that may
be missing is an `Option<string>`. A numeric field of a product request keeps its
JavaScript truthiness apart from what `Number` makes of it, so the text "0" (present,
converts to 0) differs from the number 0 (absent).

The gateway and the database are replaced by values. `CreateCheckout` takes the
generated reference and the gateway's reply (a session id, or a thrown error). It
returns the session request it would send. `ConfirmPayment` takes the session list,
the session detail, whether the store write succeeds, and the payment time.

Files:

- `wrappers.dfy`: `Option`, `Result`, and `Reply` (answered or threw).
- `request_values.dfy`: the `image` field of a request (missing, one URL, or an array).
- `js_text.dfy`: JavaScript `trim` and `toLowerCase`.
- `gift_cards.dfy`: `hasGiftValues` and `normalizeGift`.
- `pricing.dfy`: `toBaisa`, the pair discount, the shipping fee, and the quote (`ComputeQuote`).
- `orders.dfy`: drafts, orders, session data, and the merge functions.
- `order_service.dfy`: class `Checkout`. It holds the cache and the order collection,
  and has the two routes as methods.
- `products.dfy`: the create, update and list routes of the product catalogue.

Four behaviours of the code worth knowing:

- If the gateway call throws during session creation, the staged draft stays in the
  cache. Only a reply without a session id removes it. See `CheckoutOutcome`, case `Threw`.
- When an order already exists, confirmation fills its empty identity and address
  fields from the gateway metadata only, never from the cached draft.
- `remainingAmount` in deposit mode is `max(0, subtotalAfterDiscount + shipping − 10)`.
  The discount and the shipping fee are both included.
- `toBaisa` of a non-numeric value gives NaN in the code, not 100.

## Model

| member | source | states |
|---|---|---|
| `JsText.TrimStart` | src/orders/orders.route.js:39 | the result is a suffix of the input; every character removed is white space; the result does not start with white space |
| `JsText.TrimEnd` | src/orders/orders.route.js:39 | the result is a prefix of the input; every character removed is white space; the result does not end with white space |
| `JsText.BlankIffAllSpace` | src/orders/orders.route.js:39-40 | `s.trim()` is empty exactly when every character of `s` is white space |
| `JsText.TrimIdempotent` | src/products/products.route.js:57-59 | trimming a trimmed string changes nothing |
| `JsText.ToLower` | src/products/products.route.js:172 | same length; each character lower-cased |
| `JsText.LowerIsTrue` | src/products/products.route.js:172 | a string lower-cases to "true" exactly when it spells true in any mix of letter cases |
| `GiftCards.NormalizeGift` | src/orders/orders.route.js:44-52 | absent exactly when the card has no values; otherwise all four fields are present, each kept as sent or set to "" when missing |
| `GiftCards.HasGiftValuesIff` | src/orders/orders.route.js:37-41 | a card has values exactly when one of from/to/phone/note holds a character that is not white space |
| `GiftCards.NormalizeGiftStored` | src/orders/orders.route.js:250-258 | a normalised card is never all blank; normalising keeps "has values" and is idempotent |
| `GiftCards.NormalizeStoredIsIdentity` | src/orders/orders.route.js:323-336 | re-normalising a stored card at confirmation leaves it unchanged |
| `Pricing.Round` | src/orders/orders.route.js:25 | the result is the nearest integer, halves rounded up |
| `Pricing.ToBaisa` | src/orders/orders.route.js:25 | at least 100 baisa; within half a baisa of `omr × 1000` when that is at least 99.5; exactly 100 below it (so 0 gives 100) |
| `Pricing.BaisaRoundTrip` | src/orders/orders.route.js:316 | a baisa amount of 100 or more, converted to rials as the confirmation does, converts back to itself |
| `Pricing.ToBaisaMonotone` | src/orders/orders.route.js:25 | a larger amount never gives fewer baisa |
| `Pricing.PairDiscount` | src/orders/orders.route.js:28-34 | 0 for every category but the two shayla ones; for those, floor(quantity / 2) rials |
| `Pricing.ShippingFee` | src/orders/orders.route.js:74-77 | 4 exactly for the Gulf choice with the Emirates, 5 for any other Gulf choice, 2 for every other country |
| `Pricing.StoredCountry` | src/orders/orders.route.js:70-71 | the stored country differs from the sent one only when the sent one is the Gulf placeholder and a Gulf country was chosen |
| `Pricing.NoShaylaNoDiscount` | src/orders/orders.route.js:90-93 | a cart without shaylas gets no discount |
| `Pricing.DiscountBound` | src/orders/orders.route.js:90-93 | with non-negative quantities, the total discount is non-negative and at most one rial per two shayla units |
| `Pricing.ItemLine` | src/orders/orders.route.js:106-116 | every product line has quantity at least 1 (the cart quantity when that is 1 or more, else 1) and at least 100 baisa per unit; the item's name, or "منتج" when it has none; off the shayla categories the unit amount is the baisa of `max(0.1, price)`; with quantity 1 or more and a discounted unit price below 0.1 rial it is 100 baisa; with a quantity below 1 it is the baisa of `max(0.1, price − discount)` |
| `Pricing.ItemLineUnit` | src/orders/orders.route.js:107-114 | where the 0.1-rial floor does not bind, the unit amount is the baisa of `price − discount / quantity`, and that unit price times the quantity is the discounted item total |
| `Pricing.ItemLineTotal` | src/orders/orders.route.js:107-114 | where the 0.1-rial floor does not bind, quantity × unit amount is within half a baisa per unit of 1000 × (price × quantity − pair discount) |
| `Pricing.QuoteDetermined` | src/orders/orders.route.js:86-125 | the cart, country, Gulf choice and deposit flag determine the whole quote |
| `Pricing.ComputeQuote` | src/orders/orders.route.js:86-125 | the discounted subtotal is `max(0, subtotal − discount)`; deposit mode gives one line of 10000 baisa, a charge of 10 and a remainder of `max(0, total − 10)`; otherwise one line per item plus the shipping line, the full total charged and nothing remaining; every line has quantity ≥ 1 and ≥ 100 baisa |
| `Pricing.WorkedExample` | src/orders/orders.route.js:86-124 | two shaylas at 10 and one item at 5, shipped in Oman, total 26 rials, charged as 9500, 5000 and 2000 baisa per unit |
| `Orders.StageItem` | src/orders/orders.route.js:132-141 | a staged item keeps id, quantity, price, name, category and measurements; its image is the first of an array or the single value; its gift card is the item's card normalised, hence storable |
| `Orders.BuildDraft` | src/orders/orders.route.js:130-154 | the draft sits under its reference with status completed; item i is cart item i staged; charge, remainder and shipping fee are the quote's; the country is the stored country; customer, phone, wilayat, description, email and deposit flag are the request's; the order gift card is the request's normalised; every gift card is storable |
| `Orders.HttpStatus` | src/orders/orders.route.js:82-410 | 400 exactly for an invalid cart, a missing session reference and an unpaid session; 404 exactly for a session not found; 500 exactly for a missing session id, a gateway error and a failed save |
| `Orders.FirstMatch` | src/orders/orders.route.js:272-275 | the position of the first session with the reference; none exactly when no session has it |
| `Orders.ProductsFromCache` | src/orders/orders.route.js:323-337 | empty without a draft; otherwise item i is the draft's item i with its gift card normalised, so every card is storable and a draft whose cards are already stored comes back unchanged |
| `Orders.ResolveShippingFee` | src/orders/orders.route.js:340-349 | the metadata's fee if present, else the draft's, else recomputed by the checkout rule from the trimmed metadata country |
| `Orders.NewOrder` | src/orders/orders.route.js:352-370 | amount from the gateway; fee as resolved; the order id is the reference; each identity field is the draft's when non-empty, else the metadata's; no cart, deposit or gift card without a draft |
| `Orders.FillEmpty` | src/orders/orders.route.js:376-381 | a non-empty field is kept; the result is non-empty when either value is |
| `Orders.Enriched` | src/orders/orders.route.js:371-396 | status and amount always overwritten; identity fields only filled when empty; fee set only when missing; products replaced only by a non-empty draft list; a gift card with values never replaced; an order card without values is replaced by the draft's card, normalised, exactly when that one has values, and kept otherwise |
| `Orders.Enrich` | src/orders/orders.route.js:373-395 | the field-by-field merge gives the order `Enriched` describes |
| `Orders.ReconfirmIsStable` | src/orders/orders.route.js:312-405 | confirming the same paid session again saves the same order, with only the payment time renewed |
| `Orders.ReconciledStored` | src/orders/orders.route.js:352-396 | the order a confirmation saves has only storable gift cards |
| `Orders.DraftCarriedOver` | src/orders/orders.route.js:352-370 | a staged draft passes its products, gift card, deposit data and its non-empty customer name, phone, country, wilayat, description and email into the new order unchanged |
| `Orders.MetadataFallback` | src/orders/orders.route.js:164-174 | without the draft, the metadata sent at checkout rebuilds the customer, country and shipping fee, but not the cart, deposit data or gift card |
| `OrderService.Checkout.constructor` | src/orders/orders.route.js:22 | an empty cache and an empty order collection |
| `OrderService.Checkout.CreateCheckout` | src/orders/orders.route.js:81-194 | an invalid cart is rejected and nothing is staged; otherwise the quote's draft is staged under the reference; it is removed when no session id comes back, and stays when the gateway throws; the order collection never changes |
| `OrderService.Checkout.ConfirmPayment` | src/orders/orders.route.js:240-407 | each failure (missing reference, gateway error, no session, not paid, failed save) changes neither cache nor orders; a paid session saves the reconciled order under the reference and then deletes the draft |
| `Products.OldPrice` | src/products/products.route.js:49 | absent for undefined and ""; otherwise present exactly when the value converts to a finite number, with that number |
| `Products.ImageList` | src/products/products.route.js:53 | an array is kept; a single value becomes a one-element list |
| `Products.CreateProduct` | src/products/products.route.js:40-65 | rejects a falsy required field, then a category outside the six allowed, then a price whose `Number` is not a finite number above 0, then an empty image array, each exactly in that case; otherwise saves trimmed name and description, category, author, the price's number, the image list, the old price as `OldPrice` gives it, and `inStock` only when boolean |
| `Products.BlankNameSavedEmpty` | src/products/products.route.js:42-57 | a non-empty name of only white space is accepted wherever a real name would be, and is saved empty |
| `Products.TextZeroIsInvalidPrice` | src/products/products.route.js:42-51 | a price sent as the text "0" passes the presence check and is rejected as an invalid price |
| `Products.CoerceInStock` | src/products/products.route.js:169-172 | a boolean passes unchanged; a missing value is false |
| `Products.CoerceTextIff` | src/products/products.route.js:172 | text gives true exactly when it spells "true" in any mix of letter cases |
| `Products.BuildUpdate` | src/products/products.route.js:154-204 | not found, falsy fields and bad price are rejected in that order; otherwise trimmed name and description, category, author, the price's number, coerced `inStock`, old price or null, and images set to kept followed by new only when either list is non-empty |
| `Products.PriceRuleShared` | src/products/products.route.js:163-166 | create and update accept a present price under the same rule |
| `Products.BuildFilter` | src/products/products.route.js:90-107 | category unless empty or "all"; size only under the henna-powder category; colour unless empty or "all"; a price range only when both bounds are sent and parse |
| `Products.TotalPages` | src/products/products.route.js:111 | none for a limit of 0; for a positive limit, the fewest pages of that size that hold every product |
| `Products.PagesCoverProducts` | src/products/products.route.js:109-111 | with `skip = (page − 1) · limit`, every product position lies in the window `skip .. skip + limit` of a page between 1 and the page count |

## Left out

- The HTTP calls to the gateway (`axios.post`, `axios.get`), their headers and API key. The gateway's answers are parameters. Request timeouts are not modelled.
- Mongoose persistence. The order collection is a map keyed by `orderId`, so one reference has at most one order. A failure of `Order.findOne` is not modelled. A failure of `save` is (the `saved` parameter). Schema defaults and validators are not modelled.
- `Date.now()` for the reference and `new Date()` for `paidAt`. Both are parameters.
- Concurrent requests on the shared cache. Each request is one atomic step.
- `/order-with-products` and `calculateProductPrice`. They use an undefined `Product` and format floats as text.
- The lookup, list, status-update and delete routes for orders; product fetch and delete; related products (a regular expression built for a query); image upload, multer and Cloudinary; the `JSON.parse` of `keepImages`. The kept and new image lists are given already parsed.
- Floating point. JavaScript doubles round; `real` does not. Line amounts are exact here.
- `Pricing.ToBaisa`: defined on numbers only. A non-numeric value, where the code yields NaN, is not modelled.
- A product request's numeric field is its truthiness and its `Number` result taken separately; the model does not rule out pairs no JavaScript value produces (a falsy value other than undefined and "" converts to 0 or NaN).
- Fractional quantities, and fields of unexpected JSON types (a number as gift-card text, a string price in the cart). Cart prices and quantities are numbers; missing ones are 0.
- `JsText.ToLower`: lowers ASCII letters only. No other character lower-cases to t, r, u or e, so the comparison with "true" comes out the same.
- `session.metadata || session.meta_data` is one metadata record. The fee's trip through `String` and `Number` is the number itself.
- `Products.TotalPages`: `parseInt` giving NaN for page or limit, and `parseFloat` giving an infinity for a price bound, are not modelled. Page and limit are integers or missing.
- The database query of the list route (count, skip, limit, sort, populate).
- The recomputed shipping fee at confirmation tests the stored country against the Gulf placeholder, and checkout never sends a Gulf country in the metadata. That branch runs only for sessions whose metadata lacks a fee, and checkout always sends one (`Orders.MetadataFallback`).
