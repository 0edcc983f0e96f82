# ShopMicro storefront: a verified model

This project models the core of the ShopMicro web storefront in Dafny:

- the application state: the cart, the signed-in user, the catalog, the order history, and the browser store that keeps the cart and the user across restarts;
- the product list page: the category choices and the search and category filter;
- the product detail page: the lookup by the id in the page address, and the quantity selector;
- the checkout page: the form, the two submit guards, the order request, and the page guards.

Prices and totals are whole numbers of cents. One cent is the precision the storefront displays.

The code is split into modules, one file each:

- `Common` (`common.dfy`): `Option`, `Max`/`Min`, and subsequence order.
- `Text` (`text.dfy`): the JavaScript string primitives the pages use. These are `toLowerCase`, `includes`, integer-to-text, and `parseInt` with no radix.
- `Catalog` (`catalog.dfy`): the product list page.
- `Cart` (`cart.dfy`): each cart operation as a pure function from the old cart to the new one, plus the order made from a cart.
- `App` (`app.dfy`): the `Shop` class. Its fields are the application's state and the store, and its methods are the application's handlers.
- `ProductDetail` (`product_detail.dfy`): the detail page's state as the class `ProductPage`.
- `Checkout` (`checkout.dfy`): the checkout page's state as the class `CheckoutPage`.

Every class method's contract says what the method computes, in terms of the pure functions. The lemmas beside those functions prove what the functions promise. The class invariant `Shop.Valid` says two things. The stored cart is always the cart in memory. A user is stored exactly when someone is signed in, and it is that user.

## Model

| member | source | states |
|---|---|---|
| Text.LowerChar | ecommerce-frontend/src/components/ProductList.js:13-14 | upper-case ASCII letters map to the letter 32 code points later; every other character is unchanged |
| Text.ToLower | ecommerce-frontend/src/components/ProductList.js:13-14 | lower-casing keeps the length and lower-cases each character in place |
| Text.ToLowerIdempotent | ecommerce-frontend/src/components/ProductList.js:13-14 | lower-casing an already lower-cased text changes nothing |
| Text.IncludesIff | ecommerce-frontend/src/components/ProductList.js:13-14 | the left-to-right `includes` scan is true exactly when the search text occurs at some position of the text |
| Text.IncludesEmpty | ecommerce-frontend/src/components/ProductList.js:13-14 | every text includes the empty search text |
| Text.NatToString | ecommerce-frontend/src/App.js:158 | the numeral of a number is non-empty, all digits, and has no leading zero |
| Text.IntToString | ecommerce-frontend/src/App.js:158 | the text of an integer is non-empty and starts with a minus sign or a digit |
| Text.TrimStart | ecommerce-frontend/src/components/ProductDetail.js:13 | `parseInt` drops a prefix made only of white space, leaving a suffix that is empty or starts with a non-space |
| Text.DigitRun | ecommerce-frontend/src/components/ProductDetail.js:13 | `parseInt` reads the longest run of decimal digits at the front and stops at the first non-digit |
| Text.HexRun | ecommerce-frontend/src/components/ProductDetail.js:13 | after `0x`, `parseInt` reads the longest run of hexadecimal digits |
| Text.ParseMagnitude | ecommerce-frontend/src/components/ProductDetail.js:13 | a number is read only when the text after the sign starts with a digit, and always when it starts with a digit and is not a `0x` prefix |
| Text.ParseInt | ecommerce-frontend/src/components/ProductDetail.js:13 | `parseInt` yields a number (not `NaN`) only when the text holds a digit |
| Text.DecimalValueOfNatToString | ecommerce-frontend/src/App.js:158 | the digits of a numeral read back as the number |
| Text.ParseMagnitudeOfNatToString | ecommerce-frontend/src/App.js:158 | reading a numeral back gives the number |
| Text.ParseIntOfIntToString | ecommerce-frontend/src/components/ProductList.js:63 | `parseInt` of the text of any integer is that integer, so an id written into a link reads back unchanged |
| Text.TrimStartSkipsWhiteSpace | ecommerce-frontend/src/components/ProductDetail.js:78 | any white space in front of a text that does not start with white space is skipped entirely |
| Text.DigitRunStopsAfterNumeral | ecommerce-frontend/src/components/ProductDetail.js:78 | the digits read stop exactly at the end of a numeral followed by a non-digit |
| Text.ParseMagnitudeOfNumeralAndRest | ecommerce-frontend/src/components/ProductDetail.js:78 | a numeral followed by characters that do not extend it (no digit, no `x` after a lone 0) reads as its value |
| Text.ParseSigned | ecommerce-frontend/src/components/ProductDetail.js:78 | the number read after the white space exists only when that text holds a digit |
| Text.ParseSignedUnsigned | ecommerce-frontend/src/components/ProductDetail.js:78 | with no sign, the number read is the magnitude |
| Text.ParseSignedNegative | ecommerce-frontend/src/components/ProductDetail.js:78 | with a minus sign, the number read is the negated magnitude after it |
| Text.ParseIntAfterWhiteSpace | ecommerce-frontend/src/components/ProductDetail.js:78 | `parseInt` skips all leading white space and reads the number from the first other character |
| Text.ParseSignedOfNumeralAndRest | ecommerce-frontend/src/components/ProductDetail.js:78 | the text of any integer followed by text that does not extend the numeral reads as that integer |
| Text.ParseIntOfPaddedNumeral | ecommerce-frontend/src/components/ProductDetail.js:78 | leading white space and trailing text that does not extend the numeral are ignored: " 7", "7 units" and "7.5" all read as 7 |
| Text.DecimalValueLeadingZero | ecommerce-frontend/src/components/ProductDetail.js:78 | a leading zero adds nothing to a numeral's value |
| Text.DecimalValueOfZerosAndNumeral | ecommerce-frontend/src/components/ProductDetail.js:78 | any number of zeros in front of a numeral leave its value unchanged |
| Text.ParseMagnitudeOfZerosAndNumeral | ecommerce-frontend/src/components/ProductDetail.js:78 | zeros in front of a numeral are read as digits of no weight |
| Text.ParseIntIgnoresLeadingZeros | ecommerce-frontend/src/components/ProductDetail.js:78 | `parseInt` ignores leading zeros: "007" reads as 7 |
| Catalog.Distinct | ecommerce-frontend/src/components/ProductList.js:9 | the set of names has the same members as the list and no repeats |
| Catalog.DistinctKeepsFirstOccurrenceOrder | ecommerce-frontend/src/components/ProductList.js:9 | the distinct names come in the order in which they first occur, as a `Set` iterates |
| Catalog.CategoryNames | ecommerce-frontend/src/components/ProductList.js:9 | one category name per product, in product order |
| Catalog.Categories | ecommerce-frontend/src/components/ProductList.js:9 | the choices are "all" first, then every product's category once, and nothing no product names |
| Catalog.CategoriesInFirstOccurrenceOrder | ecommerce-frontend/src/components/ProductList.js:9 | the categories after "all" come in the order in which the products first name them |
| Catalog.FilterProducts | ecommerce-frontend/src/components/ProductList.js:12-18 | a product is listed iff it is in the catalog, its name or description includes the search text ignoring case, and its category is the selected one or "all" is selected |
| Catalog.FilterIsSubsequence | ecommerce-frontend/src/components/ProductList.js:12-18 | the listed products keep the catalog's order |
| Catalog.FilterKeepsMultiplicity | ecommerce-frontend/src/components/ProductList.js:12-18 | a shown product is listed as many times as the catalog holds it, and a product not shown is never listed |
| Catalog.EmptySearchShowsAll | ecommerce-frontend/src/components/ProductList.js:5-18 | in the initial state (empty search text, "all"), the page lists the whole catalog in order |
| Catalog.SearchIgnoresCase | ecommerce-frontend/src/components/ProductList.js:13-14 | a search text and its lower-case form list the same products |
| Catalog.ListAddQuantity | ecommerce-frontend/src/components/ProductList.js:66-69 | the list's add button is enabled iff at least one unit is available, and then adds one unit |
| Cart.AddToLines | ecommerce-frontend/src/App.js:100-104 | raising the quantity of the matching lines keeps every line's product id, in order |
| Cart.FindLine | ecommerce-frontend/src/App.js:96 | a line is found iff the cart holds the product id, and the line found is a cart line with that id |
| Cart.AddNewProductAppends | ecommerce-frontend/src/App.js:105-108 | adding a product not in the cart appends exactly one line with the product and the amount |
| Cart.AddExistingProductMerges | ecommerce-frontend/src/App.js:96-104 | adding a product already in the cart only raises that line's quantity by the amount; its product fields and every other line stay |
| Cart.RemoveFromCart | ecommerce-frontend/src/App.js:113-115 | a line survives iff its id is not the removed one; afterwards no line has that id |
| Cart.RemoveAbsentIsIdentity | ecommerce-frontend/src/App.js:113-115 | removing an id that is not in the cart leaves the cart unchanged |
| Cart.RemoveIdempotent | ecommerce-frontend/src/App.js:113-115 | removing twice is removing once |
| Cart.RemoveIsSubsequence | ecommerce-frontend/src/App.js:113-115 | the remaining lines keep their order |
| Cart.UpdateClampsAndKeepsLines | ecommerce-frontend/src/App.js:118-126 | an update keeps every line and id; a matching line keeps its product fields and gets max(1, quantity); every other line is unchanged |
| Cart.UpdateOverrides | ecommerce-frontend/src/App.js:118-126 | a later update of the same product overrides an earlier one |
| Cart.TotalItemsReplace | ecommerce-frontend/src/App.js:180 | replacing one line changes the unit count by that line's difference |
| Cart.CartTotalReplace | ecommerce-frontend/src/App.js:160 | replacing one line changes the total by that line's difference in price times quantity |
| Cart.RaiseLineTotals | ecommerce-frontend/src/App.js:100-104 | raising one line by an amount raises the unit count by the amount and the total by the line's price times the amount |
| Cart.AddExistingTotals | ecommerce-frontend/src/App.js:96-104 | adding to an existing line raises the totals by the amount at the price already in the cart |
| Cart.AddToCartTotals | ecommerce-frontend/src/App.js:94-110 | adding an amount raises the unit count by that amount, and the total by the amount times the receiving line's unit price |
| Cart.UpdateQuantityTotals | ecommerce-frontend/src/App.js:118-126 | an update changes the unit count by the clamped new quantity minus the old one |
| Cart.BadgeShownIffNonEmpty | ecommerce-frontend/src/App.js:180-202 | with at least one unit per line, the unit count is at least the number of lines, and the badge shows iff the cart is non-empty |
| Cart.SubtotalExample | ecommerce-frontend/src/components/Checkout.js:21 | one keyboard at 99.99 and two mice at 59.99 total 219.97 |
| Cart.AddKeepsWellFormed | ecommerce-frontend/src/App.js:94-110 | adding keeps one line per product id, and keeps quantities positive when the amount is positive |
| Cart.RemoveKeepsWellFormed | ecommerce-frontend/src/App.js:113-115 | removal keeps distinct ids and positive quantities |
| Cart.UpdateKeepsWellFormed | ecommerce-frontend/src/App.js:118-126 | an update keeps distinct ids and positive quantities |
| Cart.RunKeepsWellFormed | ecommerce-frontend/src/App.js:93-131 | any sequence of add, remove, update and clear keeps one line per product, and positive quantities when every add is positive |
| Cart.Snapshot | ecommerce-frontend/src/App.js:162-167 | the order has one item per cart line |
| Cart.SnapshotTotal | ecommerce-frontend/src/App.js:160-167 | the order items' total equals the cart total |
| Cart.NewOrderCopiesCart | ecommerce-frontend/src/App.js:155-168 | the order copies each line's id, name, price and quantity in order; its total is its items' total and the cart total; its status is "Completed" |
| Cart.ReferenceReadsBack | ecommerce-frontend/src/App.js:157-158 | the reference is "ORD-" followed by text that reads back as the order id |
| Cart.NewOrderMatchesCart | ecommerce-frontend/src/App.js:155-168 | the order copies each line's id, name, price and quantity in order; its total is its items' total and the cart total; its status is "Completed"; its reference is "ORD-" followed by text that reads back as the order id |
| App.Shop.constructor | ecommerce-frontend/src/App.js:23-45 | start-up restores the stored user (signed in iff one is stored) and the stored cart (else empty), stores the cart back, and starts with no orders |
| App.Shop.SetCart | ecommerce-frontend/src/App.js:42-45 | every cart change is written to the store under "cart"; nothing else changes |
| App.Shop.AddToCart | ecommerce-frontend/src/App.js:94-110 | the new cart is the pure add of the old one, is stored, and keeps the cart invariant for a positive amount |
| App.Shop.RemoveFromCart | ecommerce-frontend/src/App.js:113-115 | the new cart is the pure removal of the old one, is stored, and keeps the cart invariant |
| App.Shop.UpdateCartItemQuantity | ecommerce-frontend/src/App.js:118-126 | the new cart is the pure update of the old one, is stored, and keeps the cart invariant |
| App.Shop.ClearCart | ecommerce-frontend/src/App.js:129-131 | the cart becomes empty and the store holds the empty cart |
| App.Shop.LoadOrders | ecommerce-frontend/src/App.js:67-91 | the order history becomes the fetched list when signed in, and is untouched otherwise |
| App.Shop.Login | ecommerce-frontend/src/App.js:134-140 | sign-in stores the user and signs in; the history is reloaded only if someone was already signed in |
| App.Shop.LoginWithOrders | ecommerce-frontend/src/App.js:134-140 | corrected sign-in: after any sign-in the order history is the fetched one |
| App.Shop.Logout | ecommerce-frontend/src/App.js:143-148 | sign-out forgets and unstores the user and clears the history; the cart stays |
| App.Shop.PlaceOrder | ecommerce-frontend/src/App.js:151-177 | the order made from the cart goes to the front of the history, and the cart and its stored copy become empty; nothing is checked first |
| App.Shop.CartCount | ecommerce-frontend/src/App.js:180-202 | the badge count is the cart's unit count for every cart; with at least one unit per line it is at least the number of lines and positive iff the cart is non-empty |
| App.Restart | ecommerce-frontend/src/App.js:23-45 | a restart from the store gives back the same cart, the same user and sign-in state, and an empty history |
| App.SignInAfterStart | ecommerce-frontend/src/App.js:134-140 | after a start with an empty store, sign-in leaves the history empty, even when the order source has orders |
| ProductDetail.FindIndex | ecommerce-frontend/src/components/ProductDetail.js:13 | the first product with the parsed id is found; when none has it, or the id is `NaN`, nothing is found |
| ProductDetail.LinkFindsProduct | ecommerce-frontend/src/components/ProductDetail.js:11-18 | following a product's link finds a product with that id, and that very product when ids are distinct |
| ProductDetail.Decremented | ecommerce-frontend/src/components/ProductDetail.js:68 | "-" lowers the quantity by one, never below 1 |
| ProductDetail.Incremented | ecommerce-frontend/src/components/ProductDetail.js:82 | "+" raises the quantity by one below the cap, and at or above it gives exactly the available quantity |
| ProductDetail.Typed | ecommerce-frontend/src/components/ProductDetail.js:78 | typing gives min(available, 1) for text with no number, for 0 and for a negative number, and min(available, n) for a parsed n ≥ 1 |
| ProductDetail.SelectorKeepsRange | ecommerce-frontend/src/components/ProductDetail.js:63-89 | with a unit available, 1 is in range, and "-", "+" and typing all keep the quantity within [1, available] |
| ProductDetail.TypedInRange | ecommerce-frontend/src/components/ProductDetail.js:73-78 | typing an in-range number selects exactly that number |
| ProductDetail.ControlsFollowAvailability | ecommerce-frontend/src/components/ProductDetail.js:56-101 | the quantity controls show exactly when the add button is enabled |
| ProductDetail.ProductPage.constructor | ecommerce-frontend/src/components/ProductDetail.js:7-9 | the page starts loading, with no product and quantity 1 |
| ProductDetail.ProductPage.Locate | ecommerce-frontend/src/components/ProductDetail.js:11-18 | the found product replaces the shown one, a failed lookup keeps the previous one, and loading stops |
| ProductDetail.ProductPage.View | ecommerce-frontend/src/components/ProductDetail.js:20-33 | loading shows while loading; after it, "not found" when no product is set, otherwise the details of exactly the set product |
| ProductDetail.ProductPage.Decrement | ecommerce-frontend/src/components/ProductDetail.js:68 | "-" applies the clamp and keeps the selector invariant |
| ProductDetail.ProductPage.Increment | ecommerce-frontend/src/components/ProductDetail.js:82 | "+" applies the clamp and keeps the selector invariant |
| ProductDetail.ProductPage.Input | ecommerce-frontend/src/components/ProductDetail.js:78 | typing applies the parse-and-clamp and establishes the selector invariant |
| ProductDetail.ProductPage.AddClicked | ecommerce-frontend/src/components/ProductDetail.js:91-101 | when enabled, adds the selected quantity to the cart, resets it to 1 and goes to "/cart"; when disabled, nothing changes; loading, the catalog, the sign-in and every store key but the cart stay |
| Checkout.ParsePaymentMethod | ecommerce-frontend/src/components/Checkout.js:194-205 | a drop-down value is read as a payment method only if that method's name is exactly the value |
| Checkout.PaymentMethodNamesRoundTrip | ecommerce-frontend/src/components/Checkout.js:194-205 | every payment method's name reads back as that method, so the four names are distinct |
| Checkout.InitialForm | ecommerce-frontend/src/components/Checkout.js:7-15 | the form starts with the signed-in user's names and e-mail (empty without a user), an empty address, and credit card selected |
| Checkout.EditsByField | ecommerce-frontend/src/components/Checkout.js:23-26 | a later change of a field overrides an earlier one, and changes of different fields commute |
| Checkout.RequestLines | ecommerce-frontend/src/components/Checkout.js:47-50 | the request has one product entry per cart line |
| Checkout.RequestUnitsIsTotalItems | ecommerce-frontend/src/components/Checkout.js:47-50 | the request's quantities add up to the cart's unit count |
| Checkout.RequestMatchesOrder | ecommerce-frontend/src/components/Checkout.js:45-60 | the request and the order recorded from the same cart have the same product ids and quantities, in order, and the same amount in cents; the customer, payment method and address come from the user and the form |
| Checkout.Guard | ecommerce-frontend/src/components/Checkout.js:31-39 | signed out stops first at sign-in, a signed-in empty cart is refused next, and a submission proceeds iff signed in with a non-empty cart |
| Checkout.View | ecommerce-frontend/src/components/Checkout.js:72-100 | an empty cart shows the empty-cart notice, a signed-out visitor with items the sign-in prompt, and the form shows iff signed in with a non-empty cart |
| Checkout.GuardsAndViewOrder | ecommerce-frontend/src/components/Checkout.js:28-100 | the form renders iff a submission would proceed; with both failing, the page shows the empty cart while submitting asks for sign-in |
| Checkout.CheckoutPage.constructor | ecommerce-frontend/src/components/Checkout.js:7-18 | the page starts with the initial form, not loading, and no error |
| Checkout.CheckoutPage.Change | ecommerce-frontend/src/components/Checkout.js:23-26 | a change applies one field edit to the form and nothing else |
| Checkout.CheckoutPage.BeginSubmit | ecommerce-frontend/src/components/Checkout.js:28-60 | signed out: go to sign-in, nothing changes; empty cart: the empty-cart message; else loading, the error cleared, and the request built (a missing user ends as a failed order) |
| Checkout.CheckoutPage.FinishSubmit | ecommerce-frontend/src/components/Checkout.js:62-69 | success goes to "/order-success/" and the order id; failure shows the failure message; loading stops either way |
| Checkout.CheckoutPage.HandleSubmit | ecommerce-frontend/src/components/Checkout.js:28-69 | a full submission against the application: signed out goes to sign-in and an empty cart is refused, both leaving cart, history and store as they were; otherwise the order from the cart is placed and recorded, the cart is emptied, and the page goes to that order's success page; the catalog and sign-in stay |

## Left out

- Browser storage holds JSON text. The model stores the decoded values. `App.Shop.constructor` requires a well-formed store. The start-up code parses stored text with no error handling, and its behaviour on malformed text (including a stored `null` user) is not modelled.
- `toLowerCase` is modelled on ASCII letters only. Unicode case mappings are not modelled.
- `parseInt` white space is a common subset of JavaScript's (the other Unicode space separators are not included). `parseInt` is exact on unbounded integers; JavaScript loses precision above 2^53.
- Prices and totals are integer cents, not floating point. So `toFixed(2)` and `parseFloat` are identities, and binary rounding is not modelled.
- `Math.random()`, `Date.now()` and `new Date().toISOString()` are not modelled. The order number (0 to 9999), the time in milliseconds and the date text are parameters.
- The catalog list and the order history are hard-coded fixtures in the source. Here they are parameters (`catalog`, `fetched`). No network service is called.
- React effect scheduling, batching of state updates and re-rendering are not modelled. Each handler is a method that applies its updates in order. The exception is `App.Shop.Login`: it reads the signed-in flag from before its own updates, which is what the stale closure in the source sees.
- The intermediate write of the empty cart at start-up is not modelled, because it is overwritten before the start-up finishes. Only the final store is.
- The JSX markup, styles and routing are not modelled. Navigation is a returned path.
- App.Shop.AddToCart: the amount is always passed; the source's default amount of 1 is not modelled, since every caller passes one.
- Checkout.CheckoutPage.Change: the form keeps the payment method as a value of the four-case type, because the drop-down offers only those four names. A raw string written by other means is not modelled.
- Checkout.CheckoutPage.HandleSubmit: `placeOrder` ignores the request built by the page, so the request's reference ("ORD-" and the time) and the recorded order's reference ("ORD-" and the order number) differ. The model keeps both as written.
- App.Shop.PlaceOrder: it checks neither sign-in nor an empty cart. Only the checkout page guards it. The model follows the code.
- ProductDetail.ProductPage.Locate: a lookup that finds nothing keeps the previously shown product, as the code does.
- The cart page (`Cart.js`), registration (`Register.js`), the HTTP client (`api.js`) and the product service (`productService.js`) are not part of this model. Neither are the order success, order list, order detail, sign-in and profile pages.
- Console logging in the error handlers is not modelled.

## Findings

| source | as written | input that shows it | evidently intended | confidence | as-written member | corrected member |
|---|---|---|---|---|---|---|
| ecommerce-frontend/src/App.js:134-140 | `loadOrders` runs with the signed-in flag from before the sign-in, so signing in from the signed-out state never loads the order history | start with an empty store, then sign in while the order source has orders: the history stays empty | sign-in loads the history of the user who just signed in | high, not executed | App.SignInAfterStart | App.Shop.LoginWithOrders |
