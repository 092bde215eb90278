# Sanity Amazon storefront: the session store and the checkout rules

This project models the client-side core of the Sanity Amazon storefront, a Next.js store. It covers:

- the session store: its state, its reducer, and the cookies the reducer writes and reads back at start-up;
- the cart protocol of the home, search and cart pages: the desired quantity, the stock check, then a dispatch or an out-of-stock notice;
- the checkout pipeline: the shipping, payment and place-order steps, each with its entry guard and submit, plus the price formula and the order request;
- the account pages (login, register, profile) with their field rules, helper texts and submits;
- the page frame: title, cart badge, dark mode, logout, sidebar and search box;
- the search page: its filter parameters, the catalog query text built from them, and the filter handlers;
- the order-history fetch state machine;
- the error-message selector.

## How the model is laid out

- There is one Dafny module per core source file. `Models` holds the shared records (cart line, product, address, user, order).
- `Store.Session` is the running application as a page sees it. Its fields are:
  - the store's state;
  - the cookie jar, a map from cookie name to decoded value;
  - the router query;
  - the routes pushed so far;
  - the snackbar notices on screen.
- `Store.Session.Dispatch` applies the pure function `Store.Reduce`, plus the cookie write of the add and remove cases.
- Page-local React state is a small class per page (`Payment.PaymentScreen`, `Layout.LayoutScreen`, …).
- Each event handler is a method. It receives the network's answer as a parameter: the fetched stock, the order id, the returned user, or the request error (`Errors.Reply`). Its `ensures` then gives the whole new state of the session.
- `Store.Persisted(state, jar)` means the cookies decode to the state in memory, so a reload would see the same session. Every handler that writes cookies proves that it preserves `Persisted`. The one exception is the successful order, where the store and the cookie drift apart (`PlaceOrder.SuccessBreaksPersistence`).

## Notes on the source as written

The model follows `utils/store.tsx` as it stands:

- The reducer has no case for `CART_CLEAR` or `SAVE_PAYMENT_METHOD`, and its `State` has no payment-method field. Both dispatches fall through to the default case and leave the state unchanged (`Store.Reduce`). Two consequences follow:
  - The place-order page reads `state.cart.paymentMethod`, which is always undefined, so its arrival guard always sends the visitor back to the payment step (`PlaceOrder.GuardAlwaysRedirects`).
  - A successful order keeps the lines in memory while it removes their cookie.
- The pages import an `ActionType` enumeration that `utils/store.tsx` does not export. The model gives each action the string the reducer's `switch` compares against.
- `filterSearch` writes its `searchQuery` argument under the router key `searchQuery`, but the query builder reads the key `query` (pages/search.tsx:58, 142). No caller passes that argument. Passing it would leave every search parameter unchanged (`Search.SearchQueryIgnored`).
- The cart badge shows the number of lines, not the number of units.
- The user menu passes `loginMenuCloseHandler` as its `onClose` (components/Layout.tsx:275), which the menu calls with the close reason as second argument. Closing the menu by a click outside therefore pushes the text `backdropClick` as a route. `Layout.LayoutScreen.LoginMenuCloseHandler` pushes any non-empty `redirect`, this one included.
- The second payment option's value is spelled `Sripe`. The third price option is labelled "$201 to $100" but its value is `201-1000`.

## Model

| member | source | states |
|---|---|---|
| Errors.GetError | utils/error.ts:1-5 | the server's message when a response, its body and a non-empty message all exist; otherwise the client's own message, for each way the nested record can be missing, including an empty message; never empty when the client's message is not |
| Store.FindByKey | utils/store.tsx:54-56 | `find` by key: no result exactly when no line has the key; a result is a line of the cart carrying the key |
| Store.FindByKeyFirst | utils/store.tsx:54-56 | the line found is the first one carrying the key |
| Store.ReplaceByKey | utils/store.tsx:57-60 | the `map` of the add case: same length, each line with the key becomes the payload, every other line is kept |
| Store.RemoveByKey | utils/store.tsx:66-68 | the `filter` of the remove case: exactly the lines whose key differs remain, and the list never grows |
| Store.RemoveByKeyAppend | utils/store.tsx:66-68 | the filter distributes over concatenation, so the kept lines keep their relative order |
| Store.RemoveAbsentKey | utils/store.tsx:66-68 | removing a key no line carries leaves the list equal |
| Store.AddItem | utils/store.tsx:53-61 | the add case: with the key present, same length and order, and matching lines replaced by the payload (no summing); with a new key, the payload appended at the end |
| Store.AddItemStoresPayload | utils/store.tsx:57-61 | after an add, the line found under the key is the payload itself, and so is every line under that key |
| Store.AddItemDistinctIsUpdate | utils/store.tsx:57-61 | in a cart with distinct keys, an add under the key of line i overwrites exactly line i |
| Store.AppendFresh | utils/store.tsx:57-63 | an add under a key no line carries appends the payload and changes no other part of the state |
| Store.AddPreservesDistinct | utils/store.tsx:54-61 | the add case keeps keys pairwise distinct |
| Store.RemovePreservesDistinct | utils/store.tsx:66-68 | the remove case keeps keys pairwise distinct |
| Store.ReducePreservesDistinct | utils/store.tsx:46-94 | every action keeps the cart's keys pairwise distinct |
| Store.RemoveThenAddAppends | utils/store.tsx:52-71 | a remove followed by an add under the same key puts the line at the end, not back in its old place |
| Store.RunAddsDistinctNew | utils/store.tsx:52-63 | dispatching adds of new, distinct keys appends them all in dispatch order and changes nothing else |
| Store.RepeatedAddReplaces | utils/store.tsx:57-61 | two adds under one key leave a single line holding the second quantity |
| Store.Reduce | utils/store.tsx:46-94 | field by field: dark mode is set only by the two mode actions; the user is set by login and cleared by logout; the address is replaced by the save action and emptied by logout; the lines change only by add, remove and logout; `CART_CLEAR`, `SAVE_PAYMENT_METHOD` and any other type return the state unchanged |
| Store.InitialState | utils/store.tsx:26-39 | dark mode is on exactly when the cookie reads `ON`; the lines, the address and the user are the values decoded from their cookies when present and of the right kind, else the empty list, the empty address and no user |
| Store.OtherCookiesUnread | utils/store.tsx:26-39 | writing or removing any cookie other than the four state cookies does not change the start-up state |
| Store.CartDispatchPersists | utils/store.tsx:52-71 | the add and remove cases write the new line list to its cookie, so cookies that held the state still hold the new state |
| Store.AddressSavePersists | pages/shipping.tsx:52-61 | saving an address and writing its cookie keeps cookies and state in step |
| Store.LoginPersists | pages/login.tsx:47-49 | dispatching a login and writing the user cookie keeps cookies and state in step |
| Store.DarkModeTogglePersists | components/Layout.tsx:89-95 | flipping the mode and writing the flipped flag as `ON`/`OFF` keeps cookies and state in step |
| Store.LogoutPersists | components/Layout.tsx:114-122 | the logout dispatch plus removing the user, lines, address and payment-method cookies keeps cookies and state in step, dark mode included |
| Store.Session.constructor | utils/store.tsx:100-104 | the store starts from the state decoded from the cookies present, which therefore persist it |
| Store.Session.Dispatch | utils/store.tsx:46-94 | the new state is the reducer's; the jar changes only by the `cartItems` write of the add and remove cases |
| Store.Session.SetCookie | utils/store.tsx:62 | `Cookies.set`: the jar holds the value under the name; state, query, routes and notices unchanged |
| Store.Session.RemoveCookie | pages/placeorder.tsx:97 | `Cookies.remove`: the name is gone from the jar; nothing else changes |
| Store.Session.Push | pages/index.tsx:59 | `router.push`: the target is appended to the routes pushed; nothing else changes |
| Store.Session.Notify | pages/index.tsx:55-57 | `enqueueSnackbar`: the notice is appended; nothing else changes |
| Store.Session.CloseNotices | pages/profile.tsx:45 | `closeSnackbar`: no notice stays open; nothing else changes |
| Store.CookiesAfterDispatch | utils/store.tsx:52-71 | definition only: the add and remove cases write the new line list under `cartItems`, other actions write nothing |
| Store.Run | utils/store.tsx:100-104 | definition only: the reducer applied to the dispatched actions one after another, in order |
| Store.CookieText | utils/store.tsx:27 | definition only: the text of a plain-text cookie, empty when it is absent |
| Store.Persisted | utils/store.tsx:26-39 | definition only: the cookies decode to the state in memory |
| Store.Authorization | pages/placeorder.tsx:90 | definition only: `Bearer ` followed by the user's token, or by `undefined` without a user |
| CartPage.SumsAppend | pages/cart.tsx:168-170 | the unit count and the amount both split over a concatenation of carts |
| CartPage.ItemCount | pages/cart.tsx:168 | definition only: the left-to-right sum of the quantities (its laws: SumsAppend, SumsUpdate) |
| CartPage.LineAmount | pages/cart.tsx:170 | definition only: quantity times price |
| CartPage.Subtotal | pages/cart.tsx:170 | definition only: the left-to-right sum of the line amounts (its laws: SumsAppend, SumsUpdate) |
| CartPage.UpdatedLine | pages/cart.tsx:59-67 | definition only: the cart line with only its quantity replaced |
| CartPage.SumsUpdate | pages/cart.tsx:168-170 | overwriting one line changes each sum by exactly that line's difference |
| CartPage.UpdateLineSums | pages/cart.tsx:168-170 | changing the quantity of a line shifts the unit count by the change and the amount by the change times the price |
| CartPage.AcceptedUpdateSums | pages/cart.tsx:57-68 | an accepted quantity change on a cart with distinct keys keeps the line count and shifts both sums by that line's change only |
| CartPage.AcceptedUpdateWithinStock | pages/cart.tsx:50-68 | after an accepted change, every line under the key holds the chosen quantity, which the fetched stock covers, and keeps its old `countInStock` snapshot |
| CartPage.QuantityOptions | pages/cart.tsx:136-142 | the selector offers 1 up to `countInStock`, in order, and exactly those values; a negative count gives no options (`Array(n)` throws a `RangeError`) |
| CartPage.UpdateCartHandler | pages/cart.tsx:42-73 | stock below the quantity: only an out-of-stock notice; otherwise a dispatched add of the line with only its quantity replaced, the lines cookie written, and a success notice; no navigation; persistence kept |
| CartPage.RemoveItemHandler | pages/cart.tsx:75-77 | dispatches the removal of the line, writes the lines cookie, keeps persistence |
| CartPage.CheckoutHandler | pages/cart.tsx:175 | goes to `/shipping` and touches nothing else |
| Home.DesiredQuantity | pages/index.tsx:31-32 | the existing line's quantity plus one when the product id is a cart key, else 1 |
| Home.AddPayload | pages/index.tsx:44-52 | definition only: the product id as key, the listing's name, `countInStock`, slug and price, the thumbnail URL and the quantity |
| Home.DesiredQuantityOfLine | pages/index.tsx:31-32 | in a cart with distinct keys, the desired quantity is the quantity of the one line under the id, plus one |
| Home.AcceptedAddWithinStock | pages/index.tsx:37-53 | after an accepted add, every line under the id holds the desired quantity, which the fetched stock covers, and the listing's `countInStock`, not the fetched one |
| Home.AcceptedAddCountsOneMore | pages/index.tsx:31-53 | an accepted add on a cart with distinct keys puts exactly one more unit in the cart |
| Home.AddToCartHandler | pages/index.tsx:30-60 | stock below the desired quantity: only an error notice, with no dispatch and no navigation; otherwise the add of the payload under the product id, the lines cookie, a success notice and the route `/cart`; persistence kept |
| Search.ParamsOf | pages/search.tsx:56-62 | an absent parameter reads `all` (`default` for the sort); a present one is taken as it is |
| Search.Lookup | pages/search.tsx:55-61 | definition only: the entry under the key, or the default |
| Search.Split | pages/search.tsx:100-101 | `split('-')` gives at least one piece, and no piece holds the separator |
| Search.Join | pages/search.tsx:100-101 | definition only: the pieces with the separator between them, the inverse stated by JoinSplit and SplitJoin |
| Search.JoinSplit | pages/search.tsx:100-101 | joining the pieces of a split gives the text back |
| Search.SplitJoin | pages/search.tsx:100-101 | splitting a join of separator-free pieces gives the pieces back |
| Search.NumberText | pages/search.tsx:100-105 | the text of `Number(...)` is `NaN` or a canonical digit string; a missing piece gives `NaN` (its values: CanonicalNumberText, LeadingZerosNumberText) |
| Search.StripLeadingZeros | pages/search.tsx:100-105 | the result is the input with its leading zeros cut off: a suffix of it, everything before it `0`, itself not starting with `0` |
| Search.CanonicalNumberText | pages/search.tsx:100-105 | a canonical digit string reads as itself |
| Search.StripZerosPrefix | pages/search.tsx:100-105 | zeros in front of a text do not change what is left once they are stripped |
| Search.LeadingZerosNumberText | pages/search.tsx:100-105 | a canonical digit string behind any run of zeros reads as itself |
| Search.LeadingZeroExample | pages/search.tsx:100-105 | `"050"` reads as `50` |
| Search.NumberTextIdempotent | pages/search.tsx:100-105 | reading a number's text as a number gives the same text |
| Search.OrderClause | pages/search.tsx:107-112 | `lowest`, `highest` and `toprated` map to their order clauses; any other sort gives none |
| Search.CategoryClause | pages/search.tsx:93-95 | definition only: ` && category match "<category>" ` unless the category is `all` |
| Search.NameClause | pages/search.tsx:96-98 | definition only: ` && name match "<query>" ` unless the query is `all` |
| Search.PriceBounds | pages/search.tsx:100-101 | definition only: the number texts of the first and second pieces of the split on `-` |
| Search.PriceClause | pages/search.tsx:99-103 | definition only: the two price bounds unless the price is `all` |
| Search.RatingClause | pages/search.tsx:104-106 | definition only: the rating bound unless the rating is `all` |
| Search.Filters | pages/search.tsx:93-106 | definition only: the four clauses in the order category, name, price, rating |
| Search.QueryText | pages/search.tsx:92-114 | definition only: the product filter, the clauses, `] ` and the order clause (its shape: QueryShape) |
| Search.BuildQuery | pages/search.tsx:92-114 | the `+=` assembly yields the product filter, the clauses in the order category, name, price, rating, then `] ` and the order clause |
| Search.QueryShape | pages/search.tsx:92-114 | every query starts with `*[_type == "product"` and ends with `] ` followed by the order clause |
| Search.ClausePresence | pages/search.tsx:93-106 | each filter clause is present exactly when its parameter is not `all` |
| Search.DefaultQuery | pages/search.tsx:56-114 | with an empty router query the text asks for every product, unordered |
| Search.PriceRangeBounds | pages/search.tsx:99-102 | a range `a-b` of canonical numbers has lower bound a and upper bound b |
| Search.PriceRangeClause | pages/search.tsx:99-102 | such a range yields the clause bounding the price at a and b |
| Search.FirstPriceOptionBounds | pages/search.tsx:39-102 | the first price option `1-50` bounds the price between 1 and 50 |
| Search.Supplied | pages/search.tsx:142-146 | the entries `filterSearch` writes: one per truthy argument, under its own name and with its value, and no others |
| Search.Write | pages/search.tsx:142-146 | definition only: `if (value) query[key] = value` |
| Search.Writes | pages/search.tsx:142-146 | definition only: the five writes in the page's order (their meaning: WritesOverride) |
| Search.WritesOverride | pages/search.tsx:142-146 | the five conditional writes in the page's order amount to overriding the query with those entries |
| Search.FilterSearch | pages/search.tsx:126-149 | the router query is overridden by the supplied entries and pushed again on the same path; state, cookies and notices are untouched |
| Search.FilterKeepsOthers | pages/search.tsx:139-148 | an entry without a supplied value keeps its old value |
| Search.ChoiceReadsBack | pages/search.tsx:151-165 | a category, sort, price or rating choice is read back as that parameter on the next render |
| Search.SearchQueryIgnored | pages/search.tsx:142 | the `searchQuery` argument alone leaves every search parameter as it was |
| Search.SearchScreen.constructor | pages/search.tsx:69-74 | the page starts loading, with no products and no error |
| Search.SearchScreen.FetchData | pages/search.tsx:90-122 | the query text sent is the built one; loading ends with the products and no error, or with no products and the client's message |
| Search.SearchScreen.View | pages/search.tsx:274-277 | spinner exactly while loading, else the alert exactly when there is an error text, else the product grid |
| Search.AddToCartHandler | pages/search.tsx:167-197 | the same quantity, stock-check and abort rule as the home page, with the same outcomes |
| PlaceOrder.Round2 | pages/placeorder.tsx:48 | the result is within half a cent of the input and is a whole number of cents |
| PlaceOrder.ItemsPrice | pages/placeorder.tsx:49-51 | definition only: the rounded subtotal of the cart (its properties: PricesFacts) |
| PlaceOrder.ShippingPrice | pages/placeorder.tsx:52 | definition only: 0 above 200, else 15 |
| PlaceOrder.TaxPrice | pages/placeorder.tsx:53 | definition only: the rounded 15 % of the items price |
| PlaceOrder.TotalPrice | pages/placeorder.tsx:54 | definition only: the rounded sum of the three other prices |
| PlaceOrder.PricesOf | pages/placeorder.tsx:49-54 | definition only: the four prices of a cart, each from the ones before it (its properties: PricesFacts) |
| PlaceOrder.Round2Idempotent | pages/placeorder.tsx:48 | rounding a rounded amount changes nothing |
| PlaceOrder.Round2Examples | pages/placeorder.tsx:48 | 123.456 and 123.455 round to 123.46, 19.999 to 20, 0 to 0 |
| PlaceOrder.PricesFacts | pages/placeorder.tsx:49-54 | items price is the rounded subtotal; shipping is 0 exactly above 200 and 15 otherwise; tax is within half a cent of 15 %; the total is within a cent of items, shipping and tax; all four are whole cents |
| PlaceOrder.EmptyCartPrices | pages/placeorder.tsx:49-54 | an empty cart costs 0 items, 15 shipping, 0 tax, 15 in total |
| PlaceOrder.PriceExamples | pages/placeorder.tsx:49-54 | two units at 90 pay shipping (total 222), two at 125 do not (total 287.5) |
| PlaceOrder.OrderItems | pages/placeorder.tsx:76-80 | one order line per cart line, in the same order |
| PlaceOrder.OrderItemOf | pages/placeorder.tsx:76-80 | definition only: the cart line without `countInStock` and `slug` (what it keeps: OrderItemKeepsTheRest) |
| PlaceOrder.StatePaymentMethod | pages/placeorder.tsx:41 | definition only: always undefined, since the state has no payment-method field |
| PlaceOrder.OrderItemKeepsTheRest | pages/placeorder.tsx:76-80 | an order line loses only `countInStock` and `slug` |
| PlaceOrder.RequestOf | pages/placeorder.tsx:73-93 | the payload carries the trimmed lines, the address, the state's payment method and the four prices of the cart |
| PlaceOrder.GuardAlwaysRedirects | pages/placeorder.tsx:59-62 | no state carries a payment method, so the guard's condition always holds |
| PlaceOrder.SuccessBreaksPersistence | pages/placeorder.tsx:95-98 | after a successful order on a non-empty cart the lines stay in the state while their cookie is gone, so the cookies no longer hold the state |
| PlaceOrder.PlaceOrderScreen.constructor | pages/placeorder.tsx:33 | the page starts not loading |
| PlaceOrder.PlaceOrderScreen.OnArrive | pages/placeorder.tsx:56-68 | without a truthy payment method the page goes to `/payment`; since the state never carries one, every arrival goes to `/payment`; nothing else changes |
| PlaceOrder.PlaceOrderScreen.PlaceOrderHandler | pages/placeorder.tsx:70-103 | the request sent is the one built from the state; success dispatches the clear action, removes the lines cookie and goes to `/order/<id>`; failure shows the error text and leaves cookies and route; loading ends either way |
| Forms.CodeUnits | pages/login.tsx:99 | a character takes one UTF-16 code unit, or two outside the Basic Multilingual Plane |
| Forms.Utf16Length | pages/login.tsx:99 | JavaScript `.length`: at least the number of characters, at most twice it, and zero exactly for the empty text |
| Forms.Utf16LengthAppend | pages/login.tsx:99 | the length of a concatenation is the sum of the lengths |
| Forms.Utf16LengthBmp | pages/login.tsx:99 | a text inside the Basic Multilingual Plane is as long in code units as in characters |
| Forms.Utf16LengthExamples | pages/login.tsx:99 | one emoji is two code units long |
| Forms.EmailHasOneAt | pages/login.tsx:70 | an address matching the pattern has exactly one `@` |
| Forms.IsEmail | pages/login.tsx:70 | definition only: the e-mail pattern written out as a predicate (its meaning: EmailHasOneAt, EmailExamples) |
| Forms.Satisfies | pages/login.tsx:68-100 | definition only: a value passes each rule its field has, lengths in UTF-16 code units; length and pattern skip an empty value |
| Forms.OptionalPassword | pages/profile.tsx:124-125 | definition only: empty, or longer than five UTF-16 code units |
| Forms.EmailExamples | pages/login.tsx:70 | `ann@example.com` matches; an upper-case letter or a missing top-level part does not |
| Forms.FieldError | pages/login.tsx:68-100 | no error exactly when every rule holds; the required error exactly for a missing required value; each other error only when its own rule fails, lengths counted in UTF-16 code units |
| Forms.LengthRuleMeanings | pages/register.tsx:74-137 | the name rule accepts two or more UTF-16 code units and the password rule six or more; the profile rule accepts empty or more than five; an empty name is a required error, a one-unit name a length error |
| Forms.EmailRuleMeaning | pages/login.tsx:68-71 | the e-mail rule accepts exactly the matching addresses; a non-matching non-empty one is a pattern error |
| Forms.LengthHelperText | pages/shipping.tsx:85-90 | the helper text is empty exactly when the field has no error |
| Forms.EmailHelperText | pages/login.tsx:80-86 | the helper text is empty exactly when the field has no error |
| Forms.ProfilePasswordHelperText | pages/profile.tsx:130-132 | the helper text is empty exactly when the field has no error |
| Forms.HelperTextsDistinguish | pages/shipping.tsx:85-90 | a too-short and a missing value get different texts, and so do a malformed and a missing address |
| Payment.PaymentScreen.constructor | pages/payment.tsx:21 | the selection starts empty |
| Payment.PaymentScreen.OnArrive | pages/payment.tsx:31-37 | without a street address the page goes to `/shipping`; with one, the selection is preloaded from the cookie, or empty |
| Payment.PaymentScreen.Choose | pages/payment.tsx:61-81 | a click selects one of `Paypal`, `Sripe`, `Cash` |
| Payment.PaymentScreen.SubmitHandler | pages/payment.tsx:39-49 | an empty selection gives only the notice "Payment method is required"; otherwise the dispatch leaves the state unchanged, the cookie holds the method and the page goes to `/placeorder`; persistence kept |
| Payment.PaymentScreen.Back | pages/payment.tsx:96 | goes to `/shipping` and touches nothing else |
| Shipping.AddressValidMeans | pages/shipping.tsx:78-172 | the form passes exactly when each of the five fields has two UTF-16 code units or more |
| Shipping.AddressValid | pages/shipping.tsx:78-172 | definition only: every one of the five fields passes its rules (their meaning: AddressValidMeans) |
| Shipping.HelperTexts | pages/shipping.tsx:85-170 | all five helper texts are empty exactly when the form passes |
| Shipping.ShippingScreen.OnArrive | pages/shipping.tsx:29-43 | without a user the page goes to `/login?redirect=/shipping` and fills nothing; with one, the five fields come from the saved address |
| Shipping.ShippingScreen.SubmitHandler | pages/shipping.tsx:45-64 | a failing form does nothing; otherwise the five fields are saved in the state and in their cookie, and the page goes to `/payment`; persistence kept |
| Shipping.ShippingScreen.Edit | pages/shipping.tsx:75-172 | the form holds the values typed into the five inputs |
| Login.LoginFormValidMeans | pages/login.tsx:68-100 | the form passes exactly when the address matches and the password has six UTF-16 code units |
| Login.LoginFormValid | pages/login.tsx:68-100 | definition only: both fields pass their rules (their meaning: LoginFormValidMeans) |
| Login.HelperTexts | pages/login.tsx:80-114 | both helper texts are empty exactly when the form passes |
| Login.OnArrive | pages/login.tsx:26-30 | a signed-in visitor is sent to `/`; nothing else changes |
| Login.SubmitHandler | pages/login.tsx:40-54 | a failing form sends nothing; success signs the user in, writes the user cookie and goes to `/`; failure shows the error text with no dispatch and no cookie write; persistence kept |
| Register.RedirectTarget | pages/register.tsx:24 | the `redirect` parameter when present and not empty, else `/` |
| Register.RegisterFormValidMeans | pages/register.tsx:74-137 | the form passes exactly when the name has two UTF-16 code units, the address matches and both passwords have six |
| Register.RegisterFormValid | pages/register.tsx:74-137 | definition only: the four fields pass their rules (their meaning: RegisterFormValidMeans) |
| Register.HelperTexts | pages/register.tsx:80-146 | all four helper texts are empty exactly when the form passes |
| Register.OnArrive | pages/register.tsx:22-26 | a signed-in visitor is sent to the redirect target |
| Register.SubmitHandler | pages/register.tsx:36-61 | a mismatch shows "Passwords don't match" and sends nothing; success signs the user in, writes the cookie and goes to the redirect target; failure shows the error text and leaves the state; persistence kept |
| Profile.ProfileFormValidMeans | pages/profile.tsx:83-142 | the form passes exactly when the name has two UTF-16 code units, the address matches, and each password is empty or longer than five |
| Profile.ProfileFormValid | pages/profile.tsx:83-142 | definition only: the four fields pass their rules (their meaning: ProfileFormValidMeans) |
| Profile.HelperTexts | pages/profile.tsx:90-150 | all four helper texts are empty exactly when the form passes |
| Profile.ProfileScreen.OnArrive | pages/profile.tsx:32-37 | without a user the page goes to `/login`; name and e-mail are filled from the user (empty without one) |
| Profile.ProfileScreen.SubmitHandler | pages/profile.tsx:39-70 | open notices are closed first; a mismatch leaves only the mismatch notice and sends nothing; the request carries the user's token; success replaces the user and its cookie and leaves only the success notice; failure leaves only the error text |
| Profile.ProfileScreen.Edit | pages/profile.tsx:80-150 | the form holds the values typed into the four inputs |
| Layout.Title | components/Layout.tsx:165 | `<title> - Sanity Amazon` for a truthy title, else `Sanity Amazon` |
| Layout.TitleNamesSite | components/Layout.tsx:165 | every title ends with the site name and starts with the given title |
| Layout.CartBadge | components/Layout.tsx:247-256 | a badge exactly when the cart has lines, showing their number |
| Layout.CategoryHref | components/Layout.tsx:212 | the sidebar link is `/search?category=` followed by the category: the prefix, then exactly the category text |
| Layout.SearchHref | components/Layout.tsx:159 | the search route is `/search?query=` followed by the typed text: the prefix, then exactly that text |
| Layout.LayoutScreen.constructor | components/Layout.tsx:124-126 | menu and sidebar closed, no categories, empty search text |
| Layout.LayoutScreen.DarkModeChangeHandler | components/Layout.tsx:89-95 | dispatches off when on and on when off, flips only the mode, writes `ON`/`OFF` of the new mode into its cookie; persistence kept |
| Layout.LayoutScreen.LoginClickHandler | components/Layout.tsx:108-112 | the user menu opens |
| Layout.LayoutScreen.LoginMenuCloseHandler | components/Layout.tsx:97-106 | the menu closes and the page goes to the chosen route when there is one |
| Layout.LayoutScreen.LogoutClickHandler | components/Layout.tsx:114-122 | the menu closes, the state is the logout's, exactly the four cookies are removed, the dark-mode cookie is kept, and the page goes to `/`; persistence kept |
| Layout.LayoutScreen.SidebarOpenHandler | components/Layout.tsx:128-130 | the sidebar opens |
| Layout.LayoutScreen.SidebarCloseHandler | components/Layout.tsx:132-134 | the sidebar closes |
| Layout.LayoutScreen.QueryChangeHandler | components/Layout.tsx:151-155 | the search text becomes the typed value |
| Layout.LayoutScreen.SubmitHandler | components/Layout.tsx:157-160 | goes to `/search?query=<typed text>` |
| Layout.LayoutScreen.FetchCategories | components/Layout.tsx:136-147 | the categories on success; on failure an error notice with the error text and the old list |
| OrderHistory.HistoryReduce | pages/order-history.tsx:41-56 | request: loading and no error, orders kept; success: loaded, no error, the payload's orders; failure: loaded with the message, orders kept; any other action: the same state |
| OrderHistory.View | pages/order-history.tsx:97-101 | spinner exactly while loading, else the alert exactly when there is an error, else the table of the orders |
| OrderHistory.FetchOutcomes | pages/order-history.tsx:77-88 | a request and its answer always end loaded: a success shows exactly its orders, a failure with a message shows it and keeps the old orders |
| OrderHistory.EmptyFailureShowsStaleOrders | pages/order-history.tsx:49-101 | a failure with an empty message shows the table of the last success, not an alert |
| OrderHistory.FirstFetch | pages/order-history.tsx:58-62 | the initial state shows the spinner; the first answer shows its orders, the error, or an empty table for an empty message |
| OrderHistory.OrderHistoryScreen.constructor | pages/order-history.tsx:65-68 | the page starts from the initial state |
| OrderHistory.OrderHistoryScreen.OnArrive | pages/order-history.tsx:74-90 | without a user the page goes to `/login` and the fetch is made anyway, with the user's token header; the state is the request followed by the answer, and loading ends |

## Left out

- Network calls, `async`/`await`, unmounting and re-renders. Each answer (fetched stock, order id, user record, category list, request error) is a parameter of a sequential method. A handler sees the state as it was when it started.
- The stock request of the add and update handlers (pages/index.tsx:33, pages/cart.tsx:46, pages/search.tsx:170) is awaited without `try`/`catch`. When it fails, the handler stops with an unhandled rejection: no notice, no dispatch, no navigation. The model takes the fetched stock as a parameter and has no failure case for it.
- The API route handlers, `utils/auth.ts`, `utils/client.ts` and `utils/image.ts`. The catalog client's answer is a parameter, and the thumbnail URL the image builder returns is a parameter of the add handlers.
- models/user.ts and models/shippingAddress.ts are not part of this model. The user and address records carry the fields the pages read.
- Rendering and theming: MUI components, `CheckoutWizard`, `FormInput`, `ProductItem`, the theme. Where a page's output matters, it is modelled as a function (`View`, `Title`, `CartBadge`, `HelperTexts`).
- The router, snackbars and cookies are recorded effects only: the routes pushed, the notices shown and the jar. A push does not mount the next page.
- Cookie values are held decoded, with no JSON text. A cookie whose text is not the JSON of the expected record is not modelled. The `sameSite` options are left out.
- The e-mail regular expression is a hand-written predicate (`Forms.IsEmail`), not a regex engine.
- react-hook-form is reduced to its field rules. The library calls a submit handler only when every rule holds, and that gate is a branch at the start of each modelled handler.
- Round2: prices are exact reals, not binary floating point, and the `Number.EPSILON` nudge is ignored.
- NumberText: models `Number()` only for strings of digits with at most fifteen significant digits (those convert exactly). Signs, decimals, exponents, whitespace and longer numbers give `NaN` in the model, although JavaScript converts them.
- Search.ParamsOf: router query entries are single strings. Array-valued entries (a key repeated in the URL) are not modelled.
- Search.SearchScreen.FetchData: a field that a `setState` call leaves out becomes undefined in the source. The model uses the empty list or empty text there.
- The search page's own category fetch (pages/search.tsx:80-88) is left out. Its failure is only written to the console, and its list feeds the rendering alone.
- Profile.ProfileScreen.OnArrive: without a user, the source sets the name and e-mail fields to undefined. The model uses the empty text.
- Shipping.ShippingScreen.OnArrive: the empty address `{}` the store starts from is modelled as the address whose five fields are empty.
- Layout.LayoutScreen.SubmitHandler: the source mentions `e.preventDefault` without calling it, so the browser also submits the form natively. Only the router push is modelled.
- The loading spinners are left out beyond the page's boolean flag; `isMounted` in the place-order effect is left out.
- Payment.PaymentScreen.Choose: the radio group offers only its three values and the model requires one of them, so a method preloaded from the cookie can still be any text.
