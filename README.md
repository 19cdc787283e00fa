# Storefront core in Dafny

This project models the client-side logic of a Next.js storefront and proves properties of it.
It covers these parts:

- the two cart stores;
- the cart's pricing rules: free shipping strictly above $100, 15 % tax rounded to the cent;
- the cart page's quantity controls;
- the three-step checkout page, with its payment-intent effect and order payload;
- the card-payment form;
- the authentication store;
- the shop page's filters and sort orders;
- the admin dashboard's figures and access rules;
- the navigation bar's badge and links;
- the HTTP client's base URL and bearer-token interceptor.

Money is held as integer cents throughout. `Wrappers` gives JavaScript's `undefined` as
`Option` and a backend or payment-processor result as `Outcome`. `a || b` on optional strings
is `OrElse`, and `msg || "fallback"` is `MessageOr`.

Components whose state the source updates in place are classes:

- `CartContext.CartStore`, `UseCartStore.CartStore` and `AuthStore.AuthStore`;
- `Checkout.CheckoutPage` and `Shop.ShopPage`;
- `StripePaymentForm.PaymentForm`;
- `Api.RequestConfig`.

Each method states its new state in terms of pure functions, and the lemmas about those
functions carry the properties.

Behaviours of the code worth knowing:

- $100.00 of goods costs $125.00 in total: $10.00 shipping, because the waiver needs strictly
  more than $100, plus $15.00 tax (`CartContext.PricingExamples`).
- `addToCart` never clamps. The product page and the cart page clamp only the value their own
  controls produce, so two adds from the product page can take a line above the stock.
- The checkout page never calls `setPaymentType`. The payment type is therefore the one saved
  in the cart, "Credit Card" by default.
- The second cart store (store/useCartStore.ts) replaces a matching entry instead of adding to
  its quantity. Its `===` test on an absent `_id` makes any two catalogue products match.

## Model

| member | source | states |
|---|---|---|
| Wrappers.OrElse | app/checkout/page.tsx:27-37 | `a \|\| b`: `a` when it is a non-empty string, else `b` |
| Wrappers.MessageOr | store/useAuthStore.ts:54 | `msg \|\| fallback`: the message when it is non-empty, else the fallback |
| Wrappers.FailureMessage | store/useAuthStore.ts:54 | a failure's message when it is non-empty, else the fallback; the same rule serves app/checkout/page.tsx:107 |
| CartContext.ProductKey | context/CartContext.tsx:72 | a product's cart id is `id`, or `_id` when `id` is missing or empty |
| CartContext.FindIndex | context/CartContext.tsx:72 | the index of the first item with the id, or -1 exactly when there is none |
| CartContext.RemoveItem | context/CartContext.tsx:91-93 | the result holds exactly the items whose id differs |
| CartContext.ShippingFor | context/CartContext.tsx:113 | shipping is 0 exactly when the subtotal is strictly above $100, else $10 |
| CartContext.ItemsPrice | context/CartContext.tsx:110-112 | definition: the sum of the line totals; see CartContext.PricesIndependentOfOrder and Checkout.OrderLinesSumToItemsPrice |
| CartContext.LineTotal | context/CartContext.tsx:111 | definition: a line's price times its quantity; see CartPage.LineTotalIsSubtotalOfOneLine |
| CartContext.TaxOn | context/CartContext.tsx:114 | tax is 15 % of the subtotal to the nearest cent |
| CartContext.TotalPrice | context/CartContext.tsx:115 | definition: subtotal plus shipping plus tax; see CartContext.PricingExamples and Checkout.OrderPayloadConsistent |
| CartContext.TaxPrice | context/CartContext.tsx:114 | definition: the tax rule applied to the subtotal; see CartContext.TaxOn |
| CartContext.ShippingPrice | context/CartContext.tsx:113 | definition: the shipping rule applied to the subtotal; see CartContext.ShippingFor |
| CartContext.AddDecimalsKeepsCents | context/CartContext.tsx:106-108 | `addDecimals` leaves every whole-cent amount unchanged |
| CartContext.AddDecimals | context/CartContext.tsx:106-108 | definition of `addDecimals` on exact reals, with halves rounded up; see CartContext.AddDecimalsKeepsCents |
| CartContext.TaxMatchesDecimalRounding | context/CartContext.tsx:114 | the cent tax equals `addDecimals(0.15 * itemsPrice)` on the dollar amount |
| CartContext.AddMergesExisting | context/CartContext.tsx:70-77 | adding a product already in the cart raises its quantity by `qty`; no line is added and no other line changes |
| CartContext.AddItem | context/CartContext.tsx:70-88 | definition of `addToCart`: merge into the matching line or append a new one; see CartContext.AddMergesExisting and CartContext.AddAppendsNew |
| CartContext.AddAppendsNew | context/CartContext.tsx:78-87 | adding a new product appends one item built from its id, name, price, image and stock |
| CartContext.AddPreservesUnique | context/CartContext.tsx:70-89 | adding keeps at most one item per id |
| CartContext.RemovePreservesUnique | context/CartContext.tsx:91-93 | removing keeps at most one item per id |
| CartContext.RemoveDeletesAt | context/CartContext.tsx:91-93 | removing a present id deletes exactly that item; the others keep their order |
| CartContext.RemoveAbsentIsNoOp | context/CartContext.tsx:91-93 | removing an absent id changes nothing |
| CartContext.RemoveDistributes | context/CartContext.tsx:91-93 | removal is an order-preserving filter: it works piecewise on concatenations |
| CartContext.RemoveBetween | context/CartContext.tsx:91-93 | removing the one item with the id from between two id-free runs leaves the two runs joined |
| CartContext.RemoveOnlyAt | context/CartContext.tsx:91-93 | when only position i holds the id, removal is exactly the deletion of position i |
| CartContext.UpdateSetsExactly | context/CartContext.tsx:95-99 | updating sets that item's quantity and nothing else |
| CartContext.UpdateItem | context/CartContext.tsx:95-99 | definition of `updateQuantity`: set the quantity of the lines with the id; see CartContext.UpdateSetsExactly |
| CartContext.UpdateAbsentIsNoOp | context/CartContext.tsx:95-99 | updating an absent id changes nothing |
| CartContext.UpdatePreservesUnique | context/CartContext.tsx:95-99 | updating keeps at most one item per id |
| CartContext.AddAllMerges | context/CartContext.tsx:70-77 | repeated adds of a present product keep one line whose quantity grows by the total added |
| CartContext.AddAllSumsQuantities | context/CartContext.tsx:70-89 | repeated adds of a new product make one new line whose quantity is the sum |
| CartContext.RemoveThenAddIsFresh | context/CartContext.tsx:70-93 | removing then adding a product gives a fresh last line with only the new quantity |
| CartContext.PricesIndependentOfOrder | context/CartContext.tsx:110-115 | subtotal, shipping, tax and total depend only on the multiset of items |
| CartContext.PricingExamples | context/CartContext.tsx:110-115 | $90 pays $10 shipping, $150 pays none, $100 pays $10 shipping and $15 tax, $125 in all |
| CartContext.CartStore.constructor | context/CartContext.tsx:33-35 | the cart starts empty, with no address and "Credit Card" |
| CartContext.CartStore.AddToCart | context/CartContext.tsx:70-89 | the items become `AddItem` of the old ones; ids stay unique; nothing else changes |
| CartContext.CartStore.RemoveFromCart | context/CartContext.tsx:91-93 | the items become `RemoveItem` of the old ones; ids stay unique; nothing else changes |
| CartContext.CartStore.UpdateQuantity | context/CartContext.tsx:95-99 | the items become `UpdateItem` of the old ones; ids stay unique; nothing else changes |
| CartContext.CartStore.ClearCart | context/CartContext.tsx:101-103 | the items become empty; address and payment method are kept |
| CartContext.CartStore.SaveShippingAddress | context/CartContext.tsx:62-64 | the address is stored; items and payment method are kept |
| CartContext.CartStore.SavePaymentMethod | context/CartContext.tsx:66-68 | the payment method is stored; items and address are kept |
| CartPage.Decrement | app/cart/page.tsx:69 | minus gives `max(1, qty - 1)` |
| CartPage.Increment | app/cart/page.tsx:78 | plus gives `min(countInStock, qty + 1)` |
| CartPage.IncrementDisabled | app/cart/page.tsx:80 | definition of the plus button's `disabled` rule; see CartPage.PressIncrementChangesOneRow |
| CartPage.ClampBounds | app/cart/page.tsx:69-80 | minus never goes below 1 and steps down from 2 or more; plus never exceeds the stock |
| CartPage.PressDecrementChangesOneRow | app/cart/page.tsx:69 | minus changes only the clicked row's quantity |
| CartPage.PressDecrement | app/cart/page.tsx:69 | definition: the cart after minus on a row; see CartPage.PressDecrementChangesOneRow and CartPage.ControlsKeepWithinStock |
| CartPage.PressIncrementChangesOneRow | app/cart/page.tsx:78-80 | a disabled plus does nothing; an enabled one raises only the clicked row by one |
| CartPage.PressIncrement | app/cart/page.tsx:78-80 | definition: the cart after plus on a row; see CartPage.PressIncrementChangesOneRow and CartPage.ControlsKeepWithinStock |
| CartPage.ControlsKeepWithinStock | app/cart/page.tsx:69-80 | both controls keep every quantity within 1 and the stock |
| CartPage.PressRemoveDeletesRow | app/cart/page.tsx:56 | remove deletes exactly the clicked row |
| CartPage.PressRemove | app/cart/page.tsx:56 | definition: the cart after remove on a row; see CartPage.PressRemoveDeletesRow |
| CartPage.LineTotalIsSubtotalOfOneLine | app/cart/page.tsx:90 | a row's total, price times quantity, is the subtotal of a one-line cart |
| CartPage.ShowsFreeShipping | app/cart/page.tsx:109 | definition of the "Free" shipping label; see CartPage.FreeShippingShownAboveThreshold |
| CartPage.FreeShippingShownAboveThreshold | app/cart/page.tsx:109 | the shipping row reads "Free" exactly when the subtotal is strictly above $100 |
| Navbar.EmptyCartShowsNoBadge | components/Navbar.tsx:12 | an empty cart counts 0 and shows no badge |
| Navbar.BadgeShown | components/Navbar.tsx:74 | definition of the badge condition; see Navbar.EmptyCartShowsNoBadge |
| Navbar.CartQuantity | components/Navbar.tsx:12 | definition: the sum of the lines' quantities; see Navbar.AddRaisesQuantity and Navbar.RemoveLowersQuantity |
| Navbar.AddRaisesQuantity | components/Navbar.tsx:12 | adding `q` units raises the badge count by exactly `q` |
| Navbar.RemoveLowersQuantity | components/Navbar.tsx:12 | removing a line lowers the count by that line's quantity |
| Navbar.AdminLinkNeedsSession | components/Navbar.tsx:35-40 | in a consistent session the Admin link shows only with the Orders link, and neither shows signed out |
| Navbar.OrdersLinkShown | components/Navbar.tsx:35 | definition of the Orders link condition; see Navbar.AdminLinkNeedsSession |
| Navbar.AdminLinkShown | components/Navbar.tsx:40 | definition of the Admin link condition; see Navbar.AdminLinkNeedsSession |
| AuthStore.UserOf | store/useAuthStore.ts:40-46 | the stored user copies `_id`, names, email and admin flag from the response |
| AuthStore.AuthStore.constructor | store/useAuthStore.ts:29-33 | the store starts signed out, not loading, with no error |
| AuthStore.AuthStore.StartRequest | store/useAuthStore.ts:36 | a request sets loading and clears the error |
| AuthStore.AuthStore.FinishRequest | store/useAuthStore.ts:39-56 | success stores the user and token and signs in; failure stores the message or fallback and reports it |
| AuthStore.AuthStore.Login | store/useAuthStore.ts:35-58 | login falls back to "Failed to login"; signed in exactly when a user is held |
| AuthStore.AuthStore.Register | store/useAuthStore.ts:60-83 | register falls back to "Failed to register" |
| AuthStore.AuthStore.Logout | store/useAuthStore.ts:85-87 | logout drops user and token and signs out; flags and error are kept |
| AuthStore.AuthStore.ClearError | store/useAuthStore.ts:89 | only the error is cleared |
| StripePaymentForm.Dispatch | components/checkout/StripePaymentForm.tsx:36-41 | an error fires `onError` with its message or "Payment failed"; only a succeeded intent fires `onSuccess` |
| StripePaymentForm.PaymentForm.constructor | components/checkout/StripePaymentForm.tsx:17 | the form starts not loading |
| StripePaymentForm.PaymentForm.StartConfirmation | components/checkout/StripePaymentForm.tsx:26 | confirmation sets loading |
| StripePaymentForm.PaymentForm.FinishConfirmation | components/checkout/StripePaymentForm.tsx:36-41 | only an error turns loading off |
| StripePaymentForm.PaymentForm.HandleSubmit | components/checkout/StripePaymentForm.tsx:19-42 | without the processor or its elements nothing happens; otherwise the confirmation is dispatched, and the submit button stays disabled exactly when the payment was not declined |
| StripePaymentForm.SubmitDisabled | components/checkout/StripePaymentForm.tsx:73 | definition of the submit button's `disabled` rule; see StripePaymentForm.PaymentForm.HandleSubmit |
| Checkout.OrderItemsOf | app/checkout/page.tsx:83-89 | one order line per cart item, in order, with name, qty, image, price and product id |
| Checkout.PaymentResultOf | app/checkout/page.tsx:96-100 | no intent gives null; else id and status, and the receipt email or else the user's email |
| Checkout.OrderLinesSumToItemsPrice | app/checkout/page.tsx:83-92 | the order lines' totals sum to the items price sent with them |
| Checkout.OrderPayloadConsistent | app/checkout/page.tsx:82-101 | the payload's prices are the cart's figures and its total is their sum |
| Checkout.BuildOrder | app/checkout/page.tsx:82-101 | definition of the order payload; see Checkout.OrderPayloadConsistent |
| Checkout.InitialFormData | app/checkout/page.tsx:28-35 | a complete saved address is used as is; with nothing saved and no user, fields are empty and the country is "United States" |
| Checkout.View | app/checkout/page.tsx:113-298 | empty cart and not loading gives the empty message, else the step; the card form shows exactly for "Credit Card" with a secret |
| Checkout.CheckoutPage.CurrentView | app/checkout/page.tsx:113-298 | definition: the view of the page's current state; see Checkout.View and Checkout.PayPalRequestsNoSecret |
| Checkout.AuthRedirect | app/checkout/page.tsx:54-58 | signed out redirects to "/login?redirect=/checkout", else nothing |
| Checkout.NoStepWithEmptyCart | app/checkout/page.tsx:113-122 | with an empty cart and nothing in flight no step is shown |
| Checkout.CheckoutPage.constructor | app/checkout/page.tsx:22-38 | step 1, not loading, no error, no secret; payment type from the cart; form from the saved address and user |
| Checkout.CheckoutPage.ChangeField | app/checkout/page.tsx:63-65 | one form field changes and nothing else |
| Checkout.WithField | app/checkout/page.tsx:64 | definition: the address with one named field replaced; see Checkout.CheckoutPage.ChangeField |
| Checkout.CheckoutPage.HandleNextStep | app/checkout/page.tsx:67-76 | step 1 saves the address and goes to 2; step 2 saves the payment type and goes to 3 |
| Checkout.CheckoutPage.SubmitForm | app/checkout/page.tsx:165-196 | an incomplete shipping form is not submitted |
| Checkout.ShippingFormComplete | app/checkout/page.tsx:174-196 | definition: every `required` shipping field is non-empty; see Checkout.CheckoutPage.SubmitForm |
| Checkout.CheckoutPage.BackToShipping | app/checkout/page.tsx:233-257 | back and edit return to step 1 and keep the form |
| Checkout.CheckoutPage.BackToPayment | app/checkout/page.tsx:269-288 | edit and back return from review to step 2 |
| Checkout.CheckoutPage.RunSecretEffect | app/checkout/page.tsx:40-52 | a secret for the total is requested only at step 3 with "Credit Card" and no secret; failure sets "Could not initialize payment." |
| Checkout.ShouldRequestSecret | app/checkout/page.tsx:40-52 | definition of the effect's guard; see Checkout.CheckoutPage.RunSecretEffect and Checkout.CardSecretRequestedOnce |
| Checkout.CheckoutPage.HandlePlaceOrder | app/checkout/page.tsx:78-111 | the payload is built from the cart; success clears the cart and goes to "/orders"; failure sets the message or "Something went wrong." |
| Checkout.CheckoutPage.PayByCard | app/checkout/page.tsx:279-286 | a card payment's success places the order with the intent, then clears the cart and goes to the orders page or shows the backend's message, with the page's loading ended and the form's left set; an error only shows its message and clears the form's loading; with no callback nothing changes |
| Checkout.CardSecretRequestedOnce | app/checkout/page.tsx:40-52 | paying by card requests the secret once, for the cart total, and not again once it is held |
| Checkout.PayPalRequestsNoSecret | app/checkout/page.tsx:40-298 | with "PayPal" no secret is requested and review shows the place-order button |
| UseCartStore.FindEntry | store/useCartStore.ts:44 | the first entry matching by `id` or `_id`, or -1 exactly when none does |
| UseCartStore.RemoveEntries | store/useCartStore.ts:57-61 | the result holds exactly the entries whose `id` and `_id` both differ |
| UseCartStore.UpdateEntries | store/useCartStore.ts:63-71 | matching entries get the quantity; every product stays in place |
| UseCartStore.AddReplacesMatch | store/useCartStore.ts:41-51 | with distinct keys, adding a matching product overwrites that entry; quantities are not summed |
| UseCartStore.AddEntry | store/useCartStore.ts:41-54 | definition of this store's `addToCart`: replace every entry matching the first match, or append; see UseCartStore.AddReplacesMatch and UseCartStore.MissingDbIdsCollapseCart |
| UseCartStore.AddAppendsUnmatched | store/useCartStore.ts:52-54 | adding an unmatched product appends it |
| UseCartStore.MissingDbIdsCollapseCart | store/useCartStore.ts:44-50 | when no product has `_id`, adding anything replaces every entry with the new one |
| UseCartStore.RemoveDistributes | store/useCartStore.ts:57-61 | removal is an order-preserving filter |
| UseCartStore.RemoveAbsentIsNoOp | store/useCartStore.ts:57-61 | removing an id no entry has changes nothing |
| UseCartStore.CatalogueProductsCollide | store/useCartStore.ts:44-50 | adding catalogue product 2 to a cart holding product 1 drops product 1 |
| UseCartStore.ReplaceVersusMerge | store/useCartStore.ts:41-51 | adding a product twice keeps the second quantity here; the context cart sums them |
| UseCartStore.CartStore.constructor | store/useCartStore.ts:37-39 | the store starts empty, with no address and "Credit Card" |
| UseCartStore.CartStore.AddToCart | store/useCartStore.ts:41-55 | the entries become `AddEntry` of the old ones; nothing else changes |
| UseCartStore.CartStore.RemoveFromCart | store/useCartStore.ts:57-61 | the entries become `RemoveEntries` of the old ones |
| UseCartStore.CartStore.UpdateQuantity | store/useCartStore.ts:63-71 | the entries become `UpdateEntries` of the old ones |
| UseCartStore.CartStore.ClearCart | store/useCartStore.ts:73 | the entries become empty |
| UseCartStore.CartStore.SaveShippingAddress | store/useCartStore.ts:75 | the address is stored |
| UseCartStore.CartStore.SavePaymentMethod | store/useCartStore.ts:77 | the payment method is stored |
| Shop.Lower | app/shop/page.tsx:22 | lower-casing keeps the length and maps each character |
| Shop.FilterProducts | app/shop/page.tsx:45-56 | a product is kept exactly when it passes the category and price tests |
| Shop.PriceMatches | app/shop/page.tsx:49-54 | definition of the price test in cents; see Shop.PriceBandsCoverAndOverlap |
| Shop.CategoryMatches | app/shop/page.tsx:47 | definition of the category test; see Shop.HomeOmitsHomeAndKitchen and Shop.ClearedFiltersKeepAll |
| Shop.Insert | app/shop/page.tsx:57-62 | insertion adds exactly one product |
| Shop.SortProducts | app/shop/page.tsx:57-62 | sorting is a permutation |
| Shop.SortKey | app/shop/page.tsx:57-62 | definition: the key each sort option compares; see Shop.SortIsSorted |
| Shop.FindCategory | app/shop/page.tsx:22 | the first category matching the target ignoring case; none found means none matches |
| Shop.InitialCategory | app/shop/page.tsx:16-23 | the selection is a listed category: the one matching the parameter ignoring case, else "All" |
| Shop.InsertKeysAtLeast | app/shop/page.tsx:57-62 | inserting into a list whose keys are all at least k, a product with key at least k, keeps that bound |
| Shop.InsertSorted | app/shop/page.tsx:57-62 | inserting keeps a sorted list sorted |
| Shop.SortIsSorted | app/shop/page.tsx:57-62 | every option orders the products by its comparator |
| Shop.WithKeyCons | app/shop/page.tsx:57-62 | the products with a given key in a non-empty list are the head's contribution followed by the tail's |
| Shop.InsertStable | app/shop/page.tsx:57-62 | inserting keeps equal-keyed products in order |
| Shop.SortIsStable | app/shop/page.tsx:57-62 | products that compare equal keep their relative order |
| Shop.FeaturedKeepsOrder | app/shop/page.tsx:61 | "Featured" keeps the fetched order |
| Shop.DisplayedAreTheFiltered | app/shop/page.tsx:45-62 | the page lists exactly the filtered products, each as often, in key order |
| Shop.DisplayedProducts | app/shop/page.tsx:45-62 | definition: filter, then sort; see Shop.DisplayedAreTheFiltered |
| Shop.FilterCons | app/shop/page.tsx:45-56 | filtering a non-empty list keeps the head exactly when it passes, then filters the tail |
| Shop.FilterDistributes | app/shop/page.tsx:45-56 | filtering preserves the fetched order |
| Shop.ClearedFiltersKeepAll | app/shop/page.tsx:155-175 | with both filters at "All" every product passes |
| Shop.PriceBandsCoverAndOverlap | app/shop/page.tsx:49-54 | every price lies in a band; $100 lies in two, $50 only in "$50 to $100" and $200 only in "$100 to $200" |
| Shop.InitialCategoryExamples | app/shop/page.tsx:16-23 | "electronics" selects "Electronics"; no parameter selects "All" |
| Shop.HomeOmitsHomeAndKitchen | app/shop/page.tsx:47 | the "Home" option does not list "Home & Kitchen" products |
| Shop.ShopPage.constructor | app/shop/page.tsx:16-25 | loading, no products, the initial category, any price, "Featured" |
| Shop.ShopPage.ReceiveProducts | app/shop/page.tsx:29-42 | a successful fetch stores the products, a failure keeps them; loading ends |
| Shop.ShopPage.SelectCategory | app/shop/page.tsx:119 | only the category changes |
| Shop.ShopPage.SelectPrice | app/shop/page.tsx:137 | only the price range changes |
| Shop.ShopPage.SelectSort | app/shop/page.tsx:95 | only the sort order changes |
| Shop.ShopPage.ClearFilters | app/shop/page.tsx:155-175 | both filters reset; every fetched product is listed in the current order |
| Admin.Access | app/admin/page.tsx:40-51 | signed out goes to "/login"; a signed-in non-admin goes to "/profile"; else data loads |
| Admin.RedirectTarget | app/admin/page.tsx:41-48 | a signed-out user goes to "/login", a non-admin to "/profile", and loading the data navigates nowhere |
| Admin.TotalOrders | app/admin/page.tsx:95 | the order count is the number of fetched orders |
| Admin.PaidOrders | app/admin/page.tsx:94 | exactly the paid orders |
| Admin.RecentOrders | app/admin/page.tsx:208 | at most five orders, a prefix of the fetched list |
| Admin.DisplayId | app/admin/page.tsx:211 | `_id`, or `id` when `_id` is missing or empty, cut to its first 8 characters (all of it when shorter); nothing when both are missing, where the source's `substring` call on `undefined` throws during render |
| Admin.StatusLabel | app/admin/page.tsx:225 | "Delivered" exactly when delivered, else "Processing" |
| Admin.RenderImpliesLoad | app/admin/page.tsx:40-91 | the dashboard renders only where the effect loads data |
| Admin.RendersDashboard | app/admin/page.tsx:91 | definition of the render guard; see Admin.RenderImpliesLoad |
| Admin.RevenueIsPaidTotal | app/admin/page.tsx:94 | revenue is the sum of the paid orders' totals |
| Admin.TotalRevenue | app/admin/page.tsx:94 | definition of the revenue `reduce`; see Admin.RevenueIsPaidTotal, Admin.RevenueIgnoresOrder and Admin.RevenueBounds |
| Admin.AppendOrderRevenue | app/admin/page.tsx:94 | an unpaid order adds nothing; a paid one adds its total |
| Admin.RevenueIgnoresOrder | app/admin/page.tsx:94 | revenue does not depend on the order of the orders |
| Admin.RevenueBounds | app/admin/page.tsx:94 | with non-negative totals, revenue lies between 0 and the sum of all totals |
| Admin.DisplayIdExample | app/admin/page.tsx:211 | a 24-character id shows as its first 8 characters |
| Api.StripTrailingSlash | services/api.ts:4 | at most one final "/" is removed, and exactly when there is one |
| Api.ApiUrl | services/api.ts:4 | the environment value when set and non-empty, else "http://localhost:5000", then stripped |
| Api.OnRequestError | services/api.ts:23-25 | a request error is rejected again unchanged |
| Api.StripRemovesOneSlash | services/api.ts:4 | "x/" becomes "x" and "x//" becomes "x/" |
| Api.DefaultBaseUrl | services/api.ts:4-7 | unset or empty variables give "http://localhost:5000/api"; a trailing slash is dropped before "/api" |
| Api.BaseUrl | services/api.ts:6-7 | definition of the client's base URL; see Api.DefaultBaseUrl |
| Api.RequestConfig.constructor | services/api.ts:15 | a configuration holds the given headers |
| Api.WithBearer | services/api.ts:17-20 | with a truthy token and headers, Authorization is "Bearer " + token and other headers are kept; otherwise nothing changes |
| Api.Intercept | services/api.ts:15-22 | the interceptor updates the headers from the store's token and returns the same config |
| Api.InterceptExamples | services/api.ts:8-20 | no or empty token leaves the defaults; a token adds the bearer header beside them |

## Left out

- Persistence in `localStorage` (the effects in context/CartContext.tsx and the `persist` wrappers of both stores). These are browser I/O.
- React's render and effect scheduling. The effects are methods called at the point the source would run them. Concurrent requests are not modelled.
- Floating-point money: `Number.EPSILON`, `toFixed`, and float sums. Amounts are exact cents. Binary-float differences at half cents are not modelled, and neither is rounding of negative half cents.
- The network services (services/*.service.ts) and the payment processor's SDK. Their results are parameters.
- Date parsing. `createdAt` is an integer timestamp, and an invalid date is not modelled.
- Unicode case mapping. `toLowerCase` is ASCII only.
- The admin page's `fetchAllData` and its create, update and delete handlers. These are backend calls with no logic of their own.
- The views that only render: the checkout summary, the contact-email field, the shop's show/hide toggles, and the admin tabs and modal.
- Presentation-only pages: login, signup, profile, orders and home. The same goes for the footer, the loader and the product card.
- The static catalogue data in lib/data.ts is not part of this model. Two of its entries appear as concrete values in `UseCartStore.CatalogueProductsCollide`.
- CartContext.CartStore.constructor: the source's initial address is `{}`, which the model gives as `None`.
- Checkout.InitialFormData: its contract describes only the two extreme cases, a complete saved address and nothing saved. Mixed cases follow the per-field `||` chain in the function body, and no lemma states them.
- Shop.FilterProducts: prices are exact cents. A dollar price that is not a whole number of cents is not modelled.
