# Glow and Heal Hub storefront — a verified model of its core

This project models the parts of the Glow and Heal Hub storefront that compute or change something:

- **PayPal backend.** The `paypal` edge function builds a PayPal Orders v2 body from the checkout's order data and dispatches the `create`, `get` and `capture` actions.
- **PayPal button.** The checkout's button builds the order request from the cart, creates and captures the order through the edge function, and reports the outcome through its callbacks.
- **Checkout page.** Shipping and total, the `checkoutSchema` form validation, the errors shown under the fields, and the submit transition.
- **Catalogues.** The SEDONA and F+NCTION catalogues and their lookups by slug.
- **Product pages.** The two product pages: the not-found branch, related products, the specification panel, the Coming Soon gate and the ingredient list.
- **Featured products.** The wishlist toggle of the featured products.
- **Two form pages.** The register-interest page (ComingSoon) and the SEDONA callback request page.

Money is integer pence throughout: £4.99 is 499 and the £50 threshold is 5000. `toFixed(2)` is modelled exactly on pence (`JsText.Fixed2`), and it is proved to read back to the amount it printed. zod's string handling is modelled as the schemas use it:

- `trim()` over the JavaScript whitespace set;
- lengths counted in UTF-16 code units;
- every check of a field run in order;
- issues listed key by key in shape order;
- a `forEach` that keeps the last message per key.

The network is not part of the model. The outcomes of `getAccessToken`, PayPal's API calls and `supabase.functions.invoke` are inputs, and so are zod's and the browser's e-mail checks.

Where the code works by changing state, the model does too. The button and the three form pages are classes whose methods change the page state and record the calls made (requests, toasts, callbacks, navigations) in sequence fields. The edge function, the catalogues, the product pages and the wishlist toggle are pure functions with lemmas about them.

The files, in dependency order:

- `common.dfy`: Option and Result.
- `seqs.dfy`: `find`, `filter` and `slice` and their properties.
- `js_text.dfy`: trim, UTF-16 length, number printing and parsing, truthiness, `join`.
- `money.dfy`: the `£` price text.
- `form_errors.dfy`: zod issues and the `forEach` that collects them.
- `cart.dfy`: the cart line.
- `paypal_function.dfy`
- `paypal_button.dfy`
- `checkout.dfy`
- `sedona_catalogue.dfy`
- `sedona_product_page.dfy`
- `fnction_catalogue.dfy`
- `fnction_product_page.dfy`
- `featured_products.dfy`
- `coming_soon.dfy`
- `sedona_consultation.dfy`

## Model

| member | source | states |
|---|---|---|
| PayPalFunction.ItemTotal | supabase/functions/paypal/index.ts:48 | the `reduce` of unit amount times quantity over the order lines, from the left; ItemTotalAppend states how it splits over concatenated lists, and ItemTotalReadsBack that the breakdown PayPal receives carries it |
| PayPalFunction.ItemTotalAppend | supabase/functions/paypal/index.ts:48 | the left-to-right `reduce` of unit amount times quantity over two concatenated lists is the sum of the two lists' totals |
| PayPalFunction.PayPalItems | supabase/functions/paypal/index.ts:80-88 | one PayPal item per order line |
| PayPalFunction.CreateOrderBody | supabase/functions/paypal/index.ts:57-64 | intent is always CAPTURE with one purchase unit, landing page BILLING and user action PAY_NOW; `return_url` and `cancel_url` appear exactly when the input is truthy, and then carry the input |
| PayPalFunction.AmountReadsBack | supabase/functions/paypal/index.ts:66-68 | read back from the body PayPal receives, the amount is the order's amount |
| PayPalFunction.ItemTotalReadsBack | supabase/functions/paypal/index.ts:48-73 | read back, the item total is the sum of unit amount times quantity over the lines |
| PayPalFunction.ShippingReadsBack | supabase/functions/paypal/index.ts:49-77 | read back, the shipping is the amount minus the item total, so item total plus shipping is the amount |
| PayPalFunction.ItemsFollowLines | supabase/functions/paypal/index.ts:80-88 | the items match the order lines one to one and in order: same name, category PHYSICAL_GOODS, and a quantity and unit amount that read back to the line's numbers |
| PayPalFunction.Serve | supabase/functions/paypal/index.ts:147-235 | every response has status 200; only the OPTIONS preflight lacks a JSON body; the token is requested first, and at most one PayPal order call follows, carrying that token |
| PayPalFunction.Dispatch | supabase/functions/paypal/index.ts:158-227 | the `create`, `get`, `capture` and unknown-action branches once a token is held, each with its reply and the PayPal calls it makes; CreateNeedsOrderData, OrderIdRequired, GetReportsOrder, CaptureSucceedsIffCompleted, OnlyCreatedOrdersLackSuccess and UnknownActionNamed state what each branch answers |
| PayPalFunction.CreateNeedsOrderData | supabase/functions/paypal/index.ts:160-165 | `create` without order data gets `success: false` with "Order data is required for create action", and no order call is made |
| PayPalFunction.OrderIdRequired | supabase/functions/paypal/index.ts:181-205 | `get` and `capture` without a truthy order id get their own "Order ID is required" error, and PayPal is not called for them |
| PayPalFunction.GetReportsOrder | supabase/functions/paypal/index.ts:188-197 | `get` with a non-empty order id makes the token call and then one lookup of that id; the reply is `success: true` with PayPal's order id and status when PayPal answered, and otherwise `success: false` with the failure text, "Failed to get PayPal order" when that text is empty |
| PayPalFunction.CaptureSucceedsIffCompleted | supabase/functions/paypal/index.ts:200-223 | the requested order is the one captured, and the reply has `success: true` exactly when PayPal accepted the capture with status COMPLETED |
| PayPalFunction.OnlyCreatedOrdersLackSuccess | supabase/functions/paypal/index.ts:160-179 | a reply has no `success` field exactly when an order was created, and that reply carries PayPal's order id and status |
| PayPalFunction.ErrorsComeWithFailure | supabase/functions/paypal/index.ts:147-235 | a reply carries an error exactly when it has `success: false` and no order id |
| PayPalFunction.UnknownActionNamed | supabase/functions/paypal/index.ts:225-227 | any other action, a missing one included, gets "Unknown action: " followed by the action's text, and no order call is made |
| PayPalFunction.AuthFailureFailsEveryAction | supabase/functions/paypal/index.ts:153-234 | the token is fetched before dispatch, so when it is refused or the fetch throws, every action gets an error reply and no order call follows |
| PayPalButtonFlow.OrderRequest | src/components/checkout/PayPalButton.tsx:93-101 | the amount is total plus shipping and the currency is GBP; there are no return or cancel URLs; the lines map one to one, in order, to name, quantity and unit amount equal to price |
| PayPalButtonFlow.RequestTotalIsCartTotal | src/components/checkout/PayPalButton.tsx:93-101 | the item total the backend computes from the request equals the cart's sum of line prices |
| PayPalButtonFlow.BreakdownWithinAmount | src/components/checkout/PayPalButton.tsx:93-101 | for a cart of non-negative lines whose sum is the total passed in, and a non-negative shipping cost, the item total the backend computes is non-negative, at most the amount, at least every line's price, and the amount exceeds it by exactly the shipping cost |
| PayPalButtonFlow.ShippingReachesPayPal | src/components/checkout/PayPalButton.tsx:94 | when the total passed in is the cart's sum, PayPal receives in GBP the amount printed from total plus shipping, and a breakdown shipping printed from exactly the checkout's shipping cost (which Fixed2RoundTrip reads back) |
| PayPalButtonFlow.ShippingExample | src/components/checkout/PayPalButton.tsx:94 | a £100.00 cart with £5.00 shipping sends PayPal the amount "105.00" with a shipping of "5.00" |
| PayPalButtonFlow.Delivered | src/components/checkout/PayPalButton.tsx:103-107 | `invoke` gives an error exactly for a non-2xx status; otherwise it hands over the response body |
| PayPalButtonFlow.CreateOutcome | src/components/checkout/PayPalButton.tsx:103-115 | `createOrder` yields the order id exactly when the invoke succeeded with a truthy `orderId`; otherwise it yields the invoke error's message, or "No order ID returned" |
| PayPalButtonFlow.CaptureOutcome | src/components/checkout/PayPalButton.tsx:119-133 | `onApprove` reaches `onSuccess`, with the reply's `orderId`, exactly when the reply has `success: true`; otherwise it reaches `onError` with the invoke error's message, or "Payment capture failed" |
| PayPalButtonFlow.ServedResponsesAreData | supabase/functions/paypal/index.ts:147-235 | every response of the edge function reaches the button as data and never as an invoke error |
| PayPalButtonFlow.CreateOrderEndToEnd | src/components/checkout/PayPalButton.tsx:91-116 | the button gets an order id exactly when the login succeeded and PayPal created the order with a non-empty id, and then it is that id; every backend failure surfaces as "No order ID returned" |
| PayPalButtonFlow.CaptureEndToEnd | src/components/checkout/PayPalButton.tsx:117-134 | the approved order id is the one captured, and `onSuccess` is reached exactly when the login succeeded, the id is non-empty and PayPal captured the order with status COMPLETED |
| PayPalButtonFlow.PayPalButton.constructor | src/components/checkout/PayPalButton.tsx:29-39 | the button starts loading, with the SDK not ready, no buttons rendered and no calls made |
| PayPalButtonFlow.PayPalButton.View | src/components/checkout/PayPalButton.tsx:145-167 | the spinner exactly while loading; the not-configured notice exactly when loading is done and there is no client id; otherwise the container, dimmed exactly when disabled |
| PayPalButtonFlow.PayPalButton.LoadSdk | src/components/checkout/PayPalButton.tsx:42-75 | loading ends; the SDK becomes ready exactly when a client id is configured and the script was already present or loaded |
| PayPalButtonFlow.PayPalButton.SetProps | src/components/checkout/PayPalButton.tsx:29-36 | a re-render replaces the props and nothing else |
| PayPalButtonFlow.PayPalButton.RenderButtons | src/components/checkout/PayPalButton.tsx:78-143 | buttons are rendered afresh with the current props exactly when the SDK is ready, `window.paypal` exists and the button is not disabled; otherwise the previous buttons stay |
| PayPalButtonFlow.PayPalButton.CreateOrder | src/components/checkout/PayPalButton.tsx:91-116 | sends one create request built from the captured props; the result is `CreateOutcome`, and a failure is reported to `onError` once |
| PayPalButtonFlow.PayPalButton.Approve | src/components/checkout/PayPalButton.tsx:117-134 | sends one capture request for the approved id; then exactly one of `onSuccess` and `onError` is called, never both |
| PayPalButtonFlow.PayPalButton.SdkError | src/components/checkout/PayPalButton.tsx:135-138 | reports the fixed "PayPal encountered an error" and nothing else |
| PayPalButtonFlow.PayPalButton.Cancel | src/components/checkout/PayPalButton.tsx:139-141 | changes nothing and reports nothing |
| Cart.LinesTotalBounds | supabase/functions/paypal/index.ts:48 | with non-negative prices and quantities, the sum of the cart's line prices (the item total of the button's request) is non-negative and at least every line; BreakdownWithinAmount rests on it |
| Money.Pounds | src/pages/FnctionProduct.tsx:137 | `£` followed by `toFixed(2)` of the amount; PoundsRoundTrip states that it reads back as the amount |
| Money.PoundsRoundTrip | src/pages/FnctionProduct.tsx:137 | a price printed as `£` plus `toFixed(2)` reads back as the amount |
| JsText.Trim | src/pages/Checkout.tsx:14-20 | zod's `trim()`: the result is a contiguous slice of the value, starting right after the leading whitespace; TrimKeepsContent and TrimIdempotent state the rest |
| JsText.TrimKeepsContent | src/pages/Checkout.tsx:14-20 | the trimmed value starts and ends with a non-whitespace character, and it is empty exactly when the value is all whitespace |
| JsText.TrimIdempotent | src/pages/Checkout.tsx:14-20 | trimming twice is trimming once |
| JsText.Utf16Length | src/pages/Checkout.tsx:15-20 | the length zod compares with `min` and `max` lies between the number of characters and twice that number |
| JsText.IntStringRoundTrip | supabase/functions/paypal/index.ts:83 | `quantity.toString()` reads back as the quantity |
| JsText.Fixed2 | supabase/functions/paypal/index.ts:68 | `toFixed(2)` of an amount in pence: a sign for negative amounts, whole pounds, a point and two digits; Fixed2RoundTrip states that it reads back as the amount |
| JsText.Fixed2RoundTrip | supabase/functions/paypal/index.ts:68-86 | `toFixed(2)` of an amount in pence reads back as the amount, negative amounts included |
| JsText.NatStringRoundTrip | src/pages/FnctionProduct.tsx:214 | a count printed in decimal reads back as the count |
| FormErrors.LastMessagesKeys | src/pages/Checkout.tsx:57-61 | the collected errors have a key exactly for the fields that have an issue |
| FormErrors.LastMessagesLastWins | src/pages/Checkout.tsx:57-61 | a field's error is the message of its last issue |
| FormErrors.ShapeErrors | src/pages/Checkout.tsx:54-61 | collecting the issues of a shape, key by key, gives each failing key its last message |
| FormErrors.CollectFieldErrors | src/pages/Checkout.tsx:56-61 | the `forEach` loop builds exactly the last-message-per-field map |
| Checkout.ShippingCost | src/pages/Checkout.tsx:40 | shipping is free exactly from £50.00 of goods, and £4.99 otherwise |
| Checkout.OrderTotal | src/pages/Checkout.tsx:40-41 | the total is at least the goods and at most the goods plus £4.99, and equals the goods exactly when shipping is free |
| Checkout.ThresholdLowersTotal | src/pages/Checkout.tsx:40-41 | £49.99 of goods cost £54.98 in all, more than £50.00 of goods, which cost £50.00 |
| Checkout.With | src/pages/Checkout.tsx:43-45 | editing a field sets that field and leaves every other field as it was |
| Checkout.BoundTextIsMaxLength | src/pages/Checkout.tsx:15-20 | each too-long message prints the field's `max` bound: 50, 50, 200, 100, 20, 20 |
| Checkout.FieldMessages | src/pages/Checkout.tsx:13-21 | a field raises no issue exactly when its trimmed value passes: a valid e-mail, or non-empty and within the field's bound |
| Checkout.OneMessagePerField | src/pages/Checkout.tsx:15-20 | no field raises more than one issue |
| Checkout.FieldErrors | src/pages/Checkout.tsx:54-61 | the errors collected from zod's issues, key by key in shape order, the last message per key; FieldErrorsAt states what each field gets |
| Checkout.FieldErrorsAt | src/pages/Checkout.tsx:54-61 | a field has an error exactly when it is invalid, and that error is the one message zod raised for it |
| Checkout.CheckoutValidIff | src/pages/Checkout.tsx:54-55 | `safeParse` succeeds exactly when every field is valid |
| Checkout.ValidateCheckout | src/pages/Checkout.tsx:54-63 | the form is valid exactly when every field is; when it is not, the errors are the per-field messages |
| Checkout.EmptyFormErrors | src/pages/Checkout.tsx:13-21 | a blank form fails on every field: the e-mail with "Please enter a valid email address", every other field with its own "… is required" message |
| Checkout.PageView | src/pages/Checkout.tsx:80-97 | an empty cart renders the empty-cart view instead of the form, and only an empty cart does |
| Checkout.Summary | src/pages/Checkout.tsx:270-311 | the order summary: one printed price per cart line, then subtotal, shipping, the free-shipping notice and total; the four SummaryShows lemmas state what each text reads back as |
| Checkout.SummaryShowsLinePrices | src/pages/Checkout.tsx:282-284 | each summary line shows, with a pound sign and two decimals, a price that reads back as unit price times quantity |
| Checkout.SummaryShowsSubtotal | src/pages/Checkout.tsx:290-293 | the subtotal reads back as the cart's total price |
| Checkout.SummaryShowsShipping | src/pages/Checkout.tsx:294-307 | shipping shows "Free", without the free-shipping notice, exactly when the goods reach £50.00; otherwise it reads back as £4.99 and the notice is shown |
| Checkout.SummaryShowsTotal | src/pages/Checkout.tsx:308-311 | the total reads back as goods plus shipping (OrderTotal, which is never below the goods and equals them exactly from £50.00) |
| Checkout.CheckoutPage.constructor | src/pages/Checkout.tsx:26-38 | an empty form, no errors, not processing |
| Checkout.CheckoutPage.HandleChange | src/pages/Checkout.tsx:43-49 | only the edited field changes, and only its error is cleared |
| Checkout.CheckoutPage.Submit | src/pages/Checkout.tsx:51-66 | processing starts exactly when the form is valid, keeping the errors; otherwise the errors become the per-field messages and processing does not start |
| Checkout.CheckoutPage.FinishProcessing | src/pages/Checkout.tsx:71-77 | the cart is cleared, the shopper is sent to /order-confirmation, and processing stops |
| SedonaCatalogue.GetProductBySlug | src/data/sedonaProducts.ts:243-245 | finds no product exactly when no product has the slug as id; otherwise it finds the first product with that id |
| SedonaCatalogue.CatalogueIdsDistinct | src/data/sedonaProducts.ts:24-241 | the six ids are pairwise distinct |
| SedonaCatalogue.LookupIsUnambiguous | src/data/sedonaProducts.ts:243-245 | looking up any catalogue product's id finds that product |
| SedonaCatalogue.CatalogueWellFormed | src/data/sedonaProducts.ts:24-241 | every product has a positive price and more than one image |
| SedonaProductPage.SpecRows | src/pages/SedonaProduct.tsx:122-161 | at most six specification rows |
| SedonaProductPage.InSpecRows | src/pages/SedonaProduct.tsx:122-161 | a row is in the panel exactly when one of the six fields produces it: a text field under its own heading with its value when that value is present and non-empty, or the waveforms list, when present, joined with ", " |
| SedonaProductPage.RelatedIn | src/pages/SedonaProduct.tsx:31-33 | for any catalogue: at most three related products, each from that catalogue, not the product itself, and in its category |
| SedonaProductPage.Related | src/pages/SedonaProduct.tsx:31-33 | the same selection from the SEDONA catalogue |
| SedonaProductPage.Page | src/pages/SedonaProduct.tsx:9-33 | the not-found view exactly when no catalogue id equals the slug, a missing slug counting as ""; a found page shows the product with that id |
| SedonaProductPage.FrequencyAndIntensityRows | src/pages/SedonaProduct.tsx:122-133 | a frequency or intensity row shows exactly when that value is present and non-empty, and it shows that value |
| SedonaProductPage.ProgramsAndWaveformsRows | src/pages/SedonaProduct.tsx:134-147 | the programs row follows the same rule; the waveforms row shows exactly when the list is present, even when empty, joined with ", " |
| SedonaProductPage.DimensionsAndWarrantyRows | src/pages/SedonaProduct.tsx:148-161 | the dimensions and warranty rows show exactly when the value is present and non-empty |
| SedonaProductPage.ApplicatorsOnlyPanelIsEmpty | src/pages/SedonaProduct.tsx:115-164 | a product whose only specification is its applicators shows the panel heading with no rows |
| SedonaProductPage.RelatedAreTheFirstMatches | src/pages/SedonaProduct.tsx:31-33 | a same-category product is left out of the related list only when three are already shown |
| SedonaProductPage.RelatedKeepCatalogueOrder | src/pages/SedonaProduct.tsx:31-33 | for any catalogue, the related products sit at strictly increasing catalogue positions, and every same-category product left out sits after all of them: they are the first matches in catalogue order, not any other choice or order |
| SedonaProductPage.RelatedExcludesSelf | src/pages/SedonaProduct.tsx:31-32 | a product is never among its own related products |
| SedonaProductPage.ThumbnailsShown | src/pages/SedonaProduct.tsx:62 | every catalogue product's page is found and shows the thumbnail strip |
| FnctionCatalogue.GetFnctionProductBySlug | src/data/fnctionProducts.ts:212-214 | finds no product exactly when no product has the slug as id; otherwise it finds the first product with that id |
| FnctionCatalogue.CatalogueIdsDistinct | src/data/fnctionProducts.ts:34-210 | "calm", "calm-starter-pack" and "focus" are pairwise distinct |
| FnctionCatalogue.LookupIsUnambiguous | src/data/fnctionProducts.ts:212-214 | looking up any catalogue product's id finds that product |
| FnctionCatalogue.OnlyFocusIsComingSoon | src/data/fnctionProducts.ts:150-163 | a product carries the "Coming Soon" badge exactly when it is FOCUS |
| FnctionCatalogue.CatalogueWellFormed | src/data/fnctionProducts.ts:34-210 | every product has a positive price and more than one image |
| FnctionProductPage.RelatedIn | src/pages/FnctionProduct.tsx:31-33 | for any catalogue: at most two related products, each from that catalogue and not the product itself |
| FnctionProductPage.Related | src/pages/FnctionProduct.tsx:31-33 | the same selection from the F+NCTION catalogue |
| FnctionProductPage.Page | src/pages/FnctionProduct.tsx:9-33 | the not-found view exactly when no catalogue id equals the slug; a found page shows the product with that id |
| FnctionProductPage.AddToCartButton | src/pages/FnctionProduct.tsx:146-148 | disabled and captioned "Coming Soon" when the badge is "Coming Soon", enabled and captioned "Add to Cart" otherwise; ComingSoonGate states it |
| FnctionProductPage.ComingSoonGate | src/pages/FnctionProduct.tsx:146-148 | the button is disabled exactly when the badge is "Coming Soon", and exactly when it reads "Coming Soon"; otherwise it reads "Add to Cart" |
| FnctionProductPage.OnlyFocusIsHeldBack | src/pages/FnctionProduct.tsx:146-148 | of the catalogue, only FOCUS cannot be added to the cart |
| FnctionProductPage.ShownIngredients | src/pages/FnctionProduct.tsx:205 | `ingredients.slice(0, 10)`; IngredientsAccountedFor states which ingredients it lists |
| FnctionProductPage.MoreIngredientsNote | src/pages/FnctionProduct.tsx:212-216 | "+ n more ingredients" when more than ten exist, with n the count beyond ten, and no note otherwise; IngredientsAccountedFor states that n is the number left out |
| FnctionProductPage.IngredientsAccountedFor | src/pages/FnctionProduct.tsx:205-216 | the listed ingredients are the leading ones; the "+ n more ingredients" note appears exactly when the list is cut, and its n reads back as the number left out |
| FnctionProductPage.CalmIngredientNote | src/pages/FnctionProduct.tsx:212-216 | CALM and its starter pack share fourteen ingredients, and their note reads "+ 4 more ingredients" |
| FnctionProductPage.FocusIngredientNote | src/pages/FnctionProduct.tsx:212-216 | FOCUS's note reads "+ 9 more ingredients" |
| FnctionProductPage.PriceReadsBack | src/pages/FnctionProduct.tsx:137 | the printed price reads back as the product's price |
| FnctionProductPage.RelatedAreTheFirstOthers | src/pages/FnctionProduct.tsx:31-33 | another product is left out of the related list only when two are already shown |
| FnctionProductPage.RelatedExcludesSelf | src/pages/FnctionProduct.tsx:31-33 | a product is never among its own related products |
| FnctionProductPage.RelatedKeepCatalogueOrder | src/pages/FnctionProduct.tsx:31-33 | for any catalogue, the related products sit at strictly increasing catalogue positions, and every other product left out sits after all of them: they are the first others in catalogue order, not any other choice or order |
| FnctionProductPage.ThumbnailsShown | src/pages/FnctionProduct.tsx:62 | every catalogue product's page is found and shows the thumbnail strip |
| FeaturedProducts.ToggleLike | src/components/home/FeaturedProducts.tsx:15-17 | the updater: a liked id is filtered out, any other id is appended; the lemmas below state its effect |
| FeaturedProducts.HeartFilled | src/components/home/FeaturedProducts.tsx:74 | a heart is filled exactly when the product's id is in the liked list |
| FeaturedProducts.ToggleFlipsOnlyThatHeart | src/components/home/FeaturedProducts.tsx:12-18 | toggling flips the toggled product's heart and leaves every other heart as it was |
| FeaturedProducts.LikeAppends | src/components/home/FeaturedProducts.tsx:15-17 | liking an id that is not liked appends it after the others |
| FeaturedProducts.UnlikeRemovesEveryCopy | src/components/home/FeaturedProducts.tsx:16 | unliking removes every copy of the id, keeps every copy of each other id, and keeps the others in order |
| FeaturedProducts.ToggleTwiceRestores | src/components/home/FeaturedProducts.tsx:15-17 | liking and then unliking an id that was not liked restores the list |
| FeaturedProducts.ToggleTwiceMovesToEnd | src/components/home/FeaturedProducts.tsx:15-17 | unliking and liking again moves the id to the end, so it is not the identity |
| FeaturedProducts.ToggleKeepsNoDuplicates | src/components/home/FeaturedProducts.tsx:15-17 | a list without repeated ids keeps none under a toggle |
| ComingSoon.With | src/pages/ComingSoon.tsx:28-30 | editing a field sets that field and leaves the other as it was |
| ComingSoon.BoundsPrinted | src/pages/ComingSoon.tsx:13-14 | the too-long messages print the bounds 100 and 255 |
| ComingSoon.FieldMessages | src/pages/ComingSoon.tsx:12-15 | a field raises no issue exactly when its trimmed value passes: a name of 1 to 100 code units, or a valid e-mail of at most 255 |
| ComingSoon.FieldErrors | src/pages/ComingSoon.tsx:39-47 | the errors collected from zod's issues, name then e-mail, the last message per field; FieldErrorsAt states what each field gets |
| ComingSoon.FieldErrorsAt | src/pages/ComingSoon.tsx:39-47 | a field has an error exactly when it is invalid, and that error is the last message zod raised for it |
| ComingSoon.NameError | src/pages/ComingSoon.tsx:13 | an invalid name shows "Name is required" when it trims to nothing, and the too-long message otherwise |
| ComingSoon.EmailError | src/pages/ComingSoon.tsx:14 | an invalid e-mail shows the too-long message when it is too long, even when it is also malformed, and "Please enter a valid email address" otherwise |
| ComingSoon.FieldErrorsAreInvalid | src/pages/ComingSoon.tsx:39-47 | only invalid fields have errors |
| ComingSoon.RegisterValidIff | src/pages/ComingSoon.tsx:39-40 | `safeParse` succeeds exactly when both fields are valid |
| ComingSoon.ValidLeavesNoErrors | src/pages/ComingSoon.tsx:28-47 | when every shown error belongs to a field that is still invalid, a valid form shows no error |
| ComingSoon.ValidateRegistration | src/pages/ComingSoon.tsx:39-49 | valid exactly when both fields are; an invalid form's errors are the per-field messages; a valid form keeps the shown errors, so those errors always name invalid fields |
| ComingSoon.ComingSoonPage.constructor | src/pages/ComingSoon.tsx:20-26 | an empty form, no errors, neither submitting nor submitted |
| ComingSoon.ComingSoonPage.HandleChange | src/pages/ComingSoon.tsx:28-34 | only the edited field changes, and only its error is cleared |
| ComingSoon.ComingSoonPage.Submit | src/pages/ComingSoon.tsx:36-59 | a request with the form is sent, and submitting starts, exactly when the form is valid; otherwise the errors become the per-field messages and nothing is sent |
| ComingSoon.ComingSoonPage.FinishSubmit | src/pages/ComingSoon.tsx:60-77 | the page becomes submitted only when the invocation succeeded; the matching toast is shown, and submitting stops either way |
| ComingSoon.ComingSoonPage.View | src/pages/ComingSoon.tsx:102-156 | the confirmation panel exactly once submitted; otherwise the form, with its button disabled exactly while submitting |
| SedonaConsultation.With | src/pages/SedonaConsultation.tsx:28-33 | editing a field sets that field and leaves the other seven as they were |
| SedonaConsultation.EmptyFormIsBlank | src/pages/SedonaConsultation.tsx:17-26 | the initial form holds "" in all eight fields |
| SedonaConsultation.InterestOptions | src/pages/SedonaConsultation.tsx:203-209 | the select's values: the empty placeholder, the catalogue product names, then "Not sure - need guidance"; InterestOptionsFollowCatalogue states it position by position |
| SedonaConsultation.InterestOptionsFollowCatalogue | src/pages/SedonaConsultation.tsx:203-209 | the product-interest options are the placeholder, one per catalogue product name in catalogue order, then "Not sure - need guidance" |
| SedonaConsultation.CatalogueInterestOptions | src/pages/SedonaConsultation.tsx:203-209 | for the actual catalogue there are eight options, with the PEMF chair first after the placeholder |
| SedonaConsultation.Succeeded | src/pages/SedonaConsultation.tsx:44-50 | a submission went through exactly when `invoke` gave no error and `data.success` is true |
| SedonaConsultation.FormAfter | src/pages/SedonaConsultation.tsx:57-66 | the form is reset after a success and kept otherwise; FormAfterOutcome states it field by field |
| SedonaConsultation.FormAfterOutcome | src/pages/SedonaConsultation.tsx:57-66 | a success clears all eight fields; a failure leaves every field as it was |
| SedonaConsultation.ConsultationPage.constructor | src/pages/SedonaConsultation.tsx:16-26 | an empty form, not submitting, nothing sent |
| SedonaConsultation.ConsultationPage.HandleChange | src/pages/SedonaConsultation.tsx:28-33 | only the edited field changes |
| SedonaConsultation.ConsultationPage.Submit | src/pages/SedonaConsultation.tsx:35-42 | the form is sent as it is, and submitting starts, exactly when the browser lets it submit and no submission is under way |
| SedonaConsultation.ConsultationPage.FinishSubmit | src/pages/SedonaConsultation.tsx:44-76 | success means no error and `data.success` is true; a success clears the form with the received toast, any other outcome keeps it with the error toast, and submitting stops either way |
| SedonaConsultation.ConsultationPage.SubmitButton | src/pages/SedonaConsultation.tsx:245-246 | the button is disabled exactly while submitting, and then reads "Submitting..." |

## Left out

- Network and authentication are inputs, not modelled code. This covers `getAccessToken` (an OAuth 2.0 client-credentials request with a Basic authorization header), every `fetch` to PayPal, and every `supabase.functions.invoke`. Their outcomes are the parameters `AuthOutcome`, `remote` and `InvokeResult`/`CallbackResult`/`InvokeOutcome`.
- The e-mail edge functions (`send-order-email`, `send-callback-email`, `send-interest-email`) are not part of this model; they are HTTP calls plus HTML templates.
- Floating-point money is not modelled: amounts are integer pence, and `toFixed(2)` is exact on them. JavaScript float addition and rounding are not modelled, nor is `toLocaleString` (the SEDONA price and the consultation option labels).
- The PayPal SDK script injection, DOM refs and `innerHTML` are reduced to state: `LoadSdk` takes how the script effect ended, and `RenderButtons` takes whether `window.paypal` exists. React's effect scheduling, re-render timing and the button `style` are not modelled.
- The checkout's simulated two-second payment delay and its success toast are left out. The submit is split into `Submit` and `FinishProcessing`.
- zod's and the browser's e-mail checks are parameters (`isEmail`, `isBrowserEmail`), not the actual regular expressions.
- `console.log` and `console.error` are not modelled. This includes the reason SEDONA's callback request logs on failure ("Failed to send callback request" or the function's error), which is never shown to the user.
- The catalogue fields `description`, `fullDescription`, `features` and `nutritionalInfo`, and SEDONA's `includes`, are left out of the product types, and so is their display. `FnctionProduct` keeps `flavor`, `packSize`, `nutritionalClaims` and `includes` as catalogue data, but no member computes with them and their display is not modelled.
- The pages' `selectedImage` and `hoveredProduct` state is UI-only and is left out.
- The cart context that owns the cart lines is not part of this model; `clearCart` is modelled as emptying `CheckoutPage.cart`.
- Clearing an error sets it to `undefined` in the source. In the model the key is removed from the errors map, so an `undefined` error and a missing one are the same thing. The page shows them the same way.
- `SedonaConsultation.CallbackData.success` is an optional boolean. A truthy non-boolean `success` from the function is not modelled.
- The code has no payment reconciliation, hosted card fields or Apple Pay, so the model has none. `Checkout.tsx` does not mount the PayPal button: it has its own simulated payment.
- The related products of each concrete catalogue product are not listed; only the general properties of `Related` are proved. Unfolding the filter over the six-product SEDONA catalogue exceeds the solver budget.
- The SupabaseJS error text for a non-2xx response is a constant in the model (`NonSuccessStatus`). It is never reached, because the edge function always answers 200.
- SedonaCatalogue.CatalogueWellFormed and FnctionCatalogue.CatalogueWellFormed state more than one image per product, which is stronger than "at least one".
- SedonaProductPage.SpecRows: its own contract bounds only the number of rows; the row-by-row rule is stated by `InSpecRows` and the three row lemmas beside it.
- SedonaProductPage.Related and FnctionProductPage.Related: their own contracts, like those of `RelatedIn`, state bounds and membership; which products they pick, and in what order, is stated by the `RelatedAreTheFirst…` and `RelatedKeepCatalogueOrder` lemmas.
