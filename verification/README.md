# Checkout workflow and product gallery of the Vedsutra storefront

This project models the two pieces of the storefront front-end that hold
logic of their own once the React rendering is set aside.

- **The checkout page** (`src/pages/Checkout.tsx`):
  - the shipping form and its change handler;
  - `validateForm`, an ordered chain of checks whose first failure names the message;
  - the submit handler, which validates, builds the order record, hands it
    to the order-intake sink and then either files the completed order,
    drops the draft and goes to `/thank-you`, or shows an error;
  - the mount effect, which loads the draft stored under `orderDetails` or sends the buyer to `/`;
  - the effect that turns the payment mode "online" back into cash on delivery;
  - the figures of the order-summary panel.
- **The product gallery** (`src/components/ProductGallery.tsx`): the
  selected image index, moved by wrap-around previous and next arrows and
  set by clicking a thumbnail.

Modules, one per concern:

- `Wrappers` (wrappers.dfy): `Option`, which stands for JavaScript's `null`.
- `Text` (text.dfy): `String.prototype.trim`, with the whitespace set of ECMAScript, and `.length` counted in UTF-16 code units.
- `CheckoutForm` (checkout_form.dfy): the form, `WithField` and `ValidateForm`, plus lemmas about check order, email, and raw lengths.
- `CheckoutOrder` (checkout_order.dfy): the draft, the payment mode, the submitted record and the summary.
- `CheckoutPage` (checkout_page.dfy): the page as a class. Its fields are
  `form`, `order`, `paymentMode`, `isSubmitting`, the local store as a
  `map<string, StoredValue>`, and the list of routes navigated to.
- `Gallery` (gallery.dfy): `Next`/`Prev` and the `ProductGallery` class.

The submit handler is split at its single `await`. `BeginSubmit` is everything
before the sink call and `FinishSubmit` is everything after it.
`HandleSubmit` runs the two in sequence. The sink's answer and the
timestamp are parameters.

Behaviour of the code worth noting:

- The phone and pincode length rules measure the untrimmed string (`form.phone.length`,
  `form.pincode.length`); only blankness is judged after trimming. Five digits
  followed by five spaces pass the phone rule.
- Those lengths count UTF-16 code units, so a character outside the Basic
  Multilingual Plane counts twice: five emoji make a ten-unit phone number.
- Nothing checks that the original price is at least the sale price, so the discount can be negative.
- The shipping line is the constant text "FREE", not a number.
- The payment mode has two values, "online" and "cod". An effect resets
  "online" to "cod". It is not a one-value type.

## Model

| member | source | states |
|---|---|---|
| Text.Trim | src/pages/Checkout.tsx:64-69 | `s.trim()` is the slice of `s` between blank margins; it starts and ends with non-whitespace and is empty exactly when `s` is blank, which is when `!s.trim()` holds |
| Text.TrimIdempotent | src/pages/Checkout.tsx:87-93 | trimming an already trimmed field changes nothing |
| CheckoutForm.WithField | src/pages/Checkout.tsx:57-61 | a change event sets the named field to the new value and leaves the other six fields as they were |
| Text.Utf16Length | src/pages/Checkout.tsx:65-69 | JavaScript's `.length`: the number of UTF-16 code units, between the number of characters and twice that |
| Text.BmpLength | src/pages/Checkout.tsx:65-69 | for characters of the Basic Multilingual Plane, `.length` is the number of characters |
| CheckoutForm.ValidateForm | src/pages/Checkout.tsx:63-71 | returns null exactly when name, address, city and state are non-blank, phone is non-blank with untrimmed length (in UTF-16 code units) at least 10, and pincode is non-blank with untrimmed length at least 6; a blank name always gives "Please enter your name"; any message is one of the six |
| CheckoutForm.FirstFailureWins | src/pages/Checkout.tsx:64-70 | the validator reports the i-th message (name, phone, address, city, state, pincode) exactly when the i-th check fails and all earlier checks pass |
| CheckoutForm.EmailNeverBlocks | src/pages/Checkout.tsx:63-71 | changing the email never changes the validation outcome |
| CheckoutForm.ShortPhoneRejected | src/pages/Checkout.tsx:65 | with a name filled in, the phone "12345" is rejected with the phone message |
| CheckoutForm.PaddingCountsTowardsLength | src/pages/Checkout.tsx:65-69 | with the other required fields filled in, a phone of 5 digits plus 5 spaces and a pincode of 4 digits plus 2 spaces pass validation although their trimmed lengths are 5 and 4 |
| CheckoutForm.AstralPhoneAccepted | src/pages/Checkout.tsx:65 | a phone of five U+1F4DE characters has `.length` 10 and passes the phone rule |
| CheckoutOrder.SettledPaymentMode | src/pages/Checkout.tsx:31-35 | after the effect the payment mode is "cod" whatever it was, and "cod" is left untouched |
| CheckoutOrder.SettledPaymentModeIdempotent | src/pages/Checkout.tsx:31-35 | running the reset twice is the same as once |
| CheckoutOrder.BuildOrderData | src/pages/Checkout.tsx:86-100 | each text field of the record is empty exactly when the form field was blank and is no longer than it; product, size, quantity, sale price, payment mode and timestamp are carried over; there is no original price |
| CheckoutOrder.SubmittedRecord | src/pages/Checkout.tsx:87-93 | each text field of the record equals the trimmed form field, and trimming it again changes nothing |
| CheckoutOrder.ValidFormGivesCompleteRecord | src/pages/Checkout.tsx:76-100 | a record built from a form that passed validation has every required field non-empty |
| CheckoutOrder.Summarize | src/pages/Checkout.tsx:298-316 | subtotal is the original price, total is the sale price, subtotal minus discount is the total, shipping is FREE, and the discount is negative exactly when the original price is below the sale price |
| CheckoutOrder.SummaryExample | src/pages/Checkout.tsx:298-316 | a draft at 499 with original price 999 shows discount 500, total 499, subtotal 999 |
| CheckoutPage.CommitOrder | src/pages/Checkout.tsx:104-105 | after success the `completedOrder` entry holds the record, `orderDetails` is absent and every other entry is unchanged |
| CheckoutPage.Checkout.constructor | src/pages/Checkout.tsx:28-46 | the page starts with no order, payment mode "cod", not submitting, an empty form, and the store as found |
| CheckoutPage.Checkout.Mount | src/pages/Checkout.tsx:48-55 | with a stored draft the order becomes that draft and nothing navigates; without one the order is untouched and the page navigates to "/" once |
| CheckoutPage.OpenCheckout | src/pages/Checkout.tsx:48-55 | returns a new page object; a freshly opened page without a draft renders nothing (order stays null) and has navigated to "/" exactly once; with a draft it renders that draft and has not navigated |
| CheckoutPage.Checkout.Render | src/pages/Checkout.tsx:118-316 | nothing is rendered exactly when no order is loaded; otherwise the summary shows total = price, subtotal = original price, subtotal minus discount = total, shipping FREE, and the place-order button is disabled and reads "Placing Order..." exactly while submitting |
| CheckoutPage.Checkout.PressPlaceOrder | src/pages/Checkout.tsx:261-267 | a press while submitting does nothing; otherwise it has the outcome of BeginSubmit |
| CheckoutPage.Checkout.HandleChange | src/pages/Checkout.tsx:57-61 | the form becomes the old form with the changed field replaced; the state selector goes through the same update |
| CheckoutPage.Checkout.PaymentModeEffect | src/pages/Checkout.tsx:31-35 | the payment mode becomes its settled value |
| CheckoutPage.Checkout.ChoosePaymentMode | src/pages/Checkout.tsx:230 | whatever mode is set, once the effect has run the mode is "cod" |
| CheckoutPage.Checkout.BeginSubmit | src/pages/Checkout.tsx:73-100 | a failing validation yields the "Missing Information" toast with the validator's message and no record; a missing order yields nothing; otherwise submitting becomes true and the built record is returned; only the submitting flag can change |
| CheckoutPage.Checkout.FinishSubmit | src/pages/Checkout.tsx:102-115 | on sink success the store is committed and "/thank-you" is appended to the navigations; on failure the "Error" toast is shown and store and navigations are unchanged; submitting ends false either way |
| CheckoutPage.Checkout.HandleSubmit | src/pages/Checkout.tsx:73-116 | on a validation failure or a missing order the sink is not called and submitting, store and navigations are unchanged; otherwise the sink gets the built record, submitting ends false, and the outcome is as in FinishSubmit; form, order and payment mode never change |
| Gallery.Next | src/components/ProductGallery.tsx:14-18 | the next arrow maps i to (i + 1) mod n, so n - 1 wraps to 0, and stays in [0, n) |
| Gallery.Prev | src/components/ProductGallery.tsx:8-12 | the previous arrow maps i to (i - 1) mod n, so 0 wraps to n - 1, and stays in [0, n) |
| Gallery.PrevNextInverse | src/components/ProductGallery.tsx:8-18 | previous undoes next and next undoes previous for every in-range index |
| Gallery.Wrap | src/components/ProductGallery.tsx:14-18 | reference definition of a position m steps round a circle of n places; always in [0, n) |
| Gallery.AdvanceIsRotation | src/components/ProductGallery.tsx:14-18 | k presses of next from i give the position i + k steps round the circle |
| Gallery.FullTurn | src/components/ProductGallery.tsx:14-18 | n presses of next bring the selection back where it started |
| Gallery.ProductGallery.constructor | src/components/ProductGallery.tsx:6 | the gallery opens with index 0 |
| Gallery.ProductGallery.MainImage | src/components/ProductGallery.tsx:25 | the main view always shows one of the product's images |
| Gallery.ProductGallery.GoToPrev | src/components/ProductGallery.tsx:8-12 | the index becomes Prev of the old index and stays a valid image index |
| Gallery.ProductGallery.GoToNext | src/components/ProductGallery.tsx:14-18 | the index becomes Next of the old index and stays a valid image index |
| Gallery.ProductGallery.SelectThumbnail | src/components/ProductGallery.tsx:50 | clicking thumbnail k selects index k |
| Gallery.ProductGallery.ActiveThumbnails | src/components/ProductGallery.tsx:47-53 | exactly one thumbnail is active: the one whose index is the selected index |

## Left out

- CheckoutForm.ValidateForm: JavaScript strings may hold lone surrogate code units, which a Dafny string of Unicode scalar values cannot represent; such inputs are not modelled.
- Rendering (JSX, CSS classes, icons), the navigation bar, the announcement bar and the select widget are presentation only. `Render` keeps only the summary figures and the state of the place-order button. The select's `onValueChange` is modelled as `HandleChange` with the `State` field.
- Toasts are modelled as a returned title and description. The "destructive" variant and the display itself are not modelled.
- Navigation is modelled as a list of routes appended to. The router is not modelled.
- The "Back to product" button, which also navigates to "/", is not modelled.
- `submitOrderToSheet` comes from the `@/lib/googleSheets` module, which is not part of this model. `sinkSucceeded` stands for the whole `try` block completing: a `localStorage.setItem` that threw after the sink accepted the order would land in the same `catch`, which the model folds into `sinkSucceeded == false`.
- The await is modelled as the boundary between `BeginSubmit` and `FinishSubmit`. Interleavings with other events during the await are not modelled beyond a press of the place-order button, which `disabled={isSubmitting}` turns into a no-op (`PressPlaceOrder`).
- Local storage holds typed records rather than JSON text. Serialisation and `JSON.parse` failures are not modelled. Neither is a stored empty string, which the mount effect's `if (stored)` would treat as absent. The `orderDetails` entry, when present, is taken to hold a draft (`WellShaped`), as the page's untyped use of `JSON.parse(stored)` as an `OrderDetails` assumes.
- The timestamp from `new Date().toISOString()` is a string parameter; its format is not modelled.
- `toLocaleString("en-IN")` currency formatting is not modelled; prices are whole integers and the summary is numeric.
- JavaScript numbers are modelled as unbounded integers, so fractional prices and floating-point rounding are not modelled.
- The list of Indian states and the product image URLs come from the `@/lib/indianStates` and `@/lib/productData` modules, which are not part of this model. The state is not checked against the list in the source either. The image list is a constructor parameter that must not be empty.
- The HTML `maxLength` and `required` attributes are enforced by the browser, not by the page's code, and are not modelled.
- React's scheduling of effects and re-renders is not modelled beyond running the payment-mode effect right after a mode is set and the mount effect once after construction.
