# Event-space booking: pricing rule and payment-intent endpoint

This project models the two parts of the booking site that hold logic.

- **Pricing** (`pricing.dfy`, module `Pricing`) covers the checkout form's pricing rule and its price state.
  - A booking has a duration, a start day and a start hour, a guest count and three add-on flags.
  - These give an itemised breakdown: a base-rate subtotal, an extra-guest-fee subtotal, a flat cleaning fee and one entry per selected add-on.
  - The total is the sum of those items.
  - `Checkout` is the form's state: the displayed total and breakdown. Confirming the details overwrites both.
  - The pay button is shown only for a positive total.
- **PaymentIntent** (`payment_intent.dfy`, module `PaymentIntent`) covers the API route that creates the payment intent.
  - It rejects a malformed body with 400 and a non-POST method with 405.
  - It then requests a tax calculation, built from the items as line items.
  - Next it requests a payment intent for the client's `totalPrice` in cents, in `usd`.
  - It answers with the intent's client secret, or with 500 and the thrown error's message.

How the model is built:

- The pricing step `CalculatePrice` is written the way the form computes it. The base rate is reassigned inside nested branches, and the add-on fees are accumulated while each add-on key is inserted.
- `CalculatePrice` is proved equal to a tabled reference, `BreakdownFor`. Its total is proved equal to the sum rebuilt from the breakdown (`ItemisedTotal`).
- The lemmas state the rate tiers, the guest thresholds, the add-on entries and the closed-form total. They also state that every total is positive.
- The HTTP response object is the class `ServerResponse`, with `status`, `json` and `send` as methods. `Handler` writes to it with early returns and a try/catch, as the route does.
- The two payment-processor calls are abstract: each is passed in as an outcome that either returns a value or throws with a message. `Handler` also returns the list of processor requests it made.

Points where the code does not do what its own text suggests; the model follows the code:

- **Sunday rate.** The `dayOfWeek === 0` test (components/CheckoutForm.jsx line 37) suggests Sunday was meant to get the 150 premium. It sits inside the Friday/Saturday branch, so it never decides anything. Sunday pays 100, like every day other than Friday and Saturday (`RateTiers`).
- **405 response.** The 405 answer carries no `Allow: POST` header. The handler sets no header at all (`Handler`: `res.headers` is unchanged).
- **Intent amount.** The comment on `calculateOrderAmount` says the amount should be computed on the server. The handler never calls it: it charges the client's `totalPrice × 100`.
- **Zero or negative total.** The server accepts any defined `totalPrice`, including 0 or a negative number. It requests an intent for that amount times 100. The only guard against a zero total is the form's `totalPrice > 0` check on the pay button (components/CheckoutForm.jsx line 187).
- **Null body.** The body is destructured (line 45) before the `try`. A JSON `null` body therefore throws a TypeError that the handler does not catch, instead of getting the 400 answer.

## Model

| member | source | states |
|---|---|---|
| `Pricing.DurationHours` | components/CheckoutForm.jsx:28 | the duration is never negative, and multiplied by 3,600,000 it gives the absolute difference of the two instants in milliseconds |
| `Pricing.DurationSymmetric` | components/CheckoutForm.jsx:28 | swapping start and end does not change the duration |
| `Pricing.CalculatePrice` | components/CheckoutForm.jsx:25-70 | the step-by-step computation yields exactly the tabled breakdown. Its total equals base + guest fee + cleaning fee + the sum of the add-on entries |
| `Pricing.RateTiers` | components/CheckoutForm.jsx:30-38 | the rate is one of 100/110/120/150. It is 100 on every day but Friday and Saturday, Sunday included. On Friday and Saturday it is 110 exactly before 17:00, 120 exactly for 17:00–20:59, and 150 exactly from 21:00 |
| `Pricing.GuestThresholds` | components/CheckoutForm.jsx:40-41 | the hourly guest fee is 0 iff guests ≤ 19, 10 iff 20–29, and 20 iff ≥ 30. The cleaning fee is 50 iff guests ≤ 20 and 125 iff above. Guests = 20 is the only count paying a guest fee with the low cleaning fee |
| `Pricing.CleaningFeeIgnoresDuration` | components/CheckoutForm.jsx:41-47 | changing the start and end instants leaves the cleaning fee unchanged |
| `Pricing.AddOnEntries` | components/CheckoutForm.jsx:51-65 | each add-on key is present iff its flag is set, and no other key appears. The values are 50·duration, 100·duration and a flat 350 |
| `Pricing.SumRemove` | components/CheckoutForm.jsx:67 | the sum of the add-on values can be taken starting from any entry |
| `Pricing.SumInsert` | components/CheckoutForm.jsx:53-54 | inserting a new add-on key adds its cost to the sum of the entries, matching the `addOnFees +=` accumulation |
| `Pricing.AddOnSum` | components/CheckoutForm.jsx:51-65 | the add-on entries sum to 50·duration if the extra room is selected, plus 100·duration if the photographer is, plus 350 if the package is |
| `Pricing.SelectedAddOnsByInsertion` | components/CheckoutForm.jsx:51-65 | the add-on map equals the result of the three conditional insertions (extra room, photographer, package), each made only when its add-on is selected |
| `Pricing.TotalFormula` | components/CheckoutForm.jsx:44-67 | the total rebuilt from the breakdown is rate·duration + guest fee·duration + cleaning fee, plus 50·duration for the extra room, 100·duration for the photographer and 350 for the package, each only when selected |
| `Pricing.TotalCoversCleaningFee` | components/CheckoutForm.jsx:41-67 | every total is at least the cleaning fee, which is at least 50, so the total is positive |
| `Pricing.FridayLateNightExample` | components/CheckoutForm.jsx:28-38 | Friday 22:00 to 02:00 the next day is 4 hours at 150, a base subtotal of 600 |
| `Pricing.TuesdayExample` | components/CheckoutForm.jsx:40-67 | Tuesday 10:00, 3 hours, 25 guests, no add-ons: base 300, guest fee 30, cleaning 125, total 455 |
| `Pricing.Checkout.constructor` | components/CheckoutForm.jsx:17-23 | the initial state is a zero total, a zero breakdown with no add-ons, and no pay button |
| `Pricing.Checkout.ConfirmDetails` | components/CheckoutForm.jsx:73-77 | the new total and breakdown are those of the given booking alone. Nothing from an earlier confirm survives. The pay button (`totalPrice > 0`, line 187) is then shown |
| `PaymentIntent.BuildLineItem` | pages/api/create-payment-intent.js:26-31 | a line item carries the item's amount unchanged and the item's id as its reference |
| `PaymentIntent.BuildLineItems` | pages/api/create-payment-intent.js:20-31 | one line item per item, in the same order. Each carries the item's amount and the item's id as its reference |
| `PaymentIntent.ToCents` | pages/api/create-payment-intent.js:60 | the intent amount divided by 100 is the total price, and it is positive iff the total is |
| `PaymentIntent.CalculateOrderAmount` | pages/api/create-payment-intent.js:34-41 | the order amount is 1400 plus the exclusive tax, and the items play no part |
| `PaymentIntent.ServerResponse.constructor` | pages/api/create-payment-intent.js:43 | the response starts unwritten, with status 200 and no headers |
| `PaymentIntent.ServerResponse.Status` | pages/api/create-payment-intent.js:48 | sets the status code and nothing else |
| `PaymentIntent.ServerResponse.SendJson` | pages/api/create-payment-intent.js:73-78 | sends a JSON body and ends the response, keeping status and headers |
| `PaymentIntent.ServerResponse.SendText` | pages/api/create-payment-intent.js:52 | sends a text body and ends the response, keeping status and headers |
| `PaymentIntent.Handler` | pages/api/create-payment-intent.js:43-80 | a `null` body throws while it is destructured (line 45), outside the try: the error escapes, nothing is written and no processor is called. Otherwise a falsy `items` or an undefined `totalPrice` gets 400 `Invalid request data`, before the method check. A well-formed non-POST gets 405 `Method Not Allowed` as text. Neither makes a processor call. Otherwise the tax calculation is requested first (currency `eur`, the built line items), then an intent for `totalPrice` in cents in `usd`. A throw gives 500 with its message. A client secret, with status 200, comes back iff every step succeeded. No header is ever set |

## Left out

- Date parsing and the local time zone (`new Date(...)`, `getDay`, `getHours`). The model takes the start and end instants in milliseconds, the day of week and the start hour as inputs. An unparsable date, which yields NaN in the code, is not modelled.
- Floating point. Money, hours, the division by 3,600,000 and the multiplication by 100 are exact reals, so JavaScript rounding is not captured.
- The form's guest-count bounds (2 to 40) and the string-to-number coercion of the form fields. These belong to the form library, and the pricing rule is stated for every integer guest count.
- The client-side payment submission (`onPaymentSubmit`): an asynchronous fetch plus the processor's `confirmPayment`. It refers to an undeclared `items` and so throws before the fetch. The form's `isLoading` and `message` state, which only that submission uses, is not modelled either.
- The processor's SDK calls (`stripe.tax.calculations.create`, `stripe.paymentIntents.create`). Each is an abstract outcome: a returned value or a throw with a message. The hard-coded address, `automatic_payment_methods` and the logging are not modelled.
- The module-level `req.body` logging at the top of the API route. It would throw when the module loads. The model describes the handler as if the module had loaded.
- A `totalPrice` that is neither undefined nor a number (null, a string). The model carries it as an optional real.
- Item objects with missing fields, or elements that are not objects, inside the items array. Items are records of an amount and an id.
- What the framework sends when the handler's error escapes (the `null`-body case). `Handler` reports the escaping error and leaves the response unwritten.
- The key order of `addOns`. A JavaScript object keeps insertion order, and the form lists the add-ons in that order (line 181). A Dafny `map` has no order. The order follows from the flags, always extra room, photographer, package.
- Response headers the framework itself adds (Content-Type from `json` and `send`). `ServerResponse` tracks only the headers the handler sets, and it sets none.
- The rendering, the Stripe Elements, the home page that creates the intent on load, and the mismatch between the `eur` tax currency and the `usd` charge currency, which is kept as written.
