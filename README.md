# Checkout settlement of the MERN storefront, in Dafny

This project models the card settlement path of the storefront and proves properties of it. The path has two ends:

- **The checkout page** (`frontend/src/features/checkout/components/Checkout.jsx`).
  - It totals the cart.
  - It runs `handleCardPayment`: guard checks, then an intent request to the payment server, then the card confirmation with the gateway. On a succeeded payment it dispatches the order creation and the cart reset and navigates to the success page. Otherwise it shows one of several messages.
  - It runs the `currentOrder` effect while the page is mounted: when the store holds an order with an id, it resets the cart and navigates to that order's page.
- **The server's `POST /create-payment-intent` route** (`backend/index.js`). It validates the amount, asks the gateway for an intent of `amount * 100` US cents, and answers 200, 400 or 500.

Modules:

- `CartTotal`: the `orderTotal` fold, its reference definition Σ price × quantity, and the charged total `orderTotal + SHIPPING + TAXES`.
- `Country`: the `COUNTRY_TO_CODE` table and `getCountryCode`.
- `Postal`: the five-character minimum and `padStart(5, '0')`.
- `Checkout`: the form's guards, the billing details, and `CardPayment`, a function giving the form's final state and the ordered effects of one attempt. The class `CheckoutPage` is the page with the card form it renders. It holds `mounted`, `loading`, `paymentStatus`, `cardError` and a log of effects. Its method `HandleCardPayment` performs the handler step by step and is proved equal to `CardPayment`. A navigation away from `/checkout` unmounts the page (`/checkout` and `/order-success/:id` are sibling routes in `frontend/src/App.js`), and an unmounted page runs no `currentOrder` effect.
- `IntentEndpoint`: the route handler as a function from the request amount and the gateway's reply to the response written and the gateway call made.
- `Settlement`: one attempt end to end. The form posts its amount to the route, and axios hands the response back. It also holds the scenario lemmas.

All amounts are integer minor units (cents). The client's `Math.round(total * 100)` (Checkout.jsx line 109) therefore sends the charged total unchanged, and the order records the same number. The gateway's verdicts, the axios reply and the card confirmation are input datatypes. Calls and dispatches are recorded as `Effect`s: `PostIntent`, `ConfirmCard`, `CreateOrder`, `ResetCart`, `Navigate`.

A settlement flow that spans a payment gateway and an order store would be expected to write the order before clearing the cart, to create one order per payment intent, and to re-confirm a payment that needs further action. The code does none of these, and the model follows the code:

- **Double scaling.** The client already sends cents, and the route multiplies by 100 again (backend/index.js line 68). The model keeps this. `Settlement.Attempt` proves that every attempt past the guards with a positive total asks the gateway for 100 × the charged total in cents, whatever the card's verdict, and that the recorded order's total is that charged total. For a $47.00 checkout that is 470000 cents (`Settlement.ScenarioSettled`).
- **No ordering against persistence.** The order creation and the cart reset are dispatched one after the other without waiting for the order write (lines 168-169). The model states the dispatch order. There is no "payment captured, order pending" state, and the cart reset is dispatched whether or not the order write succeeds.
- **No idempotency check.** Nothing looks up an existing order by intent id. One attempt creates at most one order (the `OrderBeforeReset` clause of `Checkout.CardPayment`'s contract); repeated attempts are not deduplicated.
- **"requires action" is not re-confirmed.** Any status other than `succeeded` shows the "unclear" message and ends the attempt.
- **One cart reset per settled attempt.** The handler's navigation to `/order-success/<intent id>` unmounts the page, so the page's `currentOrder` effect does not run after the order is stored. A settled attempt dispatches exactly one cart reset and ends on the intent's page (`Checkout.SettledAttemptResetsOnce`, `Settlement.SettledCheckout`). The effect does run when the page is mounted while the store still holds an order with an id: it then resets the cart and leaves for that order's page at once (`Checkout.CheckoutPage.constructor`).

## Model

| member | source | states |
|---|---|---|
| `CartTotal.ReduceIsSum` | frontend/src/features/checkout/components/Checkout.jsx:227 | the `reduce` fold from any start value is that value plus Σ price × quantity |
| `CartTotal.OrderTotalIsSum` | frontend/src/features/checkout/components/Checkout.jsx:227 | `orderTotal` equals Σ price × quantity over the cart items |
| `CartTotal.OrderTotalAppend` | frontend/src/features/checkout/components/Checkout.jsx:227 | the total of a concatenated cart is the sum of the parts' totals (integer amounts, no drift) |
| `CartTotal.ChargedTotalNonNegative` | frontend/src/features/checkout/components/Checkout.jsx:227 | with non-negative prices, quantities and fees, `orderTotal + SHIPPING + TAXES` is at least the fees and never negative |
| `Country.GetCountryCode` | frontend/src/features/checkout/components/Checkout.jsx:58-73 | the result is always a two-character upper-case code: a table entry, `US`, or the name itself; the warning is logged exactly for a present name that is neither a code nor in the table, and then the code is `US` |
| `Country.MissingNameIsDefault` | frontend/src/features/checkout/components/Checkout.jsx:58-59 | a missing or empty name gives `US` without a warning |
| `Country.CodePassesThrough` | frontend/src/features/checkout/components/Checkout.jsx:61-64 | a two-character string equal to its upper-case form is returned unchanged |
| `Country.NameLookup` | frontend/src/features/checkout/components/Checkout.jsx:66-72 | a name in `COUNTRY_TO_CODE` gives its entry; any other name gives `US` with a warning |
| `Postal.Repeat` | frontend/src/features/checkout/components/Checkout.jsx:123 | the fill prefix has the requested length and consists of the fill character only |
| `Postal.PadStart` | frontend/src/features/checkout/components/Checkout.jsx:123 | the padded string has length max(5, original), ends with the original, is fill characters before it, and is the original when that is long enough |
| `Postal.ValidCodeUnpadded` | frontend/src/features/checkout/components/Checkout.jsx:96 | a postal code that passed the length check is unchanged by `padStart(5, '0')` |
| `Checkout.GuardMessage` | frontend/src/features/checkout/components/Checkout.jsx:85-99 | the attempt continues exactly when the gateway library is ready, an address is selected and its postal code has at least 5 characters; otherwise the result is one of the three guard messages |
| `Checkout.Billing` | frontend/src/features/checkout/components/Checkout.jsx:122-145 | the billing details carry the validated postal code as entered and the normalised two-character country code |
| `Checkout.CardPayment` | frontend/src/features/checkout/components/Checkout.jsx:84-181 | a guard failure changes only `paymentStatus` (no request, `loading` and `cardError` kept); past the guards the first effect is the intent request for the charged total and `loading` ends false; the card is confirmed exactly when a client secret came back; the stores are written exactly on a `succeeded` verdict, with at most one order and every cart reset after it; then the effects are request, confirm, create order (`CARD`, the cart items, the charged total, the intent id), reset cart, navigate to `/order-success/<id>` |
| `Checkout.IntentFailureOutcome` | frontend/src/features/checkout/components/Checkout.jsx:108-117 | a rejected intent request or a reply without `clientSecret` ends with its message in `paymentStatus`, `loading` false, and no effect but the request |
| `Checkout.ConfirmErrorOutcome` | frontend/src/features/checkout/components/Checkout.jsx:150-156 | a confirmation error writes no store; `card_error` and `validation_error` set `cardError` to the gateway's message, any other type sets the generic status message |
| `Checkout.UnsettledVerdictOutcome` | frontend/src/features/checkout/components/Checkout.jsx:171-177 | a non-succeeded status sets the "unclear" message, a rejected confirmation its own message or the fallback; no store is written |
| `Checkout.CurrentOrderEffects` | frontend/src/features/checkout/components/Checkout.jsx:240-245 | the effect runs exactly when the page is mounted and the store holds a current order with an id; its first effect resets the logged-in user's cart, it holds exactly one cart reset, it leaves the checkout page, and its last navigation is to the stored order's page |
| `Checkout.CheckoutPage.constructor` | frontend/src/features/checkout/components/Checkout.jsx:53-55 | mounting starts the form not loading, with no status and no card error (lines 53-55), and runs the `currentOrder` effect of lines 240-245 once with the store's current order; the page stays mounted exactly when that effect did nothing |
| `Checkout.CheckoutPage.HandleCardChange` | frontend/src/features/checkout/components/Checkout.jsx:76-82 | `cardError` becomes the card element's error; nothing else changes |
| `Checkout.CheckoutPage.HandleCardPayment` | frontend/src/features/checkout/components/Checkout.jsx:84-181 | on the mounted page, the step-by-step handler (guards, `loading` set and statuses cleared, request, confirm, dispatch, catch, finally) leaves the form in the state `CardPayment` gives, appends exactly its effects to the log, and leaves the page mounted exactly when the payment did not settle |
| `Checkout.CheckoutPage.OnCurrentOrder` | frontend/src/features/checkout/components/Checkout.jsx:240-245 | a change of the store's current order appends `CurrentOrderEffects` for the page's mounted state, leaves the form's state unchanged, and unmounts the page when the effect navigated |
| `IntentEndpoint.CreatePaymentIntent` | backend/index.js:59-77 | a missing, zero or negative amount gets 400 `Invalid amount` and no gateway call; a valid amount is sent as `100 × amount`, `usd`, `["card"]`; 200 carries the gateway's client secret and happens only on gateway success; a gateway failure gives 500 with its message and no secret |
| `IntentEndpoint.StatusIsOneOfThree` | backend/index.js:62-76 | every response has status 200, 400 or 500 |
| `Settlement.AxiosReply` | frontend/src/features/checkout/components/Checkout.jsx:108-117 | a non-2xx response rejects the request; the form sees a client secret exactly for a 2xx response with a non-empty secret |
| `Settlement.Attempt` | frontend/src/features/checkout/components/Checkout.jsx:108-113 | end to end: a guard failure makes no gateway call; a non-positive total is refused by the route with no gateway call and no store write; past the guards a positive total makes the gateway be asked for 100 × the charged total; the stores are written exactly when the route returns a non-empty secret and the confirmation is `succeeded`; a gateway failure writes nothing; every created order's total times 100 is the amount the gateway was asked for |
| `Settlement.ScenarioSettled` | frontend/src/features/checkout/components/Checkout.jsx:105-170 | a $40.00 cart with $5 shipping and $2 tax requests 4700 cents, records an order of 4700, and the gateway is asked for 470000 cents |
| `Settlement.ScenarioDeclined` | frontend/src/features/checkout/components/Checkout.jsx:150-153 | a declined card shows the gateway's message as `cardError` and writes neither store |
| `Settlement.SettledCheckout` | frontend/src/features/checkout/components/Checkout.jsx:168-170 | on a freshly mounted page, a settled payment followed by any change of the store's current order leaves a log with exactly one cart reset whose last navigation is to `/order-success/<intent id>` |
| `CartTotal.Reduce` | frontend/src/features/checkout/components/Checkout.jsx:227 | definition of the `reduce` fold; its properties are in `CartTotal.ReduceIsSum` |
| `CartTotal.OrderTotal` | frontend/src/features/checkout/components/Checkout.jsx:227 | definition of `orderTotal`, the fold from 0; its properties are in `CartTotal.OrderTotalIsSum` and `CartTotal.OrderTotalAppend` |
| `CartTotal.ChargedTotal` | frontend/src/features/checkout/components/Checkout.jsx:109 | definition of `orderTotal + SHIPPING + TAXES`; `Checkout.CardPayment` proves it is both the requested amount and the order's total |
| `Country.ToUpperChar` | frontend/src/features/checkout/components/Checkout.jsx:62 | definition of `toUpperCase` on one ASCII character; used through `Country.IsCode` |
| `Country.ToUpper` | frontend/src/features/checkout/components/Checkout.jsx:62 | definition of `toUpperCase` on a string, character by character; used through `Country.IsCode` |
| `Country.IsCode` | frontend/src/features/checkout/components/Checkout.jsx:62 | definition of the pass-through test; `Country.GetCountryCode` proves every result passes it |
| `Postal.PostalValid` | frontend/src/features/checkout/components/Checkout.jsx:96 | definition of the postal-code check; `Checkout.GuardMessage` and `Postal.ValidCodeUnpadded` state its role |
| `Checkout.HasSecret` | frontend/src/features/checkout/components/Checkout.jsx:115 | definition of the test that `data` and `data.clientSecret` are present and non-empty; `Checkout.CardPayment` proves the card is confirmed exactly when it holds |
| `Checkout.CaughtMessage` | frontend/src/features/checkout/components/Checkout.jsx:177 | definition of the caught error's message with its fallback for an empty message; `Checkout.UnsettledVerdictOutcome` states its use |
| `Checkout.OrderSuccessPath` | frontend/src/features/checkout/components/Checkout.jsx:170 | the success page's path is never `/checkout`, so navigating there unmounts the page |
| `Checkout.SettledAttemptResetsOnce` | frontend/src/features/checkout/components/Checkout.jsx:157-170 | a settled attempt's effects, plus whatever a later change of the store's current order causes on the unmounted page, hold exactly one cart reset and end with the navigation to `/order-success/<intent id>` |
| `Checkout.CheckoutPage.Emit` | frontend/src/features/checkout/components/Checkout.jsx:168-170 | an effect is appended to the log; a navigation away from `/checkout` unmounts the page; the form's state is unchanged |
| `IntentEndpoint.AmountValid` | backend/index.js:62 | definition of the amount check; `IntentEndpoint.CreatePaymentIntent` proves a 400 is written exactly when it fails |
| `CartTotal.LineTotal` | frontend/src/features/checkout/components/Checkout.jsx:227 | definition of the reduce callback's `item.product.price * item.quantity`; used by `CartTotal.Reduce` and `CartTotal.Sum` |
| `Checkout.PageProps` | frontend/src/features/checkout/components/Checkout.jsx:337 | definition of the props the page hands the card form, with `orderTotal` computed from the cart as at line 227; `Settlement.ScenarioSettled` uses it |

## Left out

- Floating-point prices and `Math.round`: prices and totals are integer cents, so the rounding at line 109 is the identity.
- The `SHIPPING` and `TAXES` constants: their module is not part of this model, so they are a `Fees` parameter.
- The gateway SDK (`loadStripe`, `confirmCardPayment`, `CardElement`), axios and the redux thunks: their results are inputs, their calls are recorded effects. Whether a dispatched order write or cart reset later succeeds is not modelled.
- A missing `loggedInUser`: the checkout route is wrapped in the login guard, so the user is a value. The `TypeError` that `loggedInUser._id` would throw is not modelled.
- `Country.GetCountryCode` handles only ASCII letters for `toUpperCase` and counts characters, not UTF-16 code units. Names inherited from `Object.prototype` (such as `constructor`) are not modelled; in JavaScript they would look up as truthy values of the table.
- `Postal.PostalValid` takes the postal code as a string and counts characters, not the UTF-16 code units that `toString().length` counts; `toString` on a numeric field value is not modelled.
- `IntentEndpoint.CreatePaymentIntent` takes the amount as an optional integer. Non-numeric or fractional JSON values (`NaN`, strings) are not modelled.
- `Checkout.CheckoutPage.HandleCardPayment` states the final state and the effect log, not the state at its two suspension points (`loading` is true while the intent request and the confirmation are awaited).
- `Checkout.CheckoutPage.HandleCardPayment` requires a mounted page. A user who leaves the page while a request is awaited is not modelled; the handler would go on dispatching and navigating.
- `Checkout.CheckoutPage.Emit` unmounts the page at the moment the navigation is dispatched. In the program, the router finishing that navigation (line 170) and the order write started at line 168 resolving are two asynchronous events. The model assumes the navigation completes first, so the store's new current order never reaches the mounted page.
- The order store's `currentOrder` (the order slice) is not part of this model: its value at mount time and after an order write is an input of `Checkout.CheckoutPage.constructor` and `Checkout.CheckoutPage.OnCurrentOrder`.
- Console logging is not modelled, except the "country code not found" warning, which is the `warned` flag of `Country.GetCountryCode`.
- The pay button's disabled state (line 203), the address form, the address list and all rendering: these are presentation.
- The other Express routes, middleware, the database connection and `server.listen`: not part of the settlement path.
