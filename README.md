# Storefront checkout, order and success-page model

A Dafny model of the purchase path of a Next.js course and study-material
storefront. A buyer:

- fills in a details form in one of two checkout components: the embedded
  drop-in in `components/Checkout.js`, or the hosted redirect in
  `components/checkout.js`;
- gets an order created by the `/api/createOrder` endpoint, which checks
  the required fields, makes an order id and asks the payment provider for
  a payment session;
- lands on the success page, which finds the bought product in the
  catalogue (the product list followed by products generated from the
  material groups) and shows or redirects to its link.

Three smaller pieces are modelled as well: the contact form, the dashboard's
"my courses" list and the star-rating component.

## Modelling choices

- **JavaScript values.** A value is a `JsValue`: undefined, null, a
  boolean, an integer or a string. `Truthy` is JavaScript's truthiness over
  these. A JSON body is a `map<string, JsValue>`, and a missing key reads
  as undefined.
- **React components become classes.** The state hooks are the class's
  fields and each event handler is a method. A handler's `await`s are
  replaced by their outcome, passed in as a parameter: the network reply,
  whether the provider's SDK is present, the callbacks' arguments. Toasts,
  request bodies and navigations are returned, not performed.
- **Pure parts become functions.** The endpoint, the validation rules, the
  catalogue transformation's specification, the link choice, the dashboard
  filter and the star counts are functions. Clocks and randomness are
  parameters: `now` for `Date.now()` and `draw` for `Math.random()`.
- **The counter loop.** `transformMaterialToProducts` is a method whose
  loop carries the running `idCounter`. It is proved equal to `Transform`,
  a count-indexed recursive definition, and the lemmas are stated about
  `Transform`.
- **Query strings.** They are split on `?`, `&` and `=` with no
  percent-decoding.
- **Numbers.** `parseInt` is read in base ten. Ratings are exact reals.

What the model shows about the pieces together (module `Composition`):

- Neither checkout component sends `courseId`, `courseName` or `userId`,
  all three of which the endpoint requires. Every order either component
  asks for is refused with status 400 and the provider is never called
  (`CheckoutOrdersRefused`).
- The drop-in therefore never leaves the details form for the payment
  view (`DropinStaysOnDetails`), and the redirect component never hands
  the buyer over (`RedirectNeverHandsOver`).
- The return URL the endpoint gives the provider carries `course_id` but
  no `product_id`. The success page reached through it keeps showing its
  spinner (`ReturnToSuccessPage`).
- After a session reply whose session id is empty or missing, the drop-in
  stays in its processing state with the submit button disabled
  (`HandleProceedToPayment`'s `Processing` clause). Nothing in the
  component leaves that state except "Back to Details" once a session is
  held, and no session is held then.

## Model

| member | source | states |
|---|---|---|
| Validation.WithField | components/Checkout.js:35-38 | the named buyer field takes the typed value; the other two are unchanged |
| Validation.ValidateBuyer | components/Checkout.js:40-54 | the first failing rule, each as an if-and-only-if: an empty field is MissingFields; otherwise a non-matching e-mail is InvalidEmail; otherwise a phone that is not ten digits is InvalidPhone; Valid exactly when all three rules pass |
| Validation.EmailScanMatchesPattern | components/Checkout.js:45 | the left-to-right e-mail scan accepts exactly the strings of the form L@M.R with L, M and R non-empty runs of non-whitespace, non-`@` characters |
| CheckoutClient.OrderRequestBody | components/Checkout.js:65-73 | the posted body has only the seven keys sent; the product id, product name and telegram link are the page query's values (left out when undefined); the three buyer fields are the typed strings; the amount is the parsed number or null for NaN |
| CheckoutClient.ReadOrderReply | components/Checkout.js:76-79 | a session is issued exactly when the status is 2xx and `success` holds, carrying the reply's session id; otherwise the refusal carries the reply's non-empty error, the fixed fallback message, or a failed fetch's own message |
| DropinCheckout.Checkout.constructor | components/Checkout.js:11-17 | empty form, not loading, no session id; the details form shows |
| DropinCheckout.Checkout.HandleInputChange | components/Checkout.js:35-38 | the form becomes `WithField` of the old form; loading and session id unchanged |
| DropinCheckout.Checkout.HandleProceedToPayment | components/Checkout.js:56-85 | invalid details give their toast and no request; valid details post `OrderRequestBody`; an issued session sets the id and keeps loading; a refusal shows its message and stops loading; the payment view shows exactly when a non-empty session id was issued, and the processing state remains exactly when the issued id is empty or missing |
| DropinCheckout.Checkout.RunDropinEffect | components/Checkout.js:88-117 | the drop-in mounts exactly when a non-empty session id is held and the SDK is present, with production mode, the five payment components and the session id as order token, and loading ends; otherwise nothing changes |
| DropinCheckout.Checkout.OnPaymentSuccess | components/Checkout.js:94-97 | the success toast, and a target URL whose query gives back the order id and the page's product id |
| DropinCheckout.SuccessTargetQuery | components/Checkout.js:96 | the success URL built by `onSuccess` parses back to its order id and product id when neither contains `&` |
| DropinCheckout.Checkout.OnPaymentFailure | components/Checkout.js:98-101 | the failure toast carries the provider's message; loading stops; the form and session id are unchanged |
| DropinCheckout.Checkout.BackToDetails | components/Checkout.js:223 | the session id is dropped and the payment view is left; nothing else changes |
| RedirectCheckout.Checkout.constructor | components/checkout.js:12-17 | empty form, not loading |
| RedirectCheckout.Checkout.HandleInputChange | components/checkout.js:27-30 | the form becomes `WithField` of the old form; loading unchanged |
| RedirectCheckout.SubmitOutcome | components/checkout.js:68-80 | a hand-over happens exactly when a session was issued, the SDK is present and the id is non-empty, and it targets `_self` with that id; a refusal keeps its message; any other issued reply fails with the SDK-or-session message |
| RedirectCheckout.Checkout.HandleSubmit | components/checkout.js:48-87 | invalid details give their toast and no request; valid details post `OrderRequestBody`; the form is cleared only on hand-over; every failure shows its message; loading is off at the end either way |
| OrderApi.FalsyAmongExactly | pages/api/createOrder.js:12-19 | a name is in the falsy list exactly when it is among the checked names and its body value is falsy |
| OrderApi.FalsyAmongInOrder | pages/api/createOrder.js:12-19 | the falsy list is a subsequence of the checked names |
| OrderApi.MissingFieldsExactly | pages/api/createOrder.js:12-19 | `missingFields` holds exactly the required fields whose values are falsy, in check order |
| OrderApi.NothingMissingIffComplete | pages/api/createOrder.js:21 | nothing is missing exactly when every required field is truthy |
| OrderApi.FalsyAmongStep | pages/api/createOrder.js:13 | one push followed by the remaining checks gives what all the checks give |
| OrderApi.FalsyAmongEnds | pages/api/createOrder.js:12 | the list starts empty, and no remaining checks add nothing |
| OrderApi.PushIfMissing | pages/api/createOrder.js:13 | the name is appended exactly when the value is falsy |
| OrderApi.CollectMissingFields | pages/api/createOrder.js:12-19 | the seven successive pushes build exactly `MissingFieldNames` of the body |
| OrderApi.RandomSuffix | pages/api/createOrder.js:28 | the suffix lies in 0..999 and is the floor of the draw times 1000 |
| OrderApi.OrderIdRoundTrip | pages/api/createOrder.js:28 | an order id parses back to the timestamp and suffix it was made from |
| OrderApi.StampAndSuffixRoundTrip | pages/api/createOrder.js:28 | the `<timestamp>_<suffix>` tail of an order id parses back to its two numbers |
| OrderApi.OrderIdInjective | pages/api/createOrder.js:28 | two order ids are equal only for the same timestamp and the same suffix |
| OrderApi.ReturnUrlQuery | pages/api/createOrder.js:44 | the return URL's query gives the provider's `{order_id}` placeholder, the course id, and nothing under any other key |
| OrderApi.Handler | pages/api/createOrder.js:4-73 | the status is 405 exactly for a non-POST; 400 exactly for a POST with a falsy required field; 500 exactly when the provider was called and threw; 200 otherwise with the provider's session id and the order id; `success` holds exactly on 200; the provider is called exactly on 200 and 500, and a 500 carries `Failed to create Cashfree order` and nothing else |
| OrderApi.NonPostRefused | pages/api/createOrder.js:5-7 | any non-POST gets 405 `Method Not Allowed` with no provider call |
| OrderApi.MissingFieldsRefused | pages/api/createOrder.js:21-26 | a POST with falsy required fields gets 400 naming them, joined by `, `, with no provider call |
| OrderApi.PayloadShape | pages/api/createOrder.js:28-47 | a complete POST calls the provider with the given amount, INR, customer id `cust_<userId>`, an id `ORDER_<now>_<k>` with k at most 999, and a return URL carrying the placeholder and the course id |
| Success.NumberItems | pages/success.js:65-74 | the inner map yields one product per item |
| Success.FlatNumbered | pages/success.js:64-75 | the flattened list has as many products as the groups have items |
| Success.Transform | pages/success.js:58-76 | a non-array gives no products; an array of groups gives one product per item, a group without items giving none |
| Success.NumberGroup | pages/success.js:65-74 | the inner map over a group's items equals `NumberItems` from the current counter, and the counter advances by the number of items |
| Success.TransformMaterialToProducts | pages/success.js:58-76 | the loop with its running `idCounter` returns exactly `Transform(material, startId)` |
| Success.NumberItemsAt | pages/success.js:65-66 | item k of a group is built with counter value `next + k` |
| Success.FlatPrefix | pages/success.js:64 | the products of the first groups are a prefix of the products of more groups |
| Success.FlatAt | pages/success.js:64-66 | item k of group g becomes the product at position (items before group g) + k, built with that counter value |
| Success.FlatAtGroup | pages/success.js:64-66 | the same, among the products of groups 0..g |
| Success.FlatIds | pages/success.js:66 | with a callback that uses the counter as the id, position i carries id `next + i` |
| Success.FlatEvery | pages/success.js:64-74 | a property every built product has holds of every flattened one |
| Success.ItemPosition | pages/success.js:59-74 | item k of group g becomes, at position (items before group g) + k, the product built from that item and its group with id startId + 1 + position |
| Success.GeneratedId | pages/success.js:59-66 | generated ids run startId + 1, startId + 2, … without a gap |
| Success.GeneratedProductShape | pages/success.js:67-72 | every generated product has a non-empty name, a bot link and no other link, price 10 and the fixed category |
| Success.MaxProductId | pages/success.js:28-30 | 0 for an empty list; otherwise a bound of every id's numeric value that is attained by one of them |
| Success.NoIdCollision | pages/success.js:28-36 | no generated id equals the id of any product already in the list |
| Success.FindById | pages/success.js:39 | a found product is one of the listed products and carries the target id; nothing is found only for NaN or when no product carries it |
| Success.FindFirst | pages/success.js:39 | the lookup returns the first product carrying the id |
| Success.FindSkip | pages/success.js:39 | the lookup passes over a prefix without the id |
| Success.CatalogueIdsBelow | pages/success.js:28-30 | no listed product carries an id above the maximum |
| Success.FindInSecond | pages/success.js:36-39 | over two lists, the first match in the second list is found when the first list lacks the id |
| Success.TrimStart | pages/success.js:39 | `parseInt`'s leading whitespace skip: the result is a suffix, everything dropped is whitespace, and it starts with a non-whitespace character |
| Success.DigitPrefix | pages/success.js:39 | the longest leading run of decimal digits |
| Success.DigitPrefixAll | pages/success.js:39 | a digit string is its own digit prefix |
| Success.TrimStartNoSpace | pages/success.js:39 | nothing is trimmed from a string that starts with non-whitespace |
| Success.ParseSignedDigits | pages/success.js:39 | a signed digit string reads as its value |
| Success.ParseIntOfDigits | pages/success.js:39 | `parseInt` of an optionally negated digit string is its value |
| Success.ParseIntOfIntToString | pages/success.js:39 | `parseInt` reads any printed integer back to itself |
| Success.ChooseLink | pages/success.js:41-42 | a link exists exactly when a product was found with a truthy `telegramLink` or `link`; it is the telegram link when that is truthy, else the link |
| Success.MaterialLink | pages/success.js:68 | a generated product's link is the bot link for its item's key |
| Success.GeneratedLookup | pages/success.js:33-39 | looking up a generated id finds the product generated at that position |
| Success.MaterialFound | pages/success.js:33-39 | on the page, a generated id finds the product made from its item |
| Success.MaterialItemReachable | pages/success.js:28-42 | for every material item there is a product id under which the page resolves to that item's bot link |
| Success.SuccessPage.constructor | pages/success.js:13-15 | the page holds the query's product id, an empty link, is loading, and has no redirect scheduled |
| Success.SuccessPage.LoadProduct | pages/success.js:17-56 | without a product id nothing changes and the spinner stays; with one, loading ends, a found link is stored, scheduled for redirect and shown, and no link with no earlier link shows "link not found" |
| Contact.WithField | pages/contact.js:13-16 | the named contact field takes the typed value; the others are unchanged |
| Contact.ValidateContact | pages/contact.js:20-27 | each as an if-and-only-if: an empty field is MissingFields; otherwise a non-matching e-mail is InvalidEmail; Valid exactly when all fields are present and the e-mail matches; never InvalidPhone |
| Contact.SameRulesAsCheckout | pages/contact.js:20-27 | given a message and a valid phone, the contact and checkout validators agree on every name and e-mail |
| Contact.MessageContentIgnored | pages/contact.js:20 | only the message's presence matters, not its content |
| Contact.ContactForm.constructor | pages/contact.js:7-11 | the form starts empty |
| Contact.ContactForm.HandleInputChange | pages/contact.js:13-16 | the form becomes `WithField` of the old form |
| Contact.ContactForm.HandleSubmit | pages/contact.js:18-30 | a failed check gives its error toast and keeps the form; a passing form gives the success toast and is cleared |
| Dashboard.UserCourses | pages/dashboard.js:27 | a course is shown exactly when it is in the catalogue and its id is among the purchases; never more courses than the catalogue |
| Dashboard.UserCoursesAppend | pages/dashboard.js:27 | the filter distributes over concatenation, keeping catalogue order |
| Dashboard.UserCoursesCount | pages/dashboard.js:27 | each course appears as often as in the catalogue when purchased, else not at all |
| Dashboard.UnknownPurchasesIgnored | pages/dashboard.js:27 | purchased ids that name no course change nothing |
| Dashboard.MissingEntryIsEmptyList | pages/dashboard.js:12 | a missing purchase entry shows the same dashboard as a stored empty list |
| Dashboard.View | pages/dashboard.js:35-41 | the spinner exactly while loading; the empty state exactly when loaded with no user courses; otherwise the cards of the user's courses |
| Dashboard.NoPurchasesNoCourses | pages/dashboard.js:12-41 | with nothing stored, the loaded dashboard shows the empty state whatever the catalogue |
| Dashboard.MissingProgressShowsZero | pages/dashboard.js:54 | 0 is shown exactly when the recorded progress is missing or falsy; a truthy progress shows as recorded; the shown value is never blank; showing it again changes nothing |
| Rating.Trunc | components/Rating.js:5 | rounds toward zero: the floor for a non-negative rating, and for a negative rating the integer in [r, r + 1) |
| Rating.RemOne | components/Rating.js:5 | `rating % 1` lies strictly between -1 and 1; it is the fractional part for non-negative ratings and non-positive for negative ones |
| Rating.DefaultMaximum | components/Rating.js:3 | leaving the maximum out gives the same counts and the same icons as passing 5, so five icons whenever it renders |
| Rating.CountsMeaning | components/Rating.js:4-6 | full stars are the floor; a half star shows exactly when a non-negative rating's fraction is at least one half, never for a negative rating; the three counts add up to the maximum |
| Rating.CountsInRange | components/Rating.js:4-6 | a rating between 0 and the maximum gives no negative count |
| Rating.Repeat | components/Rating.js:10-16 | `n` copies of one icon |
| Rating.RepeatCount | components/Rating.js:10-16 | the copies hold that icon n times and no other |
| Rating.Render | components/Rating.js:10-16 | rendering succeeds exactly when neither `Array` count is negative (otherwise `RangeError`) |
| Rating.RenderCounts | components/Rating.js:10-16 | a rendered rating has exactly `maxRating` icons: the full stars first, then at most one half star, then the empty stars, with each kind counted |
| Rating.InRangeRenders | components/Rating.js:10-16 | every rating from 0 to the maximum renders |
| Composition.BodyLacksCourseAndUser | components/Checkout.js:65-73 | the checkout body has no `courseId`, `courseName` or `userId` |
| Composition.MissingFieldsSpelledOut | pages/api/createOrder.js:12-19 | the missing-field list is the seven checks concatenated in order |
| Composition.CheckoutBodyMissingFields | pages/api/createOrder.js:12-19 | for a checkout body the missing list is the course id, the course name, the amount if zero or NaN, each empty buyer field, and the user id |
| Composition.CheckoutOrdersRefused | pages/api/createOrder.js:21-26 | every checkout order gets 400 with that list and no provider call |
| Composition.ValidCheckoutMissing | pages/api/createOrder.js:12-19 | valid buyer details and a non-zero amount leave exactly the course id, course name and user id missing |
| Composition.ClientSeesRefusal | components/Checkout.js:76-79 | either component reads that 400 as a refusal carrying the endpoint's message |
| Composition.RedirectNeverHandsOver | components/checkout.js:68-80 | the redirect component's submission always fails with the endpoint's message |
| Composition.DropinStaysOnDetails | components/Checkout.js:56-85 | a fresh drop-in page, whatever details are typed and submitted against the endpoint, ends on the details form with no session and an error toast, the endpoint's missing-field message when the details were valid |
| Composition.ReturnUrlLacksProductId | pages/api/createOrder.js:44 | the return URL has no `product_id` |
| Composition.ReturnToSuccessPage | pages/success.js:13-18 | the success page reached through the return URL fetches nothing, schedules no redirect and keeps its spinner |

## Left out

- The provider SDK script injection (components/Checkout.js:20-33, components/checkout.js:19-25) is left out. The model takes whether the SDK is present as a parameter.
- The form's "Cancel" button (`router.back()`, components/Checkout.js:181-187) is browser history and is left out.
- Network calls are outcomes passed in: the endpoint's `fetch`, the provider's order API, and the success and dashboard pages' JSON fetches. Request headers and API credentials are left out.
- The success page's `catch` branch is not modelled. Its fetches already turn failures into `[]`, and the branch only switches loading off.
- Timers are recorded, not run. The success page's five-second redirect is stored as its target.
- Toasts are returned, not shown. `router.push` is returned as a URL. React's batching and asynchronous scheduling of state updates are not modelled.
- DropinCheckout.Checkout.RunDropinEffect: may be called at any point, whereas the page re-runs the effect only when `paymentSessionId`, `router` or `productId` change (components/Checkout.js:117). An SDK that finishes loading after the session id arrives therefore never mounts the drop-in on the page, and the model does not capture that.
- Browser storage and the dashboard's course fetch are passed in as parsed values. Malformed stored JSON, which would throw, is not modelled.
- The browser's own `required` and `type="email"` checks on the inputs are not modelled. Only the handlers' checks are.
- Inputs are limited to the form's own field names. An input with another `name` would add a key to the form state; the model's enumerations of field names cannot express that.
- Styling, markup and the Firebase import are left out.
- CheckoutClient.OrderRequestBody: `parseFloat(amount)` is modelled as an optional integer, None standing for NaN, so fractional amounts are not captured.
- Success.ParseInt: reads base ten only. The hexadecimal prefix and other radices are not captured, and NaN is None.
- Success.NumberOf: `Number(id)` is modelled for digit strings and integers only. Strings with whitespace, a sign or a fraction read as 0.
- Success.MaterialProduct: the generated `rating` (a random value) is left out. The product record has no rating field.
- Success.MaterialProduct: a missing `label` or `title` is modelled as the empty string, which `||` treats the same as absence.
- Rating.Render: ratings are exact reals rather than IEEE doubles, and `maxRating` is an integer. A fractional or NaN maximum is not captured.
- Dashboard.UserCourses: `includes` is plain equality, because the model's values have no NaN.
- Urls.QueryParam: the query is split on `&` and `=` with no percent-decoding. A repeated key returns its first value rather than Next.js's array. A `#fragment` is not stripped and stays part of the last value, whereas the browser's router drops it. `SuccessTargetQuery` and `ReturnUrlQuery` exclude only `&` from the values, so for a value containing `#` the value they read back differs from what the browser's router gives the page.
