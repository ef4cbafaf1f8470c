/** What the two checkout components share besides validation: the page
    query they read, the JSON body they post to `/api/createOrder`, how they
    read the reply, and the toasts they raise. The network is an outcome
    passed in. */
module CheckoutClient {
  import opened Js
  import opened Validation
  import OrderApi

  /** `router.query` of the checkout page. `amount` is what
      `parseFloat(amount)` gave, None standing for NaN. */
  datatype CheckoutQuery = CheckoutQuery(productId: JsValue, productName: JsValue, amount: Option<int>, telegramLink: JsValue)

  /** What `fetch('/api/createOrder', …)` and `response.json()` came to:
      a thrown error with its message, or a status and a parsed body. */
  datatype FetchOutcome = FetchFailed(message: string) | Reply(status: int, body: OrderApi.ApiBody)

  /** How a component reads the reply: a session was issued (the id may be
      missing or empty), or the order was refused with a message to show. */
  datatype OrderVerdict = SessionIssued(paymentSessionId: Option<string>) | OrderRefused(message: string)

  datatype Toast = ErrorToast(text: string) | SuccessToast(text: string)

  /** `JSON.stringify` leaves out keys whose value is undefined. */
  function Put(m: map<string, JsValue>, key: string, v: JsValue): map<string, JsValue> {
    if v == Undefined then m else m[key := v]
  }

  /** The request body both components send. */
  function OrderRequestBody(q: CheckoutQuery, d: BuyerDetails): (body: map<string, JsValue>)
    ensures body.Keys <= {"productId", "productName", "amount", "telegramLink", "customerName", "customerEmail", "customerPhone"}
    ensures OrderApi.Field(body, "productId") == q.productId
    ensures OrderApi.Field(body, "productName") == q.productName
    ensures OrderApi.Field(body, "telegramLink") == q.telegramLink
    ensures OrderApi.Field(body, "customerName") == Str(d.customerName)
    ensures OrderApi.Field(body, "customerEmail") == Str(d.customerEmail)
    ensures OrderApi.Field(body, "customerPhone") == Str(d.customerPhone)
    ensures OrderApi.Field(body, "amount") == (if q.amount.Some? then Num(q.amount.value) else Null)
  {
    var m0 := Put(map[], "productId", q.productId);
    var m1 := Put(m0, "productName", q.productName);
    var m2 := m1["amount" := if q.amount.Some? then Num(q.amount.value) else Null];
    var m3 := Put(m2, "telegramLink", q.telegramLink);
    m3["customerName" := Str(d.customerName)]["customerEmail" := Str(d.customerEmail)]["customerPhone" := Str(d.customerPhone)]
  }

  predicate ResponseOk(status: int) {
    200 <= status <= 299
  }

  /** `if (!response.ok || !data.success) throw new Error(data.error ||
      'Failed to create payment order')`, with a failed fetch throwing its
      own error. */
  function ReadOrderReply(o: FetchOutcome): (v: OrderVerdict)
    ensures v.SessionIssued? <==> o.Reply? && ResponseOk(o.status) && o.body.success
    ensures v.SessionIssued? ==> v.paymentSessionId == o.body.paymentSessionId
    ensures o.FetchFailed? ==> v == OrderRefused(o.message)
    ensures o.Reply? && v.OrderRefused? && o.body.error.Some? && o.body.error.value != "" ==> v.message == o.body.error.value
    ensures o.Reply? && v.OrderRefused? && (o.body.error.None? || o.body.error.value == "") ==>
      v.message == "Failed to create payment order"
  {
    match o
    case FetchFailed(message) => OrderRefused(message)
    case Reply(status, body) =>
      if !ResponseOk(status) || !body.success then
        OrderRefused(OrElse(if body.error.Some? then body.error.value else "", "Failed to create payment order"))
      else SessionIssued(body.paymentSessionId)
  }

  /** A session id the components treat as present: set and non-empty. */
  predicate SessionPresent(sessionId: Option<string>) {
    sessionId.Some? && sessionId.value != ""
  }
}
