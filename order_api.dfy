/** The order-creation endpoint (`pages/api/createOrder.js`): method guard,
    required-field check, order id, the payload for the payment provider and
    the mapping of the provider's answer to an HTTP reply. The provider call
    itself is an outcome passed in; so are the clock and the random draw. */
module OrderApi {
  import opened Js
  import Urls

  /** A request: its method and its parsed JSON body (a key that is not
      there reads as `undefined`). */
  datatype Request = Request(verb: string, body: map<string, JsValue>)

  function Field(body: map<string, JsValue>, key: string): JsValue {
    if key in body then body[key] else Undefined
  }

  /** The JSON the endpoint answers with; `None` marks a key left out. */
  datatype ApiBody = ApiBody(success: bool, paymentSessionId: Option<string>, orderId: Option<string>, error: Option<string>)

  datatype Response = Response(status: int, body: ApiBody)

  /** What the provider's order API did with the payload: created the order
      (its `payment_session_id` may be missing) or threw. */
  datatype ProviderOutcome = ProviderCreated(paymentSessionId: Option<string>) | ProviderFailed

  datatype CustomerDetails = CustomerDetails(customerId: string, customerName: JsValue, customerEmail: JsValue, customerPhone: JsValue)

  /** The body posted to the provider's order API. */
  datatype OrderPayload = OrderPayload(
    orderId: string, orderAmount: JsValue, orderCurrency: string, customer: CustomerDetails,
    returnUrl: string, notifyUrl: string, orderNote: string)

  /** The reply, and the payload sent to the provider if a call was made. */
  datatype HandlerResult = HandlerResult(response: Response, providerCall: Option<OrderPayload>)

  /** The fields checked, in the order they are checked. */
  const RequiredFields: seq<string> :=
    ["courseId", "courseName", "amount", "customerName", "customerEmail", "customerPhone", "userId"]

  /** `a` is `b` with some elements dropped and the rest kept in order. */
  ghost predicate Subsequence(a: seq<string>, b: seq<string>)
    decreases |b|
  {
    if |b| == 0 then |a| == 0
    else (|a| > 0 && a[0] == b[0] && Subsequence(a[1..], b[1..])) || Subsequence(a, b[1..])
  }

  /** The names in `names` whose body value is falsy, in order. */
  function FalsyAmong(names: seq<string>, body: map<string, JsValue>): seq<string> {
    if |names| == 0 then []
    else if !Truthy(Field(body, names[0])) then [names[0]] + FalsyAmong(names[1..], body)
    else FalsyAmong(names[1..], body)
  }

  /** The `missingFields` array: every required field whose value is falsy
      (absent, null, false, 0 or ""), in the order of RequiredFields. */
  function MissingFieldNames(body: map<string, JsValue>): seq<string> {
    FalsyAmong(RequiredFields, body)
  }

  lemma {:induction false} FalsyAmongExactly(names: seq<string>, body: map<string, JsValue>, x: string)
    ensures x in FalsyAmong(names, body) <==> x in names && !Truthy(Field(body, x))
  {
    if |names| > 0 {
      FalsyAmongExactly(names[1..], body, x);
      assert names == [names[0]] + names[1..];
    }
  }

  lemma {:induction false} FalsyAmongInOrder(names: seq<string>, body: map<string, JsValue>)
    ensures Subsequence(FalsyAmong(names, body), names)
  {
    if |names| > 0 {
      FalsyAmongInOrder(names[1..], body);
      var rest := FalsyAmong(names[1..], body);
      if !Truthy(Field(body, names[0])) {
        assert ([names[0]] + rest)[1..] == rest;
      }
    }
  }

  /** The `missingFields` array names exactly the required fields whose
      values are falsy, in the order they are checked. */
  lemma MissingFieldsExactly(body: map<string, JsValue>, x: string)
    ensures x in MissingFieldNames(body) <==> x in RequiredFields && !Truthy(Field(body, x))
    ensures Subsequence(MissingFieldNames(body), RequiredFields)
  {
    FalsyAmongExactly(RequiredFields, body, x);
    FalsyAmongInOrder(RequiredFields, body);
  }

  /** The request is complete exactly when no required field is falsy. */
  lemma NothingMissingIffComplete(body: map<string, JsValue>)
    ensures MissingFieldNames(body) == [] <==> forall x :: x in RequiredFields ==> Truthy(Field(body, x))
  {
    var m := MissingFieldNames(body);
    if m != [] {
      MissingFieldsExactly(body, m[0]);
    } else {
      forall x | x in RequiredFields ensures Truthy(Field(body, x)) {
        MissingFieldsExactly(body, x);
      }
    }
  }

  /** One check of the endpoint: the name when its body value is falsy. */
  function FieldCheck(body: map<string, JsValue>, name: string): seq<string> {
    if Truthy(Field(body, name)) then [] else [name]
  }

  /** One push: checking `todo[0]` and pushing it if it is falsy, then
      running the remaining checks, gives what running all of `todo` gives. */
  lemma FalsyAmongStep(acc: seq<string>, todo: seq<string>, body: map<string, JsValue>, acc': seq<string>)
    requires |todo| > 0
    requires acc' == acc + FieldCheck(body, todo[0])
    ensures acc' + FalsyAmong(todo[1..], body) == acc + FalsyAmong(todo, body)
  {
  }

  lemma FalsyAmongEnds(acc: seq<string>, body: map<string, JsValue>)
    ensures acc + FalsyAmong([], body) == acc
    ensures [] + FalsyAmong(RequiredFields, body) == MissingFieldNames(body)
  {
  }

  /** `if (!value) missingFields.push(name)`. */
  method PushIfMissing(missing: seq<string>, name: string, value: JsValue) returns (r: seq<string>)
    ensures r == missing + (if Truthy(value) then [] else [name])
  {
    r := missing;
    if !Truthy(value) {
      r := r + [name];
    }
  }

  /** The successive `push` calls that build `missingFields`. The ghost
      `todo` holds the checks still to come. */
  method CollectMissingFields(body: map<string, JsValue>) returns (missing: seq<string>)
    ensures missing == MissingFieldNames(body)
  {
    missing := [];
    ghost var todo := RequiredFields;
    ghost var before := missing;
    missing := PushIfMissing(missing, "courseId", Field(body, "courseId"));
    FalsyAmongStep(before, todo, body, missing);
    todo := todo[1..];
    before := missing;
    missing := PushIfMissing(missing, "courseName", Field(body, "courseName"));
    FalsyAmongStep(before, todo, body, missing);
    todo := todo[1..];
    before := missing;
    missing := PushIfMissing(missing, "amount", Field(body, "amount"));
    FalsyAmongStep(before, todo, body, missing);
    todo := todo[1..];
    before := missing;
    missing := PushIfMissing(missing, "customerName", Field(body, "customerName"));
    FalsyAmongStep(before, todo, body, missing);
    todo := todo[1..];
    before := missing;
    missing := PushIfMissing(missing, "customerEmail", Field(body, "customerEmail"));
    FalsyAmongStep(before, todo, body, missing);
    todo := todo[1..];
    before := missing;
    missing := PushIfMissing(missing, "customerPhone", Field(body, "customerPhone"));
    FalsyAmongStep(before, todo, body, missing);
    todo := todo[1..];
    before := missing;
    missing := PushIfMissing(missing, "userId", Field(body, "userId"));
    FalsyAmongStep(before, todo, body, missing);
    todo := todo[1..];
    FalsyAmongEnds(missing, body);
  }

  function MissingFieldsError(missing: seq<string>): string {
    "Missing required fields: " + Join(missing, ", ")
  }

  /** `Math.floor(Math.random() * 1000)` for a draw in [0, 1). */
  function RandomSuffix(draw: real): (k: nat)
    requires 0.0 <= draw < 1.0
    ensures k <= 999
    ensures k as real <= draw * 1000.0 < k as real + 1.0
  {
    (draw * 1000.0).Floor
  }

  /** `ORDER_<timestamp>_<suffix>`. */
  function OrderId(now: nat, suffix: nat): string {
    "ORDER_" + NatToString(now) + "_" + NatToString(suffix)
  }

  /** Reads an order id back into its timestamp and suffix. */
  function ParseOrderId(s: string): Option<(nat, nat)> {
    if |s| < 6 || s[..6] != "ORDER_" then None else ParseStampAndSuffix(s[6..])
  }

  /** Reads `<digits>_<digits>`. */
  function ParseStampAndSuffix(rest: string): Option<(nat, nat)> {
    var u := IndexOf(rest, '_');
    if u == |rest| then None
    else if !AllDigits(rest[..u]) || !AllDigits(rest[u + 1..]) then None
    else Some((DigitsValue(rest[..u]), DigitsValue(rest[u + 1..])))
  }

  lemma StampAndSuffixRoundTrip(now: nat, suffix: nat)
    ensures ParseStampAndSuffix(NatToString(now) + "_" + NatToString(suffix)) == Some((now, suffix))
  {
    var t, k := NatToString(now), NatToString(suffix);
    var rest := t + ("_" + k);
    assert t + "_" + k == rest;
    assert '_' !in t by {
      forall i | 0 <= i < |t| ensures t[i] != '_' { assert IsDigit(t[i]); }
    }
    assert IndexOf("_" + k, '_') == 0;
    Urls.IndexOfAfter(t, "_" + k, '_');
    assert rest[..|t|] == t;
    assert rest[|t| + 1..] == k;
    DigitsValueOfNatToString(now);
    DigitsValueOfNatToString(suffix);
  }

  /** An order id determines the timestamp and suffix it was made from, so
      two submissions get the same id only with the same clock reading and
      the same draw. */
  lemma OrderIdRoundTrip(now: nat, suffix: nat)
    ensures ParseOrderId(OrderId(now, suffix)) == Some((now, suffix))
  {
    var rest := NatToString(now) + "_" + NatToString(suffix);
    var s := OrderId(now, suffix);
    assert s == "ORDER_" + rest;
    assert s[..6] == "ORDER_";
    assert s[6..] == rest;
    StampAndSuffixRoundTrip(now, suffix);
  }

  lemma OrderIdInjective(now1: nat, suffix1: nat, now2: nat, suffix2: nat)
    requires OrderId(now1, suffix1) == OrderId(now2, suffix2)
    ensures now1 == now2 && suffix1 == suffix2
  {
    OrderIdRoundTrip(now1, suffix1);
    OrderIdRoundTrip(now2, suffix2);
  }

  /** The return URL the provider sends the buyer back to; `{order_id}` is
      the placeholder the provider fills in. */
  function ReturnUrl(baseUrl: string, courseId: JsValue): string {
    baseUrl + "/success" + "?" + "order_id" + "=" + "{order_id}" + "&" + "course_id" + "=" + ToJsString(courseId)
  }

  function BuildPayload(body: map<string, JsValue>, orderId: string, baseUrl: string): OrderPayload {
    OrderPayload(
      orderId,
      Field(body, "amount"),
      "INR",
      CustomerDetails("cust_" + ToJsString(Field(body, "userId")), Field(body, "customerName"),
                      Field(body, "customerEmail"), Field(body, "customerPhone")),
      ReturnUrl(baseUrl, Field(body, "courseId")),
      baseUrl + "/api/webhook",
      "Course: " + ToJsString(Field(body, "courseName")))
  }

  /** What the page reached through the return URL finds in its query: the
      placeholder as `order_id`, the course id as `course_id`, and nothing
      under any other key. */
  lemma ReturnUrlQuery(baseUrl: string, courseId: JsValue, key: string)
    requires '?' !in baseUrl && '&' !in ToJsString(courseId)
    ensures Urls.QueryParam(ReturnUrl(baseUrl, courseId), key)
         == if key == "order_id" then Some("{order_id}")
            else if key == "course_id" then Some(ToJsString(courseId))
            else None
  {
    Urls.QueryOfTwoPairs(baseUrl + "/success", "order_id", "{order_id}", "course_id", ToJsString(courseId), key);
  }

  /** The endpoint. `now` is `Date.now()`, `draw` is `Math.random()`,
      `baseUrl` is `NEXT_PUBLIC_BASE_URL` and `provider` is what the call to
      the provider's order API came to, if one is made. */
  function Handler(req: Request, now: nat, draw: real, baseUrl: string, provider: ProviderOutcome): (r: HandlerResult)
    requires 0.0 <= draw < 1.0
    ensures r.response.status in {200, 400, 405, 500}
    ensures r.response.status == 405 <==> req.verb != "POST"
    ensures r.response.status == 400 <==>
      req.verb == "POST" && exists x :: x in RequiredFields && !Truthy(Field(req.body, x))
    ensures r.response.body.success <==> r.response.status == 200
    ensures r.providerCall.Some? <==> r.response.status in {200, 500}
    ensures r.response.status == 500 <==> r.providerCall.Some? && provider.ProviderFailed?
    ensures r.response.status == 200 ==>
      && r.response.body.orderId == Some(r.providerCall.value.orderId)
      && r.response.body.paymentSessionId == provider.paymentSessionId
      && r.response.body.error.None?
    ensures r.response.status != 200 ==>
      r.response.body.paymentSessionId.None? && r.response.body.orderId.None? && r.response.body.error.Some?
    ensures r.response.status == 500 ==>
      r.response.body == ApiBody(false, None, None, Some("Failed to create Cashfree order"))
  {
    if req.verb != "POST" then
      HandlerResult(Response(405, ApiBody(false, None, None, Some("Method Not Allowed"))), None)
    else
      var missing := MissingFieldNames(req.body);
      NothingMissingIffComplete(req.body);
      if |missing| > 0 then
        HandlerResult(Response(400, ApiBody(false, None, None, Some(MissingFieldsError(missing)))), None)
      else
        var orderId := OrderId(now, RandomSuffix(draw));
        var payload := BuildPayload(req.body, orderId, baseUrl);
        match provider
        case ProviderCreated(sessionId) =>
          HandlerResult(Response(200, ApiBody(true, sessionId, Some(orderId), None)), Some(payload))
        case ProviderFailed =>
          HandlerResult(Response(500, ApiBody(false, None, None, Some("Failed to create Cashfree order"))), Some(payload))
  }

  /** A non-POST request is refused before the body is looked at. */
  lemma NonPostRefused(req: Request, now: nat, draw: real, baseUrl: string, provider: ProviderOutcome)
    requires 0.0 <= draw < 1.0 && req.verb != "POST"
    ensures Handler(req, now, draw, baseUrl, provider)
         == HandlerResult(Response(405, ApiBody(false, None, None, Some("Method Not Allowed"))), None)
  {
  }

  /** A POST with a falsy required field gets 400 naming exactly the falsy
      fields in check order, and the provider is not called. */
  lemma MissingFieldsRefused(req: Request, now: nat, draw: real, baseUrl: string, provider: ProviderOutcome)
    requires 0.0 <= draw < 1.0 && req.verb == "POST" && MissingFieldNames(req.body) != []
    ensures Handler(req, now, draw, baseUrl, provider)
         == HandlerResult(Response(400, ApiBody(false, None, None, Some(MissingFieldsError(MissingFieldNames(req.body))))), None)
  {
  }

  /** A complete POST reaches the provider with a payload built from the
      body: the amount as given, rupees, the customer id `cust_<userId>`, an
      id `ORDER_<now>_<k>` with k in 0..999, and a return URL carrying the
      order placeholder and the course id. */
  lemma PayloadShape(req: Request, now: nat, draw: real, baseUrl: string, provider: ProviderOutcome)
    requires 0.0 <= draw < 1.0 && req.verb == "POST"
    requires forall x :: x in RequiredFields ==> Truthy(Field(req.body, x))
    requires '?' !in baseUrl && '&' !in ToJsString(Field(req.body, "courseId"))
    ensures var r := Handler(req, now, draw, baseUrl, provider);
      && r.providerCall.Some?
      && var p := r.providerCall.value;
      && p.orderAmount == Field(req.body, "amount") && Truthy(p.orderAmount)
      && p.orderCurrency == "INR"
      && p.customer.customerId == "cust_" + ToJsString(Field(req.body, "userId"))
      && (exists k: nat :: k <= 999 && p.orderId == OrderId(now, k))
      && Urls.QueryParam(p.returnUrl, "order_id") == Some("{order_id}")
      && Urls.QueryParam(p.returnUrl, "course_id") == Some(ToJsString(Field(req.body, "courseId")))
  {
    assert MissingFieldNames(req.body) == [] by {
      if MissingFieldNames(req.body) != [] {
        MissingFieldsExactly(req.body, MissingFieldNames(req.body)[0]);
      }
    }
    var courseId := Field(req.body, "courseId");
    ReturnUrlQuery(baseUrl, courseId, "order_id");
    ReturnUrlQuery(baseUrl, courseId, "course_id");
    assert "amount" in RequiredFields;
    var k := RandomSuffix(draw);
    assert OrderId(now, k) == Handler(req, now, draw, baseUrl, provider).providerCall.value.orderId;
  }
}
