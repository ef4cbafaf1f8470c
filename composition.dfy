/** What happens when the pieces meet: the body the checkout components post
    against the fields the order endpoint requires, and the return URL the
    endpoint gives the provider against the parameter the success page
    reads. */
module Composition {
  import opened Js
  import opened Validation
  import opened CheckoutClient
  import OrderApi
  import Urls
  import Success
  import RedirectCheckout
  import DropinCheckout

  /** The fields the endpoint finds missing in a checkout body: the course
      id and name always, the amount when it is missing or zero, any empty
      buyer field, and the user id always. */
  function CheckoutBodyMissing(q: CheckoutQuery, d: BuyerDetails): seq<string> {
    ["courseId"] + (["courseName"]
    + ((if q.amount.Some? && q.amount.value != 0 then [] else ["amount"])
    + ((if d.customerName == "" then ["customerName"] else [])
    + ((if d.customerEmail == "" then ["customerEmail"] else [])
    + ((if d.customerPhone == "" then ["customerPhone"] else [])
    + ["userId"])))))
  }

  /** The checkout body carries none of courseId, courseName and userId. */
  lemma BodyLacksCourseAndUser(q: CheckoutQuery, d: BuyerDetails)
    ensures OrderApi.Field(OrderRequestBody(q, d), "courseId") == Undefined
    ensures OrderApi.Field(OrderRequestBody(q, d), "courseName") == Undefined
    ensures OrderApi.Field(OrderRequestBody(q, d), "userId") == Undefined
  {
    var body := OrderRequestBody(q, d);
    assert "courseId" !in body.Keys && "courseName" !in body.Keys && "userId" !in body.Keys;
  }

  /** The missing-field list is the seven checks laid end to end. */
  lemma MissingFieldsSpelledOut(body: map<string, JsValue>)
    ensures OrderApi.MissingFieldNames(body)
         == OrderApi.FieldCheck(body, "courseId") + (OrderApi.FieldCheck(body, "courseName") + (OrderApi.FieldCheck(body, "amount")
          + (OrderApi.FieldCheck(body, "customerName") + (OrderApi.FieldCheck(body, "customerEmail") + (OrderApi.FieldCheck(body, "customerPhone")
          + OrderApi.FieldCheck(body, "userId"))))))
  {
    var t0 := OrderApi.RequiredFields;
    var t1 := t0[1..];
    var t2 := t1[1..];
    var t3 := t2[1..];
    var t4 := t3[1..];
    var t5 := t4[1..];
    var t6 := t5[1..];
    var t7 := t6[1..];
    assert t0[0] == "courseId";
    assert t1[0] == "courseName";
    assert t2[0] == "amount";
    assert t3[0] == "customerName";
    assert t4[0] == "customerEmail";
    assert t5[0] == "customerPhone";
    assert t6[0] == "userId";
    assert t7 == [];
    assert OrderApi.FalsyAmong(t7, body) == [];
    OrderApi.FalsyAmongStep([], t6, body, OrderApi.FieldCheck(body, t6[0]));
    assert OrderApi.FalsyAmong(t6, body) == OrderApi.FieldCheck(body, "userId");
    OrderApi.FalsyAmongStep([], t5, body, OrderApi.FieldCheck(body, t5[0]));
    assert OrderApi.FalsyAmong(t5, body) == OrderApi.FieldCheck(body, "customerPhone") + OrderApi.FalsyAmong(t6, body);
    OrderApi.FalsyAmongStep([], t4, body, OrderApi.FieldCheck(body, t4[0]));
    assert OrderApi.FalsyAmong(t4, body) == OrderApi.FieldCheck(body, "customerEmail") + OrderApi.FalsyAmong(t5, body);
    OrderApi.FalsyAmongStep([], t3, body, OrderApi.FieldCheck(body, t3[0]));
    assert OrderApi.FalsyAmong(t3, body) == OrderApi.FieldCheck(body, "customerName") + OrderApi.FalsyAmong(t4, body);
    OrderApi.FalsyAmongStep([], t2, body, OrderApi.FieldCheck(body, t2[0]));
    assert OrderApi.FalsyAmong(t2, body) == OrderApi.FieldCheck(body, "amount") + OrderApi.FalsyAmong(t3, body);
    OrderApi.FalsyAmongStep([], t1, body, OrderApi.FieldCheck(body, t1[0]));
    assert OrderApi.FalsyAmong(t1, body) == OrderApi.FieldCheck(body, "courseName") + OrderApi.FalsyAmong(t2, body);
    OrderApi.FalsyAmongStep([], t0, body, OrderApi.FieldCheck(body, t0[0]));
    assert OrderApi.FalsyAmong(t0, body) == OrderApi.FieldCheck(body, "courseId") + OrderApi.FalsyAmong(t1, body);
  }

  /** The missing-field list the endpoint computes for a checkout body. */
  lemma CheckoutBodyMissingFields(q: CheckoutQuery, d: BuyerDetails)
    ensures OrderApi.MissingFieldNames(OrderRequestBody(q, d)) == CheckoutBodyMissing(q, d)
  {
    var body := OrderRequestBody(q, d);
    BodyLacksCourseAndUser(q, d);
    MissingFieldsSpelledOut(body);
    assert OrderApi.FieldCheck(body, "courseId") == ["courseId"];
    assert OrderApi.FieldCheck(body, "courseName") == ["courseName"];
    assert OrderApi.FieldCheck(body, "userId") == ["userId"];
  }

  /** Whatever the buyer types and whatever the page query holds, the order
      a checkout component asks for is refused with 400, the message naming
      at least the course id, the course name and the user id, and no
      provider call is made. */
  lemma CheckoutOrdersRefused(q: CheckoutQuery, d: BuyerDetails, now: nat, draw: real, baseUrl: string,
                              provider: OrderApi.ProviderOutcome)
    requires 0.0 <= draw < 1.0
    ensures var r := OrderApi.Handler(OrderApi.Request("POST", OrderRequestBody(q, d)), now, draw, baseUrl, provider);
      && r.response.status == 400
      && r.providerCall.None?
      && r.response.body.error == Some(OrderApi.MissingFieldsError(CheckoutBodyMissing(q, d)))
  {
    CheckoutBodyMissingFields(q, d);
    OrderApi.MissingFieldsRefused(OrderApi.Request("POST", OrderRequestBody(q, d)), now, draw, baseUrl, provider);
  }

  /** With valid buyer details and a non-zero amount, the endpoint's
      message names exactly the course id, the course name and the user id,
      in that order. */
  lemma ValidCheckoutMissing(q: CheckoutQuery, d: BuyerDetails)
    requires ValidateBuyer(d) == Valid && q.amount.Some? && q.amount.value != 0
    ensures CheckoutBodyMissing(q, d) == ["courseId", "courseName", "userId"]
  {
  }

  /** Either component reads that 400 as a refusal carrying the endpoint's
      message, so no payment session is ever issued. */
  lemma ClientSeesRefusal(q: CheckoutQuery, d: BuyerDetails, now: nat, draw: real, baseUrl: string,
                          provider: OrderApi.ProviderOutcome)
    requires 0.0 <= draw < 1.0
    ensures var r := OrderApi.Handler(OrderApi.Request("POST", OrderRequestBody(q, d)), now, draw, baseUrl, provider);
      ReadOrderReply(Reply(r.response.status, r.response.body))
        == OrderRefused(OrderApi.MissingFieldsError(CheckoutBodyMissing(q, d)))
  {
    CheckoutOrdersRefused(q, d, now, draw, baseUrl, provider);
    assert |"Missing required fields: "| > 0;
  }

  /** The redirect component therefore never hands the buyer over: with or
      without the SDK, the submission ends in the endpoint's message. */
  lemma RedirectNeverHandsOver(q: CheckoutQuery, d: BuyerDetails, now: nat, draw: real, baseUrl: string,
                               provider: OrderApi.ProviderOutcome, sdkLoaded: bool)
    requires 0.0 <= draw < 1.0
    ensures var r := OrderApi.Handler(OrderApi.Request("POST", OrderRequestBody(q, d)), now, draw, baseUrl, provider);
      RedirectCheckout.SubmitOutcome(Reply(r.response.status, r.response.body), sdkLoaded)
        == RedirectCheckout.Failed(OrderApi.MissingFieldsError(CheckoutBodyMissing(q, d)))
  {
    ClientSeesRefusal(q, d, now, draw, baseUrl, provider);
  }

  /** The drop-in therefore never reaches the payment view: a fresh
      checkout page, whatever the buyer types and submits, ends back on the
      details form with no session and an error toast, the endpoint's
      message when the details were valid. */
  method DropinStaysOnDetails(q: CheckoutQuery, name: string, email: string, phone: string,
                              now: nat, draw: real, baseUrl: string, provider: OrderApi.ProviderOutcome)
    returns (checkout: DropinCheckout.Checkout, toast: Option<Toast>)
    requires 0.0 <= draw < 1.0
    ensures checkout.formData == BuyerDetails(name, email, phone)
    ensures checkout.Phase() == DropinCheckout.DetailsForm && checkout.paymentSessionId.None?
    ensures toast.Some? && toast.value.ErrorToast?
    ensures ValidateBuyer(BuyerDetails(name, email, phone)) == Valid ==>
      toast == Some(ErrorToast(OrderApi.MissingFieldsError(CheckoutBodyMissing(q, BuyerDetails(name, email, phone)))))
  {
    checkout := new DropinCheckout.Checkout(q);
    checkout.HandleInputChange(CustomerName, name);
    checkout.HandleInputChange(CustomerEmail, email);
    checkout.HandleInputChange(CustomerPhone, phone);
    var d := checkout.formData;
    assert d == BuyerDetails(name, email, phone);
    var r := OrderApi.Handler(OrderApi.Request("POST", OrderRequestBody(q, d)), now, draw, baseUrl, provider);
    ClientSeesRefusal(q, d, now, draw, baseUrl, provider);
    var request;
    request, toast := checkout.HandleProceedToPayment(Reply(r.response.status, r.response.body));
  }

  /** The page the provider returns the buyer to has no `product_id`: the
      return URL carries `course_id` instead. */
  lemma ReturnUrlLacksProductId(baseUrl: string, courseId: JsValue)
    requires '?' !in baseUrl && '&' !in ToJsString(courseId)
    ensures Urls.QueryParam(OrderApi.ReturnUrl(baseUrl, courseId), "product_id") == None
  {
    OrderApi.ReturnUrlQuery(baseUrl, courseId, "product_id");
  }

  /** Landing on the success page from the return URL: the page has no
      product id, so it fetches nothing, schedules no redirect and keeps
      showing the spinner. */
  method ReturnToSuccessPage(baseUrl: string, courseId: JsValue, productsRes: seq<Success.Product>,
                             materialRes: Success.Material) returns (page: Success.SuccessPage)
    requires '?' !in baseUrl && '&' !in ToJsString(courseId)
    ensures !page.HasProductId()
    ensures page.View() == Success.Spinner && page.scheduledRedirect.None?
  {
    ReturnUrlLacksProductId(baseUrl, courseId);
    page := new Success.SuccessPage(Urls.QueryParam(OrderApi.ReturnUrl(baseUrl, courseId), "product_id"));
    var fetched := page.LoadProduct(productsRes, materialRes);
  }
}
