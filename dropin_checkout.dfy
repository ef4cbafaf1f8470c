/** The drop-in checkout component: the buyer fills in their details, the
    component asks `/api/createOrder` for a payment session, and once a
    session id is held the form gives way to the payment provider's
    embedded drop-in, whose callbacks end the flow. Each handler of the
    component is a method on the component's state; the network reply, the
    presence of the provider's SDK and the callbacks' arguments are passed
    in. */
module DropinCheckout {
  import opened Js
  import opened Validation
  import opened CheckoutClient
  import opened Urls

  /** What the page shows: the details form (submit enabled), the form with
      its submit disabled while a request is in flight, or the payment view. */
  datatype Phase = DetailsForm | Processing | PaymentView

  /** The configuration handed to `cashfree.dropin` (styling left out). */
  datatype DropinConfig = DropinConfig(mode: string, components: seq<string>, orderToken: string)

  /** The payment methods the drop-in offers, in display order. */
  function PaymentComponents(): seq<string> {
    ["order-details", "card", "upi", "app", "netbanking"]
  }

  /** Where a successful payment sends the buyer. */
  function SuccessTarget(orderId: string, productId: JsValue): string {
    "/success?order_id=" + orderId + "&product_id=" + ToJsString(productId)
  }

  /** The success page reached from the drop-in reads back the order id and
      the product id it was given, provided neither contains `&`. */
  lemma SuccessTargetQuery(orderId: string, productId: JsValue)
    requires '&' !in orderId && '&' !in ToJsString(productId)
    ensures QueryParam(SuccessTarget(orderId, productId), "order_id") == Some(orderId)
    ensures QueryParam(SuccessTarget(orderId, productId), "product_id") == Some(ToJsString(productId))
  {
    var pid := ToJsString(productId);
    assert SuccessTarget(orderId, productId) == "/success" + "?" + "order_id" + "=" + orderId + "&" + "product_id" + "=" + pid;
    QueryOfTwoPairs("/success", "order_id", orderId, "product_id", pid, "order_id");
    QueryOfTwoPairs("/success", "order_id", orderId, "product_id", pid, "product_id");
  }

  class Checkout {
    /** `router.query`, read once per render and never written. */
    const query: CheckoutQuery
    var formData: BuyerDetails
    var isLoading: bool
    /** `paymentSessionId` state: null/undefined is None. */
    var paymentSessionId: Option<string>

    function Phase(): Phase
      reads this
    {
      if SessionPresent(paymentSessionId) then PaymentView
      else if isLoading then Processing
      else DetailsForm
    }

    constructor(query: CheckoutQuery)
      ensures this.query == query
      ensures formData == EmptyDetails() && !isLoading && paymentSessionId == None
      ensures Phase() == DetailsForm
    {
      this.query := query;
      formData := EmptyDetails();
      isLoading := false;
      paymentSessionId := None;
    }

    /** `handleInputChange`: one field takes the typed value. */
    method HandleInputChange(field: BuyerField, value: string)
      modifies this
      ensures formData == WithField(old(formData), field, value)
      ensures isLoading == old(isLoading) && paymentSessionId == old(paymentSessionId)
    {
      formData := WithField(formData, field, value);
    }

    /** `handleProceedToPayment`, reachable only from the details form with
        its submit button enabled. Invalid details raise their toast and
        send nothing; valid details send the order body, and the reply either
        sets the session id (the page keeps loading until the drop-in
        mounts) or is shown as an error with loading switched off. */
    method HandleProceedToPayment(reply: FetchOutcome) returns (request: Option<map<string, JsValue>>, toast: Option<Toast>)
      requires Phase() == DetailsForm
      modifies this
      ensures formData == old(formData)
      ensures ValidateBuyer(formData) != Valid ==>
        request.None? && toast == Some(ErrorToast(VerdictMessage(ValidateBuyer(formData))))
        && isLoading == old(isLoading) && paymentSessionId == old(paymentSessionId)
      ensures ValidateBuyer(formData) == Valid ==> request == Some(OrderRequestBody(query, formData))
      ensures ValidateBuyer(formData) == Valid && ReadOrderReply(reply).SessionIssued? ==>
        paymentSessionId == ReadOrderReply(reply).paymentSessionId && isLoading && toast.None?
      ensures ValidateBuyer(formData) == Valid && ReadOrderReply(reply).OrderRefused? ==>
        paymentSessionId == old(paymentSessionId) && !isLoading
        && toast == Some(ErrorToast(ReadOrderReply(reply).message))
      ensures Phase() == PaymentView <==>
        ValidateBuyer(formData) == Valid && ReadOrderReply(reply).SessionIssued?
        && SessionPresent(ReadOrderReply(reply).paymentSessionId)
      ensures Phase() == Processing <==>
        ValidateBuyer(formData) == Valid && ReadOrderReply(reply).SessionIssued?
        && !SessionPresent(ReadOrderReply(reply).paymentSessionId)
    {
      var verdict := ValidateBuyer(formData);
      if verdict != Valid {
        return None, Some(ErrorToast(VerdictMessage(verdict)));
      }
      isLoading := true;
      request := Some(OrderRequestBody(query, formData));
      match ReadOrderReply(reply)
      case SessionIssued(sessionId) =>
        paymentSessionId := sessionId;
        toast := None;
      case OrderRefused(message) =>
        toast := Some(ErrorToast(message));
        isLoading := false;
    }

    /** The effect that mounts the drop-in. The container it mounts into is
        rendered exactly when a session id is held, so the drop-in mounts
        when a session is held and the SDK has loaded, and mounting ends the
        loading state; otherwise nothing happens. */
    method RunDropinEffect(sdkLoaded: bool) returns (mounted: Option<DropinConfig>)
      modifies this
      ensures mounted.Some? <==> SessionPresent(paymentSessionId) && sdkLoaded
      ensures mounted.Some? ==>
        mounted.value == DropinConfig("production", PaymentComponents(), paymentSessionId.value) && !isLoading
      ensures mounted.None? ==> isLoading == old(isLoading)
      ensures formData == old(formData) && paymentSessionId == old(paymentSessionId)
    {
      mounted := None;
      if SessionPresent(paymentSessionId) && sdkLoaded {
        mounted := Some(DropinConfig("production", PaymentComponents(), paymentSessionId.value));
        isLoading := false;
      }
    }

    /** The drop-in's `onSuccess`: a success toast and a move to the success
        page carrying the order id and this page's product id. */
    method OnPaymentSuccess(orderId: string) returns (toast: Toast, target: string)
      ensures toast == SuccessToast("Payment successful!")
      ensures '&' !in orderId && '&' !in ToJsString(query.productId) ==>
        QueryParam(target, "order_id") == Some(orderId)
        && QueryParam(target, "product_id") == Some(ToJsString(query.productId))
      ensures target == SuccessTarget(orderId, query.productId)
    {
      toast := SuccessToast("Payment successful!");
      target := SuccessTarget(orderId, query.productId);
      if '&' !in orderId && '&' !in ToJsString(query.productId) {
        SuccessTargetQuery(orderId, query.productId);
      }
    }

    /** The drop-in's `onFailure`: an error toast and loading switched off;
        the payment view stays. */
    method OnPaymentFailure(message: string) returns (toast: Toast)
      modifies this
      ensures toast == ErrorToast("Payment failed: " + message)
      ensures !isLoading
      ensures formData == old(formData) && paymentSessionId == old(paymentSessionId)
      ensures Phase() != Processing
    {
      toast := ErrorToast("Payment failed: " + message);
      isLoading := false;
    }

    /** "Back to Details": the session id is dropped and the form returns. */
    method BackToDetails()
      modifies this
      ensures paymentSessionId == None
      ensures formData == old(formData) && isLoading == old(isLoading)
      ensures Phase() != PaymentView
    {
      paymentSessionId := None;
    }
  }
}
