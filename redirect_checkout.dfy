/** The redirect checkout component: the buyer fills in their details, the
    component asks `/api/createOrder` for a payment session and hands the
    browser over to the payment provider's hosted checkout in the same tab.
    The network reply and the presence of the provider's SDK are passed in;
    the hand-over is returned rather than performed. */
module RedirectCheckout {
  import opened Js
  import opened Validation
  import opened CheckoutClient

  /** The argument of `cashfree.checkout`. */
  datatype CheckoutCall = CheckoutCall(paymentSessionId: string, redirectTarget: string)

  /** What a submission that got past validation ends in: either the
      hand-over to the hosted checkout, or the error message the toast
      shows. */
  function SubmitOutcome(reply: FetchOutcome, sdkLoaded: bool): (r: Result)
    ensures r.HandedOver? <==>
      ReadOrderReply(reply).SessionIssued? && sdkLoaded && SessionPresent(ReadOrderReply(reply).paymentSessionId)
    ensures r.HandedOver? ==>
      r.call == CheckoutCall(ReadOrderReply(reply).paymentSessionId.value, "_self")
    ensures ReadOrderReply(reply).OrderRefused? ==> r == Failed(ReadOrderReply(reply).message)
    ensures ReadOrderReply(reply).SessionIssued? && !r.HandedOver? ==>
      r == Failed("Cashfree SDK not loaded or session missing")
  {
    match ReadOrderReply(reply)
    case OrderRefused(message) => Failed(message)
    case SessionIssued(sessionId) =>
      if !sdkLoaded || !SessionPresent(sessionId) then Failed("Cashfree SDK not loaded or session missing")
      else HandedOver(CheckoutCall(sessionId.value, "_self"))
  }

  datatype Result = HandedOver(call: CheckoutCall) | Failed(message: string)

  class Checkout {
    /** `router.query`, read once per render and never written. */
    const query: CheckoutQuery
    var formData: BuyerDetails
    var isLoading: bool

    constructor(query: CheckoutQuery)
      ensures this.query == query
      ensures formData == EmptyDetails() && !isLoading
    {
      this.query := query;
      formData := EmptyDetails();
      isLoading := false;
    }

    /** `handleInputChange`: one field takes the typed value. */
    method HandleInputChange(field: BuyerField, value: string)
      modifies this
      ensures formData == WithField(old(formData), field, value)
      ensures isLoading == old(isLoading)
    {
      formData := WithField(formData, field, value);
    }

    /** `handleSubmit`, reachable only while the submit button is enabled.
        Invalid details raise their toast and send nothing. Valid details
        send the order body; the form is cleared only when the hand-over
        happens, every other ending shows its error, and loading is off
        again however the request ended. */
    method HandleSubmit(reply: FetchOutcome, sdkLoaded: bool)
      returns (request: Option<map<string, JsValue>>, handoff: Option<CheckoutCall>, toast: Option<Toast>)
      requires !isLoading
      modifies this
      ensures ValidateBuyer(old(formData)) != Valid ==>
        request.None? && handoff.None? && toast == Some(ErrorToast(VerdictMessage(ValidateBuyer(old(formData)))))
        && formData == old(formData) && isLoading == old(isLoading)
      ensures ValidateBuyer(old(formData)) == Valid ==>
        request == Some(OrderRequestBody(query, old(formData))) && !isLoading
      ensures ValidateBuyer(old(formData)) == Valid && SubmitOutcome(reply, sdkLoaded).HandedOver? ==>
        handoff == Some(SubmitOutcome(reply, sdkLoaded).call) && toast.None? && formData == EmptyDetails()
      ensures ValidateBuyer(old(formData)) == Valid && SubmitOutcome(reply, sdkLoaded).Failed? ==>
        handoff.None? && toast == Some(ErrorToast(SubmitOutcome(reply, sdkLoaded).message))
        && formData == old(formData)
      ensures handoff.Some? ==> handoff.value.redirectTarget == "_self" && handoff.value.paymentSessionId != ""
    {
      var verdict := ValidateBuyer(formData);
      if verdict != Valid {
        return None, None, Some(ErrorToast(VerdictMessage(verdict)));
      }
      isLoading := true;
      request := Some(OrderRequestBody(query, formData));
      match SubmitOutcome(reply, sdkLoaded) {
        case HandedOver(call) =>
          handoff, toast := Some(call), None;
          formData := EmptyDetails();
        case Failed(message) =>
          handoff, toast := None, Some(ErrorToast(message));
      }
      isLoading := false;
    }
  }
}
