/** The contact page's form: three required fields and the same e-mail
    pattern as the checkout form, with no check on the phone (there is none)
    or on what the message says. Sending is only a toast; the form is then
    cleared. */
module Contact {
  import Validation
  import opened CheckoutClient

  datatype ContactDetails = ContactDetails(name: string, email: string, message: string)

  /** The `name` attributes of the form's three inputs. */
  datatype ContactField = Name | Email | Message

  function EmptyContact(): ContactDetails {
    ContactDetails("", "", "")
  }

  function Get(d: ContactDetails, f: ContactField): string {
    match f
    case Name => d.name
    case Email => d.email
    case Message => d.message
  }

  /** `{ ...prev, [name]: value }`: the named field changes, no other does. */
  function WithField(d: ContactDetails, f: ContactField, value: string): (r: ContactDetails)
    ensures Get(r, f) == value
    ensures forall g :: g != f ==> Get(r, g) == Get(d, g)
  {
    match f
    case Name => d.(name := value)
    case Email => d.(email := value)
    case Message => d.(message := value)
  }

  /** The checks of `handleSubmit`: required fields first, then the e-mail
      pattern; nothing else is looked at. */
  function ValidateContact(d: ContactDetails): (v: Validation.Verdict)
    ensures v != Validation.InvalidPhone
    ensures v == Validation.MissingFields <==> d.name == "" || d.email == "" || d.message == ""
    ensures v == Validation.InvalidEmail <==>
      d.name != "" && d.email != "" && d.message != "" && !Validation.MatchesEmailPattern(d.email)
    ensures v == Validation.Valid <==> d.name != "" && d.message != "" && Validation.MatchesEmailPattern(d.email)
  {
    Validation.EmailScanMatchesPattern(d.email);
    if d.name == "" || d.email == "" || d.message == "" then Validation.MissingFields
    else if !Validation.IsValidEmail(d.email) then Validation.InvalidEmail
    else Validation.Valid
  }

  /** The contact form and the checkout form agree on every name and
      e-mail, given a message and a well-formed phone: the two validators
      share their first two rules. */
  lemma SameRulesAsCheckout(name: string, email: string, message: string, phone: string)
    requires message != "" && Validation.IsValidPhone(phone)
    ensures ValidateContact(ContactDetails(name, email, message)) == Validation.ValidateBuyer(Validation.BuyerDetails(name, email, phone))
  {
  }

  /** Only the message's presence matters, never its content. */
  lemma MessageContentIgnored(d: ContactDetails, other: string)
    requires d.message != "" && other != ""
    ensures ValidateContact(d.(message := other)) == ValidateContact(d)
  {
  }

  class ContactForm {
    var formData: ContactDetails

    constructor()
      ensures formData == EmptyContact()
    {
      formData := EmptyContact();
    }

    /** `handleInputChange`: one field takes the typed value. */
    method HandleInputChange(field: ContactField, value: string)
      modifies this
      ensures formData == WithField(old(formData), field, value)
    {
      formData := WithField(formData, field, value);
    }

    /** `handleSubmit`: a failed check shows its message and keeps the
        form; a passing form shows the confirmation and is cleared. */
    method HandleSubmit() returns (toast: Toast)
      modifies this
      ensures ValidateContact(old(formData)) != Validation.Valid ==>
        toast == ErrorToast(Validation.VerdictMessage(ValidateContact(old(formData)))) && formData == old(formData)
      ensures ValidateContact(old(formData)) == Validation.Valid ==>
        toast == SuccessToast("Message sent successfully!") && formData == EmptyContact()
    {
      var verdict := ValidateContact(formData);
      if verdict != Validation.Valid {
        return ErrorToast(Validation.VerdictMessage(verdict));
      }
      toast := SuccessToast("Message sent successfully!");
      formData := EmptyContact();
    }
  }
}
