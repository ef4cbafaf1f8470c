/** The buyer-details check both checkout components run before asking for
    an order (`validateForm`): required fields, then the e-mail pattern
    `^[^\s@]+@[^\s@]+\.[^\s@]+$`, then the phone pattern `^\d{10}$`, stopping
    at the first rule that fails. */
module Validation {
  import opened Js

  datatype BuyerDetails = BuyerDetails(customerName: string, customerEmail: string, customerPhone: string)

  /** The `name` attributes of the three inputs of the checkout form. */
  datatype BuyerField = CustomerName | CustomerEmail | CustomerPhone

  function EmptyDetails(): BuyerDetails {
    BuyerDetails("", "", "")
  }

  function Get(d: BuyerDetails, f: BuyerField): string {
    match f
    case CustomerName => d.customerName
    case CustomerEmail => d.customerEmail
    case CustomerPhone => d.customerPhone
  }

  /** `{ ...prev, [name]: value }`: the named field changes, no other does. */
  function WithField(d: BuyerDetails, f: BuyerField, value: string): (r: BuyerDetails)
    ensures Get(r, f) == value
    ensures forall g :: g != f ==> Get(r, g) == Get(d, g)
  {
    match f
    case CustomerName => d.(customerName := value)
    case CustomerEmail => d.(customerEmail := value)
    case CustomerPhone => d.(customerPhone := value)
  }

  /** A character of the class `[^\s@]`. */
  predicate IsEmailChar(c: char) {
    !IsJsWhitespace(c) && c != '@'
  }

  /** What the e-mail regular expression accepts: `s` is L + "@" + M + "." + R
      with L, M and R non-empty runs of `[^\s@]`. Here `i` is the position of
      the `@` and `j` that of the literal dot; the dot itself is in `[^\s@]`. */
  ghost predicate MatchesEmailPattern(s: string) {
    exists i, j :: 0 < i && i + 1 < j && j + 1 < |s| && s[i] == '@' && s[j] == '.'
      && forall k :: 0 <= k < |s| && k != i ==> IsEmailChar(s[k])
  }

  /** The e-mail rule read left to right: no whitespace, exactly one `@`,
      something before it, and after it a dot that is neither first nor last. */
  predicate IsValidEmail(s: string) {
    var at := IndexOf(s, '@');
    && (forall k :: 0 <= k < |s| ==> !IsJsWhitespace(s[k]))
    && 0 < at < |s|
    && (forall k :: at < k < |s| ==> s[k] != '@')
    && exists k :: at + 1 < k < |s| - 1 && s[k] == '.'
  }

  /** The scan accepts exactly the strings the regular expression accepts. */
  lemma EmailScanMatchesPattern(s: string)
    ensures IsValidEmail(s) <==> MatchesEmailPattern(s)
  {
    var at := IndexOf(s, '@');
    if IsValidEmail(s) {
      var j :| at + 1 < j < |s| - 1 && s[j] == '.';
      assert forall k :: 0 <= k < |s| && k != at ==> IsEmailChar(s[k]);
      assert 0 < at && at + 1 < j && j + 1 < |s| && s[at] == '@' && s[j] == '.';
    }
    if MatchesEmailPattern(s) {
      var i, j :| 0 < i && i + 1 < j && j + 1 < |s| && s[i] == '@' && s[j] == '.'
        && forall k :: 0 <= k < |s| && k != i ==> IsEmailChar(s[k]);
      assert at <= i;
      assert !IsEmailChar(s[at]);
    }
  }

  /** What `^\d{10}$` accepts: exactly ten ASCII digits. */
  predicate IsValidPhone(s: string) {
    |s| == 10 && AllDigits(s)
  }

  datatype Verdict = Valid | MissingFields | InvalidEmail | InvalidPhone

  /** `validateForm`: the first rule the details break, or Valid. */
  function ValidateBuyer(d: BuyerDetails): (v: Verdict)
    ensures v == MissingFields <==> d.customerName == "" || d.customerEmail == "" || d.customerPhone == ""
    ensures v == InvalidEmail <==>
      d.customerName != "" && d.customerEmail != "" && d.customerPhone != ""
      && !MatchesEmailPattern(d.customerEmail)
    ensures v == InvalidPhone <==>
      d.customerName != "" && d.customerEmail != "" && d.customerPhone != ""
      && MatchesEmailPattern(d.customerEmail) && !IsValidPhone(d.customerPhone)
    ensures v == Valid <==>
      d.customerName != "" && MatchesEmailPattern(d.customerEmail) && IsValidPhone(d.customerPhone)
  {
    EmailScanMatchesPattern(d.customerEmail);
    if d.customerName == "" || d.customerEmail == "" || d.customerPhone == "" then MissingFields
    else if !IsValidEmail(d.customerEmail) then InvalidEmail
    else if !IsValidPhone(d.customerPhone) then InvalidPhone
    else Valid
  }

  /** The error toast each failed rule raises. */
  function VerdictMessage(v: Verdict): string
    requires v != Valid
  {
    match v
    case MissingFields => "Please fill in all fields."
    case InvalidEmail => "Please enter a valid email."
    case InvalidPhone => "Please enter a valid 10-digit phone number."
  }
}
