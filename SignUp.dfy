/**
 * The signup form: six text fields, their validation rules, the error record
 * shown beside them, field edits, and what a successful submission sends,
 * stores and where it leads.
 */
module SignUp {

  import opened Wrappers
  import opened Storage
  import UserFlowContext

  /** The form has six fields; the form data and the error messages are both records of them. */
  datatype Field = FullName | Email | Phone | IdNumber | Password | ConfirmPassword

  datatype FormRecord = FormRecord(
    fullName: string,
    email: string,
    phone: string,
    idNumber: string,
    password: string,
    confirmPassword: string)

  const Blank: FormRecord := FormRecord("", "", "", "", "", "")

  function Get(r: FormRecord, name: Field): string {
    match name
    case FullName => r.fullName
    case Email => r.email
    case Phone => r.phone
    case IdNumber => r.idNumber
    case Password => r.password
    case ConfirmPassword => r.confirmPassword
  }

  /** `{ ...r, [name]: value }`: the named field takes the value, the other five are kept. */
  function Set(r: FormRecord, name: Field, value: string): (r': FormRecord)
    ensures Get(r', name) == value
    ensures forall other :: other != name ==> Get(r', other) == Get(r, other)
  {
    match name
    case FullName => r.(fullName := value)
    case Email => r.(email := value)
    case Phone => r.(phone := value)
    case IdNumber => r.(idNumber := value)
    case Password => r.(password := value)
    case ConfirmPassword => r.(confirmPassword := value)
  }

  /** True when no field has a message. */
  predicate NoErrors(errors: FormRecord) {
    && errors.fullName == "" && errors.email == "" && errors.phone == ""
    && errors.idNumber == "" && errors.password == "" && errors.confirmPassword == ""
  }

  // ---------------------------------------------------------------------------
  // The two regular expressions, as predicates. JavaScript's `\d` without the
  // `u` flag is the ASCII digits only.

  predicate IsAsciiDigit(c: char) {
    '0' <= c <= '9'
  }

  /** Every character is an ASCII digit. */
  predicate AllDigits(s: string) {
    forall i :: 0 <= i < |s| ==> IsAsciiDigit(s[i])
  }

  /** `\d{n}$`: exactly n digits, then the end of the input. */
  predicate MatchDigitsToEnd(s: string, n: nat)
    ensures MatchDigitsToEnd(s, n) ==> |s| == n
  {
    if s == [] then n == 0
    else n > 0 && IsAsciiDigit(s[0]) && MatchDigitsToEnd(s[1..], n - 1)
  }

  predicate IsMobileLead(c: char) {
    c == '1' || c == '7'
  }

  /** `[17]\d{8}$`, what follows the country or trunk prefix. */
  predicate MatchSubscriber(t: string) {
    |t| > 0 && IsMobileLead(t[0]) && MatchDigitsToEnd(t[1..], 8)
  }

  /** `^(?:\+254|0)[17]\d{8}$`: either alternative of the prefix, then the subscriber part. */
  predicate MatchesPhonePattern(s: string)
    ensures MatchesPhonePattern(s) ==> |s| == 10 || |s| == 13
  {
    ("+254" <= s && MatchSubscriber(s[4..])) || ("0" <= s && MatchSubscriber(s[1..]))
  }

  /** `^\d{8}$` */
  predicate MatchesIdPattern(s: string)
    ensures MatchesIdPattern(s) ==> |s| == 8
  {
    MatchDigitsToEnd(s, 8)
  }

  /** The digit repetition accepts exactly the all-digit strings of that length. */
  lemma {:induction false} MatchDigitsIff(s: string, n: nat)
    ensures MatchDigitsToEnd(s, n) <==> |s| == n && AllDigits(s)
  {
    if n > 0 && |s| > 0 {
      MatchDigitsIff(s[1..], n - 1);
      if |s| == n && AllDigits(s) {
        assert forall i :: 0 <= i < |s[1..]| ==> s[1..][i] == s[i + 1];
      }
      if MatchDigitsToEnd(s, n) {
        assert forall i :: 1 <= i < |s| ==> s[i] == s[1..][i - 1];
      }
    }
  }

  /** A Kenyan mobile number written out: trunk `0` or country code `+254`, then `1` or `7`, then eight digits. */
  predicate IsKenyanMobile(s: string) {
    || (|s| == 10 && s[0] == '0' && IsMobileLead(s[1]) && AllDigits(s[2..]))
    || (|s| == 13 && s[..4] == "+254" && IsMobileLead(s[4]) && AllDigits(s[5..]))
  }

  lemma PhonePatternIff(s: string)
    ensures MatchesPhonePattern(s) <==> IsKenyanMobile(s)
  {
    if |s| >= 5 {
      MatchDigitsIff(s[5..], 8);
      assert s[4..][1..] == s[5..];
    }
    if |s| >= 2 {
      MatchDigitsIff(s[2..], 8);
      assert s[1..][1..] == s[2..];
    }
  }

  lemma IdPatternIff(s: string)
    ensures MatchesIdPattern(s) <==> |s| == 8 && AllDigits(s)
  {
    MatchDigitsIff(s, 8);
  }

  // ---------------------------------------------------------------------------
  // One rule per field. An empty field always gets the "required" message,
  // before any length or format test.

  const FullNameRequired: string := "Full name is required"
  const FullNameTooShort: string := "Full name must be at least 3 characters"
  const PhoneRequired: string := "Phone number is required"
  const PhoneInvalid: string := "Please enter a valid Kenyan phone number"
  const IdNumberRequired: string := "ID number is required"
  const IdNumberInvalid: string := "Please enter a valid 8-digit ID number"
  const PasswordRequired: string := "Password is required"
  const PasswordTooShort: string := "Password must be at least 4 characters"
  const ConfirmRequired: string := "Please confirm your password"
  const PasswordsDiffer: string := "Passwords do not match"

  function FullNameError(name: string): (msg: string)
    ensures msg == "" || msg == FullNameRequired || msg == FullNameTooShort
    ensures name == "" ==> msg == FullNameRequired
  {
    if name == "" then FullNameRequired
    else if |name| < 3 then FullNameTooShort
    else ""
  }

  function PhoneError(phone: string): (msg: string)
    ensures msg == "" || msg == PhoneRequired || msg == PhoneInvalid
    ensures phone == "" ==> msg == PhoneRequired
  {
    if phone == "" then PhoneRequired
    else if !MatchesPhonePattern(phone) then PhoneInvalid
    else ""
  }

  function IdNumberError(id: string): (msg: string)
    ensures msg == "" || msg == IdNumberRequired || msg == IdNumberInvalid
    ensures id == "" ==> msg == IdNumberRequired
  {
    if id == "" then IdNumberRequired
    else if !MatchesIdPattern(id) then IdNumberInvalid
    else ""
  }

  function PasswordError(password: string): (msg: string)
    ensures msg == "" || msg == PasswordRequired || msg == PasswordTooShort
    ensures password == "" ==> msg == PasswordRequired
  {
    if password == "" then PasswordRequired
    else if |password| < 4 then PasswordTooShort
    else ""
  }

  function ConfirmError(password: string, confirm: string): (msg: string)
    ensures msg == "" || msg == ConfirmRequired || msg == PasswordsDiffer
    ensures confirm == "" ==> msg == ConfirmRequired
  {
    if confirm == "" then ConfirmRequired
    else if password != confirm then PasswordsDiffer
    else ""
  }

  /** Full name: empty is "required", one or two characters "too short", three or more passes. */
  lemma FullNameRule(name: string)
    ensures FullNameError(name) == FullNameRequired <==> |name| == 0
    ensures FullNameError(name) == FullNameTooShort <==> 1 <= |name| <= 2
    ensures FullNameError(name) == "" <==> |name| >= 3
  {
  }

  /** Phone: empty is "required"; otherwise it passes exactly when it is a Kenyan mobile number. */
  lemma PhoneRule(phone: string)
    ensures PhoneError(phone) == PhoneRequired <==> phone == ""
    ensures PhoneError(phone) == PhoneInvalid <==> phone != "" && !IsKenyanMobile(phone)
    ensures PhoneError(phone) == "" <==> IsKenyanMobile(phone)
  {
    PhonePatternIff(phone);
  }

  /** ID number: empty is "required"; otherwise it passes exactly when it is eight ASCII digits. */
  lemma IdNumberRule(id: string)
    ensures IdNumberError(id) == IdNumberRequired <==> id == ""
    ensures IdNumberError(id) == IdNumberInvalid <==> id != "" && !(|id| == 8 && AllDigits(id))
    ensures IdNumberError(id) == "" <==> |id| == 8 && AllDigits(id)
  {
    IdPatternIff(id);
  }

  /** Password: empty is "required", one to three characters "too short", four or more passes. */
  lemma PasswordRule(password: string)
    ensures PasswordError(password) == PasswordRequired <==> |password| == 0
    ensures PasswordError(password) == PasswordTooShort <==> 1 <= |password| <= 3
    ensures PasswordError(password) == "" <==> |password| >= 4
  {
  }

  /** Confirmation: depends on the two strings only, never on whether the password itself passes its rule. */
  lemma ConfirmRule(password: string, confirm: string)
    ensures ConfirmError(password, confirm) == ConfirmRequired <==> confirm == ""
    ensures ConfirmError(password, confirm) == PasswordsDiffer <==> confirm != "" && confirm != password
    ensures ConfirmError(password, confirm) == "" <==> confirm != "" && confirm == password
  {
  }

  /** The error record validation produces; the email rule is switched off, so its message is always empty. */
  function FormErrors(form: FormRecord): (errors: FormRecord)
    ensures errors.email == ""
    ensures NoErrors(errors) ==>
      form.fullName != "" && form.phone != "" && form.idNumber != "" && form.password != "" && form.confirmPassword != ""
  {
    FormRecord(
      FullNameError(form.fullName),
      "",
      PhoneError(form.phone),
      IdNumberError(form.idNumber),
      PasswordError(form.password),
      ConfirmError(form.password, form.confirmPassword))
  }

  /** The form is valid exactly when every rule holds; the email field is never looked at. */
  lemma ValidIffAllRulesHold(form: FormRecord)
    ensures NoErrors(FormErrors(form)) <==>
      && |form.fullName| >= 3
      && IsKenyanMobile(form.phone)
      && |form.idNumber| == 8 && AllDigits(form.idNumber)
      && |form.password| >= 4
      && form.confirmPassword == form.password
  {
    FullNameRule(form.fullName);
    PhoneRule(form.phone);
    IdNumberRule(form.idNumber);
    PasswordRule(form.password);
    ConfirmRule(form.password, form.confirmPassword);
  }

  /** An empty field gets its "required" message, although it fails the format or length test too. */
  lemma RequiredTakesPrecedence(form: FormRecord)
    ensures form.fullName == "" ==> FormErrors(form).fullName == FullNameRequired
    ensures form.phone == "" ==> FormErrors(form).phone == PhoneRequired && !MatchesPhonePattern(form.phone)
    ensures form.idNumber == "" ==> FormErrors(form).idNumber == IdNumberRequired && !MatchesIdPattern(form.idNumber)
    ensures form.password == "" ==> FormErrors(form).password == PasswordRequired
    ensures form.confirmPassword == "" ==> FormErrors(form).confirmPassword == ConfirmRequired
    ensures FormErrors(form).email == ""
  {
  }

  /** Eight ASCII digits pass the `\d{8}$` part of both patterns. */
  lemma EightDigitsMatch()
    ensures MatchDigitsToEnd("12345678", 8)
  {
    assert AllDigits("12345678");
    MatchDigitsIff("12345678", 8);
  }

  /** `0712345678`, the trunk-prefix form, passes. */
  lemma LocalPhoneAccepted()
    ensures PhoneError("0712345678") == ""
  {
    EightDigitsMatch();
    assert "0712345678"[1..][1..] == "12345678";
  }

  /** `+254712345678`, the country-code form, passes. */
  lemma InternationalPhoneAccepted()
    ensures PhoneError("+254712345678") == ""
  {
    EightDigitsMatch();
    assert "+254712345678"[4..][1..] == "12345678";
  }

  /** `12345` is too short for either form and `0812345678` has the wrong lead digit. */
  lemma PhoneRejectedExamples()
    ensures PhoneError("12345") == PhoneInvalid
    ensures PhoneError("0812345678") == PhoneInvalid
  {
    PhoneRule("12345");
    PhoneRule("0812345678");
  }

  /** An eight-digit ID passes; a seven-digit one fails. */
  lemma IdNumberExamples()
    ensures IdNumberError("12345678") == ""
    ensures IdNumberError("1234567") == IdNumberInvalid
  {
    EightDigitsMatch();
    IdNumberRule("1234567");
  }

  /**
   * A three-character password fails its own rule while a matching confirmation
   * passes; a mismatched confirmation fails although both strings are long enough.
   */
  lemma PasswordExamples()
    ensures PasswordError("abc") == PasswordTooShort
    ensures ConfirmError("abc", "abc") == ""
    ensures PasswordError("abcd") == "" && ConfirmError("abcd", "abce") == PasswordsDiffer
  {
  }

  // ---------------------------------------------------------------------------
  // Submission

  /** What is sent to the signup service: the form without the confirmation. */
  datatype SignupPayload = SignupPayload(fullName: string, email: string, phone: string, idNumber: string, password: string)

  const PlaceholderEmail: string := "exampleuser@gmail.com"

  function SignupData(form: FormRecord): (payload: SignupPayload)
    ensures WithConfirmation(payload, form.confirmPassword) == form
  {
    SignupPayload(form.fullName, form.email, form.phone, form.idNumber, form.password)
  }

  /** Puts the confirmation back; the inverse of SignupData. */
  function WithConfirmation(p: SignupPayload, confirm: string): FormRecord {
    FormRecord(p.fullName, p.email, p.phone, p.idNumber, p.password, confirm)
  }

  /** The profile kept in storage: the name, phone and ID as typed, the email a fixed placeholder. */
  function StoredUser(form: FormRecord): (profile: UserProfile)
    ensures profile.email == PlaceholderEmail
    ensures profile.fullName == form.fullName && profile.phone == form.phone && profile.idNumber == form.idNumber
  {
    UserProfile(form.fullName, PlaceholderEmail, form.phone, form.idNumber)
  }

  /** The typed email, password and confirmation never reach the stored profile. */
  lemma StoredUserIgnoresEmailAndPasswords(form: FormRecord, email: string, password: string, confirm: string)
    ensures StoredUser(form.(email := email, password := password, confirmPassword := confirm)) == StoredUser(form)
  {
  }

  /** How a submission ends. */
  datatype SubmitOutcome =
    | Rejected
    | SignupFailed(sent: SignupPayload)
    | SignedUp(sent: SignupPayload, next: UserFlowContext.Route)

  /** After signing up the user is sent to the report page, and with fresh flags the guard keeps them there. */
  lemma LandingAfterSignupIsStable()
    ensures UserFlowContext.NextRoute(AllFalse, UserFlowContext.RoutePath(UserFlowContext.Report)) == None
    ensures UserFlowContext.Canonical(AllFalse) == UserFlowContext.Report
  {
  }

  /** The signup page's state: the form data and the messages shown beside the fields. */
  class SignUpPage {
    var formData: FormRecord
    var errors: FormRecord

    constructor ()
      ensures formData == Blank && errors == Blank
    {
      formData := Blank;
      errors := Blank;
    }

    /** Checks every field, records one message per field, and reports whether there were none. */
    method ValidateForm() returns (isValid: bool)
      modifies this`errors
      ensures errors == FormErrors(formData)
      ensures isValid <==> NoErrors(errors)
    {
      isValid := true;
      var newErrors := Blank;

      if formData.fullName == "" {
        newErrors := newErrors.(fullName := FullNameRequired);
        isValid := false;
      } else if |formData.fullName| < 3 {
        newErrors := newErrors.(fullName := FullNameTooShort);
        isValid := false;
      }

      if formData.phone == "" {
        newErrors := newErrors.(phone := PhoneRequired);
        isValid := false;
      } else if !MatchesPhonePattern(formData.phone) {
        newErrors := newErrors.(phone := PhoneInvalid);
        isValid := false;
      }

      if formData.idNumber == "" {
        newErrors := newErrors.(idNumber := IdNumberRequired);
        isValid := false;
      } else if !MatchesIdPattern(formData.idNumber) {
        newErrors := newErrors.(idNumber := IdNumberInvalid);
        isValid := false;
      }

      if formData.password == "" {
        newErrors := newErrors.(password := PasswordRequired);
        isValid := false;
      } else if |formData.password| < 4 {
        newErrors := newErrors.(password := PasswordTooShort);
        isValid := false;
      }

      if formData.confirmPassword == "" {
        newErrors := newErrors.(confirmPassword := ConfirmRequired);
        isValid := false;
      } else if formData.password != formData.confirmPassword {
        newErrors := newErrors.(confirmPassword := PasswordsDiffer);
        isValid := false;
      }

      errors := newErrors;
    }

    /** An edit to one field: that field takes the value and its message, if any, is cleared. */
    method HandleChange(name: Field, value: string)
      modifies this
      ensures formData == Set(old(formData), name, value)
      ensures errors == if Get(old(errors), name) != "" then Set(old(errors), name, "") else old(errors)
    {
      formData := Set(formData, name, value);
      if Get(errors, name) != "" {
        errors := Set(errors, name, "");
      }
    }

    /**
     * Submission. Nothing is sent unless validation passes. The signup service's
     * answer is the parameter `signupSucceeds`. On success the profile is stored
     * under `user`, the flow is reset, and the next page is the report page.
     */
    method HandleSubmit(flow: UserFlowContext.UserFlowProvider, signupSucceeds: bool) returns (outcome: SubmitOutcome)
      requires flow.Valid()
      modifies this`errors, flow
      ensures flow.Valid()
      ensures errors == FormErrors(formData)
      ensures !NoErrors(errors) ==> outcome == Rejected
      ensures NoErrors(errors) && !signupSucceeds ==> outcome == SignupFailed(SignupData(formData))
      ensures NoErrors(errors) && signupSucceeds ==>
        outcome == SignedUp(SignupData(formData), UserFlowContext.Report)
      ensures !(NoErrors(errors) && signupSucceeds) ==>
        flow.Flags() == old(flow.Flags()) && flow.storage == old(flow.storage)
      ensures NoErrors(errors) && signupSucceeds ==>
        && flow.Flags() == AllFalse
        && flow.storage == old(flow.storage)[UserKey := UserEntry(StoredUser(formData))] - {FlowStateKey, ReportDataKey}
        && flow.storage[UserKey] == UserEntry(StoredUser(formData))
    {
      var isValid := ValidateForm();
      if !isValid {
        return Rejected;
      }
      var signupData := SignupData(formData);
      if !signupSucceeds {
        return SignupFailed(signupData);
      }
      flow.storage := flow.storage[UserKey := UserEntry(StoredUser(formData))];
      flow.ResetFlow();
      outcome := SignedUp(signupData, UserFlowContext.Report);
    }
  }
}
