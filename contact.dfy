/** The contact page's form controller: the five form fields, the validator,
    `isFormValid`, and the submit handler that validates, checks the reCAPTCHA
    token, asks the relay to verify it and then sends the mail through EmailJS.
    The two network calls are inputs (their outcomes), and the handler reports
    the calls it made, in order. */
module ContactPage {
  import opened Wrappers
  import opened Text
  import opened EmailPattern
  import VerifyRelay

  /** The `name` attributes of the form's five inputs. */
  datatype FieldName = FirstName | LastName | Email | Field | Message

  datatype FormData = FormData(firstName: string, lastName: string, email: string, field: string, message: string)
  {
    function Get(name: FieldName): string {
      match name
      case FirstName => firstName
      case LastName => lastName
      case Email => email
      case Field => field
      case Message => message
    }

    /** `{ ...prev, [name]: value }`: the named field takes the new value and
        every other field keeps its own. */
    function With(name: FieldName, value: string): (r: FormData)
      ensures r.Get(name) == value
      ensures forall other :: other != name ==> r.Get(other) == Get(other)
    {
      match name
      case FirstName => this.(firstName := value)
      case LastName => this.(lastName := value)
      case Email => this.(email := value)
      case Field => this.(field := value)
      case Message => this.(message := value)
    }
  }

  const EmptyForm := FormData("", "", "", "", "")

  /** `Record<string, string>` from field name to the message shown under it. */
  type Errors = map<FieldName, string>

  /** `errors[name]` is truthy, so the page shows an error under that field. */
  predicate Shows(errors: Errors, name: FieldName) {
    name in errors && errors[name] != ""
  }

  const FirstNameMissing := "Please enter your first name"
  const LastNameMissing := "Please enter your last name"
  const EmailMissing := "Please enter your email"
  const EmailInvalid := "Please enter a valid email address"
  const FieldMissing := "Please select a field of interest"
  const MessageMissing := "Please enter your message"
  const RecaptchaMissing := "Please complete the reCAPTCHA verification"
  const SendFailed := "Failed to send message. Please try again later."

  const AllFields: set<FieldName> := {FirstName, LastName, Email, Field, Message}

  /** One check of the validation block of `handleSubmit`: the message it
      stores under `name`, or `None` when the field passes. */
  function FieldError(f: FormData, name: FieldName): Option<string> {
    match name
    case FirstName => if Trim(f.firstName) == "" then Some(FirstNameMissing) else None
    case LastName => if Trim(f.lastName) == "" then Some(LastNameMissing) else None
    case Email =>
      if Trim(f.email) == "" then Some(EmailMissing)
      else if !LooksLikeEmail(Trim(f.email)) then Some(EmailInvalid)
      else None
    case Field => if f.field == "" then Some(FieldMissing) else None
    case Message => if Trim(f.message) == "" then Some(MessageMissing) else None
  }

  /** Every check of the validation block passes. */
  predicate Passes(f: FormData) {
    FieldError(f, FirstName).None? && FieldError(f, LastName).None? && FieldError(f, Email).None?
    && FieldError(f, Field).None? && FieldError(f, Message).None?
  }

  /** The validation block of `handleSubmit` (`newErrors`): one entry per
      failing check. It is empty exactly when every check passes. */
  function Validate(f: FormData): (r: Errors)
    ensures r == map[] <==> Passes(f)
  {
    var r := map name | name in AllFields && FieldError(f, name).Some? :: FieldError(f, name).value;
    // The branches return the same map; each assertion is the hint the
    // verifier needs for one direction of the `ensures`.
    if Passes(f) then
      assert forall name :: name !in r;
      r
    else
      assert FirstName in r || LastName in r || Email in r || Field in r || Message in r;
      r
  }

  /** What the validation block reports: a key is present exactly for a field
      that fails its check, with that check's message. Names and message must
      not be blank, the field of interest must not be empty (it is not
      trimmed), and the trimmed email must be non-empty and match the pattern;
      a blank email gets the "enter your email" message, any other failing one
      the "valid email" message. */
  lemma ValidateReports(f: FormData)
    ensures var r := Validate(f);
      && (FirstName in r <==> Blank(f.firstName))
      && (LastName in r <==> Blank(f.lastName))
      && (Email in r <==> !MatchesPattern(Trim(f.email)))
      && (Field in r <==> f.field == "")
      && (Message in r <==> Blank(f.message))
      && (FirstName in r ==> r[FirstName] == FirstNameMissing)
      && (LastName in r ==> r[LastName] == LastNameMissing)
      && (Email in r ==> r[Email] == if Blank(f.email) then EmailMissing else EmailInvalid)
      && (Field in r ==> r[Field] == FieldMissing)
      && (Message in r ==> r[Message] == MessageMissing)
  {
    TrimEmptyIffBlank(f.firstName);
    TrimEmptyIffBlank(f.lastName);
    TrimEmptyIffBlank(f.email);
    TrimEmptyIffBlank(f.message);
    LooksLikeEmailIffMatches(Trim(f.email));
  }

  /** `isFormValid`, the page's own conjunction of the field checks and
      `recaptchaValue !== null`. */
  predicate IsFormValid(f: FormData, recaptcha: Option<string>): (r: bool)
    ensures r ==> recaptcha.Some? && f.field != "" && MatchesPattern(Trim(f.email))
  {
    // The lemma call only supplies the proof of the `ensures`.
    LooksLikeEmailIffMatches(Trim(f.email));
    Trim(f.firstName) != "" && Trim(f.lastName) != ""
    && Trim(f.email) != "" && LooksLikeEmail(Trim(f.email))
    && f.field != "" && Trim(f.message) != ""
    && recaptcha != None
  }

  /** `isFormValid` agrees with the validator: it holds exactly when validation
      produces no error and a token (possibly empty) is present. */
  lemma IsFormValidIffNoErrors(f: FormData, recaptcha: Option<string>)
    ensures IsFormValid(f, recaptcha) <==> Validate(f) == map[] && recaptcha.Some?
  {
    LooksLikeEmailIffMatches(Trim(f.email));
    var r := Validate(f);
    if r != map[] {
      var name :| name in r;
    }
  }

  /** The submit handler's token check `!recaptchaValue`: a token is there and
      is not the empty string. */
  predicate HasToken(recaptcha: Option<string>) {
    recaptcha.Some? && recaptcha.value != ""
  }

  datatype Status = Idle | Loading | Success | Error

  /** The component's state. */
  datatype PageState = PageState(form: FormData, errors: Errors, status: Status, errorMessage: string, recaptcha: Option<string>)

  const InitialState := PageState(EmptyForm, map[], Idle, "", None)

  /** What `fetch('/api/verify-recaptcha', ...)` did: it threw, or it gave a
      response with this HTTP status. */
  datatype VerifyOutcome = VerifyThrows | VerifyAnswered(httpStatus: int)

  /** `Response.ok`: the status is in the range 200-299. */
  predicate VerifyOk(v: VerifyOutcome) {
    v.VerifyAnswered? && 200 <= v.httpStatus <= 299
  }

  /** What `emailjs.send` did: it resolved, or it threw. */
  datatype SendOutcome = SendOk | SendThrows

  /** What the widget reset after a successful send did: it returned (or there
      was no widget to reset), or it threw inside the same `try`. */
  datatype ResetOutcome = ResetOk | ResetThrows

  /** `templateParams` as sent to EmailJS. */
  datatype TemplateParams = TemplateParams(fromName: string, fromEmail: string, subject: string, field: string, message: string)

  /** One outbound call: the request to the relay carrying the token, or the
      mail sent through EmailJS. */
  datatype Call = VerifyRequest(token: string) | SendMail(params: TemplateParams)

  /** The state a submission ends in, the state shown while its calls are in
      flight (none when it made no call), and the outbound calls it made, in
      order. A call that never settles leaves the page in `pending`. */
  datatype Attempt = Attempt(state: PageState, pending: Option<PageState>, calls: seq<Call>)

  /** `templateParams`: the form's email and message, each with only the
      whitespace at its ends removed; the two trimmed names joined by one
      space; the field as selected, and the subject naming it. */
  function Template(f: FormData): (r: TemplateParams)
    ensures PaddedBy(f.email, r.fromEmail) && Trimmed(r.fromEmail)
    ensures PaddedBy(f.message, r.message) && Trimmed(r.message)
    ensures r.fromName == Trim(f.firstName) + " " + Trim(f.lastName)
    ensures r.field == f.field && r.subject == "[" + f.field + "] Contact Form Submission"
  {
    TrimKeepsMiddle(f.email);
    TrimKeepsMiddle(f.message);
    TemplateParams(
      Trim(f.firstName) + " " + Trim(f.lastName),
      Trim(f.email),
      "[" + f.field + "] Contact Form Submission",
      f.field,
      Trim(f.message))
  }

  /** The mail sent for a form that passed validation carries an address that
      matches the email pattern, a sender name with no whitespace at either
      end, and a non-blank trimmed message. */
  lemma TemplateOfValidForm(f: FormData)
    requires Validate(f) == map[]
    ensures MatchesPattern(Template(f).fromEmail)
    ensures Template(f).fromName != [] && Trimmed(Template(f).fromName)
    ensures Template(f).message != [] && !IsWhitespace(Template(f).message[0])
    ensures Template(f).subject == "[" + f.field + "] Contact Form Submission" && f.field != ""
  {
    ValidateReports(f);
    TrimEmptyIffBlank(f.firstName);
    TrimEmptyIffBlank(f.lastName);
    TrimEmptyIffBlank(f.message);
    var first, last := Trim(f.firstName), Trim(f.lastName);
    assert Template(f).fromName == first + " " + last;
    assert (first + " " + last)[0] == first[0];
    assert (first + " " + last)[|first + " " + last| - 1] == last[|last| - 1];
  }

  /** `handleSubmit` as a function of the state it starts from and of the
      outcomes of the two network calls and of the widget reset.
      - A validation error or a missing token rejects the attempt locally: no
        call is made and `status`, the form and the token are left alone.
      - Otherwise the relay is asked first, with the token; the mail is sent
        only when its response was ok, and at most once.
      - While the calls are in flight the page shows `Loading` with no errors
        and no message.
      - A sent mail resets the form, the errors and the token, and ends in
        `Success` unless the widget reset throws, which ends in `Error` with
        the failure message although the mail went out. A failed verification
        or a failed send both end in `Error` with that one message, keeping
        the form and the token. */
  function Submit(st: PageState, verify: VerifyOutcome, send: SendOutcome, reset: ResetOutcome): (r: Attempt)
    ensures r.calls == [] <==> !Passes(st.form) || !HasToken(st.recaptcha)
    ensures r.calls == [] ==>
      r.state.status == st.status && r.state.form == st.form && r.state.recaptcha == st.recaptcha
    ensures !Passes(st.form) ==>
      r.state.errors == Validate(st.form) && r.state.errorMessage == st.errorMessage
    ensures Passes(st.form) && !HasToken(st.recaptcha) ==>
      r.state.errors == map[] && r.state.errorMessage == RecaptchaMissing
    ensures r.pending.Some? <==> r.calls != []
    ensures r.pending.Some? ==>
      r.pending.value == st.(errors := map[], status := Loading, errorMessage := "")
    ensures |r.calls| <= 2
    ensures r.calls != [] ==> r.calls[0] == VerifyRequest(st.recaptcha.value)
    ensures |r.calls| == 2 <==> r.calls != [] && VerifyOk(verify)
    ensures |r.calls| == 2 ==> r.calls[1] == SendMail(Template(st.form))
    ensures r.calls != [] ==>
      (r.state.status == Success <==> |r.calls| == 2 && send == SendOk && reset == ResetOk)
    ensures r.calls != [] && r.state.status == Success ==>
      r.state == PageState(EmptyForm, map[], Success, "", None)
    ensures |r.calls| == 2 && send == SendOk && reset == ResetThrows ==>
      r.state == PageState(EmptyForm, map[], Error, SendFailed, None)
    ensures r.calls != [] && !(|r.calls| == 2 && send == SendOk) ==>
      r.state == st.(errors := map[], status := Error, errorMessage := SendFailed)
  {
    if !Passes(st.form) then
      Attempt(st.(errors := Validate(st.form)), None, [])
    else if !HasToken(st.recaptcha) then
      Attempt(st.(errors := map[], errorMessage := RecaptchaMissing), None, [])
    else
      var loading := st.(errors := map[], status := Loading, errorMessage := "");
      var asked := [VerifyRequest(st.recaptcha.value)];
      if !VerifyOk(verify) then
        Attempt(loading.(status := Error, errorMessage := SendFailed), Some(loading), asked)
      else
        var calls := asked + [SendMail(Template(st.form))];
        match send
        case SendThrows => Attempt(loading.(status := Error, errorMessage := SendFailed), Some(loading), calls)
        case SendOk =>
          match reset
          case ResetOk => Attempt(PageState(EmptyForm, map[], Success, "", None), Some(loading), calls)
          case ResetThrows => Attempt(PageState(EmptyForm, map[], Error, SendFailed, None), Some(loading), calls)
  }

  /** Across the two files: when the page's token reached the relay, the mail
      goes out exactly when the form validated, the token is non-empty and
      the verifier's own verdict was truthy. */
  lemma MailOnlyAfterVerifierAccepted(st: PageState, token: string, upstream: VerifyRelay.Upstream, send: SendOutcome, reset: ResetOutcome)
    requires st.recaptcha == Some(token)
    ensures var relayed := VerifyRelay.Post(VerifyRelay.Body(VerifyRelay.Str(token)), upstream).reply;
      var a := Submit(st, VerifyAnswered(relayed.status), send, reset);
      (exists c :: c in a.calls && c.SendMail?) <==>
        Passes(st.form) && token != ""
        && upstream.Answered? && VerifyRelay.Truthy(upstream.success)
  {
    var relayed := VerifyRelay.Post(VerifyRelay.Body(VerifyRelay.Str(token)), upstream).reply;
    var a := Submit(st, VerifyAnswered(relayed.status), send, reset);
    if |a.calls| == 2 {
      assert a.calls[1] in a.calls;
    }
  }

  /** `isFormValid` tests `recaptchaValue !== null` while `handleSubmit` tests
      `!recaptchaValue`: with an empty token the first holds for a form that
      passes validation, yet the second rejects the attempt without any call. */
  lemma EmptyTokenDivergence(st: PageState, verify: VerifyOutcome, send: SendOutcome, reset: ResetOutcome)
    requires Passes(st.form) && st.recaptcha == Some("")
    ensures IsFormValid(st.form, st.recaptcha)
    ensures Submit(st, verify, send, reset).calls == []
    ensures Submit(st, verify, send, reset).state.errorMessage == RecaptchaMissing
  {
    IsFormValidIffNoErrors(st.form, st.recaptcha);
  }

  /** The contact page component, its state kept in fields. */
  class Contact {
    var formData: FormData
    var errors: Errors
    var status: Status
    var errorMessage: string
    var recaptchaValue: Option<string>

    function State(): PageState
      reads this
    {
      PageState(formData, errors, status, errorMessage, recaptchaValue)
    }

    /** The initial `useState` values. */
    constructor ()
      ensures State() == InitialState
    {
      formData := EmptyForm;
      errors := map[];
      status := Idle;
      errorMessage := "";
      recaptchaValue := None;
    }

    /** `handleChange`: the named field takes the new value; an error shown
        under it is blanked (its key stays, with `''`); nothing else changes. */
    method HandleChange(name: FieldName, value: string)
      modifies this
      ensures formData == old(formData).With(name, value)
      ensures !Shows(errors, name)
      ensures errors.Keys == old(errors).Keys
      ensures forall other :: other != name && other in errors ==> errors[other] == old(errors)[other]
      ensures old(Shows(errors, name)) ==> errors[name] == ""
      ensures !old(Shows(errors, name)) ==> errors == old(errors)
      ensures status == old(status) && errorMessage == old(errorMessage) && recaptchaValue == old(recaptchaValue)
    {
      formData := formData.With(name, value);
      if name in errors && errors[name] != "" {
        errors := errors[name := ""];
      }
    }

    /** The widget's `onChange`: a new token, or `null` when it expires. */
    method HandleRecaptcha(value: Option<string>)
      modifies this
      ensures State() == old(State()).(recaptcha := value)
    {
      recaptchaValue := value;
    }

    /** `handleSubmit`, step by step; the outcomes of the relay request, of
        the EmailJS call and of the widget reset are given, and the calls made
        and the state shown while they were in flight are returned. */
    method HandleSubmit(verify: VerifyOutcome, send: SendOutcome, reset: ResetOutcome)
      returns (calls: seq<Call>, pending: Option<PageState>)
      modifies this
      ensures State() == Submit(old(State()), verify, send, reset).state
      ensures pending == Submit(old(State()), verify, send, reset).pending
      ensures calls == Submit(old(State()), verify, send, reset).calls
    {
      calls := [];
      pending := None;
      errors := map[];
      var newErrors := Validate(formData);
      if newErrors != map[] {
        errors := newErrors;
        return;
      }
      if !HasToken(recaptchaValue) {
        errorMessage := RecaptchaMissing;
        return;
      }
      status := Loading;
      errorMessage := "";
      pending := Some(State());
      calls := [VerifyRequest(recaptchaValue.value)];
      if !VerifyOk(verify) {
        status := Error;
        errorMessage := SendFailed;
        return;
      }
      calls := calls + [SendMail(Template(formData))];
      if send == SendThrows {
        status := Error;
        errorMessage := SendFailed;
        return;
      }
      status := Success;
      formData := EmptyForm;
      errors := map[];
      recaptchaValue := None;
      if reset == ResetThrows {
        status := Error;
        errorMessage := SendFailed;
      }
    }
  }
}
