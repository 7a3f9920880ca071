/**
 * The contact overlay form of `src/components/ui/ContactOverlay.tsx`: field
 * editing, client-side validation, the payload handed to the mail service, and
 * the submit status. The submission runs as two steps, before and after the
 * mail service is awaited; the service's outcome is an input.
 */
module ContactForm {
  import opened Wrappers
  import opened Text
  import opened EmailPattern
  import ContactEndpoint

  datatype Field = Name | Email | Company | Message

  datatype FormData = FormData(name: string, email: string, company: string, message: string) {
    function Get(f: Field): string {
      match f
      case Name => name
      case Email => email
      case Company => company
      case Message => message
    }

    /** `{...prev, [field]: value}`. */
    function With(f: Field, value: string): (d: FormData)
      ensures d.Get(f) == value
      ensures forall g :: g != f ==> d.Get(g) == Get(g)
    {
      match f
      case Name => this.(name := value)
      case Email => this.(email := value)
      case Company => this.(company := value)
      case Message => this.(message := value)
    }
  }

  const EmptyForm := FormData("", "", "", "")

  const NameRequired := "Name is required"
  const EmailRequired := "Email is required"
  const EmailMalformed := "Please enter a valid email address"
  const MessageRequired := "Message is required"
  const MessageTooShort := "Message must be at least 10 characters long"
  const MinMessageLength := 10

  /**
   * `validateForm`: the error map filled one field at a time. The email
   * presence test trims, the pattern test does not; the message length is
   * that of the trimmed message, counted in UTF-16 code units as JavaScript's
   * `length` counts it.
   */
  function ValidateForm(f: FormData): (errors: map<Field, string>)
    ensures errors.Keys <= {Name, Email, Message}
  {
    var none: map<Field, string> := map[];
    var afterName := if Trim(f.name) == [] then none[Name := NameRequired] else none;
    var afterEmail :=
      if Trim(f.email) == [] then afterName[Email := EmailRequired]
      else if !MatchesEmailPattern(f.email) then afterName[Email := EmailMalformed]
      else afterName;
    if Trim(f.message) == [] then afterEmail[Message := MessageRequired]
    else if Utf16Length(Trim(f.message)) < MinMessageLength then afterEmail[Message := MessageTooShort]
    else afterEmail
  }

  /**
   * Field by field, both directions: when each error is raised and which text
   * it carries; the company is never checked, and the form passes exactly when
   * the name is not blank, the untrimmed email matches the pattern and the
   * trimmed message has at least ten UTF-16 code units.
   */
  lemma ValidationRules(f: FormData)
    ensures var e := ValidateForm(f);
      && (Name in e <==> Trim(f.name) == [])
      && (Name in e ==> e[Name] == NameRequired)
      && (Email in e <==> !MatchesEmailPattern(f.email))
      && (Email in e ==> e[Email] == if Trim(f.email) == [] then EmailRequired else EmailMalformed)
      && (Message in e <==> Utf16Length(Trim(f.message)) < MinMessageLength)
      && (Message in e ==> e[Message] == if Trim(f.message) == [] then MessageRequired else MessageTooShort)
      && Company !in e
      && (e == map[] <==> Trim(f.name) != [] && MatchesEmailPattern(f.email) && Utf16Length(Trim(f.message)) >= MinMessageLength)
  {
    if MatchesEmailPattern(f.email) {
      AcceptedIsTrimmed(f.email);
    }
    var e := ValidateForm(f);
    if e == map[] {
      assert Name !in e && Email !in e && Message !in e;
    }
  }

  /**
   * The minimum counts code units, not characters: five characters outside
   * the Basic Multilingual Plane make a long enough message.
   */
  lemma EmojiMessageLongEnough()
    ensures Message !in ValidateForm(FormData("", "", "", FiveEmoji))
  {
    FiveEmojiLength();
    TrimWithoutSpace(FiveEmoji);
    ValidationRules(FormData("", "", "", FiveEmoji));
  }

  /** Five letters are five code units, too few for the minimum. */
  lemma ShortMessageRefused()
    ensures ValidateForm(FormData("", "", "", "hello"))[Message] == MessageTooShort
  {
    TrimWithoutSpace("hello");
    assert Utf16Length("hello") == 5;
  }

  const FiveEmoji := "\U{1F600}\U{1F600}\U{1F600}\U{1F600}\U{1F600}"

  lemma FiveEmojiLength()
    ensures |FiveEmoji| == 5 && Utf16Length(FiveEmoji) == 10
  {
    var e := FiveEmoji;
    assert Utf16Length(e[4..]) == 2;
    assert Utf16Length(e[3..]) == 4 by { assert e[3..][1..] == e[4..]; }
    assert Utf16Length(e[2..]) == 6 by { assert e[2..][1..] == e[3..]; }
    assert Utf16Length(e[1..]) == 8 by { assert e[1..][1..] == e[2..]; }
  }

  /** The company field cannot affect validation. */
  lemma ValidationIgnoresCompany(f: FormData, company: string)
    ensures ValidateForm(f.(company := company)) == ValidateForm(f)
  {
  }

  /** The data handed to `sendContactEmail`. */
  datatype EmailData = EmailData(name: string, email: string, message: string)

  const CompanyLabel := "Company: "

  /** The payload: trimmed name and email, and the trimmed message, prefixed by the trimmed company when there is one. */
  function Payload(f: FormData): (d: EmailData)
    ensures d.name == Trim(f.name) && d.email == Trim(f.email)
  {
    var company := Trim(f.company);
    var prefix := if company != [] then CompanyLabel + company + "\n\n" else "";
    EmailData(Trim(f.name), Trim(f.email), prefix + Trim(f.message))
  }

  /**
   * How the payload message is laid out: the trimmed message always ends it;
   * a non-blank company sits after the label at its start, followed by a
   * blank line; a blank company leaves the trimmed message alone.
   */
  lemma PayloadMessageLayout(f: FormData)
    ensures var m := Payload(f).message; var c := Trim(f.company); var t := Trim(f.message);
      && |m| == |t| + (if c != [] then |CompanyLabel| + |c| + 2 else 0)
      && m[|m| - |t|..] == t
      && (c == [] ==> m == t)
      && (c != [] ==>
            && m[..|CompanyLabel|] == CompanyLabel
            && m[|CompanyLabel|..|CompanyLabel| + |c|] == c
            && m[|CompanyLabel| + |c|..|CompanyLabel| + |c| + 2] == "\n\n")
  {
    var c := Trim(f.company);
    var t := Trim(f.message);
    var m := Payload(f).message;
    if c != [] {
      var p := CompanyLabel + c + "\n\n";
      assert m == p + t;
      assert m[|m| - |t|..] == t;
      assert m[..|CompanyLabel|] == p[..|CompanyLabel|];
    }
  }

  /** What passing validation guarantees about the three checked fields. */
  lemma AcceptedFormFields(f: FormData)
    requires ValidateForm(f) == map[]
    ensures Trim(f.name) != [] && MatchesEmailPattern(f.email) && Trim(f.message) != []
  {
    ValidationRules(f);
    assert Utf16Length(Trim(f.message)) >= MinMessageLength;
  }

  /** The body built from such a form passes the endpoint's checks, and its email is the one typed. */
  lemma AcceptedPayloadBody(f: FormData)
    requires Trim(f.name) != [] && MatchesEmailPattern(f.email) && Trim(f.message) != []
    ensures var d := Payload(f);
      && d.email == f.email
      && ContactEndpoint.AcceptedBody(ContactEndpoint.RequestBody(Some(d.name), Some(d.email), Some(d.message)))
  {
    AcceptedIsTrimmed(f.email);
    PayloadMessageLayout(f);
  }

  /**
   * A form the overlay accepts is accepted by the contact endpoint as well:
   * its payload is a POST body with every field present and non-empty and an
   * address the shared pattern matches, so the endpoint hands it to the
   * provider with the subject naming the sender.
   */
  lemma AcceptedFormReachesProvider(f: FormData, provider: ContactEndpoint.ProviderResult)
    requires ValidateForm(f) == map[]
    ensures var d := Payload(f);
      var o := ContactEndpoint.Handle("POST", Some(ContactEndpoint.RequestBody(Some(d.name), Some(d.email), Some(d.message))), provider);
      && d.email == f.email
      && o.sent.Some?
      && o.sent.value.subject == ContactEndpoint.SubjectPrefix + Trim(f.name)
      && (o.response.status == 200 <==> provider == ContactEndpoint.ProviderOk)
  {
    AcceptedFormFields(f);
    AcceptedPayloadBody(f);
    var d := Payload(f);
    var body := Some(ContactEndpoint.RequestBody(Some(d.name), Some(d.email), Some(d.message)));
    ContactEndpoint.SendOnlyWhenValid("POST", body, provider, provider);
    ContactEndpoint.StatusTable("POST", body, provider);
  }

  /** The endpoint is laxer than the form: a one-space name is refused by the form but accepted by the endpoint. */
  lemma BlankNameOnlyRefusedByForm()
    ensures Name in ValidateForm(FormData(" ", "a@b.co", "", "Hello there"))
    ensures ContactEndpoint.Handle("POST", Some(ContactEndpoint.RequestBody(Some(" "), Some("a@b.co"), Some("Hello there"))),
                                   ContactEndpoint.ProviderOk).sent.Some?
  {
    assert Trim(" ") == [] by { assert AllSpace(" "); }
    ContactEndpoint.BlankNameAccepted();
  }

  datatype SubmitStatus = Idle | Success | Error

  /** How the awaited `sendContactEmail` ended: it resolved, or it rejected with an `Error`'s message or with some other value. */
  datatype SendOutcome = Sent | Rejected(errorText: Option<string>)

  const FallbackError := "Something went wrong. Please try again."

  class ContactOverlay {
    var formData: FormData
    var isSubmitting: bool
    var submitStatus: SubmitStatus
    var errorMessage: string
    var validationErrors: map<Field, string>
    ghost var closeRequests: nat

    constructor ()
      ensures formData == EmptyForm && !isSubmitting && submitStatus == Idle
      ensures errorMessage == "" && validationErrors == map[] && closeRequests == 0
    {
      formData := EmptyForm;
      isSubmitting := false;
      submitStatus := Idle;
      errorMessage := "";
      validationErrors := map[];
      closeRequests := 0;
    }

    /** `handleInputChange`: only the named field takes the new value. */
    method HandleInputChange(field: Field, value: string)
      modifies this
      ensures formData == old(formData).With(field, value)
      ensures isSubmitting == old(isSubmitting) && submitStatus == old(submitStatus)
      ensures errorMessage == old(errorMessage) && validationErrors == old(validationErrors)
      ensures closeRequests == old(closeRequests)
    {
      formData := formData.With(field, value);
    }

    /**
     * `handleSubmit` up to the await: earlier errors are cleared, the form is
     * validated, and either the errors are shown and nothing is sent, or the
     * form is submitting and the payload goes to the mail service. The status
     * itself is not reset.
     */
    method BeginSubmit() returns (payload: Option<EmailData>)
      modifies this
      ensures formData == old(formData) && submitStatus == old(submitStatus) && closeRequests == old(closeRequests)
      ensures errorMessage == ""
      ensures validationErrors == ValidateForm(formData)
      ensures payload.Some? <==> ValidateForm(formData) == map[]
      ensures payload.Some? ==> payload.value == Payload(formData) && isSubmitting
      ensures payload.None? ==> isSubmitting == old(isSubmitting)
    {
      validationErrors := map[];
      errorMessage := "";
      var errors := ValidateForm(formData);
      if errors != map[] {
        validationErrors := errors;
        return None;
      }
      isSubmitting := true;
      payload := Some(Payload(formData));
    }

    /**
     * `handleSubmit` after the await: success clears all four fields, failure
     * keeps them and shows the error's message or the fallback text;
     * submitting ends either way.
     */
    method CompleteSubmit(outcome: SendOutcome)
      modifies this
      ensures !isSubmitting && validationErrors == old(validationErrors) && closeRequests == old(closeRequests)
      ensures outcome.Sent? ==> submitStatus == Success && formData == EmptyForm && errorMessage == old(errorMessage)
      ensures outcome.Rejected? ==>
                submitStatus == Error && formData == old(formData) && errorMessage == outcome.errorText.GetOr(FallbackError)
    {
      if outcome.Sent? {
        submitStatus := Success;
        formData := EmptyForm;
      } else {
        submitStatus := Error;
        errorMessage := outcome.errorText.GetOr(FallbackError);
      }
      isSubmitting := false;
    }

    /** One whole `handleSubmit`; `sent` is what went to the mail service. */
    method HandleSubmit(outcome: SendOutcome) returns (sent: Option<EmailData>)
      modifies this
      ensures validationErrors == ValidateForm(old(formData)) && closeRequests == old(closeRequests)
      ensures sent == if ValidateForm(old(formData)) == map[] then Some(Payload(old(formData))) else None
      ensures sent.None? ==>
                formData == old(formData) && submitStatus == old(submitStatus)
                && isSubmitting == old(isSubmitting) && errorMessage == ""
      ensures sent.Some? ==> !isSubmitting
      ensures sent.Some? && outcome.Sent? ==> submitStatus == Success && formData == EmptyForm && errorMessage == ""
      ensures sent.Some? && outcome.Rejected? ==>
                submitStatus == Error && formData == old(formData) && errorMessage == outcome.errorText.GetOr(FallbackError)
    {
      sent := BeginSubmit();
      if sent.Some? {
        CompleteSubmit(outcome);
      }
    }

    /** The timer started by a success: back to idle, and the overlay asks to be closed. */
    method HandleSuccessTimeout()
      modifies this
      ensures submitStatus == Idle && closeRequests == old(closeRequests) + 1
      ensures formData == old(formData) && isSubmitting == old(isSubmitting)
      ensures errorMessage == old(errorMessage) && validationErrors == old(validationErrors)
    {
      submitStatus := Idle;
      closeRequests := closeRequests + 1;
    }
  }
}
