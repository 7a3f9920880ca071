/**
 * The serverless contact endpoint `api/contact.js`: an early-return cascade
 * from the request to a status, a JSON body and the three CORS headers, which
 * are set before any branch. The mail provider is abstract: the model says
 * which send request it would have been handed and takes its result as an input.
 */
module ContactEndpoint {
  import opened Wrappers
  import opened EmailPattern

  /** `req.body`'s three fields; `None` stands for a missing (undefined) field. */
  datatype RequestBody = RequestBody(name: Option<string>, email: Option<string>, message: Option<string>)

  /** What the provider's `send` did: returned data, returned an error, or threw. */
  datatype ProviderResult = ProviderOk | ProviderError | ProviderThrows

  /** The JSON bodies: `{success: false, error}` and `{success: true, message}`. */
  datatype JsonBody = Failure(error: string) | Delivered(message: string)

  datatype Response = Response(status: int, headers: seq<(string, string)>, body: Option<JsonBody>)

  /** The provider request: sender, recipients, subject and what the HTML template shows. */
  datatype SendRequest = SendRequest(from: string, to: seq<string>, subject: string,
                                     name: string, email: string, message: string)

  /** The response, and the send request if one was made. */
  datatype Outcome = Outcome(response: Response, sent: Option<SendRequest>)

  const CorsHeaders: seq<(string, string)> := [
    ("Access-Control-Allow-Origin", "*"),
    ("Access-Control-Allow-Methods", "POST, OPTIONS"),
    ("Access-Control-Allow-Headers", "Content-Type")
  ]

  const Sender := "Portfolio Contact <onboarding@resend.dev>"
  const Recipients: seq<string> := ["samuelpinheiro@example.com"]
  const SubjectPrefix := "New Portfolio Contact from "

  const MethodNotAllowed := "Method not allowed"
  const FieldsRequired := "All fields are required"
  const InvalidEmail := "Please provide a valid email address"
  const SendFailed := "Failed to send email. Please try again later."
  const InternalError := "Internal server error. Please try again later."
  const SentMessage := "Your message has been sent successfully!"

  /** A field is accepted by `!field` only when present and non-empty; no trimming happens. */
  predicate Truthy(v: Option<string>) {
    v.Some? && v.value != ""
  }

  /** A body that passes both checks of the handler. */
  predicate AcceptedBody(b: RequestBody) {
    Truthy(b.name) && Truthy(b.email) && Truthy(b.message) && MatchesEmailPattern(b.email.value)
  }

  /** The response with the CORS headers every path sets, and the send request if one was made. */
  function Answer(status: int, body: Option<JsonBody>, sent: Option<SendRequest>): Outcome {
    Outcome(Response(status, CorsHeaders, body), sent)
  }

  /**
   * `handler(req, res)`. A missing body makes the destructuring throw, which
   * the catch turns into the internal-error response. Every response carries
   * the CORS headers and one of four statuses, and the provider is asked to
   * send only for a POST whose body passes both checks.
   */
  function Handle(verb: string, body: Option<RequestBody>, provider: ProviderResult): (o: Outcome)
    ensures o.response.headers == CorsHeaders
    ensures o.response.status in {200, 400, 405, 500}
    ensures o.sent.Some? ==> verb == "POST" && body.Some? && AcceptedBody(body.value)
  {
    if verb == "OPTIONS" then Answer(200, None, None)
    else if verb != "POST" then Answer(405, Some(Failure(MethodNotAllowed)), None)
    else if body.None? then Answer(500, Some(Failure(InternalError)), None)
    else
      var b := body.value;
      if !Truthy(b.name) || !Truthy(b.email) || !Truthy(b.message) then
        Answer(400, Some(Failure(FieldsRequired)), None)
      else if !MatchesEmailPattern(b.email.value) then
        Answer(400, Some(Failure(InvalidEmail)), None)
      else
        var request := SendRequest(Sender, Recipients, SubjectPrefix + b.name.value,
                                   b.name.value, b.email.value, b.message.value);
        match provider
        case ProviderOk => Answer(200, Some(Delivered(SentMessage)), Some(request))
        case ProviderError => Answer(500, Some(Failure(SendFailed)), Some(request))
        case ProviderThrows => Answer(500, Some(Failure(InternalError)), Some(request))
  }

  /**
   * A send is attempted exactly for a POST whose body passes validation, and
   * it carries the submitted fields unchanged, with the name in the subject.
   * Until then the provider's behaviour cannot influence the response.
   */
  lemma SendOnlyWhenValid(verb: string, body: Option<RequestBody>, provider: ProviderResult, other: ProviderResult)
    ensures var o := Handle(verb, body, provider);
      && (o.sent.Some? <==> verb == "POST" && body.Some? && AcceptedBody(body.value))
      && (o.sent.Some? ==>
            o.sent.value == SendRequest(Sender, Recipients, SubjectPrefix + body.value.name.value,
                                        body.value.name.value, body.value.email.value, body.value.message.value))
      && (o.sent.None? ==> Handle(verb, body, other) == o)
  {
  }

  /**
   * The status table: CORS headers always; 200 for a preflight (no body) or a
   * delivered message, and only then; 405 for any other non-POST method; 400
   * exactly for a present but rejected body, naming the first check that
   * failed; 500 otherwise, that is for a missing body or a failed send.
   */
  lemma StatusTable(verb: string, body: Option<RequestBody>, provider: ProviderResult)
    ensures var r := Handle(verb, body, provider).response;
      && r.headers == CorsHeaders
      && (r.body.None? <==> verb == "OPTIONS")
      && (r.status == 200 <==> verb == "OPTIONS" || (verb == "POST" && body.Some? && AcceptedBody(body.value) && provider == ProviderOk))
      && (r.body.Some? && r.body.value.Delivered? <==> r.status == 200 && verb != "OPTIONS")
      && (r.status == 405 <==> verb != "OPTIONS" && verb != "POST")
      && (r.status == 400 <==> verb == "POST" && body.Some? && !AcceptedBody(body.value))
      && (r.status == 400 ==>
            r.body == Some(Failure(if Truthy(body.value.name) && Truthy(body.value.email) && Truthy(body.value.message)
                                   then InvalidEmail else FieldsRequired)))
      && (r.status == 500 <==>
            verb == "POST" && (body.None? || (AcceptedBody(body.value) && provider != ProviderOk)))
      && (r.status == 500 ==>
            r.body == Some(Failure(if body.Some? && provider == ProviderError then SendFailed else InternalError)))
  {
  }

  /** Validation does not trim: a name of one space is accepted and the message sent. */
  lemma BlankNameAccepted()
    ensures var o := Handle("POST", Some(RequestBody(Some(" "), Some("a@b.co"), Some("Hello there"))), ProviderOk);
      o.response.status == 200 && o.sent.Some? && o.sent.value.subject == SubjectPrefix + " "
  {
    AcceptsPlainAddress();
  }

  /** An address with a leading space is rejected as malformed, not as missing. */
  lemma PaddedEmailRejected()
    ensures Handle("POST", Some(RequestBody(Some("Ann"), Some(" a@b.co"), Some("Hello there"))), ProviderOk)
            == Answer(400, Some(Failure(InvalidEmail)), None)
  {
    RejectsLeadingSpace();
  }
}
