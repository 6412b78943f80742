/** The contact form's server action (src/app/contact/actions.ts): validate
    the submitted object, log it and wait; no mail is sent. */
module ContactAction {
  import opened Options
  import opened Json

  /** The fields the server schema keeps. */
  datatype ServerForm = ServerForm(name: string, email: string, message: string)

  /** `{ success, message }` returned to the page. */
  datatype ActionResult = ActionResult(success: bool, message: string)

  /** The observable effects of the action: console lines and a delay. */
  datatype Effect = Log(line: string) | LogError(line: string) | Sleep(ms: nat)

  datatype Submission = Submission(result: ActionResult, effects: seq<Effect>)

  // The answers and the console headers.
  const InvalidMessage: string := "Invalid form data."
  const SuccessMessage: string := "Form submitted successfully."
  const FailureMessage: string := "Failed to send message. Please try again later."
  const SubmissionHeader: string := "New contact form submission:"
  const ErrorHeader: string := "Error submitting contact form:"

  /** The server schema: a name of at least 2 characters, an email address and
      a message of at least 10 characters. `isEmail` stands for the schema
      library's address check. */
  predicate Accepts(values: Object, isEmail: string -> bool) {
    && StringField(values, "name").Some? && |StringField(values, "name").value| >= 2
    && StringField(values, "email").Some? && isEmail(StringField(values, "email").value)
    && StringField(values, "message").Some? && |StringField(values, "message").value| >= 10
  }

  /** An object with the three string fields at the required lengths is accepted. */
  lemma AcceptsFields(values: Object, isEmail: string -> bool, name: string, email: string, message: string)
    requires StringField(values, "name") == Some(name) && |name| >= 2
    requires StringField(values, "email") == Some(email) && isEmail(email)
    requires StringField(values, "message") == Some(message) && |message| >= 10
    ensures Accepts(values, isEmail)
  {
  }

  /** `formSchema.safeParse(values)`: the three fields when accepted. */
  function ParseForm(values: Object, isEmail: string -> bool): (r: Option<ServerForm>)
    ensures r.Some? <==> Accepts(values, isEmail)
    ensures r.Some? ==> && |r.value.name| >= 2 && isEmail(r.value.email) && |r.value.message| >= 10
    ensures r.Some? ==> && values["name"] == JStr(r.value.name)
                        && values["email"] == JStr(r.value.email)
                        && values["message"] == JStr(r.value.message)
  {
    if Accepts(values, isEmail) then
      Some(ServerForm(StringField(values, "name").value, StringField(values, "email").value,
                      StringField(values, "message").value))
    else None
  }

  /** What the `try` block does, in order, for an accepted form. */
  function TryEffects(f: ServerForm): seq<Effect> {
    [Log(SubmissionHeader), Log("Name: " + f.name), Log("Email: " + f.email),
     Log("Message: " + f.message), Sleep(1000)]
  }

  /** `submitContactForm`. `thrownAfter` is Some(n) when the `try` block throws
      after its first n effects, None when it completes. */
  function SubmitContactForm(values: Object, isEmail: string -> bool, thrownAfter: Option<nat>): (s: Submission)
    ensures s.result.message in {InvalidMessage, SuccessMessage, FailureMessage}
    ensures s.result.success <==> Accepts(values, isEmail) && thrownAfter.None?
    ensures !Accepts(values, isEmail) ==> s == Submission(ActionResult(false, InvalidMessage), [])
    ensures Accepts(values, isEmail) && thrownAfter.Some? ==>
      s.result == ActionResult(false, FailureMessage) && |s.effects| > 0 && s.effects[|s.effects| - 1].LogError?
    // Only console output and one delay are ever produced: nothing is sent.
    ensures forall e :: e in s.effects ==> e.Log? || e.LogError? || e == Sleep(1000)
    // An accepted form without a throw: the success text, the header line, one
    // line per field, then exactly one delay of 1000 ms.
    ensures Accepts(values, isEmail) && thrownAfter.None? ==>
      && s.result == ActionResult(true, SuccessMessage)
      && |s.effects| == 5 && s.effects[0] == Log(SubmissionHeader)
      && s.effects[1] == Log("Name: " + values["name"].s)
      && s.effects[2] == Log("Email: " + values["email"].s)
      && s.effects[3] == Log("Message: " + values["message"].s)
      && s.effects[4] == Sleep(1000)
    // A throw: what ran before it, then the error line.
    ensures Accepts(values, isEmail) && thrownAfter.Some? ==>
      s.effects[..|s.effects| - 1] <= TryEffects(ParseForm(values, isEmail).value)
      && s.effects[|s.effects| - 1] == LogError(ErrorHeader)
  {
    match ParseForm(values, isEmail)
    case None => Submission(ActionResult(false, InvalidMessage), [])
    case Some(f) =>
      var done := TryEffects(f);
      match thrownAfter
      case None => Submission(ActionResult(true, SuccessMessage), done)
      case Some(n) =>
        var upTo := if n < |done| then n else |done|;
        Submission(ActionResult(false, FailureMessage), done[..upTo] + [LogError(ErrorHeader)])
  }

  /** Boundary cases of the length rules: 2 characters of name and 10 of
      message pass, 1 and 9 fail. */
  lemma LengthBoundaries(isEmail: string -> bool, email: string)
    requires isEmail(email)
    ensures Accepts(map["name" := JStr("Al"), "email" := JStr(email), "message" := JStr("0123456789")], isEmail)
    ensures !Accepts(map["name" := JStr("A"), "email" := JStr(email), "message" := JStr("0123456789")], isEmail)
    ensures !Accepts(map["name" := JStr("Al"), "email" := JStr(email), "message" := JStr("012345678")], isEmail)
  {
    var ok := map["name" := JStr("Al"), "email" := JStr(email), "message" := JStr("0123456789")];
    assert StringField(ok, "name") == Some("Al");
    assert StringField(ok, "email") == Some(email);
    assert StringField(ok, "message") == Some("0123456789");
    var shortName := map["name" := JStr("A"), "email" := JStr(email), "message" := JStr("0123456789")];
    assert StringField(shortName, "name") == Some("A");
    var shortMessage := map["name" := JStr("Al"), "email" := JStr(email), "message" := JStr("012345678")];
    assert StringField(shortMessage, "message") == Some("012345678");
  }

  /** An object without a `name` string is always rejected, whatever else it holds. */
  lemma MissingNameRejected(values: Object, isEmail: string -> bool, thrownAfter: Option<nat>)
    requires "name" !in values
    ensures SubmitContactForm(values, isEmail, thrownAfter) == Submission(ActionResult(false, InvalidMessage), [])
  {
  }
}
