/** The contact page (src/app/contact/page.tsx): the client-side schema, the
    payload `onSubmit` sends to the server action, and what the page does with
    the answer. */
module ContactPage {
  import opened Options
  import opened Json
  import Strings
  import Seo
  import ContactAction
  import opened Sequences
  import opened Toasts

  /** The file picked in the attachment input. */
  datatype File = File(name: string, mimeType: string, size: nat)

  /** The form's values, in schema order. */
  datatype FormValues = FormValues(
    firstName: string,
    lastName: string,
    email: string,
    phone: string,
    department: string,
    designation: string,
    companyName: string,
    streetNumber: string,
    city: string,
    zipCode: string,
    state: string,
    country: string,
    industryType: string,
    message: string,
    attachment: Option<File>)

  /** A validation message attached to one field. */
  datatype Issue = Issue(path: string, message: string)

  /** 5 MiB, the largest attachment accepted. */
  const MaxFileSize: nat := 5 * 1024 * 1024

  /** The values the form starts with: every text empty, no file. */
  const DefaultValues: FormValues :=
    FormValues("", "", "", "", "", "", "", "", "", "", "", "", "", "", None)

  // The schema's longer messages.
  const FirstNameRequired: string := "First name is required."
  const EmailInvalid: string := "Please enter a valid email address."
  const PhoneInvalid: string := "Please enter a valid phone number."
  const IndustryRequired: string := "Type of industry is required."
  const MessageTooShort: string := "Message must be at least 10 characters."
  const MessageTooLong: string := "Message must be less than 1000 characters."
  const AttachmentTooLarge: string := "Attachment must be less than 5MB"

  /** The schema's rules, stated field by field. */
  predicate MeetsSchema(v: FormValues, isEmail: string -> bool) {
    && v.firstName != "" && v.lastName != "" && v.department != "" && v.designation != ""
    && v.companyName != "" && v.streetNumber != "" && v.city != "" && v.zipCode != ""
    && v.state != "" && v.country != "" && v.industryType != ""
    && |v.phone| >= 5
    && isEmail(v.email)
    && 10 <= |v.message| <= 1000
    && AttachmentFits(v.attachment)
  }

  /** The attachment rule: no file, or one of at most 5 MiB. */
  predicate AttachmentFits(a: Option<File>) {
    a.None? || a.value.size <= MaxFileSize
  }

  /** A length-at-least check reporting `msg` on `path`. */
  function AtLeast(path: string, value: string, n: nat, msg: string): (r: seq<Issue>)
    ensures r == [] <==> |value| >= n
    ensures forall i :: 0 <= i < |r| ==> r[i] == Issue(path, msg)
  {
    if |value| < n then [Issue(path, msg)] else []
  }

  /** No issue in `issues` is reported on `path`. */
  predicate Avoids(issues: seq<Issue>, path: string) {
    forall i :: 0 <= i < |issues| ==> issues[i].path != path
  }

  /** The checks of the contact person's fields, in schema order. */
  function PersonIssues(v: FormValues, isEmail: string -> bool): (r: seq<Issue>)
    ensures r == [] <==> v.firstName != "" && v.lastName != "" && isEmail(v.email) && |v.phone| >= 5
    ensures Avoids(r, "attachment")
  {
    AtLeast("firstName", v.firstName, 1, FirstNameRequired)
    + AtLeast("lastName", v.lastName, 1, "Last name is required.")
    + (if isEmail(v.email) then [] else [Issue("email", EmailInvalid)])
    + AtLeast("phone", v.phone, 5, PhoneInvalid)
  }

  /** The checks of the company fields, in schema order. */
  function CompanyIssues(v: FormValues): (r: seq<Issue>)
    ensures r == [] <==> v.department != "" && v.designation != "" && v.companyName != ""
    ensures Avoids(r, "attachment")
  {
    AtLeast("department", v.department, 1, "Department is required.")
    + AtLeast("designation", v.designation, 1, "Designation is required.")
    + AtLeast("companyName", v.companyName, 1, "Company name is required.")
  }

  /** The checks of the address fields, in schema order. */
  function AddressIssues(v: FormValues): (r: seq<Issue>)
    ensures r == [] <==> && v.streetNumber != "" && v.city != "" && v.zipCode != ""
                         && v.state != "" && v.country != ""
    ensures Avoids(r, "attachment")
  {
    AtLeast("streetNumber", v.streetNumber, 1, "Street number is required.")
    + AtLeast("city", v.city, 1, "City is required.")
    + AtLeast("zipCode", v.zipCode, 1, "ZIP code is required.")
    + AtLeast("state", v.state, 1, "State is required.")
    + AtLeast("country", v.country, 1, "Country is required.")
  }

  /** The checks of the industry and the message, in schema order. */
  function MessageIssues(v: FormValues): (r: seq<Issue>)
    ensures r == [] <==> v.industryType != "" && 10 <= |v.message| <= 1000
    ensures Avoids(r, "attachment")
  {
    AtLeast("industryType", v.industryType, 1, IndustryRequired)
    + AtLeast("message", v.message, 10, MessageTooShort)
    + (if |v.message| > 1000 then [Issue("message", MessageTooLong)] else [])
  }

  /** The issues of the field checks, in schema order. */
  function FieldIssues(v: FormValues, isEmail: string -> bool): (r: seq<Issue>)
    ensures Avoids(r, "attachment")
  {
    PersonIssues(v, isEmail) + CompanyIssues(v) + AddressIssues(v) + MessageIssues(v)
  }

  /** The refinement's issue: an attachment over 5 MiB. */
  function AttachmentIssues(v: FormValues): seq<Issue> {
    if v.attachment.Some? && v.attachment.value.size > MaxFileSize
    then [Issue("attachment", AttachmentTooLarge)]
    else []
  }

  /** Parsing the form: the field issues, then the refinement's. The
      refinement runs even when a field check failed, since a too-short string
      is not a fatal issue. */
  function Validate(v: FormValues, isEmail: string -> bool): (issues: seq<Issue>)
    ensures issues == [] <==> MeetsSchema(v, isEmail)
    ensures (exists i :: 0 <= i < |issues| && issues[i].path == "attachment") <==> !AttachmentFits(v.attachment)
    ensures !AttachmentFits(v.attachment) ==> issues[|issues| - 1] == Issue("attachment", AttachmentTooLarge)
  {
    var fields := FieldIssues(v, isEmail);
    var issues := fields + AttachmentIssues(v);
    if AttachmentFits(v.attachment) then
      assert issues == fields;
      issues
    else
      assert issues[|fields|].path == "attachment";
      issues
  }

  /** The message bounds are inclusive at both ends, despite the "less than
      1000" wording: 10 and 1000 characters pass, 9 and 1001 fail. */
  lemma MessageBounds(v: FormValues, isEmail: string -> bool)
    ensures |v.message| == 10 || |v.message| == 1000 ==>
      forall i :: 0 <= i < |Validate(v, isEmail)| ==> Validate(v, isEmail)[i].path != "message"
    ensures |v.message| == 9 || |v.message| == 1001 ==> !MeetsSchema(v, isEmail)
  {
    var issues := Validate(v, isEmail);
    assert issues == FieldIssues(v, isEmail) + AttachmentIssues(v);
  }

  /** An attachment of exactly 5 MiB fits; one byte more does not. */
  lemma AttachmentBoundary(name: string, mimeType: string)
    ensures AttachmentFits(Some(File(name, mimeType, 5242880)))
    ensures !AttachmentFits(Some(File(name, mimeType, 5242881)))
  {
  }

  /** The form starts invalid: the first issue is the empty first name. */
  lemma DefaultsInvalid(isEmail: string -> bool)
    ensures Validate(DefaultValues, isEmail) != []
    ensures Validate(DefaultValues, isEmail)[0] == Issue("firstName", FirstNameRequired)
  {
    var issues := Validate(DefaultValues, isEmail);
    assert issues == FieldIssues(DefaultValues, isEmail) + AttachmentIssues(DefaultValues);
  }

  // ---------------------------------------------------------------------------
  // The payload sent to the server action

  /** The keys of the form's text fields, in schema order. */
  const TextKeys: seq<string> := [
    "firstName", "lastName", "email", "phone", "department", "designation", "companyName",
    "streetNumber", "city", "zipCode", "state", "country", "industryType", "message"]

  /** The text fields' values, in the order of `TextKeys`. */
  function Texts(v: FormValues): (t: seq<string>)
    ensures |t| == |TextKeys|
  {
    [v.firstName, v.lastName, v.email, v.phone, v.department, v.designation, v.companyName,
     v.streetNumber, v.city, v.zipCode, v.state, v.country, v.industryType, v.message]
  }

  /** Form values from the text fields' values and an attachment. */
  function WithTexts(t: seq<string>, a: Option<File>): FormValues
    requires |t| == |TextKeys|
  {
    FormValues(t[0], t[1], t[2], t[3], t[4], t[5], t[6], t[7], t[8], t[9], t[10], t[11], t[12], t[13], a)
  }

  lemma TextKeysDistinct()
    ensures Distinct(TextKeys)
    ensures "name" !in TextKeys && "attachment" !in TextKeys
  {
  }

  /** The object whose property `keys[i]` holds the string `vals[i]`. */
  function ObjectOf(keys: seq<string>, vals: seq<string>): (o: Object)
    requires |keys| == |vals|
    ensures o.Keys == set k | k in keys
    ensures Distinct(keys) ==> forall i :: 0 <= i < |keys| ==> o[keys[i]] == JStr(vals[i])
    decreases |keys|
  {
    if keys == [] then map[]
    else
      var n := |keys| - 1;
      var o := ObjectOf(keys[..n], vals[..n])[keys[n] := JStr(vals[n])];
      assert forall k :: k in keys <==> k in keys[..n] || k == keys[n];
      assert forall i :: 0 <= i < n ==> keys[..n][i] == keys[i] && vals[..n][i] == vals[i];
      assert Distinct(keys) ==> Distinct(keys[..n]) && forall i :: 0 <= i < n ==> keys[i] != keys[n];
      o
  }

  /** The `{ name, type, size, dataUrl }` object describing a file; `dataUrl`
      is what the browser's file reader produced for it. */
  function AttachmentObject(f: File, dataUrl: string): Json {
    JObj(map["name" := JStr(f.name), "type" := JStr(f.mimeType), "size" := JNum(f.size), "dataUrl" := JStr(dataUrl)])
  }

  /** `payload` as `onSubmit` builds it: every text field copied, and the
      attachment replaced by its description (left `undefined` without a file). */
  function PayloadAsWritten(v: FormValues, dataUrl: string): (p: Object)
    ensures p.Keys == (set k | k in TextKeys) + (if v.attachment.Some? then {"attachment"} else {})
    ensures "name" !in p
    ensures forall i :: 0 <= i < |TextKeys| ==> p[TextKeys[i]] == JStr(Texts(v)[i])
    ensures v.attachment.Some? ==> p["attachment"] == AttachmentObject(v.attachment.value, dataUrl)
  {
    TextKeysDistinct();
    var texts := ObjectOf(TextKeys, Texts(v));
    match v.attachment
    case None => texts
    case Some(f) => texts["attachment" := AttachmentObject(f, dataUrl)]
  }

  /** The payload as evidently intended: the same object plus the `name` the
      server schema requires, made of the first and last name. */
  function Payload(v: FormValues, dataUrl: string): (p: Object)
    ensures p.Keys == PayloadAsWritten(v, dataUrl).Keys + {"name"}
    ensures p["name"] == JStr(v.firstName + " " + v.lastName)
    ensures forall k :: k in PayloadAsWritten(v, dataUrl) ==> p[k] == PayloadAsWritten(v, dataUrl)[k]
  {
    PayloadAsWritten(v, dataUrl)["name" := JStr(v.firstName + " " + v.lastName)]
  }

  /** Reads an attachment description back into a file. */
  function ReadAttachment(p: Object): Option<Option<File>> {
    if "attachment" !in p then Some(None)
    else match p["attachment"]
      case JObj(a) =>
        if && "name" in a && a["name"].JStr? && "type" in a && a["type"].JStr?
           && "size" in a && a["size"].JNum? && a["size"].n >= 0
        then Some(Some(File(a["name"].s, a["type"].s, a["size"].n)))
        else None
      case _ => None
  }

  /** Reads a payload back into form values, as a receiver of it would. */
  function ReadPayload(p: Object): Option<FormValues> {
    match (ReadTexts(p), ReadAttachment(p))
    case (Some(texts), Some(a)) => Some(WithTexts(texts, a))
    case _ => None
  }

  /** The text fields of a payload, in the order of `TextKeys`, when every
      one of them is a string. */
  function ReadTexts(p: Object): (r: Option<seq<string>>)
    ensures r.Some? <==> forall i :: 0 <= i < |TextKeys| ==> StringField(p, TextKeys[i]).Some?
    ensures r.Some? ==> |r.value| == |TextKeys|
    ensures r.Some? ==> forall i :: 0 <= i < |TextKeys| ==> StringField(p, TextKeys[i]) == Some(r.value[i])
  {
    if forall i :: 0 <= i < |TextKeys| ==> StringField(p, TextKeys[i]).Some? then
      Some(seq(|TextKeys|, i requires 0 <= i < |TextKeys| => StringField(p, TextKeys[i]).value))
    else None
  }

  /** `p` holds every text field of `v` under its key, and the attachment's
      description exactly when `v` has one. */
  predicate Carries(p: Object, v: FormValues, dataUrl: string) {
    && (forall i :: 0 <= i < |TextKeys| ==> TextKeys[i] in p && p[TextKeys[i]] == JStr(Texts(v)[i]))
    && (v.attachment.None? ==> "attachment" !in p)
    && (v.attachment.Some? ==> "attachment" in p && p["attachment"] == AttachmentObject(v.attachment.value, dataUrl))
  }

  lemma ReadBack(v: FormValues, dataUrl: string, p: Object)
    requires Carries(p, v, dataUrl)
    ensures ReadPayload(p) == Some(v)
  {
    assert ReadTexts(p).Some?;
    assert ReadTexts(p).value == Texts(v);
    assert ReadAttachment(p) == Some(v.attachment);
  }

  /** The payload loses nothing: reading it back gives the submitted values,
      the attachment included. */
  lemma PayloadRoundTrip(v: FormValues, dataUrl: string)
    ensures ReadPayload(PayloadAsWritten(v, dataUrl)) == Some(v)
  {
    WrittenCarries(v, dataUrl);
    ReadBack(v, dataUrl, PayloadAsWritten(v, dataUrl));
  }

  /** The payload holds every text field under its key, and the attachment's
      description exactly when there is a file. */
  lemma WrittenCarries(v: FormValues, dataUrl: string)
    ensures Carries(PayloadAsWritten(v, dataUrl), v, dataUrl)
  {
    TextKeysDistinct();
  }

  /** The corrected payload reads back the same way: the added `name` is not
      one of the form's fields. */
  lemma CorrectedPayloadRoundTrip(v: FormValues, dataUrl: string)
    ensures ReadPayload(Payload(v, dataUrl)) == Some(v)
  {
    CorrectedCarries(v, dataUrl);
    ReadBack(v, dataUrl, Payload(v, dataUrl));
  }

  /** Adding `name` keeps every field the payload carries. */
  lemma CorrectedCarries(v: FormValues, dataUrl: string)
    ensures Carries(Payload(v, dataUrl), v, dataUrl)
  {
    WrittenCarries(v, dataUrl);
    assert "attachment" != "name";
  }

  // ---------------------------------------------------------------------------
  // Submitting

  /** The form's values and the text of the file input. */
  datatype PageState = PageState(values: FormValues, fileInput: string)

  const FallbackError: string := "There was a problem with your request."

  /** What the page does with the action's answer: on success a confirmation,
      the form reset and the file input cleared; otherwise an error toast with
      the server's message, or a fallback when that is empty. */
  function Respond(s: PageState, result: ContactAction.ActionResult): (r: (PageState, Toast))
    ensures r.1.destructive <==> !result.success
    ensures result.success ==> r.0 == PageState(DefaultValues, "") && r.0.values.attachment.None?
    ensures !result.success ==> r.0 == s
    ensures !result.success ==> r.1.description == (if result.message != "" then result.message else FallbackError)
    ensures r.1.description != ""
  {
    if result.success then
      (PageState(DefaultValues, ""),
       Toast("Message Sent!", "Thank you for contacting us. We'll get back to you shortly.", false))
    else
      (s, Toast("Uh oh! Something went wrong.",
                if result.message != "" then result.message else FallbackError, true))
  }

  /** Pressing submit: invalid values show their issues and nothing is sent;
      when `onSubmit` throws (the file cannot be read, or the call to the
      action fails) no toast appears and the page keeps its state; otherwise
      the payload is sent and the answer handled. */
  datatype SubmitOutcome =
    | Blocked(issues: seq<Issue>)
    | Aborted(state: PageState)
    | Submitted(state: PageState, toast: Toast, effects: seq<ContactAction.Effect>)

  /** Whether `onSubmit` throws before an answer arrives: reading the attached
      file failed, or the call to the action was rejected. */
  predicate Throws(v: FormValues, dataUrl: Result<string>, callRejected: bool) {
    (v.attachment.Some? && dataUrl.Thrown?) || callRejected
  }

  /** The text the file reader produced; without a file it is never read. */
  function ReadUrl(dataUrl: Result<string>): string {
    if dataUrl.Ok? then dataUrl.value else ""
  }

  /** `form.handleSubmit(onSubmit)` as written. `dataUrl` is what reading the
      attached file gives, and `callRejected` says whether the call to the
      action fails before it answers. Every form that reaches the action is
      rejected there, so the page never resets. */
  function HandleSubmit(s: PageState, dataUrl: Result<string>, callRejected: bool,
                        isEmail: string -> bool, thrownAfter: Option<nat>): (r: SubmitOutcome)
    ensures r.Blocked? <==> !MeetsSchema(s.values, isEmail)
    ensures r.Blocked? ==> r.issues != [] && r.issues == Validate(s.values, isEmail)
    ensures r.Aborted? <==> MeetsSchema(s.values, isEmail) && Throws(s.values, dataUrl, callRejected)
    ensures r.Aborted? ==> r.state == s
    ensures r.Submitted? ==>
      && r.state == s && r.effects == []
      && r.toast == Toast("Uh oh! Something went wrong.", ContactAction.InvalidMessage, true)
  {
    var issues := Validate(s.values, isEmail);
    if issues != [] then Blocked(issues)
    else if Throws(s.values, dataUrl, callRejected) then Aborted(s)
    else
      var sub := ContactAction.SubmitContactForm(PayloadAsWritten(s.values, ReadUrl(dataUrl)), isEmail, thrownAfter);
      PageSubmissionAlwaysRejected(s, ReadUrl(dataUrl), isEmail, thrownAfter);
      var (state, toast) := Respond(s, sub.result);
      Submitted(state, toast, sub.effects)
  }

  /** `form.handleSubmit(onSubmit)` as evidently intended, sending the
      corrected `Payload`: a valid form is accepted by the action, so the page
      resets unless the action throws. */
  function HandleSubmitCorrected(s: PageState, dataUrl: Result<string>, callRejected: bool,
                                 isEmail: string -> bool, thrownAfter: Option<nat>): (r: SubmitOutcome)
    ensures r.Blocked? <==> !MeetsSchema(s.values, isEmail)
    ensures r.Blocked? ==> r.issues != [] && r.issues == Validate(s.values, isEmail)
    ensures r.Aborted? <==> MeetsSchema(s.values, isEmail) && Throws(s.values, dataUrl, callRejected)
    ensures r.Aborted? ==> r.state == s
    ensures r.Submitted? && thrownAfter.None? ==>
      r.state == PageState(DefaultValues, "") && !r.toast.destructive
    ensures r.Submitted? && thrownAfter.Some? ==>
      r.state == s && r.toast.destructive && r.toast.description == ContactAction.FailureMessage
  {
    var issues := Validate(s.values, isEmail);
    if issues != [] then Blocked(issues)
    else if Throws(s.values, dataUrl, callRejected) then Aborted(s)
    else
      ValidFormAccepted(s.values, ReadUrl(dataUrl), isEmail);
      var sub := ContactAction.SubmitContactForm(Payload(s.values, ReadUrl(dataUrl)), isEmail, thrownAfter);
      var (state, toast) := Respond(s, sub.result);
      Submitted(state, toast, sub.effects)
  }

  /** With the corrected payload, every form the page accepts is accepted by
      the server schema too. */
  lemma ValidFormAccepted(v: FormValues, dataUrl: string, isEmail: string -> bool)
    requires MeetsSchema(v, isEmail)
    ensures ContactAction.Accepts(Payload(v, dataUrl), isEmail)
  {
    var p := Payload(v, dataUrl);
    var name := v.firstName + " " + v.lastName;
    KeyPositions(v);
    PayloadField(v, dataUrl, 2);
    PayloadField(v, dataUrl, 13);
    assert StringField(p, "name") == Some(name);
    ContactAction.AcceptsFields(p, isEmail, name, v.email, v.message);
  }

  /** Where the email and the message sit among the text fields. */
  lemma KeyPositions(v: FormValues)
    ensures TextKeys[2] == "email" && Texts(v)[2] == v.email
    ensures TextKeys[13] == "message" && Texts(v)[13] == v.message
  {
  }

  /** The corrected payload holds text field `i` under its key. */
  lemma PayloadField(v: FormValues, dataUrl: string, i: nat)
    requires i < |TextKeys|
    ensures TextKeys[i] in Payload(v, dataUrl)
    ensures StringField(Payload(v, dataUrl), TextKeys[i]) == Some(Texts(v)[i])
  {
    assert TextKeys[i] in PayloadAsWritten(v, dataUrl);
  }

  /** As written, the page never gets a success back: its payload has no
      `name`, so the server schema rejects it and the page shows "Invalid form
      data." whatever was entered. */
  lemma PageSubmissionAlwaysRejected(s: PageState, dataUrl: string, isEmail: string -> bool, thrownAfter: Option<nat>)
    ensures var sub := ContactAction.SubmitContactForm(PayloadAsWritten(s.values, dataUrl), isEmail, thrownAfter);
      && !sub.result.success
      && sub.effects == []
      && Respond(s, sub.result) == (s, Toast("Uh oh! Something went wrong.", ContactAction.InvalidMessage, true))
  {
    ContactAction.MissingNameRejected(PayloadAsWritten(s.values, dataUrl), isEmail, thrownAfter);
  }

  /** The page's breadcrumbs: Home at position 1, Contact at position 2. */
  lemma ContactBreadcrumbs()
    ensures var r := Seo.GenerateStructuredData(Seo.BreadcrumbList,
        Seo.ItemsData(Seo.Trail([("Home", "/"), ("Contact", "/contact")])));
      && r.Ok? && "itemListElement" in r.value && r.value["itemListElement"].JArr?
      && var es := r.value["itemListElement"].elems;
      && |es| == 2 && es[0].JObj? && es[1].JObj?
      && "position" in es[0].fields && es[0].fields["position"] == JNum(1)
      && "item" in es[0].fields && es[0].fields["item"] == JStr(Seo.SiteUrl + "/")
      && "position" in es[1].fields && es[1].fields["position"] == JNum(2)
      && "item" in es[1].fields && es[1].fields["item"] == JStr(Seo.SiteUrl + "/contact")
  {
    Seo.TrailItems([("Home", "/"), ("Contact", "/contact")]);
  }

  /** The contact page's title (src/app/contact/metadata.ts), written in pieces
      so that `ContactTitleLacksM` stays within the verifier's resource limit. */
  const ContactTitle: string := "Contact IOTech - " + "Get in Touch " + "for IoT Solutions " + "& Support"

  /** The contact page's description. */
  const ContactDescription: string :=
    "Contact IOTech for expert IoT solutions, technical support, and partnership opportunities. Reach out to our team for smart device integration, IoT consulting, and innovative connected technology solutions."

  /** The metadata the contact page declares. */
  function ContactMetadataConfig(): Seo.SeoConfig {
    Seo.SeoConfig(
      ContactTitle,
      ContactDescription,
      Some(["contact IOTech", "IoT support", "IoT consulting", "smart device help", "IoT partnership", "technical support"]),
      None, Some("/contact"), Some(Seo.Website), None, None, None, None)
  }

  /** The contact page's title mentions "IOTech - Get in Touch", not the full
      site name, so the site name is appended. */
  lemma ContactMetadataTitle()
    ensures Seo.GenerateMetadata(ContactMetadataConfig()).title == ContactTitle + " | " + Seo.SiteName
  {
    ContactTitleLacksM();
    Seo.FullTitleAppends(ContactTitle, 'm');
  }

  /** The contact page's canonical URL is the site URL followed by "/contact". */
  lemma ContactMetadataUrl()
    ensures Seo.GenerateMetadata(ContactMetadataConfig()).canonical == Seo.SiteUrl + "/contact"
  {
    assert Seo.Truthy(ContactMetadataConfig().url);
  }

  /** The contact title has no 'm', a character of the site name. */
  lemma ContactTitleLacksM()
    ensures 'm' !in ContactTitle && 'm' in Seo.SiteName
  {
    assert Seo.SiteName[10] == 'm';
  }
}
