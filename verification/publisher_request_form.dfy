/** The application form for becoming a publisher: three fields, a required-field check,
    and a status that goes from idle to submitting and then to success or error. */
module PublisherRequestForm {
  import opened Common
  import opened UserModel
  import opened PublisherRequestModel
  import opened Database
  import opened AuthRoutes
  import opened Sidebar

  datatype FormStatus = Idle | Submitting | Succeeded | Failed

  /** The status strings the page compares against. */
  function StatusText(s: FormStatus): string
  {
    match s
    case Idle => "idle"
    case Submitting => "submitting"
    case Succeeded => "success"
    case Failed => "error"
  }

  datatype FormField = FullName | PhoneNumber | AadhaarNumber

  datatype FormData = FormData(fullName: string, phoneNumber: string, aadhaarNumber: string)

  const EmptyForm: FormData := FormData("", "", "")
  const AllFieldsRequired: string := "All fields are required."
  const SubmitFailed: string := "Failed to submit application."

  function FieldOf(d: FormData, f: FormField): string
  {
    match f
    case FullName => d.fullName
    case PhoneNumber => d.phoneNumber
    case AadhaarNumber => d.aadhaarNumber
  }

  /** `{ ...formData, [name]: value }`. */
  function Updated(d: FormData, f: FormField, value: string): (r: FormData)
    ensures FieldOf(r, f) == value
    ensures forall g :: g != f ==> FieldOf(r, g) == FieldOf(d, g)
  {
    match f
    case FullName => d.(fullName := value)
    case PhoneNumber => d.(phoneNumber := value)
    case AadhaarNumber => d.(aadhaarNumber := value)
  }

  predicate Complete(d: FormData)
  {
    d.fullName != "" && d.phoneNumber != "" && d.aadhaarNumber != ""
  }

  /** The request body: the user's id and email, then the three form fields. */
  function Payload(u: ClientUser, d: FormData): (b: RequestBody)
    ensures b.userId == UserIdOf(u) && b.email == u.email
    ensures b.fullName == Some(d.fullName) && b.phoneNumber == Some(d.phoneNumber)
            && b.aadhaarNumber == Some(d.aadhaarNumber)
  {
    RequestBody(UserIdOf(u), Some(d.fullName), u.email, Some(d.phoneNumber), Some(d.aadhaarNumber))
  }

  /** A complete form is accepted by the server's schema exactly when the session user
      has an id and a non-empty email. */
  lemma CompletePayloadValidIff(u: ClientUser, d: FormData, id: ObjectId, now: Timestamp)
    requires Complete(d)
    ensures NewPublisherRequest(Payload(u, d), id, now).Built?
            <==> UserIdOf(u).Some? && Truthy(u.email)
  {
  }

  /** For a user signed in through the login route, a complete form always passes the
      server's schema, and the stored request names that user. */
  lemma LoggedInPayloadValid(u: User, d: FormData, id: ObjectId, now: Timestamp)
    requires SchemaValid(u) && Complete(d)
    ensures var r := NewPublisherRequest(Payload(LoginUser(u), d), id, now);
            r.Built? && r.doc.userId == u.id && r.doc.email == u.email && r.doc.status == Pending
  {
    SchemaValidMeaning(u);
  }

  /** The same for a session refreshed through GET /me, whose user carries only `_id`:
      `user.id || user._id` still names the stored user. */
  lemma RefreshedPayloadValid(users: map<ObjectId, User>, env: Env, tokenId: ObjectId, d: FormData,
                              id: ObjectId, now: Timestamp)
    requires tokenId != AdminId && tokenId in users && users[tokenId].id == tokenId
    requires SchemaValid(users[tokenId]) && Complete(d)
    ensures Me(users, env, tokenId).Some?
    ensures var r := NewPublisherRequest(Payload(Me(users, env, tokenId).value, d), id, now);
            r.Built? && r.doc.userId == tokenId && r.doc.email == users[tokenId].email
  {
    SchemaValidMeaning(users[tokenId]);
  }

  /** The submit button is disabled exactly while a request is in flight. */
  predicate SubmitDisabled(s: FormStatus)
  {
    s == Submitting
  }

  /** The ArrowRight icon as the page guards it, `!status === "submitting"`: the negation
      yields a boolean, and a boolean is never strictly equal to a string. */
  predicate ArrowShownAsWritten(s: FormStatus)
  {
    var negated: bool := StatusText(s) == "";
    JsStrictEquals(JsBool(negated), JsString("submitting"))
  }

  /** The two JavaScript values the guard compares. */
  datatype JsValue = JsBool(b: bool) | JsString(s: string)

  /** `===`: same type and same value. */
  predicate JsStrictEquals(a: JsValue, b: JsValue)
  {
    a == b
  }

  /** As written, the arrow is never drawn, in any status. */
  lemma ArrowNeverShownAsWritten(s: FormStatus)
    ensures !ArrowShownAsWritten(s)
    ensures ArrowShown(Idle) && !ArrowShownAsWritten(Idle)
  {
  }

  /** The evident intent, `status !== "submitting"`. */
  predicate ArrowShown(s: FormStatus)
  {
    StatusText(s) != StatusText(Submitting)
  }

  /** The button's content: "Submitting..." without the arrow while in flight,
      "Submit Application" with the arrow otherwise. */
  datatype ButtonContent = ButtonContent(caption: string, arrow: bool)

  function Button(s: FormStatus): (c: ButtonContent)
    ensures c.arrow <==> !SubmitDisabled(s)
    ensures c.caption == "Submitting..." <==> SubmitDisabled(s)
  {
    ButtonContent(if StatusText(s) == "submitting" then "Submitting..." else "Submit Application", ArrowShown(s))
  }

  class RequestForm {
    var formData: FormData
    var status: FormStatus
    var error: string

    constructor ()
      ensures formData == EmptyForm && status == Idle && error == ""
    {
      formData, status, error := EmptyForm, Idle, "";
    }

    /** `handleChange`: only the named field changes. */
    method HandleChange(f: FormField, value: string)
      modifies this
      ensures formData == Updated(old(formData), f, value)
      ensures status == old(status) && error == old(error)
    {
      formData := Updated(formData, f, value);
    }

    /** The synchronous part of `handleSubmit`, up to the request: returns the body sent,
        if any. An incomplete form only sets the error. Building the body from a missing
        user throws before anything is sent, which lands in the error branch. */
    method BeginSubmit(user: Option<ClientUser>) returns (sent: Option<RequestBody>)
      modifies this
      ensures formData == old(formData)
      ensures !Complete(formData) ==> sent.None? && error == AllFieldsRequired && status == old(status)
      ensures Complete(formData) && user.None? ==> sent.None? && error == SubmitFailed && status == Failed
      ensures Complete(formData) && user.Some? ==>
                sent == Some(Payload(user.value, formData)) && error == "" && status == Submitting
    {
      error := "";
      if formData.fullName == "" || formData.phoneNumber == "" || formData.aadhaarNumber == "" {
        error := AllFieldsRequired;
        return None;
      }
      status := Submitting;
      if user.None? {
        error := SubmitFailed;
        status := Failed;
        return None;
      }
      sent := Some(Payload(user.value, formData));
    }

    /** The rest of `handleSubmit`, once the server has answered. */
    method FinishSubmit(reply: ApiReply<string>)
      requires status == Submitting
      modifies this
      ensures formData == old(formData)
      ensures reply.Ok? ==> status == Succeeded && error == old(error)
      ensures reply.Err? ==> status == Failed && error == OrElse(reply.message, SubmitFailed)
      ensures reply.Err? ==> error != ""
    {
      if reply.Ok? {
        status := Succeeded;
      } else {
        error := OrElse(reply.message, SubmitFailed);
        status := Failed;
      }
    }
  }
}
