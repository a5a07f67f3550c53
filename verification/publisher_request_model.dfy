/** The `PublisherRequest` schema: an application to become a publisher. */
module PublisherRequestModel {
  import opened Common

  /** The `status` enum; any other value is unrepresentable. */
  datatype RequestStatus = Pending | Approved | Rejected

  /** The string the enum stores and the status route returns. */
  function StatusName(s: RequestStatus): string
  {
    match s
    case Pending => "pending"
    case Approved => "approved"
    case Rejected => "rejected"
  }

  /** A stored request. */
  datatype PublisherRequest = PublisherRequest(
    id: ObjectId,
    userId: ObjectId,         // refers to a User
    fullName: string,
    email: string,
    phoneNumber: string,
    aadhaarNumber: string,
    status: RequestStatus,
    createdAt: Timestamp)

  /** The JSON body of an application; `None` is `undefined`. */
  datatype RequestBody = RequestBody(
    userId: Option<ObjectId>,
    fullName: Option<string>,
    email: Option<string>,
    phoneNumber: Option<string>,
    aadhaarNumber: Option<string>)

  /** The required paths that are missing or empty. */
  function MissingPaths(b: RequestBody): set<string>
  {
    (if b.userId.Some? then {} else {"userId"})
    + (if Truthy(b.fullName) then {} else {"fullName"})
    + (if Truthy(b.email) then {} else {"email"})
    + (if Truthy(b.phoneNumber) then {} else {"phoneNumber"})
    + (if Truthy(b.aadhaarNumber) then {} else {"aadhaarNumber"})
  }

  /** A stored request satisfies the schema's `required` validators. */
  predicate WellFormed(r: PublisherRequest)
  {
    r.fullName != "" && r.email != "" && r.phoneNumber != "" && r.aadhaarNumber != ""
  }

  /** `new PublisherRequest({...})` followed by validation: every field is required,
      the status defaults to pending and createdAt to the creation time. */
  function NewPublisherRequest(b: RequestBody, id: ObjectId, now: Timestamp): (r: Validation<PublisherRequest>)
    ensures r.Built? <==> b.userId.Some? && Truthy(b.fullName) && Truthy(b.email)
                           && Truthy(b.phoneNumber) && Truthy(b.aadhaarNumber)
    ensures r.Invalid? ==> r.paths != {}
    ensures r.Built? ==> WellFormed(r.doc) && r.doc.status == Pending && r.doc.createdAt == now
    ensures r.Built? ==> r.doc.id == id && r.doc.userId == b.userId.value
                          && r.doc.fullName == b.fullName.value && r.doc.email == b.email.value
                          && r.doc.phoneNumber == b.phoneNumber.value
                          && r.doc.aadhaarNumber == b.aadhaarNumber.value
  {
    var missing := MissingPaths(b);
    if missing != {} then Invalid(missing)
    else Built(PublisherRequest(id, b.userId.value, b.fullName.value, b.email.value,
                                 b.phoneNumber.value, b.aadhaarNumber.value, Pending, now))
  }

  /** The three stored status strings are distinct, and none of them is "none",
      the answer the status route gives for a user without requests. */
  lemma StatusNamesDistinct(s: RequestStatus, t: RequestStatus)
    ensures StatusName(s) == StatusName(t) <==> s == t
    ensures StatusName(s) != "none"
  {
  }

  /** Requests have distinct ids. */
  predicate DistinctRequestIds(rs: seq<PublisherRequest>)
  {
    forall i, j :: 0 <= i < j < |rs| ==> rs[i].id != rs[j].id
  }

  /** The workflow's invariant: no user has two pending requests. */
  ghost predicate AtMostOnePending(rs: seq<PublisherRequest>)
  {
    forall i, j ::
      0 <= i < |rs| && 0 <= j < |rs| && rs[i].status == Pending && rs[j].status == Pending && rs[i].userId == rs[j].userId
      ==> i == j
  }

  /** Approving or rejecting one request (whatever its prior status) keeps the invariant. */
  lemma DecisionKeepsOnePending(rs: seq<PublisherRequest>, i: nat, s: RequestStatus)
    requires i < |rs| && AtMostOnePending(rs) && s != Pending
    ensures AtMostOnePending(rs[i := rs[i].(status := s)])
  {
  }
}
