/** The publisher-application routes: status, request, requests (pending list),
    approve and reject, over the request collection and the user collection. */
module PublisherRoutes {
  import opened Common
  import opened PublisherRequestModel
  import opened Recency
  import opened Database

  /** `findOne({ userId, status: "pending" })` finds a request. */
  predicate HasPending(rs: seq<PublisherRequest>, userId: ObjectId)
  {
    exists i :: 0 <= i < |rs| && rs[i].userId == userId && rs[i].status == Pending
  }

  /** The same lookup for a body whose `userId` may be absent. */
  predicate PendingFor(rs: seq<PublisherRequest>, userId: Option<ObjectId>)
  {
    userId.Some? && HasPending(rs, userId.value)
  }

  /** `findOne({ userId }).sort({ createdAt: -1 })`: the position of the user's newest
      request (among equal timestamps, the one stored last). */
  function LatestIndex(rs: seq<PublisherRequest>, u: ObjectId): (k: Option<nat>)
    ensures k.None? <==> forall i :: 0 <= i < |rs| ==> rs[i].userId != u
    ensures k.Some? ==> k.value < |rs| && rs[k.value].userId == u
    ensures k.Some? ==> forall i :: 0 <= i < |rs| && rs[i].userId == u ==> rs[i].createdAt <= rs[k.value].createdAt
  {
    if rs == [] then None
    else
      var n := |rs| - 1;
      var rest := LatestIndex(rs[..n], u);
      assert forall i :: 0 <= i < n ==> rs[..n][i] == rs[i];
      if rs[n].userId != u then rest
      else if rest.Some? && rs[rest.value].createdAt > rs[n].createdAt then rest
      else Some(n)
  }

  /** The same tie rule as the list queries: of two requests by the same user with the
      same timestamp, the one stored later counts as newest. */
  lemma LatestIndexPrefersLaterOnTies(a: PublisherRequest, b: PublisherRequest)
    requires a.userId == b.userId && a.createdAt == b.createdAt
    ensures LatestIndex([a, b], b.userId) == Some(1)
  {
    assert [a, b][..1] == [a];
    assert [a][..0] == [];
  }

  /** GET /status/:userId: "none", or the status of the user's newest request. */
  function StatusOf(rs: seq<PublisherRequest>, u: ObjectId): (status: string)
    ensures status == "none" <==> forall i :: 0 <= i < |rs| ==> rs[i].userId != u
  {
    match LatestIndex(rs, u)
    case None => "none"
    case Some(k) =>
      StatusNamesDistinct(rs[k].status, rs[k].status);
      StatusName(rs[k].status)
  }

  lemma StatusOfMeaning(rs: seq<PublisherRequest>, u: ObjectId)
    ensures StatusOf(rs, u) == "none" <==> forall i :: 0 <= i < |rs| ==> rs[i].userId != u
    ensures StatusOf(rs, u) != "none" ==>
              exists k :: 0 <= k < |rs| && rs[k].userId == u && StatusOf(rs, u) == StatusName(rs[k].status)
                          && forall i :: 0 <= i < |rs| && rs[i].userId == u ==> rs[i].createdAt <= rs[k].createdAt
  {
    match LatestIndex(rs, u)
    case None =>
    case Some(k) =>
      StatusNamesDistinct(rs[k].status, rs[k].status);
  }

  /** The newest request is chosen by owner and timestamp alone: collections that agree on
      those, position by position, pick the same position. */
  lemma {:induction false} LatestIndexIgnoresStatus(rs: seq<PublisherRequest>, ts: seq<PublisherRequest>, u: ObjectId)
    requires |rs| == |ts|
    requires forall i :: 0 <= i < |rs| ==> rs[i].userId == ts[i].userId && rs[i].createdAt == ts[i].createdAt
    ensures LatestIndex(rs, u) == LatestIndex(ts, u)
  {
    if rs != [] {
      var n := |rs| - 1;
      LatestIndexIgnoresStatus(rs[..n], ts[..n], u);
    }
  }

  /** A request stamped no earlier than every stored one becomes its user's newest, so
      right after a successful submission the status route answers "pending". */
  lemma StatusAfterSubmit(rs: seq<PublisherRequest>, r: PublisherRequest)
    requires r.status == Pending
    requires forall i :: 0 <= i < |rs| ==> rs[i].createdAt <= r.createdAt
    ensures StatusOf(rs + [r], r.userId) == "pending"
  {
    var s := rs + [r];
    assert s[..|rs|] == rs;
    var rest := LatestIndex(rs, r.userId);
    assert rest.Some? ==> rs[rest.value].createdAt <= r.createdAt;
    assert LatestIndex(s, r.userId) == Some(|rs|);
  }

  /** Deciding the user's newest request makes the status route report that decision. */
  lemma StatusAfterDecision(rs: seq<PublisherRequest>, i: nat, s: RequestStatus)
    requires i < |rs| && LatestIndex(rs, rs[i].userId) == Some(i)
    ensures StatusOf(rs[i := rs[i].(status := s)], rs[i].userId) == StatusName(s)
  {
    LatestIndexIgnoresStatus(rs, rs[i := rs[i].(status := s)], rs[i].userId);
  }

  /** `findById(id)`: the position of the request with that id. */
  function IndexOfRequest(rs: seq<PublisherRequest>, id: ObjectId): (k: Option<nat>)
    ensures k.None? <==> forall i :: 0 <= i < |rs| ==> rs[i].id != id
    ensures k.Some? ==> k.value < |rs| && rs[k.value].id == id
  {
    if rs == [] then None
    else if rs[0].id == id then Some(0)
    else match IndexOfRequest(rs[1..], id)
      case None => None
      case Some(k) => Some(k + 1)
  }

  /** The pending requests, in stored order. */
  function PendingOnly(rs: seq<PublisherRequest>): (r: seq<PublisherRequest>)
    ensures forall x :: x in r <==> x in rs && x.status == Pending
  {
    if rs == [] then []
    else if rs[0].status == Pending then [rs[0]] + PendingOnly(rs[1..])
    else PendingOnly(rs[1..])
  }

  /** GET /requests: `find({ status: "pending" }).sort({ createdAt: -1 })`. */
  function PendingRequests(rs: seq<PublisherRequest>): (r: seq<PublisherRequest>)
    ensures NewestFirst(r, (x: PublisherRequest) => x.createdAt)
    ensures multiset(r) == multiset(PendingOnly(rs))
  {
    SortNewestFirst(PendingOnly(rs), (r: PublisherRequest) => r.createdAt)
  }

  /** The pending list holds exactly the pending requests, newest first. */
  lemma PendingRequestsExact(rs: seq<PublisherRequest>)
    ensures forall x :: x in PendingRequests(rs) <==> x in rs && x.status == Pending
    ensures NewestFirst(PendingRequests(rs), (r: PublisherRequest) => r.createdAt)
    ensures multiset(PendingRequests(rs)) == multiset(PendingOnly(rs))
  {
    var p := PendingOnly(rs);
    forall x
      ensures x in PendingRequests(rs) <==> x in p
    {
      assert x in multiset(PendingRequests(rs)) <==> x in multiset(p);
    }
  }

  /** Adding a pending request for a user who has none keeps the invariant. */
  lemma SubmitKeepsOnePending(rs: seq<PublisherRequest>, r: PublisherRequest)
    requires AtMostOnePending(rs) && !HasPending(rs, r.userId)
    ensures AtMostOnePending(rs + [r])
  {
  }

  /** POST /request. */
  method SubmitRequest(db: Store, b: RequestBody, now: Timestamp) returns (resp: Response<string>)
    requires db.Valid()
    modifies db
    ensures db.Valid()
    ensures db.users == old(db.users) && db.articles == old(db.articles)
    ensures PendingFor(old(db.requests), b.userId) ==>
              resp == Failure(400, Message("Request already pending.")) && db.requests == old(db.requests)
    ensures !PendingFor(old(db.requests), b.userId) && MissingPaths(b) != {} ==>
              resp == Failure(500, Thrown(ValidationFailed(MissingPaths(b)))) && db.requests == old(db.requests)
    ensures !PendingFor(old(db.requests), b.userId) && MissingPaths(b) == {} ==>
              && resp == Success(201, "Application submitted successfully.")
              && db.requests == old(db.requests) + [NewPublisherRequest(b, old(db.nextId), now).doc]
              && db.requests[|old(db.requests)|].status == Pending
  {
    if PendingFor(db.requests, b.userId) {
      return Failure(400, Message("Request already pending."));
    }
    var id := db.nextId;
    var built := NewPublisherRequest(b, id, now);
    if built.Invalid? {
      return Failure(500, Thrown(ValidationFailed(built.paths)));
    }
    SubmitKeepsOnePending(db.requests, built.doc);
    db.requests := db.requests + [built.doc];
    db.nextId := id + 1;
    resp := Success(201, "Application submitted successfully.");
  }

  /** PUT /approve/:id: the request becomes approved whatever its status was, and its user,
      if it still exists, becomes a publisher. */
  method Approve(db: Store, id: ObjectId) returns (resp: Response<string>)
    requires db.Valid()
    modifies db
    ensures db.Valid()
    ensures db.articles == old(db.articles) && db.nextId == old(db.nextId)
    ensures IndexOfRequest(old(db.requests), id).None? ==>
              resp == Failure(404, Message("Request not found"))
              && db.requests == old(db.requests) && db.users == old(db.users)
    ensures IndexOfRequest(old(db.requests), id).Some? ==>
              var i := IndexOfRequest(old(db.requests), id).value;
              && resp == Success(200, "Publisher approved.")
              && db.requests == old(db.requests)[i := old(db.requests)[i].(status := Approved)]
              && db.users == GrantPublisher(old(db.users), old(db.requests)[i].userId)
  {
    var found := IndexOfRequest(db.requests, id);
    if found.None? {
      return Failure(404, Message("Request not found"));
    }
    var i := found.value;
    db.SaveDecision(i, Approved);
    db.SavePublisherFlag(db.requests[i].userId);
    resp := Success(200, "Publisher approved.");
  }

  /** PUT /reject/:id: the request becomes rejected whatever its status was; no user changes. */
  method Reject(db: Store, id: ObjectId) returns (resp: Response<string>)
    requires db.Valid()
    modifies db
    ensures db.Valid()
    ensures db.articles == old(db.articles) && db.users == old(db.users) && db.nextId == old(db.nextId)
    ensures IndexOfRequest(old(db.requests), id).None? ==>
              resp == Failure(404, Message("Request not found")) && db.requests == old(db.requests)
    ensures IndexOfRequest(old(db.requests), id).Some? ==>
              var i := IndexOfRequest(old(db.requests), id).value;
              && resp == Success(200, "Publisher request rejected.")
              && db.requests == old(db.requests)[i := old(db.requests)[i].(status := Rejected)]
  {
    var found := IndexOfRequest(db.requests, id);
    if found.None? {
      return Failure(404, Message("Request not found"));
    }
    var i := found.value;
    db.SaveDecision(i, Rejected);
    resp := Success(200, "Publisher request rejected.");
  }
}
