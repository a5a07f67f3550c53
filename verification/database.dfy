/** The document store: the three collections the routes read and write, and the
    properties the store keeps (unique indexes, validated documents, fresh ids). */
module Database {
  import opened Common
  import opened UserModel
  import opened NewsModel
  import opened PublisherRequestModel

  /** The id the server gives the configured admin ("000000000000000000000001"). */
  const AdminId: ObjectId := 1

  /** The unique index on `email`. */
  ghost predicate UniqueEmails(users: map<ObjectId, User>)
  {
    forall a, b :: a in users && b in users && users[a].email == users[b].email ==> a == b
  }

  /** The unique index on `username`. */
  ghost predicate UniqueUsernames(users: map<ObjectId, User>)
  {
    forall a, b :: a in users && b in users && users[a].username == users[b].username ==> a == b
  }

  /** Inserting a user whose email and username are both new keeps both indexes unique. */
  lemma InsertKeepsUnique(users: map<ObjectId, User>, u: User)
    requires UniqueEmails(users) && UniqueUsernames(users) && u.id !in users
    requires forall k :: k in users ==> users[k].email != u.email && users[k].username != u.username
    ensures UniqueEmails(users[u.id := u]) && UniqueUsernames(users[u.id := u])
  {
  }

  /** Why saving a new user fails, if it does. */
  function SaveError(users: map<ObjectId, User>, u: User): (err: Option<Cause>)
    ensures err.None? <==> SchemaValid(u) && forall k :: k in users ==> users[k].email != u.email && users[k].username != u.username
  {
    if SchemaErrors(u) != {} then Some(ValidationFailed(SchemaErrors(u)))
    else if exists k :: k in users && users[k].email == u.email then Some(DuplicateKey("email"))
    else if exists k :: k in users && users[k].username == u.username then Some(DuplicateKey("username"))
    else None
  }

  /** The user update of an approval: `isPublisher = true` if the user still exists. */
  function GrantPublisher(users: map<ObjectId, User>, u: ObjectId): (r: map<ObjectId, User>)
    ensures r.Keys == users.Keys
    ensures u in users ==> r[u] == users[u].(isPublisher := true)
    ensures forall k :: k in users && k != u ==> r[k] == users[k]
    ensures forall k :: k in users && users[k].isPublisher ==> r[k].isPublisher
    ensures forall k :: k in users ==> r[k] == users[k].(isPublisher := r[k].isPublisher)
  {
    if u in users then users[u := users[u].(isPublisher := true)] else users
  }

  class Store {
    var users: map<ObjectId, User>
    var requests: seq<PublisherRequest>
    var articles: seq<Article>
    /** The next id the store hands out; every id in use is below it. */
    var nextId: ObjectId

    ghost predicate Valid()
      reads this
    {
      && AdminId < nextId
      && (forall k :: k in users ==> users[k].id == k && k < nextId && SchemaValid(users[k]))
      && UniqueEmails(users)
      && UniqueUsernames(users)
      && (forall i :: 0 <= i < |requests| ==> requests[i].id < nextId && WellFormed(requests[i]))
      && DistinctRequestIds(requests)
      && AtMostOnePending(requests)
      && (forall i :: 0 <= i < |articles| ==> articles[i].id < nextId)
      && DistinctIds(articles)
    }

    /** An empty database. */
    constructor ()
      ensures Valid()
      ensures users == map[] && requests == [] && articles == []
    {
      users, requests, articles := map[], [], [];
      nextId := AdminId + 1;
    }
  
    /** `user.save()` for a new user: schema validation first, then the unique indexes
        on `email` and `username`; the user is stored only when neither refuses. */
    method SaveNewUser(u: User) returns (err: Option<Cause>)
      requires Valid() && u.id == nextId
      modifies this
      ensures Valid()
      ensures err == SaveError(old(users), u)
      ensures err.None? ==> users == old(users)[u.id := u] && nextId == old(nextId) + 1
      ensures err.Some? ==> users == old(users) && nextId == old(nextId)
      ensures requests == old(requests) && articles == old(articles)
    {
      err := SaveError(users, u);
      if err.None? {
        InsertKeepsUnique(users, u);
        users := users[u.id := u];
        nextId := nextId + 1;
      }
    }

    /** `request.status = s; request.save()` for the request at index `i`. */
    method SaveDecision(i: nat, s: RequestStatus)
      requires Valid() && i < |requests| && s != Pending
      modifies this
      ensures Valid()
      ensures requests == old(requests)[i := old(requests)[i].(status := s)]
      ensures users == old(users) && articles == old(articles) && nextId == old(nextId)
    {
      DecisionKeepsOnePending(requests, i, s);
      requests := requests[i := requests[i].(status := s)];
    }

    /** `user.isPublisher = true; user.save()` for the user `u`, if it exists. */
    method SavePublisherFlag(u: ObjectId)
      requires Valid()
      modifies this
      ensures Valid()
      ensures users == GrantPublisher(old(users), u)
      ensures requests == old(requests) && articles == old(articles) && nextId == old(nextId)
    {
      users := GrantPublisher(users, u);
    }
  }
}
