/** The account routes: signup, login and /me. bcrypt and jsonwebtoken are foreign
    libraries; they enter as function values the model never looks inside. */
module AuthRoutes {
  import opened Common
  import opened UserModel
  import opened Database

  /** The environment the server reads; `None` is an unset variable. */
  datatype Env = Env(adminUser: Option<string>, adminPassword: Option<string>, jwtSecret: Option<string>)

  /** A token's payload: `{ id }` for a stored user, `{ id, isAdmin: true }` for the admin. */
  datatype Claims = Claims(id: ObjectId, isAdmin: Option<bool>)

  /** bcrypt's salt (from `genSalt(10)`), taken as an input. */
  type Salt = nat

  /** `bcrypt.hash`, `bcrypt.compare`, and `jwt.sign` with a secret and a seven-day expiry. */
  datatype Crypto = Crypto(
    hash: (string, Salt) -> string,
    compare: (string, string) -> bool,
    sign: (Claims, string) -> string)

  const InvalidCredentials: string := "Invalid credentials."
  const EmailExists: string := "User already exists with this email."
  const FallbackSecret: string := "fallbacksecret"

  /** `process.env.JWT_SECRET || "fallbacksecret"`. */
  function SigningSecret(env: Env): string
  {
    OrElse(env.jwtSecret, FallbackSecret)
  }

  /** A user object as the client receives it. `id` and `docId` are the JSON keys
      `id` and `_id` (the login response uses the first, /me and the admin record the
      second); an absent boolean is false. No variant has a password. */
  datatype ClientUser = ClientUser(
    id: Option<ObjectId>,
    docId: Option<ObjectId>,
    username: string,
    email: Option<string>,
    bookmarks: seq<ObjectId>,
    isPublisher: bool,
    isAdmin: bool)

  /** The synthetic admin record. */
  function AdminRecord(email: Option<string>): ClientUser
  {
    ClientUser(None, Some(AdminId), "Admin", email, [], false, true)
  }

  // ---------------------------------------------------------------- signup

  /** The 201 body of a signup: id, username and email only. */
  datatype SignupBody = SignupBody(id: ObjectId, username: string, email: string)

  /** `User.findOne({ email })`, with the schema's setters applied to the filter. */
  predicate EmailTaken(users: map<ObjectId, User>, email: string)
  {
    exists k :: k in users && users[k].email == NormalizeEmail(email)
  }

  /** The reply of POST /signup against a user collection, for a new document id. */
  function SignupReply(users: map<ObjectId, User>, id: ObjectId, crypto: Crypto,
                       username: string, email: string, password: string, salt: Salt): (r: Response<SignupBody>)
    ensures r == Failure(400, Message(EmailExists)) <==> EmailTaken(users, email)
    ensures r.Success? ==> r == Success(201, SignupBody(id, Trim(username), NormalizeEmail(email)))
    ensures r.Failure? ==> r.code == 400 || (r.code == 500 && r.error.Thrown?)
  {
    if EmailTaken(users, email) then Failure(400, Message(EmailExists))
    else
      var u := NewUser(id, username, email, crypto.hash(password, salt));
      match SaveError(users, u)
      case Some(cause) => Failure(500, Thrown(cause))
      case None => Success(201, SignupBody(id, u.username, u.email))
  }

  /** Signup succeeds exactly for a fresh email and username and a long enough HASH:
      the plaintext password's own length is never checked. */
  lemma SignupSucceedsIff(users: map<ObjectId, User>, id: ObjectId, crypto: Crypto,
                          username: string, email: string, password: string, salt: Salt)
    ensures SignupReply(users, id, crypto, username, email, password, salt).Success?
            <==> && !EmailTaken(users, email)
                 && |Trim(username)| >= 3
                 && NormalizeEmail(email) != ""
                 && |crypto.hash(password, salt)| >= 6
                 && forall k :: k in users ==> users[k].username != Trim(username)
  {
    var u := NewUser(id, username, email, crypto.hash(password, salt));
    SchemaValidMeaning(u);
  }

  /** Registering the same email a second time is refused with 400. */
  lemma SecondSignupRefused(users: map<ObjectId, User>, id: ObjectId, id2: ObjectId, crypto: Crypto,
                            username: string, username2: string, email: string, email2: string,
                            password: string, password2: string, salt: Salt, salt2: Salt)
    requires SignupReply(users, id, crypto, username, email, password, salt).Success?
    requires NormalizeEmail(email2) == NormalizeEmail(email)
    ensures var users' := users[id := NewUser(id, username, email, crypto.hash(password, salt))];
            SignupReply(users', id2, crypto, username2, email2, password2, salt2)
              == Failure(400, Message(EmailExists))
  {
    var users' := users[id := NewUser(id, username, email, crypto.hash(password, salt))];
    assert users'[id].email == NormalizeEmail(email2);
  }

  /** POST /signup: stores `hash(password, salt)`, never the plaintext. */
  method Signup(db: Store, crypto: Crypto, username: string, email: string, password: string, salt: Salt)
    returns (resp: Response<SignupBody>)
    requires db.Valid()
    modifies db
    ensures db.Valid()
    ensures db.requests == old(db.requests) && db.articles == old(db.articles)
    ensures resp == SignupReply(old(db.users), old(db.nextId), crypto, username, email, password, salt)
    ensures resp.Failure? ==> db.users == old(db.users)
    ensures resp.Success? ==>
              && resp.body.id == old(db.nextId) && old(db.nextId) !in old(db.users)
              && db.users == old(db.users)[old(db.nextId) := NewUser(old(db.nextId), username, email, crypto.hash(password, salt))]
              && db.users[old(db.nextId)].password == crypto.hash(password, salt)
  {
    if EmailTaken(db.users, email) {
      return Failure(400, Message(EmailExists));
    }
    var hashed := crypto.hash(password, salt);
    var id := db.nextId;
    var u := NewUser(id, username, email, hashed);
    var err := db.SaveNewUser(u);
    if err.Some? {
      return Failure(500, Thrown(err.value));
    }
    resp := Success(201, SignupBody(id, u.username, u.email));
  }

  // ---------------------------------------------------------------- login

  /** The 200 body of a login. */
  datatype LoginBody = LoginBody(token: string, user: ClientUser)

  /** `User.findOne({ email })` for an email that may be absent (then nothing is found). */
  function FindByEmail(users: map<ObjectId, User>, email: Option<string>): (r: Option<User>)
    requires UniqueEmails(users)
    ensures r.Some? ==> email.Some? && r.value in users.Values
                        && r.value.email == NormalizeEmail(email.value)
    ensures r.None? ==> email.None? || !EmailTaken(users, email.value)
  {
    if email.Some? && EmailTaken(users, email.value) then
      var k :| k in users && users[k].email == NormalizeEmail(email.value);
      Some(users[k])
    else None
  }

  /** The admin check as written: `email === ADMIN_USER && password === ADMIN_PASSWORD`,
      where an unset variable and a missing body field are both `undefined`. */
  predicate AdminPairMatchesAsWritten(env: Env, email: Option<string>, password: Option<string>)
  {
    email == env.adminUser && password == env.adminPassword
  }

  /** The admin check as intended: a configured pair, matched exactly. */
  predicate AdminPairMatches(env: Env, email: Option<string>, password: Option<string>)
  {
    env.adminUser.Some? && env.adminPassword.Some? && AdminPairMatchesAsWritten(env, email, password)
  }

  /** What a stored user's login returns about them; `isAdmin` is `user.isAdmin || false`,
      and the schema has no such path. */
  function LoginUser(u: User): ClientUser
  {
    ClientUser(Some(u.id), None, u.username, Some(u.email), u.bookmarks, u.isPublisher, false)
  }

  /** The reply of POST /login once the admin check has been decided: the admin token and
      record when it passed, otherwise the lookup of a stored user. */
  function LoginReply(users: map<ObjectId, User>, env: Env, crypto: Crypto,
                      email: Option<string>, password: Option<string>, adminPair: bool): Response<LoginBody>
    requires UniqueEmails(users)
  {
    if adminPair then
      Success(200, LoginBody(crypto.sign(Claims(AdminId, Some(true)), SigningSecret(env)), AdminRecord(email)))
    else
      match FindByEmail(users, email)
      case None => Failure(400, Message(InvalidCredentials))
      case Some(u) =>
        if password.None? then Failure(500, Thrown(IllegalArguments))
        else if !crypto.compare(password.value, u.password) then Failure(400, Message(InvalidCredentials))
        else Success(200, LoginBody(crypto.sign(Claims(u.id, None), SigningSecret(env)), LoginUser(u)))
  }

  /** POST /login with the admin check as written. Its replies have the same shapes as the
      corrected route's, but an admin reply needs only the body to equal the two variables. */
  function LoginAsWritten(users: map<ObjectId, User>, env: Env, crypto: Crypto,
                          email: Option<string>, password: Option<string>): (r: Response<LoginBody>)
    requires UniqueEmails(users)
    ensures r.Success? ==> r.code == 200
    ensures r.Failure? ==> r == Failure(400, Message(InvalidCredentials)) || r == Failure(500, Thrown(IllegalArguments))
    ensures r.Success? && r.body.user.isAdmin ==> email == env.adminUser && password == env.adminPassword
    ensures r.Success? && !r.body.user.isAdmin ==> FindByEmail(users, email).Some? && password.Some?
  {
    LoginReply(users, env, crypto, email, password, AdminPairMatchesAsWritten(env, email, password))
  }

  /** POST /login with the corrected admin check. Every reply is a 200 with a token, the
      one 400 "Invalid credentials." for any bad pair, or a 500 from bcrypt. */
  function Login(users: map<ObjectId, User>, env: Env, crypto: Crypto,
                 email: Option<string>, password: Option<string>): (r: Response<LoginBody>)
    requires UniqueEmails(users)
    ensures r.Success? ==> r.code == 200
    ensures r.Failure? ==> r == Failure(400, Message(InvalidCredentials)) || r == Failure(500, Thrown(IllegalArguments))
    ensures r.Success? && !r.body.user.isAdmin ==> FindByEmail(users, email).Some? && password.Some?
  {
    LoginReply(users, env, crypto, email, password, AdminPairMatches(env, email, password))
  }

  /** As written, with neither admin variable set, a body with no email and no password
      gets the admin token and the admin record; the corrected route refuses it. */
  lemma AsWrittenLoginAdmitsEmptyBody(users: map<ObjectId, User>, env: Env, crypto: Crypto)
    requires UniqueEmails(users)
    requires env.adminUser.None? && env.adminPassword.None?
    ensures LoginAsWritten(users, env, crypto, None, None)
            == Success(200, LoginBody(crypto.sign(Claims(AdminId, Some(true)), SigningSecret(env)), AdminRecord(None)))
    ensures Login(users, env, crypto, None, None) == Failure(400, Message(InvalidCredentials))
  {
  }

  /** The two routes answer differently only for a body equal to an admin pair that is not
      fully configured. */
  lemma AsWrittenDiffersOnlyWhenUnconfigured(users: map<ObjectId, User>, env: Env, crypto: Crypto,
                                             email: Option<string>, password: Option<string>)
    requires UniqueEmails(users)
    ensures LoginAsWritten(users, env, crypto, email, password) != Login(users, env, crypto, email, password) ==>
              && email == env.adminUser && password == env.adminPassword
              && (env.adminUser.None? || env.adminPassword.None?)
  {
  }

  /** The configured admin pair logs in before any lookup, whatever the store holds. */
  lemma AdminLoginIgnoresStore(users: map<ObjectId, User>, others: map<ObjectId, User>, env: Env, crypto: Crypto,
                               email: Option<string>, password: Option<string>)
    requires UniqueEmails(users) && UniqueEmails(others)
    requires AdminPairMatches(env, email, password)
    ensures Login(users, env, crypto, email, password) == Login(others, env, crypto, email, password)
    ensures var r := Login(users, env, crypto, email, password);
            && r.Success? && r.body.user.isAdmin && r.body.user.docId == Some(AdminId)
            && r.body.token == crypto.sign(Claims(AdminId, Some(true)), SigningSecret(env))
  {
  }

  /** With the corrected check, a reply that marks the user as admin comes only from the
      configured admin pair, matched exactly. */
  lemma AdminReplyNeedsConfiguredPair(users: map<ObjectId, User>, env: Env, crypto: Crypto,
                                      email: Option<string>, password: Option<string>)
    requires UniqueEmails(users)
    ensures var r := Login(users, env, crypto, email, password);
            r.Success? && r.body.user.isAdmin ==>
              && env.adminUser.Some? && env.adminPassword.Some?
              && email == env.adminUser && password == env.adminPassword
  {
  }

  /** An unknown email and a wrong password get the same 400 reply. */
  lemma LoginFailuresIndistinguishable(users: map<ObjectId, User>, env: Env, crypto: Crypto,
                                       email: string, password: string)
    requires UniqueEmails(users)
    requires !AdminPairMatches(env, Some(email), Some(password))
    ensures !EmailTaken(users, email) ==>
              Login(users, env, crypto, Some(email), Some(password)) == Failure(400, Message(InvalidCredentials))
    ensures (forall k :: k in users && users[k].email == NormalizeEmail(email) ==> !crypto.compare(password, users[k].password)) ==>
              Login(users, env, crypto, Some(email), Some(password)) == Failure(400, Message(InvalidCredentials))
  {
  }

  /** A stored user's successful login: the token embeds only the id, and the reply
      never marks the user as admin. */
  lemma StoredLoginMeaning(users: map<ObjectId, User>, env: Env, crypto: Crypto,
                           email: Option<string>, password: Option<string>)
    requires UniqueEmails(users)
    requires !AdminPairMatches(env, email, password)
    ensures var r := Login(users, env, crypto, email, password);
            r.Success? <==> email.Some? && password.Some? && EmailTaken(users, email.value)
                            && FindByEmail(users, email).Some?
                            && crypto.compare(password.value, FindByEmail(users, email).value.password)
    ensures var r := Login(users, env, crypto, email, password);
            r.Success? ==> var u := FindByEmail(users, email).value;
                           && r.body.token == crypto.sign(Claims(u.id, None), SigningSecret(env))
                           && !r.body.user.isAdmin && r.body.user.id == Some(u.id)
  {
  }

  // ---------------------------------------------------------------- /me

  /** A stored user without the password path (`select("-password")`). */
  function PublicUser(u: User): ClientUser
  {
    ClientUser(None, Some(u.id), u.username, Some(u.email), u.bookmarks, u.isPublisher, false)
  }

  /** GET /me for the id the token middleware decoded; `None` is a JSON `null`. */
  function Me(users: map<ObjectId, User>, env: Env, tokenId: ObjectId): (r: Option<ClientUser>)
    ensures tokenId == AdminId ==> r == Some(AdminRecord(env.adminUser))
    ensures tokenId != AdminId && tokenId in users ==>
              r.Some? && r.value.docId == Some(users[tokenId].id) && r.value.username == users[tokenId].username
              && r.value.email == Some(users[tokenId].email) && r.value.isPublisher == users[tokenId].isPublisher
              && !r.value.isAdmin && r.value.bookmarks == users[tokenId].bookmarks && r.value.id.None?
    ensures tokenId != AdminId && tokenId !in users ==> r.None?
  {
    var found := if tokenId in users then Some(users[tokenId]) else None;
    if tokenId == AdminId then Some(AdminRecord(env.adminUser))
    else match found
      case None => None
      case Some(u) => Some(PublicUser(u))
  }
}
