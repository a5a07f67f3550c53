/** The sign-in page: where a submitted login leads. */
module LoginPage {
  import opened Common
  import opened UserModel
  import opened Database
  import opened AuthRoutes
  import opened NewsContext

  /** The page after a submit: the error line, and the route navigated to, if any. */
  datatype LoginView = LoginView(error: string, navigateTo: Option<string>)

  /** `handleSubmit`, from what `login` returned: the error is cleared first; a success
      navigates by role, admin before publisher; a failure shows the message and stays. */
  function HandleSubmit(res: LoginResult): (v: LoginView)
    ensures v.navigateTo.Some? <==> res.LoggedIn?
    ensures res.LoggedIn? ==> v.error == ""
    ensures res.LoginFailed? ==> v.error == res.message
    ensures v.navigateTo == Some("/admin") <==> res.LoggedIn? && res.user.isAdmin
    ensures v.navigateTo == Some("/publisher-dashboard") <==> res.LoggedIn? && !res.user.isAdmin && res.user.isPublisher
    ensures v.navigateTo == Some("/") <==> res.LoggedIn? && !res.user.isAdmin && !res.user.isPublisher
  {
    var cleared := "";
    match res
    case LoggedIn(user) =>
      LoginView(cleared, Some(if user.isAdmin then "/admin" else if user.isPublisher then "/publisher-dashboard" else "/"))
    case LoginFailed(message) => LoginView(message, None)
  }

  /** The reply the server's login produces, as the client receives it: the body of a 200,
      otherwise the `message` field, which for a thrown error is `err.message`
      (`thrownMessage`, the text the library that threw chose). */
  function Delivered(r: Response<LoginBody>, thrownMessage: Cause -> string): (d: ApiReply<LoginBody>)
    ensures d.Ok? <==> r.Success?
    ensures r.Success? ==> d.data == r.body
    ensures r.Failure? ==> d.message.Some?
    ensures r.Failure? && r.error.Message? ==> d.message.value == r.error.text
    ensures r.Failure? && r.error.Thrown? ==> d.message.value == thrownMessage(r.error.cause)
  {
    match r
    case Success(_, body) => Ok(body)
    case Failure(_, Message(text)) => Err(Some(text))
    case Failure(_, Thrown(cause)) => Err(Some(thrownMessage(cause)))
  }

  /** End to end: the configured admin lands on the admin page, a stored publisher on the
      studio, any other stored user on the feed, bad credentials on an
      "Invalid credentials." error, and a thrown error on its message ("Login failed" when
      that is empty). */
  lemma LoginRoutesByRole(users: map<ObjectId, User>, env: Env, crypto: Crypto,
                          email: Option<string>, password: Option<string>, thrownMessage: Cause -> string)
    requires UniqueEmails(users)
    ensures var r := Login(users, env, crypto, email, password);
            var v := HandleSubmit(LoginOutcome(Delivered(r, thrownMessage)));
            && (AdminPairMatches(env, email, password) ==> v.navigateTo == Some("/admin"))
            && (!AdminPairMatches(env, email, password) && r.Success? ==>
                  v.navigateTo == Some(if FindByEmail(users, email).value.isPublisher then "/publisher-dashboard" else "/"))
            && (r == Failure(400, Message(InvalidCredentials)) ==>
                  v == LoginView(InvalidCredentials, None))
            && (r.Failure? && r.error.Thrown? ==>
                  v == LoginView(OrElse(Some(thrownMessage(r.error.cause)), LoginFailedMessage), None))
  {
    var r := Login(users, env, crypto, email, password);
    if !AdminPairMatches(env, email, password) {
      StoredLoginMeaning(users, env, crypto, email, password);
    }
  }
}
