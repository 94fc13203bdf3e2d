/**
 * POST /api/auth/login (app/api/auth/login/route.ts): looks the user up by email, checks
 * the password and answers with the public view of the user and a session cookie. It
 * only reads the user collection. `compare` is bcrypt's comparison, `issue` the token signer.
 */
module LoginRoute {
  import opened Wrappers
  import opened Ids
  import opened Http
  import opened Session
  import opened UserModel
  import opened Database
  import SignupRoute

  datatype Reply = Failure(error: string) | LoggedIn(user: UserView)

  const MissingCredentials: string := "Please provide email and password"
  const InvalidCredentials: string := "Invalid credentials"

  /** The cookie the login route sets on its response: not secure, `sameSite` lax. */
  function LoginCookie(token: string): (c: Cookie)
    ensures c.name == "token" && c.value == token && c.httpOnly && !c.secure
    ensures c.sameSite == "lax" && c.path == "/" && c.maxAge == 86400
  {
    TokenCookieFor(token, false, "lax")
  }

  function Login(users: seq<User>, email: string, password: string,
                 compare: (string, string) -> bool, issue: Claims -> string): (r: Response<Reply>)
    ensures email == "" || password == "" ==> r == Json(400, Failure(MissingCredentials))
    ensures r.status == 200 <==>
      && email != "" && password != ""
      && UserByEmail(users, email).Some?
      && ComparePassword(users[UserByEmail(users, email).value], password, compare)
    ensures r.status == 200 ==>
      var u := users[UserByEmail(users, email).value];
      && u.email == email
      && r.body == LoggedIn(View(u))
      && r.cookies == SetCookie(LoginCookie(issue(SignupRoute.ClaimsOf(u))))
    ensures r.status != 200 ==> r.cookies == KeepCookies && r.body.Failure?
    ensures r.status in {200, 400, 401}
  {
    if email == "" || password == "" then Json(400, Failure(MissingCredentials))
    else
      match UserByEmail(users, email)
      case None => Json(401, Failure(InvalidCredentials))
      case Some(k) =>
        if !ComparePassword(users[k], password, compare) then Json(401, Failure(InvalidCredentials))
        else
          var token := issue(SignupRoute.ClaimsOf(users[k]));
          Response(200, LoggedIn(View(users[k])), SetCookie(LoginCookie(token)))
  }

  /** An unknown email and a wrong password get the same answer, so the response does not reveal which it was. */
  lemma UniformRefusal(users: seq<User>, email: string, password: string,
                       compare: (string, string) -> bool, issue: Claims -> string)
    requires email != "" && password != ""
    requires UserByEmail(users, email).None?
             || !ComparePassword(users[UserByEmail(users, email).value], password, compare)
    ensures Login(users, email, password, compare, issue) == Json(401, Failure(InvalidCredentials))
  {
  }

  /**
   * After a successful signup the new user can log in with the same email and password,
   * provided bcrypt accepts a password against its own hash.
   */
  lemma SignupThenLogin(users: seq<User>, req: SignupRoute.SignupRequest, id: Id, emailOk: string -> bool,
                        hash: string -> string, compare: (string, string) -> bool, issue: Claims -> string)
    requires SignupRoute.Decide(users, req, id, emailOk).Accept?
    requires compare(req.password, hash(req.password))
    ensures var stored := SignupRoute.NewUser(req, id).(password := hash(req.password));
      Login(users + [stored], req.email, req.password, compare, issue).status == 200
      && Login(users + [stored], req.email, req.password, compare, issue).body == LoggedIn(View(stored))
  {
    var stored := SignupRoute.NewUser(req, id).(password := hash(req.password));
    var users' := users + [stored];
    assert users'[|users|] == stored;
    forall k | 0 <= k < |users|
      ensures users'[k].email != req.email
    {
      assert users'[k] == users[k];
    }
    assert UserByEmail(users', req.email) == Some(|users|);
  }
}
