/**
 * GET /api/auth/me (app/api/auth/me/route.ts): the user behind the session cookie.
 * `verifyJWT` never returns a falsy value: it throws on a bad token, and the handler's
 * catch turns that into a 500.
 */
module MeRoute {
  import opened Wrappers
  import opened Ids
  import opened Http
  import opened Session
  import opened UserModel
  import opened Database

  datatype Reply = Failure(error: string) | Current(user: UserView)

  const NotAuthenticated: string := "Not authenticated"
  const InvalidToken: string := "Invalid token"
  const UnknownUser: string := "User not found"
  const LookupFailed: string := "Failed to get user"

  function Me(users: seq<User>, cookie: Option<string>, verify: string -> Verdict): (r: Response<Reply>)
    ensures cookie.GetOr("") == "" ==> r == Json(401, Failure(NotAuthenticated))
    ensures cookie.GetOr("") != "" && verify(cookie.value).Rejected? ==> r == Json(500, Failure(LookupFailed))
    ensures cookie.GetOr("") != "" && verify(cookie.value).Verified? && verify(cookie.value).claims.userId.Malformed? ==>
      r == Json(500, Failure(LookupFailed))
    ensures r.body.Current? <==>
      && cookie.GetOr("") != "" && verify(cookie.value).Verified?
      && verify(cookie.value).claims.userId.Ref?
      && UserById(users, verify(cookie.value).claims.userId.id).Some?
    ensures r.body.Current? ==>
      r.status == 200 && r.body.user == View(users[UserById(users, verify(cookie.value).claims.userId.id).value])
    ensures r.status == 404 <==>
      && cookie.GetOr("") != "" && verify(cookie.value).Verified?
      && (|| verify(cookie.value).claims.userId.Absent?
          || (verify(cookie.value).claims.userId.Ref? && UserById(users, verify(cookie.value).claims.userId.id).None?))
    ensures r.cookies == KeepCookies
  {
    var token := cookie.GetOr("");
    if token == "" then Json(401, Failure(NotAuthenticated))
    else
      match verify(token)
      case Rejected => Json(500, Failure(LookupFailed))   // verifyJWT throws
      case Verified(claims) =>
        match claims.userId
        case Absent => Json(404, Failure(UnknownUser))     // findById(undefined) finds nothing
        case Malformed => Json(500, Failure(LookupFailed)) // the cast of the id throws
        case Ref(id) =>
          match UserById(users, id)
          case None => Json(404, Failure(UnknownUser))
          case Some(k) => Json(200, Current(View(users[k])))
  }

  /** The handler's 401 "Invalid token" answer is dead code: no request receives it. */
  lemma InvalidTokenUnreachable(users: seq<User>, cookie: Option<string>, verify: string -> Verdict)
    ensures Me(users, cookie, verify) != Json(401, Failure(InvalidToken))
    ensures Me(users, cookie, verify).status == 401 ==> cookie.GetOr("") == ""
  {
  }

  /** The body never carries a password: it is a view built from the stored user. */
  lemma NoPasswordInView(users: seq<User>, cookie: Option<string>, verify: string -> Verdict, hidden: string)
    requires Me(users, cookie, verify).body.Current?
    ensures var claims := verify(cookie.value).claims;
      var k := UserById(users, claims.userId.id).value;
      Me(users[k := users[k].(password := hidden)], cookie, verify) == Me(users, cookie, verify)
  {
    var claims := verify(cookie.value).claims;
    var k := UserById(users, claims.userId.id).value;
    var users' := users[k := users[k].(password := hidden)];
    forall i | 0 <= i < |users|
      ensures users'[i].id == users[i].id
    {
    }
    assert UserById(users', claims.userId.id) == Some(k);
  }
}
