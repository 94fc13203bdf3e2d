/**
 * GET /api/hr/profile (app/api/hr/profile/route.ts): the HR profile behind the session
 * cookie. The role is taken from the stored user, not from the token.
 */
module HrProfileRoute {
  import opened Wrappers
  import opened Ids
  import opened Http
  import opened Session
  import opened UserModel
  import opened Database

  /** The profile the route returns: exactly id, name, email, company and role. */
  datatype Profile = Profile(id: Id, name: string, email: string, company: Option<string>, role: string)

  datatype Reply = Failure(error: string) | Found(profile: Profile)

  const Unauthorized: string := "Unauthorized"
  const InvalidToken: string := "Invalid token"
  const InvalidPayload: string := "Invalid token payload"
  const UnknownUser: string := "User not found"
  const NotHr: string := "Unauthorized, not an HR user"
  const InternalError: string := "Internal server error"

  function ProfileOf(u: User): (p: Profile)
    ensures p.id == u.id && p.name == u.name && p.email == u.email && p.company == u.company && p.role == u.role
  {
    Profile(u.id, u.name, u.email, u.company, u.role)
  }

  /** The stored user the request would read, when it gets as far as the lookup. */
  function LookedUp(cookie: Option<string>, verify: string -> Verdict): Option<Id> {
    var token := cookie.GetOr("");
    if token != "" && verify(token).Verified? && verify(token).claims.userId.Ref?
    then Some(verify(token).claims.userId.id) else None
  }

  function GetProfile(users: seq<User>, cookie: Option<string>, verify: string -> Verdict): (r: Response<Reply>)
    ensures cookie.GetOr("") == "" ==> r == Json(401, Failure(Unauthorized))
    ensures cookie.GetOr("") != "" && verify(cookie.value).Rejected? ==> r == Json(401, Failure(InvalidToken))
    ensures cookie.GetOr("") != "" && verify(cookie.value).Verified? && verify(cookie.value).claims.userId.Absent? ==>
      r == Json(401, Failure(InvalidPayload))
    ensures cookie.GetOr("") != "" && verify(cookie.value).Verified? && verify(cookie.value).claims.userId.Malformed? ==>
      r == Json(500, Failure(InternalError))
    ensures r.status == 200 <==>
      LookedUp(cookie, verify).Some? && UserById(users, LookedUp(cookie, verify).value).Some?
      && users[UserById(users, LookedUp(cookie, verify).value).value].role == "hr"
    ensures r.status == 200 ==>
      r.body == Found(ProfileOf(users[UserById(users, LookedUp(cookie, verify).value).value]))
    ensures r.status == 403 <==>
      LookedUp(cookie, verify).Some? && UserById(users, LookedUp(cookie, verify).value).Some?
      && users[UserById(users, LookedUp(cookie, verify).value).value].role != "hr"
    ensures r.status == 404 <==> LookedUp(cookie, verify).Some? && UserById(users, LookedUp(cookie, verify).value).None?
    ensures r.status in {200, 401, 403, 404, 500} && r.cookies == KeepCookies
  {
    var token := cookie.GetOr("");
    if token == "" then Json(401, Failure(Unauthorized))
    else
      match verify(token)
      case Rejected => Json(401, Failure(InvalidToken))
      case Verified(claims) =>
        match claims.userId
        case Absent => Json(401, Failure(InvalidPayload))
        case Malformed => Json(500, Failure(InternalError))
        case Ref(id) =>
          match UserById(users, id)
          case None => Json(404, Failure(UnknownUser))
          case Some(k) =>
            if users[k].role != "hr" then Json(403, Failure(NotHr))
            else Json(200, Found(ProfileOf(users[k])))
  }

  /** Every answer before the lookup is the same whatever the collection holds. */
  lemma EarlyAnswersIgnoreStore(users: seq<User>, others: seq<User>, cookie: Option<string>, verify: string -> Verdict)
    requires LookedUp(cookie, verify).None?
    ensures GetProfile(users, cookie, verify) == GetProfile(others, cookie, verify)
    ensures GetProfile(users, cookie, verify).status in {401, 500}
  {
  }

  /** The role in the token does not matter: two tokens naming the same user get the same answer. */
  lemma RoleFromStoreNotToken(users: seq<User>, cookie: Option<string>, cookie': Option<string>, verify: string -> Verdict)
    requires cookie.GetOr("") != "" && cookie'.GetOr("") != ""
    requires verify(cookie.value).Verified? && verify(cookie'.value).Verified?
    requires verify(cookie.value).claims.userId == verify(cookie'.value).claims.userId
    ensures GetProfile(users, cookie, verify) == GetProfile(users, cookie', verify)
  {
  }
}
