/**
 * POST /api/auth/signup (app/api/auth/signup/route.ts): refuses a taken email, missing
 * fields and an HR account without a company, then creates the user, issues a session
 * token and returns the public view of the new user.
 */
module SignupRoute {
  import opened Wrappers
  import opened Ids
  import opened Http
  import opened Session
  import opened Validation
  import opened UserModel
  import opened Database

  /** The request body; a missing or empty field is "". */
  datatype SignupRequest = SignupRequest(name: string, email: string, password: string, role: string, company: string)

  datatype Reply = Failure(error: string) | SchemaError(violations: seq<Violation>) | SignedUp(user: UserView)

  const EmailTaken: string := "Email already exists"
  const MissingFields: string := "Please provide all required fields"
  const CompanyMissing: string := "Company name is required for HR accounts"

  /** The document `User.create` builds: `company` only when one was given, the password still in plain text. */
  function NewUser(req: SignupRequest, id: Id): (u: User)
    ensures u.id == id && u.name == req.name && u.email == req.email && u.password == req.password
    ensures u.role == req.role
    ensures u.company.Some? <==> req.company != ""
    ensures u.company.Some? ==> u.company.value == req.company
  {
    User(id, req.name, req.email, req.password, req.role, if req.company != "" then Some(req.company) else None)
  }

  datatype Decision = Refuse(response: Response<Reply>) | Accept

  /** The checks of the handler in its order; `id` is the ObjectId the new document would get. */
  function Decide(users: seq<User>, req: SignupRequest, id: Id, emailOk: string -> bool): (d: Decision)
    ensures UserByEmail(users, req.email).Some? ==> d == Refuse(Json(400, Failure(EmailTaken)))
    ensures UserByEmail(users, req.email).None? ==>
      && (req.name == "" || req.email == "" || req.password == "" || req.role == "" ==>
            d == Refuse(Json(400, Failure(MissingFields))))
      && (req.name != "" && req.email != "" && req.password != "" && req.role == "hr" && req.company == "" ==>
            d == Refuse(Json(400, Failure(CompanyMissing))))
    ensures d.Accept? <==>
      && UserByEmail(users, req.email).None?
      && req.name != "" && req.email != "" && req.password != "" && req.role != ""
      && (req.role == "hr" ==> req.company != "")
      && UserModel.Valid(NewUser(req, id), emailOk)
    ensures (&& UserByEmail(users, req.email).None?
             && req.name != "" && req.email != "" && req.password != "" && req.role != ""
             && (req.role == "hr" ==> req.company != "")
             && !UserModel.Valid(NewUser(req, id), emailOk)) ==>
      d == Refuse(Json(500, SchemaError(Violations(NewUser(req, id), emailOk))))
    ensures d.Refuse? && d.response.status == 500 ==>
      d.response.body == SchemaError(Violations(NewUser(req, id), emailOk)) && d.response.body.violations != []
    ensures d.Refuse? ==> d.response.status in {400, 500} && d.response.cookies == KeepCookies
  {
    if UserByEmail(users, req.email).Some? then Refuse(Json(400, Failure(EmailTaken)))
    else if req.name == "" || req.email == "" || req.password == "" || req.role == "" then
      Refuse(Json(400, Failure(MissingFields)))
    else if req.role == "hr" && req.company == "" then Refuse(Json(400, Failure(CompanyMissing)))
    else if !UserModel.Valid(NewUser(req, id), emailOk) then
      Refuse(Json(500, SchemaError(Violations(NewUser(req, id), emailOk))))
    else Accept
  }

  /** Past the handler's own checks, the schema can only object to the name's length, the email's form,
      the password's length or the role. */
  lemma SchemaObjections(users: seq<User>, req: SignupRequest, id: Id, emailOk: string -> bool)
    requires UserByEmail(users, req.email).None?
    requires req.name != "" && req.email != "" && req.password != "" && req.role != ""
    requires req.role == "hr" ==> req.company != ""
    ensures Decide(users, req, id, emailOk).Accept? <==>
      |req.name| <= 50 && emailOk(req.email) && |req.password| >= 6 && req.role in Roles
  {
    ValidIff(NewUser(req, id), emailOk);
  }

  /** The claims the new session token carries. */
  function ClaimsOf(u: User): (c: Claims)
    ensures c.userId == Ref(u.id) && c.name == u.name && c.role == u.role
  {
    Claims(Ref(u.id), u.name, u.role)
  }

  /** A new user with a fresh id and an email nobody has keeps the database consistent. */
  lemma InsertKeepsConsistent(users: seq<User>, jobs: seq<JobModel.Job>, apps: seq<ApplicationModel.Application>,
                              summaries: seq<CVSummaryModel.CVSummary>, nextId: Id, u: User)
    requires Consistent(users, jobs, apps, summaries, nextId)
    requires u.id == nextId && UserByEmail(users, u.email).None?
    ensures Consistent(users + [u], jobs, apps, summaries, nextId + 1)
  {
    var users' := users + [u];
    forall i, j | 0 <= i < j < |users'|
      ensures users'[i].email != users'[j].email
    {
      if j == |users| {
        assert users'[i] == users[i];
      } else {
        assert users'[i] == users[i] && users'[j] == users[j];
      }
    }
    forall i | 0 <= i < |users'|
      ensures users'[i].id < nextId + 1
    {
      if i < |users| { assert users'[i] == users[i]; }
    }
  }

  /**
   * The handler. `emailOk` is the email pattern, `hash` bcrypt, `issue` the token signer
   * and `production` whether the cookie is marked secure.
   */
  method Signup(db: Store, req: SignupRequest, emailOk: string -> bool, hash: string -> string,
                issue: Claims -> string, production: bool) returns (r: Response<Reply>)
    requires db.Valid()
    modifies db
    ensures db.Valid()
    ensures db.jobs == old(db.jobs) && db.applications == old(db.applications) && db.summaries == old(db.summaries)
    ensures match Decide(old(db.users), req, old(db.nextId), emailOk)
      case Refuse(response) =>
        r == response && db.users == old(db.users) && db.nextId == old(db.nextId)
      case Accept =>
        var stored := NewUser(req, old(db.nextId)).(password := hash(req.password));
        && db.users == old(db.users) + [stored]
        && r == Response(200, SignedUp(View(stored)),
                         SetCookie(TokenCookieFor(issue(ClaimsOf(stored)), production, "strict")))
  {
    var d := Decide(db.users, req, db.nextId, emailOk);
    if d.Refuse? {
      r := d.response;
      return;
    }
    var stored := Store(NewUser(req, db.nextId), hash);
    InsertKeepsConsistent(db.users, db.jobs, db.applications, db.summaries, db.nextId, stored);
    var id := db.FreshId();
    db.users := db.users + [stored];
    r := Response(200, SignedUp(View(stored)), SetCookie(TokenCookieFor(issue(ClaimsOf(stored)), production, "strict")));
  }

  /** `User.create`: a new document saved once, so its password is hashed. */
  method Store(u: User, hash: string -> string) returns (stored: User)
    ensures stored == u.(password := hash(u.password))
  {
    var doc := new UserDocument.Created(u);
    doc.Save(hash);
    stored := doc.record;
  }
}
