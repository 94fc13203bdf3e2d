/**
 * The client's session state (contexts/auth-context.tsx): `user` and `isLoading`, moved
 * by `checkAuthStatus`, `login`, `signup` and `logout`. Each transition gets the outcome
 * of its request as a parameter; navigations, toasts and rethrown errors are its results.
 */
module AuthContext {
  import opened Wrappers

  /** The user object the client keeps (`avatar` is left out). */
  datatype ClientUser = ClientUser(id: string, name: string, email: string, role: string, company: Option<string>)

  /** The demonstration user taken when a successful reply carries no user. */
  const MockUser: ClientUser :=
    ClientUser("1", "Sarah Johnson", "sarah.johnson@example.com", "hr", Some("Acme Corp"))

  /** What a request came back with: it threw (network, or a body that is not JSON), or it was answered. */
  datatype Reply<B> = Threw(message: string) | Answered(ok: bool, body: B)

  /** The fields the client reads from an auth reply; a missing `error` is "". */
  datatype AuthBody = AuthBody(user: Option<ClientUser>, error: string)

  datatype Toast = Toast(title: string, description: string, destructive: bool)

  /** The visible results of a transition. */
  datatype Outcome = Outcome(navigation: Option<string>, toast: Option<Toast>, raised: Option<string>)

  datatype Transition = Transition(user: Option<ClientUser>, outcome: Outcome)

  const NoOutcome: Outcome := Outcome(None, None, None)

  /** `checkAuthStatus`: the user the `/me` reply names, if it is ok and the user has a role; otherwise nobody. */
  function SessionFrom(reply: Reply<AuthBody>): (u: Option<ClientUser>)
    ensures u.Some? <==> reply.Answered? && reply.ok && reply.body.user.Some? && reply.body.user.value.role != ""
    ensures u.Some? ==> u == reply.body.user
  {
    if reply.Answered? && reply.ok && reply.body.user.Some? && reply.body.user.value.role != "" then reply.body.user
    else None
  }

  /** The message a failed login or signup rethrows. */
  function FailureMessage(reply: Reply<AuthBody>, fallback: string): (m: string)
    requires !(reply.Answered? && reply.ok)
    ensures reply.Threw? ==> m == reply.message
    ensures reply.Answered? && reply.body.error != "" ==> m == reply.body.error
    ensures reply.Answered? && reply.body.error == "" ==> m == fallback
    ensures fallback != "" && (reply.Threw? ==> reply.message != "") ==> m != ""
  {
    match reply
    case Threw(m) => m
    case Answered(_, body) => if body.error != "" then body.error else fallback
  }

  function DashboardFor(role: string): (path: string)
    ensures path in {"/candidate-dashboard", "/hr-dashboard"}
    ensures path == "/candidate-dashboard" <==> role == "candidate"
  {
    if role == "candidate" then "/candidate-dashboard" else "/hr-dashboard"
  }

  /** `login`: on success the reply's user (or the mock user) and that user's dashboard; on failure nothing changes. */
  function LoginTransition(prev: Option<ClientUser>, reply: Reply<AuthBody>): (t: Transition)
    ensures !(reply.Answered? && reply.ok) ==>
      && t.user == prev && t.outcome.navigation.None?
      && t.outcome.raised == Some(FailureMessage(reply, "Login failed"))
      && t.outcome.toast == Some(Toast("Login failed", FailureMessage(reply, "Login failed"), true))
    ensures reply.Answered? && reply.ok ==>
      && t.user == Some(reply.body.user.GetOr(MockUser))
      && t.outcome.raised.None?
      && t.outcome.navigation == Some(
           if reply.body.user.Some? && reply.body.user.value.role == "candidate"
           then "/candidate-dashboard" else "/hr-dashboard")
      && t.outcome.toast == Some(Toast("Login successful", "Welcome back, " +
           (if reply.body.user.Some? && reply.body.user.value.name != "" then reply.body.user.value.name
            else MockUser.name) + "!", false))
  {
    if reply.Answered? && reply.ok then
      var body := reply.body;
      var shown := if body.user.Some? && body.user.value.name != "" then body.user.value.name else MockUser.name;
      var role := if body.user.Some? then body.user.value.role else "";
      Transition(Some(body.user.GetOr(MockUser)),
                 Outcome(Some(DashboardFor(role)), Some(Toast("Login successful", "Welcome back, " + shown + "!", false)), None))
    else
      var m := FailureMessage(reply, "Login failed");
      Transition(prev, Outcome(None, Some(Toast("Login failed", m, true)), Some(m)))
  }

  /** `signup`: like `login`, except that the dashboard follows the role that was asked for, not the reply. */
  function SignupTransition(prev: Option<ClientUser>, requestedRole: string, reply: Reply<AuthBody>): (t: Transition)
    ensures !(reply.Answered? && reply.ok) ==>
      && t.user == prev && t.outcome.navigation.None?
      && t.outcome.raised == Some(FailureMessage(reply, "Signup failed"))
      && t.outcome.toast == Some(Toast("Signup failed", FailureMessage(reply, "Signup failed"), true))
    ensures reply.Answered? && reply.ok ==>
      && t.user == Some(reply.body.user.GetOr(MockUser))
      && t.outcome.raised.None?
      && t.outcome.navigation == Some(DashboardFor(requestedRole))
      && t.outcome.toast == Some(Toast("Account created", "Your account has been created successfully!", false))
  {
    if reply.Answered? && reply.ok then
      Transition(Some(reply.body.user.GetOr(MockUser)),
                 Outcome(Some(DashboardFor(requestedRole)),
                         Some(Toast("Account created", "Your account has been created successfully!", false)), None))
    else
      var m := FailureMessage(reply, "Signup failed");
      Transition(prev, Outcome(None, Some(Toast("Signup failed", m, true)), Some(m)))
  }

  /** `logout`: any answer, even an error status, signs out and goes home; only a thrown request keeps the user. */
  function LogoutTransition(prev: Option<ClientUser>, reply: Reply<()>): (t: Transition)
    ensures reply.Answered? ==> t.user.None? && t.outcome.navigation == Some("/")
    ensures reply.Threw? ==> t.user == prev && t.outcome.navigation.None?
    ensures reply.Answered? ==> t.outcome.toast == Some(Toast("Logged out", "You have been logged out successfully.", false))
    ensures reply.Threw? ==> t.outcome.toast == Some(Toast("Logout failed", reply.message, true))
    ensures t.outcome.raised.None?
  {
    match reply
    case Answered(_, _) =>
      Transition(None, Outcome(Some("/"), Some(Toast("Logged out", "You have been logged out successfully.", false)), None))
    case Threw(m) =>
      Transition(prev, Outcome(None, Some(Toast("Logout failed", m, true)), None))
  }

  /** A signup that succeeds lands on the requested dashboard even when the server answers with another role. */
  lemma SignupIgnoresReplyRole(prev: Option<ClientUser>, reply: Reply<AuthBody>, u: ClientUser)
    requires reply.Answered? && reply.ok && reply.body.user == Some(u) && u.role == "hr"
    ensures SignupTransition(prev, "candidate", reply).outcome.navigation == Some("/candidate-dashboard")
    ensures LoginTransition(prev, reply).outcome.navigation == Some("/hr-dashboard")
  {
  }

  /** A successful reply without a user signs the demonstration HR user in and sends it to the HR dashboard. */
  lemma EmptyReplySignsInMockUser(prev: Option<ClientUser>)
    ensures LoginTransition(prev, Answered(true, AuthBody(None, ""))).user == Some(MockUser)
    ensures LoginTransition(prev, Answered(true, AuthBody(None, ""))).outcome.navigation == Some("/hr-dashboard")
  {
  }

  /** The provider: the shared `user` and `isLoading` state. */
  class AuthProvider {
    var user: Option<ClientUser>
    var isLoading: bool

    /** `useState(null)` and `useState(true)`. */
    constructor ()
      ensures user.None? && isLoading
    {
      user := None;
      isLoading := true;
    }

    /** Runs on mount; whatever the reply, loading is over afterwards. */
    method CheckAuthStatus(reply: Reply<AuthBody>)
      modifies this
      ensures user == SessionFrom(reply) && !isLoading
    {
      if reply.Answered? && reply.ok {
        if reply.body.user.Some? && reply.body.user.value.role != "" {
          user := reply.body.user;
        } else {
          user := None;
        }
      } else {
        user := None;
      }
      isLoading := false;
    }

    method Login(reply: Reply<AuthBody>) returns (outcome: Outcome)
      modifies this
      ensures user == LoginTransition(old(user), reply).user
      ensures outcome == LoginTransition(old(user), reply).outcome
      ensures !isLoading
    {
      isLoading := true;
      var t := LoginTransition(user, reply);
      user := t.user;
      outcome := t.outcome;
      isLoading := false;
    }

    method Signup(requestedRole: string, reply: Reply<AuthBody>) returns (outcome: Outcome)
      modifies this
      ensures user == SignupTransition(old(user), requestedRole, reply).user
      ensures outcome == SignupTransition(old(user), requestedRole, reply).outcome
      ensures !isLoading
    {
      isLoading := true;
      var t := SignupTransition(user, requestedRole, reply);
      user := t.user;
      outcome := t.outcome;
      isLoading := false;
    }

    /** `logout` does not touch `isLoading`. */
    method Logout(reply: Reply<()>) returns (outcome: Outcome)
      modifies this
      ensures user == LogoutTransition(old(user), reply).user
      ensures outcome == LogoutTransition(old(user), reply).outcome
      ensures isLoading == old(isLoading)
    {
      var t := LogoutTransition(user, reply);
      user := t.user;
      outcome := t.outcome;
    }
  }

  /** A session: mount, then log in and out; loading ends at mount and stays over. */
  method Session(me: Reply<AuthBody>, login: Reply<AuthBody>, logout: Reply<()>) returns (p: AuthProvider)
    ensures !p.isLoading
    ensures logout.Answered? ==> p.user.None?
    ensures logout.Threw? ==> p.user == LoginTransition(SessionFrom(me), login).user
  {
    p := new AuthProvider();
    p.CheckAuthStatus(me);
    var _ := p.Login(login);
    var _ := p.Logout(logout);
  }
}
