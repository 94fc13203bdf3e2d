/**
 * The route gate (middleware.ts): for each request under the configured matcher it
 * either lets the request through or redirects it, possibly clearing the session cookie.
 * Token verification is a function from the token to a verdict.
 */
module Middleware {
  import opened Wrappers
  import opened Text
  import opened Session

  datatype Outcome =
    | Forward                              // `NextResponse.next()`
    | Redirect(target: string)             // `NextResponse.redirect(new URL(target, request.url))`
    | RedirectClearingToken(target: string) // the same, and `response.cookies.delete("token")`

  const HrDashboard: string := "/hr-dashboard"
  const CandidateDashboard: string := "/candidate-dashboard"
  const Profile: string := "/profile"
  const Login: string := "/login"

  /** The pages anyone may see, and the authentication API. */
  predicate IsPublicPath(path: string) {
    || path == "/" || path == "/login" || path == "/signup" || path == "/features"
    || path == "/how-it-works" || path == "/contact"
    || StartsWith(path, "/api/auth")
  }

  /** The role a dashboard subtree asks of a verified session (plain prefix tests, not path segments). */
  predicate Admits(role: string, path: string) {
    && (StartsWith(path, HrDashboard) ==> role == "hr")
    && (StartsWith(path, CandidateDashboard) ==> role == "candidate")
  }

  /** `middleware(request)`, given the request path and the value of its "token" cookie. */
  function Middleware(path: string, cookie: Option<string>, verify: string -> Verdict): (o: Outcome)
    ensures IsPublicPath(path) ==> o == Forward
    ensures !IsPublicPath(path) && cookie.GetOr("") == "" ==> o == Redirect(Login)
    ensures o.RedirectClearingToken? <==>
      !IsPublicPath(path) && cookie.GetOr("") != "" && verify(cookie.GetOr("")).Rejected?
    ensures o.RedirectClearingToken? ==> o.target == Login
    ensures o.Redirect? ==> o.target in {Login, CandidateDashboard, HrDashboard}
  {
    if IsPublicPath(path) then Forward
    else
      var token := cookie.GetOr("");
      if token == "" then Redirect(Login)
      else
        match verify(token)
        case Rejected => RedirectClearingToken(Login)
        case Verified(claims) =>
          if StartsWith(path, HrDashboard) && claims.role != "hr" then Redirect(CandidateDashboard)
          else if StartsWith(path, CandidateDashboard) && claims.role != "candidate" then Redirect(HrDashboard)
          else Forward
  }

  /** A request is let through exactly when its path is public or a verified session's role admits it. */
  lemma ForwardIff(path: string, cookie: Option<string>, verify: string -> Verdict)
    ensures Middleware(path, cookie, verify) == Forward <==>
      || IsPublicPath(path)
      || (cookie.GetOr("") != "" && verify(cookie.GetOr("")).Verified?
          && Admits(verify(cookie.GetOr("")).claims.role, path))
  {
    if !IsPublicPath(path) && cookie.GetOr("") != "" && verify(cookie.GetOr("")).Verified?
       && StartsWith(path, HrDashboard) {
      NotBothDashboards(path);
    }
  }

  /** No path lies under both dashboards' prefixes. */
  lemma NotBothDashboards(path: string)
    requires StartsWith(path, HrDashboard)
    ensures !StartsWith(path, CandidateDashboard)
  {
    PrefixesDiffer(path, HrDashboard, CandidateDashboard, 1);
  }

  /** A verified session that is neither "hr" nor "candidate" on a dashboard is not refused but redirected. */
  lemma WrongRoleRedirected(path: string, token: string, verify: string -> Verdict)
    requires token != "" && verify(token).Verified?
    requires !IsPublicPath(path)
    ensures StartsWith(path, HrDashboard) && verify(token).claims.role != "hr" ==>
      Middleware(path, Some(token), verify) == Redirect(CandidateDashboard)
    ensures StartsWith(path, CandidateDashboard) && verify(token).claims.role != "candidate" ==>
      Middleware(path, Some(token), verify) == Redirect(HrDashboard)
  {
    if StartsWith(path, HrDashboard) {
      NotBothDashboards(path);
    }
  }

  /** The prefix test is plain `startsWith`: "/hr-dashboardX" is gated like "/hr-dashboard/...". */
  lemma HrPrefixIsTextual(suffix: string, token: string, verify: string -> Verdict)
    requires token != "" && verify(token).Verified? && verify(token).claims.role == "candidate"
    ensures Middleware(HrDashboard + suffix, Some(token), verify) == Redirect(CandidateDashboard)
  {
    var path := HrDashboard + suffix;
    assert StartsWith(path, HrDashboard) by { assert path[..|HrDashboard|] == HrDashboard; }
    PrefixesDiffer(path, HrDashboard, "/api/auth", 1);
    PrefixesDiffer(path, HrDashboard, CandidateDashboard, 1);
    assert path[2] == HrDashboard[2];
  }

  /** A verified session of either role is let into the profile pages. */
  lemma ProfileForEitherRole(suffix: string, token: string, verify: string -> Verdict)
    requires token != "" && verify(token).Verified?
    ensures Middleware(Profile + suffix, Some(token), verify) == Forward
  {
    var path := Profile + suffix;
    assert StartsWith(path, Profile) by { assert path[..|Profile|] == Profile; }
    PrefixesDiffer(path, Profile, "/api/auth", 1);
    PrefixesDiffer(path, Profile, HrDashboard, 1);
    PrefixesDiffer(path, Profile, CandidateDashboard, 1);
  }

  /** A role redirect lands on a page the same session is let into, for the two roles the schema allows. */
  lemma RoleRedirectSettles(path: string, token: string, verify: string -> Verdict)
    requires token != "" && verify(token).Verified? && verify(token).claims.role in {"hr", "candidate"}
    requires Middleware(path, Some(token), verify).Redirect?
    ensures Middleware(Middleware(path, Some(token), verify).target, Some(token), verify) == Forward
  {
    assert StartsWith(HrDashboard, HrDashboard) && StartsWith(CandidateDashboard, CandidateDashboard);
    PrefixesDiffer(CandidateDashboard, CandidateDashboard, HrDashboard, 1);
    PrefixesDiffer(HrDashboard, HrDashboard, CandidateDashboard, 1);
  }

  /** With any other role the two dashboards send the session back and forth. */
  lemma OtherRoleBounces(token: string, verify: string -> Verdict)
    requires token != "" && verify(token).Verified? && verify(token).claims.role !in {"hr", "candidate"}
    ensures Middleware(HrDashboard, Some(token), verify) == Redirect(CandidateDashboard)
    ensures Middleware(CandidateDashboard, Some(token), verify) == Redirect(HrDashboard)
  {
    assert StartsWith(HrDashboard, HrDashboard) && StartsWith(CandidateDashboard, CandidateDashboard);
    PrefixesDiffer(CandidateDashboard, CandidateDashboard, HrDashboard, 1);
    PrefixesDiffer(HrDashboard, HrDashboard, CandidateDashboard, 1);
  }

  /** `config.matcher`: each listed base path and everything below it (`/:path*`). */
  predicate Matches(path: string) {
    || path == CandidateDashboard || StartsWith(path, CandidateDashboard + "/")
    || path == HrDashboard || StartsWith(path, HrDashboard + "/")
    || path == Profile || StartsWith(path, Profile + "/")
  }

  /** No path the matcher selects is public, so the middleware never takes its public branch. */
  lemma MatchedNeverPublic(path: string)
    requires Matches(path)
    ensures !IsPublicPath(path)
  {
    var base := if path == CandidateDashboard || StartsWith(path, CandidateDashboard + "/") then CandidateDashboard
                else if path == HrDashboard || StartsWith(path, HrDashboard + "/") then HrDashboard
                else Profile;
    assert StartsWith(path, base) by {
      if StartsWith(path, base + "/") { assert path[..|base|] == (base + "/")[..|base|]; }
    }
    PrefixesDiffer(path, base, "/api/auth", 1);
    assert path[1] == base[1] && path[2] == base[2];
  }

  /** What a request meets: the middleware under the matcher, and nothing elsewhere. */
  function Gate(path: string, cookie: Option<string>, verify: string -> Verdict): (o: Outcome)
    ensures !Matches(path) ==> o == Forward
    ensures Matches(path) && cookie.GetOr("") == "" ==> o == Redirect(Login)
    ensures Matches(path) ==> o == Middleware(path, cookie, verify)
  {
    if Matches(path) then
      MatchedNeverPublic(path);
      Middleware(path, cookie, verify)
    else Forward
  }
}
