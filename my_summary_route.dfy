/**
 * GET /api/my-summary (app/api/my-summary/route.ts): the summary of the most recently
 * created CV summary for the session user's role. The session user is an input;
 * lib/get-user.ts, which should provide it, is not part of this model.
 */
module MySummaryRoute {
  import opened Wrappers
  import opened Http
  import opened CVSummaryModel

  /** What the route uses of the session user. */
  datatype SessionUser = SessionUser(name: string, role: string)

  datatype Reply = Failure(error: string) | Summary(summary: Option<string>)

  const Unauthorized: string := "Unauthorized"

  /** `findOne({ role }).sort({ createdAt: -1 })`: the newest record with the role, the earliest stored on a tie. */
  function Latest(s: seq<CVSummary>, role: string): (r: Option<nat>)
    ensures r.Some? ==> r.value < |s| && s[r.value].role == role
    ensures r.Some? ==> forall i :: 0 <= i < |s| && s[i].role == role ==> s[i].createdAt <= s[r.value].createdAt
    ensures r.Some? ==> forall i :: 0 <= i < r.value && s[i].role == role ==> s[i].createdAt < s[r.value].createdAt
    ensures r.None? <==> forall i :: 0 <= i < |s| ==> s[i].role != role
  {
    if s == [] then None
    else
      var rest := Latest(s[1..], role);
      if s[0].role != role then
        if rest.Some? then Some(rest.value + 1) else None
      else if rest.Some? && s[rest.value + 1].createdAt > s[0].createdAt then Some(rest.value + 1)
      else Some(0)
  }

  function MySummary(summaries: seq<CVSummary>, user: Option<SessionUser>): (r: Response<Reply>)
    ensures user.None? ==> r == Json(401, Failure(Unauthorized))
    ensures user.Some? ==> r.status == 200 && r.body.Summary?
    ensures user.Some? && (forall i :: 0 <= i < |summaries| ==> summaries[i].role != user.value.role) ==>
      r.body == Summary(None)
    ensures user.Some? && (exists i :: 0 <= i < |summaries| && summaries[i].role == user.value.role) ==>
      r.body.Summary? && r.body.summary.Some?
    ensures r.body.Summary? && r.body.summary.Some? ==>
      exists i :: 0 <= i < |summaries| && summaries[i].role == user.value.role
                  && summaries[i].summary == r.body.summary.value
                  && forall k :: 0 <= k < |summaries| && summaries[k].role == user.value.role ==>
                       summaries[k].createdAt <= summaries[i].createdAt
  {
    match user
    case None => Json(401, Failure(Unauthorized))
    case Some(u) =>
      match Latest(summaries, u.role)
      case None => Json(200, Summary(None))
      case Some(k) => Json(200, Summary(Some(summaries[k].summary)))
  }

  /** The answer depends on the role alone: users sharing a role see the same summary. */
  lemma ByRoleOnly(summaries: seq<CVSummary>, u: SessionUser, v: SessionUser)
    requires u.role == v.role
    ensures MySummary(summaries, Some(u)) == MySummary(summaries, Some(v))
  {
  }

  /** A summary created after every stored one of its role is the one returned for that role. */
  lemma {:induction false} NewestWins(summaries: seq<CVSummary>, c: CVSummary)
    requires forall i :: 0 <= i < |summaries| && summaries[i].role == c.role ==> summaries[i].createdAt < c.createdAt
    ensures Latest(summaries + [c], c.role) == Some(|summaries|)
  {
    if summaries != [] {
      assert (summaries + [c])[1..] == summaries[1..] + [c];
      NewestWins(summaries[1..], c);
    }
  }

  /** After an upload at a time later than every record of the role, the role's users get that summary. */
  lemma UploadThenRead(summaries: seq<CVSummary>, c: CVSummary, u: SessionUser)
    requires u.role == c.role
    requires forall i :: 0 <= i < |summaries| && summaries[i].role == c.role ==> summaries[i].createdAt < c.createdAt
    ensures MySummary(summaries + [c], Some(u)) == Json(200, Summary(Some(c.summary)))
  {
    NewestWins(summaries, c);
  }
}
