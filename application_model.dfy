/** The Application model (models/application.ts): required references, status enum, score range, defaults. */
module ApplicationModel {
  import opened Wrappers
  import opened Ids
  import opened Validation

  datatype Application = Application(
    id: Id,
    jobId: Id,
    candidateId: Id,
    status: string,
    appliedDate: int,
    interviewDate: Option<int>,
    interviewTime: Option<string>,
    interviewScore: Option<int>,
    feedback: Option<string>,
    notes: Option<string>)

  /** The fields given to `new Application(...)`. */
  datatype ApplicationInput = ApplicationInput(
    jobId: Option<Id>,
    candidateId: Option<Id>,
    status: Option<string>,
    appliedDate: Option<int>,
    interviewDate: Option<int>,
    interviewTime: Option<string>,
    interviewScore: Option<int>,
    feedback: Option<string>,
    notes: Option<string>)

  const Statuses: set<string> := {"applied", "review", "interview", "rejected", "accepted"}

  /** A score, when present, within [lo, hi]; the checks Mongoose's `min` and `max` make. */
  function ScoreChecks(score: Option<int>, lo: int, hi: int): seq<Check> {
    [Check(score.None? || score.value >= lo, BelowMin(lo)),
     Check(score.None? || score.value <= hi, AboveMax(hi))]
  }

  /** The errors of ApplicationSchema for the input once the defaults are filled in. */
  function Violations(a: ApplicationInput): seq<Violation> {
    PathErrors("jobId", [Check(a.jobId.Some?, Required("Job ID is required"))])
    + PathErrors("candidateId", [Check(a.candidateId.Some?, Required("Candidate ID is required"))])
    + PathErrors("status", [Check(a.status.GetOr("applied") in Statuses, NotInEnum(Statuses))])
    + PathErrors("interviewScore", ScoreChecks(a.interviewScore, 0, 100))
  }

  /** ApplicationSchema's rules, field by field. */
  lemma ViolationsIff(a: ApplicationInput)
    ensures Violations(a) == [] <==>
      && a.jobId.Some? && a.candidateId.Some?
      && a.status.GetOr("applied") in Statuses
      && (a.interviewScore.Some? ==> 0 <= a.interviewScore.value <= 100)
  {
    PathErrorsOne("jobId", Check(a.jobId.Some?, Required("Job ID is required")));
    PathErrorsOne("candidateId", Check(a.candidateId.Some?, Required("Candidate ID is required")));
    PathErrorsOne("status", Check(a.status.GetOr("applied") in Statuses, NotInEnum(Statuses)));
    var s := ScoreChecks(a.interviewScore, 0, 100);
    PathErrorsTwo("interviewScore", s[0], s[1]);
  }

  /** `new Application(input).save()`: defaults (`status` "applied", `appliedDate` now), then validation. */
  function Create(a: ApplicationInput, id: Id, now: int): (r: Saved<Application>)
    ensures r.Stored? <==> Violations(a) == []
    ensures r.Stored? ==> r.value.status in Statuses && r.value.id == id
    ensures r.Stored? ==> r.value.status == a.status.GetOr("applied") && r.value.appliedDate == a.appliedDate.GetOr(now)
    ensures r.Stored? ==> Some(r.value.jobId) == a.jobId && Some(r.value.candidateId) == a.candidateId
    ensures r.Stored? ==> r.value.interviewScore == a.interviewScore
    ensures r.Stored? ==> r.value.interviewDate == a.interviewDate && r.value.interviewTime == a.interviewTime
    ensures r.Stored? ==> r.value.feedback == a.feedback && r.value.notes == a.notes
    ensures r.Stored? && r.value.interviewScore.Some? ==> 0 <= r.value.interviewScore.value <= 100
    ensures r.Invalid? ==> r.violations != []
  {
    ViolationsIff(a);
    if Violations(a) == [] then
      Stored(Application(id, a.jobId.value, a.candidateId.value, a.status.GetOr("applied"),
        a.appliedDate.GetOr(now), a.interviewDate, a.interviewTime, a.interviewScore, a.feedback, a.notes))
    else Invalid(Violations(a))
  }

  /** An application given just its job and candidate is stored as "applied", dated now, with no interview. */
  lemma CreateMinimal(jobId: Id, candidateId: Id, id: Id, now: int)
    ensures Create(ApplicationInput(Some(jobId), Some(candidateId), None, None, None, None, None, None, None), id, now)
      == Stored(Application(id, jobId, candidateId, "applied", now, None, None, None, None, None))
  {
    ViolationsIff(ApplicationInput(Some(jobId), Some(candidateId), None, None, None, None, None, None, None));
  }
}
