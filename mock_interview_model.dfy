/** The MockInterview model (models/mockInterview.ts): required fields, enums, score range, defaults. */
module MockInterviewModel {
  import opened Wrappers
  import opened Ids
  import opened Validation
  import ApplicationModel

  datatype Question = Question(question: Option<string>, answer: Option<string>, feedback: Option<string>, score: Option<int>)

  datatype MockInterview = MockInterview(
    id: Id,
    candidateId: Id,
    jobTitle: string,
    category: string,
    date: int,
    duration: int,
    score: Option<int>,
    feedback: Option<string>,
    questions: seq<Question>,
    status: string)

  datatype MockInterviewInput = MockInterviewInput(
    candidateId: Option<Id>,
    jobTitle: string,
    category: string,
    date: Option<int>,
    duration: Option<int>,
    score: Option<int>,
    feedback: Option<string>,
    questions: seq<Question>,
    status: Option<string>)

  const Categories: set<string> := {"Technical", "Behavioral", "Case Study", "General"}
  const Statuses: set<string> := {"scheduled", "completed", "cancelled"}

  /** The errors of MockInterviewSchema once the defaults (`duration` 30, `status` "scheduled") are in. */
  function Violations(m: MockInterviewInput): seq<Violation> {
    PathErrors("candidateId", [Check(m.candidateId.Some?, Required("Candidate ID is required"))])
    + PathErrors("jobTitle", [Check(m.jobTitle != "", Required("Job title is required"))])
    + PathErrors("category", [
      Check(m.category != "", Required("Interview category is required")),
      Check(m.category in Categories, NotInEnum(Categories))])
    + PathErrors("date", [Check(m.date.Some?, Required("Interview date is required"))])
    + PathErrors("score", ApplicationModel.ScoreChecks(m.score, 0, 100))
    + PathErrors("status", [Check(m.status.GetOr("scheduled") in Statuses, NotInEnum(Statuses))])
  }

  /** MockInterviewSchema's rules, field by field; `duration` always has its default. */
  lemma ViolationsIff(m: MockInterviewInput)
    ensures Violations(m) == [] <==>
      && m.candidateId.Some? && m.jobTitle != "" && m.date.Some?
      && m.category in Categories
      && (m.score.Some? ==> 0 <= m.score.value <= 100)
      && m.status.GetOr("scheduled") in Statuses
  {
    PathErrorsOne("candidateId", Check(m.candidateId.Some?, Required("Candidate ID is required")));
    PathErrorsOne("jobTitle", Check(m.jobTitle != "", Required("Job title is required")));
    PathErrorsTwo("category",
      Check(m.category != "", Required("Interview category is required")),
      Check(m.category in Categories, NotInEnum(Categories)));
    PathErrorsOne("date", Check(m.date.Some?, Required("Interview date is required")));
    var s := ApplicationModel.ScoreChecks(m.score, 0, 100);
    PathErrorsTwo("score", s[0], s[1]);
    PathErrorsOne("status", Check(m.status.GetOr("scheduled") in Statuses, NotInEnum(Statuses)));
  }

  function Create(m: MockInterviewInput, id: Id): (r: Saved<MockInterview>)
    ensures r.Stored? <==> Violations(m) == []
    ensures r.Stored? ==> r.value.duration == m.duration.GetOr(30)
    ensures r.Stored? ==> r.value.status == m.status.GetOr("scheduled") && r.value.status in Statuses
    ensures r.Stored? ==> r.value.category in Categories && r.value.jobTitle == m.jobTitle
    ensures r.Stored? ==> r.value.id == id && Some(r.value.candidateId) == m.candidateId && Some(r.value.date) == m.date
    ensures r.Stored? ==> r.value.score == m.score && r.value.feedback == m.feedback && r.value.questions == m.questions
    ensures r.Stored? && r.value.score.Some? ==> 0 <= r.value.score.value <= 100
    ensures r.Invalid? ==> r.violations != []
  {
    ViolationsIff(m);
    if Violations(m) == [] then
      Stored(MockInterview(id, m.candidateId.value, m.jobTitle, m.category, m.date.value,
        m.duration.GetOr(30), m.score, m.feedback, m.questions, m.status.GetOr("scheduled")))
    else Invalid(Violations(m))
  }
}
