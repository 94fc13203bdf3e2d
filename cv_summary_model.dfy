/** The CVSummary model (models/cv-summary.ts): length limits, required file path, status enum, defaults. */
module CVSummaryModel {
  import opened Wrappers
  import opened Ids
  import opened Validation

  datatype CVSummary = CVSummary(
    id: Id,
    name: string,
    role: string,
    summary: string,
    filePath: string,
    status: string,
    error: Option<string>,
    createdAt: int)

  datatype CVSummaryInput = CVSummaryInput(
    name: string,
    role: string,
    summary: Option<string>,
    filePath: string,
    status: Option<string>,
    error: Option<string>)

  const Statuses: set<string> := {"processing", "completed", "failed"}

  /** The errors of CVSummarySchema once the defaults (`summary` "", `status` "processing") are in. */
  function Violations(c: CVSummaryInput): seq<Violation> {
    PathErrors("name", [
      Check(c.name != "", Required("Please provide a contestant name")),
      Check(|c.name| <= 100, MaxLength(100, "Name cannot be more than 100 characters"))])
    + PathErrors("role", [
      Check(c.role != "", Required("Please provide a role")),
      Check(|c.role| <= 100, MaxLength(100, "Role cannot be more than 100 characters"))])
    + PathErrors("filePath", [Check(c.filePath != "", Required("File path is required"))])
    + PathErrors("status", [Check(c.status.GetOr("processing") in Statuses, NotInEnum(Statuses))])
  }

  /** CVSummarySchema's rules, field by field. */
  lemma ViolationsIff(c: CVSummaryInput)
    ensures Violations(c) == [] <==>
      && c.name != "" && |c.name| <= 100
      && c.role != "" && |c.role| <= 100
      && c.filePath != ""
      && c.status.GetOr("processing") in Statuses
  {
    PathErrorsTwo("name",
      Check(c.name != "", Required("Please provide a contestant name")),
      Check(|c.name| <= 100, MaxLength(100, "Name cannot be more than 100 characters")));
    PathErrorsTwo("role",
      Check(c.role != "", Required("Please provide a role")),
      Check(|c.role| <= 100, MaxLength(100, "Role cannot be more than 100 characters")));
    PathErrorsOne("filePath", Check(c.filePath != "", Required("File path is required")));
    PathErrorsOne("status", Check(c.status.GetOr("processing") in Statuses, NotInEnum(Statuses)));
  }

  /** `CVSummary.create(input)`, stamped with its creation time. */
  function Create(c: CVSummaryInput, id: Id, now: int): (r: Saved<CVSummary>)
    ensures r.Stored? <==> Violations(c) == []
    ensures r.Stored? ==> r.value == CVSummary(id, c.name, c.role, c.summary.GetOr(""), c.filePath,
                                               c.status.GetOr("processing"), c.error, now)
    ensures r.Stored? ==> |r.value.name| <= 100 && |r.value.role| <= 100 && r.value.status in Statuses
    ensures r.Invalid? ==> r.violations != []
  {
    ViolationsIff(c);
    if Violations(c) == [] then
      Stored(CVSummary(id, c.name, c.role, c.summary.GetOr(""), c.filePath, c.status.GetOr("processing"), c.error, now))
    else Invalid(Violations(c))
  }
}
