/**
 * The job form's schema (components/jobs/job-from.tsx): a minimum length per field, and
 * the values the form starts with.
 */
module JobForm {
  import opened Text
  import JobModel

  datatype FormValues = FormValues(
    title: string,
    department: string,
    location: string,
    jobType: string,
    description: string,
    requirements: string,
    companyName: string,
    postedByName: string,
    postedByDesignation: string)

  datatype Issue = Issue(path: string, message: string)

  /** `z.string().min(limit, { message })` on one field: one issue when the value is too short. */
  function MinIssue(path: string, value: string, limit: nat, message: string): (r: seq<Issue>)
    ensures r == [] <==> |value| >= limit
    ensures r != [] ==> r == [Issue(path, message)]
  {
    if |value| < limit then [Issue(path, message)] else []
  }

  /** One issue per field shorter than its minimum, in the order the schema lists the fields. */
  function Issues(v: FormValues): seq<Issue> {
    MinIssue("title", v.title, 3, "Job title must be at least 3 characters")
    + MinIssue("department", v.department, 1, "Please select a department")
    + MinIssue("location", v.location, 1, "Location is required")
    + MinIssue("type", v.jobType, 1, "Please select a job type")
    + MinIssue("description", v.description, 50, "Description must be at least 50 characters")
    + MinIssue("requirements", v.requirements, 50, "Requirements must be at least 50 characters")
    + MinIssue("companyName", v.companyName, 1, "Company name is required")
    + MinIssue("postedByName", v.postedByName, 1, "Your name is required")
    + MinIssue("postedByDesignation", v.postedByDesignation, 1, "Your designation is required")
  }

  predicate FormValid(v: FormValues) {
    Issues(v) == []
  }

  /** The paths the schema reports for the given values: each issue's path, in order. */
  function IssuePaths(v: FormValues): (r: seq<string>)
    ensures |r| == |Issues(v)|
    ensures forall i :: 0 <= i < |r| ==> r[i] == Issues(v)[i].path
  {
    seq(|Issues(v)|, i requires 0 <= i < |Issues(v)| => Issues(v)[i].path)
  }

  /** The form accepts exactly the values of sufficient length; "department" and "type" need not be in the model's lists. */
  lemma FormValidIff(v: FormValues)
    ensures FormValid(v) <==>
      && |v.title| >= 3 && v.department != "" && v.location != "" && v.jobType != ""
      && |v.description| >= 50 && |v.requirements| >= 50
      && v.companyName != "" && v.postedByName != "" && v.postedByDesignation != ""
  {
  }

  const Defaults: FormValues := FormValues("", "", "", "", "", "", "Acme Inc", "Sarah Johnson", "HR Manager")

  /** The starting values fail on the six empty fields and pass on the three prefilled ones. */
  lemma DefaultsAreIncomplete()
    ensures IssuePaths(Defaults) == ["title", "department", "location", "type", "description", "requirements"]
    ensures !FormValid(Defaults)
  {
    assert Issues(Defaults) == [
      Issue("title", "Job title must be at least 3 characters"),
      Issue("department", "Please select a department"),
      Issue("location", "Location is required"),
      Issue("type", "Please select a job type"),
      Issue("description", "Description must be at least 50 characters"),
      Issue("requirements", "Requirements must be at least 50 characters")];
  }

  /** The form fields of a job. */
  function ValuesOf(j: JobModel.Job): (v: FormValues)
    ensures v.title == j.title && v.department == j.department && v.jobType == j.jobType
    ensures v.description == j.description && v.requirements == j.requirements
    ensures v.location == j.location && v.companyName == j.companyName
    ensures v.postedByName == j.postedByName && v.postedByDesignation == j.postedByDesignation
  {
    FormValues(j.title, j.department, j.location, j.jobType, j.description, j.requirements,
               j.companyName, j.postedByName, j.postedByDesignation)
  }

  /** The form is no stricter than the Job model: a job the model accepts passes the form. */
  lemma ModelValidImpliesFormValid(j: JobModel.Job)
    requires JobModel.Valid(j)
    ensures FormValid(ValuesOf(j))
  {
    JobModel.ValidIff(j);
    assert j.department != "" && j.jobType != "" by {
      assert j.department in JobModel.Departments && j.jobType in JobModel.JobTypes;
    }
  }

  /** The form is strictly looser: it passes a department the model refuses. */
  lemma FormLooserThanModel(j: JobModel.Job)
    requires JobModel.Valid(j)
    ensures FormValid(ValuesOf(j.(department := "Legal")))
    ensures !JobModel.Valid(j.(department := "Legal"))
  {
    JobModel.ValidIff(j);
    JobModel.ValidIff(j.(department := "Legal"));
  }
}
