/**
 * The Job model (models/job.ts): field rules, defaults, and the pre-save hook that
 * stamps `updatedAt` on every save.
 */
module JobModel {
  import opened Wrappers
  import opened Ids
  import opened Validation

  datatype Job = Job(
    id: Id,
    title: string,
    department: string,
    location: string,
    jobType: string,
    description: string,
    requirements: string,
    companyName: string,
    postedByName: string,
    postedByDesignation: string,
    createdAt: int,
    updatedAt: int,
    status: string,
    applicants: Option<int>)

  /** The body of a job creation request; the fields with defaults may be left out. */
  datatype JobInput = JobInput(
    title: string,
    department: string,
    location: string,
    jobType: string,
    description: string,
    requirements: string,
    companyName: string,
    postedByName: string,
    postedByDesignation: string,
    createdAt: Option<int>,
    updatedAt: Option<int>,
    status: Option<string>,
    applicants: Option<int>)

  const Departments: set<string> := {"Engineering", "Design", "Product", "Marketing", "Sales", "HR", "Finance"}
  const JobTypes: set<string> := {"Full-time", "Part-time", "Contract", "Internship", "Temporary"}
  const Statuses: set<string> := {"active", "closed", "draft"}

  /** `new Job(input)`: the schema defaults fill the fields the input leaves out. */
  function WithDefaults(input: JobInput, id: Id, now: int): (j: Job)
    ensures j.status == input.status.GetOr("active")
    ensures j.applicants == Some(input.applicants.GetOr(0))
    ensures j.createdAt == input.createdAt.GetOr(now) && j.updatedAt == input.updatedAt.GetOr(now)
    ensures j.id == id && j.title == input.title && j.description == input.description
    ensures j.department == input.department && j.location == input.location && j.jobType == input.jobType
    ensures j.requirements == input.requirements && j.companyName == input.companyName
    ensures j.postedByName == input.postedByName && j.postedByDesignation == input.postedByDesignation
  {
    Job(id, input.title, input.department, input.location, input.jobType, input.description,
        input.requirements, input.companyName, input.postedByName, input.postedByDesignation,
        input.createdAt.GetOr(now), input.updatedAt.GetOr(now), input.status.GetOr("active"),
        Some(input.applicants.GetOr(0)))
  }

  function Violations(j: Job): seq<Violation> {
    PathErrors("title", [
      Check(j.title != "", Required("Job title is required")),
      Check(|j.title| >= 3, MinLength(3, "Job title must be at least 3 characters"))])
    + PathErrors("department", [
      Check(j.department != "", Required("Department is required")),
      Check(j.department in Departments, NotInEnum(Departments))])
    + PathErrors("location", [Check(j.location != "", Required("Location is required"))])
    + PathErrors("type", [
      Check(j.jobType != "", Required("Job type is required")),
      Check(j.jobType in JobTypes, NotInEnum(JobTypes))])
    + PathErrors("description", [
      Check(j.description != "", Required("Description is required")),
      Check(|j.description| >= 50, MinLength(50, "Description must be at least 50 characters"))])
    + PathErrors("requirements", [
      Check(j.requirements != "", Required("Requirements are required")),
      Check(|j.requirements| >= 50, MinLength(50, "Requirements must be at least 50 characters"))])
    + PathErrors("companyName", [Check(j.companyName != "", Required("Company name is required"))])
    + PathErrors("postedByName", [Check(j.postedByName != "", Required("Posted by name is required"))])
    + PathErrors("postedByDesignation", [
      Check(j.postedByDesignation != "", Required("Posted by designation is required"))])
    + PathErrors("status", [Check(j.status in Statuses, NotInEnum(Statuses))])
  }

  predicate Valid(j: Job) {
    Violations(j) == []
  }

  /** JobSchema's rules, field by field. */
  lemma ValidIff(j: Job)
    ensures Valid(j) <==>
      && |j.title| >= 3
      && j.department in Departments
      && j.location != ""
      && j.jobType in JobTypes
      && |j.description| >= 50 && |j.requirements| >= 50
      && j.companyName != "" && j.postedByName != "" && j.postedByDesignation != ""
      && j.status in Statuses
  {
    PathErrorsTwo("title",
      Check(j.title != "", Required("Job title is required")),
      Check(|j.title| >= 3, MinLength(3, "Job title must be at least 3 characters")));
    PathErrorsTwo("department",
      Check(j.department != "", Required("Department is required")),
      Check(j.department in Departments, NotInEnum(Departments)));
    PathErrorsOne("location", Check(j.location != "", Required("Location is required")));
    PathErrorsTwo("type",
      Check(j.jobType != "", Required("Job type is required")),
      Check(j.jobType in JobTypes, NotInEnum(JobTypes)));
    PathErrorsTwo("description",
      Check(j.description != "", Required("Description is required")),
      Check(|j.description| >= 50, MinLength(50, "Description must be at least 50 characters")));
    PathErrorsTwo("requirements",
      Check(j.requirements != "", Required("Requirements are required")),
      Check(|j.requirements| >= 50, MinLength(50, "Requirements must be at least 50 characters")));
    PathErrorsOne("companyName", Check(j.companyName != "", Required("Company name is required")));
    PathErrorsOne("postedByName", Check(j.postedByName != "", Required("Posted by name is required")));
    PathErrorsOne("postedByDesignation",
      Check(j.postedByDesignation != "", Required("Posted by designation is required")));
    PathErrorsOne("status", Check(j.status in Statuses, NotInEnum(Statuses)));
  }

  /** Validity does not depend on the fields the schema places no rule on. */
  lemma ValidIgnoresBookkeeping(j: Job, updatedAt: int, applicants: Option<int>)
    ensures Valid(j.(updatedAt := updatedAt, applicants := applicants)) == Valid(j)
  {
    ValidIff(j);
    ValidIff(j.(updatedAt := updatedAt, applicants := applicants));
  }

  /** The pre-save hook: every save sets `updatedAt` to the current time and changes nothing else. */
  function PreSave(j: Job, now: int): (r: Job)
    ensures r.updatedAt == now
    ensures r == j.(updatedAt := now)
  {
    j.(updatedAt := now)
  }

  /** `new Job(input).save()`: defaults, validation, then the pre-save hook. */
  function Create(input: JobInput, id: Id, now: int): (r: Saved<Job>)
    ensures r.Stored? <==> Valid(WithDefaults(input, id, now))
    ensures r.Stored? ==> Valid(r.value) && r.value.id == id && r.value.updatedAt == now
    ensures r.Stored? ==> r.value == WithDefaults(input, id, now).(updatedAt := now)
    ensures r.Invalid? ==> r.violations != []
  {
    var j := WithDefaults(input, id, now);
    if Valid(j) then
      ValidIgnoresBookkeeping(j, now, j.applicants);
      Stored(PreSave(j, now))
    else Invalid(Violations(j))
  }

  /** A job left without status or applicant count starts active with no applicants. */
  lemma CreateDefaults(input: JobInput, id: Id, now: int)
    requires input.status.None? && input.applicants.None? && input.createdAt.None?
    requires Create(input, id, now).Stored?
    ensures Create(input, id, now).value.status == "active"
    ensures Create(input, id, now).value.applicants == Some(0)
    ensures Create(input, id, now).value.createdAt == now
  {
  }

  /** A loaded job document whose fields the application changes before saving it. */
  class JobDocument {
    var record: Job

    constructor Loaded(j: Job)
      ensures record == j
    {
      record := j;
    }

    /** `job.applicants = (job.applicants || 0) + 1`. */
    method CountApplicant()
      modifies this
      ensures record == old(record).(applicants := Some(old(record).applicants.GetOr(0) + 1))
    {
      record := record.(applicants := Some(record.applicants.GetOr(0) + 1));
    }

    /** `job.save()`: the pre-save hook stamps the time. */
    method Save(now: int)
      modifies this
      ensures record == PreSave(old(record), now)
    {
      record := record.(updatedAt := now);
    }
  }
}
