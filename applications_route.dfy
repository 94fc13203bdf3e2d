/**
 * POST /api/applications (app/api/applications/route.ts): a candidate applies to a job.
 * The checks run in a fixed order and the first that fails answers; on success one
 * application is stored and the job's applicant counter goes up by one.
 */
module ApplicationsRoute {
  import opened Wrappers
  import opened Ids
  import opened Http
  import opened UserModel
  import opened JobModel
  import opened ApplicationModel
  import opened Validation
  import CVSummaryModel
  import opened Database

  datatype Reply =
    | Failure(error: string)
    | AlreadyApplied(error: string, applicationId: Id)
    | Submitted(message: string, applicationId: Id, jobTitle: string, company: string, appliedDate: int)

  const MissingIds: string := "Job ID and Candidate ID are required"
  const UnknownJob: string := "Job not found"
  const ClosedJob: string := "This job is not currently accepting applications"
  const UnknownCandidate: string := "Candidate not found"
  const Duplicate: string := "You have already applied to this job"
  const InternalError: string := "Internal server error"

  /** What the validation chain decides: answer at once, or store an application for the job at `jobIndex`. */
  datatype Decision = Refuse(response: Response<Reply>) | Accept(jobIndex: nat, jobId: Id, candidateId: Id)

  /** The job with this id exists and is open. */
  predicate JobOpen(jobs: seq<Job>, id: Id) {
    var k := JobById(jobs, id);
    k.Some? && jobs[k.value].status == "active"
  }

  /** The user with this id exists and has the candidate role. */
  predicate IsCandidate(users: seq<User>, id: Id) {
    var k := UserById(users, id);
    k.Some? && users[k.value].role == "candidate"
  }

  /** The checks of the handler, in the order it makes them. */
  function Decide(jobs: seq<Job>, users: seq<User>, apps: seq<Application>, jobId: IdParam, candidateId: IdParam)
    : (d: Decision)
    ensures d.Accept? ==>
      && jobId == Ref(d.jobId) && candidateId == Ref(d.candidateId)
      && d.jobIndex < |jobs| && jobs[d.jobIndex].id == d.jobId && jobs[d.jobIndex].status == "active"
      && ApplicationFor(apps, d.jobId, d.candidateId).None?
  {
    if jobId.Absent? || candidateId.Absent? then Refuse(Json(400, Failure(MissingIds)))
    else if jobId.Malformed? then Refuse(Json(500, Failure(InternalError)))
    else
      match JobById(jobs, jobId.id)
      case None => Refuse(Json(404, Failure(UnknownJob)))
      case Some(j) =>
        if jobs[j].status != "active" then Refuse(Json(400, Failure(ClosedJob)))
        else if candidateId.Malformed? then Refuse(Json(500, Failure(InternalError)))
        else if !IsCandidate(users, candidateId.id) then Refuse(Json(404, Failure(UnknownCandidate)))
        else
          match ApplicationFor(apps, jobId.id, candidateId.id)
          case Some(a) => Refuse(Json(400, AlreadyApplied(Duplicate, apps[a].id)))
          case None => Accept(j, jobId.id, candidateId.id)
  }

  /** The decision table of the handler: which answer each request gets, the first failing check deciding. */
  lemma DecideTable(jobs: seq<Job>, users: seq<User>, apps: seq<Application>, jobId: IdParam, candidateId: IdParam)
    ensures var d := Decide(jobs, users, apps, jobId, candidateId);
      && (d.Accept? <==>
            && jobId.Ref? && candidateId.Ref?
            && JobOpen(jobs, jobId.id) && IsCandidate(users, candidateId.id)
            && forall k :: 0 <= k < |apps| ==> !SamePair(apps[k], jobId.id, candidateId.id))
      && (jobId.Absent? || candidateId.Absent? ==> d == Refuse(Json(400, Failure(MissingIds))))
      && (!jobId.Absent? && !candidateId.Absent? ==>
            && (jobId.Malformed? ==> d == Refuse(Json(500, Failure(InternalError))))
            && (jobId.Ref? && JobById(jobs, jobId.id).None? ==> d == Refuse(Json(404, Failure(UnknownJob))))
            && (jobId.Ref? && JobById(jobs, jobId.id).Some? && !JobOpen(jobs, jobId.id) ==>
                  d == Refuse(Json(400, Failure(ClosedJob)))))
      && (jobId.Ref? && !candidateId.Absent? && JobOpen(jobs, jobId.id) ==>
            && (candidateId.Malformed? ==> d == Refuse(Json(500, Failure(InternalError))))
            && (candidateId.Ref? && !IsCandidate(users, candidateId.id) ==>
                  d == Refuse(Json(404, Failure(UnknownCandidate)))))
      && (d.Refuse? ==> d.response.status in {400, 404, 500} && d.response.cookies == KeepCookies)
  {
  }

  /** An existing application for the pair is the only reason for "already applied", and it is reported by id. */
  lemma DuplicateReported(jobs: seq<Job>, users: seq<User>, apps: seq<Application>, jobId: IdParam, candidateId: IdParam)
    ensures var d := Decide(jobs, users, apps, jobId, candidateId);
      && (d.Refuse? && d.response.body.AlreadyApplied? <==>
            && jobId.Ref? && candidateId.Ref? && JobOpen(jobs, jobId.id) && IsCandidate(users, candidateId.id)
            && exists k :: 0 <= k < |apps| && SamePair(apps[k], jobId.id, candidateId.id))
      && (d.Refuse? && d.response.body.AlreadyApplied? ==>
            && d.response.status == 400 && d.response.body.error == Duplicate
            && exists k :: 0 <= k < |apps| && SamePair(apps[k], jobId.id, candidateId.id)
                           && apps[k].id == d.response.body.applicationId)
  {
  }

  /** The stored application: the job and candidate, status "applied", dated now; exactly what the schema builds. */
  function NewApplication(id: Id, jobId: Id, candidateId: Id, now: int): (a: Application)
    ensures ApplicationModel.Create(ApplicationInput(Some(jobId), Some(candidateId), Some("applied"), Some(now),
                                    None, None, None, None, None), id, now) == Stored(a)
    ensures a.status == "applied" && a.jobId == jobId && a.candidateId == candidateId && a.id == id
  {
    ViolationsIff(ApplicationInput(Some(jobId), Some(candidateId), Some("applied"), Some(now), None, None, None, None, None));
    Application(id, jobId, candidateId, "applied", now, None, None, None, None, None)
  }

  /** The job once its counter has gone up and it has been saved. */
  function Counted(j: Job, now: int): (r: Job)
    ensures r.applicants == Some(j.applicants.GetOr(0) + 1) && r.updatedAt == now
    ensures r.(applicants := j.applicants, updatedAt := j.updatedAt) == j
  {
    JobModel.PreSave(j.(applicants := Some(j.applicants.GetOr(0) + 1)), now)
  }

  /** An accepted request never creates a second application for the same pair. */
  lemma AcceptKeepsApplicationsUnique(jobs: seq<Job>, users: seq<User>, apps: seq<Application>,
                                      jobId: IdParam, candidateId: IdParam, id: Id, now: int)
    requires NoDuplicateApplications(apps)
    requires Decide(jobs, users, apps, jobId, candidateId).Accept?
    ensures NoDuplicateApplications(apps + [NewApplication(id, jobId.id, candidateId.id, now)])
  {
    AppendNewPair(apps, NewApplication(id, jobId.id, candidateId.id, now));
  }

  /** Counting an applicant keeps a job within its schema. */
  lemma CountedValid(j: Job, now: int)
    requires JobModel.Valid(j)
    ensures JobModel.Valid(Counted(j, now)) && Counted(j, now).id == j.id
  {
    assert Counted(j, now) == j.(updatedAt := now, applicants := Some(j.applicants.GetOr(0) + 1));
    ValidIgnoresBookkeeping(j, now, Some(j.applicants.GetOr(0) + 1));
  }

  /** Storing an application for a new pair and counting it on its job keeps the database consistent. */
  lemma AcceptKeepsConsistent(users: seq<User>, jobs: seq<Job>, apps: seq<Application>,
                              summaries: seq<CVSummaryModel.CVSummary>, nextId: Id, k: nat, a: Application, now: int)
    requires Consistent(users, jobs, apps, summaries, nextId)
    requires k < |jobs| && a.id == nextId
    requires ApplicationFor(apps, a.jobId, a.candidateId).None?
    ensures Consistent(users, jobs[k := Counted(jobs[k], now)], apps + [a], summaries, nextId + 1)
  {
    AppendNewPair(apps, a);
    CountedValid(jobs[k], now);
    var jobs' := jobs[k := Counted(jobs[k], now)];
    forall i | 0 <= i < |jobs'|
      ensures jobs'[i].id < nextId + 1 && JobModel.Valid(jobs'[i])
    {
      if i != k {
        assert jobs'[i] == jobs[i];
      }
    }
    var apps' := apps + [a];
    forall i | 0 <= i < |apps'|
      ensures apps'[i].id < nextId + 1
    {
      if i < |apps| {
        assert apps'[i] == apps[i];
      }
    }
  }

  /** Loads the job document, counts the applicant on it and saves it. */
  method RecordApplicant(job: Job, now: int) returns (saved: Job)
    ensures saved == Counted(job, now)
    ensures saved.applicants == Some(job.applicants.GetOr(0) + 1)
  {
    var doc := new JobDocument.Loaded(job);
    doc.CountApplicant();
    doc.Save(now);
    saved := doc.record;
  }

  /** Stores the application for a new pair and counts it on the job at index `k`. */
  method Apply(db: Store, k: nat, jobId: Id, candidateId: Id, now: int) returns (r: Response<Reply>)
    requires db.Valid() && k < |db.jobs|
    requires ApplicationFor(db.applications, jobId, candidateId).None?
    modifies db
    ensures db.Valid() && db.nextId == old(db.nextId) + 1
    ensures db.users == old(db.users) && db.summaries == old(db.summaries)
    ensures db.applications == old(db.applications) + [NewApplication(old(db.nextId), jobId, candidateId, now)]
    ensures db.jobs == old(db.jobs)[k := Counted(old(db.jobs)[k], now)]
    ensures r == Json(201, Submitted("Application submitted successfully", old(db.nextId),
                                     old(db.jobs)[k].title, old(db.jobs)[k].department, now))
  {
    AcceptKeepsConsistent(db.users, db.jobs, db.applications, db.summaries, db.nextId, k,
                          NewApplication(db.nextId, jobId, candidateId, now), now);
    var id := db.FreshId();
    db.applications := db.applications + [NewApplication(id, jobId, candidateId, now)];
    var job := RecordApplicant(db.jobs[k], now);
    db.jobs := db.jobs[k := job];
    r := Json(201, Submitted("Application submitted successfully", id, job.title, job.department, now));
  }

  /** The handler. */
  method Submit(db: Store, jobId: IdParam, candidateId: IdParam, now: int) returns (r: Response<Reply>)
    requires db.Valid()
    modifies db
    ensures db.Valid()
    ensures db.users == old(db.users) && db.summaries == old(db.summaries)
    ensures match Decide(old(db.jobs), old(db.users), old(db.applications), jobId, candidateId)
      case Refuse(response) =>
        && r == response
        && db.jobs == old(db.jobs) && db.applications == old(db.applications) && db.nextId == old(db.nextId)
      case Accept(k, job, candidate) =>
        && db.applications == old(db.applications) + [NewApplication(old(db.nextId), job, candidate, now)]
        && db.jobs == old(db.jobs)[k := Counted(old(db.jobs)[k], now)]
        && r == Json(201, Submitted("Application submitted successfully", old(db.nextId),
                                    old(db.jobs)[k].title, old(db.jobs)[k].department, now))
  {
    var d := Decide(db.jobs, db.users, db.applications, jobId, candidateId);
    if d.Refuse? {
      r := d.response;
    } else {
      r := Apply(db, d.jobIndex, d.jobId, d.candidateId, now);
    }
  }
}
