/**
 * GET and POST /api/jobs (app/api/jobs/route.ts). GET builds a Mongo query from the
 * `status`, `department` and `search` parameters one field at a time, then lists the
 * matching jobs newest first; POST stores one new job.
 */
module JobsRoute {
  import opened Wrappers
  import opened Ids
  import opened Text
  import opened Seqs
  import opened Validation
  import opened JobModel
  import opened Database

  /** The query object: a field is present only when its parameter was given. */
  datatype JobQuery = JobQuery(status: Option<string>, department: Option<string>, search: Option<string>)

  /** Mongo's reading of the query; a `$regex` with option "i" is taken as a case-insensitive substring. */
  predicate Matches(q: JobQuery, j: Job) {
    && (q.status.Some? ==> j.status == q.status.value)
    && (q.department.Some? ==> j.department == q.department.value)
    && (q.search.Some? ==>
          || ContainsIgnoringCase(j.title, q.search.value)
          || ContainsIgnoringCase(j.companyName, q.search.value)
          || ContainsIgnoringCase(j.description, q.search.value))
  }

  /** Which jobs the parameters ask for: each non-empty parameter is one more condition. */
  predicate Listed(j: Job, status: string, department: string, search: string) {
    && (status == "" || j.status == status)
    && (department == "" || j.department == department)
    && (search == "" || ContainsIgnoringCase(j.title, search) || ContainsIgnoringCase(j.companyName, search)
                     || ContainsIgnoringCase(j.description, search))
  }

  /** `let query = {}` followed by the three conditional assignments. */
  method BuildQuery(status: string, department: string, search: string) returns (q: JobQuery)
    ensures q.status.Some? <==> status != ""
    ensures q.department.Some? <==> department != ""
    ensures q.search.Some? <==> search != ""
    ensures forall j :: Matches(q, j) <==> Listed(j, status, department, search)
  {
    q := JobQuery(None, None, None);
    if status != "" {
      q := q.(status := Some(status));
    }
    if department != "" {
      q := q.(department := Some(department));
    }
    if search != "" {
      q := q.(search := Some(search));
    }
  }

  /** `sort({ createdAt: -1 })`. */
  predicate NewestFirst(s: seq<Job>) {
    forall i, k :: 0 <= i < k < |s| ==> s[i].createdAt >= s[k].createdAt
  }

  /** Places `j` before the first job that is not newer than it. */
  function InsertByDate(j: Job, s: seq<Job>): (r: seq<Job>)
    ensures multiset(r) == multiset(s) + multiset{j}
    ensures |r| == |s| + 1
    ensures s != [] ==> r[0] == j || r[0] == s[0]
  {
    if s == [] then [j]
    else if j.createdAt >= s[0].createdAt then [j] + s
    else
      assert s == [s[0]] + s[1..];
      [s[0]] + InsertByDate(j, s[1..])
  }

  /** Inserting into a list sorted newest first keeps it sorted. */
  lemma {:induction false} InsertKeepsNewestFirst(j: Job, s: seq<Job>)
    requires NewestFirst(s)
    ensures NewestFirst(InsertByDate(j, s))
  {
    if s != [] && j.createdAt < s[0].createdAt {
      InsertKeepsNewestFirst(j, s[1..]);
      var rest := InsertByDate(j, s[1..]);
      assert rest[0].createdAt <= s[0].createdAt;
      assert InsertByDate(j, s) == [s[0]] + rest;
    }
  }

  /** The jobs, newest first. */
  function SortByNewest(s: seq<Job>): (r: seq<Job>)
    ensures NewestFirst(r)
    ensures multiset(r) == multiset(s)
    ensures |r| == |s|
  {
    if s == [] then []
    else
      assert s == [s[0]] + s[1..];
      var sorted := SortByNewest(s[1..]);
      InsertKeepsNewestFirst(s[0], sorted);
      InsertByDate(s[0], sorted)
  }

  /** GET: the jobs the query selects, newest first. The store is only read. */
  method GetJobs(db: Store, status: string, department: string, search: string) returns (r: seq<Job>)
    ensures NewestFirst(r)
    ensures multiset(r) == multiset(Filter(db.jobs, (j: Job) => Listed(j, status, department, search)))
    ensures forall i :: 0 <= i < |r| ==> r[i] in db.jobs && Listed(r[i], status, department, search)
    ensures forall i :: 0 <= i < |db.jobs| && Listed(db.jobs[i], status, department, search) ==> db.jobs[i] in r
  {
    var q := BuildQuery(status, department, search);
    var found := Filter(db.jobs, (j: Job) => Matches(q, j));
    assert found == Filter(db.jobs, (j: Job) => Listed(j, status, department, search)) by {
      FilterSame(db.jobs, (j: Job) => Matches(q, j), (j: Job) => Listed(j, status, department, search));
    }
    r := SortByNewest(found);
    forall i | 0 <= i < |r|
      ensures r[i] in db.jobs && Listed(r[i], status, department, search)
    {
      assert r[i] in multiset(found);
    }
    forall i | 0 <= i < |db.jobs| && Listed(db.jobs[i], status, department, search)
      ensures db.jobs[i] in r
    {
      assert db.jobs[i] in multiset(r);
    }
  }

  /** Filters by predicates that agree select the same elements. */
  lemma {:induction false} FilterSame(s: seq<Job>, p: Job -> bool, p': Job -> bool)
    requires forall j :: p(j) == p'(j)
    ensures Filter(s, p) == Filter(s, p')
  {
    if s != [] {
      FilterSame(s[1..], p, p');
    }
  }

  /** Without parameters GET lists every stored job. */
  lemma NoParametersListEverything(jobs: seq<Job>)
    ensures Filter(jobs, (j: Job) => Listed(j, "", "", "")) == jobs
  {
    FilterAll(jobs, (j: Job) => Listed(j, "", "", ""));
  }

  datatype Reply = Created(job: Job) | Failure(violations: seq<Violation>)

  /** POST: `new Job(jobData).save()`; 201 with the stored job, or 500 with the schema's errors. */
  method PostJob(db: Store, input: JobInput, now: int) returns (status: nat, reply: Reply)
    requires db.Valid()
    modifies db
    ensures db.Valid()
    ensures db.users == old(db.users) && db.applications == old(db.applications) && db.summaries == old(db.summaries)
    ensures match Create(input, old(db.nextId), now)
      case Stored(job) =>
        status == 201 && reply == Created(job) && db.jobs == old(db.jobs) + [job] && db.nextId == old(db.nextId) + 1
      case Invalid(violations) =>
        status == 500 && reply == Failure(violations) && db.jobs == old(db.jobs) && db.nextId == old(db.nextId)
  {
    match Create(input, db.nextId, now)
    case Invalid(violations) =>
      status, reply := 500, Failure(violations);
    case Stored(job) =>
      AppendJobKeepsConsistent(db.users, db.jobs, db.applications, db.summaries, db.nextId, job);
      var id := db.FreshId();
      db.jobs := db.jobs + [job];
      status, reply := 201, Created(job);
  }

  /** A valid job with a fresh id keeps the database consistent. */
  lemma AppendJobKeepsConsistent(users: seq<UserModel.User>, jobs: seq<Job>, apps: seq<ApplicationModel.Application>,
                                 summaries: seq<CVSummaryModel.CVSummary>, nextId: Id, job: Job)
    requires Consistent(users, jobs, apps, summaries, nextId)
    requires job.id == nextId && JobModel.Valid(job)
    ensures Consistent(users, jobs + [job], apps, summaries, nextId + 1)
  {
    var jobs' := jobs + [job];
    forall i | 0 <= i < |jobs'|
      ensures jobs'[i].id < nextId + 1 && JobModel.Valid(jobs'[i])
    {
      if i < |jobs| { assert jobs'[i] == jobs[i]; }
    }
  }
}
