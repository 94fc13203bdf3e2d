/**
 * The document database the route handlers share, as in-memory collections. The order
 * of each sequence is insertion order, the order in which `findOne` meets documents.
 */
module Database {
  import opened Wrappers
  import opened Ids
  import opened Seqs
  import opened UserModel
  import opened JobModel
  import opened ApplicationModel
  import opened CVSummaryModel

  /** The unique index on `email`. */
  ghost predicate UniqueEmails(users: seq<User>) {
    forall i, j :: 0 <= i < j < |users| ==> users[i].email != users[j].email
  }

  predicate SamePair(a: Application, jobId: Id, candidateId: Id) {
    a.jobId == jobId && a.candidateId == candidateId
  }

  /** No candidate has applied twice to the same job. */
  ghost predicate NoDuplicateApplications(apps: seq<Application>) {
    forall i, j :: 0 <= i < j < |apps| ==> !SamePair(apps[j], apps[i].jobId, apps[i].candidateId)
  }

  /** `User.findById(id)`. */
  function UserById(users: seq<User>, id: Id): (r: Option<nat>)
    ensures r.Some? ==> r.value < |users| && users[r.value].id == id
    ensures r.None? <==> forall k :: 0 <= k < |users| ==> users[k].id != id
  {
    FindFirst(users, (u: User) => u.id == id)
  }

  /** `User.findOne({ email })`. */
  function UserByEmail(users: seq<User>, email: string): (r: Option<nat>)
    ensures r.Some? ==> r.value < |users| && users[r.value].email == email
    ensures r.None? <==> forall k :: 0 <= k < |users| ==> users[k].email != email
  {
    FindFirst(users, (u: User) => u.email == email)
  }

  /** `Job.findById(id)`. */
  function JobById(jobs: seq<Job>, id: Id): (r: Option<nat>)
    ensures r.Some? ==> r.value < |jobs| && jobs[r.value].id == id
    ensures r.None? <==> forall k :: 0 <= k < |jobs| ==> jobs[k].id != id
  {
    FindFirst(jobs, (j: Job) => j.id == id)
  }

  /** `Application.findOne({ jobId, candidateId })`. */
  function ApplicationFor(apps: seq<Application>, jobId: Id, candidateId: Id): (r: Option<nat>)
    ensures r.Some? ==> r.value < |apps| && SamePair(apps[r.value], jobId, candidateId)
    ensures r.None? <==> forall k :: 0 <= k < |apps| ==> !SamePair(apps[k], jobId, candidateId)
  {
    FindFirst(apps, (a: Application) => SamePair(a, jobId, candidateId))
  }

  /** Appending an application for a pair nobody has applied with keeps the collection free of duplicates. */
  lemma {:induction false} AppendNewPair(apps: seq<Application>, a: Application)
    requires NoDuplicateApplications(apps)
    requires ApplicationFor(apps, a.jobId, a.candidateId).None?
    ensures NoDuplicateApplications(apps + [a])
  {
    var s := apps + [a];
    forall i, j | 0 <= i < j < |s|
      ensures !SamePair(s[j], s[i].jobId, s[i].candidateId)
    {
      if j == |apps| {
        assert s[i] == apps[i];
        assert !SamePair(apps[i], a.jobId, a.candidateId);
      } else {
        assert s[i] == apps[i] && s[j] == apps[j];
      }
    }
  }

  /** The invariant of the database, stated on the contents of its collections. */
  ghost predicate Consistent(users: seq<User>, jobs: seq<Job>, applications: seq<Application>,
                             summaries: seq<CVSummary>, nextId: Id)
  {
    && (forall k :: 0 <= k < |users| ==> users[k].id < nextId)
    && (forall k :: 0 <= k < |jobs| ==> jobs[k].id < nextId)
    && (forall k :: 0 <= k < |applications| ==> applications[k].id < nextId)
    && (forall k :: 0 <= k < |summaries| ==> summaries[k].id < nextId)
    && UniqueEmails(users)
    && NoDuplicateApplications(applications)
    && (forall k :: 0 <= k < |jobs| ==> JobModel.Valid(jobs[k]))
  }

  /** The collections of the database and the source of fresh ObjectIds. */
  class Store {
    var users: seq<User>
    var jobs: seq<Job>
    var applications: seq<Application>
    var summaries: seq<CVSummary>
    var nextId: Id

    /** Every id already handed out is below `nextId`; the indexes and schema rules hold. */
    ghost predicate Valid()
      reads this
    {
      Consistent(users, jobs, applications, summaries, nextId)
    }

    constructor ()
      ensures Valid()
      ensures users == [] && jobs == [] && applications == [] && summaries == [] && nextId == 0
    {
      users, jobs, applications, summaries, nextId := [], [], [], [], 0;
    }

    /** A new ObjectId, distinct from every id in the database. */
    method FreshId() returns (id: Id)
      requires Valid()
      modifies this`nextId
      ensures Valid() && id == old(nextId) && nextId == id + 1
    {
      id := nextId;
      nextId := nextId + 1;
    }
  }
}
