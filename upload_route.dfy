/**
 * POST /api/upload (app/api/upload/route.ts): stores a finished CV summary for a name
 * and a role, with no file behind it.
 */
module UploadRoute {
  import opened Wrappers
  import opened Ids
  import opened Http
  import opened Validation
  import opened CVSummaryModel
  import opened Database

  datatype Reply = Failure(error: string) | SchemaError(violations: seq<Violation>) | Uploaded(summary: string)

  const MissingFields: string := "Missing required fields"

  /** The document the route creates: no file path, already completed. */
  function Entry(name: string, role: string, summary: string): (c: CVSummaryInput)
    ensures c.filePath == "N/A" && c.status == Some("completed") && c.summary == Some(summary)
    ensures c.name == name && c.role == role && c.error.None?
  {
    CVSummaryInput(name, role, Some(summary), "N/A", Some("completed"), None)
  }

  /** Once the three fields are present, only an overlong name or role stops the record. */
  lemma EntryValidIff(name: string, role: string, summary: string)
    requires name != "" && role != "" && summary != ""
    ensures Violations(Entry(name, role, summary)) == [] <==> |name| <= 100 && |role| <= 100
  {
    ViolationsIff(Entry(name, role, summary));
  }

  method Upload(db: Store, name: string, role: string, summary: string, now: int) returns (r: Response<Reply>)
    requires db.Valid()
    modifies db
    ensures db.Valid()
    ensures db.users == old(db.users) && db.jobs == old(db.jobs) && db.applications == old(db.applications)
    ensures name == "" || role == "" || summary == "" ==>
      r == Json(400, Failure(MissingFields)) && db.summaries == old(db.summaries) && db.nextId == old(db.nextId)
    ensures name != "" && role != "" && summary != "" ==>
      match CVSummaryModel.Create(Entry(name, role, summary), old(db.nextId), now)
      case Stored(c) =>
        && r == Json(200, Uploaded(summary))
        && db.summaries == old(db.summaries) + [c] && db.nextId == old(db.nextId) + 1
        && c.filePath == "N/A" && c.status == "completed" && c.summary == summary && c.createdAt == now
      case Invalid(violations) =>
        r == Json(500, SchemaError(violations)) && db.summaries == old(db.summaries) && db.nextId == old(db.nextId)
  {
    if name == "" || role == "" || summary == "" {
      return Json(400, Failure(MissingFields));
    }
    match CVSummaryModel.Create(Entry(name, role, summary), db.nextId, now)
    case Invalid(violations) =>
      r := Json(500, SchemaError(violations));
    case Stored(c) =>
      AppendSummaryKeepsConsistent(db.users, db.jobs, db.applications, db.summaries, db.nextId, c);
      var id := db.FreshId();
      db.summaries := db.summaries + [c];
      r := Json(200, Uploaded(c.summary));
  }

  /** A summary with a fresh id keeps the database consistent. */
  lemma AppendSummaryKeepsConsistent(users: seq<UserModel.User>, jobs: seq<JobModel.Job>,
                                     apps: seq<ApplicationModel.Application>, summaries: seq<CVSummary>,
                                     nextId: Id, c: CVSummary)
    requires Consistent(users, jobs, apps, summaries, nextId)
    requires c.id == nextId
    ensures Consistent(users, jobs, apps, summaries + [c], nextId + 1)
  {
    var summaries' := summaries + [c];
    forall i | 0 <= i < |summaries'|
      ensures summaries'[i].id < nextId + 1
    {
      if i < |summaries| { assert summaries'[i] == summaries[i]; }
    }
  }
}
