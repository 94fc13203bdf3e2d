/**
 * The HR jobs table (components/jobs/jobs-list.tsx): the search and filter predicate,
 * the department options, the local status update after a successful request, the
 * open/close toggle and the status badge.
 */
module JobsList {
  import opened Ids
  import opened Text
  import opened Seqs
  import opened JobModel

  /** `filteredJobs`: search on title or department, then the status and department selects ("all" admits anything). */
  predicate Shown(j: Job, search: string, statusFilter: string, departmentFilter: string) {
    && (ContainsIgnoringCase(j.title, search) || ContainsIgnoringCase(j.department, search))
    && (statusFilter == "all" || j.status == statusFilter)
    && (departmentFilter == "all" || j.department == departmentFilter)
  }

  function FilteredJobs(jobs: seq<Job>, search: string, statusFilter: string, departmentFilter: string)
    : (r: seq<Job>)
    ensures |r| <= |jobs|
    ensures forall i :: 0 <= i < |r| ==> r[i] in jobs && Shown(r[i], search, statusFilter, departmentFilter)
    ensures forall i :: 0 <= i < |jobs| && Shown(jobs[i], search, statusFilter, departmentFilter) ==> jobs[i] in r
  {
    Filter(jobs, (j: Job) => Shown(j, search, statusFilter, departmentFilter))
  }

  /** With an empty search and both selects on "all" the whole list is shown. */
  lemma NoFilterShowsAll(jobs: seq<Job>)
    ensures FilteredJobs(jobs, "", "all", "all") == jobs
  {
    forall i | 0 <= i < |jobs|
      ensures Shown(jobs[i], "", "all", "all")
    {
      EmptyIsEverywhere(jobs[i].title);
    }
    FilterAll(jobs, (j: Job) => Shown(j, "", "all", "all"));
  }

  /** The shown jobs keep the order of the list: filtering a concatenation filters each part. */
  lemma FilteredKeepsOrder(a: seq<Job>, b: seq<Job>, search: string, statusFilter: string, departmentFilter: string)
    ensures FilteredJobs(a + b, search, statusFilter, departmentFilter)
         == FilteredJobs(a, search, statusFilter, departmentFilter) + FilteredJobs(b, search, statusFilter, departmentFilter)
  {
    FilterAppend(a, b, (j: Job) => Shown(j, search, statusFilter, departmentFilter));
  }

  /** The elements of `s` that do not occur before their position: a reference for `[...new Set(s)]`. */
  function FirstOccurrences(s: seq<string>): (r: seq<string>)
    ensures forall x :: x in r <==> x in s
    decreases |s|
  {
    if s == [] then []
    else
      var init := s[..|s| - 1];
      assert s == init + [s[|s| - 1]];
      FirstOccurrences(init) + (if s[|s| - 1] in init then [] else [s[|s| - 1]])
  }

  predicate Distinct(s: seq<string>) {
    forall i, k :: 0 <= i < k < |s| ==> s[i] != s[k]
  }

  /** Adding elements to a JavaScript `Set` in order: an element already present is skipped. */
  function AddAll(acc: seq<string>, s: seq<string>): (r: seq<string>)
    requires Distinct(acc)
    ensures Distinct(r)
    ensures forall x :: x in r <==> x in acc || x in s
    ensures |r| >= |acc| && r[..|acc|] == acc
    decreases |s|
  {
    if s == [] then acc
    else if s[0] in acc then AddAll(acc, s[1..])
    else AddAll(acc + [s[0]], s[1..])
  }

  function DepartmentsOf(jobs: seq<Job>): (r: seq<string>)
    ensures |r| == |jobs|
    ensures forall i :: 0 <= i < |jobs| ==> r[i] == jobs[i].department
  {
    seq(|jobs|, i requires 0 <= i < |jobs| => jobs[i].department)
  }

  /** `["all", ...new Set(jobs.map(job => job.department))]`. */
  function Departments(jobs: seq<Job>): (r: seq<string>)
    ensures |r| >= 1 && r[0] == "all"
    ensures Distinct(r[1..])
    ensures forall x :: x in r[1..] <==> exists i :: 0 <= i < |jobs| && jobs[i].department == x
  {
    var r := ["all"] + AddAll([], DepartmentsOf(jobs));
    assert r[1..] == AddAll([], DepartmentsOf(jobs));
    r
  }

  /** One more element: it joins the first occurrences exactly when it has not occurred yet. */
  lemma FirstOccurrencesSnoc(p: seq<string>, x: string)
    ensures FirstOccurrences(p + [x]) == FirstOccurrences(p) + (if x in p then [] else [x])
  {
    assert (p + [x])[..|p + [x]| - 1] == p;
  }

  /** Scanning left to right with a set gives the first occurrences, in first-occurrence order. */
  lemma {:induction false} AddAllIsFirstOccurrences(p: seq<string>, s: seq<string>)
    requires Distinct(FirstOccurrences(p))
    ensures AddAll(FirstOccurrences(p), s) == FirstOccurrences(p + s)
    decreases |s|
  {
    if s == [] {
      assert p + s == p;
    } else {
      var p' := p + [s[0]];
      assert p + s == p' + s[1..];
      FirstOccurrencesSnoc(p, s[0]);
      var fo := FirstOccurrences(p);
      if s[0] in p {
        assert s[0] in fo;
        assert FirstOccurrences(p') == fo;
        assert AddAll(fo, s) == AddAll(fo, s[1..]);
      } else {
        assert s[0] !in fo;
        assert FirstOccurrences(p') == fo + [s[0]];
        DistinctExtend(fo, s[0]);
        assert AddAll(fo, s) == AddAll(fo + [s[0]], s[1..]);
      }
      AddAllIsFirstOccurrences(p', s[1..]);
    }
  }

  lemma DistinctExtend(s: seq<string>, x: string)
    requires Distinct(s)
    ensures x !in s ==> Distinct(s + [x])
  {
  }

  /** The department options are "all" followed by each department in the order it first appears. */
  lemma DepartmentsInFirstOccurrenceOrder(jobs: seq<Job>)
    ensures Departments(jobs) == ["all"] + FirstOccurrences(DepartmentsOf(jobs))
  {
    assert FirstOccurrences([]) == [];
    AddAllIsFirstOccurrences([], DepartmentsOf(jobs));
    assert [] + DepartmentsOf(jobs) == DepartmentsOf(jobs);
  }

  /** `handleStatusChange`: after an ok response the job with that id gets the new status; otherwise nothing changes. */
  function ApplyStatusChange(jobs: seq<Job>, id: Id, newStatus: string, ok: bool): (r: seq<Job>)
    ensures |r| == |jobs|
    ensures forall i :: 0 <= i < |jobs| ==>
      r[i] == (if ok && jobs[i].id == id then jobs[i].(status := newStatus) else jobs[i])
  {
    if !ok then jobs
    else seq(|jobs|, i requires 0 <= i < |jobs| => if jobs[i].id == id then jobs[i].(status := newStatus) else jobs[i])
  }

  /** Only the status of the matching job differs; applying the same change again changes nothing more. */
  lemma StatusChangeIsLocal(jobs: seq<Job>, id: Id, newStatus: string)
    ensures var r := ApplyStatusChange(jobs, id, newStatus, true);
      && (forall i :: 0 <= i < |jobs| ==> r[i].(status := jobs[i].status) == jobs[i])
      && (forall i :: 0 <= i < |jobs| && jobs[i].id != id ==> r[i] == jobs[i])
      && ApplyStatusChange(r, id, newStatus, true) == r
  {
    var r := ApplyStatusChange(jobs, id, newStatus, true);
    var r2 := ApplyStatusChange(r, id, newStatus, true);
    assert forall i :: 0 <= i < |r| ==> r2[i] == r[i];
  }

  /** The status the row's action requests: close an active job, reopen anything else. */
  function Toggle(status: string): (r: string)
    ensures r in {"active", "closed"}
    ensures r == "closed" <==> status == "active"
  {
    if status == "active" then "closed" else "active"
  }

  /** Toggling twice restores exactly the two statuses the toggle produces; a draft is reopened, not restored. */
  lemma ToggleTwice(status: string)
    ensures Toggle(Toggle(status)) == status <==> status in {"active", "closed"}
  {
  }

  function BadgeLabel(status: string): (r: string)
    ensures r == "Active" <==> status == "active"
    ensures r == "Draft" <==> status == "draft"
    ensures r in {"Active", "Draft", "Closed"}
  {
    if status == "active" then "Active" else if status == "draft" then "Draft" else "Closed"
  }

  function BadgeVariant(status: string): (r: string)
    ensures r == "default" <==> status == "active"
    ensures r == "outline" <==> status == "draft"
    ensures r in {"default", "outline", "secondary"}
  {
    if status == "active" then "default" else if status == "draft" then "outline" else "secondary"
  }

  /** The badge's label and variant agree, and a toggled job is never shown as a draft. */
  lemma BadgeConsistent(status: string)
    ensures BadgeVariant(status) == "secondary" <==> BadgeLabel(status) == "Closed"
    ensures BadgeLabel(Toggle(status)) in {"Active", "Closed"}
  {
  }
}
