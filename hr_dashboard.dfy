/**
 * The HR dashboard (components/dashboard/hr-dashboard.tsx): the statistics computed from
 * the fetched jobs and applications, the shared search box, the avatar initials and the
 * status badge helpers.
 */
module HrDashboard {
  import opened Wrappers
  import opened Ids
  import opened Text
  import opened Seqs
  import opened JobModel

  /** An application as the dashboard receives it: the candidate and the job are populated. */
  datatype ListedApplication = ListedApplication(
    id: Id,
    status: string,
    interviewDate: Option<string>,
    candidateName: string,
    jobTitle: Option<string>)

  datatype Stats = Stats(totalJobs: nat, activeJobs: nat, totalApplicants: int, scheduledInterviews: nat)

  const InitialStats: Stats := Stats(0, 0, 0, 0)

  predicate IsActive(j: Job) { j.status == "active" }

  /** `job.applicants || 0`. */
  function ApplicantsOf(j: Job): int { j.applicants.GetOr(0) }

  /** An interview is scheduled when the status says so and a date is set. */
  predicate IsScheduled(a: ListedApplication) {
    a.status == "interview" && a.interviewDate.Some? && a.interviewDate.value != ""
  }

  /** The `setStats` of `fetchJobs`: the three job figures, the interview figure kept. */
  function WithJobStats(prev: Stats, jobs: seq<Job>): (s: Stats)
    ensures s.totalJobs == |jobs| && s.scheduledInterviews == prev.scheduledInterviews
    ensures s.activeJobs <= s.totalJobs
    ensures (forall i :: 0 <= i < |jobs| ==> jobs[i].applicants.GetOr(0) >= 0) ==> s.totalApplicants >= 0
    ensures jobs == [] ==> s.activeJobs == 0 && s.totalApplicants == 0
  {
    CountIsFilterLength(jobs, IsActive);
    ApplicantsNonNegative(jobs);
    prev.(totalJobs := |jobs|, activeJobs := Count(jobs, IsActive), totalApplicants := Sum(jobs, ApplicantsOf))
  }

  lemma ApplicantsNonNegative(jobs: seq<Job>)
    ensures (forall i :: 0 <= i < |jobs| ==> jobs[i].applicants.GetOr(0) >= 0) ==> Sum(jobs, ApplicantsOf) >= 0
  {
    if forall i :: 0 <= i < |jobs| ==> jobs[i].applicants.GetOr(0) >= 0 {
      SumNonNegative(jobs, ApplicantsOf);
    }
  }

  /** The `setStats` of `fetchApplications`: the interview figure, the job figures kept. */
  function WithInterviewStats(prev: Stats, apps: seq<ListedApplication>): (s: Stats)
    ensures s.scheduledInterviews <= |apps|
    ensures s.(scheduledInterviews := prev.scheduledInterviews) == prev
  {
    CountIsFilterLength(apps, IsScheduled);
    prev.(scheduledInterviews := Count(apps, IsScheduled))
  }

  /** The two fetches run concurrently; either order of their updates gives the same figures. */
  lemma UpdatesCommute(prev: Stats, jobs: seq<Job>, apps: seq<ListedApplication>)
    ensures WithJobStats(WithInterviewStats(prev, apps), jobs) == WithInterviewStats(WithJobStats(prev, jobs), apps)
  {
  }

  /** One more job adds one to the total, one to the active count iff it is active, and its applicants (0 if unset). */
  lemma OneMoreJob(prev: Stats, jobs: seq<Job>, j: Job)
    ensures var before := WithJobStats(prev, jobs);
      var after := WithJobStats(prev, jobs + [j]);
      && after.totalJobs == before.totalJobs + 1
      && after.activeJobs == before.activeJobs + (if j.status == "active" then 1 else 0)
      && after.totalApplicants == before.totalApplicants + j.applicants.GetOr(0)
  {
    CountAppend(jobs, [j], IsActive);
    SumAppend(jobs, [j], ApplicantsOf);
  }

  /** One more application adds one to the interview figure exactly when it is a dated interview. */
  lemma OneMoreApplication(prev: Stats, apps: seq<ListedApplication>, a: ListedApplication)
    ensures WithInterviewStats(prev, apps + [a]).scheduledInterviews
         == WithInterviewStats(prev, apps).scheduledInterviews + (if IsScheduled(a) then 1 else 0)
  {
    CountAppend(apps, [a], IsScheduled);
  }

  /** `filteredJobs`: the term in the title or the department, ignoring case. */
  predicate JobMatches(j: Job, term: string) {
    ContainsIgnoringCase(j.title, term) || ContainsIgnoringCase(j.department, term)
  }

  /** `filteredApplications`: the term in the candidate's name, or in the job's title when there is one. */
  predicate ApplicationMatches(a: ListedApplication, term: string) {
    || ContainsIgnoringCase(a.candidateName, term)
    || (a.jobTitle.Some? && a.jobTitle.value != "" && ContainsIgnoringCase(a.jobTitle.value, term))
  }

  /** An empty search box hides nothing. */
  lemma EmptySearchShowsAll(jobs: seq<Job>, apps: seq<ListedApplication>)
    ensures Filter(jobs, (j: Job) => JobMatches(j, "")) == jobs
    ensures Filter(apps, (a: ListedApplication) => ApplicationMatches(a, "")) == apps
  {
    forall i | 0 <= i < |jobs| ensures JobMatches(jobs[i], "") {
      EmptyIsEverywhere(jobs[i].title);
    }
    forall i | 0 <= i < |apps| ensures ApplicationMatches(apps[i], "") {
      EmptyIsEverywhere(apps[i].candidateName);
    }
    FilterAll(jobs, (j: Job) => JobMatches(j, ""));
    FilterAll(apps, (a: ListedApplication) => ApplicationMatches(a, ""));
  }

  /** A candidate is always found by their full name, in any case. */
  lemma FoundByOwnName(a: ListedApplication)
    ensures ApplicationMatches(a, a.candidateName)
  {
    ContainsItself(a.candidateName);
  }

  /** `n[0]` of a piece, which contributes nothing to `join("")` when the piece is empty. */
  function FirstChar(w: string): (r: string)
    ensures |r| <= 1 && (w != [] ==> r == [w[0]])
    ensures r == [] <==> w == []
  {
    if w == [] then [] else [w[0]]
  }

  function FirstChars(parts: seq<string>): (r: string)
    ensures |r| <= |parts|
    ensures (forall k :: 0 <= k < |parts| ==> parts[k] != []) ==> |r| == |parts|
    ensures (forall k :: 0 <= k < |parts| ==> parts[k] != []) ==> forall k :: 0 <= k < |r| ==> r[k] == parts[k][0]
  {
    if parts == [] then [] else FirstChar(parts[0]) + FirstChars(parts[1..])
  }

  /** The avatar fallback: `name.split(" ").map(n => n[0]).join("")`. */
  function AvatarInitials(name: string): (r: string)
    ensures ' ' !in r
    ensures |r| <= |name|
  {
    var parts := Split(name, ' ');
    InitialsWithoutSpaces(parts);
    SplitSize(name, ' ');
    FirstChars(parts)
  }

  lemma {:induction false} InitialsWithoutSpaces(parts: seq<string>)
    requires forall k :: 0 <= k < |parts| ==> ' ' !in parts[k]
    ensures ' ' !in FirstChars(parts)
  {
    if parts != [] {
      InitialsWithoutSpaces(parts[1..]);
    }
  }

  /** The initials take one character per non-empty piece, and the pieces hold every character but the separators. */
  lemma {:induction false} SplitSize(s: string, sep: char)
    ensures |FirstChars(Split(s, sep))| <= |s|
    decreases |s|
  {
    if s != [] {
      SplitSize(s[1..], sep);
      var rest := Split(s[1..], sep);
      if s[0] == sep {
        assert Split(s, sep) == [[]] + rest;
        assert FirstChars(Split(s, sep)) == FirstChars(rest) by {
          assert Split(s, sep)[1..] == rest;
        }
      } else {
        var parts := Split(s, sep);
        assert parts == [[s[0]] + rest[0]] + rest[1..];
        assert parts[1..] == rest[1..];
        assert rest == [rest[0]] + rest[1..];
        assert FirstChars(rest) == FirstChar(rest[0]) + FirstChars(rest[1..]);
      }
    }
  }

  /** For a name of words separated by single spaces, the avatar shows the first letter of each word. */
  lemma AvatarOfWords(words: seq<string>)
    requires |words| >= 1
    requires forall k :: 0 <= k < |words| ==> words[k] != [] && ' ' !in words[k]
    ensures |AvatarInitials(Join(words, ' '))| == |words|
    ensures forall k :: 0 <= k < |words| ==> AvatarInitials(Join(words, ' '))[k] == words[k][0]
  {
    SplitJoin(words, ' ');
  }

  /** `getStatusVariant`. */
  function StatusVariant(status: string): (r: string)
    ensures r == "default" <==> status == "review" || status == "interview"
    ensures r == "success" <==> status == "accepted"
    ensures r == "destructive" <==> status == "rejected"
    ensures r in {"secondary", "default", "success", "destructive"}
  {
    match status
    case "applied" => "secondary"
    case "review" => "default"
    case "interview" => "default"
    case "accepted" => "success"
    case "rejected" => "destructive"
    case _ => "secondary"
  }

  /** `formatStatus`: the first character upper-cased, the rest kept. */
  function FormatStatus(status: string): (r: string)
    ensures |r| == |status|
    ensures status != [] ==> r[0] == UpperChar(status[0]) && r[1..] == status[1..]
  {
    if status == [] then [] else [UpperChar(status[0])] + status[1..]
  }

  /** Formatting a formatted status changes nothing. */
  lemma FormatStatusIdempotent(status: string)
    ensures FormatStatus(FormatStatus(status)) == FormatStatus(status)
  {
    if status != [] {
      var once := FormatStatus(status);
      assert UpperChar(UpperChar(status[0])) == UpperChar(status[0]);
      assert once[1..] == status[1..];
    }
  }
}
