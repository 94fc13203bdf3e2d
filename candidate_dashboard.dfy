/**
 * The candidate dashboard page (app/candidate-dashboard/page.tsx): the statistics it
 * derives from the candidate's applications, interviews and mock interviews, the data
 * load, applying to a job from the page, the job search and the role gate. Every
 * `setState` is a field of the returned `Page`; requests are parameters.
 */
module CandidateDashboard {
  import opened Wrappers
  import opened Seqs
  import opened Text
  import AuthContext

  datatype Interview = Interview(id: string, jobTitle: string, companyName: string, interviewDate: int,
                                 interviewTime: string, status: string, interviewScore: Option<int>)
  datatype Application = Application(id: string, jobTitle: string, companyName: string, appliedDate: int, status: string)
  datatype Job = Job(id: string, title: string, companyName: string, department: string, location: string, jobType: string)
  datatype MockInterview = MockInterview(id: string, status: string, score: Option<int>)

  datatype Stats = Stats(upcomingInterviews: nat, activeApplications: nat, averageScore: int,
                         totalMockInterviews: nat, totalApplications: nat)

  /** The page's state, one field per `useState`. */
  datatype Page = Page(interviews: seq<Interview>, applications: seq<Application>, availableJobs: seq<Job>,
                       mockInterviews: seq<MockInterview>, stats: Stats, isPageLoading: bool,
                       selectedTab: string, fetchError: Option<string>)

  const ZeroStats: Stats := Stats(0, 0, 0, 0, 0)
  const InitialPage: Page := Page([], [], [], [], ZeroStats, true, "interviews", None)

  // ---- calculateStats ----

  predicate Upcoming(i: Interview, now: int) { i.status == "scheduled" && i.interviewDate > now }
  predicate Active(a: Application) { a.status == "review" || a.status == "interview" }

  /** `Math.round(total / n)` for a non-empty list (halves round up), and 0 for an empty one. */
  function RoundedMean(total: int, n: nat): (m: int)
    ensures n == 0 ==> m == 0
    ensures n > 0 ==> 2 * total - n < 2 * m * n <= 2 * total + n
  {
    if n == 0 then 0
    else
      var q := (2 * total + n) / (2 * n);
      assert (2 * total + n) == q * (2 * n) + (2 * total + n) % (2 * n);
      assert 2 * q * n == q * (2 * n);
      q
  }

  /** The scores of the completed interviews and then the completed mocks; a missing score counts 0. */
  function CompletedScores(ints: seq<Interview>, mocks: seq<MockInterview>): (r: seq<int>)
    ensures |r| == Count(ints, (i: Interview) => i.status == "completed")
                 + Count(mocks, (m: MockInterview) => m.status == "completed")
    ensures var doneInts := Filter(ints, (i: Interview) => i.status == "completed");
      var doneMocks := Filter(mocks, (m: MockInterview) => m.status == "completed");
      && |r| == |doneInts| + |doneMocks|
      && (forall k :: 0 <= k < |doneInts| ==> r[k] == doneInts[k].interviewScore.GetOr(0))
      && (forall k :: 0 <= k < |doneMocks| ==> r[|doneInts| + k] == doneMocks[k].score.GetOr(0))
  {
    var doneInts := Filter(ints, (i: Interview) => i.status == "completed");
    var doneMocks := Filter(mocks, (m: MockInterview) => m.status == "completed");
    CountIsFilterLength(ints, (i: Interview) => i.status == "completed");
    CountIsFilterLength(mocks, (m: MockInterview) => m.status == "completed");
    seq(|doneInts|, k requires 0 <= k < |doneInts| => doneInts[k].interviewScore.GetOr(0))
      + seq(|doneMocks|, k requires 0 <= k < |doneMocks| => doneMocks[k].score.GetOr(0))
  }

  /** `calculateStats(apps, ints, mocks)` at time `now`. */
  function CalculateStats(apps: seq<Application>, ints: seq<Interview>, mocks: seq<MockInterview>, now: int): (r: Stats)
    ensures r.totalApplications == |apps| && r.totalMockInterviews == |mocks|
    ensures r.activeApplications <= r.totalApplications
    ensures r.upcomingInterviews <= |ints|
    ensures var scores := CompletedScores(ints, mocks);
      && (scores == [] ==> r.averageScore == 0)
      && (scores != [] ==> 2 * Sum(scores, x => x) - |scores| < 2 * r.averageScore * |scores|
                                                              <= 2 * Sum(scores, x => x) + |scores|)
  {
    CountIsFilterLength(apps, Active);
    CountIsFilterLength(ints, (i: Interview) => Upcoming(i, now));
    var scores := CompletedScores(ints, mocks);
    Stats(Count(ints, (i: Interview) => Upcoming(i, now)), Count(apps, Active),
          RoundedMean(Sum(scores, x => x), |scores|), |mocks|, |apps|)
  }

  /** A rounded mean of values within 0..100 is within 0..100. */
  lemma RoundedMeanWithin(total: int, n: nat)
    requires 0 <= total <= 100 * n
    ensures 0 <= RoundedMean(total, n) <= 100
  {
    var m := RoundedMean(total, n);
    ScaleOutside(m, n);
  }

  /** A mean below 0 or above 100, scaled by the count, lies outside the bounds of the total. */
  lemma ScaleOutside(m: int, n: nat)
    ensures m <= -1 ==> 2 * m * n <= -2 * n
    ensures m >= 101 ==> 2 * m * n >= 202 * n
  {
    assert 2 * m * n == 2 * (m * n);
  }

  /** Scores within 0..100 stay within 0..100 once the completed ones are collected. */
  lemma CompletedScoresWithin(ints: seq<Interview>, mocks: seq<MockInterview>)
    requires forall k :: 0 <= k < |ints| && ints[k].interviewScore.Some? ==> 0 <= ints[k].interviewScore.value <= 100
    requires forall k :: 0 <= k < |mocks| && mocks[k].score.Some? ==> 0 <= mocks[k].score.value <= 100
    ensures forall k :: 0 <= k < |CompletedScores(ints, mocks)| ==> 0 <= CompletedScores(ints, mocks)[k] <= 100
  {
    var scores := CompletedScores(ints, mocks);
    var doneInts := Filter(ints, (i: Interview) => i.status == "completed");
    var doneMocks := Filter(mocks, (m: MockInterview) => m.status == "completed");
    forall k | 0 <= k < |scores| ensures 0 <= scores[k] <= 100 {
      if k < |doneInts| {
        assert doneInts[k] in ints;
      } else {
        assert doneMocks[k - |doneInts|] in mocks;
      }
    }
  }

  /** Scores within 0..100 give an average within 0..100. */
  lemma AverageWithinScoreRange(apps: seq<Application>, ints: seq<Interview>, mocks: seq<MockInterview>, now: int)
    requires forall k :: 0 <= k < |ints| && ints[k].interviewScore.Some? ==> 0 <= ints[k].interviewScore.value <= 100
    requires forall k :: 0 <= k < |mocks| && mocks[k].score.Some? ==> 0 <= mocks[k].score.value <= 100
    ensures 0 <= CalculateStats(apps, ints, mocks, now).averageScore <= 100
  {
    var scores := CompletedScores(ints, mocks);
    CompletedScoresWithin(ints, mocks);
    SumBounds(scores, x => x, 0, 100);
    RoundedMeanWithin(Sum(scores, x => x), |scores|);
  }

  /** An application only counts as active once it is under review or at interview, never when just submitted. */
  lemma SubmittedNotActive(apps: seq<Application>, a: Application, ints: seq<Interview>, mocks: seq<MockInterview>, now: int)
    requires a.status == "applied"
    ensures CalculateStats([a] + apps, ints, mocks, now).activeApplications
            == CalculateStats(apps, ints, mocks, now).activeApplications
    ensures CalculateStats([a] + apps, ints, mocks, now).totalApplications
            == CalculateStats(apps, ints, mocks, now).totalApplications + 1
  {
    assert ([a] + apps)[1..] == apps;
  }

  /** One more application raises the active count exactly when it is under review or at interview. */
  lemma OneMoreApplication(apps: seq<Application>, a: Application, ints: seq<Interview>, mocks: seq<MockInterview>, now: int)
    ensures var before := CalculateStats(apps, ints, mocks, now);
      var after := CalculateStats(apps + [a], ints, mocks, now);
      && after.activeApplications
         == before.activeApplications + (if a.status == "review" || a.status == "interview" then 1 else 0)
      && after.totalApplications == before.totalApplications + 1
      && after.upcomingInterviews == before.upcomingInterviews && after.averageScore == before.averageScore
  {
    CountAppend(apps, [a], Active);
  }

  /** One more interview raises the upcoming count exactly when it is scheduled after `now`. */
  lemma OneMoreInterview(apps: seq<Application>, ints: seq<Interview>, i: Interview, mocks: seq<MockInterview>, now: int)
    ensures CalculateStats(apps, ints + [i], mocks, now).upcomingInterviews
         == CalculateStats(apps, ints, mocks, now).upcomingInterviews
            + (if i.status == "scheduled" && i.interviewDate > now then 1 else 0)
    ensures CalculateStats(apps, ints + [i], mocks, now).activeApplications
         == CalculateStats(apps, ints, mocks, now).activeApplications
  {
    CountAppend(ints, [i], (x: Interview) => Upcoming(x, now));
  }

  // ---- fetchUserData ----

  /** One of the page's list requests: it failed or was not ok, it parsed to an array, or to something else. */
  datatype Fetched<T> = Failed | Parsed(items: seq<T>) | NotAnArray

  /** What the page keeps of a request: the array, or the empty list. */
  function Items<T>(f: Fetched<T>): (r: seq<T>)
    ensures f.Parsed? ==> r == f.items
    ensures !f.Parsed? ==> r == []
  {
    if f.Parsed? then f.items else []
  }

  const JobsFailed: string := "Failed to load job listings. Please try again later."

  /**
   * `fetchUserData` as written: the lists are replaced by the fetched ones, but the
   * statistics are computed from the lists the handler's closure captured, that is, the
   * state before the load.
   */
  function FetchUserDataAsWritten(p: Page, apps: Fetched<Application>, ints: Fetched<Interview>,
                                  mocks: Fetched<MockInterview>, jobs: Fetched<Job>, now: int): (r: Page)
    ensures r.applications == Items(apps) && r.interviews == Items(ints)
    ensures r.mockInterviews == Items(mocks) && r.availableJobs == Items(jobs)
    ensures r.stats == CalculateStats(p.applications, p.interviews, p.mockInterviews, now)
    ensures !r.isPageLoading && r.selectedTab == p.selectedTab
    ensures r.fetchError == (if jobs.Failed? then Some(JobsFailed) else None)
  {
    p.(applications := Items(apps), interviews := Items(ints), mockInterviews := Items(mocks),
       availableJobs := Items(jobs), fetchError := if jobs.Failed? then Some(JobsFailed) else None,
       stats := CalculateStats(p.applications, p.interviews, p.mockInterviews, now), isPageLoading := false)
  }

  /** The first load, with one application under review, shows no applications at all in the statistics. */
  lemma StaleStatsOnFirstLoad(a: Application, now: int)
    requires a.status == "review"
    ensures var r := FetchUserDataAsWritten(InitialPage, Parsed([a]), Parsed([]), Parsed([]), Parsed([]), now);
      && r.applications == [a]
      && r.stats.totalApplications == 0 && r.stats.activeApplications == 0
      && r.stats != CalculateStats(r.applications, r.interviews, r.mockInterviews, now)
  {
    assert CalculateStats([a], [], [], now).activeApplications == 1;
  }

  /** `fetchUserData` computing the statistics from the lists it has just loaded. */
  function FetchUserData(p: Page, apps: Fetched<Application>, ints: Fetched<Interview>,
                         mocks: Fetched<MockInterview>, jobs: Fetched<Job>, now: int): (r: Page)
    ensures r == FetchUserDataAsWritten(p, apps, ints, mocks, jobs, now)
                   .(stats := CalculateStats(Items(apps), Items(ints), Items(mocks), now))
  {
    var loaded := Items(apps);
    p.(applications := loaded, interviews := Items(ints), mockInterviews := Items(mocks),
       availableJobs := Items(jobs), fetchError := if jobs.Failed? then Some(JobsFailed) else None,
       stats := CalculateStats(loaded, Items(ints), Items(mocks), now), isPageLoading := false)
  }

  /** After a load the statistics describe the lists the page shows, whatever it showed before. */
  lemma LoadedStatsAgree(p: Page, apps: Fetched<Application>, ints: Fetched<Interview>,
                         mocks: Fetched<MockInterview>, jobs: Fetched<Job>, now: int)
    ensures var r := FetchUserData(p, apps, ints, mocks, jobs, now);
      && r.stats == CalculateStats(r.applications, r.interviews, r.mockInterviews, now)
      && r.stats.totalApplications == |Items(apps)|
      && r.stats.totalMockInterviews == |Items(mocks)|
  {
  }

  /** A failed list request empties that list; only the jobs request reports an error. */
  lemma FailuresEmptyLists(p: Page, now: int)
    ensures var r := FetchUserData(p, Failed, Failed, Failed, Failed, now);
      && r.applications == [] && r.interviews == [] && r.mockInterviews == [] && r.availableJobs == []
      && r.stats == ZeroStats && r.fetchError == Some(JobsFailed)
  {
  }

  // ---- handleApplyToJob ----

  /** The parsed reply body: its `error` and `applicationId` ("" when absent), or a body that is not JSON. */
  datatype ApplyBody = Body(error: string, applicationId: string) | Unparseable

  /** The outcome of the POST to /api/applications. */
  datatype ApplyReply = Threw(message: string) | Answered(status: int, body: ApplyBody)

  /** `data?.error`, where a reply that fails to parse reads as the error "Invalid response format". */
  function ErrorOf(b: ApplyBody): (r: string)
    ensures b.Unparseable? ==> r == "Invalid response format"
    ensures b.Body? ==> r == b.error
  {
    if b.Unparseable? then "Invalid response format" else b.error
  }

  /** `data?.applicationId`: none ("") when the reply fails to parse. */
  function ApplicationIdOf(b: ApplyBody): (r: string)
    ensures b.Unparseable? ==> r == ""
    ensures b.Body? ==> r == b.applicationId
  {
    if b.Unparseable? then "" else b.applicationId
  }

  /** What the handler does besides updating the page: whether it sent the request, what it alerted, where it went. */
  datatype Effect = Effect(requested: bool, alert: string, navigation: Option<string>)

  datatype Applied = Applied(page: Page, effect: Effect)

  const AlreadyAppliedError: string := "You have already applied to this job"

  function JobIndex(jobs: seq<Job>, jobId: string): (r: Option<nat>)
    ensures r.Some? ==> r.value < |jobs| && jobs[r.value].id == jobId
    ensures r.None? <==> forall k :: 0 <= k < |jobs| ==> jobs[k].id != jobId
  {
    FindFirst(jobs, (j: Job) => j.id == jobId)
  }

  /** The checks made before any request: the first that fails names the message the handler alerts. */
  function Precheck(p: Page, jobId: string, user: Option<AuthContext.ClientUser>): (r: Option<string>)
    ensures r.None? <==> jobId != "" && user.Some? && user.value.id != "" && JobIndex(p.availableJobs, jobId).Some?
  {
    if jobId == "" then Some("Job ID is missing")
    else if user.None? || user.value.id == "" then Some("User is not properly authenticated")
    else if JobIndex(p.availableJobs, jobId).None? then Some("Job not found")
    else None
  }

  /** `handleApplyToJob(jobId)`; `now` is the time of the reply, `reply` the POST's outcome. */
  function ApplyToJob(p: Page, jobId: string, user: Option<AuthContext.ClientUser>, now: int, reply: ApplyReply)
    : (r: Applied)
    ensures !r.page.isPageLoading
    ensures r.effect.requested <==> Precheck(p, jobId, user).None?
  {
    var done := p.(isPageLoading := false);
    match Precheck(p, jobId, user)
    case Some(message) => Applied(done, Effect(false, message, None))
    case None =>
      var job := p.availableJobs[JobIndex(p.availableJobs, jobId).value];
      match reply
      case Threw(message) => Applied(done, Effect(true, message, None))
      case Answered(status, body) =>
        if !(200 <= status <= 299) then
          if status == 400 && ErrorOf(body) == AlreadyAppliedError then
            if ApplicationIdOf(body) != "" then
              Applied(done, Effect(true, "You have already applied to this job.", Some("/quizpage")))
            else
              Applied(done.(selectedTab := "applications"), Effect(true, "You have already applied to this job.", None))
          else
            Applied(done, Effect(true, if ErrorOf(body) != "" then ErrorOf(body) else "Failed to apply for this job", None))
        else
          var added := Application(ApplicationIdOf(body), job.title, job.companyName, now, "applied");
          var stats := p.stats.(activeApplications := p.stats.activeApplications + 1,
                                totalApplications := p.stats.totalApplications + 1);
          Applied(done.(applications := [added] + p.applications, stats := stats, selectedTab := "applications"),
                  Effect(true, "Successfully applied to " + job.title, None))
  }

  /** When a check fails nothing is sent, so the page and the alert do not depend on any reply. */
  lemma PrecheckFailureSendsNothing(p: Page, jobId: string, user: Option<AuthContext.ClientUser>,
                                    now: int, now': int, reply: ApplyReply, reply': ApplyReply)
    requires Precheck(p, jobId, user).Some?
    ensures ApplyToJob(p, jobId, user, now, reply) == ApplyToJob(p, jobId, user, now', reply')
    ensures ApplyToJob(p, jobId, user, now, reply).page == p.(isPageLoading := false)
    ensures ApplyToJob(p, jobId, user, now, reply).effect.alert == Precheck(p, jobId, user).value
  {
  }

  /**
   * A successful reply prepends one "applied" application for the chosen job and adds
   * exactly one to the active and total counters; the other lists stay as they were.
   */
  lemma SuccessfulApply(p: Page, jobId: string, user: Option<AuthContext.ClientUser>, now: int, status: int, body: ApplyBody)
    requires Precheck(p, jobId, user).None? && 200 <= status <= 299
    ensures var r := ApplyToJob(p, jobId, user, now, Answered(status, body)).page;
      && (exists k :: 0 <= k < |p.availableJobs| && p.availableJobs[k].id == jobId
            && r.applications == [Application(ApplicationIdOf(body), p.availableJobs[k].title,
                                              p.availableJobs[k].companyName, now, "applied")] + p.applications)
      && r.stats.activeApplications == p.stats.activeApplications + 1
      && r.stats.totalApplications == p.stats.totalApplications + 1
      && r.stats.upcomingInterviews == p.stats.upcomingInterviews
      && r.stats.averageScore == p.stats.averageScore
      && r.interviews == p.interviews && r.mockInterviews == p.mockInterviews && r.availableJobs == p.availableJobs
      && r.selectedTab == "applications"
  {
    var k := JobIndex(p.availableJobs, jobId).value;
    assert p.availableJobs[k].id == jobId;
  }

  /** "Already applied" never changes the lists or the statistics; it opens the quiz or the applications tab. */
  lemma AlreadyAppliedKeepsLists(p: Page, jobId: string, user: Option<AuthContext.ClientUser>, now: int, body: ApplyBody)
    requires Precheck(p, jobId, user).None? && ErrorOf(body) == AlreadyAppliedError
    ensures var r := ApplyToJob(p, jobId, user, now, Answered(400, body));
      && r.page.applications == p.applications && r.page.stats == p.stats
      && (r.effect.navigation == Some("/quizpage") <==> ApplicationIdOf(body) != "")
      && (r.effect.navigation.None? ==> r.page.selectedTab == "applications")
  {
  }

  /**
   * After a successful apply the local counter runs one ahead of what `calculateStats`
   * gives for the same lists, because a new application is "applied", not active.
   */
  lemma ApplyOvercountsActive(p: Page, jobId: string, user: Option<AuthContext.ClientUser>, now: int, body: ApplyBody)
    requires Precheck(p, jobId, user).None?
    requires p.stats == CalculateStats(p.applications, p.interviews, p.mockInterviews, now)
    ensures var r := ApplyToJob(p, jobId, user, now, Answered(201, body)).page;
      && r.stats.activeApplications == CalculateStats(r.applications, r.interviews, r.mockInterviews, now).activeApplications + 1
      && r.stats.totalApplications == CalculateStats(r.applications, r.interviews, r.mockInterviews, now).totalApplications
  {
    var r := ApplyToJob(p, jobId, user, now, Answered(201, body)).page;
    SubmittedNotActive(p.applications, r.applications[0], p.interviews, p.mockInterviews, now);
    assert r.applications == [r.applications[0]] + p.applications;
  }

  // ---- filteredJobs and the role gate ----

  predicate JobMatches(j: Job, term: string) {
    ContainsIgnoringCase(j.title, term) || ContainsIgnoringCase(j.companyName, term)
      || ContainsIgnoringCase(j.department, term)
  }

  /** `filteredJobs`: the available jobs whose title, company or department contains the search term, any case. */
  function FilteredJobs(jobs: seq<Job>, term: string): (r: seq<Job>)
    ensures forall j :: j in r <==> j in jobs && JobMatches(j, term)
  {
    Filter(jobs, (j: Job) => JobMatches(j, term))
  }

  /** An empty search lists every available job, in order. */
  lemma EmptySearchListsAll(jobs: seq<Job>)
    ensures FilteredJobs(jobs, "") == jobs
  {
    forall k | 0 <= k < |jobs| ensures JobMatches(jobs[k], "") {
      EmptyIsEverywhere(jobs[k].title);
    }
    FilterAll(jobs, (j: Job) => JobMatches(j, ""));
  }

  /** What the page renders. */
  datatype View = Skeleton | RedirectTo(path: string) | Dashboard

  /**
   * The skeleton while the session check runs and also when it found no user; a user of another
   * role is sent to the HR dashboard. The branch on the context's `error` is absent: the
   * context provides none.
   */
  function Gate(isLoading: bool, user: Option<AuthContext.ClientUser>): (v: View)
    ensures v == Dashboard <==> !isLoading && user.Some? && user.value.role == "candidate"
    ensures v == Skeleton <==> isLoading || user.None?
    ensures v.RedirectTo? <==> !isLoading && user.Some? && user.value.role != "candidate"
    ensures v.RedirectTo? ==> v.path == "/hr-dashboard"
  {
    if isLoading then Skeleton
    else if user.None? then Skeleton
    else if user.value.role != "candidate" then RedirectTo("/hr-dashboard")
    else Dashboard
  }

  /** Once the session check is over, a signed-in candidate sees the dashboard, another role is sent to the HR dashboard, and no user keeps the skeleton. */
  lemma GateAfterSessionCheck(me: AuthContext.Reply<AuthContext.AuthBody>)
    ensures var u := AuthContext.SessionFrom(me);
      && (Gate(false, u) == Dashboard <==> u.Some? && u.value.role == "candidate")
      && (u.Some? && u.value.role != "candidate" ==> Gate(false, u) == RedirectTo("/hr-dashboard"))
      && (u.None? ==> Gate(false, u) == Skeleton)
  {
  }
}
