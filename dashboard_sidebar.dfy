/**
 * The HR dashboard's sidebar (components/dashboard/dashboard-sidebar.tsx): the
 * role-gated profile load, which navigation entry is highlighted, and the avatar and
 * text fallbacks of its footer.
 */
module DashboardSidebar {
  import opened Wrappers
  import opened Http
  import opened Text
  import AuthContext
  import HrProfileRoute
  import UserModel
  import Session
  import Database

  /** The fields of the loaded profile the sidebar shows; a missing field is "". */
  datatype HrData = HrData(name: string, company: string)

  datatype SidebarState = SidebarState(hrData: Option<HrData>, isLoading: bool)

  const InitialSidebar: SidebarState := SidebarState(None, true)

  /** The object the sidebar keeps from an ok reply: a profile, or an error body without those fields. */
  function DataOf(body: HrProfileRoute.Reply): (d: HrData)
    ensures body.Found? ==> d.name == body.profile.name && d.company == body.profile.company.GetOr("")
    ensures body.Failure? ==> d == HrData("", "")
  {
    match body
    case Found(p) => HrData(p.name, p.company.GetOr(""))
    case Failure(_) => HrData("", "")
  }

  /**
   * `fetchHrData`, run whenever the user changes: only an HR user triggers the request
   * (`reply` is its answer, None when it threw); a failure keeps the previous data.
   */
  function FetchHrData(user: Option<AuthContext.ClientUser>, prev: Option<HrData>,
                       reply: Option<Response<HrProfileRoute.Reply>>): (s: SidebarState)
    ensures !s.isLoading
    ensures !(user.Some? && user.value.role == "hr") ==> s.hrData == prev
    ensures reply.None? || !(200 <= reply.value.status <= 299) ==> s.hrData == prev
    ensures user.Some? && user.value.role == "hr" && reply.Some? && 200 <= reply.value.status <= 299 ==>
      s.hrData == Some(DataOf(reply.value.body))
  {
    if user.None? || user.value.role != "hr" then SidebarState(prev, false)
    else if reply.None? || !(200 <= reply.value.status <= 299) then SidebarState(prev, false)
    else SidebarState(Some(DataOf(reply.value.body)), false)
  }

  /** An HR user's sidebar shows the name and company stored for the user the session cookie names. */
  lemma ShowsStoredProfile(users: seq<UserModel.User>, cookie: Option<string>,
                           verify: string -> Session.Verdict, user: AuthContext.ClientUser)
    requires user.role == "hr"
    requires HrProfileRoute.GetProfile(users, cookie, verify).status == 200
    ensures var s := FetchHrData(Some(user), None, Some(HrProfileRoute.GetProfile(users, cookie, verify)));
      var id := HrProfileRoute.LookedUp(cookie, verify).value;
      var k := Database.UserById(users, id).value;
      s.hrData == Some(HrData(users[k].name, users[k].company.GetOr("")))
  {
  }

  /** A user who is not HR never has profile data, and the first load ends at once. */
  lemma NonHrHasNoProfile(user: Option<AuthContext.ClientUser>, reply: Option<Response<HrProfileRoute.Reply>>)
    requires !(user.Some? && user.value.role == "hr")
    ensures FetchHrData(user, InitialSidebar.hrData, reply) == SidebarState(None, false)
  {
  }

  function NameOf(d: Option<HrData>): string {
    if d.Some? then d.value.name else ""
  }

  /** `getNameInitials`: the first letter, uppercased, of the profile's name, else of the user's name, else "HR". */
  function NameInitials(hrData: Option<HrData>, user: Option<AuthContext.ClientUser>): (r: string)
    ensures NameOf(hrData) != "" ==> r == [UpperChar(NameOf(hrData)[0])]
    ensures NameOf(hrData) == "" && user.Some? && user.value.name != "" ==> r == [UpperChar(user.value.name[0])]
    ensures NameOf(hrData) == "" && !(user.Some? && user.value.name != "") ==> r == "HR"
    ensures forall k :: 0 <= k < |r| ==> !('a' <= r[k] <= 'z')
  {
    if NameOf(hrData) != "" then [UpperChar(NameOf(hrData)[0])]
    else if user.Some? && user.value.name != "" then [UpperChar(user.value.name[0])]
    else "HR"
  }

  /** The footer's first line: "Loading...", then the profile's name, the user's name, or "HR User". */
  function DisplayName(isLoading: bool, hrData: Option<HrData>, user: Option<AuthContext.ClientUser>): (r: string)
    ensures isLoading ==> r == "Loading..."
    ensures !isLoading && NameOf(hrData) != "" ==> r == NameOf(hrData)
    ensures !isLoading && NameOf(hrData) == "" && user.Some? && user.value.name != "" ==> r == user.value.name
    ensures !isLoading && NameOf(hrData) == "" && !(user.Some? && user.value.name != "") ==> r == "HR User"
  {
    if isLoading then "Loading..."
    else if NameOf(hrData) != "" then NameOf(hrData)
    else if user.Some? && user.value.name != "" then user.value.name
    else "HR User"
  }

  /** The footer's second line: nothing while loading, then the profile's company, the user's, or "HR Manager". */
  function DisplayCompany(isLoading: bool, hrData: Option<HrData>, user: Option<AuthContext.ClientUser>): (r: string)
    ensures isLoading ==> r == ""
    ensures !isLoading && hrData.Some? && hrData.value.company != "" ==> r == hrData.value.company
    ensures !isLoading && !(hrData.Some? && hrData.value.company != "") ==>
      r == (if user.Some? && user.value.company.Some? && user.value.company.value != ""
            then user.value.company.value else "HR Manager")
  {
    if isLoading then ""
    else if hrData.Some? && hrData.value.company != "" then hrData.value.company
    else if user.Some? && user.value.company.Some? && user.value.company.value != "" then user.value.company.value
    else "HR Manager"
  }

  /** Once loaded, the footer always shows a name and a company, and the avatar's letter is that of the shown name. */
  lemma FooterAgreesWithAvatar(hrData: Option<HrData>, user: Option<AuthContext.ClientUser>)
    ensures DisplayName(false, hrData, user) != "" && DisplayCompany(false, hrData, user) != ""
    ensures NameInitials(hrData, user) == "HR" ==> DisplayName(false, hrData, user) == "HR User"
    ensures NameInitials(hrData, user) != "HR" ==>
      NameInitials(hrData, user) == [UpperChar(DisplayName(false, hrData, user)[0])]
  {
  }

  const OverviewPath: string := "/hr-dashboard"
  const JobsPath: string := "/hr-dashboard/jobs"
  const CandidatesPath: string := "/hr-dashboard/candidates"
  const InterviewsPath: string := "/hr-dashboard/interviews"
  const SettingsPath: string := "/hr-dashboard/settings"

  /** A section entry is highlighted on its own page and on every page below it. */
  predicate IsSectionActive(pathname: string, section: string) {
    pathname == section || StartsWith(pathname, section + "/")
  }

  /** The overview entry is highlighted on the dashboard's root only. */
  predicate IsOverviewActive(pathname: string) {
    pathname == OverviewPath
  }

  /** Highlighting follows whole path segments: a longer segment with the same start does not count. */
  lemma SectionActiveBySegment(section: string, suffix: string)
    ensures IsSectionActive(section + suffix, section) <==> suffix == "" || suffix[0] == '/'
  {
    var p := section + suffix;
    if suffix != "" && suffix[0] == '/' {
      assert p[..|section + "/"|] == section + "/";
    }
    if StartsWith(p, section + "/") {
      assert p[|section|] == (section + "/")[|section|];
    }
    if p == section {
      assert |suffix| == 0;
    }
  }

  /** "/hr-dashboard/jobsX" highlights no entry, although it starts with the jobs path. */
  lemma LongerSegmentNotActive()
    ensures StartsWith("/hr-dashboard/jobsX", JobsPath)
    ensures !IsSectionActive("/hr-dashboard/jobsX", JobsPath)
  {
    SectionActiveBySegment(JobsPath, "X");
    assert "/hr-dashboard/jobsX" == JobsPath + "X";
  }

  /** No path highlights two entries of the sidebar. */
  lemma AtMostOneEntryActive(pathname: string)
    ensures IsOverviewActive(pathname) ==>
      !IsSectionActive(pathname, JobsPath) && !IsSectionActive(pathname, CandidatesPath)
      && !IsSectionActive(pathname, InterviewsPath) && !IsSectionActive(pathname, SettingsPath)
    ensures IsSectionActive(pathname, JobsPath) ==>
      !IsSectionActive(pathname, CandidatesPath) && !IsSectionActive(pathname, InterviewsPath)
      && !IsSectionActive(pathname, SettingsPath)
    ensures IsSectionActive(pathname, CandidatesPath) ==>
      !IsSectionActive(pathname, InterviewsPath) && !IsSectionActive(pathname, SettingsPath)
    ensures IsSectionActive(pathname, InterviewsPath) ==> !IsSectionActive(pathname, SettingsPath)
  {
    // Every section path continues "/hr-dashboard/" with a different letter at position 14.
    SectionsDiffer(pathname, JobsPath, CandidatesPath, 14);
    SectionsDiffer(pathname, JobsPath, InterviewsPath, 14);
    SectionsDiffer(pathname, JobsPath, SettingsPath, 14);
    SectionsDiffer(pathname, CandidatesPath, InterviewsPath, 14);
    SectionsDiffer(pathname, CandidatesPath, SettingsPath, 14);
    SectionsDiffer(pathname, InterviewsPath, SettingsPath, 14);
  }

  /** Two sections whose paths differ at a position both have are never highlighted together. */
  lemma SectionsDiffer(pathname: string, p: string, q: string, i: nat)
    requires i < |p| && i < |q| && p[i] != q[i]
    ensures !(IsSectionActive(pathname, p) && IsSectionActive(pathname, q))
  {
    if IsSectionActive(pathname, p) {
      if pathname != p {
        assert pathname[i] == (p + "/")[i];
      }
      assert pathname[i] == p[i];
    }
  }
}
