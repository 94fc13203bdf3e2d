# A verified model of the hireguru recruiting front end

This project models the core of the hireguru recruiting application, a Next.js app where
HR users publish jobs and candidates apply to them. It covers:

- The edge middleware that gates the dashboards by session role.
- The API routes: applying to a job, sign-up, login, the current user, the HR profile,
  job listing and creation, CV-summary upload and the latest summary for a role.
- The Mongoose schemas those routes save through, as field rules with their defaults and
  save-hooks.
- The client side: the job form schema, the jobs table, the HR dashboard, the candidate
  dashboard, the HR sidebar and the authentication context's state machine.

The database is a `Database.Store` class. It holds one sequence per collection, in insertion
order, plus a counter that hands out fresh ObjectIds. The routes that write to the store are
methods that modify it:

- applying to a job;
- sign-up;
- upload;
- job creation.

Each such method is stated against a pure decision function and the exact new state. Each keeps
the store's invariant `Database.Consistent`, which says:

- every id is below the counter;
- emails are unique;
- no (job, candidate) pair has applied twice;
- every stored job satisfies its schema.

Read-only routes are functions of the store. The authentication context is a class,
`AuthContext.AuthProvider`, whose `user` and `isLoading` fields its methods update. Client
pages are functions from their state and the replies they receive to their next state.

Code outside the project becomes parameters:

- The JWT verifier is `verify: string -> Verdict`, and the token signer is
  `issue: Claims -> string`.
- bcrypt is `hash` and `compare`.
- The email pattern is `emailOk`.
- The clock is an integer `now`.
- Every `fetch` is an abstract reply.

Request fields that are missing, or falsy in JavaScript, are the empty string (for the one place where a missing field behaves differently, see `SignupRoute.Decide` under "## Left out"). An ObjectId
parameter is `Absent`, `Malformed` or `Ref(id)`. A malformed id makes `findById` throw a cast
error, which the routes turn into their 500 answer.

Behaviours of the code a reader might not expect, which the model follows:

- Only `/hr-dashboard` and `/candidate-dashboard` are gated by role, so a verified session of
  either role is let into `/profile` (middleware.ts:84-86).
- Sign-up's cookie is `sameSite` strict and secure in production (lib/jwt.ts:27-33). Login's
  cookie is lax and never secure (app/api/auth/login/route.ts:50-56).
- The `/api/auth/me` answer 401 "Invalid token" cannot happen: the verifier throws instead of
  returning nothing, so an invalid token gets 500 "Failed to get user".
- The application reply's `company` field carries the job's department
  (app/api/applications/route.ts:64).

Other behaviours of the code that the model keeps:

- A session whose role is neither "hr" nor "candidate" is bounced between the two dashboards
  forever.
- Sign-up does not await setting its cookie. The model treats the cookie as set.
- Mongo gives no order to jobs with equal `createdAt`. The sort keeps them in insertion order.
- The candidate page reads an `error` field that the authentication context does not provide.
  So its redirect to /login on an authentication error never fires; the model leaves it out.

## Model

| member | source | states |
|---|---|---|
| Middleware.Middleware | middleware.ts:34-96 | public paths are forwarded; without a token the answer is a redirect to /login; the token cookie is deleted exactly when verification fails; redirects go only to /login or a dashboard |
| Middleware.ForwardIff | middleware.ts:38-51 | a request is forwarded iff its path is public, or its token verifies with a role the dashboard prefix admits |
| Middleware.NotBothDashboards | middleware.ts:74-82 | no path starts with both dashboard prefixes |
| Middleware.WrongRoleRedirected | middleware.ts:74-82 | a verified non-hr session on /hr-dashboard… goes to /candidate-dashboard, and a non-candidate on /candidate-dashboard… goes to /hr-dashboard |
| Middleware.HrPrefixIsTextual | middleware.ts:74-77 | the prefix test is textual: "/hr-dashboard" followed by any suffix sends a candidate to /candidate-dashboard |
| Middleware.ProfileForEitherRole | middleware.ts:84-86 | every /profile path is forwarded for any verified session |
| Middleware.RoleRedirectSettles | middleware.ts:73-86 | for roles hr and candidate, the page a role redirect lands on is forwarded for the same session |
| Middleware.OtherRoleBounces | middleware.ts:74-82 | for any other role, each dashboard redirects to the other |
| Middleware.MatchedNeverPublic | middleware.ts:38-45 | no path selected by the matcher is public |
| Middleware.Gate | middleware.ts:99-105 | unmatched paths pass through untouched; matched paths get the middleware's answer |
| ApplicationsRoute.Decide | app/api/applications/route.ts:16-44 | an accepted request has both ids, an existing open job, and no earlier application for the pair |
| ApplicationsRoute.DecideTable | app/api/applications/route.ts:16-44 | the first failing check decides: 400 missing ids, 404 unknown job, 400 closed job, 404 unknown or non-candidate user, otherwise accept or duplicate; malformed ids give 500 |
| ApplicationsRoute.DuplicateReported | app/api/applications/route.ts:38-44 | "already applied" is given exactly when the pair has an application, with status 400 and that application's id |
| ApplicationsRoute.NewApplication | app/api/applications/route.ts:47-52 | the stored application is what the schema builds from job, candidate, "applied" and now |
| ApplicationsRoute.Counted | app/api/applications/route.ts:57-58 | the job's applicants becomes (old or 0)+1, updatedAt becomes now, and no other field changes |
| ApplicationsRoute.AcceptKeepsApplicationsUnique | app/api/applications/route.ts:38-54 | storing an accepted request never creates a duplicate pair |
| ApplicationsRoute.CountedValid | app/api/applications/route.ts:57-58 | counting an applicant keeps the job valid under its schema |
| ApplicationsRoute.AcceptKeepsConsistent | app/api/applications/route.ts:47-58 | storing the application and counting it keeps the database invariant |
| ApplicationsRoute.RecordApplicant | app/api/applications/route.ts:57-58 | the loaded, incremented and saved job document is the counted job |
| ApplicationsRoute.Apply | app/api/applications/route.ts:47-66 | one application is appended, only job k changes, the reply is 201 with id, title, department and date, and the invariant holds |
| ApplicationsRoute.Submit | app/api/applications/route.ts:8-66 | a refusal leaves the store unchanged and returns the decision's response; acceptance appends exactly one application and counts it on its job; the invariant is kept |
| SignupRoute.NewUser | app/api/auth/signup/route.ts:30-36 | the created document carries the request's fields, with company only when one was given |
| SignupRoute.Decide | app/api/auth/signup/route.ts:14-36 | existing email → 400 (checked first); missing field → 400; hr without company → 400; schema failure → 500 listing violations; accept iff all pass |
| SignupRoute.SchemaObjections | app/api/auth/signup/route.ts:20-36 | once the handler's checks pass, only the name length, the email pattern, the password length or the role can fail |
| SignupRoute.ClaimsOf | app/api/auth/signup/route.ts:39-43 | the token carries the new user's id, name and role |
| SignupRoute.InsertKeepsConsistent | app/api/auth/signup/route.ts:30-36 | a new user with a fresh id and an unused email keeps the invariant |
| SignupRoute.Store | app/api/auth/signup/route.ts:30-36 | `User.create` stores the user with its password hashed |
| SignupRoute.Signup | app/api/auth/signup/route.ts:14-57 | a refusal leaves the users unchanged; acceptance appends just the hashed new user, answers with its password-free view, and sets the token cookie |
| LoginRoute.LoginCookie | app/api/auth/login/route.ts:50-56 | cookie "token", httpOnly, not secure, sameSite lax, path "/", maxAge 86400 |
| LoginRoute.Login | app/api/auth/login/route.ts:15-56 | 400 without email or password; 200 iff a user with that email exists and the password matches, answered with its view and the cookie; otherwise 401 without a cookie |
| LoginRoute.UniformRefusal | app/api/auth/login/route.ts:20-29 | an unknown email gets the same 401 "Invalid credentials" a wrong password gets |
| LoginRoute.SignupThenLogin | app/api/auth/login/route.ts:20-47 | after an accepted sign-up, logging in with the same credentials succeeds and returns the stored user's view |
| MeRoute.Me | app/api/auth/me/route.ts:12-42 | no token → 401; a rejected token or a malformed user id → 500; the current user's view iff the token names a stored user; 404 iff the named user is missing |
| MeRoute.InvalidTokenUnreachable | app/api/auth/me/route.ts:18-21 | no request gets 401 "Invalid token"; every 401 means no token |
| MeRoute.NoPasswordInView | app/api/auth/me/route.ts:30-38 | the answer does not change when the stored password changes |
| HrProfileRoute.ProfileOf | app/api/hr/profile/route.ts:62-68 | the body is exactly id, name, email, company and role of the stored user |
| HrProfileRoute.GetProfile | app/api/hr/profile/route.ts:12-74 | 401 for no token, a rejected token or no userId; 500 for a malformed userId; 404 iff the user is missing; 403 iff the stored role is not hr; 200 with the profile otherwise |
| HrProfileRoute.EarlyAnswersIgnoreStore | app/api/hr/profile/route.ts:12-41 | answers decided before the lookup do not depend on the stored users |
| HrProfileRoute.RoleFromStoreNotToken | app/api/hr/profile/route.ts:44-59 | two tokens naming the same user get the same answer, whatever roles they claim |
| JobsRoute.BuildQuery | app/api/jobs/route.ts:15-25 | each condition is present iff its parameter is non-empty, and the query selects exactly the listed jobs |
| JobsRoute.InsertByDate | app/api/jobs/route.ts:27 | inserting adds exactly that job to the list |
| JobsRoute.InsertKeepsNewestFirst | app/api/jobs/route.ts:27 | inserting keeps the createdAt-descending order |
| JobsRoute.SortByNewest | app/api/jobs/route.ts:27 | the result is a permutation of the input, newest first |
| JobsRoute.GetJobs | app/api/jobs/route.ts:15-27 | newest first, a permutation of the jobs the parameters select, and every selected job appears; the store is untouched |
| JobsRoute.FilterSame | app/api/jobs/route.ts:15-27 | filtering by equivalent conditions selects the same jobs |
| JobsRoute.NoParametersListEverything | app/api/jobs/route.ts:15-27 | without parameters every stored job is listed |
| JobsRoute.PostJob | app/api/jobs/route.ts:43-62 | a valid job is appended with the defaults, answered with 201; an invalid one leaves the store unchanged and gets 500 |
| JobsRoute.AppendJobKeepsConsistent | app/api/jobs/route.ts:47-49 | a valid job with a fresh id keeps the invariant |
| UploadRoute.Entry | app/api/upload/route.ts:22-28 | the stored record has filePath "N/A", status "completed" and the given name, role and summary |
| UploadRoute.EntryValidIff | app/api/upload/route.ts:22-28 | with all fields present the record is stored iff name and role are at most 100 characters |
| UploadRoute.Upload | app/api/upload/route.ts:16-30 | a missing field gives 400 with the store unchanged; otherwise a valid record is appended and answered 200 with the summary, or 500 with the store unchanged |
| UploadRoute.AppendSummaryKeepsConsistent | app/api/upload/route.ts:22-28 | a summary with a fresh id keeps the invariant |
| MySummaryRoute.Latest | app/api/my-summary/route.ts:13-15 | the chosen record has the role, no record of the role is newer, earlier ones are strictly older, and none is chosen iff no record has the role |
| MySummaryRoute.MySummary | app/api/my-summary/route.ts:9-21 | no session user → 401; otherwise 200, with null exactly when no record has the user's role, and otherwise the summary of that role's latest record |
| MySummaryRoute.ByRoleOnly | app/api/my-summary/route.ts:13 | users with the same role get the same answer |
| MySummaryRoute.NewestWins | app/api/my-summary/route.ts:13-15 | a record newer than all others of its role is the one chosen |
| MySummaryRoute.UploadThenRead | app/api/my-summary/route.ts:13-21 | after such an upload, users of that role receive its summary |
| UserModel.ValidIff | models/user.ts:17-46 | name 1..50 chars, email given and matching the pattern, password ≥ 6, role in {candidate, hr}, company given when role is hr |
| UserModel.CompanyRequiredOnlyForHr | models/user.ts:41-46 | a candidate needs no company; an hr user is valid iff it has one |
| UserModel.PreSave | models/user.ts:52-56 | the password is rehashed iff it was modified; nothing else changes |
| UserModel.UserDocument.Created | models/user.ts:52-56 | a created document counts its password as modified |
| UserModel.UserDocument.Loaded | models/user.ts:52-56 | a loaded document's password is unmodified |
| UserModel.UserDocument.SetPassword | models/user.ts:52-56 | setting the password marks it modified |
| UserModel.UserDocument.Save | models/user.ts:52-56 | saving applies the hook, and the document is clean afterwards |
| UserModel.SaveTwice | models/user.ts:52-56 | saving a new document twice hashes its password once |
| UserModel.View | app/api/auth/login/route.ts:39-47 | the view has id, name, email and role, company only when given, and no password |
| JobModel.WithDefaults | models/job.ts:45-62 | status defaults to "active", applicants to 0, createdAt and updatedAt to now; the id is the given one and all nine form fields are the input's |
| JobModel.ValidIff | models/job.ts:1-63 | title ≥ 3; description and requirements ≥ 50; department in the 7 values and type in the 5; the remaining required fields given; status in {active, closed, draft} |
| JobModel.ValidIgnoresBookkeeping | models/job.ts:49-62 | updatedAt and applicants do not affect validity |
| JobModel.PreSave | models/job.ts:65-68 | every save sets updatedAt to now and changes nothing else |
| JobModel.Create | models/job.ts:1-68 | a job is stored iff its defaulted form is valid, then stamped; otherwise the errors are non-empty |
| JobModel.CreateDefaults | models/job.ts:54-62 | a job created without status or count is active with 0 applicants |
| JobModel.JobDocument.Loaded | models/job.ts:65-68 | the document holds the loaded job |
| JobModel.JobDocument.CountApplicant | app/api/applications/route.ts:57 | the count becomes (old or 0)+1 and nothing else changes |
| JobModel.JobDocument.Save | models/job.ts:65-68 | saving applies the pre-save stamp |
| ApplicationModel.ViolationsIff | models/application.ts:17-46 | valid iff both ids are given, the status is in the 5 values, and a present score is in [0,100] |
| ApplicationModel.Create | models/application.ts:15-55 | stored iff valid; status defaults to "applied" and appliedDate to now; the id, both references, the interview date, time and score, the feedback and the notes are the input's |
| ApplicationModel.CreateMinimal | models/application.ts:27-35 | job and candidate alone yield "applied", dated now, with no interview fields |
| MockInterviewModel.ViolationsIff | models/mockInterview.ts:22-65 | valid iff candidate, job title and date are given, the category is in the 4 values, a present score is in [0,100], and the status is in the 3 values |
| MockInterviewModel.Create | models/mockInterview.ts:22-65 | stored iff valid; duration defaults to 30 and status to "scheduled"; the id, candidate, job title, category, date, score, feedback and questions are the input's |
| CVSummaryModel.ViolationsIff | models/cv-summary.ts:16-38 | valid iff name and role are given and at most 100 characters, filePath is given, and the status is in the 3 values |
| CVSummaryModel.Create | models/cv-summary.ts:16-38 | stored iff valid; summary defaults to "" and status to "processing" |
| JobForm.MinIssue | components/jobs/job-from.tsx:18-26 | one issue with the field's message exactly when the value is shorter than its minimum |
| JobForm.IssuePaths | components/jobs/job-from.tsx:17-27 | the path of each reported issue, one per issue and in the schema's order |
| JobForm.FormValidIff | components/jobs/job-from.tsx:17-27 | the form is valid iff title ≥ 3, description and requirements ≥ 50, and the other six fields are non-empty, with no enum check |
| JobForm.DefaultsAreIncomplete | components/jobs/job-from.tsx:37-47 | the default values fail on exactly the six empty fields |
| JobForm.ValuesOf | components/jobs/job-from.tsx:17-27 | each of the nine form fields is the job's field of the same name |
| JobForm.ModelValidImpliesFormValid | components/jobs/job-from.tsx:17-27 | every job the model accepts passes the form |
| JobForm.FormLooserThanModel | components/jobs/job-from.tsx:19 | the form accepts a department the model rejects |
| JobsList.FilteredJobs | components/jobs/jobs-list.tsx:103-112 | a job is shown iff it matches the search on title or department and both selects ("all" admits anything) |
| JobsList.NoFilterShowsAll | components/jobs/jobs-list.tsx:103-112 | with no filters, the whole list is shown in order |
| JobsList.FilteredKeepsOrder | components/jobs/jobs-list.tsx:103-112 | filtering distributes over concatenation, so the list order is kept |
| JobsList.FirstOccurrences | components/jobs/jobs-list.tsx:114 | the reference de-duplication has the same elements as its input |
| JobsList.AddAll | components/jobs/jobs-list.tsx:114 | adding to a Set keeps it duplicate-free, holds the union, and keeps the existing entries first |
| JobsList.DepartmentsOf | components/jobs/jobs-list.tsx:114 | the departments, position by position |
| JobsList.Departments | components/jobs/jobs-list.tsx:114 | "all", then each department that occurs, once |
| JobsList.FirstOccurrencesSnoc | components/jobs/jobs-list.tsx:114 | one more element joins the first occurrences iff it is new |
| JobsList.AddAllIsFirstOccurrences | components/jobs/jobs-list.tsx:114 | the Set gives exactly the first occurrences, in first-occurrence order |
| JobsList.DistinctExtend | components/jobs/jobs-list.tsx:114 | adding a new element keeps the list duplicate-free |
| JobsList.DepartmentsInFirstOccurrenceOrder | components/jobs/jobs-list.tsx:114 | the options are "all" followed by the departments in first-occurrence order |
| JobsList.ApplyStatusChange | components/jobs/jobs-list.tsx:81-87 | after an ok reply, only the matching job's status changes; otherwise nothing changes |
| JobsList.StatusChangeIsLocal | components/jobs/jobs-list.tsx:81-87 | other jobs and fields are untouched, and repeating the change does nothing more |
| JobsList.Toggle | components/jobs/jobs-list.tsx:254 | active→closed, anything else→active |
| JobsList.ToggleTwice | components/jobs/jobs-list.tsx:254 | toggling twice restores the status iff it was active or closed |
| JobsList.BadgeLabel | components/jobs/jobs-list.tsx:228-229 | Active iff active, Draft iff draft, otherwise Closed |
| JobsList.BadgeVariant | components/jobs/jobs-list.tsx:222-226 | default iff active, outline iff draft, otherwise secondary |
| JobsList.BadgeConsistent | components/jobs/jobs-list.tsx:222-229 | label and variant agree, and a toggled job never shows as Draft |
| HrDashboard.WithJobStats | components/dashboard/hr-dashboard.tsx:69-77 | totalJobs is the job count, activeJobs ≤ totalJobs, both figures 0 for no jobs, and the interview figure is kept (with OneMoreJob this fixes the active count and the applicant sum) |
| HrDashboard.ApplicantsNonNegative | components/dashboard/hr-dashboard.tsx:70 | non-negative counts give a non-negative total |
| HrDashboard.WithInterviewStats | components/dashboard/hr-dashboard.tsx:100-107 | the figure is at most the number of applications, and the job figures are kept |
| HrDashboard.UpdatesCommute | components/dashboard/hr-dashboard.tsx:72-107 | the two concurrent stat updates give the same result in either order |
| HrDashboard.OneMoreJob | components/dashboard/hr-dashboard.tsx:69-76 | one more job adds 1 to the total, 1 to active iff it is active, and its applicants (or 0) |
| HrDashboard.OneMoreApplication | components/dashboard/hr-dashboard.tsx:100-102 | one more application adds 1 iff it is an interview with a date |
| HrDashboard.EmptySearchShowsAll | components/dashboard/hr-dashboard.tsx:142-151 | an empty search hides no job and no application |
| HrDashboard.FoundByOwnName | components/dashboard/hr-dashboard.tsx:148-151 | an application is found by its candidate's full name |
| HrDashboard.FirstChar | components/dashboard/hr-dashboard.tsx:373 | a piece's first character, and nothing for an empty piece |
| HrDashboard.FirstChars | components/dashboard/hr-dashboard.tsx:372-374 | one initial per non-empty piece, in order |
| HrDashboard.AvatarInitials | components/dashboard/hr-dashboard.tsx:371-374 | the initials contain no space and are no longer than the name |
| HrDashboard.InitialsWithoutSpaces | components/dashboard/hr-dashboard.tsx:371-374 | pieces without spaces give initials without spaces |
| HrDashboard.SplitSize | components/dashboard/hr-dashboard.tsx:371-374 | there are no more initials than characters |
| HrDashboard.AvatarOfWords | components/dashboard/hr-dashboard.tsx:371-374 | for words joined by single spaces, the initials are the first letters of the words |
| HrDashboard.StatusVariant | components/dashboard/hr-dashboard.tsx:437-452 | review/interview→default, accepted→success, rejected→destructive, else secondary |
| HrDashboard.FormatStatus | components/dashboard/hr-dashboard.tsx:454-456 | length is kept, and the first character is upper-cased with the rest unchanged |
| HrDashboard.FormatStatusIdempotent | components/dashboard/hr-dashboard.tsx:454-456 | formatting twice equals formatting once |
| CandidateDashboard.RoundedMean | app/candidate-dashboard/page.tsx:173 | 0 for no values; otherwise the integer nearest the mean, halves rounding up |
| CandidateDashboard.CompletedScores | app/candidate-dashboard/page.tsx:171-172 | the completed interviews' scores in order, then the completed mocks' scores, a missing score counting 0 |
| CandidateDashboard.CalculateStats | app/candidate-dashboard/page.tsx:161-182 | totals are the list lengths, active ≤ total, upcoming ≤ interviews, and the average is the rounded mean of the completed scores (the counts themselves: OneMoreApplication, OneMoreInterview) |
| CandidateDashboard.RoundedMeanWithin | app/candidate-dashboard/page.tsx:173 | the rounded mean of a total in [0, 100n] lies in [0,100] |
| CandidateDashboard.CompletedScoresWithin | app/candidate-dashboard/page.tsx:171-172 | scores within [0,100] stay within it once collected |
| CandidateDashboard.AverageWithinScoreRange | app/candidate-dashboard/page.tsx:171-173 | scores within [0,100] give an average within [0,100] |
| CandidateDashboard.SubmittedNotActive | app/candidate-dashboard/page.tsx:166-168 | an "applied" application adds to the total but not to the active count |
| CandidateDashboard.OneMoreApplication | app/candidate-dashboard/page.tsx:166-168 | one more application adds 1 to the total and 1 to the active count iff its status is "review" or "interview"; the other figures stay |
| CandidateDashboard.OneMoreInterview | app/candidate-dashboard/page.tsx:162-164 | one more interview adds 1 to the upcoming count iff it is "scheduled" and dated after now |
| CandidateDashboard.Items | app/candidate-dashboard/page.tsx:92-144 | a parsed array is kept; failures and non-arrays become [] |
| CandidateDashboard.FetchUserDataAsWritten | app/candidate-dashboard/page.tsx:86-159 | the lists become the fetched ones, the jobs error is set iff the jobs fetch failed, but the stats come from the previous lists |
| CandidateDashboard.StaleStatsOnFirstLoad | app/candidate-dashboard/page.tsx:147-151 | on first load with one application under review, the stats show 0 applications, which disagrees with the lists shown |
| CandidateDashboard.FetchUserData | app/candidate-dashboard/page.tsx:86-159 | like the code as written, except that the stats are computed from the fetched lists |
| CandidateDashboard.LoadedStatsAgree | app/candidate-dashboard/page.tsx:147-151 | after a load the stats describe the lists the page shows |
| CandidateDashboard.FailuresEmptyLists | app/candidate-dashboard/page.tsx:97-144 | failed fetches empty the lists, zero the stats, and only the jobs failure sets an error |
| CandidateDashboard.JobIndex | app/candidate-dashboard/page.tsx:199 | the first job with the id, or none iff no job has it |
| CandidateDashboard.ErrorOf | app/candidate-dashboard/page.tsx:229-236 | a reply that fails to parse reads as the error "Invalid response format"; otherwise the reply's own error |
| CandidateDashboard.ApplicationIdOf | app/candidate-dashboard/page.tsx:244 | an unparsed reply carries no application id; otherwise the reply's id |
| CandidateDashboard.Precheck | app/candidate-dashboard/page.tsx:187-202 | the request is allowed iff jobId is non-empty, the user has an id, and the job is listed |
| CandidateDashboard.ApplyToJob | app/candidate-dashboard/page.tsx:184-287 | a request is sent iff the prechecks pass, and loading always ends |
| CandidateDashboard.PrecheckFailureSendsNothing | app/candidate-dashboard/page.tsx:187-202 | a failed precheck alerts its message, and the outcome does not depend on any reply |
| CandidateDashboard.SuccessfulApply | app/candidate-dashboard/page.tsx:257-279 | success prepends one "applied" application for the job, adds exactly 1 to active and to total, and leaves the rest unchanged |
| CandidateDashboard.AlreadyAppliedKeepsLists | app/candidate-dashboard/page.tsx:239-251 | "already applied" changes no list or stat, and goes to /quizpage iff an id came back, otherwise to the applications tab |
| CandidateDashboard.ApplyOvercountsActive | app/candidate-dashboard/page.tsx:266-273 | after a success, the local active count exceeds what calculateStats gives for the same lists by one |
| CandidateDashboard.FilteredJobs | app/candidate-dashboard/page.tsx:298-302 | a job is shown iff its title, company or department contains the term, ignoring case |
| CandidateDashboard.EmptySearchListsAll | app/candidate-dashboard/page.tsx:298-302 | an empty search lists every job, in order |
| CandidateDashboard.Gate | app/candidate-dashboard/page.tsx:305-365 | the skeleton iff loading or no user; a redirect to /hr-dashboard iff a user of another role; the dashboard iff a candidate |
| CandidateDashboard.GateAfterSessionCheck | app/candidate-dashboard/page.tsx:343-365 | after the session check, a candidate sees the dashboard, another role is redirected, and no user keeps the skeleton |
| AuthContext.SessionFrom | contexts/auth-context.tsx:52-72 | a user is kept iff the reply is ok and its user has a role |
| AuthContext.FailureMessage | contexts/auth-context.tsx:89-121 | a thrown request rethrows its own message; a refused reply its error, or the fallback when it has none |
| AuthContext.DashboardFor | contexts/auth-context.tsx:97 | /candidate-dashboard iff role is candidate, else /hr-dashboard |
| AuthContext.LoginTransition | contexts/auth-context.tsx:78-108 | failure keeps the user, toasts and rethrows data.error or "Login failed"; success takes data.user or the mock user, toasts "Welcome back" with data.user's name or the mock user's, and goes to /candidate-dashboard iff data.user's role is candidate |
| AuthContext.SignupTransition | contexts/auth-context.tsx:110-140 | like login, with its own toasts, except that the redirect follows the requested role |
| AuthContext.LogoutTransition | contexts/auth-context.tsx:142-161 | any answer clears the user, toasts "Logged out" and goes to "/"; a thrown request keeps the user and toasts its message |
| AuthContext.SignupIgnoresReplyRole | contexts/auth-context.tsx:97-129 | with an hr user in the reply, sign-up as candidate lands on the candidate dashboard while login lands on the HR one |
| AuthContext.EmptyReplySignsInMockUser | contexts/auth-context.tsx:8-15 | a successful reply without a user signs in the mock HR user and goes to /hr-dashboard |
| AuthContext.AuthProvider.constructor | contexts/auth-context.tsx:47-48 | starts with no user and isLoading true |
| AuthContext.AuthProvider.CheckAuthStatus | contexts/auth-context.tsx:52-72 | user becomes the session from the reply, and isLoading is false |
| AuthContext.AuthProvider.Login | contexts/auth-context.tsx:78-108 | user and outcome follow the login transition, and isLoading ends false |
| AuthContext.AuthProvider.Signup | contexts/auth-context.tsx:110-140 | user and outcome follow the sign-up transition, and isLoading ends false |
| AuthContext.AuthProvider.Logout | contexts/auth-context.tsx:142-161 | user and outcome follow the logout transition, and isLoading is untouched |
| AuthContext.Session | contexts/auth-context.tsx:47-161 | mount, login and logout: loading is over, and the user is gone iff the logout was answered |
| DashboardSidebar.DataOf | components/dashboard/dashboard-sidebar.tsx:59-60 | the profile's name and company, or empty fields for an error body |
| DashboardSidebar.FetchHrData | components/dashboard/dashboard-sidebar.tsx:42-69 | only an hr user fetches; a failure keeps the previous data; an ok reply replaces it; loading always ends |
| DashboardSidebar.ShowsStoredProfile | components/dashboard/dashboard-sidebar.tsx:53-60 | for an hr user, the sidebar shows the name and company stored for the user the cookie names |
| DashboardSidebar.NonHrHasNoProfile | components/dashboard/dashboard-sidebar.tsx:48-51 | a non-hr user never has profile data, and loading ends |
| DashboardSidebar.NameInitials | components/dashboard/dashboard-sidebar.tsx:72-80 | the upper-cased first letter of the profile name, else of the user name, else "HR"; never a lower-case letter |
| DashboardSidebar.DisplayName | components/dashboard/dashboard-sidebar.tsx:175-177 | "Loading..." while loading, then the profile's name, else the user's name, else "HR User" |
| DashboardSidebar.DisplayCompany | components/dashboard/dashboard-sidebar.tsx:178-180 | nothing while loading, then the profile's company, else the user's company, else "HR Manager" |
| DashboardSidebar.FooterAgreesWithAvatar | components/dashboard/dashboard-sidebar.tsx:171-179 | once loaded, the name and company lines are non-empty, and the avatar letter is that of the displayed name |
| DashboardSidebar.SectionActiveBySegment | components/dashboard/dashboard-sidebar.tsx:113-160 | section + suffix is active iff the suffix is empty or starts with "/" |
| DashboardSidebar.LongerSegmentNotActive | components/dashboard/dashboard-sidebar.tsx:115 | "/hr-dashboard/jobsX" starts with the jobs path but is not active |
| DashboardSidebar.AtMostOneEntryActive | components/dashboard/dashboard-sidebar.tsx:98-155 | no path highlights two entries; Overview only for exactly /hr-dashboard |
| DashboardSidebar.SectionsDiffer | components/dashboard/dashboard-sidebar.tsx:115-155 | two sections that differ at a shared position are never active together |
| Database.ApplicationFor | app/api/applications/route.ts:38 | finds an application for the pair, or none iff no application has it |
| Database.AppendNewPair | app/api/applications/route.ts:38-54 | appending a new pair keeps applications duplicate-free |

## Left out

- JWT signing and verification, and bcrypt: their internals are foreign code, so they are
  parameters. The token's one-day expiry is part of the verifier.
- The email regular expression is the `emailOk` parameter.
- `SignupRoute.Decide`: a body without `email` is the email "". The handler runs `findOne({ email })`
  before its missing-field check, and Mongoose drops an `undefined` filter value. So once any user
  exists, the handler answers 400 "Email already exists" where the model answers "Please provide
  all required fields".
- `LoginRoute.Login`, `SignupRoute.Decide`: request fields are strings. A JSON object such as
  `{"$ne": ""}` in `email` reaches `findOne` unsanitised. Login then selects an arbitrary user, so
  the model's "the user with that email" does not hold for such bodies.
- `UserModel.ValidIff`, `JobModel.ValidIff`, `CVSummaryModel.ViolationsIff`, `UploadRoute.EntryValidIff`,
  `JobForm.MinIssue`, `HrDashboard.FirstChar`, `HrDashboard.AvatarInitials`, `DashboardSidebar.NameInitials`:
  lengths and first characters count Unicode scalar values. JavaScript, Mongoose's `minlength` and
  `maxlength`, and zod's `.min` count UTF-16 code units. A character outside the Basic Multilingual
  Plane counts 2 there and 1 here (the password "😀😀😀" is 6 units long), and `n[0]` of such a word
  is a lone surrogate.
- Mongo's `$regex` is modelled as a case-insensitive substring test, so pattern
  metacharacters are not modelled.
- Database connection errors and the routes' generic `catch` paths are not modelled.
  Exceptions: a malformed ObjectId is modelled, and a failed schema validation is modelled
  as the route's 500 answer.
- Concurrency is not modelled. Handlers run one at a time, so the non-atomic applicant
  counter update is not modelled.
- Floating point and `Date` are not modelled: time and scores are integers, and `Math.round`
  is `(2·total + n) / (2·n)`.
- The candidate dashboard fetches with `user._id`, which the client's user object lacks.
  Which URLs are fetched is not modelled; only the replies are parameters.
- The candidate page's redirect on an authentication `error` is left out: the context
  provides no `error`, so it never fires.
- The outer `catch` of `fetchUserData` is left out: every request inside it has its own
  handler.
- Toasts, `router.push`, `alert` and console output are left as outputs of the transitions.
  Rendering is not modelled beyond which view the candidate page chooses
  (`CandidateDashboard.Gate`).
- lib/get-user.ts is not part of this model. The session user of `/api/my-summary` is an
  `Option` input.
- The interviews route is not modelled: it returns fixed demonstration data.
- The logout route is not modelled: it only deletes a cookie.
- The UI-only pages are not part of this model.
- The job-detail and applicant pages are not part of this model.
- `JobsRoute.InsertByDate`, `JobsRoute.SortByNewest`: Mongo leaves the order of jobs with
  equal `createdAt` unspecified; the model fixes insertion order.
- `MySummaryRoute.Latest`: with several newest records of the role, Mongo does not say which
  one `findOne` returns; the model picks the earliest stored.
- `Text.LowerChar`, `Text.UpperChar`: case folding covers ASCII letters only. JavaScript's
  `toLowerCase` and `toUpperCase` fold all of Unicode and may change the length
  (`"ß".toUpperCase()` is `"SS"`).
- `HrDashboard.FormatStatus`: "the length is kept" holds for the ASCII folding above only.
- `DashboardSidebar.NameInitials`: "never a lower-case letter" holds for ASCII letters only.
- `JobsList.FilteredJobs`, `HrDashboard.JobMatches`, `HrDashboard.ApplicationMatches`,
  `CandidateDashboard.FilteredJobs`, `JobsRoute.Matches`: the case-insensitive search
  ignores the case of ASCII letters only.

## Findings

| source | as written | input that shows it | evidently intended | confidence | as-written member | corrected member |
|---|---|---|---|---|---|---|
| app/candidate-dashboard/page.tsx:147-151 | after loading, `calculateStats` is called with the `applications`, `interviews` and `mockInterviews` state the handler's closure captured, which is the state before the load | first load with one fetched application of status "review": the page lists it, but totalApplications and activeApplications stay 0 | compute the statistics from the arrays just fetched | high; not executed | CandidateDashboard.StaleStatsOnFirstLoad | CandidateDashboard.LoadedStatsAgree |
