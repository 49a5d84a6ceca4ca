# Job board client: page logic in Dafny

This project models the client of a job board written in React. The client has
three kinds of users: applicants, companies and administrators. The model covers:

- the route table, which says which page serves which path and under which guard;
- the access check that each role-restricted page runs itself when it mounts;
- the state transitions of the pages' forms:
  - the authentication page, a three-mode state machine: login, registration,
    forgot password;
  - the reset-password page, with its strength meter, its live mismatch check
    and its submit validation;
  - the applicant's profile editor, with its skill, education and experience
    lists;
  - the company dashboard, with deleting a job, the applicant panel, the two
    header counters and the profile form;
  - posting and editing a job;
  - the admin dashboard, with its tabs and header;
  - the public job page: who may apply, which panel shows, and the logo and
    header values.

Everything is a pure function over immutable datatypes. Each event handler is
modelled as a function from the page state (plus the server's reply) to the
next state.

- **Server replies.** A reply is an input, `Reply<T>`: either `Ok(payload)` or
  `Fail(message)`, where the message is the server's optional error message.
- **Fallback messages.** A handler shows the server's message when it is truthy
  and otherwise its own fixed fallback. This is modelled by `Common.OrElse`,
  the model of JavaScript's `||` on a string that may be absent.
- **The session.** It is `Session(token, role, id)`. An empty token means
  nobody is signed in. The role `Anonymous` stands for "no role".
- **Modules.** Each page is one module. The route table is in `Routes`, and
  the shared vocabulary is in `Common`.

Facts about the source that the model records:

- **Unguarded routes.** The route table has five unguarded routes, counting the
  `*` catch-all (`Routes.PublicRoutes`).
- **The reset-password path.** `/reset-password/:token` renders the
  authentication page (`Routes.ResetLinkOpensAuthPage`).
- **What the route guard does.** The route table passes props to
  `ProtectedRoute`, but the wrapper's decision is not written there. The model
  records only the props, with a prop a route leaves out recorded as absent. It
  proves that the pages' own checks agree with those props (`Routes.LayersAgree`).
- **The job-editing page's check.** It sends a stranger to `/auth` rather than
  to the home page, and it never lifts its loading flag for a stranger.
- **Server hosts.** The job-posting page and the job-editing page call a
  server on a private address. The other pages call the public server. Only
  the public server's base URL appears in the model, where it prefixes
  uploaded images.
- **String lengths.** The reset-password page measures lengths in UTF-16 code
  units, as JavaScript does. A character outside the Basic Multilingual Plane
  counts twice (`Common.JsLength`, `ResetPassword.AstralPasswordLongEnough`).

## Model

| member | source | states |
|---|---|---|
| `Common.OrElse` | src/pages/AuthPage.jsx:144 | The server's message is shown exactly when it is present and non-empty; otherwise the handler's own fallback is shown. |
| `Common.RoleGate` | src/pages/ApplicantDashboardPage.jsx:76-80 | A page's own check admits exactly a signed-in session of the required role, and sends every other session to the page's redirect target. |
| `Common.GatedMount` | src/pages/Company/PostJob.jsx:44-50 | A page either redirects and fetches nothing, or stays and issues all of its fetches. It never does both. |
| `Common.Bearer` | src/pages/JobDetailPage.jsx:68-72 | The Authorization value is the scheme `Bearer ` followed by the token, so the token can be recovered from it. |
| `Common.JsLength` | src/pages/ResetPasswordPage.jsx:67 | A string's JavaScript length is its character count plus the number of its characters outside the Basic Multilingual Plane. So it lies between the character count and twice that. It equals the character count exactly when no character is astral, and twice it exactly when all are. |
| `Common.JsLengthAppend` | src/pages/ResetPasswordPage.jsx:67 | The JavaScript length of a concatenation is the sum of the parts' lengths. |
| `Common.JsLengthSingle` | src/pages/ResetPasswordPage.jsx:67 | One character has JavaScript length 2 when it is astral and 1 otherwise. |
| `ResetPassword.PasswordStrength` | src/pages/ResetPasswordPage.jsx:103-144 | The strength is at most 5. An empty password shows no meter. Otherwise the strength is the number of criteria met, with lengths in UTF-16 code units, the label and colour are those of that bucket, and 0 and 1 both read "very weak". |
| `ResetPassword.ScoreCountsCriteria` | src/pages/ResetPasswordPage.jsx:106-114 | Adding one point per passed test equals the size of the set of criteria the password meets. |
| `ResetPassword.LabelsDistinct` | src/pages/ResetPasswordPage.jsx:116-141 | The buckets 1 to 5 carry five different labels. |
| `ResetPassword.LongPasswordAtLeastWeak` | src/pages/ResetPasswordPage.jsx:106-122 | A password of eight or more code units scores at least 2 and is never labelled "very weak". |
| `ResetPassword.FullStrengthIff` | src/pages/ResetPasswordPage.jsx:106-114 | Full strength holds exactly for a password of eight or more code units with an upper-case letter, a digit and a non-alphanumeric character. |
| `ResetPassword.HandleChange` | src/pages/ResetPasswordPage.jsx:41-59 | The edited field takes the value and the other field is kept. When the live check runs, the mismatch error shows exactly when a confirmation is typed and differs, and is cleared otherwise. When the check does not run, the error is untouched. |
| `ResetPassword.HandleSubmit` | src/pages/ResetPasswordPage.jsx:61-101 | The new password is sent exactly when it has six or more UTF-16 code units and matches the confirmation. "Too short" takes precedence over "mismatch". A failure shows the server message or the fixed one. Success is set only by a sent request answered with success. Loading always ends false. |
| `ResetPassword.SubmitEnabledIffValid` | src/pages/ResetPasswordPage.jsx:393 | For an idle form, the submit button is enabled exactly when submitting would pass validation and send the password. |
| `ResetPassword.LiveCheckAgreesWithSubmit` | src/pages/ResetPasswordPage.jsx:49-77 | A form whose live check has just passed, with a confirmation and a long enough password, is accepted by submit. |
| `ResetPassword.AstralPasswordLongEnough` | src/pages/ResetPasswordPage.jsx:67-77 | Three emoji are three characters but six code units, so a matching pair of them is sent. |
| `ResetPassword.CheckToken` | src/pages/ResetPasswordPage.jsx:31-39 | The page's token is valid exactly when the URL token is present and non-empty. An invalid token shows the missing-token error, and a valid one leaves the error alone. |
| `ResetPassword.CheckTokenStable` | src/pages/ResetPasswordPage.jsx:31-39 | Re-running the check on the same token changes nothing. Every missing or empty token leaves the same state. |
| `ApplicantDashboard.Gate` | src/pages/ApplicantDashboardPage.jsx:76-80 | The dashboard admits exactly a signed-in applicant and sends everyone else home. |
| `ApplicantDashboard.OnMount` | src/pages/ApplicantDashboardPage.jsx:76-83 | The profile and the categories are fetched exactly when the applicant is admitted. Otherwise the page only redirects home. |
| `ApplicantDashboard.Trim` | src/pages/ApplicantDashboardPage.jsx:140 | The result is a slice of the input with only white space cut from both ends. It neither starts nor ends with white space, and it is empty exactly when the input is all white space. |
| `ApplicantDashboard.TrimIdempotent` | src/pages/ApplicantDashboardPage.jsx:140-143 | Trimming an already trimmed skill changes nothing. |
| `ApplicantDashboard.AddSkill` | src/pages/ApplicantDashboardPage.jsx:139-147 | The trimmed draft is appended, and the draft cleared, exactly when it is non-empty and not yet listed. Otherwise the editor is unchanged. Nothing else changes. |
| `ApplicantDashboard.AddSkillKeepsDistinct` | src/pages/ApplicantDashboardPage.jsx:140-143 | A skill list without duplicates keeps that property when a skill is added. |
| `ApplicantDashboard.RemoveAll` | src/pages/ApplicantDashboardPage.jsx:152 | Filtering out a value removes every copy of it and keeps every other element with its multiplicity. A list without the value is returned as is. |
| `ApplicantDashboard.RemoveAllAppend` | src/pages/ApplicantDashboardPage.jsx:152 | Filtering a concatenation is the concatenation of the filtered parts, so the kept skills keep their order. |
| `ApplicantDashboard.RemoveSkill` | src/pages/ApplicantDashboardPage.jsx:149-154 | Removing a skill drops all its copies and keeps every other skill with its count. Nothing else in the editor changes. |
| `ApplicantDashboard.AddThenRemoveSkill` | src/pages/ApplicantDashboardPage.jsx:139-154 | Adding a new skill and then removing it restores the profile form. |
| `ApplicantDashboard.RemoveIndex` | src/pages/ApplicantDashboardPage.jsx:177 | Filtering by position removes exactly the element at an index in range. An index out of range removes nothing. |
| `ApplicantDashboard.AddEducation` | src/pages/ApplicantDashboardPage.jsx:157-172 | The draft is appended and reset to empty exactly when both degree and institution are filled. Otherwise nothing changes. |
| `ApplicantDashboard.RemoveEducation` | src/pages/ApplicantDashboardPage.jsx:174-179 | Exactly the entry at the index is removed, and the list shrinks by one. An index out of range changes nothing. No other field changes. |
| `ApplicantDashboard.AddThenRemoveEducation` | src/pages/ApplicantDashboardPage.jsx:157-179 | Adding an entry and removing it by its new position restores the profile form. |
| `ApplicantDashboard.AddExperience` | src/pages/ApplicantDashboardPage.jsx:182-197 | The draft is appended and reset, with "current" unchecked, exactly when job title and company are filled. Otherwise nothing changes. |
| `ApplicantDashboard.RemoveExperience` | src/pages/ApplicantDashboardPage.jsx:199-204 | Exactly the entry at the index is removed. An index out of range changes nothing. No other field changes. |
| `ApplicantDashboard.AddThenRemoveExperience` | src/pages/ApplicantDashboardPage.jsx:182-204 | Adding an entry and removing it by its new position restores the profile form. |
| `ApplicantDashboard.SetCurrent` | src/pages/ApplicantDashboardPage.jsx:782 | The checkbox sets "current". Checking it empties the end date, and unchecking keeps it. No other field of the draft changes. |
| `ApplicantDashboard.CheckThenUncheckLosesEndDate` | src/pages/ApplicantDashboardPage.jsx:782 | The end date cleared by checking is not restored by unchecking. |
| `ApplicantDashboard.ProfileImageUrl` | src/pages/ApplicantDashboardPage.jsx:293-296 | An uploaded picture path is served from the server. The stock icon shows exactly when the path is missing or empty. |
| `ApplicantDashboard.ProfileImageUrlInjective` | src/pages/ApplicantDashboardPage.jsx:293-296 | Two uploaded paths give the same address exactly when they are the same path. |
| `ApplicantDashboard.FillFromProfile` | src/pages/ApplicantDashboardPage.jsx:95-105 | Each text field shows the server's non-empty value, or empty when it is missing or empty. The category is the id of the populated category. Each list shows the server's list, or the empty list when it is missing. |
| `ApplicantDashboard.FillFromProfileRoundTrip` | src/pages/ApplicantDashboardPage.jsx:40-105 | A record with every field missing fills the page's initial form, and a complete record fills exactly its own values. |
| `ApplicantDashboard.ProfileLoaded` | src/pages/ApplicantDashboardPage.jsx:85-114 | A loaded record is shown and fills the edit form, with the error cleared. A failure shows the server's or the fixed error, drops the record and keeps the form. Loading ends either way. |
| `ApplicantDashboard.HandleEditChange` | src/pages/ApplicantDashboardPage.jsx:133-136 | The edited input takes the typed value. The other inputs and the three lists keep theirs. |
| `ApplicantDashboard.EditChangeUndoes` | src/pages/ApplicantDashboardPage.jsx:133-136 | Typing a field's old value back restores the form, and the last edit of a field wins. |
| `ApplicantDashboard.HandleUpdateProfile` | src/pages/ApplicantDashboardPage.jsx:206-255 | The request carries the applicant's bearer token, the edit form, and the resume and picture exactly when chosen. Success shows the server's message and saved record, clears the error, drops both files and leaves edit mode. It calls the session store exactly when the reply has a user, passing that user's picture. Failure shows the server's or the fixed error and changes nothing else. |
| `ApplicantDashboard.SavedProfileReloads` | src/pages/ApplicantDashboardPage.jsx:206-255 | When the server saves exactly what was sent, reloading the saved record refills the submitted form. After a failed update, a successful retry ends exactly as a first-time success would. |
| `JobDetail.HandleApply` | src/pages/JobDetailPage.jsx:55-81 | An application is posted exactly for a signed-in applicant. Without a token the login prompt is shown, and for another role the applicants-only message. A posted application shows the server's reply or the fallback, and the applying flag ends false. |
| `JobDetail.HasApplied` | src/pages/JobDetailPage.jsx:150 | The user has applied exactly when the applicant list is present and contains the user's id. |
| `JobDetail.VisiblePanels` | src/pages/JobDetailPage.jsx:373-419 | The apply button shows exactly for the applicant role, disabled exactly when already applied or applying. The login prompt shows exactly without a token, and the company notice exactly for the company role. |
| `JobDetail.AtMostOnePanel` | src/pages/JobDetailPage.jsx:373-419 | In a session where "no token" and "no role" coincide, at most one of the three panels shows, and an admin sees none. |
| `JobDetail.RoleWithoutTokenShowsTwoPanels` | src/pages/JobDetailPage.jsx:373-412 | The panel conditions test role and token separately, so a role without a token shows both the apply button and the login prompt. |
| `JobDetail.VisibleButtonApplies` | src/pages/JobDetailPage.jsx:373-376 | For every well-formed session that is shown the apply button, handleApply posts an application. |
| `JobDetail.CompanyLogoUrl` | src/pages/JobDetailPage.jsx:145-148 | The logo is served from the server exactly when an uploaded path is present and is not the placeholder itself. Otherwise the placeholder shows. |
| `JobDetail.AuthHeader` | src/pages/JobDetailPage.jsx:37-41 | The job fetch carries a bearer header exactly when there is a token. |
| `Auth.InitialState` | src/pages/AuthPage.jsx:33-54 | The page opens in login mode, with the applicant role and no category chosen. |
| `Auth.SwitchAuthMode` | src/pages/AuthPage.jsx:150-155 | Switching enters the new mode and clears the error, the message and the forgot-password email. The form is kept. |
| `Auth.HandleChange` | src/pages/AuthPage.jsx:92-95 | The named field takes the value and every other field keeps its own. The field set grows only by that name. |
| `Auth.FetchFollowsModeAndRole` | src/pages/AuthPage.jsx:68-72 | The fetch effect re-runs only when the register flag or the role changes. The page opens without fetching. Entering register mode from another mode fetches exactly for the applicant role. Picking a role in register mode fetches exactly when the applicant role is newly chosen. Editing any other field, or switching to login or forgot password, never fetches. |
| `Auth.CategoriesLoaded` | src/pages/AuthPage.jsx:74-90 | Loaded categories preselect the first one, and an empty list clears the choice. A failed load shows the fixed error and leaves the form alone. |
| `Auth.HandleSubmit` | src/pages/AuthPage.jsx:118-148 | No request is made exactly for an applicant registration without a category, which shows the "category required" error. Registration sends the whole form, and on success switches to login with the server's message. Any other mode logs in with email and password. Only a successful login signs in and navigates home. Failures show the server's message or the generic one. A failed registration and any login leave the message empty. A login keeps the mode, and a sign-in leaves no error. Submitting always ends false. |
| `Auth.LoadedCategoryUnblocksRegistration` | src/pages/AuthPage.jsx:74-90 | After a fetch that returns categories, the registration it was made for is sent with the first category. After an empty list, the registration is refused for the missing category. |
| `Auth.HandleForgotPasswordSubmit` | src/pages/AuthPage.jsx:97-116 | Success shows the server's message and clears the email. Failure shows the error and keeps the email. The mode and the form stay. |
| `Auth.ForgotPasswordSuccessIsFreshEntry` | src/pages/AuthPage.jsx:97-116 | A successful reset request leaves the page exactly as a fresh switch into the same mode would, plus the server's message. A failed one keeps the typed email, so it differs from a fresh entry only by its banner. |
| `Auth.RegisterThenLogin` | src/pages/AuthPage.jsx:130-139 | After a successful registration, the next submit logs in with the email and password that were just registered. |
| `Auth.Header` | src/pages/AuthPage.jsx:157-178 | Each mode has its title, and login is the default. |
| `Auth.HeaderTitlesDistinct` | src/pages/AuthPage.jsx:157-178 | Different modes show different titles. |
| `CompanyDashboard.Gate` | src/pages/Company/CompanyDashboard.jsx:37-40 | The dashboard admits exactly a signed-in company and sends everyone else home. |
| `CompanyDashboard.OnMount` | src/pages/Company/CompanyDashboard.jsx:37-44 | The jobs and the profile are fetched exactly when the company is admitted. |
| `CompanyDashboard.WithoutJob` | src/pages/Company/CompanyDashboard.jsx:78 | Exactly the jobs with another id remain. A list without that id is returned unchanged. |
| `CompanyDashboard.WithoutJobAppend` | src/pages/Company/CompanyDashboard.jsx:78 | Filtering distributes over concatenation, so the remaining jobs keep their order. |
| `CompanyDashboard.DeleteJob` | src/pages/Company/CompanyDashboard.jsx:66-87 | Without confirmation nothing changes. A failed delete only sets the error. A successful one removes the job's entries, clears the error, and drops the applicant panel exactly when it showed that job. |
| `CompanyDashboard.FetchApplicants` | src/pages/Company/CompanyDashboard.jsx:89-111 | A successful fetch selects the job with its applicants. A failure clears the selection and shows the error. Loading ends, and the job list is untouched. |
| `CompanyDashboard.DeleteSelectedClearsPanel` | src/pages/Company/CompanyDashboard.jsx:78-81 | Deleting the job whose applicants are shown closes the applicant panel. |
| `CompanyDashboard.TotalApplications` | src/pages/Company/CompanyDashboard.jsx:244 | The counter starts from 0 for no jobs, and a single job shows its own applicant count, with a missing list counting 0. Every job's count is included in the total. |
| `CompanyDashboard.TotalAppend` | src/pages/Company/CompanyDashboard.jsx:244 | The total-applications counter of a concatenation is the sum of the parts' totals. |
| `CompanyDashboard.DeleteSplitsCounters` | src/pages/Company/CompanyDashboard.jsx:239-244 | Both header counters split exactly: the jobs kept by a delete plus the jobs it removes. |
| `CompanyDashboard.FillProfileForm` | src/pages/Company/CompanyDashboard.jsx:125-133 | A field the server sent as a non-empty value shows that value. A field that is missing or empty shows empty. |
| `CompanyDashboard.FillProfileFormRoundTrip` | src/pages/Company/CompanyDashboard.jsx:125-133 | An empty profile fills the empty form, and a complete profile fills exactly its own values. |
| `CompanyDashboard.HandleEditChange` | src/pages/Company/CompanyDashboard.jsx:147-150 | The edited input takes the typed value, and the other six inputs keep theirs. |
| `CompanyDashboard.EditChangeUndoes` | src/pages/Company/CompanyDashboard.jsx:147-150 | Typing a field's old value back restores the form, and the last edit of a field wins. |
| `CompanyDashboard.HandleUpdateProfile` | src/pages/Company/CompanyDashboard.jsx:152-191 | The request carries the company's bearer token, the edit form and the logo exactly when one is chosen. Success shows the server's message and the saved profile, clears the banner error, drops the chosen logo and leaves edit mode. It calls the session store exactly when the reply has a user, passing the saved profile's logo. Failure shows the server's or the fixed error and changes nothing else. The edit form is kept either way. |
| `CompanyDashboard.FailedUpdateRetries` | src/pages/Company/CompanyDashboard.jsx:152-191 | After a failed update, a successful retry sends the same request and ends exactly as a first-time success would. |
| `CompanyDashboard.SavedProfileRefillsForm` | src/pages/Company/CompanyDashboard.jsx:125-175 | When the server saves exactly the submitted fields, the editor refilled from the saved profile shows the form that was sent. |
| `PostJob.Gate` | src/pages/Company/PostJob.jsx:44-48 | The page admits exactly a signed-in company and sends everyone else home. |
| `PostJob.OnMount` | src/pages/Company/PostJob.jsx:44-50 | The categories are fetched exactly when the company is admitted. |
| `PostJob.InitialFormDefaults` | src/pages/Company/PostJob.jsx:25-34 | Salary, job type and experience level start at their presets, and every other field starts empty. |
| `PostJob.CategoriesLoaded` | src/pages/Company/PostJob.jsx:52-65 | A non-empty category list preselects its first id, and an empty one leaves the form as it was. A failed load shows the fixed error. Loading ends in every case, and nothing else changes. |
| `PostJob.HandleSubmit` | src/pages/Company/PostJob.jsx:71-117 | The job is posted exactly when the deadline parses, and the current form is what gets posted. An invalid deadline only sets the error. Success shows the message and resets the form, with the first loaded category. Failure shows the error, clears the message and keeps the form. Loading is untouched. |
| `PostJob.ResetMatchesFreshLoad` | src/pages/Company/PostJob.jsx:96-105 | The form after a successful post equals a freshly opened page once its categories have loaded. When the categories failed to load, both leave the category empty. |
| `PostJob.EmptyListKeepsChoice` | src/pages/Company/PostJob.jsx:52-65 | Neither an empty category list nor a failed load erases a category already chosen. |
| `EditJob.Gate` | src/pages/Company/EditJob.jsx:31-35 | The page admits exactly a signed-in company and sends everyone else to the authentication page. |
| `EditJob.FetchIffAdmitted` | src/pages/Company/EditJob.jsx:76-78 | The job is loaded exactly when the page's check admits the session. |
| `EditJob.FillForm` | src/pages/Company/EditJob.jsx:57-66 | A field the job carries as a non-empty value shows that value. A missing or empty field shows its fallback: empty for text, the presets for job type and experience level, and today's date for the deadline. |
| `EditJob.EmptyJobFillsDefaults` | src/pages/Company/EditJob.jsx:57-66 | An empty job fills the posting form's defaults, except for an empty salary and today's deadline. |
| `EditJob.CompleteJobRoundTrips` | src/pages/Company/EditJob.jsx:57-66 | A job whose fields are all set fills exactly those values. |
| `EditJob.HandleSubmit` | src/pages/Company/EditJob.jsx:89-121 | The page navigates, to the company dashboard and with no error, exactly when the update succeeds and its reply carries the job. A success whose reply lacks the job shows the success message beside the fixed error and stays. A failure stays, with the server's message or the fallback. The error is empty exactly when the page navigates. |
| `AdminDashboard.Gate` | src/pages/Admin/AdminDashboardPage.jsx:33-37 | The dashboard admits exactly a signed-in admin and sends everyone else home. |
| `AdminDashboard.OnMount` | src/pages/Admin/AdminDashboardPage.jsx:33-39 | The page stays exactly for a signed-in admin and otherwise redirects home. The loading screen is lifted exactly when it stays, and otherwise the loading flag is unchanged. |
| `AdminDashboard.MenuIds` | src/pages/Admin/AdminDashboardPage.jsx:86-92 | The menu has five entries with pairwise distinct ids, in this order. |
| `AdminDashboard.RenderContent` | src/pages/Admin/AdminDashboardPage.jsx:94-109 | Each of the four management tabs shows exactly its own panel. |
| `AdminDashboard.Find` | src/pages/Admin/AdminDashboardPage.jsx:198 | The result is the first menu entry with the tab's id, and there is none exactly when no entry has it. |
| `AdminDashboard.HeaderLabel` | src/pages/Admin/AdminDashboardPage.jsx:198-203 | The header shows the active entry's label, and "Dashboard" when no entry matches. |
| `AdminDashboard.HeaderMatchesContent` | src/pages/Admin/AdminDashboardPage.jsx:198-203 | The header reads "Dashboard" exactly when the statistics panel is shown. |
| `AdminDashboard.MenuReachesEveryPanel` | src/pages/Admin/AdminDashboardPage.jsx:86-109 | Distinct menu entries open distinct panels. |
| `Routes.PageAt` | src/App.jsx:25-155 | Looking up a path finds a page exactly when some route carries that path, and the page found is that route's page. |
| `Routes.PageAtFirstMatch` | src/App.jsx:25-155 | Lookup returns the page of the first route carrying the path. |
| `Routes.PathsDistinct` | src/App.jsx:27-154 | No two routes share a path. |
| `Routes.PublicRoutes` | src/App.jsx:27-154 | The unguarded paths are the home page, the authentication page, the job page, the reset link and the catch-all. |
| `Routes.AuthOnlyRoutes` | src/App.jsx:66-86 | Exactly the two applicant-listing routes require a session without naming a role. |
| `Routes.SingleRoleRoutes` | src/App.jsx:89-144 | Every role-restricted route admits exactly one role. |
| `Routes.RoleRoutes` | src/App.jsx:89-144 | The applicant reaches only the applicant dashboard, a company reaches the three company pages, the admin reaches only the admin dashboard, and no route lists "no role". |
| `Routes.ResetLinkOpensAuthPage` | src/App.jsx:56-63 | The reset-password link renders the authentication page. |
| `Routes.CatchAllIsLast` | src/App.jsx:147-154 | The not-found route comes last, is unguarded, and is the only `*` route. |
| `Routes.LayersAgree` | src/App.jsx:89-144 | Every role-restricted route renders a page whose own check admits exactly the signed-in sessions of a role the route lists. |
| `Routes.PageGatesOnlyBehindRoles` | src/App.jsx:89-144 | Only role-restricted routes render a page that runs its own check. |
| `Routes.UpdateLandsOnDashboard` | src/pages/Company/EditJob.jsx:116 | The path a successful update navigates to renders the company dashboard. That page's own check admits every session the editing page admitted. |

## Left out

- HTTP calls, `axios` and JSON shapes: each call is replaced by its reply, given as an input `Reply<T>`. Headers other than Authorization, URLs of individual endpoints beyond the fetch lists, and console logging are not modelled.
- Rendering, styling, icons, the password-visibility toggles and the strength bar's width are presentation with no logic to state.
- `AuthContext`, the session store and `ProtectedRoute` are not part of this model. The session is a parameter. The route table records only the props passed to the guard, and no default is assumed for a prop a route leaves out.
- Router matching of patterns such as `:id` against concrete URLs is not modelled; routes are looked up by their literal path.
- Timers: the delayed navigations after a reset and after a post are not modelled.
- Dates: the deadline parse in `PostJob.HandleSubmit` is the boolean input `deadlineValid`. `EditJob.FillForm` keeps the deadline as text, with the clock's "today" as a parameter. The ISO conversion before sending is not modelled.
- `FormData`, the file pickers for resume, picture and logo, `window.confirm` (the boolean `confirmed`) and `alert` are browser interfaces.
- The profile updates' multipart bodies are modelled as the edit form plus a flag per chosen file. The field order in `FormData` and the JSON encoding of the applicant's three lists are not modelled.
- `ApplicantDashboard.FillFromProfile`: the years of experience are modelled as an optional string, as for the company's founding year.
- `EditJob.HandleSubmit`: the values the refill writes into the form are not modelled. The reply is reduced to whether it carries the job, which decides whether the refill throws.
- The applicant detail page and the pages behind the admin panels are outside the modelled core.
- `Auth.HandleSubmit`: the registration message is the reply's payload string. A reply without a message field, which JavaScript would render as "undefined", is not modelled.
- `CompanyDashboard.FillProfileForm`: numeric server fields such as the founding year are modelled as optional strings, with JavaScript truthiness on strings. A numeric 0 from the server, which is falsy, is not distinguished.
- `JobDetail.HasApplied`: the applicants are modelled as the list of their user ids, and the session's id as a string.
