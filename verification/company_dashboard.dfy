/** The company dashboard: its access check, deleting a posted job, selecting a
    job to list its applicants, the two header counters and the profile form. */
module CompanyDashboard {
  import opened Common

  /** The page's own check: signed in as a company, or back to the home page. */
  function Gate(s: Session): (g: Gate)
    ensures g == Admit <==> s.token != "" && s.role == Company
    ensures g != Admit ==> g == Redirect(HomePath)
  {
    RoleGate(s, Company, HomePath)
  }

  const MyJobsEndpoint: string := "/api/jobs/company/myjobs"
  const MyProfileEndpoint: string := "/api/companies/me"

  /** On mount: redirect home without fetching, or fetch the company's jobs and profile. */
  function OnMount(s: Session): (m: Mount)
    ensures m.fetches != [] <==> s.token != "" && s.role == Company
    ensures m.fetches == [] ==> m.redirect == Some(HomePath)
    ensures m.fetches != [] ==> m.redirect == None && m.fetches == [MyJobsEndpoint, MyProfileEndpoint]
  {
    GatedMount(Gate(s), [MyJobsEndpoint, MyProfileEndpoint])
  }

  /** A posted job; `applicants` is absent when the server left the field out. */
  datatype Job = Job(id: string, title: string, applicants: Option<seq<string>>)

  /** The job whose applicants are listed. */
  datatype Selection = Selection(jobId: string, jobTitle: string, applicants: seq<string>)

  datatype Dashboard = Dashboard(
    jobs: seq<Job>,
    jobsError: string,
    selection: Option<Selection>,
    applicantsLoading: bool,
    applicantsError: string)

  /** `jobs.filter(job => job._id !== jobId)`. */
  function WithoutJob(jobs: seq<Job>, jobId: string): (r: seq<Job>)
    ensures forall j :: j in r <==> j in jobs && j.id != jobId
    ensures |r| <= |jobs|
    ensures (forall k :: 0 <= k < |jobs| ==> jobs[k].id != jobId) ==> r == jobs
  {
    if jobs == [] then []
    else
      var rest := WithoutJob(jobs[1..], jobId);
      assert jobs == [jobs[0]] + jobs[1..];
      if jobs[0].id == jobId then rest else [jobs[0]] + rest
  }

  /** The complementary filter: the jobs that carry the id. */
  function WithJob(jobs: seq<Job>, jobId: string): seq<Job> {
    if jobs == [] then []
    else (if jobs[0].id == jobId then [jobs[0]] else []) + WithJob(jobs[1..], jobId)
  }

  /** Filtering distributes over concatenation, so the kept jobs stay in their original order. */
  lemma {:induction false} WithoutJobAppend(a: seq<Job>, b: seq<Job>, jobId: string)
    ensures WithoutJob(a + b, jobId) == WithoutJob(a, jobId) + WithoutJob(b, jobId)
  {
    if a == [] {
      assert a + b == b;
    } else {
      assert (a + b)[1..] == a[1..] + b;
      WithoutJobAppend(a[1..], b, jobId);
    }
  }

  const DeleteFailed: string := "İş elanı silinə bilmədi."

  /** handleDeleteJob: nothing happens unless the user confirms; a successful delete
      filters the list and drops the applicant panel if it showed the deleted job. */
  function DeleteJob(d: Dashboard, jobId: string, confirmed: bool, reply: Reply<()>): (r: Dashboard)
    ensures !confirmed ==> r == d
    ensures confirmed && reply.Fail? ==> r == d.(jobsError := OrElse(reply.message, DeleteFailed))
    ensures confirmed && reply.Ok? ==>
      r.jobs == WithoutJob(d.jobs, jobId) && r.jobsError == ""
      && r.applicantsLoading == d.applicantsLoading && r.applicantsError == d.applicantsError
    ensures confirmed && reply.Ok? ==>
      (r.selection.None? <==> d.selection.None? || d.selection.value.jobId == jobId)
    ensures r.selection.Some? ==> r.selection == d.selection
  {
    if !confirmed then d
    else match reply
      case Fail(m) => d.(jobsError := OrElse(m, DeleteFailed))
      case Ok(_) =>
        var sel := if d.selection.Some? && d.selection.value.jobId == jobId then None else d.selection;
        d.(jobsError := "", jobs := WithoutJob(d.jobs, jobId), selection := sel)
  }

  const ApplicantsFailed: string := "Müraciət edənlər gətirilə bilmədi."

  /** fetchApplicants: select the job with its applicants, or clear the selection on failure. */
  function FetchApplicants(d: Dashboard, jobId: string, jobTitle: string, reply: Reply<seq<string>>): (r: Dashboard)
    ensures reply.Ok? ==> r.selection == Some(Selection(jobId, jobTitle, reply.payload)) && r.applicantsError == ""
    ensures reply.Fail? ==> r.selection == None && r.applicantsError == OrElse(reply.message, ApplicantsFailed)
    ensures !r.applicantsLoading
    ensures r.jobs == d.jobs && r.jobsError == d.jobsError
  {
    match reply
    case Ok(a) => d.(selection := Some(Selection(jobId, jobTitle, a)), applicantsError := "", applicantsLoading := false)
    case Fail(m) => d.(selection := None, applicantsError := OrElse(m, ApplicantsFailed), applicantsLoading := false)
  }

  /** Selecting a job and then deleting it leaves no selection behind. */
  lemma DeleteSelectedClearsPanel(d: Dashboard, jobId: string, title: string, apps: seq<string>)
    ensures DeleteJob(FetchApplicants(d, jobId, title, Ok(apps)), jobId, true, Ok(())).selection == None
  {
  }

  // ----- Header counters -----

  /** `job.applicants?.length || 0`. */
  function ApplicantCount(j: Job): nat {
    match j.applicants
    case None => 0
    case Some(a) => |a|
  }

  /** The "total applications" counter: the reduce over the job list, seeded with 0. Every
      job's own count is part of the total, and a list of one job shows that job's count. */
  function TotalApplications(jobs: seq<Job>): (n: nat)
    ensures jobs == [] ==> n == 0
    ensures |jobs| == 1 ==> n == ApplicantCount(jobs[0])
    ensures forall i :: 0 <= i < |jobs| ==> ApplicantCount(jobs[i]) <= n
  {
    if jobs == [] then 0
    else
      var init := jobs[..|jobs| - 1];
      assert forall i :: 0 <= i < |init| ==> init[i] == jobs[i];
      TotalApplications(init) + ApplicantCount(jobs[|jobs| - 1])
  }

  /** The "active jobs" counter. */
  function ActiveJobs(jobs: seq<Job>): nat { |jobs| }

  lemma {:induction false} TotalAppend(a: seq<Job>, b: seq<Job>)
    ensures TotalApplications(a + b) == TotalApplications(a) + TotalApplications(b)
    decreases |b|
  {
    if b == [] {
      assert a + b == a;
    } else {
      assert (a + b)[..|a + b| - 1] == a + b[..|b| - 1];
      TotalAppend(a, b[..|b| - 1]);
    }
  }

  /** A delete splits both counters: what remains plus what carried the deleted id. */
  lemma {:induction false} DeleteSplitsCounters(jobs: seq<Job>, jobId: string)
    ensures TotalApplications(jobs) == TotalApplications(WithoutJob(jobs, jobId)) + TotalApplications(WithJob(jobs, jobId))
    ensures ActiveJobs(jobs) == ActiveJobs(WithoutJob(jobs, jobId)) + ActiveJobs(WithJob(jobs, jobId))
  {
    if jobs != [] {
      var rest := jobs[1..];
      var kept := WithoutJob(rest, jobId);
      var gone := WithJob(rest, jobId);
      DeleteSplitsCounters(rest, jobId);
      var head := [jobs[0]];
      assert jobs == head + rest;
      TotalAppend(head, rest);
      if jobs[0].id == jobId {
        assert WithoutJob(jobs, jobId) == kept;
        assert WithJob(jobs, jobId) == head + gone;
        TotalAppend(head, gone);
      } else {
        assert WithoutJob(jobs, jobId) == head + kept;
        assert WithJob(jobs, jobId) == gone by { assert [] + gone == gone; }
        TotalAppend(head, kept);
      }
    }
  }

  // ----- Profile form -----

  /** The profile as the server returns it; each field may be missing. */
  datatype CompanyData = CompanyData(
    companyName: Option<string>, industry: Option<string>, description: Option<string>,
    address: Option<string>, phone: Option<string>, website: Option<string>,
    establishedYear: Option<string>)

  datatype ProfileForm = ProfileForm(
    companyName: string, industry: string, description: string, address: string,
    phone: string, website: string, establishedYear: string)

  const EmptyProfileForm: ProfileForm := ProfileForm("", "", "", "", "", "", "")

  /** The edit form filled from the fetched profile, each field falling back to empty. */
  function FillProfileForm(c: CompanyData): (f: ProfileForm)
    ensures Truthy(c.companyName) ==> f.companyName == c.companyName.value
    ensures !Truthy(c.companyName) ==> f.companyName == ""
    ensures Truthy(c.industry) ==> f.industry == c.industry.value
    ensures !Truthy(c.industry) ==> f.industry == ""
    ensures Truthy(c.description) ==> f.description == c.description.value
    ensures !Truthy(c.description) ==> f.description == ""
    ensures Truthy(c.address) ==> f.address == c.address.value
    ensures !Truthy(c.address) ==> f.address == ""
    ensures Truthy(c.phone) ==> f.phone == c.phone.value
    ensures !Truthy(c.phone) ==> f.phone == ""
    ensures Truthy(c.website) ==> f.website == c.website.value
    ensures !Truthy(c.website) ==> f.website == ""
    ensures Truthy(c.establishedYear) ==> f.establishedYear == c.establishedYear.value
    ensures !Truthy(c.establishedYear) ==> f.establishedYear == ""
  {
    ProfileForm(
      OrElse(c.companyName, ""), OrElse(c.industry, ""), OrElse(c.description, ""),
      OrElse(c.address, ""), OrElse(c.phone, ""), OrElse(c.website, ""),
      OrElse(c.establishedYear, ""))
  }

  /** A profile with every field missing fills the initial empty form, and a
      complete profile comes back unchanged. */
  lemma FillProfileFormRoundTrip(f: ProfileForm)
    ensures FillProfileForm(CompanyData(None, None, None, None, None, None, None)) == EmptyProfileForm
    ensures FillProfileForm(CompanyData(Some(f.companyName), Some(f.industry), Some(f.description),
      Some(f.address), Some(f.phone), Some(f.website), Some(f.establishedYear))) == f
  {
  }

  /** The seven inputs of the profile edit form, by their `name` attribute. */
  datatype ProfileField = CompanyName | Industry | Description | Address | Phone | Website | EstablishedYear

  function FieldOf(f: ProfileForm, k: ProfileField): string {
    match k
    case CompanyName => f.companyName
    case Industry => f.industry
    case Description => f.description
    case Address => f.address
    case Phone => f.phone
    case Website => f.website
    case EstablishedYear => f.establishedYear
  }

  /** handleEditChange: the edited input takes the typed value, the other six keep theirs. */
  function HandleEditChange(f: ProfileForm, k: ProfileField, value: string): (r: ProfileForm)
    ensures FieldOf(r, k) == value
    ensures forall j :: j != k ==> FieldOf(r, j) == FieldOf(f, j)
  {
    match k
    case CompanyName => f.(companyName := value)
    case Industry => f.(industry := value)
    case Description => f.(description := value)
    case Address => f.(address := value)
    case Phone => f.(phone := value)
    case Website => f.(website := value)
    case EstablishedYear => f.(establishedYear := value)
  }

  /** Editing a field back to its old value restores the form, and the last edit of a field wins. */
  lemma EditChangeUndoes(f: ProfileForm, k: ProfileField, v: string, w: string)
    ensures HandleEditChange(HandleEditChange(f, k, v), k, FieldOf(f, k)) == f
    ensures HandleEditChange(HandleEditChange(f, k, v), k, w) == HandleEditChange(f, k, w)
  {
  }

  /** The profile panel: the shown profile, the edit form, edit mode, whether a new logo file
      is chosen, and the two banners. */
  datatype ProfilePanel = ProfilePanel(
    profile: CompanyData,
    form: ProfileForm,
    editing: bool,
    logoChosen: bool,
    message: string,
    error: string)

  /** A renewed session the server may hand back after a profile update. */
  datatype SessionUser = SessionUser(token: string, role: string, displayName: string)

  /** The update reply: its message, the saved profile, that profile's logo path, and maybe a session. */
  datatype ProfileReply = ProfileReply(message: string, data: CompanyData, logoUrl: Option<string>, user: Option<SessionUser>)

  /** The arguments of the session store's `login` call. */
  datatype LoginCall = LoginCall(token: string, role: string, displayName: string, logoUrl: Option<string>)

  /** The multipart request (its Authorization value, its text fields, whether it carries the
      logo file), the panel afterwards, and the session store call, if any. */
  datatype ProfileUpdate = ProfileUpdate(
    authorization: string,
    fields: ProfileForm,
    attachesLogo: bool,
    panel: ProfilePanel,
    login: Option<LoginCall>)

  const ProfileUpdateFailed: string := "Profil yenilənə bilmədi."

  /** handleUpdateProfile: send the edit form (and the chosen logo) with the company's token.
      Success shows the server's message and the saved profile, drops the chosen file, leaves
      edit mode and renews the session when the reply carries one. Failure only shows the error. */
  function HandleUpdateProfile(p: ProfilePanel, token: string, reply: Reply<ProfileReply>): (r: ProfileUpdate)
    ensures r.authorization == Bearer(token) && r.fields == p.form && r.attachesLogo == p.logoChosen
    ensures r.panel.form == p.form
    ensures reply.Ok? ==>
      r.panel.profile == reply.payload.data && r.panel.message == reply.payload.message && r.panel.error == ""
      && !r.panel.editing && !r.panel.logoChosen
    ensures r.login.Some? <==> reply.Ok? && reply.payload.user.Some?
    ensures r.login.Some? ==>
      var u := reply.payload.user.value;
      r.login == Some(LoginCall(u.token, u.role, u.displayName, reply.payload.logoUrl))
    ensures reply.Fail? ==>
      r.panel == p.(message := "", error := OrElse(reply.message, ProfileUpdateFailed))
  {
    var cleared := p.(message := "", error := "");
    match reply
    case Ok(res) =>
      var call := match res.user
        case Some(u) => Some(LoginCall(u.token, u.role, u.displayName, res.logoUrl))
        case None => None;
      ProfileUpdate(Bearer(token), p.form, p.logoChosen,
        cleared.(message := res.message, profile := res.data, logoChosen := false, editing := false), call)
    case Fail(m) =>
      ProfileUpdate(Bearer(token), p.form, p.logoChosen, cleared.(error := OrElse(m, ProfileUpdateFailed)), None)
  }

  /** A failed update leaves nothing behind that changes a retry: the retry sends the same
      request, and if it succeeds the panel ends exactly as a first-time success would. */
  lemma FailedUpdateRetries(p: ProfilePanel, token: string, m: Option<string>, ok: ProfileReply)
    ensures var failed := HandleUpdateProfile(p, token, Fail(m)).panel;
      HandleUpdateProfile(failed, token, Ok(ok)) == HandleUpdateProfile(p, token, Ok(ok))
  {
  }

  /** When the server saves exactly the submitted text fields, reopening the editor on the
      saved profile shows the form that was sent. */
  lemma SavedProfileRefillsForm(p: ProfilePanel, token: string, res: ProfileReply)
    requires res.data == CompanyData(Some(p.form.companyName), Some(p.form.industry), Some(p.form.description),
      Some(p.form.address), Some(p.form.phone), Some(p.form.website), Some(p.form.establishedYear))
    ensures FillProfileForm(HandleUpdateProfile(p, token, Ok(res)).panel.profile) == p.form
  {
    FillProfileFormRoundTrip(p.form);
  }
}
