/** The job-editing page: its access check (which sends strangers to the
    login page), when it loads the job, how the form is filled, and where a
    successful update leads. */
module EditJob {
  import opened Common
  import PostJob

  /** The page's own check: a company, or off to the authentication page. */
  function Gate(s: Session): (g: Gate)
    ensures g == Admit <==> s.token != "" && s.role == Company
    ensures g != Admit ==> g == Redirect(AuthPath)
  {
    RoleGate(s, Company, AuthPath)
  }

  /** The load effect runs only for a signed-in company. */
  predicate FetchesJob(s: Session) {
    s.token != "" && s.role == Company
  }

  /** The two mount effects agree: the job is loaded exactly when the gate admits. */
  lemma FetchIffAdmitted(s: Session)
    ensures FetchesJob(s) <==> Gate(s) == Admit
    ensures !FetchesJob(s) ==> Gate(s) == Redirect(AuthPath)
  {
  }

  /** The job as the server returns it; `categoryId` is the nested category's `_id`. */
  datatype JobData = JobData(
    title: Option<string>, description: Option<string>, categoryId: Option<string>,
    location: Option<string>, salaryRange: Option<string>, jobType: Option<string>,
    experienceLevel: Option<string>, applicationDeadline: Option<string>)

  /** The form filled from the loaded job. Text fields fall back to empty, the job type
      and experience level to their defaults, and the deadline to `today` (the clock). */
  function FillForm(d: JobData, today: string): (f: PostJob.JobForm)
    ensures Truthy(d.title) ==> f.title == d.title.value
    ensures !Truthy(d.title) ==> f.title == ""
    ensures Truthy(d.description) ==> f.description == d.description.value
    ensures !Truthy(d.description) ==> f.description == ""
    ensures Truthy(d.categoryId) ==> f.category == d.categoryId.value
    ensures !Truthy(d.categoryId) ==> f.category == ""
    ensures Truthy(d.location) ==> f.location == d.location.value
    ensures !Truthy(d.location) ==> f.location == ""
    ensures Truthy(d.salaryRange) ==> f.salaryRange == d.salaryRange.value
    ensures !Truthy(d.salaryRange) ==> f.salaryRange == ""
    ensures Truthy(d.jobType) ==> f.jobType == d.jobType.value
    ensures !Truthy(d.jobType) ==> f.jobType == PostJob.FullTime
    ensures Truthy(d.experienceLevel) ==> f.experienceLevel == d.experienceLevel.value
    ensures !Truthy(d.experienceLevel) ==> f.experienceLevel == PostJob.NoExperience
    ensures Truthy(d.applicationDeadline) ==> f.applicationDeadline == d.applicationDeadline.value
    ensures !Truthy(d.applicationDeadline) ==> f.applicationDeadline == today
  {
    PostJob.JobForm(
      OrElse(d.title, ""), OrElse(d.description, ""), OrElse(d.categoryId, ""),
      OrElse(d.location, ""), OrElse(d.salaryRange, ""),
      OrElse(d.jobType, PostJob.FullTime), OrElse(d.experienceLevel, PostJob.NoExperience),
      OrElse(d.applicationDeadline, today))
  }

  /** A job with nothing filled in yields the posting page's defaults, except that the
      salary range falls back to empty rather than "negotiable". */
  lemma EmptyJobFillsDefaults(today: string)
    ensures var f := FillForm(JobData(None, None, None, None, None, None, None, None), today);
      f == PostJob.InitialForm.(salaryRange := "", applicationDeadline := today)
  {
  }

  /** A fully filled job comes back field for field. */
  lemma CompleteJobRoundTrips(f: PostJob.JobForm, today: string)
    requires f.jobType != "" && f.experienceLevel != "" && f.applicationDeadline != ""
    ensures FillForm(JobData(Some(f.title), Some(f.description), Some(f.category), Some(f.location),
      Some(f.salaryRange), Some(f.jobType), Some(f.experienceLevel), Some(f.applicationDeadline)), today) == f
  {
  }

  const Updated: string := "İş elanı uğurla yeniləndi!"
  const UpdateFailed: string := "İş elanı yenilənə bilmədi."
  const CompanyDashboardPath: string := "/company-dashboard"

  /** What handleSubmit leaves: the messages and the navigation it triggers. */
  datatype UpdateOutcome = UpdateOutcome(error: string, message: string, navigate: Option<string>)

  /** handleSubmit. A success reply carries the updated job in its body, or `None` when the body
      has no job: the refill that follows the success message then throws, the error handler
      shows the fixed failure message beside it, and the page stays. A failure stays with the
      server's message or the fixed one. */
  function HandleSubmit(reply: Reply<Option<JobData>>): (r: UpdateOutcome)
    ensures r.navigate.Some? <==> reply.Ok? && reply.payload.Some?
    ensures r.navigate.Some? ==> r == UpdateOutcome("", Updated, Some(CompanyDashboardPath))
    ensures r.message == Updated <==> reply.Ok?
    ensures reply.Ok? && reply.payload.None? ==> r == UpdateOutcome(UpdateFailed, Updated, None)
    ensures reply.Fail? ==> r == UpdateOutcome(OrElse(reply.message, UpdateFailed), "", None)
    ensures r.error == "" <==> r.navigate.Some?
  {
    match reply
    case Ok(Some(_)) => UpdateOutcome("", Updated, Some(CompanyDashboardPath))
    case Ok(None) => UpdateOutcome(UpdateFailed, Updated, None)
    case Fail(m) => UpdateOutcome(OrElse(m, UpdateFailed), "", None)
  }
}
