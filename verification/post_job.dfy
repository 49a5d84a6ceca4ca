/** The job-posting page: its access check, the form's defaults, the category
    preselection and the reset after a successful post. */
module PostJob {
  import opened Common

  /** The page's own check: signed in as a company, or back to the home page. */
  function Gate(s: Session): (g: Gate)
    ensures g == Admit <==> s.token != "" && s.role == Company
    ensures g != Admit ==> g == Redirect(HomePath)
  {
    RoleGate(s, Company, HomePath)
  }

  const CategoriesEndpoint: string := "/api/categories"

  /** On mount: redirect home without fetching, or fetch the categories. */
  function OnMount(s: Session): (m: Mount)
    ensures m.fetches != [] <==> s.token != "" && s.role == Company
    ensures m.fetches == [] ==> m.redirect == Some(HomePath)
    ensures m.fetches != [] ==> m.redirect == None && m.fetches == [CategoriesEndpoint]
  {
    GatedMount(Gate(s), [CategoriesEndpoint])
  }

  const Negotiable: string := "Müzakirə yolu ilə"
  const FullTime: string := "Tam İş Günü"
  const NoExperience: string := "Təcrübəsiz"

  /** The job form; the deadline is kept as the text the date input holds. */
  datatype JobForm = JobForm(
    title: string, description: string, category: string, location: string,
    salaryRange: string, jobType: string, experienceLevel: string,
    applicationDeadline: string)

  const InitialForm: JobForm := JobForm("", "", "", "", Negotiable, FullTime, NoExperience, "")

  /** The three preset fields; every other field starts empty. */
  lemma InitialFormDefaults()
    ensures InitialForm.salaryRange == Negotiable
    ensures InitialForm.jobType == FullTime
    ensures InitialForm.experienceLevel == NoExperience
    ensures InitialForm.title == "" && InitialForm.description == "" && InitialForm.category == ""
    ensures InitialForm.location == "" && InitialForm.applicationDeadline == ""
  {
  }

  /** The page state: the form, the two banners, and the loading and submitting flags. */
  datatype PostState = PostState(form: JobForm, error: string, message: string, loading: bool, submitting: bool)

  /** fetchCategories, given the reply (the categories' ids). A non-empty list preselects its
      first id and an empty one leaves the current choice alone; a failure shows the fixed
      error. Either way loading ends. */
  function CategoriesLoaded(st: PostState, reply: Reply<seq<string>>): (r: PostState)
    ensures reply.Ok? && reply.payload != [] ==> r == st.(form := st.form.(category := reply.payload[0]), loading := false)
    ensures reply.Ok? && reply.payload == [] ==> r == st.(loading := false)
    ensures reply.Fail? ==> r == st.(error := CategoriesFailed, loading := false)
  {
    match reply
    case Ok(ids) => st.(form := if |ids| > 0 then st.form.(category := ids[0]) else st.form, loading := false)
    case Fail(_) => st.(error := CategoriesFailed, loading := false)
  }

  /** The state after a submit, and the form that was posted, if any. */
  datatype PostOutcome = PostOutcome(state: PostState, posted: Option<JobForm>)

  const BadDeadline: string := "Zəhmət olmasa etibarlı müraciət son tarixi daxil edin."
  const Posted: string := "İş elanı uğurla yerləşdirildi!"
  const PostFailed: string := "İş elanı yerləşdirilə bilmədi."

  /** handleSubmit. `deadlineValid` stands for the date parse of the deadline,
      `ids` for the categories loaded earlier, `reply` for the server's answer. */
  function HandleSubmit(st: PostState, ids: seq<string>, deadlineValid: bool, reply: Reply<()>): (r: PostOutcome)
    ensures r.posted.Some? <==> deadlineValid
    ensures !deadlineValid ==> r.state == st.(error := BadDeadline, message := "")
    ensures r.posted.Some? ==> r.posted.value == st.form && !r.state.submitting
    ensures deadlineValid && reply.Ok? ==>
      r.state.message == Posted && r.state.error == ""
      && r.state.form == InitialForm.(category := if ids != [] then ids[0] else "")
    ensures deadlineValid && reply.Fail? ==>
      r.state.error == OrElse(reply.message, PostFailed) && r.state.message == "" && r.state.form == st.form
    ensures r.state.loading == st.loading
  {
    var cleared := st.(error := "", message := "");
    if !deadlineValid then PostOutcome(cleared.(error := BadDeadline), None)
    else
      match reply
      case Ok(_) =>
        var reset := InitialForm.(category := if |ids| > 0 then ids[0] else "");
        PostOutcome(cleared.(message := Posted, form := reset, submitting := false), Some(st.form))
      case Fail(m) =>
        PostOutcome(cleared.(error := OrElse(m, PostFailed), submitting := false), Some(st.form))
  }

  /** The page as it opens: the initial form, loading. */
  const Opened: PostState := PostState(InitialForm, "", "", true, false)

  /** After a successful post the form is exactly what a fresh page shows once its categories have
      loaded; when they failed to load, a fresh page and the reset both leave the category empty. */
  lemma ResetMatchesFreshLoad(st: PostState, ids: seq<string>, m: Option<string>)
    ensures HandleSubmit(st, ids, true, Ok(())).state.form == CategoriesLoaded(Opened, Ok(ids)).form
    ensures HandleSubmit(st, [], true, Ok(())).state.form == CategoriesLoaded(Opened, Fail(m)).form
  {
  }

  /** Unlike the registration form, an empty category list keeps a chosen category. */
  lemma EmptyListKeepsChoice(st: PostState)
    requires st.form.category != ""
    ensures CategoriesLoaded(st, Ok([])).form.category == st.form.category
    ensures CategoriesLoaded(st, Fail(None)).form.category == st.form.category
  {
  }
}
