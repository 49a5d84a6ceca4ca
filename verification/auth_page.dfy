/** The authentication page: a three-mode state machine (login, register,
    forgot password) over one shared form, with the registration check on the
    applicant's category, the category default and the mode headers. */
module Auth {
  import opened Common

  datatype AuthMode = Login | Register | ForgotPassword

  /** The register/login form: field name to value, as the page's object spread treats it. */
  type Form = map<string, string>

  /** Value of a field; a field that is not there reads as empty, both being falsy. */
  function Get(f: Form, name: string): string {
    if name in f then f[name] else ""
  }

  const InitialForm: Form := map[
    "email" := "", "password" := "", "role" := "applicant",
    "firstName" := "", "lastName" := "", "phone" := "", "category" := "",
    "yearsOfExperience" := "", "about" := "",
    "companyName" := "", "industry" := "", "description" := "", "address" := "",
    "website" := "", "companyPhone" := "", "establishedYear" := ""]

  datatype AuthState = AuthState(
    mode: AuthMode,
    form: Form,
    forgotEmail: string,
    error: string,
    message: string,
    submitting: bool)

  const Initial: AuthState := AuthState(Login, InitialForm, "", "", "", false)

  /** The page opens in login mode with an applicant-role form. */
  lemma InitialState()
    ensures Initial.mode == Login
    ensures Get(Initial.form, "role") == "applicant" && Get(Initial.form, "category") == ""
  {
  }

  /** switchAuthMode: enter the mode and clear error, message and the forgot-password email. */
  function SwitchAuthMode(st: AuthState, m: AuthMode): (r: AuthState)
    ensures r.mode == m
    ensures r.error == "" && r.message == "" && r.forgotEmail == ""
    ensures r.form == st.form && r.submitting == st.submitting
  {
    st.(mode := m, error := "", message := "", forgotEmail := "")
  }

  /** handleChange (and the two role buttons, which set "role" the same way):
      the named field takes the value, every other field keeps its own. */
  function HandleChange(st: AuthState, name: string, value: string): (r: AuthState)
    ensures Get(r.form, name) == value
    ensures forall k :: k != name ==> Get(r.form, k) == Get(st.form, k)
    ensures r.form.Keys == st.form.Keys + {name}
    ensures r == st.(form := r.form)
  {
    st.(form := st.form[name := value])
  }

  /** Categories are fetched only in register mode for the applicant role. */
  predicate FetchesCategories(st: AuthState) {
    st.mode == Register && Get(st.form, "role") == "applicant"
  }

  /** The result of the category fetch: the first category is preselected, and an
      empty list clears the choice. A failure reports its own fixed message. */
  function CategoriesLoaded(st: AuthState, reply: Reply<seq<string>>): (r: AuthState)
    ensures reply.Ok? && reply.payload != [] ==> r == st.(form := st.form["category" := reply.payload[0]])
    ensures reply.Ok? && reply.payload == [] ==> r == st.(form := st.form["category" := ""])
    ensures reply.Fail? ==> r == st.(error := CategoriesFailed)
  {
    match reply
    case Ok(ids) => st.(form := st.form["category" := if |ids| > 0 then ids[0] else ""])
    case Fail(_) => st.(error := CategoriesFailed)
  }

  /** The category effect re-runs only when one of its two dependencies changes (whether
      the mode is registration, and the form's role), and then fetches only if its guard holds. */
  predicate Refetches(before: AuthState, after: AuthState) {
    FetchesCategories(after) &&
    ((before.mode == Register) != (after.mode == Register) || Get(before.form, "role") != Get(after.form, "role"))
  }

  /** When the category list is fetched: never on opening (login mode); on entering
      registration from another mode with the applicant role; on picking the applicant role
      in register mode when it was not already chosen; never on any other field's edit. */
  lemma FetchFollowsModeAndRole(st: AuthState, m: AuthMode, role: string, name: string, value: string)
    ensures !FetchesCategories(Initial)
    ensures Refetches(st, SwitchAuthMode(st, m)) <==>
      m == Register && st.mode != Register && Get(st.form, "role") == "applicant"
    ensures Refetches(st, HandleChange(st, "role", role)) <==>
      st.mode == Register && role == "applicant" && Get(st.form, "role") != "applicant"
    ensures name != "role" ==> !Refetches(st, HandleChange(st, name, value))
    ensures !Refetches(st, SwitchAuthMode(st, Login)) && !Refetches(st, SwitchAuthMode(st, ForgotPassword))
  {
  }

  const CategoryRequired: string := "İş sahəsi mütləqdir."
  const CanLogInNow: string := " İndi daxil ola bilərsiniz."
  const GenericError: string := "Bir xəta baş verdi."

  /** What the login endpoint returns. */
  datatype LoginData = LoginData(token: string, role: string, displayName: string)

  /** The request a submit sends. */
  datatype AuthRequest = RegisterRequest(form: Form) | LoginRequest(email: string, password: string)

  /** The state after a submit, the request sent, the credentials handed to the
      session store, and where the page navigates. */
  datatype SubmitOutcome = SubmitOutcome(
    state: AuthState,
    request: Option<AuthRequest>,
    signIn: Option<LoginData>,
    navigate: Option<string>)

  /** An applicant registration without a category is refused on the client. */
  predicate MissingCategory(st: AuthState) {
    st.mode == Register && Get(st.form, "role") == "applicant" && Get(st.form, "category") == ""
  }

  /** A fetch that returns categories preselects one, so the registration it was made for is sent
      with that category; an empty list leaves the registration refused. */
  lemma LoadedCategoryUnblocksRegistration(st: AuthState, ids: seq<string>, rr: Reply<string>, lr: Reply<LoginData>)
    requires FetchesCategories(st)
    ensures var next := CategoriesLoaded(st, Ok(ids));
      ids != [] && ids[0] != "" ==>
        !MissingCategory(next) && HandleSubmit(next, rr, lr).request == Some(RegisterRequest(next.form))
        && Get(next.form, "category") == ids[0]
    ensures var next := CategoriesLoaded(st, Ok(ids));
      ids == [] ==>
        MissingCategory(next) && HandleSubmit(next, rr, lr).request.None?
    ensures FetchesCategories(CategoriesLoaded(st, Ok(ids)))
  {
  }

  /** handleSubmit: register in register mode, otherwise log in. `registerReply`
      and `loginReply` are the server's answers to the call made. */
  function HandleSubmit(st: AuthState, registerReply: Reply<string>, loginReply: Reply<LoginData>): (r: SubmitOutcome)
    ensures r.request.None? <==> MissingCategory(st)
    ensures MissingCategory(st) ==> r.state == st.(error := CategoryRequired, message := "", submitting := false)
    ensures !r.state.submitting
    ensures st.mode == Register && r.request.Some? ==> r.request == Some(RegisterRequest(st.form))
    ensures st.mode != Register ==>
      r.request == Some(LoginRequest(Get(st.form, "email"), Get(st.form, "password")))
    ensures st.mode == Register && r.request.Some? && registerReply.Ok? ==>
      r.state.mode == Login && r.state.message == registerReply.payload + CanLogInNow && r.state.error == ""
    ensures st.mode == Register && r.request.Some? && registerReply.Fail? ==>
      r.state.mode == st.mode && r.state.error == OrElse(registerReply.message, GenericError)
    ensures r.signIn.Some? <==> st.mode != Register && loginReply.Ok?
    ensures r.signIn.Some? ==> r.signIn == Some(loginReply.payload) && r.navigate == Some(HomePath)
    ensures r.signIn.None? ==> r.navigate.None?
    ensures st.mode != Register && loginReply.Fail? ==> r.state.error == OrElse(loginReply.message, GenericError)
    ensures st.mode != Register ==> r.state.mode == st.mode && r.state.message == ""
    ensures r.signIn.Some? ==> r.state.error == ""
    ensures st.mode == Register && registerReply.Fail? && r.request.Some? ==> r.state.message == ""
    ensures r.state.form == st.form && r.state.forgotEmail == st.forgotEmail
  {
    var cleared := st.(error := "", message := "", submitting := false);
    if st.mode == Register then
      if Get(st.form, "role") == "applicant" && Get(st.form, "category") == "" then
        SubmitOutcome(cleared.(error := CategoryRequired), None, None, None)
      else
        match registerReply
        case Ok(m) => SubmitOutcome(cleared.(message := m + CanLogInNow, mode := Login), Some(RegisterRequest(st.form)), None, None)
        case Fail(m) => SubmitOutcome(cleared.(error := OrElse(m, GenericError)), Some(RegisterRequest(st.form)), None, None)
    else
      var req := LoginRequest(Get(st.form, "email"), Get(st.form, "password"));
      match loginReply
      case Ok(d) => SubmitOutcome(cleared, Some(req), Some(d), Some(HomePath))
      case Fail(m) => SubmitOutcome(cleared.(error := OrElse(m, GenericError)), Some(req), None, None)
  }

  /** handleForgotPasswordSubmit: on success show the server's message and clear the email. */
  function HandleForgotPasswordSubmit(st: AuthState, reply: Reply<string>): (r: AuthState)
    ensures reply.Ok? ==> r.message == reply.payload && r.forgotEmail == "" && r.error == ""
    ensures reply.Fail? ==> r.error == OrElse(reply.message, GenericError) && r.message == "" && r.forgotEmail == st.forgotEmail
    ensures !r.submitting && r.mode == st.mode && r.form == st.form
  {
    var cleared := st.(error := "", message := "", submitting := false);
    match reply
    case Ok(m) => cleared.(message := m, forgotEmail := "")
    case Fail(m) => cleared.(error := OrElse(m, GenericError))
  }

  /** A successful reset request leaves the page exactly as a fresh entry into the same mode
      would, plus the server's message; a failed one keeps the typed email for a retry. */
  lemma ForgotPasswordSuccessIsFreshEntry(st: AuthState, msg: string, m: Option<string>)
    ensures HandleForgotPasswordSubmit(st, Ok(msg)) == SwitchAuthMode(st, st.mode).(message := msg, submitting := false)
    ensures HandleForgotPasswordSubmit(st, Fail(m)).forgotEmail == st.forgotEmail
    ensures SwitchAuthMode(HandleForgotPasswordSubmit(st, Fail(m)), st.mode) == SwitchAuthMode(st, st.mode).(submitting := false)
  {
  }

  /** A successful registration lands in login mode, where the next submit logs in with the same email and password. */
  lemma RegisterThenLogin(st: AuthState, msg: string, rr: Reply<string>, lr: Reply<LoginData>)
    requires st.mode == Register && !MissingCategory(st)
    ensures var next := HandleSubmit(st, Ok(msg), lr).state;
      next.mode == Login
      && HandleSubmit(next, rr, lr).request == Some(LoginRequest(Get(st.form, "email"), Get(st.form, "password")))
  {
  }

  datatype HeaderInfo = HeaderInfo(title: string, subtitle: string)

  /** getHeaderInfo: the register and forgot-password headers, and the login header otherwise. */
  function Header(m: AuthMode): (h: HeaderInfo)
    ensures m == Register ==> h.title == "Qeydiyyat"
    ensures m == ForgotPassword ==> h.title == "Şifrəni Unutdum"
    ensures m == Login ==> h.title == "Daxil Ol"
  {
    match m
    case Register => HeaderInfo("Qeydiyyat", "Karyeranızı inkişaf etdirmək üçün bizə qoşulun")
    case ForgotPassword => HeaderInfo("Şifrəni Unutdum", "Email ünvanınızı daxil edin və şifrə sıfırlama linki alın")
    case _ => HeaderInfo("Daxil Ol", "Hesabınıza daxil olun və iş imkanlarını kəşf edin")
  }

  /** Each mode shows its own title. */
  lemma HeaderTitlesDistinct(a: AuthMode, b: AuthMode)
    requires a != b
    ensures Header(a).title != Header(b).title
  {
    assert "Qeydiyyat"[0] != "Daxil Ol"[0];
    assert "Qeydiyyat"[0] != "Şifrəni Unutdum"[0];
    assert "Daxil Ol"[0] != "Şifrəni Unutdum"[0];
  }
}
