/** The application's route table as data — path, page, and the props of the
    `ProtectedRoute` wrapper when there is one — and its agreement with the
    checks the pages run themselves. The wrapper's own decision is not part of
    this model: only the props written in the table are. */
module Routes {
  import opened Common
  import ApplicantDashboard
  import CompanyDashboard
  import PostJob
  import EditJob
  import AdminDashboard

  datatype Page =
    | HomePage | AuthPage | JobDetailPage | ApplicantsPage | ApplicantDetailPage
    | ApplicantDashboardPage | PostJobPage | CompanyDashboardPage | EditJobPage
    | AdminDashboardPage | NotFoundPage

  /** The props given to `ProtectedRoute`, each `None` when the route leaves it out: what the
      wrapper assumes for a missing prop is not part of this model. */
  datatype Policy = Policy(requireAuth: Option<bool>, allowedRoles: Option<seq<Role>>)

  datatype Route = Route(path: string, page: Page, guard: Option<Policy>)

  const AuthOnly: Policy := Policy(Some(true), None)

  function Only(r: Role): Policy { Policy(None, Some([r])) }

  const Table: seq<Route> := [
    Route("/", HomePage, None),
    Route("/auth", AuthPage, None),
    Route("/jobs/:id", JobDetailPage, None),
    Route("/reset-password/:token", AuthPage, None),
    Route("/applicants", ApplicantsPage, Some(AuthOnly)),
    Route("/applicants/:id", ApplicantDetailPage, Some(AuthOnly)),
    Route("/applicant-dashboard", ApplicantDashboardPage, Some(Only(Applicant))),
    Route("/post-job", PostJobPage, Some(Only(Company))),
    Route("/company-dashboard", CompanyDashboardPage, Some(Only(Company))),
    Route("/edit-job/:id", EditJobPage, Some(Only(Company))),
    Route("/admin-dashboard", AdminDashboardPage, Some(Only(Admin))),
    Route("*", NotFoundPage, None)]

  const CatchAll: string := "*"

  /** A route whose wrapper lists `allowedRoles`. */
  predicate RoleRestricted(r: Route) {
    r.guard.Some? && r.guard.value.allowedRoles.Some?
  }

  function AllowedRoles(r: Route): seq<Role>
    requires RoleRestricted(r)
  {
    r.guard.value.allowedRoles.value
  }

  /** The page's own check admits exactly the signed-in sessions of a listed role. */
  predicate GateMatches(r: Route, s: Session)
    requires RoleRestricted(r)
  {
    PageGate(r.page, s).Some? && (PageGate(r.page, s) == Some(Admit) <==> s.token != "" && s.role in AllowedRoles(r))
  }

  function UnguardedPaths(t: seq<Route>): set<string> {
    set i | 0 <= i < |t| && t[i].guard.None? :: t[i].path
  }

  function AuthOnlyPaths(t: seq<Route>): set<string> {
    set i | 0 <= i < |t| && t[i].guard == Some(AuthOnly) :: t[i].path
  }

  /** Paths whose route lists `r` among its allowed roles. */
  function PathsFor(t: seq<Route>, r: Role): set<string> {
    set i | 0 <= i < |t| && RoleRestricted(t[i]) && r in AllowedRoles(t[i]) :: t[i].path
  }

  /** The page the first route with this path renders. */
  function PageAt(t: seq<Route>, path: string): (p: Option<Page>)
    ensures p.Some? <==> exists i :: 0 <= i < |t| && t[i].path == path
    ensures p.Some? ==> exists i :: 0 <= i < |t| && t[i].path == path && t[i].page == p.value
  {
    if t == [] then None
    else if t[0].path == path then Some(t[0].page)
    else
      var p := PageAt(t[1..], path);
      assert p.Some? ==> exists i :: 0 < i < |t| && t[i].path == path && t[i].page == p.value by {
        if p.Some? {
          var i :| 0 <= i < |t[1..]| && t[1..][i].path == path && t[1..][i].page == p.value;
          assert t[i + 1] == t[1..][i];
        }
      }
      assert (exists i :: 0 <= i < |t| && t[i].path == path) ==> (exists i :: 0 <= i < |t[1..]| && t[1..][i].path == path) by {
        if exists i :: 0 <= i < |t| && t[i].path == path {
          var i :| 0 <= i < |t| && t[i].path == path;
          assert i > 0 && t[1..][i - 1] == t[i];
        }
      }
      p
  }

  /** Lookup finds the first route carrying the path. */
  lemma {:induction false} PageAtFirstMatch(t: seq<Route>, path: string, i: nat)
    requires i < |t| && t[i].path == path
    requires forall j :: 0 <= j < i ==> t[j].path != path
    ensures PageAt(t, path) == Some(t[i].page)
  {
    if i > 0 {
      PageAtFirstMatch(t[1..], path, i - 1);
    }
  }

  /** No two routes share a path, so lookup by path is unambiguous. */
  lemma PathsDistinct()
    ensures forall i, j :: 0 <= i < j < |Table| ==> Table[i].path != Table[j].path
  {
    forall i, j | 0 <= i < j < |Table| ensures Table[i].path != Table[j].path {
      var a := Table[i].path;
      var b := Table[j].path;
      assert |a| != |b| || a[0] != b[0] || (|a| > 1 && a[1] != b[1]);
    }
  }

  /** Besides the catch-all, exactly four routes carry no guard. */
  lemma PublicRoutes()
    ensures UnguardedPaths(Table) == {"/", "/auth", "/jobs/:id", "/reset-password/:token", CatchAll}
  {
    var u := UnguardedPaths(Table);
    assert Table[0].guard.None? && Table[1].guard.None? && Table[2].guard.None?;
    assert Table[3].guard.None? && Table[11].guard.None?;
    assert Table[0].path in u && Table[1].path in u && Table[2].path in u && Table[3].path in u && Table[11].path in u;
  }

  /** The two applicant-listing routes need a session but no particular role. */
  lemma AuthOnlyRoutes()
    ensures AuthOnlyPaths(Table) == {"/applicants", "/applicants/:id"}
    ensures forall i :: 0 <= i < |Table| && Table[i].guard == Some(AuthOnly) ==> Table[i].guard.value.allowedRoles.None?
  {
    var u := AuthOnlyPaths(Table);
    assert Table[4].path in u && Table[5].path in u;
  }

  /** Every role-restricted route admits exactly one role. */
  lemma SingleRoleRoutes()
    ensures forall i :: 0 <= i < |Table| && RoleRestricted(Table[i]) ==> |AllowedRoles(Table[i])| == 1
  {
  }

  /** Which routes each role reaches through `allowedRoles`. */
  lemma RoleRoutes()
    ensures PathsFor(Table, Applicant) == {"/applicant-dashboard"}
    ensures PathsFor(Table, Company) == {"/post-job", "/company-dashboard", "/edit-job/:id"}
    ensures PathsFor(Table, Admin) == {"/admin-dashboard"}
    ensures PathsFor(Table, Anonymous) == {}
  {
    assert Table[6].path in PathsFor(Table, Applicant);
    assert Table[7].path in PathsFor(Table, Company);
    assert Table[8].path in PathsFor(Table, Company);
    assert Table[9].path in PathsFor(Table, Company);
    assert Table[10].path in PathsFor(Table, Admin);
  }

  /** The reset-password link opens the authentication page. */
  lemma ResetLinkOpensAuthPage()
    ensures PageAt(Table, "/reset-password/:token") == Some(AuthPage)
  {
    PathsDistinct();
    PageAtFirstMatch(Table, "/reset-password/:token", 3);
  }

  /** The catch-all comes last, is unguarded, and is the only `*` route. */
  lemma CatchAllIsLast()
    ensures Table[|Table| - 1] == Route(CatchAll, NotFoundPage, None)
    ensures forall i :: 0 <= i < |Table| - 1 ==> Table[i].path != CatchAll
  {
  }

  /** The check a page runs on mount, for the pages that run one. */
  function PageGate(p: Page, s: Session): Option<Gate> {
    match p
    case ApplicantDashboardPage => Some(ApplicantDashboard.Gate(s))
    case PostJobPage => Some(PostJob.Gate(s))
    case CompanyDashboardPage => Some(CompanyDashboard.Gate(s))
    case EditJobPage => Some(EditJob.Gate(s))
    case AdminDashboardPage => Some(AdminDashboard.Gate(s))
    case _ => None
  }

  /** The two layers agree: every role-restricted route renders a page whose own check
      admits exactly the signed-in sessions of a role the route lists. */
  lemma LayersAgree(s: Session)
    ensures forall i :: 0 <= i < |Table| && RoleRestricted(Table[i]) ==> GateMatches(Table[i], s)
  {
    forall i | 0 <= i < |Table| && RoleRestricted(Table[i]) ensures GateMatches(Table[i], s) {
      assert 6 <= i <= 10;
    }
  }

  /** Conversely, only role-restricted routes render a page with its own check. */
  lemma PageGatesOnlyBehindRoles(s: Session)
    ensures forall i :: 0 <= i < |Table| && PageGate(Table[i].page, s).Some? ==> RoleRestricted(Table[i])
  {
  }

  /** A successful job update lands on a route that renders the company dashboard, whose own
      check admits every session the editing page admitted. */
  lemma UpdateLandsOnDashboard(reply: Reply<Option<EditJob.JobData>>, s: Session)
    ensures var r := EditJob.HandleSubmit(reply);
      r.navigate.Some? ==> PageAt(Table, r.navigate.value) == Some(CompanyDashboardPage)
    ensures EditJob.Gate(s) == Admit ==> CompanyDashboard.Gate(s) == Admit
  {
    PathsDistinct();
    PageAtFirstMatch(Table, EditJob.CompanyDashboardPath, 8);
  }
}
