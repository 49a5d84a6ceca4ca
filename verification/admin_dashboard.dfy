/** The admin dashboard: its access check and loading flag, the side menu,
    the panel each tab renders, and the header label. */
module AdminDashboard {
  import opened Common

  /** The page's own check: signed in as an admin, or back to the home page. */
  function Gate(s: Session): (g: Gate)
    ensures g == Admit <==> s.token != "" && s.role == Admin
    ensures g != Admit ==> g == Redirect(HomePath)
  {
    RoleGate(s, Admin, HomePath)
  }

  /** The mount effect: the loading screen is lifted only on the admitting path. */
  datatype AdminMount = AdminMount(gate: Gate, loading: bool)

  function OnMount(s: Session, loading: bool): (m: AdminMount)
    ensures m.gate == Admit <==> s.token != "" && s.role == Admin
    ensures m.gate != Admit ==> m.gate == Redirect(HomePath)
    ensures !m.loading <==> (s.token != "" && s.role == Admin) || !loading
    ensures m.gate != Admit ==> m.loading == loading
  {
    var g := Gate(s);
    AdminMount(g, if g == Admit then false else loading)
  }

  /** The management panels. */
  datatype Panel = DashboardStats | UserManagement | CompanyManagement | JobManagement | CategoryManagement

  /** A side-menu entry: its tab id and its `label` (a reserved word in Dafny). */
  datatype MenuItem = MenuItem(id: string, caption: string)

  const Menu: seq<MenuItem> := [
    MenuItem("dashboard", "Dashboard"),
    MenuItem("users", "İstifadəçilər"),
    MenuItem("companies", "Şirkətlər"),
    MenuItem("jobs", "İş Elanları"),
    MenuItem("categories", "Kateqoriyalar")]

  /** The menu's ids, in order. */
  lemma MenuIds()
    ensures |Menu| == 5
    ensures Menu[0].id == "dashboard" && Menu[1].id == "users" && Menu[2].id == "companies"
    ensures Menu[3].id == "jobs" && Menu[4].id == "categories"
    ensures forall i, j :: 0 <= i < j < |Menu| ==> Menu[i].id != Menu[j].id
  {
    assert "dashboard"[0] != "users"[0] && "dashboard"[0] != "companies"[0];
    assert "dashboard"[0] != "jobs"[0] && "dashboard"[0] != "categories"[0];
    assert "users"[0] != "companies"[0] && "users"[0] != "jobs"[0] && "users"[0] != "categories"[0];
    assert "companies"[1] != "categories"[1] && "companies"[0] != "jobs"[0];
    assert "jobs"[0] != "categories"[0];
  }

  /** renderContent: each tab id its own panel, anything else the statistics panel. */
  function RenderContent(tab: string): (p: Panel)
    ensures tab == "users" <==> p == UserManagement
    ensures tab == "companies" <==> p == CompanyManagement
    ensures tab == "jobs" <==> p == JobManagement
    ensures tab == "categories" <==> p == CategoryManagement
  {
    match tab
    case "dashboard" => DashboardStats
    case "users" => UserManagement
    case "companies" => CompanyManagement
    case "jobs" => JobManagement
    case "categories" => CategoryManagement
    case _ => DashboardStats
  }

  /** `menuItems.find(item => item.id === tab)`. */
  function Find(items: seq<MenuItem>, tab: string): (r: Option<MenuItem>)
    ensures r.Some? ==> r.value in items && r.value.id == tab
    ensures r.None? <==> forall k :: 0 <= k < |items| ==> items[k].id != tab
    ensures r.Some? ==> exists k :: 0 <= k < |items| && items[k] == r.value
                                    && forall j :: 0 <= j < k ==> items[j].id != tab
  {
    if items == [] then None
    else if items[0].id == tab then Some(items[0])
    else
      var r := Find(items[1..], tab);
      assert r.Some? ==> exists k :: 0 < k < |items| && items[k] == r.value
                                     && forall j :: 0 <= j < k ==> items[j].id != tab by {
        if r.Some? {
          var k :| 0 <= k < |items[1..]| && items[1..][k] == r.value
            && forall j :: 0 <= j < k ==> items[1..][j].id != tab;
          assert items[k + 1] == r.value;
          forall j | 0 <= j < k + 1 ensures items[j].id != tab {
            if j > 0 { assert items[j] == items[1..][j - 1]; }
          }
        }
      }
      r
  }

  /** The header label: the active menu entry's label, or "Dashboard" when no entry matches. */
  function HeaderLabel(tab: string): (h: string)
    ensures (forall k :: 0 <= k < |Menu| ==> Menu[k].id != tab) ==> h == "Dashboard"
    ensures forall k :: 0 <= k < |Menu| && Menu[k].id == tab ==> h == Menu[k].caption
  {
    MenuIds();
    match Find(Menu, tab)
    case Some(item) => if item.caption != "" then item.caption else "Dashboard"
    case None => "Dashboard"
  }

  /** The header and the body never disagree: the label reads "Dashboard" exactly when the statistics panel shows. */
  lemma HeaderMatchesContent(tab: string)
    ensures HeaderLabel(tab) == "Dashboard" <==> RenderContent(tab) == DashboardStats
  {
    MenuIds();
    var p := RenderContent(tab);
    if tab == "users" { assert HeaderLabel(tab) == Menu[1].caption; assert Menu[1].caption[0] != 'D'; }
    else if tab == "companies" { assert HeaderLabel(tab) == Menu[2].caption; assert Menu[2].caption[0] != 'D'; }
    else if tab == "jobs" { assert HeaderLabel(tab) == Menu[3].caption; assert Menu[3].caption[0] != 'D'; }
    else if tab == "categories" { assert HeaderLabel(tab) == Menu[4].caption; assert Menu[4].caption[0] != 'D'; }
    else if tab == "dashboard" { assert HeaderLabel(tab) == Menu[0].caption; }
    else { assert forall k :: 0 <= k < |Menu| ==> Menu[k].id != tab; }
  }

  /** Clicking a menu entry shows that entry's own panel: the five entries reach five distinct panels. */
  lemma MenuReachesEveryPanel(i: int, j: int)
    requires 0 <= i < |Menu| && 0 <= j < |Menu| && i != j
    ensures RenderContent(Menu[i].id) != RenderContent(Menu[j].id)
  {
    MenuIds();
  }
}
