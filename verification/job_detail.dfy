/** The public job page: who may apply, whether the user already has, which of
    the three bottom panels shows, the company logo and the request header. */
module JobDetail {
  import opened Common

  const LoginFirst: string := "Zəhmət olmasa müraciət etmək üçün daxil olun."
  const ApplicantsOnly: string := "Yalnız iş axtaranlar müraciət edə bilərlər."
  const ApplyFailed: string := "Müraciət edilə bilmədi."

  /** The apply-related state of the page. */
  datatype ApplyState = ApplyState(message: string, isApplying: bool)

  /** The state after handleApply, and whether it posted an application. */
  datatype ApplyResult = ApplyResult(state: ApplyState, requested: bool)

  /** handleApply: the token is checked first, then the role; only then is the
      application posted, and the server's reply becomes the message. */
  function HandleApply(s: Session, st: ApplyState, reply: Reply<string>): (r: ApplyResult)
    ensures r.requested <==> s.token != "" && s.role == Applicant
    ensures s.token == "" ==> r.state == st.(message := LoginFirst)
    ensures s.token != "" && s.role != Applicant ==> r.state == st.(message := ApplicantsOnly)
    ensures r.requested && reply.Ok? ==> r.state.message == reply.payload
    ensures r.requested && reply.Fail? ==> r.state.message == OrElse(reply.message, ApplyFailed)
    ensures r.requested ==> !r.state.isApplying
  {
    if s.token == "" then ApplyResult(st.(message := LoginFirst), false)
    else if s.role != Applicant then ApplyResult(st.(message := ApplicantsOnly), false)
    else
      var msg := match reply
        case Ok(m) => m
        case Fail(m) => OrElse(m, ApplyFailed);
      ApplyResult(ApplyState(msg, false), true)
  }

  /** `job.applicants?.some(a => a.user === user.id)`, scanning the applicants' user ids. */
  function HasApplied(applicants: Option<seq<string>>, userId: string): (b: bool)
    ensures b <==> applicants.Some? && exists k :: 0 <= k < |applicants.value| && applicants.value[k] == userId
  {
    match applicants
    case None => false
    case Some(users) => AnyIs(users, userId)
  }

  function AnyIs(users: seq<string>, userId: string): (b: bool)
    ensures b <==> exists k :: 0 <= k < |users| && users[k] == userId
  {
    if users == [] then false
    else if users[0] == userId then true
    else
      var b := AnyIs(users[1..], userId);
      assert b ==> exists k :: 0 < k < |users| && users[k] == userId by {
        if b {
          var k :| 0 <= k < |users[1..]| && users[1..][k] == userId;
          assert users[k + 1] == userId;
        }
      }
      b
  }

  /** Which parts of the apply area render. */
  datatype Panels = Panels(applyButton: bool, applyDisabled: bool, loginPrompt: bool, companyNotice: bool)

  function VisiblePanels(s: Session, hasApplied: bool, isApplying: bool): (p: Panels)
    ensures p.applyButton <==> s.role == Applicant
    ensures p.applyDisabled <==> hasApplied || isApplying
    ensures p.loginPrompt <==> s.token == ""
    ensures p.companyNotice <==> s.role == Company
  {
    Panels(s.role == Applicant, hasApplied || isApplying, s.token == "", s.role == Company)
  }

  function PanelCount(p: Panels): nat {
    (if p.applyButton then 1 else 0) + (if p.loginPrompt then 1 else 0) + (if p.companyNotice then 1 else 0)
  }

  /** When anonymity means "no role", at most one panel shows; an admin sees none. */
  lemma AtMostOnePanel(s: Session, hasApplied: bool, isApplying: bool)
    requires WellFormed(s)
    ensures PanelCount(VisiblePanels(s, hasApplied, isApplying)) <= 1
    ensures s.role == Admin ==> PanelCount(VisiblePanels(s, hasApplied, isApplying)) == 0
  {
  }

  /** Without that invariant the page would show both the apply button and the login prompt. */
  lemma RoleWithoutTokenShowsTwoPanels(hasApplied: bool, isApplying: bool)
    ensures PanelCount(VisiblePanels(Session("", Applicant, "u1"), hasApplied, isApplying)) == 2
  {
  }

  /** A shown button is a button that posts: for every well-formed session that is shown the
      apply button, handleApply sends a request. */
  lemma VisibleButtonApplies(s: Session, st: ApplyState, reply: Reply<string>, hasApplied: bool)
    requires WellFormed(s)
    requires VisiblePanels(s, hasApplied, st.isApplying).applyButton
    ensures HandleApply(s, st, reply).requested
  {
  }

  const DefaultCompanyLogo: string := "https://via.placeholder.com/150"

  /** The company logo: the uploaded path on the server unless it is missing or is the placeholder itself. */
  function CompanyLogoUrl(logoUrl: Option<string>): (url: string)
    ensures Truthy(logoUrl) && logoUrl.value != DefaultCompanyLogo ==> url == ServerBase + logoUrl.value
    ensures !(Truthy(logoUrl) && logoUrl.value != DefaultCompanyLogo) ==> url == DefaultCompanyLogo
    ensures url == DefaultCompanyLogo <==> !(Truthy(logoUrl) && logoUrl.value != DefaultCompanyLogo)
  {
    assert ServerBase[8] != DefaultCompanyLogo[8];
    if Truthy(logoUrl) && logoUrl.value != DefaultCompanyLogo then ServerBase + logoUrl.value
    else DefaultCompanyLogo
  }

  /** The Authorization header of the job fetch: present only with a token. */
  function AuthHeader(token: string): (h: Option<string>)
    ensures h.Some? <==> token != ""
    ensures h.Some? ==> h.value == Bearer(token)
  {
    if token != "" then Some(Bearer(token)) else None
  }
}
