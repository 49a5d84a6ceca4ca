/** The applicant's own dashboard: its access check, and the editing of the
    profile form's lists (skills, education, work experience) through draft
    entries that are appended, removed and reset. */
module ApplicantDashboard {
  import opened Common

  // ----- Access check -----

  /** The page's own check: signed in as an applicant, or back to the home page. */
  function Gate(s: Session): (g: Gate)
    ensures g == Admit <==> s.token != "" && s.role == Applicant
    ensures g != Admit ==> g == Redirect(HomePath)
  {
    RoleGate(s, Applicant, HomePath)
  }

  const ProfileEndpoint: string := "/api/applicants/me"
  const CategoriesEndpoint: string := "/api/categories"

  /** On mount: redirect home without fetching, or fetch the profile and the categories. */
  function OnMount(s: Session): (m: Mount)
    ensures m.fetches != [] <==> s.token != "" && s.role == Applicant
    ensures m.fetches == [] ==> m.redirect == Some(HomePath)
    ensures m.fetches != [] ==> m.redirect == None && m.fetches == [ProfileEndpoint, CategoriesEndpoint]
  {
    GatedMount(Gate(s), [ProfileEndpoint, CategoriesEndpoint])
  }

  // ----- JavaScript String.prototype.trim -----

  /** White space and line terminators as `trim` strips them. */
  predicate IsJsSpace(c: char) {
    || c == '\t' || c == '\n' || c == '\U{000B}' || c == '\U{000C}' || c == '\r'
    || c == ' ' || c == '\U{00A0}' || c == '\U{1680}'
    || ('\U{2000}' <= c <= '\U{200A}')
    || c == '\U{2028}' || c == '\U{2029}' || c == '\U{202F}' || c == '\U{205F}'
    || c == '\U{3000}' || c == '\U{FEFF}'
  }

  predicate AllSpace(s: string, lo: int, hi: int)
    requires 0 <= lo <= hi <= |s|
  {
    forall i :: lo <= i < hi ==> IsJsSpace(s[i])
  }

  /** First index at or after `i` that is not white space (or `|s|`). */
  function SkipLeading(s: string, i: nat): (k: nat)
    requires i <= |s|
    ensures i <= k <= |s|
    ensures AllSpace(s, i, k)
    ensures k < |s| ==> !IsJsSpace(s[k])
    decreases |s| - i
  {
    if i == |s| || !IsJsSpace(s[i]) then i else SkipLeading(s, i + 1)
  }

  /** One past the last index before `j`, and not before `lo`, that is not white space (or `lo`). */
  function SkipTrailing(s: string, lo: nat, j: nat): (k: nat)
    requires lo <= j <= |s|
    ensures lo <= k <= j
    ensures AllSpace(s, k, j)
    ensures k > lo ==> !IsJsSpace(s[k - 1])
    decreases j - lo
  {
    if j == lo || !IsJsSpace(s[j - 1]) then j else SkipTrailing(s, lo, j - 1)
  }

  /** `s.trim()`: the slice between the leading and the trailing white space. */
  function Trim(s: string): (t: string)
    ensures exists lo, hi :: 0 <= lo <= hi <= |s| && t == s[lo..hi] && AllSpace(s, 0, lo) && AllSpace(s, hi, |s|)
    ensures t != "" ==> !IsJsSpace(t[0]) && !IsJsSpace(t[|t| - 1])
    ensures t == "" <==> AllSpace(s, 0, |s|)
  {
    var lo := SkipLeading(s, 0);
    var hi := SkipTrailing(s, lo, |s|);
    assert lo == |s| ==> hi == lo;
    assert AllSpace(s, 0, lo) && AllSpace(s, hi, |s|);
    assert lo < |s| ==> hi > lo;
    s[lo..hi]
  }

  /** Trimming twice is trimming once. */
  lemma TrimIdempotent(s: string)
    ensures Trim(Trim(s)) == Trim(s)
  {
    var t := Trim(s);
    if t != "" {
      assert SkipLeading(t, 0) == 0;
      assert SkipTrailing(t, 0, |t|) == |t|;
      assert t[0..|t|] == t;
    }
  }

  // ----- The profile form -----

  datatype Education = Education(
    degree: string, major: string, fieldOfStudy: string,
    institution: string, startYear: string, endYear: string)

  datatype Experience = Experience(
    jobTitle: string, companyName: string, startDate: string,
    endDate: string, isCurrent: bool, description: string)

  const EmptyEducation: Education := Education("", "", "", "", "", "")
  const EmptyExperience: Experience := Experience("", "", "", "", false, "")

  datatype ProfileForm = ProfileForm(
    firstName: string, lastName: string, phone: string, category: string,
    yearsOfExperience: string, about: string,
    skills: seq<string>, education: seq<Education>, experience: seq<Experience>)

  /** The edit form together with the three drafts typed beside it. */
  datatype Editor = Editor(
    form: ProfileForm,
    newSkill: string,
    newEducation: Education,
    newExperience: Experience)

  predicate NoDuplicates<T(==)>(xs: seq<T>) {
    forall i, j :: 0 <= i < j < |xs| ==> xs[i] != xs[j]
  }

  const InitialForm: ProfileForm := ProfileForm("", "", "", "", "", "", [], [], [])

  /** The applicant record the server returns; a missing field is None. The category is the
      id of the populated category object, if there is one. */
  datatype ApplicantData = ApplicantData(
    firstName: Option<string>, lastName: Option<string>, phone: Option<string>,
    categoryId: Option<string>, yearsOfExperience: Option<string>, about: Option<string>,
    skills: Option<seq<string>>, education: Option<seq<Education>>, experience: Option<seq<Experience>>)

  /** A list field falls back to empty only when it is missing: an empty array is truthy. */
  function ListOr<T>(xs: Option<seq<T>>): (r: seq<T>)
    ensures xs.Some? ==> r == xs.value
    ensures xs.None? ==> r == []
  {
    match xs
    case Some(v) => v
    case None => []
  }

  /** The edit form filled from the fetched profile: each text field falls back to empty when
      missing or empty, each list to the empty list when missing. */
  function FillFromProfile(a: ApplicantData): (f: ProfileForm)
    ensures Truthy(a.firstName) ==> f.firstName == a.firstName.value
    ensures !Truthy(a.firstName) ==> f.firstName == ""
    ensures Truthy(a.lastName) ==> f.lastName == a.lastName.value
    ensures !Truthy(a.lastName) ==> f.lastName == ""
    ensures Truthy(a.phone) ==> f.phone == a.phone.value
    ensures !Truthy(a.phone) ==> f.phone == ""
    ensures Truthy(a.categoryId) ==> f.category == a.categoryId.value
    ensures !Truthy(a.categoryId) ==> f.category == ""
    ensures Truthy(a.yearsOfExperience) ==> f.yearsOfExperience == a.yearsOfExperience.value
    ensures !Truthy(a.yearsOfExperience) ==> f.yearsOfExperience == ""
    ensures Truthy(a.about) ==> f.about == a.about.value
    ensures !Truthy(a.about) ==> f.about == ""
    ensures f.skills == (if a.skills.Some? then a.skills.value else [])
    ensures f.education == (if a.education.Some? then a.education.value else [])
    ensures f.experience == (if a.experience.Some? then a.experience.value else [])
  {
    ProfileForm(
      OrElse(a.firstName, ""), OrElse(a.lastName, ""), OrElse(a.phone, ""),
      OrElse(a.categoryId, ""), OrElse(a.yearsOfExperience, ""), OrElse(a.about, ""),
      ListOr(a.skills), ListOr(a.education), ListOr(a.experience))
  }

  /** The record a form would be saved as, every field present. */
  function AsData(f: ProfileForm): ApplicantData {
    ApplicantData(Some(f.firstName), Some(f.lastName), Some(f.phone), Some(f.category),
      Some(f.yearsOfExperience), Some(f.about), Some(f.skills), Some(f.education), Some(f.experience))
  }

  /** An empty record fills the page's initial form, and a complete record fills exactly its own values. */
  lemma FillFromProfileRoundTrip(f: ProfileForm)
    ensures FillFromProfile(ApplicantData(None, None, None, None, None, None, None, None, None)) == InitialForm
    ensures FillFromProfile(AsData(f)) == f
  {
  }

  const ProfileLoadFailed: string := "Profil yüklənərkən xəta baş verdi."

  /** The page's profile state: the record shown, the edit form, edit mode, which files are
      chosen, the banners and the loading flag. */
  datatype ProfilePage = ProfilePage(
    profile: Option<ApplicantData>,
    form: ProfileForm,
    editing: bool,
    resumeChosen: bool,
    pictureChosen: bool,
    message: string,
    error: string,
    loading: bool)

  /** fetchApplicantProfile: a loaded record is shown and fills the edit form; a failure shows
      the server's message (or a fixed one), drops the record and keeps the form. Loading ends. */
  function ProfileLoaded(p: ProfilePage, reply: Reply<ApplicantData>): (r: ProfilePage)
    ensures !r.loading
    ensures reply.Ok? ==> r.profile == Some(reply.payload) && r.form == FillFromProfile(reply.payload) && r.error == ""
    ensures reply.Fail? ==>
      r.profile.None? && r.form == p.form && r.error == OrElse(reply.message, ProfileLoadFailed)
    ensures r.message == p.message && r.editing == p.editing
    ensures r.resumeChosen == p.resumeChosen && r.pictureChosen == p.pictureChosen
  {
    match reply
    case Ok(a) => p.(profile := Some(a), form := FillFromProfile(a), error := "", loading := false)
    case Fail(m) => p.(profile := None, error := OrElse(m, ProfileLoadFailed), loading := false)
  }

  /** The six text inputs of the edit form, by their `name` attribute. */
  datatype TextField = FirstName | LastName | Phone | Category | YearsOfExperience | About

  function FieldOf(f: ProfileForm, k: TextField): string {
    match k
    case FirstName => f.firstName
    case LastName => f.lastName
    case Phone => f.phone
    case Category => f.category
    case YearsOfExperience => f.yearsOfExperience
    case About => f.about
  }

  /** handleEditChange: the edited input takes the typed value; the other inputs and the three lists keep theirs. */
  function HandleEditChange(f: ProfileForm, k: TextField, value: string): (r: ProfileForm)
    ensures FieldOf(r, k) == value
    ensures forall j :: j != k ==> FieldOf(r, j) == FieldOf(f, j)
    ensures r.skills == f.skills && r.education == f.education && r.experience == f.experience
  {
    match k
    case FirstName => f.(firstName := value)
    case LastName => f.(lastName := value)
    case Phone => f.(phone := value)
    case Category => f.(category := value)
    case YearsOfExperience => f.(yearsOfExperience := value)
    case About => f.(about := value)
  }

  /** Typing a field's old value back restores the form, and the last edit of a field wins. */
  lemma EditChangeUndoes(f: ProfileForm, k: TextField, v: string, w: string)
    ensures HandleEditChange(HandleEditChange(f, k, v), k, FieldOf(f, k)) == f
    ensures HandleEditChange(HandleEditChange(f, k, v), k, w) == HandleEditChange(f, k, w)
  {
  }

  /** A renewed session the server may return with an update, picture included. */
  datatype SessionUser = SessionUser(token: string, role: string, displayName: string, profilePicture: Option<string>)

  datatype UpdateReply = UpdateReply(message: string, data: ApplicantData, user: Option<SessionUser>)

  /** The arguments of the session store's `login` call. */
  datatype LoginCall = LoginCall(token: string, role: string, displayName: string, profilePicture: Option<string>)

  /** The multipart request (Authorization value, the form's fields, which files ride along),
      the page afterwards and the session store call, if any. */
  datatype ProfileUpdate = ProfileUpdate(
    authorization: string,
    fields: ProfileForm,
    attachesResume: bool,
    attachesPicture: bool,
    page: ProfilePage,
    login: Option<LoginCall>)

  const ProfileUpdateFailed: string := "Profil yenilənə bilmədi."

  /** handleUpdateProfile: send the edit form and the chosen files with the applicant's token.
      Success shows the server's message and saved record, drops both chosen files, leaves edit
      mode, and renews the session when the reply carries one. Failure only shows the error. */
  function HandleUpdateProfile(p: ProfilePage, token: string, reply: Reply<UpdateReply>): (r: ProfileUpdate)
    ensures r.authorization == Bearer(token) && r.fields == p.form
    ensures r.attachesResume == p.resumeChosen && r.attachesPicture == p.pictureChosen
    ensures r.page.form == p.form && r.page.loading == p.loading
    ensures reply.Ok? ==>
      r.page.profile == Some(reply.payload.data) && r.page.message == reply.payload.message && r.page.error == ""
      && !r.page.editing && !r.page.resumeChosen && !r.page.pictureChosen
    ensures r.login.Some? <==> reply.Ok? && reply.payload.user.Some?
    ensures r.login.Some? ==>
      var u := reply.payload.user.value;
      r.login == Some(LoginCall(u.token, u.role, u.displayName, u.profilePicture))
    ensures reply.Fail? ==>
      r.page == p.(message := "", error := OrElse(reply.message, ProfileUpdateFailed))
  {
    var cleared := p.(message := "", error := "");
    match reply
    case Ok(res) =>
      var call := match res.user
        case Some(u) => Some(LoginCall(u.token, u.role, u.displayName, u.profilePicture))
        case None => None;
      ProfileUpdate(Bearer(token), p.form, p.resumeChosen, p.pictureChosen,
        cleared.(message := res.message, profile := Some(res.data), resumeChosen := false,
                 pictureChosen := false, editing := false), call)
    case Fail(m) =>
      ProfileUpdate(Bearer(token), p.form, p.resumeChosen, p.pictureChosen,
        cleared.(error := OrElse(m, ProfileUpdateFailed)), None)
  }

  /** When the server saves exactly what was sent, reloading the profile refills the form that
      was submitted; and a failed update leaves nothing that changes a retry's outcome. */
  lemma SavedProfileReloads(p: ProfilePage, token: string, res: UpdateReply, m: Option<string>)
    requires res.data == AsData(p.form)
    ensures var saved := HandleUpdateProfile(p, token, Ok(res)).page;
      ProfileLoaded(saved, Ok(saved.profile.value)).form == p.form
    ensures var failed := HandleUpdateProfile(p, token, Fail(m)).page;
      HandleUpdateProfile(failed, token, Ok(res)) == HandleUpdateProfile(p, token, Ok(res))
  {
    FillFromProfileRoundTrip(p.form);
  }

  // ----- Skills -----

  /** addSkill: append the trimmed draft when it is non-empty and new, then clear the draft. */
  function AddSkill(e: Editor): (r: Editor)
    ensures var t := Trim(e.newSkill);
      t != "" && t !in e.form.skills ==>
        r.form.skills == e.form.skills + [t] && r.newSkill == ""
        && r == e.(form := e.form.(skills := r.form.skills), newSkill := "")
    ensures var t := Trim(e.newSkill);
      !(t != "" && t !in e.form.skills) ==> r == e
  {
    var t := Trim(e.newSkill);
    if t != "" && t !in e.form.skills then
      e.(form := e.form.(skills := e.form.skills + [t]), newSkill := "")
    else e
  }

  /** A skill list without duplicates keeps that property under addSkill. */
  lemma AddSkillKeepsDistinct(e: Editor)
    requires NoDuplicates(e.form.skills)
    ensures NoDuplicates(AddSkill(e).form.skills)
  {
    var t := Trim(e.newSkill);
    if t != "" && t !in e.form.skills {
      var xs := AddSkill(e).form.skills;
      forall i, j | 0 <= i < j < |xs| ensures xs[i] != xs[j] {
        if j == |xs| - 1 {
          assert xs[i] in e.form.skills;
        }
      }
    }
  }

  /** Every element not equal to `x`, in order: `xs.filter(y => y !== x)`. */
  function RemoveAll(xs: seq<string>, x: string): (r: seq<string>)
    ensures x !in r
    ensures forall y :: y in r <==> y in xs && y != x
    ensures multiset(r) == multiset(xs)[x := 0]
    ensures x !in xs ==> r == xs
  {
    if xs == [] then []
    else
      var rest := RemoveAll(xs[1..], x);
      assert xs == [xs[0]] + xs[1..];
      if xs[0] == x then rest else [xs[0]] + rest
  }

  /** Filtering distributes over concatenation, so the kept elements keep their order. */
  lemma {:induction false} RemoveAllAppend(a: seq<string>, b: seq<string>, x: string)
    ensures RemoveAll(a + b, x) == RemoveAll(a, x) + RemoveAll(b, x)
  {
    if a == [] {
      assert a + b == b;
    } else {
      var ab := a + b;
      assert ab[0] == a[0] && ab[1..] == a[1..] + b;
      RemoveAllAppend(a[1..], b, x);
      var tail := RemoveAll(a[1..], x) + RemoveAll(b, x);
      if a[0] == x {
        assert RemoveAll(ab, x) == tail;
      } else {
        assert RemoveAll(ab, x) == [a[0]] + tail;
        assert RemoveAll(a, x) == [a[0]] + RemoveAll(a[1..], x);
      }
    }
  }

  /** removeSkill: drop every copy of the skill; nothing else in the editor changes. */
  function RemoveSkill(e: Editor, skill: string): (r: Editor)
    ensures skill !in r.form.skills
    ensures forall y :: y in r.form.skills <==> y in e.form.skills && y != skill
    ensures multiset(r.form.skills) == multiset(e.form.skills)[skill := 0]
    ensures r == e.(form := e.form.(skills := r.form.skills))
  {
    e.(form := e.form.(skills := RemoveAll(e.form.skills, skill)))
  }

  /** Adding a new skill and removing it again restores the list. */
  lemma AddThenRemoveSkill(e: Editor)
    requires Trim(e.newSkill) != "" && Trim(e.newSkill) !in e.form.skills
    ensures RemoveSkill(AddSkill(e), Trim(e.newSkill)).form == e.form
  {
    var t := Trim(e.newSkill);
    RemoveAllAppend(e.form.skills, [t], t);
    assert RemoveAll([t], t) == [];
  }

  // ----- Removal by position -----

  /** `xs.filter((_, j) => j !== i)`, walking the list one position at a time. */
  function RemoveIndex<T>(xs: seq<T>, i: int): (r: seq<T>)
    ensures 0 <= i < |xs| ==> r == xs[..i] + xs[i + 1..]
    ensures !(0 <= i < |xs|) ==> r == xs
  {
    if xs == [] then []
    else
      var rest := RemoveIndex(xs[1..], i - 1);
      if i == 0 then rest
      else
        assert 0 < i < |xs| ==> [xs[0]] + rest == xs[..i] + xs[i + 1..] by {
          if 0 < i < |xs| {
            assert xs[1..][..i - 1] == xs[1..i];
            assert xs[1..][i..] == xs[i + 1..];
            assert [xs[0]] + xs[1..i] == xs[..i];
          }
        }
        [xs[0]] + rest
  }

  // ----- Education -----

  predicate EducationAccepted(d: Education) { d.degree != "" && d.institution != "" }

  /** addEducation: append the draft when degree and institution are filled (no trimming), then reset it. */
  function AddEducation(e: Editor): (r: Editor)
    ensures EducationAccepted(e.newEducation) ==>
      r.form.education == e.form.education + [e.newEducation]
      && r.newEducation == EmptyEducation
      && r == e.(form := e.form.(education := r.form.education), newEducation := EmptyEducation)
    ensures !EducationAccepted(e.newEducation) ==> r == e
  {
    if e.newEducation.degree != "" && e.newEducation.institution != "" then
      e.(form := e.form.(education := e.form.education + [e.newEducation]), newEducation := EmptyEducation)
    else e
  }

  /** removeEducation: drop exactly entry `i`; nothing else changes. */
  function RemoveEducation(e: Editor, i: int): (r: Editor)
    ensures 0 <= i < |e.form.education| ==>
      |r.form.education| == |e.form.education| - 1
      && r.form.education == e.form.education[..i] + e.form.education[i + 1..]
    ensures !(0 <= i < |e.form.education|) ==> r == e
    ensures r == e.(form := e.form.(education := r.form.education))
  {
    e.(form := e.form.(education := RemoveIndex(e.form.education, i)))
  }

  /** Adding an entry and removing the last position restores the list. */
  lemma AddThenRemoveEducation(e: Editor)
    requires EducationAccepted(e.newEducation)
    ensures RemoveEducation(AddEducation(e), |e.form.education|).form == e.form
  {
    var xs := e.form.education + [e.newEducation];
    assert xs[..|e.form.education|] == e.form.education;
  }

  // ----- Experience -----

  predicate ExperienceAccepted(d: Experience) { d.jobTitle != "" && d.companyName != "" }

  /** addExperience: append the draft when job title and company are filled, then reset it. */
  function AddExperience(e: Editor): (r: Editor)
    ensures ExperienceAccepted(e.newExperience) ==>
      r.form.experience == e.form.experience + [e.newExperience]
      && r.newExperience == EmptyExperience && !r.newExperience.isCurrent
      && r == e.(form := e.form.(experience := r.form.experience), newExperience := EmptyExperience)
    ensures !ExperienceAccepted(e.newExperience) ==> r == e
  {
    if e.newExperience.jobTitle != "" && e.newExperience.companyName != "" then
      e.(form := e.form.(experience := e.form.experience + [e.newExperience]), newExperience := EmptyExperience)
    else e
  }

  /** removeExperience: drop exactly entry `i`; nothing else changes. */
  function RemoveExperience(e: Editor, i: int): (r: Editor)
    ensures 0 <= i < |e.form.experience| ==>
      |r.form.experience| == |e.form.experience| - 1
      && r.form.experience == e.form.experience[..i] + e.form.experience[i + 1..]
    ensures !(0 <= i < |e.form.experience|) ==> r == e
    ensures r == e.(form := e.form.(experience := r.form.experience))
  {
    e.(form := e.form.(experience := RemoveIndex(e.form.experience, i)))
  }

  /** Adding an entry and removing the last position restores the list. */
  lemma AddThenRemoveExperience(e: Editor)
    requires ExperienceAccepted(e.newExperience)
    ensures RemoveExperience(AddExperience(e), |e.form.experience|).form == e.form
  {
    var xs := e.form.experience + [e.newExperience];
    assert xs[..|e.form.experience|] == e.form.experience;
  }

  /** The "current job" checkbox: checking it clears the end date, unchecking keeps it. */
  function SetCurrent(d: Experience, checked: bool): (r: Experience)
    ensures r.isCurrent == checked
    ensures checked ==> r.endDate == ""
    ensures !checked ==> r.endDate == d.endDate
    ensures r == d.(isCurrent := checked, endDate := r.endDate)
  {
    d.(isCurrent := checked, endDate := if checked then "" else d.endDate)
  }

  /** Unchecking after checking leaves the end date empty: the cleared date is not restored. */
  lemma CheckThenUncheckLosesEndDate(d: Experience)
    ensures SetCurrent(SetCurrent(d, true), false).endDate == ""
  {
  }

  // ----- Profile picture -----

  /** The stock icon, on a host other than the server. */
  const DefaultProfilePicture: string := "https://cdn.pixabay.com" + "/photo/2023/02/18/11/00/icon-7797704_640.png"

  /** The picture shown: the uploaded path on the server, or the stock icon. */
  function ProfileImageUrl(profilePicture: Option<string>): (url: string)
    ensures Truthy(profilePicture) ==> url == ServerBase + profilePicture.value
    ensures !Truthy(profilePicture) ==> url == DefaultProfilePicture
    ensures url == DefaultProfilePicture <==> !Truthy(profilePicture)
  {
    assert ServerBase[8] != DefaultProfilePicture[8];
    if Truthy(profilePicture) then ServerBase + profilePicture.value else DefaultProfilePicture
  }

  /** The uploaded path can be read back from the address shown, so two uploads never share a picture. */
  lemma ProfileImageUrlInjective(a: Option<string>, b: Option<string>)
    requires Truthy(a) && Truthy(b)
    ensures ProfileImageUrl(a) == ProfileImageUrl(b) <==> a == b
  {
    var ua := ProfileImageUrl(a);
    var ub := ProfileImageUrl(b);
    assert ua[|ServerBase|..] == a.value;
    assert ub[|ServerBase|..] == b.value;
  }
}
