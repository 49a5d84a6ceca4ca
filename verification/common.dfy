/** Values every page of the job board shares: the session a page reads from the
    session store, the outcome of a page's own access check, the effect a page
    has when it mounts, and the reply a REST call delivers. */
module Common {

  /** The role held in the session. `Anonymous` stands for "no role at all". */
  datatype Role = Anonymous | Applicant | Company | Admin

  /** The session as the pages read it: an empty `token` means nobody is signed in;
      `id` is the signed-in user's identifier. */
  datatype Session = Session(token: string, role: Role, id: string)

  /** The invariant the session store is meant to keep: anonymous exactly when there is no token. */
  predicate WellFormed(s: Session) {
    s.token == "" <==> s.role == Anonymous
  }

  /** Outcome of a page's own check of the session. */
  datatype Gate = Admit | Redirect(path: string)

  /** What a guarded page does when it mounts: navigate away, or issue its fetches. */
  datatype Mount = Mount(redirect: Option<string>, fetches: seq<string>)

  datatype Option<T> = None | Some(value: T)

  /** The reply of a REST call: success with a payload, or failure with the
      server's message when the error response carried one. */
  datatype Reply<T> = Ok(payload: T) | Fail(message: Option<string>)

  /** A string value that is truthy in JavaScript: present and non-empty. */
  predicate Truthy(v: Option<string>) {
    v.Some? && v.value != ""
  }

  /** JavaScript `v || fallback` on a string that may be absent. */
  function OrElse(v: Option<string>, fallback: string): (r: string)
    ensures Truthy(v) ==> r == v.value
    ensures !Truthy(v) ==> r == fallback
  {
    match v
    case Some(x) => if x != "" then x else fallback
    case None => fallback
  }

  /** The check every role-restricted page runs on mount:
      `if (!user.token || user.role !== required) navigate(target)`. */
  function RoleGate(s: Session, required: Role, target: string): (g: Gate)
    ensures g == Admit <==> s.token != "" && s.role == required
    ensures g != Admit ==> g == Redirect(target)
  {
    if s.token == "" || s.role != required then Redirect(target) else Admit
  }

  /** The mount effect of a page whose check redirects or else starts `fetches`. */
  function GatedMount(g: Gate, fetches: seq<string>): (m: Mount)
    ensures g == Admit ==> m == Mount(None, fetches)
    ensures g.Redirect? ==> m == Mount(Some(g.path), [])
  {
    match g
    case Admit => Mount(None, fetches)
    case Redirect(p) => Mount(Some(p), [])
  }

  /** A character outside the Basic Multilingual Plane, which UTF-16 stores as a surrogate pair. */
  predicate Astral(c: char) {
    c as int > 0xFFFF
  }

  /** The positions of `s` that hold astral characters. */
  function AstralAt(s: string): set<nat> {
    set i: nat | i < |s| && Astral(s[i])
  }

  /** JavaScript's `length` of a string: the number of UTF-16 code units. */
  function JsLength(s: string): (n: nat)
    ensures n == |s| + |AstralAt(s)|
    ensures |s| <= n <= 2 * |s|
    ensures n == |s| <==> forall i :: 0 <= i < |s| ==> !Astral(s[i])
    ensures n == 2 * |s| <==> forall i :: 0 <= i < |s| ==> Astral(s[i])
  {
    if s == [] then 0
    else
      var init := s[..|s| - 1];
      assert forall i :: 0 <= i < |init| ==> init[i] == s[i];
      AstralAtSnoc(s);
      JsLength(init) + (if Astral(s[|s| - 1]) then 2 else 1)
  }

  /** Dropping the last character removes at most its own position from `AstralAt`. */
  lemma AstralAtSnoc(s: string)
    requires s != []
    ensures var last := |s| - 1;
      AstralAt(s) == AstralAt(s[..last]) + (if Astral(s[last]) then {last} else {})
    ensures |s| - 1 !in AstralAt(s[..|s| - 1])
  {
    var last := |s| - 1;
    var init := s[..last];
    assert forall i :: 0 <= i < |init| ==> init[i] == s[i];
  }

  /** UTF-16 lengths add up under concatenation: the code-unit count is per character. */
  lemma {:induction false} JsLengthAppend(a: string, b: string)
    ensures JsLength(a + b) == JsLength(a) + JsLength(b)
    decreases |b|
  {
    if b == [] {
      assert a + b == a;
    } else {
      var bi := b[..|b| - 1];
      assert (a + b)[..|a + b| - 1] == a + bi;
      JsLengthAppend(a, bi);
    }
  }

  /** One character is one code unit, or two when it is astral. */
  lemma JsLengthSingle(c: char)
    ensures JsLength([c]) == if Astral(c) then 2 else 1
  {
    assert [c][..0] == [];
  }

  /** The message every page shows when the category list cannot be loaded. */
  const CategoriesFailed: string := "Kateqoriyalar yüklənərkən xəta baş verdi."

  const HomePath: string := "/"
  const AuthPath: string := "/auth"

  /** Prefix of every server-relative upload path (logos, profile pictures). */
  const ServerBase: string := "https://job-server-tcq9.onrender.com"

  /** The Authorization header value every authenticated request carries. */
  function Bearer(token: string): (h: string)
    ensures |h| == |token| + 7
    ensures h[..7] == "Bearer "
    ensures h[7..] == token
  {
    "Bearer " + token
  }
}
