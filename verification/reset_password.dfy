/** The reset-password page: the strength meter shown under the new password,
    the live mismatch check while typing, the submit validation, the
    enable rule of the submit button and the check of the URL token. */
module ResetPassword {
  import opened Common

  // ----- Character classes of the strength meter (ASCII, as in the regexes) -----

  predicate IsUpper(c: char) { 'A' <= c <= 'Z' }
  predicate IsLower(c: char) { 'a' <= c <= 'z' }
  predicate IsDigit(c: char) { '0' <= c <= '9' }

  /** `[^A-Za-z0-9]`: anything that is not an ASCII letter or digit. A character outside the
      Basic Multilingual Plane is special, as each of its two UTF-16 units is to the regex. */
  predicate IsSpecial(c: char) { !IsUpper(c) && !IsLower(c) && !IsDigit(c) }

  predicate HasUpper(p: string) { exists i :: 0 <= i < |p| && IsUpper(p[i]) }
  predicate HasDigit(p: string) { exists i :: 0 <= i < |p| && IsDigit(p[i]) }
  predicate HasSpecial(p: string) { exists i :: 0 <= i < |p| && IsSpecial(p[i]) }

  /** The five strength criteria, in the order the meter adds them. */
  function Criteria(p: string): seq<bool> {
    [JsLength(p) >= 6, JsLength(p) >= 8, HasUpper(p), HasDigit(p), HasSpecial(p)]
  }

  /** Positions of the flags that are set. */
  function TrueIndices(bs: seq<bool>): set<nat> {
    set k: nat | k < |bs| && bs[k]
  }

  /** Number of flags that are set, counted from the back. */
  function CountTrue(bs: seq<bool>): nat {
    if bs == [] then 0 else CountTrue(bs[..|bs| - 1]) + Bit(bs[|bs| - 1])
  }

  /** The set of criteria (by position) a password meets. */
  function CriteriaMet(p: string): set<nat> {
    TrueIndices(Criteria(p))
  }

  // ----- The strength meter -----

  const VeryWeak: string := "Çox zəif"
  const Weak: string := "Zəif"
  const Medium: string := "Orta"
  const Strong: string := "Güclü"
  const VeryStrong: string := "Çox güclü"

  datatype StrengthInfo = StrengthInfo(strength: nat, text: string, color: string)

  function Bit(b: bool): nat { if b then 1 else 0 }

  /** The score the meter adds up one criterion at a time. */
  function Score(p: string): nat {
    Bit(JsLength(p) >= 6) + Bit(JsLength(p) >= 8) + Bit(HasUpper(p)) + Bit(HasDigit(p)) + Bit(HasSpecial(p))
  }

  /** Text of each score bucket; 0 and 1 share a bucket. */
  function Label(n: nat): string {
    match n
    case 0 => VeryWeak
    case 1 => VeryWeak
    case 2 => Weak
    case 3 => Medium
    case 4 => Strong
    case 5 => VeryStrong
    case _ => ""
  }

  function Color(n: nat): string {
    match n
    case 0 => "bg-red-500"
    case 1 => "bg-red-500"
    case 2 => "bg-orange-500"
    case 3 => "bg-yellow-500"
    case 4 => "bg-blue-500"
    case 5 => "bg-green-500"
    case _ => ""
  }

  /** getPasswordStrength: the number of criteria met, with its label. */
  function PasswordStrength(p: string): (r: StrengthInfo)
    ensures r.strength <= 5
    ensures p == "" ==> r == StrengthInfo(0, "", "")
    ensures p != "" ==> r.strength == |CriteriaMet(p)|
    ensures p != "" ==> r.text == Label(r.strength) && r.color == Color(r.strength)
    ensures p != "" && r.strength <= 1 ==> r.text == VeryWeak
  {
    if p == "" then StrengthInfo(0, "", "")
    else
      ScoreCountsCriteria(p);
      var n := Score(p);
      StrengthInfo(n, Label(n), Color(n))
  }

  lemma {:induction false} CountTrueIsCardinality(bs: seq<bool>)
    ensures |TrueIndices(bs)| == CountTrue(bs)
  {
    if bs != [] {
      var init := bs[..|bs| - 1];
      CountTrueIsCardinality(init);
      var last: set<nat> := if bs[|bs| - 1] then {|bs| - 1} else {};
      assert TrueIndices(bs) == TrueIndices(init) + last;
      assert TrueIndices(init) !! last;
    }
  }

  lemma CountFive(b0: bool, b1: bool, b2: bool, b3: bool, b4: bool)
    ensures CountTrue([b0, b1, b2, b3, b4]) == Bit(b0) + Bit(b1) + Bit(b2) + Bit(b3) + Bit(b4)
  {
    assert [b0, b1, b2, b3, b4][..4] == [b0, b1, b2, b3];
    assert [b0, b1, b2, b3][..3] == [b0, b1, b2];
    assert [b0, b1, b2][..2] == [b0, b1];
    assert [b0, b1][..1] == [b0];
    assert CountTrue([b0]) == Bit(b0) by { assert [b0][..0] == []; }
    assert CountTrue([b0, b1]) == Bit(b0) + Bit(b1);
    assert CountTrue([b0, b1, b2]) == Bit(b0) + Bit(b1) + Bit(b2);
    assert CountTrue([b0, b1, b2, b3]) == Bit(b0) + Bit(b1) + Bit(b2) + Bit(b3);
  }

  /** The additive score is exactly the number of criteria met. */
  lemma ScoreCountsCriteria(p: string)
    ensures Score(p) == |CriteriaMet(p)|
  {
    CountFive(JsLength(p) >= 6, JsLength(p) >= 8, HasUpper(p), HasDigit(p), HasSpecial(p));
    CountTrueIsCardinality(Criteria(p));
  }

  /** Five distinct labels for the five buckets 1..5. */
  lemma LabelsDistinct(a: nat, b: nat)
    requires 1 <= a <= 5 && 1 <= b <= 5 && a != b
    ensures Label(a) != Label(b)
  {
    assert VeryWeak[1] != VeryStrong[1] || VeryWeak[4] != VeryStrong[4];
    assert Weak != Medium && Weak != Strong && Medium != Strong;
    assert VeryWeak != Weak && VeryWeak != Medium && VeryWeak != Strong;
    assert VeryStrong != Weak && VeryStrong != Medium && VeryStrong != Strong;
  }

  /** Length alone earns two points once it reaches eight code units. */
  lemma LongPasswordAtLeastWeak(p: string)
    requires JsLength(p) >= 8
    ensures PasswordStrength(p).strength >= 2
    ensures PasswordStrength(p).text != VeryWeak
  {
    var r := PasswordStrength(p);
    if r.strength != 1 && r.strength != 0 {
      LabelsDistinct(1, r.strength);
    }
  }

  /** Full marks exactly for a long password with an upper-case letter, a digit and a symbol. */
  lemma FullStrengthIff(p: string)
    ensures PasswordStrength(p).strength == 5
        <==> JsLength(p) >= 8 && HasUpper(p) && HasDigit(p) && HasSpecial(p)
  {
  }

  // ----- The form -----

  const TooShort: string := "Şifrə ən azı 6 simvol olmalıdır."
  const Mismatch: string := "Şifrələr uyğun gəlmir."
  const ResetFailed: string := "Şifrə sıfırlanarkən xəta baş verdi. Token vaxtı keçmiş ola bilər."
  const MissingToken: string := "Şifrə sıfırlama tokeni tapılmadı."

  datatype ResetForm = ResetForm(
    password: string,
    confirmPassword: string,
    loading: bool,
    error: string,
    success: bool)

  datatype Field = Password | ConfirmPassword

  /** The live check runs when the confirmation is edited, or when the password is
      edited while a confirmation is already typed. */
  predicate LiveCheckRuns(f: ResetForm, name: Field) {
    name == ConfirmPassword || f.confirmPassword != ""
  }

  /** handleChange: store the edited field and, when the live check runs,
      flag or clear the mismatch. */
  function HandleChange(f: ResetForm, name: Field, value: string): (r: ResetForm)
    ensures name == Password ==> r.password == value && r.confirmPassword == f.confirmPassword
    ensures name == ConfirmPassword ==> r.confirmPassword == value && r.password == f.password
    ensures r.loading == f.loading && r.success == f.success
    ensures LiveCheckRuns(f, name) ==>
      (r.error == Mismatch <==> r.confirmPassword != "" && r.password != r.confirmPassword)
    ensures LiveCheckRuns(f, name) && r.error != Mismatch ==> r.error == ""
    ensures !LiveCheckRuns(f, name) ==> r.error == f.error
  {
    var g := if name == Password then f.(password := value) else f.(confirmPassword := value);
    if LiveCheckRuns(f, name) then
      g.(error := if g.confirmPassword != "" && g.password != g.confirmPassword then Mismatch else "")
    else g
  }

  /** The submit button's enable rule. */
  predicate SubmitEnabled(f: ResetForm) {
    !(f.loading || f.password != f.confirmPassword || JsLength(f.password) < 6)
  }

  /** The form after a submit, and the new password sent to the server, if any. */
  datatype SubmitResult = SubmitResult(form: ResetForm, request: Option<string>)

  /** handleSubmit: length is checked first, then the match; only a valid form is sent.
      `reply` is what the server answers (its `success` flag, or a failure). */
  function HandleSubmit(f: ResetForm, reply: Reply<bool>): (r: SubmitResult)
    ensures r.request.Some? <==> JsLength(f.password) >= 6 && f.password == f.confirmPassword
    ensures r.request.Some? ==> r.request.value == f.password
    ensures JsLength(f.password) < 6 ==> r.form.error == TooShort
    ensures JsLength(f.password) >= 6 && f.password != f.confirmPassword ==> r.form.error == Mismatch
    ensures r.request.Some? && reply.Fail? ==> r.form.error == OrElse(reply.message, ResetFailed)
    ensures r.request.Some? && reply.Ok? ==> r.form.error == ""
    ensures r.form.success <==> f.success || (r.request.Some? && reply == Ok(true))
    ensures !r.form.loading
    ensures r.form.password == f.password && r.form.confirmPassword == f.confirmPassword
  {
    if JsLength(f.password) < 6 then
      SubmitResult(f.(error := TooShort, loading := false), None)
    else if f.password != f.confirmPassword then
      SubmitResult(f.(error := Mismatch, loading := false), None)
    else
      var done := match reply
        case Ok(ok) => f.(error := "", success := f.success || ok)
        case Fail(m) => f.(error := OrElse(m, ResetFailed));
      SubmitResult(done.(loading := false), Some(f.password))
  }

  /** An idle form can be submitted exactly when its submit would pass validation. */
  lemma SubmitEnabledIffValid(f: ResetForm, reply: Reply<bool>)
    requires !f.loading
    ensures SubmitEnabled(f) <==> HandleSubmit(f, reply).request == Some(f.password)
  {
  }

  /** A form whose live check has just run and left no error is never rejected for mismatch. */
  lemma LiveCheckAgreesWithSubmit(f: ResetForm, name: Field, value: string, reply: Reply<bool>)
    requires LiveCheckRuns(f, name)
    requires HandleChange(f, name, value).error == ""
    requires JsLength(HandleChange(f, name, value).password) >= 6
    requires HandleChange(f, name, value).confirmPassword != ""
    ensures HandleSubmit(HandleChange(f, name, value), reply).request.Some?
  {
  }

  /** Three emoji are six UTF-16 code units, so they pass the minimum length although they are three characters. */
  lemma AstralPasswordLongEnough(reply: Reply<bool>)
    ensures var p := "\U{1F600}\U{1F600}\U{1F600}";
      |p| == 3 && HandleSubmit(ResetForm(p, p, false, "", false), reply).request == Some(p)
  {
  }

  /** The state the token check leaves: `tokenValid` and the error. */
  datatype TokenCheck = TokenCheck(tokenValid: bool, error: string)

  /** The mount effect on the URL token: a missing or empty token invalidates the page. */
  function CheckToken(token: Option<string>, error: string): (r: TokenCheck)
    ensures r.tokenValid <==> Truthy(token)
    ensures !r.tokenValid ==> r.error == MissingToken
    ensures r.tokenValid ==> r.error == error
  {
    if Truthy(token) then TokenCheck(true, error) else TokenCheck(false, MissingToken)
  }

  /** The check depends on the token alone: run again on the same token it changes nothing,
      and a page left with a valid token keeps whatever error it already showed. */
  lemma CheckTokenStable(token: Option<string>, error: string)
    ensures var c := CheckToken(token, error);
      CheckToken(token, c.error) == c
    ensures CheckToken(token, error).tokenValid ==> CheckToken(token, error).error == error
    ensures !Truthy(token) ==> CheckToken(token, error) == CheckToken(None, "")
  {
  }
}
