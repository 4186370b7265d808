/** The sign-up form's record and the rules both revisions of the sign-up component check
    (src/component/member/SignUpComponent.tsx and the older
    src/component/signUpComponent.tsx): the four regular expressions written out as
    character-class predicates, and the per-field chains of checks, which give each field
    at most one problem — the first check it fails. */
module FormRules {
  import opened Wrappers
  import Text

  /** The sign-up record `userInfo` (src/component/index.tsx). */
  datatype UserInfo = UserInfo(
    memId: string,
    pwd: string,
    name: string,
    email: string,
    phone: string,
    gender: string,
    addr: string,
    birth: string)

  datatype Field = MemId | Pwd | Name | Email | Phone | Gender | Addr | Birth

  /** The names the form's inputs carry: a field of the record, or the confirmation
      `checkPwd`, which is kept apart from the record. The error map is keyed by these. */
  datatype Input = Of(field: Field) | CheckPwd

  /** The form's state: the record and the confirmation. */
  datatype SignUpForm = SignUpForm(user: UserInfo, checkPwd: string)

  function Get(u: UserInfo, f: Field): string
  {
    match f
    case MemId => u.memId
    case Pwd => u.pwd
    case Name => u.name
    case Email => u.email
    case Phone => u.phone
    case Gender => u.gender
    case Addr => u.addr
    case Birth => u.birth
  }

  /** `{ ...prev, [name]: value }` on the record. */
  function With(u: UserInfo, f: Field, value: string): (r: UserInfo)
    ensures Get(r, f) == value
    ensures forall g :: g != f ==> Get(r, g) == Get(u, g)
  {
    match f
    case MemId => u.(memId := value)
    case Pwd => u.(pwd := value)
    case Name => u.(name := value)
    case Email => u.(email := value)
    case Phone => u.(phone := value)
    case Gender => u.(gender := value)
    case Addr => u.(addr := value)
    case Birth => u.(birth := value)
  }

  function Value(form: SignUpForm, i: Input): string
  {
    match i
    case Of(f) => Get(form.user, f)
    case CheckPwd => form.checkPwd
  }

  /** `onChange` (both revisions): the confirmation input sets `checkPwd`, any other input
      sets its field of the record; nothing else changes. */
  function OnChange(form: SignUpForm, i: Input, value: string): (r: SignUpForm)
    ensures Value(r, i) == value
    ensures forall j :: j != i ==> Value(r, j) == Value(form, j)
  {
    match i
    case CheckPwd => form.(checkPwd := value)
    case Of(f) => form.(user := With(form.user, f, value))
  }

  /** `onChangeOption` (the gender select, both revisions): sets one field of the record. */
  function OnChangeOption(form: SignUpForm, f: Field, value: string): (r: SignUpForm)
    ensures r.checkPwd == form.checkPwd && Get(r.user, f) == value
    ensures forall g :: g != f ==> Get(r.user, g) == Get(form.user, g)
  {
    form.(user := With(form.user, f, value))
  }

  predicate IsAsciiLetter(c: char) { 'A' <= c <= 'Z' || 'a' <= c <= 'z' }

  predicate IsAsciiDigit(c: char) { '0' <= c <= '9' }

  predicate IsAsciiAlnum(c: char) { IsAsciiLetter(c) || IsAsciiDigit(c) }

  /** The special characters of the password pattern. */
  const PwdSpecials: string := "!@#$%^&*()_+=[]{};':\"\\|,.<>/?~-"

  predicate IsPwdSpecial(c: char) { c in PwdSpecials }

  /** `[A-Za-z\d<specials>]`. */
  predicate IsPwdChar(c: char) { IsAsciiAlnum(c) || IsPwdSpecial(c) }

  /** `^[A-Za-z0-9]+$`. */
  predicate MemIdPattern(s: string)
  {
    |s| >= 1 && forall k :: 0 <= k < |s| ==> IsAsciiAlnum(s[k])
  }

  /** `^(?=.*[<specials>])[A-Za-z\d<specials>]+$`: only letters, digits and the listed
      specials, and at least one special. */
  predicate PwdPattern(s: string)
  {
    && |s| >= 1
    && (forall k :: 0 <= k < |s| ==> IsPwdChar(s[k]))
    && (exists k :: 0 <= k < |s| && IsPwdSpecial(s[k]))
  }

  predicate IsEmailLocalChar(c: char) { IsAsciiAlnum(c) || c in "._%+-" }

  predicate IsEmailDomainChar(c: char) { IsAsciiAlnum(c) || c in ".-" }

  /** `s` is `L@D.T` with the '@' at `at` and the last '.' at `dot`: L non-empty over
      `[A-Za-z0-9._%+-]`, D non-empty over `[A-Za-z0-9.-]`, T at least two letters. */
  predicate EmailShape(s: string, at: int, dot: int)
  {
    && 0 < at && at + 1 < dot && dot + 2 < |s|
    && s[at] == '@' && s[dot] == '.'
    && (forall k :: 0 <= k < at ==> IsEmailLocalChar(s[k]))
    && (forall k :: at < k < dot ==> IsEmailDomainChar(s[k]))
    && (forall k :: dot < k < |s| ==> IsAsciiLetter(s[k]))
  }

  /** `^[A-Za-z0-9._%+-]+@[A-Za-z0-9.-]+\.[A-Za-z]{2,}$`. */
  predicate EmailPattern(s: string)
  {
    exists at, dot | 0 <= at < dot < |s| :: EmailShape(s, at, dot)
  }

  /** A matching address has exactly one '@': none of the three character classes
      contains it. */
  lemma EmailHasOneAt(s: string)
    requires EmailPattern(s)
    ensures exists at :: 0 <= at < |s| && s[at] == '@'
                         && forall k :: 0 <= k < |s| && s[k] == '@' ==> k == at
  {
    var at, dot :| 0 <= at < dot < |s| && EmailShape(s, at, dot);
    assert forall k :: 0 <= k < |s| && s[k] == '@' ==> k == at;
  }

  /** The digits and dashes after `01X` are `-?\d{m}-?\d{4}` with `a` and `b` the number
      of dashes taken (0 or 1) and `m` 3 or 4. */
  predicate PhoneTailShape(t: string, a: nat, m: nat, b: nat)
  {
    && |t| == a + m + b + 4
    && (a == 1 ==> t[0] == '-')
    && (forall k :: a <= k < a + m ==> IsAsciiDigit(t[k]))
    && (b == 1 ==> t[a + m] == '-')
    && (forall k :: a + m + b <= k < |t| ==> IsAsciiDigit(t[k]))
  }

  /** `^01[016789]-?\d{3,4}-?\d{4}$`. */
  predicate PhonePattern(s: string)
  {
    && |s| >= 3 && s[0] == '0' && s[1] == '1' && s[2] in "016789"
    && exists a: nat, m: nat, b: nat | a <= 1 && 3 <= m <= 4 && b <= 1 :: PhoneTailShape(s[3..], a, m, b)
  }

  /** A matching number has between 10 and 13 characters. */
  lemma PhoneLength(s: string)
    requires PhonePattern(s)
    ensures 10 <= |s| <= 13
  {
    var a: nat, m: nat, b: nat :| a <= 1 && 3 <= m <= 4 && b <= 1 && PhoneTailShape(s[3..], a, m, b);
  }

  /** A sample of valid values, one per pattern. */
  const SampleMemId := "member01"
  const SamplePwd := "pass!1"
  const SampleEmail := "kim@mail.com"
  const SamplePhone := "010-1234-5678"

  lemma SampleMemIdMatches()
    ensures LengthOk(SampleMemId) && MemIdPattern(SampleMemId)
  {
    var s := SampleMemId;
    assert forall k :: 0 <= k < |s| ==> IsAsciiAlnum(s[k]) by {
      forall k | 0 <= k < |s| ensures IsAsciiAlnum(s[k]) {
        assert s[k] in "member01";
      }
    }
  }

  lemma SamplePwdMatches()
    ensures LengthOk(SamplePwd) && PwdPattern(SamplePwd)
  {
    var s := SamplePwd;
    assert IsPwdSpecial(s[4]);
    forall k | 0 <= k < |s| ensures IsPwdChar(s[k]) {
      assert s[k] in "pass!1";
    }
  }

  lemma SampleEmailMatches()
    ensures EmailPattern(SampleEmail)
  {
    var s := SampleEmail;
    forall k | 0 <= k < 3 ensures IsEmailLocalChar(s[k]) {
      assert s[k] in "kim";
    }
    forall k | 3 < k < 8 ensures IsEmailDomainChar(s[k]) {
      assert s[k] in "mail";
    }
    forall k | 8 < k < |s| ensures IsAsciiLetter(s[k]) {
      assert s[k] in "com";
    }
    assert EmailShape(s, 3, 8);
  }

  lemma SamplePhoneMatches()
    ensures PhonePattern(SamplePhone)
  {
    var t := SamplePhone[3..];
    assert t == "-1234-5678";
    assert PhoneTailShape(t, 1, 4, 1);
  }

  /** Why a field was refused. */
  datatype Problem = Missing | BadLength | BadCharacters | Mismatch | BadFormat

  /** The length test of the id and the password: `s.length`, in UTF-16 code units,
      between 6 and 12. */
  predicate LengthOk(s: string) { 6 <= Text.Utf16Length(s) <= 12 }

  /** The member id's chain: required, then 6 to 12 code units, then letters and digits
      only. */
  function MemIdProblem(id: string): (r: Option<Problem>)
    ensures r.None? <==> LengthOk(id) && MemIdPattern(id)
    ensures r == Some(Missing) <==> id == ""
    ensures r == Some(BadLength) <==> id != "" && !LengthOk(id)
    ensures r == Some(BadCharacters) <==> LengthOk(id) && !MemIdPattern(id)
  {
    if id == "" then Some(Missing)
    else if !LengthOk(id) then Some(BadLength)
    else if !MemIdPattern(id) then Some(BadCharacters)
    else None
  }

  /** The password's chain: required, then 6 to 12 code units, then the character rule. */
  function PwdProblem(pwd: string): (r: Option<Problem>)
    ensures r.None? <==> LengthOk(pwd) && PwdPattern(pwd)
    ensures r == Some(Missing) <==> pwd == ""
    ensures r == Some(BadLength) <==> pwd != "" && !LengthOk(pwd)
    ensures r == Some(BadCharacters) <==> LengthOk(pwd) && !PwdPattern(pwd)
  {
    if pwd == "" then Some(Missing)
    else if !LengthOk(pwd) then Some(BadLength)
    else if !PwdPattern(pwd) then Some(BadCharacters)
    else None
  }

  /** Three characters outside the Basic Multilingual Plane are six code units: such an
      id passes the length test and is refused for its characters. */
  lemma WideIdFailsOnCharacters()
    ensures MemIdProblem("\U{1F600}\U{1F600}\U{1F600}") == Some(BadCharacters)
  {
  }

  /** The confirmation is the last link of the password's chain: a mismatch is reported
      only for a password that passed every earlier check. */
  function ConfirmProblem(pwd: string, checkPwd: string): (r: Option<Problem>)
    ensures r.Some? ==> r == Some(Mismatch) && PwdProblem(pwd).None?
    ensures r.None? <==> PwdProblem(pwd).Some? || checkPwd == pwd
  {
    if PwdProblem(pwd).None? && checkPwd != pwd then Some(Mismatch) else None
  }

  /** A field that is only required. */
  function RequiredProblem(s: string): (r: Option<Problem>)
    ensures r.None? <==> s != ""
    ensures r.Some? ==> r == Some(Missing)
  {
    if s == "" then Some(Missing) else None
  }

  /** The e-mail address: required, then the pattern. */
  function EmailProblem(email: string): (r: Option<Problem>)
    ensures r.None? <==> EmailPattern(email)
    ensures r == Some(Missing) <==> email == ""
    ensures r.Some? ==> r == Some(Missing) || r == Some(BadFormat)
  {
    if email == "" then Some(Missing)
    else if !EmailPattern(email) then Some(BadFormat)
    else None
  }

  /** The phone number: required, then the pattern. */
  function PhoneProblem(phone: string): (r: Option<Problem>)
    ensures r.None? <==> PhonePattern(phone)
    ensures r == Some(Missing) <==> phone == ""
    ensures r.Some? ==> r == Some(Missing) || r == Some(BadFormat)
  {
    if phone == "" then Some(Missing)
    else if !PhonePattern(phone) then Some(BadFormat)
    else None
  }
}
