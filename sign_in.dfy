/** The sign-in form (src/component/member/SignInComponent.tsx): two required fields, an
    error map whose entries are cleared as the user types, and a submission that is sent
    only when both fields are filled in. */
module SignIn {
  import opened Wrappers

  datatype SignInField = MemId | Pwd

  datatype SignInData = SignInData(memId: string, pwd: string)

  const MemIdMissing := "아이디를 입력해 주세요."
  const PwdMissing := "비밀번호를 입력해 주세요."

  function Get(d: SignInData, f: SignInField): string
  {
    match f
    case MemId => d.memId
    case Pwd => d.pwd
  }

  /** `onChange`: the named field takes the new value; its error message is blanked only
      when one is shown (a present, non-empty message), and the map keeps its keys. */
  function OnChange(d: SignInData, error: map<SignInField, string>, f: SignInField, v: string)
    : (r: (SignInData, map<SignInField, string>))
    ensures Get(r.0, f) == v
    ensures forall g :: g != f ==> Get(r.0, g) == Get(d, g)
    ensures r.1.Keys == error.Keys
    ensures forall g :: g in error && g != f ==> r.1[g] == error[g]
    ensures f in error ==> r.1[f] == ""
  {
    var d' := match f
      case MemId => d.(memId := v)
      case Pwd => d.(pwd := v);
    var e' := if f in error && error[f] != "" then error[f := ""] else error;
    (d', e')
  }

  /** `onSubmit`: each empty field gets its own message; the credentials are sent only when
      there is none, and the error map is then emptied whatever the server answers. */
  method OnSubmit(d: SignInData) returns (error: map<SignInField, string>, request: Option<SignInData>)
    ensures MemId in error <==> d.memId == ""
    ensures Pwd in error <==> d.pwd == ""
    ensures MemId in error ==> error[MemId] == MemIdMissing
    ensures Pwd in error ==> error[Pwd] == PwdMissing
    ensures error.Keys <= {MemId, Pwd}
    ensures request.Some? <==> d.memId != "" && d.pwd != ""
    ensures request.Some? <==> error == map[]
    ensures request.Some? ==> request.value == d
  {
    var newError: map<SignInField, string> := map[];
    if d.memId == "" { newError := newError[MemId := MemIdMissing]; }
    if d.pwd == "" { newError := newError[Pwd := PwdMissing]; }

    if |newError| > 0 {
      error, request := newError, None;
      return;
    }
    request := Some(d);
    error := map[];
  }

  /** Both messages are shown at once when both fields are empty. */
  method BothMissing() returns (error: map<SignInField, string>, request: Option<SignInData>)
    ensures error == map[MemId := MemIdMissing, Pwd := PwdMissing]
    ensures request.None?
  {
    error, request := OnSubmit(SignInData("", ""));
  }
}
