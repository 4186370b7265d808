/** Submitting the sign-up form (src/component/member/SignUpComponent.tsx, the current
    revision). Every field is checked in turn and at most one problem is recorded per
    field; the form is sent exactly when no field has a problem, and the error map is then
    reset. Unlike the older revision, an empty birth date is refused. */
module SignUp {
  import opened Wrappers
  import opened FormRules

  /** The problem this revision reports for one input, if any. */
  function Check(form: SignUpForm, i: Input): Option<Problem>
  {
    var u := form.user;
    match i
    case Of(MemId) => MemIdProblem(u.memId)
    case Of(Pwd) => PwdProblem(u.pwd)
    case CheckPwd => ConfirmProblem(u.pwd, form.checkPwd)
    case Of(Name) => RequiredProblem(u.name)
    case Of(Email) => EmailProblem(u.email)
    case Of(Phone) => PhoneProblem(u.phone)
    case Of(Gender) => RequiredProblem(u.gender)
    case Of(Addr) => RequiredProblem(u.addr)
    case Of(Birth) => RequiredProblem(u.birth)
  }

  /** What a form must satisfy to be sent, field by field. */
  predicate Acceptable(form: SignUpForm)
  {
    var u := form.user;
    && LengthOk(u.memId) && MemIdPattern(u.memId)
    && LengthOk(u.pwd) && PwdPattern(u.pwd) && form.checkPwd == u.pwd
    && u.name != ""
    && EmailPattern(u.email)
    && PhonePattern(u.phone)
    && u.gender != "" && u.addr != "" && u.birth != ""
  }

  /** Records a field's problem, if it has one. */
  function Put(m: map<Input, Problem>, i: Input, p: Option<Problem>): (r: map<Input, Problem>)
    ensures p.None? ==> r == m
    ensures p.Some? ==> i in r && r[i] == p.value
  {
    if p.Some? then m[i := p.value] else m
  }

  /** Every input the form has. */
  const AllInputs: set<Input> :=
    {Of(MemId), Of(Pwd), CheckPwd, Of(Name), Of(Email), Of(Phone), Of(Gender), Of(Addr), Of(Birth)}

  lemma AllInputsComplete(i: Input)
    ensures i in AllInputs
  {
    match i
    case Of(f) => match f {
      case MemId => case Pwd => case Name => case Email => case Phone =>
      case Gender => case Addr => case Birth =>
    }
    case CheckPwd =>
  }

  /** The error map once the inputs in `done` have been checked; `c` gives each input's
      problem. */
  function Partial(c: Input -> Option<Problem>, done: set<Input>): map<Input, Problem>
  {
    map i | i in done && c(i).Some? :: c(i).value
  }

  /** Checking one more input records its problem, if it has one. */
  lemma PutStep(c: Input -> Option<Problem>, done: set<Input>, k: Input)
    ensures Put(Partial(c, done), k, c(k)) == Partial(c, done + {k})
  {
    var a, b := Put(Partial(c, done), k, c(k)), Partial(c, done + {k});
    assert forall j :: j in a <==> j in b;
    assert forall j :: j in a ==> a[j] == b[j];
  }

  /** The map the checks build, input after input in the order `onSubmit` checks them,
      starting from an empty map; `c` gives each input's problem. */
  function Build(c: Input -> Option<Problem>): map<Input, Problem>
  {
    var m0 := Put(map[], Of(MemId), c(Of(MemId)));
    var m1 := Put(m0, Of(Pwd), c(Of(Pwd)));
    var m2 := Put(m1, CheckPwd, c(CheckPwd));
    var m3 := Put(m2, Of(Name), c(Of(Name)));
    var m4 := Put(m3, Of(Email), c(Of(Email)));
    var m5 := Put(m4, Of(Phone), c(Of(Phone)));
    var m6 := Put(m5, Of(Gender), c(Of(Gender)));
    var m7 := Put(m6, Of(Addr), c(Of(Addr)));
    Put(m7, Of(Birth), c(Of(Birth)))
  }

  /** Every input is visited once: the built map is the map of all inputs' problems. */
  lemma BuildIsPartial(c: Input -> Option<Problem>)
    ensures Build(c) == Partial(c, AllInputs)
  {
    var done: set<Input> := {};
    assert Partial(c, done) == map[];
    PutStep(c, done, Of(MemId));
    done := done + {Of(MemId)};
    PutStep(c, done, Of(Pwd));
    done := done + {Of(Pwd)};
    PutStep(c, done, CheckPwd);
    done := done + {CheckPwd};
    PutStep(c, done, Of(Name));
    done := done + {Of(Name)};
    PutStep(c, done, Of(Email));
    done := done + {Of(Email)};
    PutStep(c, done, Of(Phone));
    done := done + {Of(Phone)};
    PutStep(c, done, Of(Gender));
    done := done + {Of(Gender)};
    PutStep(c, done, Of(Addr));
    done := done + {Of(Addr)};
    PutStep(c, done, Of(Birth));
    done := done + {Of(Birth)};
    assert done == AllInputs;
  }

  /** This revision's checks as a function value. */
  function CheckOf(form: SignUpForm): Input -> Option<Problem>
  {
    i => Check(form, i)
  }

  /** Each input's entry of `CheckOf`, named by the rule that decides it. */
  lemma CheckOfUnfolds(form: SignUpForm)
    ensures var c, u := CheckOf(form), form.user;
      && c(Of(MemId)) == MemIdProblem(u.memId) && c(Of(Pwd)) == PwdProblem(u.pwd)
      && c(CheckPwd) == ConfirmProblem(u.pwd, form.checkPwd) && c(Of(Name)) == RequiredProblem(u.name)
      && c(Of(Email)) == EmailProblem(u.email) && c(Of(Phone)) == PhoneProblem(u.phone)
      && c(Of(Gender)) == RequiredProblem(u.gender) && c(Of(Addr)) == RequiredProblem(u.addr)
      && c(Of(Birth)) == RequiredProblem(u.birth)
  {
  }

  /** The error map `onSubmit` builds for a form. */
  function Errors(form: SignUpForm): map<Input, Problem>
  {
    Build(CheckOf(form))
  }

  /** The map holds exactly the inputs that have a problem, each with its own problem. */
  lemma ErrorsHoldProblems(form: SignUpForm)
    ensures forall i :: i in Errors(form) <==> Check(form, i).Some?
    ensures forall i :: i in Errors(form) ==> Check(form, i) == Some(Errors(form)[i])
  {
    BuildIsPartial(CheckOf(form));
    forall i ensures i in AllInputs {
      AllInputsComplete(i);
    }
  }

  /** The member id's checks: an empty id, then its length, then its characters. */
  method CheckMemId(m: map<Input, Problem>, id: string) returns (r: map<Input, Problem>)
    ensures r == Put(m, Of(MemId), MemIdProblem(id))
  {
    r := m;
    if id == "" { r := r[Of(MemId) := Missing]; }
    else if !LengthOk(id) { r := r[Of(MemId) := BadLength]; }
    else if !MemIdPattern(id) { r := r[Of(MemId) := BadCharacters]; }
  }

  /** The password's checks; the confirmation is compared only once the password passed. */
  method CheckPassword(m: map<Input, Problem>, pwd: string, checkPwd: string) returns (r: map<Input, Problem>)
    ensures r == Put(Put(m, Of(Pwd), PwdProblem(pwd)), CheckPwd, ConfirmProblem(pwd, checkPwd))
  {
    r := m;
    if pwd == "" { r := r[Of(Pwd) := Missing]; }
    else if !LengthOk(pwd) { r := r[Of(Pwd) := BadLength]; }
    else if !PwdPattern(pwd) { r := r[Of(Pwd) := BadCharacters]; }
    else if checkPwd != pwd { r := r[CheckPwd := Mismatch]; }
  }

  /** A field that must only be filled in. */
  method CheckRequired(m: map<Input, Problem>, i: Input, s: string) returns (r: map<Input, Problem>)
    ensures r == Put(m, i, RequiredProblem(s))
  {
    r := m;
    if s == "" { r := r[i := Missing]; }
  }

  /** The e-mail address: filled in, then the pattern. */
  method CheckEmail(m: map<Input, Problem>, email: string) returns (r: map<Input, Problem>)
    ensures r == Put(m, Of(Email), EmailProblem(email))
  {
    r := m;
    if email == "" { r := r[Of(Email) := Missing]; }
    else if !EmailPattern(email) { r := r[Of(Email) := BadFormat]; }
  }

  /** The phone number: filled in, then the pattern. */
  method CheckPhone(m: map<Input, Problem>, phone: string) returns (r: map<Input, Problem>)
    ensures r == Put(m, Of(Phone), PhoneProblem(phone))
  {
    r := m;
    if phone == "" { r := r[Of(Phone) := Missing]; }
    else if !PhonePattern(phone) { r := r[Of(Phone) := BadFormat]; }
  }

  /** The checks of `onSubmit`, in the order they run, each adding at most one entry. */
  method CollectErrors(form: SignUpForm) returns (newError: map<Input, Problem>)
    ensures newError == Errors(form)
  {
    var u := form.user;
    newError := CheckMemId(map[], u.memId);
    newError := CheckPassword(newError, u.pwd, form.checkPwd);
    newError := CheckRequired(newError, Of(Name), u.name);
    newError := CheckEmail(newError, u.email);
    newError := CheckPhone(newError, u.phone);
    newError := CheckRequired(newError, Of(Gender), u.gender);
    newError := CheckRequired(newError, Of(Addr), u.addr);
    newError := CheckRequired(newError, Of(Birth), u.birth);
    CheckOfUnfolds(form);
  }

  /** `onSubmit`: builds the error map one field at a time, then either shows it or sends
      the record (`signUp`) with an emptied error map. */
  method OnSubmit(form: SignUpForm) returns (error: map<Input, Problem>, request: Option<UserInfo>)
    ensures forall i :: i in error <==> Check(form, i).Some?
    ensures forall i :: i in error ==> Check(form, i) == Some(error[i])
    ensures Of(Birth) in error <==> form.user.birth == ""
    ensures request.Some? <==> Acceptable(form)
    ensures request.Some? <==> error == map[]
    ensures request.Some? ==> request.value == form.user
  {
    var newError := CollectErrors(form);
    ErrorsHoldProblems(form);
    AllClearIsAcceptable(form);
    assert Check(form, Of(Birth)) == RequiredProblem(form.user.birth);
    if |newError| > 0 {
      assert newError != map[];
      error, request := newError, None;
      return;
    }
    assert forall i :: i !in newError;
    error, request := map[], Some(form.user);
  }

  /** No input has a problem exactly when the form is acceptable. */
  lemma AllClearIsAcceptable(form: SignUpForm)
    ensures (forall i :: Check(form, i).None?) <==> Acceptable(form)
  {
    if Acceptable(form) {
      var u := form.user;
      assert MemIdProblem(u.memId).None? && PwdProblem(u.pwd).None?;
      assert ConfirmProblem(u.pwd, form.checkPwd).None?;
      forall i ensures Check(form, i).None? {
      }
    }
    if forall i :: Check(form, i).None? {
      assert Check(form, Of(MemId)).None? && Check(form, Of(Pwd)).None? && Check(form, CheckPwd).None?;
      assert Check(form, Of(Name)).None? && Check(form, Of(Email)).None? && Check(form, Of(Phone)).None?;
      assert Check(form, Of(Gender)).None? && Check(form, Of(Addr)).None? && Check(form, Of(Birth)).None?;
    }
  }

  /** A form filled in correctly except for the birth date. */
  function NoBirthForm(): SignUpForm
  {
    SignUpForm(UserInfo(SampleMemId, SamplePwd, "Kim", SampleEmail, SamplePhone, "MALE", "Seoul", ""),
               SamplePwd)
  }

  /** In this revision that form is refused, and with a birth date it is accepted. */
  lemma EmptyBirthRefused()
    ensures !Acceptable(NoBirthForm())
    ensures Acceptable(OnChange(NoBirthForm(), Of(Birth), "2000-01-01"))
  {
    SampleMemIdMatches();
    SamplePwdMatches();
    SampleEmailMatches();
    SamplePhoneMatches();
  }
}
