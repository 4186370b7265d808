/** Submitting the sign-up form in its older revision (src/component/signUpComponent.tsx).
    Every check is the one of the current revision except the birth date's: this revision
    compares the birth date with `null`, which a string never is, so an empty birth date
    passes and the record is sent without one. */
module SignUpLegacy {
  import opened Wrappers
  import opened FormRules
  import SignUp

  /** The problem this revision reports for one input: none for the birth date. */
  function Check(form: SignUpForm, i: Input): Option<Problem>
  {
    var u := form.user;
    match i
    case Of(MemId) => MemIdProblem(u.memId)
    case Of(Pwd) => PwdProblem(u.pwd)
    case CheckPwd => ConfirmProblem(u.pwd, form.checkPwd)
    case Of(Name) => RequiredProblem(u.name)
    case Of(Email) => EmailProblem(u.email)
    case Of(Phone) => PhoneProblem(u.phone)
    case Of(Gender) => RequiredProblem(u.gender)
    case Of(Addr) => RequiredProblem(u.addr)
    case Of(Birth) => None
  }

  /** What this revision lets through: the current rules without the birth date. */
  predicate Acceptable(form: SignUpForm)
  {
    var u := form.user;
    && LengthOk(u.memId) && MemIdPattern(u.memId)
    && LengthOk(u.pwd) && PwdPattern(u.pwd) && form.checkPwd == u.pwd
    && u.name != ""
    && EmailPattern(u.email)
    && PhonePattern(u.phone)
    && u.gender != "" && u.addr != ""
  }

  /** This revision's checks as a function value. */
  function CheckOf(form: SignUpForm): Input -> Option<Problem>
  {
    i => Check(form, i)
  }

  /** Each input's entry of `CheckOf`, named by the rule that decides it. */
  lemma CheckOfUnfolds(form: SignUpForm)
    ensures var c, u := CheckOf(form), form.user;
      && c(Of(MemId)) == MemIdProblem(u.memId) && c(Of(Pwd)) == PwdProblem(u.pwd)
      && c(CheckPwd) == ConfirmProblem(u.pwd, form.checkPwd) && c(Of(Name)) == RequiredProblem(u.name)
      && c(Of(Email)) == EmailProblem(u.email) && c(Of(Phone)) == PhoneProblem(u.phone)
      && c(Of(Gender)) == RequiredProblem(u.gender) && c(Of(Addr)) == RequiredProblem(u.addr)
      && c(Of(Birth)) == None
  {
  }

  /** The error map of this revision: its birth-date step never adds an entry. */
  function Errors(form: SignUpForm): map<Input, Problem>
  {
    SignUp.Build(CheckOf(form))
  }

  /** The map holds exactly the inputs that have a problem, each with its own problem. */
  lemma ErrorsHoldProblems(form: SignUpForm)
    ensures forall i :: i in Errors(form) <==> Check(form, i).Some?
    ensures forall i :: i in Errors(form) ==> Check(form, i) == Some(Errors(form)[i])
  {
    SignUp.BuildIsPartial(CheckOf(form));
    forall i ensures i in SignUp.AllInputs {
      SignUp.AllInputsComplete(i);
    }
  }

  /** No input has a problem exactly when this revision's rules hold. */
  lemma AllClearIsAcceptable(form: SignUpForm)
    ensures (forall i :: Check(form, i).None?) <==> Acceptable(form)
  {
    if Acceptable(form) {
      var u := form.user;
      assert MemIdProblem(u.memId).None? && PwdProblem(u.pwd).None?;
      assert ConfirmProblem(u.pwd, form.checkPwd).None?;
      forall i ensures Check(form, i).None? {
      }
    }
    if forall i :: Check(form, i).None? {
      assert Check(form, Of(MemId)).None? && Check(form, Of(Pwd)).None? && Check(form, CheckPwd).None?;
      assert Check(form, Of(Name)).None? && Check(form, Of(Email)).None? && Check(form, Of(Phone)).None?;
      assert Check(form, Of(Gender)).None? && Check(form, Of(Addr)).None?;
    }
  }

  /** The checks of `onSubmit` in this revision. The last one tests the birth date against
      `null`; the birth date is a string, so that test never holds and adds nothing. */
  method CollectErrors(form: SignUpForm) returns (newError: map<Input, Problem>)
    ensures newError == Errors(form)
  {
    var u := form.user;
    newError := SignUp.CheckMemId(map[], u.memId);
    newError := SignUp.CheckPassword(newError, u.pwd, form.checkPwd);
    newError := SignUp.CheckRequired(newError, Of(Name), u.name);
    newError := SignUp.CheckEmail(newError, u.email);
    newError := SignUp.CheckPhone(newError, u.phone);
    newError := SignUp.CheckRequired(newError, Of(Gender), u.gender);
    newError := SignUp.CheckRequired(newError, Of(Addr), u.addr);
    CheckOfUnfolds(form);
  }

  /** `onSubmit` of this revision: the birth date is never reported. */
  method OnSubmit(form: SignUpForm) returns (error: map<Input, Problem>, request: Option<UserInfo>)
    ensures forall i :: i in error <==> Check(form, i).Some?
    ensures forall i :: i in error ==> Check(form, i) == Some(error[i])
    ensures Of(Birth) !in error
    ensures request.Some? <==> Acceptable(form)
    ensures request.Some? <==> error == map[]
    ensures request.Some? ==> request.value == form.user
  {
    var newError := CollectErrors(form);
    ErrorsHoldProblems(form);
    AllClearIsAcceptable(form);
    if |newError| > 0 {
      assert newError != map[];
      error, request := newError, None;
      return;
    }
    assert forall i :: i !in newError;
    error, request := map[], Some(form.user);
  }

  /** The form the current revision refuses for its empty birth date goes through here,
      and is sent with an empty birth date. */
  lemma EmptyBirthAccepted()
    ensures Acceptable(SignUp.NoBirthForm())
    ensures !SignUp.Acceptable(SignUp.NoBirthForm())
    ensures SignUp.NoBirthForm().user.birth == ""
  {
    SampleMemIdMatches();
    SamplePwdMatches();
    SampleEmailMatches();
    SamplePhoneMatches();
  }

  /** The two revisions agree on every form that has a birth date. */
  lemma RevisionsAgreeWithBirth(form: SignUpForm)
    requires form.user.birth != ""
    ensures Acceptable(form) <==> SignUp.Acceptable(form)
    ensures forall i :: Check(form, i) == SignUp.Check(form, i)
  {
  }
}
