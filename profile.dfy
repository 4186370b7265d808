/** The member's own profile page (src/component/member/ProfileComponent.tsx): the loaded
    member, an edit form seeded from it, the password-change checks of `handleUpdate` and
    the record it submits. The two server calls (`updateMemberInfo`, `getUserInfo`) are
    given to the model as their outcomes. */
module Profile {
  import opened Wrappers

  /** The fields of the loaded member that the form is seeded from; each may be absent. */
  datatype Member = Member(email: Option<string>, phone: Option<string>, addr: Option<string>)

  datatype UpdateForm = UpdateForm(
    email: string, phone: string, addr: string,
    currentPwd: string, newPwd: string, confirmPwd: string)

  datatype FormField = Email | Phone | Addr | CurrentPwd | NewPwd | ConfirmPwd

  /** What `handleUpdate` sends: the contact fields always, the current and new password
      only together, and never the confirmation. */
  datatype UpdatePayload = UpdatePayload(
    email: string, phone: string, addr: string, passwords: Option<(string, string)>)

  /** Why `handleUpdate` stopped before sending. */
  datatype Abort = PasswordMismatch | CurrentPasswordMissing

  const LoadFailed := "회원 정보를 불러오는데 실패했습니다."

  /** `value || ""` on a field that may be absent. */
  function OrEmpty(o: Option<string>): (r: string)
    ensures o.Some? ==> r == o.value
    ensures o.None? ==> r == ""
  {
    if o.Some? then o.value else ""
  }

  const EmptyForm := UpdateForm("", "", "", "", "", "")

  /** The form as loading and cancelling set it: the member's contact fields and three
      empty passwords. */
  function FormFromMember(m: Member): (r: UpdateForm)
    ensures r.email == OrEmpty(m.email) && r.phone == OrEmpty(m.phone) && r.addr == OrEmpty(m.addr)
    ensures r.currentPwd == "" && r.newPwd == "" && r.confirmPwd == ""
  {
    UpdateForm(OrEmpty(m.email), OrEmpty(m.phone), OrEmpty(m.addr), "", "", "")
  }

  function Field(f: UpdateForm, k: FormField): string
  {
    match k
    case Email => f.email
    case Phone => f.phone
    case Addr => f.addr
    case CurrentPwd => f.currentPwd
    case NewPwd => f.newPwd
    case ConfirmPwd => f.confirmPwd
  }

  /** `handleInputChange`: only the named field changes. */
  function WithField(f: UpdateForm, k: FormField, v: string): (r: UpdateForm)
    ensures Field(r, k) == v
    ensures forall j :: j != k ==> Field(r, j) == Field(f, j)
  {
    match k
    case Email => f.(email := v)
    case Phone => f.(phone := v)
    case Addr => f.(addr := v)
    case CurrentPwd => f.(currentPwd := v)
    case NewPwd => f.(newPwd := v)
    case ConfirmPwd => f.(confirmPwd := v)
  }

  /** The checks of `handleUpdate`, which apply only when a new password is typed: first
      that it matches its confirmation, then that the current password is given. */
  function CheckUpdate(f: UpdateForm): (r: Option<Abort>)
    ensures r == Some(PasswordMismatch) <==> f.newPwd != "" && f.newPwd != f.confirmPwd
    ensures r == Some(CurrentPasswordMissing) <==> f.newPwd != "" && f.newPwd == f.confirmPwd && f.currentPwd == ""
    ensures r.None? <==> f.newPwd == "" || (f.newPwd == f.confirmPwd && f.currentPwd != "")
  {
    if f.newPwd != "" then
      if f.newPwd != f.confirmPwd then Some(PasswordMismatch)
      else if f.currentPwd == "" then Some(CurrentPasswordMissing)
      else None
    else None
  }

  /** The record `handleUpdate` submits. */
  function Payload(f: UpdateForm): (r: UpdatePayload)
    ensures r.email == f.email && r.phone == f.phone && r.addr == f.addr
    ensures r.passwords.Some? <==> f.newPwd != ""
    ensures r.passwords.Some? ==> r.passwords.value == (f.currentPwd, f.newPwd)
  {
    UpdatePayload(f.email, f.phone, f.addr, if f.newPwd != "" then Some((f.currentPwd, f.newPwd)) else None)
  }

  /** The confirmation is never part of what is sent. */
  lemma PayloadIgnoresConfirmation(f: UpdateForm, c: string)
    ensures Payload(f.(confirmPwd := c)) == Payload(f)
  {
  }

  /** A payload that carries passwords was checked: the new one was confirmed and the
      current one given. */
  lemma SentPasswordsWereChecked(f: UpdateForm)
    requires CheckUpdate(f).None?
    ensures Payload(f).passwords.Some? ==>
              f.newPwd == f.confirmPwd && Payload(f).passwords.value.0 != ""
  {
  }

  class ProfilePage {
    var member: Option<Member>
    var loading: bool
    var loadError: Option<string>
    var isEditing: bool
    var formData: UpdateForm

    /** The page as first rendered: loading, with an empty form. */
    constructor ()
      ensures member.None? && loading && loadError.None? && !isEditing && formData == EmptyForm
    {
      member := None;
      loading := true;
      loadError := None;
      isEditing := false;
      formData := EmptyForm;
    }

    /** The completion of the first `getUserInfo`. */
    method OnLoaded(result: Result<Member, string>)
      modifies this
      ensures !loading && isEditing == old(isEditing)
      ensures result.Ok? ==> member == Some(result.value) && formData == FormFromMember(result.value)
                             && loadError == old(loadError)
      ensures result.Err? ==> loadError == Some(LoadFailed) && member == old(member)
                              && formData == old(formData)
    {
      if result.Ok? {
        member := Some(result.value);
        formData := FormFromMember(result.value);
      } else {
        loadError := Some(LoadFailed);
      }
      loading := false;
    }

    /** The edit button, shown only once a member is loaded. */
    method StartEditing()
      requires member.Some?
      modifies this
      ensures isEditing
      ensures member == old(member) && formData == old(formData) && loading == old(loading)
              && loadError == old(loadError)
    {
      isEditing := true;
    }

    method HandleInputChange(k: FormField, v: string)
      modifies this
      ensures formData == WithField(old(formData), k, v)
      ensures member == old(member) && isEditing == old(isEditing) && loading == old(loading)
              && loadError == old(loadError)
    {
      formData := WithField(formData, k, v);
    }

    /** The cancel button: editing ends and the form is reseeded from the loaded member. */
    method Cancel()
      requires member.Some?
      modifies this
      ensures member == old(member)
      ensures !isEditing && formData == FormFromMember(old(member).value)
      ensures loading == old(loading) && loadError == old(loadError)
    {
      isEditing := false;
      formData := FormFromMember(member.value);
    }

    /** `handleUpdate`, given whether `updateMemberInfo` succeeded and what the reload
        returned. A failed check sends nothing and changes nothing. Once the update
        succeeds, editing ends; the member is replaced and the three passwords cleared only
        if the reload succeeds too, while the contact fields keep what was typed. */
    method HandleUpdate(updateOk: bool, reloaded: Result<Member, string>)
      returns (aborted: Option<Abort>, sent: Option<UpdatePayload>)
      modifies this
      ensures aborted == CheckUpdate(old(formData))
      ensures sent.Some? <==> aborted.None?
      ensures sent.Some? ==> sent.value == Payload(old(formData))
      ensures loading == old(loading) && loadError == old(loadError)
      ensures isEditing == (if aborted.None? && updateOk then false else old(isEditing))
      ensures aborted.None? && updateOk && reloaded.Ok? ==>
                member == Some(reloaded.value)
                && formData == old(formData).(currentPwd := "", newPwd := "", confirmPwd := "")
      ensures !(aborted.None? && updateOk && reloaded.Ok?) ==>
                member == old(member) && formData == old(formData)
    {
      aborted := CheckUpdate(formData);
      if aborted.Some? {
        sent := None;
        return;
      }
      sent := Some(Payload(formData));
      if !updateOk {
        return;
      }
      isEditing := false;
      if reloaded.Err? {
        return;
      }
      member := Some(reloaded.value);
      formData := formData.(currentPwd := "", newPwd := "", confirmPwd := "");
    }
  }

  /** Typing into the form and cancelling puts back exactly the form the load produced. */
  method EditThenCancel(m: Member, k: FormField, v: string) returns (before: UpdateForm, after: UpdateForm)
    ensures before == after == FormFromMember(m)
  {
    var page := new ProfilePage();
    page.OnLoaded(Ok(m));
    before := page.formData;
    page.StartEditing();
    page.HandleInputChange(k, v);
    page.Cancel();
    after := page.formData;
  }

  /** A password change that goes through leaves no password in the form. */
  method ChangePassword(m: Member, current: string, next: string, reloaded: Member)
    returns (sent: Option<UpdatePayload>, form: UpdateForm)
    requires current != "" && next != ""
    ensures sent == Some(UpdatePayload(OrEmpty(m.email), OrEmpty(m.phone), OrEmpty(m.addr), Some((current, next))))
    ensures form.currentPwd == "" && form.newPwd == "" && form.confirmPwd == ""
  {
    var page := new ProfilePage();
    page.OnLoaded(Ok(m));
    page.StartEditing();
    page.HandleInputChange(CurrentPwd, current);
    page.HandleInputChange(NewPwd, next);
    page.HandleInputChange(ConfirmPwd, next);
    var aborted;
    aborted, sent := page.HandleUpdate(true, Ok(reloaded));
    form := page.formData;
  }
}
