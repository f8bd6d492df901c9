/** The profile editor (`ProfilePage`): it loads the signed-in user into a
    form, validates edits with the same ordered checks as the sign-in page
    (but with name, phone and address always required), and sends the whole
    record as an update. */
module Profile {
  import opened Common
  import opened FormValidation
  import EmailPattern

  const MsgFieldsRequired := "All fields are required"
  const MsgLoadFailed := "Failed to load profile"
  const MsgUpdated := "Profile updated successfully!"
  const MsgUpdateFailed := "Error updating profile"

  /** The editable inputs; `id` has none. */
  datatype Field = Name | Email | Phone | Address | Password

  /** The form state; it is also, field for field, the body of the update. */
  datatype ProfileForm = ProfileForm(id: string, name: string, email: string, phone: string,
                                     address: string, password: string)
  {
    function Get(f: Field): string
    {
      match f
      case Name => name
      case Email => email
      case Phone => phone
      case Address => address
      case Password => password
    }

    /** `{ ...formData, <field>: value }` */
    function With(f: Field, value: string): (r: ProfileForm)
      ensures r.Get(f) == value
      ensures forall g :: g != f ==> r.Get(g) == Get(g)
      ensures r.id == id
    {
      match f
      case Name => this.(name := value)
      case Email => this.(email := value)
      case Phone => this.(phone := value)
      case Address => this.(address := value)
      case Password => this.(password := value)
    }
  }

  const EmptyForm := ProfileForm("", "", "", "", "", "")

  /** The user record the profile endpoint returns. Phone and address may be
      missing; the password is never returned. */
  datatype UserRecord = UserRecord(id: string, name: string, email: string,
                                   phone: Option<string>, address: Option<string>)

  function EntryOf(f: ProfileForm): Entry
  {
    Entry(f.name, f.email, f.phone, f.address, f.password)
  }

  /** The checks in the order the editor runs them. */
  const ProfileChecks: seq<Check> :=
    [CredentialsPresent, EmailWellFormed, PasswordLongEnough, ContactPresent(MsgFieldsRequired)]

  /** `validateForm`. Although the password input is labelled optional, a
      form passes only with a password of at least six characters. */
  function Validate(f: ProfileForm): (r: Option<string>)
    ensures r == FirstFailure(ProfileChecks, EntryOf(f))
    ensures r.None? <==>
      && EmailPattern.IsValidEmail(f.email)
      && |f.password| >= MinPasswordLength
      && f.name != "" && f.phone != "" && f.address != ""
    ensures f.password == "" ==> r == Some(MsgCredentialsRequired)
  {
    var e := EntryOf(f);
    FirstFailureCons(CredentialsPresent, ProfileChecks[1..], e);
    FirstFailureCons(EmailWellFormed, ProfileChecks[2..], e);
    FirstFailureCons(PasswordLongEnough, ProfileChecks[3..], e);
    FirstFailureCons(ContactPresent(MsgFieldsRequired), [], e);
    assert ProfileChecks[3..] == [ContactPresent(MsgFieldsRequired)] + [];
    if f.email == "" || f.password == "" then Some(MsgCredentialsRequired)
    else if !EmailPattern.IsValidEmail(f.email) then Some(MsgInvalidEmail)
    else if |f.password| < MinPasswordLength then Some(MsgPasswordTooShort)
    else if f.name == "" || f.phone == "" || f.address == "" then Some(MsgFieldsRequired)
    else None
  }

  /** The form `fetchUserData` fills in from the fetched record: `_id` becomes
      `id`, a missing phone or address becomes "", the password is always "".
      As loaded, the form cannot be sent: it fails the very first check. */
  function FormFromUser(u: UserRecord): (f: ProfileForm)
    ensures f.id == u.id && f.name == u.name && f.email == u.email
    ensures Present(u.phone) ==> f.phone == u.phone.value
    ensures Present(u.address) ==> f.address == u.address.value
    ensures !Present(u.phone) ==> f.phone == ""
    ensures !Present(u.address) ==> f.address == ""
    ensures f.password == ""
    ensures Validate(f) == Some(MsgCredentialsRequired)
  {
    ProfileForm(u.id, u.name, u.email, OrElse(u.phone, ""), OrElse(u.address, ""), "")
  }

  /** Typing a password of at least six characters into a freshly loaded
      form makes it sendable exactly when the fetched record already has a
      valid e-mail, a name, a phone and an address. */
  lemma PasswordUnlocksLoadedProfile(u: UserRecord, password: string)
    requires |password| >= MinPasswordLength
    ensures Validate(FormFromUser(u).With(Password, password)).None? <==>
      EmailPattern.IsValidEmail(u.email) && u.name != "" && Present(u.phone) && Present(u.address)
  {
  }

  /** The page's state. `loading` is true until the first profile fetch
      settles. */
  class ProfilePage {
    var form: ProfileForm
    var message: string
    var loading: bool

    constructor ()
      ensures form == EmptyForm && message == "" && loading
    {
      form := EmptyForm;
      message := "";
      loading := true;
    }

    /** `fetchUserData`'s effect once the GET settles. */
    method FetchUserData(fetched: Outcome<UserRecord>)
      modifies this`form, this`message, this`loading
      ensures !loading
      ensures fetched.Ok? ==> form == FormFromUser(fetched.data) && message == old(message)
      ensures fetched.Err? ==> form == old(form) && message == MsgLoadFailed
    {
      match fetched {
        case Ok(u) =>
          form := FormFromUser(u);
        case Err(_) =>
          message := MsgLoadFailed;
      }
      loading := false;
    }

    /** An input's `onChange`: only that field changes. */
    method HandleChange(field: Field, value: string)
      modifies this`form
      ensures form == old(form).With(field, value)
    {
      form := form.With(field, value);
    }

    /** `handleUpdate`. A form that fails validation is not sent. Otherwise
        the body is the form itself; on success only the password is cleared,
        on failure the form is kept. */
    method HandleUpdate(outcome: Outcome<()>) returns (sent: Option<ProfileForm>)
      modifies this`form, this`message
      ensures Validate(old(form)).Some? ==>
        sent.None? && message == Validate(old(form)).value && form == old(form)
      ensures Validate(old(form)).None? ==> sent == Some(old(form))
      ensures Validate(old(form)).None? && outcome.Ok? ==>
        message == MsgUpdated && form == old(form).(password := "")
      ensures Validate(old(form)).None? && outcome.Err? ==>
        message == MsgUpdateFailed && form == old(form)
    {
      var verdict := Validate(form);
      if verdict.Some? {
        message := verdict.value;
        return None;
      }
      sent := Some(form);
      match outcome
      case Ok(_) =>
        message := MsgUpdated;
        form := form.(password := "");
      case Err(_) =>
        message := MsgUpdateFailed;
    }
  }
}
