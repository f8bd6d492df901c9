/** The sign-in / sign-up page (`AuthPage`): one form object shared by two
    modes, an ordered validator, and a submit handler that picks the endpoint
    from the mode and drives the `loading` and `message` flags. */
module Auth {
  import opened Common
  import opened FormValidation
  import EmailPattern

  const SignInEndpoint := "/auth/login"
  const SignUpEndpoint := "/auth/register"
  const MsgSignUpFieldsRequired := "All fields are required for Sign Up"
  const MsgSignedIn := "Login successful!"
  const MsgSignedUp := "Account created!"
  const MsgFallback := "Something went wrong"

  /** The inputs of the form, by their `name` attribute. */
  datatype Field = Name | Email | Phone | Address | Password | Role

  datatype AuthForm = AuthForm(name: string, email: string, phone: string, address: string,
                               password: string, role: string)
  {
    function Get(f: Field): string
    {
      match f
      case Name => name
      case Email => email
      case Phone => phone
      case Address => address
      case Password => password
      case Role => role
    }

    /** `{ ...formData, [field]: value }` */
    function With(f: Field, value: string): (r: AuthForm)
      ensures r.Get(f) == value
      ensures forall g :: g != f ==> r.Get(g) == Get(g)
    {
      match f
      case Name => this.(name := value)
      case Email => this.(email := value)
      case Phone => this.(phone := value)
      case Address => this.(address := value)
      case Password => this.(password := value)
      case Role => this.(role := value)
    }
  }

  const InitialForm := AuthForm("", "", "", "", "", "consumer")

  function EntryOf(f: AuthForm): Entry
  {
    Entry(f.name, f.email, f.phone, f.address, f.password)
  }

  /** The checks in the order the page runs them; the contact check only in
      sign-up mode. */
  function AuthChecks(isLogin: bool): seq<Check>
  {
    [CredentialsPresent, EmailWellFormed, PasswordLongEnough]
    + (if isLogin then [] else [ContactPresent(MsgSignUpFieldsRequired)])
  }

  /** `validateForm`: the message of the first failing check, `None` when the
      form may be sent. */
  function Validate(f: AuthForm, isLogin: bool): (r: Option<string>)
    ensures r == FirstFailure(AuthChecks(isLogin), EntryOf(f))
    ensures r.None? <==>
      && EmailPattern.IsValidEmail(f.email)
      && |f.password| >= MinPasswordLength
      && (!isLogin ==> f.name != "" && f.phone != "" && f.address != "")
    ensures (f.email == "" || f.password == "") ==> r == Some(MsgCredentialsRequired)
  {
    var e, contact := EntryOf(f), if isLogin then [] else [ContactPresent(MsgSignUpFieldsRequired)];
    FirstFailureCons(CredentialsPresent, [EmailWellFormed, PasswordLongEnough] + contact, e);
    FirstFailureCons(EmailWellFormed, [PasswordLongEnough] + contact, e);
    FirstFailureCons(PasswordLongEnough, contact, e);
    assert AuthChecks(isLogin) == [CredentialsPresent] + ([EmailWellFormed] + ([PasswordLongEnough] + contact));
    if f.email == "" || f.password == "" then Some(MsgCredentialsRequired)
    else if !EmailPattern.IsValidEmail(f.email) then Some(MsgInvalidEmail)
    else if |f.password| < MinPasswordLength then Some(MsgPasswordTooShort)
    else if !isLogin && (f.name == "" || f.phone == "" || f.address == "") then Some(MsgSignUpFieldsRequired)
    else None
  }

  /** In sign-in mode the name, phone and address never affect validation. */
  lemma SignInIgnoresContact(f: AuthForm, name: string, phone: string, address: string)
    ensures Validate(f, true) == Validate(f.(name := name, phone := phone, address := address), true)
  {
    var f' := f.(name := name, phone := phone, address := address);
    FirstFailureAgrees(AuthChecks(true), EntryOf(f), EntryOf(f'));
  }

  /** Which endpoint a submission posts to. */
  function Endpoint(isLogin: bool): (e: string)
    ensures e == SignInEndpoint <==> isLogin
    ensures e == SignUpEndpoint <==> !isLogin
  {
    if isLogin then SignInEndpoint else SignUpEndpoint
  }

  /** The POST a submission sends: the mode it was sent in, the endpoint, and
      the whole form as the body. */
  datatype AuthRequest = AuthRequest(signIn: bool, endpoint: string, body: AuthForm)

  /** The response of a successful sign-in or sign-up. */
  datatype AuthResponse = AuthResponse(token: string)

  /** `err.response?.data?.message || "Something went wrong"` */
  function FailureMessage(serverMessage: Option<string>): (m: string)
    ensures m != ""
    ensures Present(serverMessage) ==> m == serverMessage.value
    ensures !Present(serverMessage) ==> m == MsgFallback
  {
    OrElse(serverMessage, MsgFallback)
  }

  /** The message shown once an accepted submission settles. */
  function SettledMessage(req: AuthRequest, outcome: Outcome<AuthResponse>): (m: string)
    ensures outcome.Ok? ==> (m == MsgSignedIn <==> req.signIn) && (m == MsgSignedUp <==> !req.signIn)
    ensures outcome.Err? ==> m == FailureMessage(outcome.serverMessage)
  {
    match outcome
    case Ok(_) => if req.signIn then MsgSignedIn else MsgSignedUp
    case Err(m) => FailureMessage(m)
  }

  /** The page's state. A submission is in flight exactly while `pending`
      holds its request; `loading` mirrors that. */
  class AuthPage {
    var isLogin: bool
    var form: AuthForm
    var message: string
    var loading: bool
    var pending: Option<AuthRequest>

    ghost predicate Valid()
      reads this
    {
      loading <==> pending.Some?
    }

    constructor ()
      ensures Valid()
      ensures isLogin && form == InitialForm && message == "" && !loading
    {
      isLogin := true;
      form := InitialForm;
      message := "";
      loading := false;
      pending := None;
    }

    /** `handleChange`: only the named field changes. */
    method HandleChange(field: Field, value: string)
      modifies this`form
      ensures form == old(form).With(field, value)
    {
      form := form.With(field, value);
    }

    /** The "Sign In" tab: clears the message, keeps the form. */
    method ShowSignIn()
      modifies this`isLogin, this`message
      ensures isLogin && message == ""
    {
      isLogin := true;
      message := "";
    }

    /** The "Sign Up" tab: clears the message, keeps the form. */
    method ShowSignUp()
      modifies this`isLogin, this`message
      ensures !isLogin && message == ""
    {
      isLogin := false;
      message := "";
    }

    /** `handleSubmit` up to the awaited POST. The submit button is disabled
        while `loading`, so a submission starts only when none is in flight.
        A form that fails validation is not sent and `loading` is untouched. */
    method HandleSubmit() returns (request: Option<AuthRequest>)
      requires Valid() && !loading
      modifies this`message, this`loading, this`pending
      ensures Valid()
      ensures Validate(form, isLogin).Some? ==>
        request.None? && message == Validate(form, isLogin).value && !loading
      ensures Validate(form, isLogin).None? ==>
        && request == Some(AuthRequest(isLogin, Endpoint(isLogin), form))
        && loading && message == ""
      ensures pending == request
    {
      var verdict := Validate(form, isLogin);
      if verdict.Some? {
        message := verdict.value;
        return None;
      }
      loading := true;
      message := "";
      request := Some(AuthRequest(isLogin, Endpoint(isLogin), form));
      pending := request;
    }

    /** The rest of `handleSubmit` once the POST settles: the success or
        failure message, then `loading` is cleared whatever the outcome. The
        success message follows the mode the request was sent in. */
    method Settle(outcome: Outcome<AuthResponse>)
      requires Valid() && pending.Some?
      modifies this`message, this`loading, this`pending
      ensures Valid() && !loading && pending.None?
      ensures message == SettledMessage(old(pending).value, outcome)
    {
      message := SettledMessage(pending.value, outcome);
      loading := false;
      pending := None;
    }
  }
}
