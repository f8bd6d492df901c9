/** The ordered pre-flight validation shared by the sign-in/sign-up form and
    the profile editor. Each page runs its checks in a fixed order and reports
    the message of the first one that fails; nothing is sent to the server
    unless every check passes. */
module FormValidation {
  import opened Common
  import EmailPattern

  const MinPasswordLength: nat := 6

  const MsgCredentialsRequired := "Email and password are required"
  const MsgInvalidEmail := "Please enter a valid email address"
  const MsgPasswordTooShort := "Password must be at least 6 characters long"

  /** The fields a validator reads, whichever page holds them. */
  datatype Entry = Entry(name: string, email: string, phone: string, address: string, password: string)

  /** One check of a validator. `ContactPresent` carries its own message,
      which differs between the two pages. */
  datatype Check =
    | CredentialsPresent
    | EmailWellFormed
    | PasswordLongEnough
    | ContactPresent(message: string)

  /** Whether entry `e` passes check `c` (an empty string is falsy, as in the
      client). */
  predicate Passes(c: Check, e: Entry)
  {
    match c
    case CredentialsPresent => e.email != "" && e.password != ""
    case EmailWellFormed => EmailPattern.IsValidEmail(e.email)
    case PasswordLongEnough => |e.password| >= MinPasswordLength
    case ContactPresent(_) => e.name != "" && e.phone != "" && e.address != ""
  }

  function Message(c: Check): string
  {
    match c
    case CredentialsPresent => MsgCredentialsRequired
    case EmailWellFormed => MsgInvalidEmail
    case PasswordLongEnough => MsgPasswordTooShort
    case ContactPresent(m) => m
  }

  /** The message of the first check in `checks` that `e` fails, or `None`
      when it passes them all. */
  function FirstFailure(checks: seq<Check>, e: Entry): (r: Option<string>)
    ensures r.None? <==> forall k :: 0 <= k < |checks| ==> Passes(checks[k], e)
    ensures r.Some? ==>
      exists k :: 0 <= k < |checks| && !Passes(checks[k], e) && r.value == Message(checks[k])
                  && forall j :: 0 <= j < k ==> Passes(checks[j], e)
  {
    if checks == [] then None
    else if !Passes(checks[0], e) then Some(Message(checks[0]))
    else
      var r := FirstFailure(checks[1..], e);
      assert forall k :: 1 <= k < |checks| ==> checks[k] == checks[1..][k - 1];
      r
  }

  /** Running a list that starts with check `c`: `c` decides first. */
  lemma FirstFailureCons(c: Check, rest: seq<Check>, e: Entry)
    ensures FirstFailure([c] + rest, e)
            == if Passes(c, e) then FirstFailure(rest, e) else Some(Message(c))
  {
    assert ([c] + rest)[1..] == rest;
  }

  /** Two entries that every check in `checks` judges alike get the same
      verdict: a validator never looks at a field its checks do not read. */
  lemma {:induction false} FirstFailureAgrees(checks: seq<Check>, e: Entry, e': Entry)
    requires forall k :: 0 <= k < |checks| ==> (Passes(checks[k], e) <==> Passes(checks[k], e'))
    ensures FirstFailure(checks, e) == FirstFailure(checks, e')
  {
    if checks != [] && Passes(checks[0], e) {
      assert forall k :: 1 <= k < |checks| ==> checks[k] == checks[1..][k - 1];
      FirstFailureAgrees(checks[1..], e, e');
    }
  }
}
