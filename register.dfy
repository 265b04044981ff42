/** The sign-up form of src/pages/Register.tsx. */
module Register {
  import opened Wrappers
  import opened Http

  /** The JSON body POSTed to `/auth/register`. */
  datatype RegisterBody = RegisterBody(full_name: string, email: string, password: string)

  /** The server's reply body; "" stands for an absent `message`. */
  datatype RegisterReply = RegisterReply(message: string)

  /** The navigation `setTimeout` schedules. */
  datatype Scheduled = Scheduled(path: string, delayMs: nat)

  /** What a finished request leaves on the form. */
  datatype Outcome = Outcome(error: Option<string>, message: Option<string>, redirect: Option<Scheduled>)

  const MismatchError: string := "Passwords do not match."
  const FailedError: string := "Registration failed."
  const SuccessMessage: string := "Registration successful! Redirecting to login..."
  const LoginPath: string := "/login"
  const RedirectDelayMs: nat := 3000

  /** The outcome of the request: a body that does not parse throws before the
      status is looked at; a failure status shows the body's message or the
      default error; an ok status shows the body's message or the default text
      and schedules the move to the login page; a rejected request shows its error. */
  function OutcomeOf(reply: Reply<RegisterReply>): (o: Outcome)
    ensures o.error.Some? != o.message.Some?
    ensures o.redirect.Some? <==> o.message.Some?
    ensures o.redirect.Some? ==> o.redirect.value == Scheduled(LoginPath, RedirectDelayMs)
    ensures o.message.Some? <==> reply.Response? && IsOk(reply.status) && reply.body.json.Parsed?
    ensures o.message.Some? ==> o.message.value == OrElse(reply.body.json.value.message, SuccessMessage)
    ensures reply.Response? && !IsOk(reply.status) && reply.body.json.Parsed? ==>
              o.error == Some(OrElse(reply.body.json.value.message, FailedError))
    ensures reply.Response? && reply.body.json.Unparsable? ==> o.error == Some(reply.body.json.error)
    ensures reply.Rejected? ==> o.error == Some(reply.error)
  {
    match reply
    case Rejected(e) => Outcome(Some(e), None, None)
    case Response(status, body) =>
      match body.json
      case Unparsable(e) => Outcome(Some(e), None, None)
      case Parsed(data) =>
        if !IsOk(status) then Outcome(Some(OrElse(data.message, FailedError)), None, None)
        else Outcome(None, Some(OrElse(data.message, SuccessMessage)), Some(Scheduled(LoginPath, RedirectDelayMs)))
  }

  class RegisterForm {
    var fullName: string
    var email: string
    var password: string
    var confirmPassword: string
    var error: Option<string>
    var message: Option<string>
    var loading: bool

    constructor ()
      ensures fullName == "" && email == "" && password == "" && confirmPassword == ""
      ensures error == None && message == None && !loading
    {
      fullName, email, password, confirmPassword := "", "", "", "";
      error, message, loading := None, None, false;
    }

    /** `onSubmit` up to its request: both notices are cleared; a password that
        differs from its confirmation only sets the mismatch error, sends nothing
        and leaves `loading` alone; otherwise loading starts and the body is sent. */
    method BeginSubmit() returns (sent: Option<RegisterBody>)
      modifies this
      ensures message == None
      ensures sent.None? <==> password != confirmPassword
      ensures sent.None? ==> error == Some(MismatchError) && loading == old(loading)
      ensures sent.Some? ==> sent.value == RegisterBody(fullName, email, password) && error == None && loading
      ensures fullName == old(fullName) && email == old(email)
      ensures password == old(password) && confirmPassword == old(confirmPassword)
    {
      error := None;
      message := None;
      if password != confirmPassword {
        error := Some(MismatchError);
        return None;
      }
      loading := true;
      sent := Some(RegisterBody(fullName, email, password));
    }

    /** `onSubmit` after its request: the outcome is shown and loading ends. */
    method FinishSubmit(reply: Reply<RegisterReply>) returns (redirect: Option<Scheduled>)
      modifies this
      ensures error == OutcomeOf(reply).error && message == OutcomeOf(reply).message
      ensures redirect == OutcomeOf(reply).redirect
      ensures !loading
      ensures fullName == old(fullName) && email == old(email)
      ensures password == old(password) && confirmPassword == old(confirmPassword)
    {
      var o := OutcomeOf(reply);
      error, message, redirect := o.error, o.message, o.redirect;
      loading := false;
    }
  }
}
