/** The e-mail confirmation page of src/pages/VerifyEmail.tsx: the verification
    run on arrival and the resend form. */
module VerifyEmail {
  import opened Wrappers
  import opened Http

  datatype Status = Idle | Verifying | Succeeded | Failed

  /** The resend reply body: its `message` ("" when absent) and `JSON.stringify` of
      the whole body. */
  datatype ResendBody = ResendBody(message: string, serialized: string)

  const VerifiedMessage: string := "อีเมลของคุณได้รับการยืนยันแล้ว คุณสามารถเข้าสู่ระบบได้"
  const VerifyFailedThrown: string := "Verification failed"
  const VerifyFailedFallback: string := "Verification failed."
  const EmailPrompt: string := "กรุณาใส่อีเมลเพื่อส่งอีเมลยืนยันใหม่"
  const ResentMessage: string := "ส่งอีเมลยืนยันเรียบร้อยแล้ว โปรดตรวจสอบกล่องจดหมาย"
  const ResendFailedFallback: string := "Could not resend verification."

  /** Status and message after the verification request. */
  function VerifyOutcome(reply: Reply<()>): (r: (Status, string))
    ensures r.0 == Succeeded <==> reply.Response? && IsOk(reply.status)
    ensures r.0 != Succeeded ==> r.0 == Failed
    ensures r.0 == Succeeded ==> r.1 == VerifiedMessage
    ensures reply.Response? && !IsOk(reply.status) ==> r.1 == OrElse(reply.body.text, VerifyFailedThrown)
    ensures reply.Rejected? ==> r.1 == OrElse(reply.error, VerifyFailedFallback)
    ensures r.1 != ""
  {
    match reply
    case Rejected(e) => (Failed, OrElse(e, VerifyFailedFallback))
    case Response(status, body) =>
      if IsOk(status) then (Succeeded, VerifiedMessage)
      else (Failed, OrElse(OrElse(body.text, VerifyFailedThrown), VerifyFailedFallback))
  }

  /** The error a failed resend throws: the body's `message`, else the body
      serialised, else `Status <code>`; a body that does not parse counts as `null`. */
  function ResendFailure(status: nat, json: Json<ResendBody>): (m: string)
    ensures m != ""
    ensures json.Parsed? && json.value.message != "" ==> m == json.value.message
    ensures json.Parsed? && json.value.message == "" && json.value.serialized != "" ==> m == json.value.serialized
    ensures (json.Unparsable? || (json.value.message == "" && json.value.serialized == "")) ==>
              m == "Status " + NatToString(status)
  {
    var fallback := "Status " + NatToString(status);
    match json
    case Parsed(b) => OrElse(OrElse(b.message, b.serialized), fallback)
    case Unparsable(_) => fallback
  }

  /** Status and message after the resend request. */
  function ResendOutcome(reply: Reply<ResendBody>): (r: (Status, string))
    ensures r.0 == Succeeded <==> reply.Response? && IsOk(reply.status)
    ensures r.0 != Succeeded ==> r.0 == Failed
    ensures r.0 == Succeeded ==> r.1 == ResentMessage
    ensures reply.Response? && !IsOk(reply.status) ==> r.1 == ResendFailure(reply.status, reply.body.json)
    ensures reply.Rejected? ==> r.1 == OrElse(reply.error, ResendFailedFallback)
    ensures r.1 != ""
  {
    match reply
    case Rejected(e) => (Failed, OrElse(e, ResendFailedFallback))
    case Response(status, body) =>
      if IsOk(status) then (Succeeded, ResentMessage)
      else (Failed, OrElse(ResendFailure(status, body.json), ResendFailedFallback))
  }

  class VerifyPage {
    var status: Status
    var message: Option<string>
    var email: string
    var pending: bool

    /** The page as opened, with the `email` query parameter ("" when absent). */
    constructor (initialEmail: string)
      ensures status == Idle && message == None && email == initialEmail && !pending
    {
      status, message, email, pending := Idle, None, initialEmail, false;
    }

    /** The effect up to its request: with no token nothing happens; otherwise the
        status becomes verifying and the message is cleared. */
    method StartVerify(token: string) returns (requested: bool)
      modifies this
      ensures requested <==> token != ""
      ensures requested ==> status == Verifying && message == None
      ensures !requested ==> status == old(status) && message == old(message)
      ensures email == old(email) && pending == old(pending)
    {
      if token == "" {
        return false;
      }
      status := Verifying;
      message := None;
      requested := true;
    }

    /** The effect after its request. */
    method FinishVerify(reply: Reply<()>)
      modifies this
      ensures status == VerifyOutcome(reply).0 && message == Some(VerifyOutcome(reply).1)
      ensures email == old(email) && pending == old(pending)
    {
      var outcome := VerifyOutcome(reply);
      status := outcome.0;
      message := Some(outcome.1);
    }

    /** `resend` up to its request: an empty email prompts for one, fails the
        status, sends nothing and leaves `pending` alone; otherwise the form
        becomes pending and verifying, clears the message and sends the email. */
    method BeginResend() returns (sent: Option<string>)
      modifies this
      ensures sent.None? <==> email == ""
      ensures sent.None? ==> status == Failed && message == Some(EmailPrompt) && pending == old(pending)
      ensures sent.Some? ==> sent.value == email && pending && status == Verifying && message == None
      ensures email == old(email)
    {
      if email == "" {
        message := Some(EmailPrompt);
        status := Failed;
        return None;
      }
      pending := true;
      status := Verifying;
      message := None;
      sent := Some(email);
    }

    /** `resend` after its request: the outcome is shown and `pending` ends. */
    method FinishResend(reply: Reply<ResendBody>)
      modifies this
      ensures status == ResendOutcome(reply).0 && message == Some(ResendOutcome(reply).1)
      ensures !pending
      ensures email == old(email)
    {
      var outcome := ResendOutcome(reply);
      status := outcome.0;
      message := Some(outcome.1);
      pending := false;
    }
  }
}
