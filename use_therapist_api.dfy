/** The `useTherapistApi` hook: a local `loading` flag around three calls to the
    therapist service. `sendOtp` and `verifyOtp` pass the reply through
    (resolving or rethrowing) with a toast; `register` classifies the reply and
    turns every reply that is not a confirmation into a throw. */
module UseTherapistApi {
  import opened JsValues

  /** What a call gives its caller (the value or the rethrown error) and the
      toasts it shows, in order. */
  datatype Call = Call(outcome: Outcome<Json>, toasts: seq<Toast>)

  /** `sendOtp(contact)` given what `sendTherapistOtp(contact)` produced. */
  function SendOtpEffects(reply: Outcome<Json>): (c: Call)
    ensures c.outcome == reply
    ensures reply.Resolved? ==>
      c.toasts == [SuccessToast(Str("OTP sent successfully! Please check your device."))]
    ensures reply.Threw? ==>
      c.toasts == [ErrorToast(OrElse(ResponseMessage(reply.error),
                                     Str("Failed to send OTP. Please try again.")))]
  {
    match reply
    case Resolved(_) =>
      Call(reply, [SuccessToast(Str("OTP sent successfully! Please check your device."))])
    case Threw(f) =>
      Call(reply, [ErrorToast(OrElse(ResponseMessage(f), Str("Failed to send OTP. Please try again.")))])
  }

  /** `verifyOtp(data)` given what `verifyTherapistOtp(data)` produced. */
  function VerifyOtpEffects(reply: Outcome<Json>): (c: Call)
    ensures c.outcome == reply
    ensures reply.Resolved? ==> c.toasts == [SuccessToast(Str("OTP verified successfully!"))]
    ensures reply.Threw? ==>
      c.toasts == [ErrorToast(OrElse(ResponseMessage(reply.error),
                                     Str("Invalid OTP. Please try again.")))]
  {
    match reply
    case Resolved(_) => Call(reply, [SuccessToast(Str("OTP verified successfully!"))])
    case Threw(f) =>
      Call(reply, [ErrorToast(OrElse(ResponseMessage(f), Str("Invalid OTP. Please try again.")))])
  }

  /** The three kinds of registration reply. */
  datatype Shape = Confirmed | Refused | Unexpected

  function ShapeOf(res: Json): (s: Shape)
    ensures s == Confirmed <==> IsTrue(Field(Some(res), "success"))
    ensures s == Refused <==> Field(Some(res), "success") == Some(Bool(false))
  {
    var success := Field(Some(res), "success");
    if IsTrue(success) then Confirmed
    else if success == Some(Bool(false)) then Refused
    else Unexpected
  }

  /** `res.message || "Something happened."` */
  function ReplyMessage(res: Json): (msg: Json)
    ensures Truthy(Some(msg))
    ensures Truthy(Field(Some(res), "message")) ==> Some(msg) == Field(Some(res), "message")
    ensures !Truthy(Field(Some(res), "message")) ==> msg == Str("Something happened.")
  {
    OrElse(Field(Some(res), "message"), Str("Something happened."))
  }

  /** The catch block's text: the response message, else `error.message`, else
      a fixed one. */
  function CaughtMessage(f: Failure): (msg: Json)
    ensures Truthy(Some(msg))
    ensures Truthy(ResponseMessage(f)) ==> Some(msg) == ResponseMessage(f)
    ensures !Truthy(ResponseMessage(f)) && Truthy(Some(f.message)) ==> msg == f.message
    ensures !Truthy(ResponseMessage(f)) && !Truthy(Some(f.message)) ==>
      msg == Str("Something went wrong.")
  {
    OrElse(ResponseMessage(f), OrElse(Some(f.message), Str("Something went wrong.")))
  }

  /** `register(data)` given what `registerTherapist(data)` produced. A reply
      that is not a confirmation becomes `new Error(msg)`, which the catch block
      reports a second time before rethrowing. */
  function RegisterEffects(reply: Outcome<Json>): (c: Call)
    // only a literal `success: true` resolves
    ensures c.outcome.Resolved? <==> reply.Resolved? && ShapeOf(reply.value) == Confirmed
    ensures c.outcome.Resolved? ==>
      c.outcome == reply && c.toasts == [SuccessToast(ReplyMessage(reply.value))]
    // a refusal and an unexpected shape are handled alike
    ensures reply.Resolved? && ShapeOf(reply.value) != Confirmed ==>
      var msg := ReplyMessage(reply.value);
      c.outcome == Threw(Failure(None, msg)) && c.toasts == [ErrorToast(msg), ErrorToast(msg)]
    ensures reply.Threw? ==>
      c.outcome == reply && c.toasts == [ErrorToast(CaughtMessage(reply.error))]
    ensures forall i :: 0 <= i < |c.toasts| ==> Truthy(Some(c.toasts[i].text))
  {
    match reply
    case Threw(f) => Call(reply, [ErrorToast(CaughtMessage(f))])
    case Resolved(res) =>
      var msg := ReplyMessage(res);
      if ShapeOf(res) == Confirmed then Call(reply, [SuccessToast(msg)])
      else
        var thrown := Failure(None, msg);
        Call(Threw(thrown), [ErrorToast(msg), ErrorToast(CaughtMessage(thrown))])
  }

  /** The hook's state: the `loading` flag shared by its three calls. */
  class TherapistApi {
    var loading: bool

    constructor ()
      ensures !loading
    {
      loading := false;
    }

    method SendOtp(reply: Outcome<Json>) returns (c: Call)
      modifies this
      ensures c == SendOtpEffects(reply) && !loading
    {
      loading := true;
      c := SendOtpEffects(reply);
      loading := false;
    }

    method VerifyOtp(reply: Outcome<Json>) returns (c: Call)
      modifies this
      ensures c == VerifyOtpEffects(reply) && !loading
    {
      loading := true;
      c := VerifyOtpEffects(reply);
      loading := false;
    }

    method Register(reply: Outcome<Json>) returns (c: Call)
      modifies this
      ensures c == RegisterEffects(reply) && !loading
    {
      loading := true;
      c := RegisterEffects(reply);
      loading := false;
    }
  }
}
