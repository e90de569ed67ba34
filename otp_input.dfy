/** The `OTPInput` component shared by both sign-up flows: two guards, then
    `apiFn({ emailOrMobile, otp })`, with a local `error` text.

    As written, the component takes the `apiFn` promise resolving as success.
    `SubmitEffectsAsWritten` models that rule. `SubmitEffects` also refuses a
    resolved value whose `success` is `false`, which is how the user flow's
    `apiFn` reports a wrong code. The class and the flows take the `Rule` as
    a parameter, so each can be run either way. */
module OtpInput {
  import opened JsValues

  /** The object passed to `apiFn`. */
  function Request(emailOrMobile: string, otp: string): Json {
    Obj(map["emailOrMobile" := Str(emailOrMobile), "otp" := Str(otp)])
  }

  /** react-hook-form's rule on the field: `required`, `minLength: 6` and
      `maxLength: 6`. `handleSubmit` calls `onSubmit` only when it holds. */
  predicate RuleAccepts(otp: string) {
    otp != "" && 6 <= |otp| <= 6
  }

  /** A resolved value that says the code was refused. */
  predicate Refused(v: Json) {
    Field(Some(v), "success") == Some(Bool(false))
  }

  /** One submission: the request passed to `apiFn` (if it was called),
      whether `onOtpVerified` was called, and the `error` text afterwards. */
  datatype Effects = Effects(request: Option<Json>, verified: bool, error: Json)

  /** `onSubmit` exactly as the component has it. */
  function SubmitEffectsAsWritten(emailOrMobile: string, otp: string, outcome: Outcome<Json>)
    : (e: Effects)
    ensures e.request.Some? <==> otp != "" && emailOrMobile != ""
    ensures e.request.Some? ==> e.request == Some(Request(emailOrMobile, otp))
    // only a throw counts as a failure
    ensures e.verified <==> e.request.Some? && outcome.Resolved?
    ensures e.verified ==> e.error == Str("")
    ensures !e.verified ==> Truthy(Some(e.error))
    // the text of each failure
    ensures otp == "" ==> e.error == Str("Please enter OTP.")
    ensures otp != "" && emailOrMobile == "" ==>
      e.error == Str("Missing contact information for verification.")
    ensures e.request.Some? && outcome.Threw? ==>
      e.error == OrElse(ResponseMessage(outcome.error), Str("Invalid OTP."))
  {
    if otp == "" then Effects(None, false, Str("Please enter OTP."))
    else if emailOrMobile == "" then
      Effects(None, false, Str("Missing contact information for verification."))
    else match outcome
      case Resolved(_) => Effects(Some(Request(emailOrMobile, otp)), true, Str(""))
      case Threw(f) =>
        Effects(Some(Request(emailOrMobile, otp)), false, OrElse(ResponseMessage(f), Str("Invalid OTP.")))
  }

  /** `onSubmit` with the refused-value case added: a resolved value whose
      `success` is `false` is reported like a throw, with its own message. */
  function SubmitEffects(emailOrMobile: string, otp: string, outcome: Outcome<Json>): (e: Effects)
    ensures e.request.Some? <==> otp != "" && emailOrMobile != ""
    ensures e.request.Some? ==> e.request == Some(Request(emailOrMobile, otp))
    ensures e.verified <==> e.request.Some? && outcome.Resolved? && !Refused(outcome.value)
    ensures e.verified ==> e.error == Str("")
    // every way of not advancing leaves a non-empty message on screen
    ensures !e.verified ==> Truthy(Some(e.error))
    // the text of each failure; a refusal shows the reply's own message
    ensures otp == "" ==> e.error == Str("Please enter OTP.")
    ensures otp != "" && emailOrMobile == "" ==>
      e.error == Str("Missing contact information for verification.")
    ensures e.request.Some? && outcome.Threw? ==>
      e.error == OrElse(ResponseMessage(outcome.error), Str("Invalid OTP."))
    ensures e.request.Some? && outcome.Resolved? && Refused(outcome.value) ==>
      e.error == OrElse(Field(Some(outcome.value), "message"), Str("Invalid OTP."))
    // the two rules differ only on a refused value
    ensures !(outcome.Resolved? && Refused(outcome.value)) ==>
      e == SubmitEffectsAsWritten(emailOrMobile, otp, outcome)
  {
    if otp != "" && emailOrMobile != "" && outcome.Resolved? && Refused(outcome.value) then
      Effects(Some(Request(emailOrMobile, otp)), false,
              OrElse(Field(Some(outcome.value), "message"), Str("Invalid OTP.")))
    else SubmitEffectsAsWritten(emailOrMobile, otp, outcome)
  }

  /** Which of the two submit rules a submission follows. */
  datatype Rule = AsWritten | Corrected

  /** The effects of one submission under `rule`. */
  function SubmitUnder(rule: Rule, emailOrMobile: string, otp: string, outcome: Outcome<Json>)
    : (e: Effects)
    ensures rule == AsWritten ==> e == SubmitEffectsAsWritten(emailOrMobile, otp, outcome)
    ensures rule == Corrected ==> e == SubmitEffects(emailOrMobile, otp, outcome)
  {
    match rule
    case AsWritten => SubmitEffectsAsWritten(emailOrMobile, otp, outcome)
    case Corrected => SubmitEffects(emailOrMobile, otp, outcome)
  }

  class OtpInput {
    /** `formData.emailOrMobile` from the page. */
    const emailOrMobile: string
    var error: Json

    constructor (emailOrMobile: string)
      ensures this.emailOrMobile == emailOrMobile && error == Str("")
    {
      this.emailOrMobile := emailOrMobile;
      error := Str("");
    }

    /** `onSubmit({ otp })` under `rule`, given what `apiFn` produces when
        called. Returns the request passed to `apiFn` and whether
        `onOtpVerified` is called. */
    method OnSubmit(rule: Rule, otp: string, outcome: Outcome<Json>)
      returns (request: Option<Json>, verified: bool)
      modifies this
      ensures request == SubmitUnder(rule, emailOrMobile, otp, outcome).request
      ensures verified == SubmitUnder(rule, emailOrMobile, otp, outcome).verified
      ensures error == SubmitUnder(rule, emailOrMobile, otp, outcome).error
    {
      if otp == "" {
        error := Str("Please enter OTP.");
        return None, false;
      }
      if emailOrMobile == "" {
        error := Str("Missing contact information for verification.");
        return None, false;
      }
      error := Str("");
      request := Some(Request(emailOrMobile, otp));
      match outcome
      case Resolved(v) =>
        if rule == Corrected && Refused(v) {
          error := OrElse(Field(Some(v), "message"), Str("Invalid OTP."));
          verified := false;
        } else {
          verified := true;
        }
      case Threw(f) =>
        error := OrElse(ResponseMessage(f), Str("Invalid OTP."));
        verified := false;
    }

    /** `handleSubmit(onSubmit)`: a code that breaks the field rule never
        reaches `onSubmit`, so it calls nothing and leaves `error` alone. */
    method HandleSubmit(rule: Rule, otp: string, outcome: Outcome<Json>)
      returns (request: Option<Json>, verified: bool)
      modifies this
      ensures !RuleAccepts(otp) ==> request == None && !verified && error == old(error)
      ensures RuleAccepts(otp) ==>
        var e := SubmitUnder(rule, emailOrMobile, otp, outcome);
        request == e.request && verified == e.verified && error == e.error
      ensures request.Some? <==> RuleAccepts(otp) && emailOrMobile != ""
    {
      if !RuleAccepts(otp) {
        return None, false;
      }
      request, verified := OnSubmit(rule, otp, outcome);
    }
  }
}
