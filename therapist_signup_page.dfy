/** The `TherapistSignupPage`: one contact field (email or mobile number), a
    send step and a verify step, then navigation to the registration page. */
module TherapistSignupPage {
  import opened JsValues
  import UseTherapistApi
  import OtpInput

  datatype Step = SendOtpStep | VerifyOtpStep

  /** The body of the send-OTP request: the raw input as `email` when it
      contains '@', otherwise as `mobile` with the country code prepended. */
  function ContactPayload(input: string): (j: Json)
    ensures j.Obj? && |j.members| == 1
    ensures "email" in j.members <==> IsEmail(input)
    ensures "email" in j.members ==> j.members["email"] == Str(input)
    ensures "mobile" in j.members <==> !IsEmail(input)
    ensures "mobile" in j.members ==> j.members["mobile"] == Str("+91" + input)
  {
    if IsEmail(input) then Obj(map["email" := Str(input)])
    else Obj(map["mobile" := Str("+91" + input)])
  }

  const EmptyContact := "Please enter your email or mobile number."

  /** `navigate(to, { state: { emailOrMobile } })` */
  datatype Navigation = Navigation(to: string, emailOrMobile: string)

  datatype Screen = ContactFormScreen | OtpInputScreen(contact: string)

  class TherapistSignupPage {
    var step: Step
    var inputValue: string

    constructor ()
      ensures step == SendOtpStep && inputValue == ""
    {
      step, inputValue := SendOtpStep, "";
    }

    /** Typing into the contact field. */
    method SetInput(value: string)
      modifies this
      ensures inputValue == value && step == old(step)
    {
      inputValue := value;
    }

    function View(): (v: Screen)
      reads this
      ensures v.ContactFormScreen? <==> step == SendOtpStep
      ensures v.OtpInputScreen? ==> v.contact == inputValue
    {
      if step == SendOtpStep then ContactFormScreen else OtpInputScreen(inputValue)
    }

    /** `handleSendOtp`, with `reply` what the send request produces. An empty
        field stops before the hook; otherwise the step advances exactly when
        `sendOtp` resolves. Returns the request body and the toasts. */
    method HandleSendOtp(api: UseTherapistApi.TherapistApi, reply: Outcome<Json>)
      returns (payload: Option<Json>, toasts: seq<Toast>)
      modifies this, api
      ensures inputValue == old(inputValue)
      ensures old(inputValue) == "" ==>
        payload == None && toasts == [ErrorToast(Str(EmptyContact))]
        && step == old(step) && api.loading == old(api.loading)
      ensures old(inputValue) != "" ==>
        payload == Some(ContactPayload(inputValue))
        && toasts == UseTherapistApi.SendOtpEffects(reply).toasts && !api.loading
        && step == (if reply.Resolved? then VerifyOtpStep else old(step))
    {
      if inputValue == "" {
        return None, [ErrorToast(Str(EmptyContact))];
      }
      payload := Some(ContactPayload(inputValue));
      var c := api.SendOtp(reply);
      toasts := c.toasts;
      if c.outcome.Resolved? {
        step := VerifyOtpStep;
      }
    }

    /** `handleOtpVerified`: the raw input, without the country code, goes on. */
    function HandleOtpVerified(): (nav: Navigation)
      reads this
      ensures nav.to == "/therapist/register" && nav.emailOrMobile == inputValue
    {
      Navigation("/therapist/register", inputValue)
    }

    /** Submitting the `OTPInput` shown on the verify step, whose `formData` is
        `{ emailOrMobile: inputValue }` and whose `apiFn` is the hook's
        `verifyOtp` (which rethrows). The component runs as written: any
        resolved reply counts as verified, so a refusal that arrives as a
        resolved `{ success: false }` still toasts success and navigates.
        Returns the request passed to the verify call (if any), the
        navigation (if any) and the hook's toasts. */
    method SubmitOtp(form: OtpInput.OtpInput, api: UseTherapistApi.TherapistApi, otp: string,
                     reply: Outcome<Json>)
      returns (request: Option<Json>, nav: Option<Navigation>, toasts: seq<Toast>)
      requires form.emailOrMobile == inputValue
      modifies form, api
      // the verify call carries the raw input, without the country code
      ensures request.Some? <==> OtpInput.RuleAccepts(otp) && inputValue != ""
      ensures request.Some? ==> request.value == OtpInput.Request(inputValue, otp)
      ensures nav.Some? <==> OtpInput.RuleAccepts(otp) && inputValue != "" && reply.Resolved?
      ensures nav.Some? ==> nav.value == HandleOtpVerified()
      ensures toasts == if OtpInput.RuleAccepts(otp) && inputValue != ""
                        then UseTherapistApi.VerifyOtpEffects(reply).toasts else []
      // a verified code toasts success; a thrown one leaves a message in the form
      ensures nav.Some? ==> toasts == [SuccessToast(Str("OTP verified successfully!"))]
      ensures form.error == if OtpInput.RuleAccepts(otp)
                            then OtpInput.SubmitEffectsAsWritten(inputValue, otp, reply).error
                            else old(form.error)
      ensures api.loading == (old(api.loading) && !(OtpInput.RuleAccepts(otp) && inputValue != ""))
      ensures step == old(step) && inputValue == old(inputValue)
    {
      var outcome := reply;
      toasts := [];
      if OtpInput.RuleAccepts(otp) && inputValue != "" {
        var c := api.VerifyOtp(reply);
        outcome, toasts := c.outcome, c.toasts;
      }
      var verified;
      request, verified := form.HandleSubmit(OtpInput.AsWritten, otp, outcome);
      nav := if verified then Some(HandleOtpVerified()) else None;
    }
  }

  /** The OTP is sent to a different string from the one carried on: for a
      mobile number, the request has the country code and the later steps
      do not. */
  lemma PrefixOnlyOnSend(input: string)
    requires !IsEmail(input)
    ensures ContactPayload(input).members["mobile"] != Str(input)
  {
    assert |"+91" + input| == |input| + 3;
  }
}
