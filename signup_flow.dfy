/** The user sign-up flow as a whole: the events the three step components
    deliver to `SignupPage`, each with the reply its request gets, and what
    the page state becomes. Only the component on screen receives events. */
module SignupFlow {
  import opened JsValues
  import UseAuthApi
  import OtpInput
  import SignUpForm
  import opened SignupPage

  datatype Event =
    /** SignUpForm submitted, with what `sendOtp` produced */
    | SubmitEmail(email: string, sendReply: Outcome<Json>)
    /** OTPInput submitted, with what the verify request produced */
    | SubmitOtp(otp: string, verifyReply: Outcome<Json>)
    /** RegisterForm submitted: the page state does not change */
    | SubmitProfile

  /** What the user flow's `apiFn`, `useAuthApi().verifyOtp`, produces: it
      catches every error, so it always resolves to its result object. */
  function UserApiOutcome(reply: Outcome<Json>): (o: Outcome<Json>)
    ensures o.Resolved?
    ensures o.value == UseAuthApi.ToJson(UseAuthApi.VerifyOtp(reply).result)
  {
    Resolved(UseAuthApi.ToJson(UseAuthApi.VerifyOtp(reply).result))
  }

  /** With the component's rule as written, any reply to the verify request
      moves the page on, including a refusal. */
  lemma RefusedOtpAdvancesAsWritten()
    ensures var refusal := Resolved(Obj(map["success" := Bool(false), "message" := Str("Invalid OTP")]));
      !UseAuthApi.VerifyOtp(refusal).result.success
      && OtpInput.SubmitEffectsAsWritten("user@example.com", "123456", UserApiOutcome(refusal)).verified
  {
    var refusal := Resolved(Obj(map["success" := Bool(false), "message" := Str("Invalid OTP")]));
    assert Field(Some(refusal.value), "success") == Some(Bool(false));
  }

  /** With the corrected rule, the user flow moves on exactly when the backend
      confirmed the code with `success: true`. */
  lemma UserOtpVerifiedIff(emailOrMobile: string, otp: string, reply: Outcome<Json>)
    ensures OtpInput.SubmitEffects(emailOrMobile, otp, UserApiOutcome(reply)).verified <==>
      emailOrMobile != "" && otp != "" && reply.Resolved? && IsTrue(Field(Some(reply.value), "success"))
  {
    var r := UseAuthApi.VerifyOtp(reply).result;
    assert Field(Some(UseAuthApi.ToJson(r)), "success") == Some(Bool(r.success));
  }

  /** The page state after one event, with the OTP component following
      `rule`. */
  function Next(rule: OtpInput.Rule, s: PageState, e: Event): (r: PageState)
    // one event moves at most one step forward, never back
    ensures r == s || Rank(r.step) == Rank(s.step) + 1
    // the contact changes only to an email submitted on the first step
    ensures r.emailOrMobile == s.emailOrMobile
         || (s.step == SendOtpStep && e.SubmitEmail? && r.emailOrMobile == e.email)
  {
    match e
    case SubmitEmail(email, sendReply) =>
      if s.step == SendOtpStep && SignUpForm.OtpSentWith(email, sendReply).Some?
      then AfterOtpSent(email) else s
    case SubmitOtp(otp, verifyReply) =>
      if s.step == VerifyOtpStep && OtpInput.RuleAccepts(otp)
         && OtpInput.SubmitUnder(rule, s.emailOrMobile, otp, UserApiOutcome(verifyReply)).verified
      then AfterOtpVerified(s) else s
    case SubmitProfile => s
  }

  /** The page state after a sequence of events: steps only move forward. */
  function Run(rule: OtpInput.Rule, s: PageState, es: seq<Event>): (r: PageState)
    ensures Rank(s.step) <= Rank(r.step)
    decreases |es|
  {
    if es == [] then s else Run(rule, Next(rule, s, es[0]), es[1..])
  }

  /** The emails submitted on the first step. */
  function Emails(es: seq<Event>): set<string>
    decreases |es|
  {
    if es == [] then {}
    else (if es[0].SubmitEmail? then {es[0].email} else {}) + Emails(es[1..])
  }

  /** With the corrected rule, the register step is reached only from the
      OTP step, by a valid code for a non-empty contact that the backend
      confirmed. */
  lemma RegisterNeedsConfirmedOtp(s: PageState, e: Event)
    requires s.step != RegisterStep && Next(OtpInput.Corrected, s, e).step == RegisterStep
    ensures s.step == VerifyOtpStep && s.emailOrMobile != "" && e.SubmitOtp?
    ensures OtpInput.RuleAccepts(e.otp)
    ensures e.verifyReply.Resolved? && IsTrue(Field(Some(e.verifyReply.value), "success"))
  {
    UserOtpVerifiedIff(s.emailOrMobile, e.otp, e.verifyReply);
  }

  /** With the rule as written, a valid code for a non-empty contact moves the
      OTP step on to the register step whatever the backend replied. */
  lemma OtpStepAdvancesAsWritten(s: PageState, otp: string, reply: Outcome<Json>)
    requires s.step == VerifyOtpStep
    ensures Next(OtpInput.AsWritten, s, SubmitOtp(otp, reply)).step == RegisterStep <==>
      s.emailOrMobile != "" && OtpInput.RuleAccepts(otp)
  {
  }

  /** Once the OTP has been sent the contact never changes. */
  lemma {:induction false} RunKeepsContact(rule: OtpInput.Rule, s: PageState, es: seq<Event>)
    requires s.step != SendOtpStep
    ensures Run(rule, s, es).emailOrMobile == s.emailOrMobile
    ensures Run(rule, s, es).step != SendOtpStep
    decreases |es|
  {
    if es != [] {
      RunKeepsContact(rule, Next(rule, s, es[0]), es[1..]);
    }
  }

  /** The contact the later steps use is one the user submitted. */
  lemma {:induction false} ContactWasSubmitted(rule: OtpInput.Rule, s: PageState, es: seq<Event>)
    ensures Run(rule, s, es).emailOrMobile == s.emailOrMobile
         || Run(rule, s, es).emailOrMobile in Emails(es)
    decreases |es|
  {
    if es != [] {
      ContactWasSubmitted(rule, Next(rule, s, es[0]), es[1..]);
    }
  }

  /** Under either rule, two confirmed replies take a fresh page to the
      register form, which is given the submitted email. */
  lemma HappyPath(rule: OtpInput.Rule, email: string, otp: string, sent: Json, verified: Json)
    requires email != "" && |otp| == 6
    requires IsTrue(Field(Some(sent), "success")) && IsTrue(Field(Some(verified), "success"))
    ensures Run(rule, Initial, [SubmitEmail(email, Resolved(sent)), SubmitOtp(otp, Resolved(verified))])
         == PageState(RegisterStep, email)
    ensures ViewOf(Run(rule, Initial, [SubmitEmail(email, Resolved(sent)), SubmitOtp(otp, Resolved(verified))]))
         == RegisterFormScreen(email)
  {
    var es := [SubmitEmail(email, Resolved(sent)), SubmitOtp(otp, Resolved(verified))];
    var s1 := Next(rule, Initial, es[0]);
    assert s1 == PageState(VerifyOtpStep, email);
    UserOtpVerifiedIff(email, otp, Resolved(verified));
    var s2 := Next(rule, s1, es[1]);
    assert s2 == PageState(RegisterStep, email);
    assert es[1..] == [es[1]] && es[1..][1..] == [];
    calc {
      Run(rule, Initial, es);
      Run(rule, s1, es[1..]);
      Run(rule, s2, es[1..][1..]);
      s2;
    }
  }
}
