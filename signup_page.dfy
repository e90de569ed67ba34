/** The user `SignupPage`: a `step` and the carried `formData.emailOrMobile`,
    rendering exactly one of the three step components. */
module SignupPage {

  datatype Step = SendOtpStep | VerifyOtpStep | RegisterStep

  /** The position of a step in the flow. */
  function Rank(s: Step): nat {
    match s
    case SendOtpStep => 0
    case VerifyOtpStep => 1
    case RegisterStep => 2
  }

  datatype PageState = PageState(step: Step, emailOrMobile: string)

  const Initial := PageState(SendOtpStep, "")

  /** The state `handleOtpSent(email)` sets: the contact and the OTP step. */
  function AfterOtpSent(email: string): PageState {
    PageState(VerifyOtpStep, email)
  }

  /** The state `handleOtpVerified` sets: the register step, same contact. */
  function AfterOtpVerified(s: PageState): PageState {
    s.(step := RegisterStep)
  }

  /** The component on screen and the prop it is given. */
  datatype Screen = SignupFormScreen | OtpInputScreen(contact: string) | RegisterFormScreen(email: string)

  function ViewOf(s: PageState): (v: Screen)
    ensures v.SignupFormScreen? <==> s.step == SendOtpStep
    ensures v.OtpInputScreen? <==> s.step == VerifyOtpStep
    ensures v.RegisterFormScreen? <==> s.step == RegisterStep
    // the later steps are handed the carried contact
    ensures v.OtpInputScreen? ==> v.contact == s.emailOrMobile
    ensures v.RegisterFormScreen? ==> v.email == s.emailOrMobile
  {
    match s.step
    case SendOtpStep => SignupFormScreen
    case VerifyOtpStep => OtpInputScreen(s.emailOrMobile)
    case RegisterStep => RegisterFormScreen(s.emailOrMobile)
  }

  class SignupPage {
    var step: Step
    var emailOrMobile: string

    function State(): PageState
      reads this
    {
      PageState(step, emailOrMobile)
    }

    constructor ()
      ensures State() == Initial
    {
      step, emailOrMobile := SendOtpStep, "";
    }

    /** `handleOtpSent(email)` */
    method HandleOtpSent(email: string)
      modifies this
      ensures State() == AfterOtpSent(email)
      ensures step == VerifyOtpStep && emailOrMobile == email
    {
      emailOrMobile := email;
      step := VerifyOtpStep;
    }

    /** `handleOtpVerified` */
    method HandleOtpVerified()
      modifies this
      ensures State() == AfterOtpVerified(old(State()))
      ensures step == RegisterStep && emailOrMobile == old(emailOrMobile)
      ensures Rank(step) >= Rank(old(step))
    {
      step := RegisterStep;
    }

    function View(): Screen
      reads this
    {
      ViewOf(State())
    }
  }
}
