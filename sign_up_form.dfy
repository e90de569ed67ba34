/** The `SignUpForm` component: the first step of the user flow. */
module SignUpForm {
  import opened JsValues
  import UseAuthApi
  import AuthSlice
  import SignupPage

  /** The email `onOtpSent` is called with, if it is called: only a non-empty
      email is sent, and only a successful send moves the page on. */
  function OtpSentWith(email: string, reply: Outcome<Json>): (r: Option<string>)
    ensures r.Some? <==> email != "" && UseAuthApi.SendOtp(reply).result.success
    ensures r.Some? ==> r.value == email
  {
    if email == "" then None
    else if UseAuthApi.SendOtp(reply).result.success then Some(email)
    else None
  }

  const EmptyEmailAlert := "Please enter an email"

  /** `onSubmit({ email })`, with `reply` what `sendOtp(email)` produces and
      `page` the parent's `onOtpSent` owner (`null` when no callback was
      given). Returns the alert shown and the email the hook was called with. */
  method OnSubmit(store: AuthSlice.AuthStore, page: SignupPage.SignupPage?, email: string,
                  reply: Outcome<Json>)
    returns (alert: Option<string>, sentTo: Option<string>)
    modifies store, page
    ensures alert == (if email == "" then Some(EmptyEmailAlert) else None)
    // an empty email short-circuits before the hook; otherwise the entered email is sent
    ensures sentTo == (if email == "" then None else Some(email))
    ensures email == "" ==> store.State() == old(store.State())
    ensures email != "" ==>
      store.State() == old(store.State()).(loading := false,
                                            error := UseAuthApi.ErrorAfter(old(store.error),
                                                       UseAuthApi.SendOtp(reply).setError))
    ensures old(store.Mirrored()) ==> store.Mirrored()
    ensures page != null ==>
      page.State() == if OtpSentWith(email, reply).Some? then SignupPage.AfterOtpSent(email)
                      else old(page.State())
  {
    if email == "" {
      return Some(EmptyEmailAlert), None;
    }
    alert, sentTo := None, Some(email);
    var h := UseAuthApi.HandleSendOtp(store, reply);
    if h.result.success {
      if page != null {
        page.HandleOtpSent(email);
      }
    }
  }
}
