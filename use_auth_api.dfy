/** The `useAuthApi` hook: each handler brackets one service call between
    `startLoading` and `resetLoading` and normalises the reply into a
    `{ success, message }` or `{ success, data }` result. The pure functions
    give what each handler returns, the toasts it shows and the `setError`
    it dispatches; the methods run them against the `auth` store. */
module UseAuthApi {
  import opened JsValues
  import opened BrowserStorage
  import AuthSlice

  /** The object a handler returns; absent members are `None`. */
  datatype HookResult = HookResult(success: bool, message: Option<Json>, data: Option<Json>)

  /** The same result as the JavaScript object the caller receives. */
  function ToJson(r: HookResult): (j: Json)
    ensures j.Obj? && "success" in j.members && j.members["success"] == Bool(r.success)
    ensures Field(Some(j), "message") == r.message
    ensures Field(Some(j), "data") == r.data
  {
    var m := map["success" := Bool(r.success)];
    var m := if r.message.Some? then m["message" := r.message.value] else m;
    var m := if r.data.Some? then m["data" := r.data.value] else m;
    Obj(m)
  }

  /** A handler's effects besides the store's loading flag: its result, the
      toasts it shows in order, and the payload of the `setError` it
      dispatches (`None` when it dispatches none). */
  datatype Handled = Handled(result: HookResult, toasts: seq<Toast>, setError: Option<Json>)

  /** The toast that reports a `{ success, message }` result. */
  function Report(success: bool, message: Json): Toast {
    if success then SuccessToast(message) else ErrorToast(message)
  }

  /** `handleSendOtp(email)` given what `sendOtp(email)` produced. */
  function SendOtp(reply: Outcome<Json>): (h: Handled)
    // success only for a literal `true`
    ensures h.result.success <==> reply.Resolved? && IsTrue(Field(Some(reply.value), "success"))
    // a reply's message, or the fixed text when it is missing or empty
    ensures reply.Resolved? ==>
      var message := OrElse(Field(Some(reply.value), "message"), Str("Failed to send OTP"));
      h == Handled(HookResult(h.result.success, Some(message), None),
                   [Report(h.result.success, message)], None)
    // a throw shows one text and returns another
    ensures reply.Threw? ==>
      h == Handled(HookResult(false, Some(Str("Network error")), None),
                   [ErrorToast(Str("Failed to send OTP"))], Some(Str("Network error")))
    ensures Truthy(h.result.message) && h.result.data == None
  {
    match reply
    case Resolved(data) =>
      var success := IsTrue(Field(Some(data), "success"));
      var message := OrElse(Field(Some(data), "message"), Str("Failed to send OTP"));
      Handled(HookResult(success, Some(message), None), [Report(success, message)], None)
    case Threw(_) =>
      Handled(HookResult(false, Some(Str("Network error")), None),
              [ErrorToast(Str("Failed to send OTP"))], Some(Str("Network error")))
  }

  /** `verifyOtp({ emailOrMobile, otp })` given what the service produced. */
  function VerifyOtp(reply: Outcome<Json>): (h: Handled)
    ensures h.result.success <==> reply.Resolved? && IsTrue(Field(Some(reply.value), "success"))
    ensures reply.Resolved? ==>
      var message := OrElse(Field(Some(reply.value), "message"), Str("OTP verification failed"));
      h == Handled(HookResult(h.result.success, Some(message), None),
                   [Report(h.result.success, message)], None)
    ensures reply.Threw? ==>
      var message := OrElse(ResponseMessage(reply.error), Str("Failed to verify OTP"));
      h == Handled(HookResult(false, Some(message), None), [ErrorToast(message)], Some(message))
    // a refused OTP is reported in the result, never thrown
    ensures Truthy(h.result.message) && h.result.data == None
  {
    match reply
    case Resolved(data) =>
      var success := IsTrue(Field(Some(data), "success"));
      var message := OrElse(Field(Some(data), "message"), Str("OTP verification failed"));
      Handled(HookResult(success, Some(message), None), [Report(success, message)], None)
    case Threw(f) =>
      var message := OrElse(ResponseMessage(f), Str("Failed to verify OTP"));
      Handled(HookResult(false, Some(message), None), [ErrorToast(message)], Some(message))
  }

  /** The axios response `registerUser` returns: statuses below 500 resolve. */
  datatype HttpResponse = HttpResponse(status: int, data: Json)

  /** `handleRegister(payload)` given what `registerUser(payload)` produced. */
  function Register(reply: Outcome<HttpResponse>): (h: Handled)
    // a 4xx status is a failure even though the request resolved
    ensures h.result.success <==> reply.Resolved? && reply.value.status < 400
    ensures h.result.success ==>
      h == Handled(HookResult(true, None, Some(reply.value.data)),
                   [SuccessToast(Str("User registered successfully"))], None)
    ensures reply.Resolved? && reply.value.status >= 400 ==>
      var message := OrElse(Field(Some(reply.value.data), "message"),
                             Str("Registration failed. Please try again."));
      h == Handled(HookResult(false, Some(message), None), [ErrorToast(message)], Some(message))
    ensures reply.Threw? ==>
      var message := OrElse(ResponseMessage(reply.error), Str("Network error during registration"));
      h == Handled(HookResult(false, Some(message), None), [ErrorToast(message)], Some(message))
    // unlike the other handlers, every failure is recorded in the store
    ensures !h.result.success <==> h.setError.Some?
    ensures !h.result.success ==> h.result.message == h.setError && Truthy(h.setError)
  {
    match reply
    case Resolved(response) =>
      if response.status >= 400 then
        var message := OrElse(Field(Some(response.data), "message"),
                               Str("Registration failed. Please try again."));
        Handled(HookResult(false, Some(message), None), [ErrorToast(message)], Some(message))
      else
        Handled(HookResult(true, None, Some(response.data)),
                [SuccessToast(Str("User registered successfully"))], None)
    case Threw(f) =>
      var message := OrElse(ResponseMessage(f), Str("Network error during registration"));
      Handled(HookResult(false, Some(message), None), [ErrorToast(message)], Some(message))
  }

  /** `handleLogin`'s effects: the base ones, the session it passes to
      `authSuccess` (if any) and where it navigates. */
  datatype LoginHandled = LoginHandled(base: Handled, session: Option<SavedAuth>,
                                       navigateTo: Option<string>)

  const LoginFailed := "Invalid email or password."

  /** `handleLogin(email, password)` given what `loginUser` produced and what
      `getMyProfile(token)` would produce; the profile is fetched only once
      the login reply carries a token. */
  function Login(login: Outcome<Json>, profile: Outcome<Json>): (h: LoginHandled)
    // a session is stored exactly when there is a token and the profile arrived
    ensures h.session.Some? <==>
      login.Resolved? && Truthy(Field(Some(login.value), "token")) && profile.Resolved?
    ensures h.session.Some? ==>
      h.session.value == SavedAuth(Field(Some(login.value), "token"),
                                   Field(Some(login.value), "role"), Some(profile.value))
    ensures h.base.result.success <==> h.session.Some?
    ensures h.navigateTo == (if h.session.Some? then Some("/dashboard") else None)
    ensures h.session.Some? ==>
      h.base == Handled(HookResult(true, None, Some(profile.value)),
                        [SuccessToast(Str("Login successful!"))], None)
    // a reply without a token: no session and no error in the store
    ensures login.Resolved? && !Truthy(Field(Some(login.value), "token")) ==>
      h.base == Handled(HookResult(false, None, None), [ErrorToast(Str("Invalid credentials"))], None)
    ensures login.Threw? ==>
      var message := OrElse(ResponseMessage(login.error), Str(LoginFailed));
      h.base == Handled(HookResult(false, None, None), [ErrorToast(message)], Some(message))
    // the profile fetch failing comes after the success toast
    ensures login.Resolved? && Truthy(Field(Some(login.value), "token")) && profile.Threw? ==>
      var message := OrElse(ResponseMessage(profile.error), Str(LoginFailed));
      h.base == Handled(HookResult(false, None, None),
                        [SuccessToast(Str("Login successful!")), ErrorToast(message)], Some(message))
    ensures h.base.result.message == None
  {
    match login
    case Threw(f) =>
      var message := OrElse(ResponseMessage(f), Str(LoginFailed));
      LoginHandled(Handled(HookResult(false, None, None), [ErrorToast(message)], Some(message)),
                   None, None)
    case Resolved(res) =>
      var token := Field(Some(res), "token");
      if !Truthy(token) then
        LoginHandled(Handled(HookResult(false, None, None),
                             [ErrorToast(Str("Invalid credentials"))], None), None, None)
      else
        match profile
        case Threw(f) =>
          var message := OrElse(ResponseMessage(f), Str(LoginFailed));
          LoginHandled(Handled(HookResult(false, None, None),
                               [SuccessToast(Str("Login successful!")), ErrorToast(message)],
                               Some(message)), None, None)
        case Resolved(user) =>
          LoginHandled(Handled(HookResult(true, None, Some(user)),
                               [SuccessToast(Str("Login successful!"))], None),
                       Some(SavedAuth(token, Field(Some(res), "role"), Some(user))),
                       Some("/dashboard"))
  }

  /** `error` after a handler: the dispatched payload, or the old value. */
  function ErrorAfter(before: Option<Json>, dispatched: Option<Json>): Option<Json> {
    if dispatched.Some? then dispatched else before
  }

  /** Runs a handler's store steps: `startLoading`, its `setError` if any,
      then `resetLoading` from the `finally` block. */
  method Dispatch(store: AuthSlice.AuthStore, h: Handled)
    modifies store
    ensures store.State() == old(store.State()).(loading := false,
                                                  error := ErrorAfter(old(store.error), h.setError))
    ensures old(store.Mirrored()) ==> store.Mirrored()
  {
    store.StartLoading();
    if h.setError.Some? {
      store.SetError(h.setError);
    }
    store.ResetLoading();
  }

  /** `handleSendOtp` against the store: loading ends false, the session is untouched. */
  method HandleSendOtp(store: AuthSlice.AuthStore, reply: Outcome<Json>) returns (h: Handled)
    modifies store
    ensures h == SendOtp(reply)
    ensures store.State() == old(store.State()).(loading := false,
                                                  error := ErrorAfter(old(store.error), h.setError))
    ensures old(store.Mirrored()) ==> store.Mirrored()
  {
    h := SendOtp(reply);
    Dispatch(store, h);
  }

  method HandleVerifyOtp(store: AuthSlice.AuthStore, reply: Outcome<Json>) returns (h: Handled)
    modifies store
    ensures h == VerifyOtp(reply)
    ensures store.State() == old(store.State()).(loading := false,
                                                  error := ErrorAfter(old(store.error), h.setError))
    ensures old(store.Mirrored()) ==> store.Mirrored()
  {
    h := VerifyOtp(reply);
    Dispatch(store, h);
  }

  method HandleRegister(store: AuthSlice.AuthStore, reply: Outcome<HttpResponse>)
    returns (h: Handled)
    modifies store
    ensures h == Register(reply)
    ensures store.State() == old(store.State()).(loading := false,
                                                  error := ErrorAfter(old(store.error), h.setError))
    ensures old(store.Mirrored()) ==> store.Mirrored()
  {
    h := Register(reply);
    Dispatch(store, h);
  }

  /** `handleLogin` against the store: on success the session becomes the
      stored triple (so a reload rehydrates it); otherwise it is untouched. */
  method HandleLogin(store: AuthSlice.AuthStore, login: Outcome<Json>, profile: Outcome<Json>)
    returns (h: LoginHandled)
    modifies store, store.storage`auth
    ensures h == Login(login, profile)
    ensures h.session.Some? ==>
      var s := h.session.value;
      store.State() == old(store.State()).(token := s.token, role := s.role, user := s.user,
                                            loading := false)
      && store.storage.auth == Some(s)
    ensures h.session.None? ==>
      store.State() == old(store.State()).(loading := false,
                                            error := ErrorAfter(old(store.error), h.base.setError))
      && store.storage.auth == old(store.storage.auth)
    ensures h.session.Some? || old(store.Mirrored()) ==> store.Mirrored()
  {
    h := Login(login, profile);
    store.StartLoading();
    if h.session.Some? {
      store.AuthSuccess(h.session.value);
    } else if h.base.setError.Some? {
      store.SetError(h.base.setError);
    }
    store.ResetLoading();
  }

  /** After a successful login a reload restores the same session. */
  lemma LoginSurvivesReload(login: Outcome<Json>, profile: Outcome<Json>)
    requires Login(login, profile).session.Some?
    ensures var s := Login(login, profile).session.value;
      var r := AuthSlice.Rehydrate(Some(s));
      r.token == Field(Some(login.value), "token") && r.role == Field(Some(login.value), "role")
      && r.user == Some(profile.value)
  {
  }
}
