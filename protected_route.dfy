/** The `ProtectedRoute` gate: token presence, decodability, expiry and role,
    checked in that order, with the expired and undecodable cases logging the
    session out. Decoding the token is a parameter (`decode`), since the JWT
    library is not part of this model. */
module ProtectedRoute {
  import opened JsValues
  import AuthSlice

  /** What decoding a token gave: a failure (the decoder threw, or gave
      nothing to read `exp` from), or the `exp` claim as `<` converts it to a
      number. A `null` claim converts to `Some(0)`; a missing or non-numeric
      one converts to `NaN`, written `None`. */
  datatype Claims = Undecodable | Claims(exp: Option<int>)

  datatype Denial = NotLoggedIn | SessionExpired | InvalidSession | NoPermission

  /** `Render` shows the children; every other outcome is a `<Navigate replace>`. */
  datatype Decision = Render | Redirect(to: string, reason: Denial)

  /** The login page a denied visitor is sent to. */
  function LoginPath(requiredRole: Option<string>): (path: string)
    ensures path == "/therapist/login" <==> requiredRole == Some("THERAPIST")
    ensures path == "/therapist/login" || path == "/login"
  {
    if requiredRole == Some("THERAPIST") then "/therapist/login" else "/login"
  }

  /** `exp < Date.now() / 1000`, exactly, with the clock in milliseconds:
      expired when `exp` is at most the last whole second that began strictly
      before now. `NaN` is never less. */
  predicate Expired(exp: Option<int>, nowMs: int)
    ensures Expired(exp, nowMs) <==> exp.Some? && exp.value <= (nowMs - 1) / 1000
    ensures exp.None? ==> !Expired(exp, nowMs)
  {
    exp.Some? && exp.value * 1000 < nowMs
  }

  /** `requiredRole && userRole !== requiredRole` */
  predicate WrongRole(role: Option<Json>, requiredRole: Option<string>)
    // a route that demands no role accepts every session
    ensures (requiredRole.None? || requiredRole == Some("")) ==> !WrongRole(role, requiredRole)
    // a demanded role is met only by that exact string
    ensures WrongRole(role, requiredRole) <==>
      requiredRole.Some? && requiredRole.value != "" && !(role.Some? && role.value == Str(requiredRole.value))
  {
    requiredRole.Some? && requiredRole.value != "" && role != Some(Str(requiredRole.value))
  }

  /** The toast shown with each denial. */
  function Notice(reason: Denial): string {
    match reason
    case NotLoggedIn => "You must be logged in to view this page."
    case SessionExpired => "Your session has expired. Please log in again."
    case InvalidSession => "Invalid session. Please log in again."
    case NoPermission => "You do not have permission to access this page."
  }

  /** The guard's decision for the session's token and role. */
  function Decide(token: Option<Json>, role: Option<Json>, requiredRole: Option<string>,
                  decode: Json -> Claims, nowMs: int): (d: Decision)
    // every denial goes to the same login page
    ensures d.Redirect? ==> d.to == LoginPath(requiredRole)
    // one reason per check, in the order of the checks
    ensures d == Redirect(LoginPath(requiredRole), NotLoggedIn) <==> !Truthy(token)
    ensures d == Redirect(LoginPath(requiredRole), InvalidSession) <==>
      Truthy(token) && decode(token.value).Undecodable?
    ensures d == Redirect(LoginPath(requiredRole), SessionExpired) <==>
      Truthy(token) && decode(token.value).Claims? && Expired(decode(token.value).exp, nowMs)
    ensures d == Redirect(LoginPath(requiredRole), NoPermission) <==>
      Truthy(token) && decode(token.value).Claims? && !Expired(decode(token.value).exp, nowMs)
      && WrongRole(role, requiredRole)
    // the children render exactly when every check passes
    ensures d == Render <==>
      Truthy(token) && decode(token.value).Claims? && !Expired(decode(token.value).exp, nowMs)
      && !WrongRole(role, requiredRole)
  {
    var loginPath := LoginPath(requiredRole);
    if !Truthy(token) then Redirect(loginPath, NotLoggedIn)
    else match decode(token.value)
      case Undecodable => Redirect(loginPath, InvalidSession)
      case Claims(exp) =>
        if Expired(exp, nowMs) then Redirect(loginPath, SessionExpired)
        else if WrongRole(role, requiredRole) then Redirect(loginPath, NoPermission)
        else Render
  }

  /** The decisions that dispatch `logout` before redirecting. */
  predicate LogsOut(d: Decision) {
    d.Redirect? && (d.reason == SessionExpired || d.reason == InvalidSession)
  }

  /** Without a token the decoder is never consulted: any two decoders give
      the same decision. */
  lemma NoTokenNeedsNoDecode(token: Option<Json>, role: Option<Json>, requiredRole: Option<string>,
                             decode1: Json -> Claims, decode2: Json -> Claims, nowMs: int)
    requires !Truthy(token)
    ensures Decide(token, role, requiredRole, decode1, nowMs)
         == Decide(token, role, requiredRole, decode2, nowMs)
  {
  }

  /** Expiry is strict: a token whose `exp` is the current second, to the
      millisecond, still passes the expiry check. */
  lemma ExpiryIsStrict(token: Json, role: Option<Json>, requiredRole: Option<string>,
                       decode: Json -> Claims, exp: int)
    requires Truthy(Some(token)) && decode(token) == Claims(Some(exp))
    ensures Decide(Some(token), role, requiredRole, decode, exp * 1000).Redirect?
        ==> Decide(Some(token), role, requiredRole, decode, exp * 1000).reason == NoPermission
    ensures Decide(Some(token), role, requiredRole, decode, exp * 1000 + 1)
         == Redirect(LoginPath(requiredRole), SessionExpired)
  {
  }

  /** A `null` expiry converts to 0, so such a token is expired at any
      positive time. */
  lemma NullExpiryHasExpired(token: Json, role: Option<Json>, requiredRole: Option<string>,
                             decode: Json -> Claims, nowMs: int)
    requires Truthy(Some(token)) && decode(token) == Claims(Some(0)) && nowMs > 0
    ensures Decide(Some(token), role, requiredRole, decode, nowMs)
         == Redirect(LoginPath(requiredRole), SessionExpired)
  {
  }

  /** Rendering the guard for the store's session: the decision and its
      error toast, with `logout` dispatched first when the token is expired
      or undecodable. A wrong role redirects but keeps the session. */
  method Guard(store: AuthSlice.AuthStore, requiredRole: Option<string>,
               decode: Json -> Claims, nowMs: int) returns (d: Decision, toasts: seq<Toast>)
    modifies store, store.storage`auth
    ensures d == Decide(old(store.token), old(store.role), requiredRole, decode, nowMs)
    // one error toast per denial, none when the children render
    ensures toasts == if d.Redirect? then [ErrorToast(Str(Notice(d.reason)))] else []
    ensures LogsOut(d) ==> store.State() == AuthSlice.LoggedOut && store.storage.auth == None
    ensures !LogsOut(d) ==>
      store.State() == old(store.State()) && store.storage.auth == old(store.storage.auth)
    ensures old(store.Mirrored()) ==> store.Mirrored()
  {
    d := Decide(store.token, store.role, requiredRole, decode, nowMs);
    toasts := if d.Redirect? then [ErrorToast(Str(Notice(d.reason)))] else [];
    if LogsOut(d) {
      store.Logout();
    }
  }
}
