/** The `auth` slice of the Redux store: the session (token, role, user), a
    loading flag and the last error, mirrored into the "auth" storage entry. */
module AuthSlice {
  import opened JsValues
  import opened BrowserStorage

  datatype AuthState = AuthState(
    user: Option<Json>,
    token: Option<Json>,
    role: Option<Json>,
    loading: bool,
    error: Option<Json>)

  /** The slice's initial state, read once when the module loads: the stored
      triple when the "auth" entry exists, otherwise all null. */
  function Rehydrate(entry: Option<SavedAuth>): (s: AuthState)
    ensures !s.loading && s.error == None
    ensures entry.Some? ==>
      s.token == entry.value.token && s.role == entry.value.role && s.user == entry.value.user
    ensures entry.None? ==> s.token == None && s.role == None && s.user == None
  {
    var saved := if entry.Some? then entry.value else SavedAuth(None, None, None);
    AuthState(saved.user, saved.token, saved.role, false, None)
  }

  /** The state `logout` returns: no session, not loading, no error. */
  const LoggedOut := AuthState(None, None, None, false, None)

  /** A reload after `logout` starts from the same state `logout` produced. */
  lemma RehydrateAfterLogout()
    ensures Rehydrate(None) == LoggedOut
  {
  }

  /** The store's `auth` slice. Each reducer assigns the fields it names on the
      draft; `authSuccess` and `logout` also write the "auth" storage entry. */
  class AuthStore {
    var user: Option<Json>
    var token: Option<Json>
    var role: Option<Json>
    var loading: bool
    var error: Option<Json>
    const storage: Storage

    function State(): AuthState
      reads this
    {
      AuthState(user, token, role, loading, error)
    }

    /** The session in memory is what a reload would rehydrate from storage. */
    ghost predicate Mirrored()
      reads this, storage
    {
      var s := Rehydrate(storage.auth);
      s.token == token && s.role == role && s.user == user
    }

    constructor (storage: Storage)
      ensures this.storage == storage
      ensures State() == Rehydrate(storage.auth)
      ensures Mirrored()
    {
      var s := Rehydrate(storage.auth);
      this.storage := storage;
      user, token, role := s.user, s.token, s.role;
      loading, error := false, None;
    }

    /** `startLoading` */
    method StartLoading()
      modifies this
      ensures State() == old(State()).(loading := true)
      ensures old(Mirrored()) ==> Mirrored()
    {
      loading := true;
    }

    /** `resetLoading` */
    method ResetLoading()
      modifies this
      ensures State() == old(State()).(loading := false)
      ensures old(Mirrored()) ==> Mirrored()
    {
      loading := false;
    }

    /** `authSuccess`: the payload's triple becomes the session and is
        persisted; the error is left as it was. */
    method AuthSuccess(payload: SavedAuth)
      modifies this, storage`auth
      ensures State() == old(State()).(token := payload.token, role := payload.role,
                                       user := payload.user, loading := false)
      ensures storage.auth == Some(payload)
      ensures Mirrored()
    {
      loading := false;
      token := payload.token;
      role := payload.role;
      user := payload.user;
      storage.auth := Some(SavedAuth(payload.token, payload.role, payload.user));
    }

    /** `setError` */
    method SetError(payload: Option<Json>)
      modifies this
      ensures State() == old(State()).(loading := false, error := payload)
      ensures old(Mirrored()) ==> Mirrored()
    {
      loading := false;
      error := payload;
    }

    /** `logout`: removes the entry and replaces the whole state, so the
        result does not depend on the state before (applying it twice is
        applying it once). */
    method Logout()
      modifies this, storage`auth
      ensures State() == LoggedOut
      ensures storage.auth == None
      ensures Mirrored()
    {
      storage.auth := None;
      user, token, role, loading, error := None, None, None, false, None;
    }
  }
}
