/** The `RegisterForm` component: the last step of the user flow. The form
    values are react-hook-form's, keyed by field name. */
module RegisterForm {
  import opened JsValues
  import UseAuthApi
  import AuthSlice

  /** `{ ...data, role: "USER" }`: every form value unchanged, with `role`
      added or overridden. */
  function Payload(values: map<string, string>): (p: map<string, Json>)
    ensures p.Keys == values.Keys + {"role"}
    ensures p["role"] == Str("USER")
    ensures forall k :: k in values && k != "role" ==> p[k] == Str(values[k])
  {
    (map k | k in values :: Str(values[k]))["role" := Str("USER")]
  }

  /** The fields registered with `{ required: true }`. */
  predicate Accepts(values: map<string, string>) {
    forall k :: k in {"fullName", "email", "password"} ==> k in values && values[k] != ""
  }

  const Registered := "Registration Successful \U{1F389}"

  class RegisterForm {
    /** The `email` prop. */
    const email: string
    var values: map<string, string>
    var registeredUser: Option<Json>

    /** Mounting, with the effect that prefills the email field when the prop
        is non-empty. */
    constructor (email: string)
      ensures this.email == email && registeredUser == None
      ensures values.Keys == {"fullName", "email", "password"}
      ensures values["email"] == email && values["fullName"] == "" && values["password"] == ""
    {
      this.email := email;
      var initial := map["fullName" := "", "email" := "", "password" := ""];
      if email != "" {
        initial := initial["email" := email];
      }
      values := initial;
      registeredUser := None;
    }

    /** `!registeredUser ? <form> : <confirmation>`: the form is shown
        while nobody is registered. */
    predicate ShowsForm()
      reads this
      ensures registeredUser.None? ==> ShowsForm()
      // a registered user object replaces the form by the confirmation
      ensures registeredUser.Some? && registeredUser.value.Obj? ==> !ShowsForm()
    {
      !Truthy(registeredUser)
    }

    /** Typing into a field. */
    method SetValue(name: string, value: string)
      modifies this
      ensures values == old(values)[name := value] && registeredUser == old(registeredUser)
    {
      values := values[name := value];
    }

    /** `handleSubmit(onSubmit)` with `reply` what `registerUser(payload)`
        produces. A form missing a required value submits nothing; otherwise
        the payload goes to `handleRegister`, and only a success records the
        user, adds the page's own toast and schedules the move to `/login`. */
    method Submit(store: AuthSlice.AuthStore, reply: Outcome<UseAuthApi.HttpResponse>)
      returns (payload: Option<Json>, toasts: seq<Toast>, redirect: Option<string>)
      modifies this, store
      ensures values == old(values)
      ensures !Accepts(values) ==>
        payload == None && toasts == [] && redirect == None
        && registeredUser == old(registeredUser) && store.State() == old(store.State())
      ensures Accepts(values) ==> payload == Some(Obj(Payload(values)))
      ensures Accepts(values) && UseAuthApi.Register(reply).result.success ==>
        var h := UseAuthApi.Register(reply);
        registeredUser == h.result.data && redirect == Some("/login")
        && toasts == h.toasts + [SuccessToast(Str(Registered))]
      ensures Accepts(values) && !UseAuthApi.Register(reply).result.success ==>
        registeredUser == old(registeredUser) && redirect == None
        && toasts == UseAuthApi.Register(reply).toasts
      ensures Accepts(values) ==>
        var h := UseAuthApi.Register(reply);
        store.State() == old(store.State()).(loading := false,
                                              error := UseAuthApi.ErrorAfter(old(store.error), h.setError))
      ensures old(store.Mirrored()) ==> store.Mirrored()
    {
      if !Accepts(values) {
        return None, [], None;
      }
      payload := Some(Obj(Payload(values)));
      var h := UseAuthApi.HandleRegister(store, reply);
      toasts, redirect := h.toasts, None;
      if h.result.success {
        toasts := toasts + [SuccessToast(Str(Registered))];
        registeredUser := h.result.data;
        redirect := Some("/login");
      }
    }
  }
}
