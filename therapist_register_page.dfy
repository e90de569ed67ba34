/** The `TherapistRegisterPage`: a controlled form whose fields are kept in
    `formData`, submitted together with the contact carried from sign-up. */
module TherapistRegisterPage {
  import opened JsValues
  import UseTherapistApi
  import TherapistSignupPage

  const InitialForm: map<string, string> :=
    map["fullName" := "", "specialization" := "", "city" := "",
        "sessionPrice" := "", "bio" := "", "password" := ""]

  /** The member the contact is stored under. */
  function ContactKey(contact: string): (k: string)
    ensures k == "email" <==> IsEmail(contact)
    ensures k == "email" || k == "mobile"
  {
    if IsEmail(contact) then "email" else "mobile"
  }

  /** `{ ...formData }` with `email` or `mobile` then set to the raw contact. */
  function RegisterPayload(formData: map<string, string>, contact: string): (p: map<string, string>)
    ensures p.Keys == formData.Keys + {ContactKey(contact)}
    ensures p[ContactKey(contact)] == contact
    ensures forall k :: k in formData && k != ContactKey(contact) ==> p[k] == formData[k]
  {
    formData[ContactKey(contact) := contact]
  }

  /** `location.state?.emailOrMobile` is missing or empty. */
  predicate Missing(contact: Option<string>) {
    contact.None? || contact.value == ""
  }

  const SessionExpired := "Session expired. Please start the signup process again."

  class TherapistRegisterPage {
    /** `location.state?.emailOrMobile` */
    const emailOrMobile: Option<string>
    var formData: map<string, string>

    constructor (emailOrMobile: Option<string>)
      ensures this.emailOrMobile == emailOrMobile && formData == InitialForm
    {
      this.emailOrMobile := emailOrMobile;
      formData := InitialForm;
    }

    /** `handleChange`: the input's `name` gets its `value`; no other field moves. */
    method HandleChange(name: string, value: string)
      modifies this
      ensures formData == old(formData)[name := value]
      ensures formData.Keys == old(formData).Keys + {name}
      ensures forall k :: k in old(formData) && k != name ==> formData[k] == old(formData)[k]
    {
      formData := formData[name := value];
    }

    /** `handleSubmit`, with `reply` what the register request produces.
        Returns the payload sent, the toasts and the navigation target. */
    method HandleSubmit(api: UseTherapistApi.TherapistApi, reply: Outcome<Json>)
      returns (payload: Option<map<string, string>>, toasts: seq<Toast>, navigateTo: Option<string>)
      modifies api
      ensures Missing(emailOrMobile) ==>
        payload == None && toasts == [ErrorToast(Str(SessionExpired))]
        && navigateTo == Some("/therapist/signup") && api.loading == old(api.loading)
      ensures !Missing(emailOrMobile) ==>
        var c := UseTherapistApi.RegisterEffects(reply);
        payload == Some(RegisterPayload(formData, emailOrMobile.value))
        && toasts == c.toasts && !api.loading
        && navigateTo == (if c.outcome.Resolved? then Some("/therapist/login") else None)
    {
      if Missing(emailOrMobile) {
        return None, [ErrorToast(Str(SessionExpired))], Some("/therapist/signup");
      }
      var contact := emailOrMobile.value;
      var p := formData;
      if IsEmail(contact) {
        p := p["email" := contact];
      } else {
        p := p["mobile" := contact];
      }
      payload := Some(p);
      var c := api.Register(reply);
      toasts := c.toasts;
      navigateTo := if c.outcome.Resolved? then Some("/therapist/login") else None;
    }
  }

  /** A mobile number arrives from sign-up without the country code that the
      OTP request carried, and is registered that way. */
  lemma MobileRegisteredWithoutPrefix(formData: map<string, string>, input: string)
    requires !IsEmail(input)
    ensures RegisterPayload(formData, input)["mobile"] == input
    ensures TherapistSignupPage.ContactPayload(input).members["mobile"] == Str("+91" + input)
    ensures Str(RegisterPayload(formData, input)["mobile"])
         != TherapistSignupPage.ContactPayload(input).members["mobile"]
  {
    TherapistSignupPage.PrefixOnlyOnSend(input);
  }
}
