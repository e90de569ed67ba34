/** The `AddAlertContactForm`: three controlled fields and the `loading` and
    `isSuccess` flags around the `addAlertContact` request. */
module AddAlertContactForm {
  import opened JsValues

  const Fields := {"name", "phone", "relation"}

  /** `{ ...formData, phone: "+91" + formData.phone }` */
  function ContactData(form: map<string, string>): (d: map<string, string>)
    requires "phone" in form
    ensures d.Keys == form.Keys
    ensures d["phone"] == "+91" + form["phone"]
    ensures forall k :: k in form && k != "phone" ==> d[k] == form[k]
  {
    form["phone" := "+91" + form["phone"]]
  }

  /** The entered number is what follows the country code in the request. */
  lemma PrefixRoundTrip(form: map<string, string>)
    requires "phone" in form
    ensures ContactData(form)["phone"][..3] == "+91"
    ensures ContactData(form)["phone"][3..] == form["phone"]
  {
    var sent := ContactData(form)["phone"];
    assert sent == "+91" + form["phone"];
    assert sent[3..] == form["phone"];
  }

  class AddAlertContactForm {
    var formData: map<string, string>
    var loading: bool
    var isSuccess: bool

    /** The three fields are always present: `handleChange` only adds keys. */
    ghost predicate Valid()
      reads this
    {
      Fields <= formData.Keys
    }

    constructor ()
      ensures formData == map["name" := "", "phone" := "", "relation" := ""]
      ensures !loading && !isSuccess && Valid()
    {
      formData := map["name" := "", "phone" := "", "relation" := ""];
      loading, isSuccess := false, false;
    }

    /** `handleChange`: the input whose `id` matches gets the value. */
    method HandleChange(id: string, value: string)
      requires Valid()
      modifies this
      ensures formData == old(formData)[id := value]
      ensures forall k :: k in old(formData) && k != id ==> formData[k] == old(formData)[k]
      ensures loading == old(loading) && isSuccess == old(isSuccess) && Valid()
    {
      formData := formData[id := value];
    }

    /** The synchronous start of `handleSubmit`. */
    method BeginSubmit()
      modifies this
      ensures loading && !isSuccess && formData == old(formData)
    {
      loading := true;
      isSuccess := false;
    }

    /** `handleSubmit` run to completion, with `reply` what
        `addAlertContact(token, contactData)` produces. Returns the data sent,
        the toasts and the redirect. */
    method HandleSubmit(reply: Outcome<Json>)
      returns (sent: map<string, string>, toasts: seq<Toast>, redirect: Option<string>)
      requires Valid()
      modifies this
      ensures sent == ContactData(old(formData)) && formData == old(formData) && Valid()
      ensures !loading
      ensures isSuccess <==> reply.Resolved?
      ensures reply.Resolved? ==>
        toasts == [SuccessToast(Str("Alert contact added successfully!"))] && redirect == Some("/dashboard")
      ensures reply.Threw? ==>
        toasts == [ErrorToast(OrElse(Some(reply.error.message), Str("Failed to add alert contact.")))]
        && redirect == None
    {
      BeginSubmit();
      sent := ContactData(formData);
      match reply
      case Resolved(_) =>
        loading := false;
        isSuccess := true;
        toasts, redirect := [SuccessToast(Str("Alert contact added successfully!"))], Some("/dashboard");
      case Threw(f) =>
        loading := false;
        toasts := [ErrorToast(OrElse(Some(f.message), Str("Failed to add alert contact.")))];
        redirect := None;
    }
  }
}
