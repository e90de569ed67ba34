/** The `AlertContactsPage`: the contact list fetched on mount, a loading
    flag, and deletion by id. Contacts are the JSON objects the backend sent. */
module AlertContactsPage {
  import opened JsValues

  /** `contact.id` */
  function IdOf(c: Json): Option<Json> {
    Field(Some(c), "id")
  }

  /** `contacts.filter((contact) => contact.id !== id)` */
  function Without(cs: seq<Json>, id: Option<Json>): (r: seq<Json>)
    ensures |r| <= |cs|
    ensures forall c :: c in r ==> c in cs && IdOf(c) != id
    ensures forall c :: c in cs && IdOf(c) != id ==> c in r
    decreases |cs|
  {
    if cs == [] then []
    else
      var rest := Without(cs[1..], id);
      if IdOf(cs[0]) != id then [cs[0]] + rest else rest
  }

  /** One step of the filter: the head is kept exactly when its id differs. */
  lemma WithoutHead(cs: seq<Json>, id: Option<Json>)
    requires cs != []
    ensures Without(cs, id) == (if IdOf(cs[0]) != id then [cs[0]] else []) + Without(cs[1..], id)
  {
  }

  /** Head and tail of a concatenation with a non-empty left part. */
  lemma SplitAppend(a: seq<Json>, b: seq<Json>)
    requires a != []
    ensures a + b != [] && (a + b)[0] == a[0] && (a + b)[1..] == a[1..] + b
  {
  }

  /** Concatenation regroups freely. */
  lemma AppendAssociative(x: seq<Json>, y: seq<Json>, z: seq<Json>)
    ensures x + (y + z) == (x + y) + z
  {
  }

  /** The filter works piecewise, so the kept contacts stay in their order. */
  lemma {:induction false} WithoutAppend(a: seq<Json>, b: seq<Json>, id: Option<Json>)
    ensures Without(a + b, id) == Without(a, id) + Without(b, id)
    decreases |a|
  {
    if a == [] {
      assert a + b == b;
    } else {
      SplitAppend(a, b);
      WithoutHead(a + b, id);
      WithoutHead(a, id);
      WithoutAppend(a[1..], b, id);
      AppendAssociative(if IdOf(a[0]) != id then [a[0]] else [], Without(a[1..], id), Without(b, id));
    }
  }

  /** A contact with another id keeps its place between the same neighbours. */
  lemma KeepsOthersInPlace(before: seq<Json>, c: Json, after: seq<Json>, id: Option<Json>)
    requires IdOf(c) != id
    ensures Without(before + [c] + after, id) == Without(before, id) + [c] + Without(after, id)
  {
    WithoutAppend(before + [c], after, id);
    WithoutAppend(before, [c], id);
    WithoutKeeps(c, id);
  }

  lemma WithoutKeeps(c: Json, id: Option<Json>)
    requires IdOf(c) != id
    ensures Without([c], id) == [c]
  {
    assert [c][1..] == [];
  }

  /** Nothing left to remove: deleting the same id twice is deleting it once. */
  lemma {:induction false} WithoutIdempotent(cs: seq<Json>, id: Option<Json>)
    ensures Without(Without(cs, id), id) == Without(cs, id)
    decreases |cs|
  {
    if cs != [] {
      WithoutIdempotent(cs[1..], id);
      var rest := Without(cs[1..], id);
      if IdOf(cs[0]) != id {
        assert ([cs[0]] + rest)[0] == cs[0];
        assert ([cs[0]] + rest)[1..] == rest;
      }
    }
  }

  datatype Screen = LoadingScreen | EmptyScreen | ListScreen(contacts: seq<Json>)

  class AlertContactsPage {
    var contacts: seq<Json>
    var loading: bool

    constructor ()
      ensures contacts == [] && loading
    {
      contacts, loading := [], true;
    }

    function View(): (v: Screen)
      reads this
      ensures v == LoadingScreen <==> loading
      ensures v == EmptyScreen <==> !loading && contacts == []
      ensures v.ListScreen? ==> v.contacts == contacts && contacts != []
    {
      if loading then LoadingScreen else if contacts == [] then EmptyScreen else ListScreen(contacts)
    }

    /** The mount effect with the session's token and what
        `getAlertContacts(token)` produces. Without a token nothing is
        fetched and the page keeps showing its loading state. */
    method Mount(token: Option<Json>, reply: Outcome<seq<Json>>) returns (toasts: seq<Toast>)
      modifies this
      ensures !Truthy(token) ==>
        contacts == old(contacts) && loading == old(loading) && toasts == []
      ensures Truthy(token) ==> !loading
      ensures Truthy(token) && reply.Resolved? ==> contacts == reply.value && toasts == []
      ensures Truthy(token) && reply.Threw? ==>
        contacts == old(contacts) && toasts == [ErrorToast(Str("Failed to fetch alert contacts."))]
    {
      toasts := [];
      if Truthy(token) {
        match reply {
          case Resolved(data) => contacts := data;
          case Threw(_) => toasts := [ErrorToast(Str("Failed to fetch alert contacts."))];
        }
        loading := false;
      }
    }

    /** `handleDelete(id)` with what `deleteAlertContact(token, id)` produces. */
    method HandleDelete(id: Option<Json>, reply: Outcome<Json>) returns (toasts: seq<Toast>)
      modifies this
      ensures loading == old(loading)
      ensures reply.Resolved? ==>
        contacts == Without(old(contacts), id)
        && toasts == [SuccessToast(Str("Alert contact deleted successfully!"))]
      ensures reply.Threw? ==>
        contacts == old(contacts) && toasts == [ErrorToast(Str("Failed to delete alert contact."))]
    {
      match reply
      case Resolved(_) =>
        contacts := Without(contacts, id);
        toasts := [SuccessToast(Str("Alert contact deleted successfully!"))];
      case Threw(_) =>
        toasts := [ErrorToast(Str("Failed to delete alert contact."))];
    }
  }
}
