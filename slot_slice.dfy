/** The `slots` slice: `generateSlots` and `fetchSlots`, each going pending,
    then fulfilled or rejected; a successful generate refetches. */
module SlotSlice {
  import opened JsValues

  datatype Thunk = Generate | Fetch

  /** `error.response?.data?.message || error.message` */
  function Rejection(f: Failure): (r: Json)
    ensures Truthy(ResponseMessage(f)) ==> Some(r) == ResponseMessage(f)
    ensures !Truthy(ResponseMessage(f)) ==> r == f.message
  {
    OrElse(ResponseMessage(f), f.message)
  }

  class SlotStore {
    var slots: Json
    var loading: bool
    var error: Option<Json>

    /** While a request runs, no earlier error is shown. */
    ghost predicate Valid()
      reads this
    {
      loading ==> error == None
    }

    constructor ()
      ensures slots == Arr([]) && !loading && error == None && Valid()
    {
      slots, loading, error := Arr([]), false, None;
    }

    /** `generateSlots.pending` and `fetchSlots.pending` */
    method Pending(t: Thunk)
      modifies this
      ensures loading && error == None && slots == old(slots)
      ensures Valid()
    {
      loading := true;
      error := None;
    }

    /** `generateSlots.fulfilled`: the generated slots are not stored. */
    method GenerateFulfilled()
      modifies this
      ensures !loading && error == old(error) && slots == old(slots)
      ensures Valid()
    {
      loading := false;
    }

    /** `fetchSlots.fulfilled` */
    method FetchFulfilled(payload: Json)
      modifies this
      ensures !loading && error == old(error) && slots == payload
      ensures Valid()
    {
      loading := false;
      slots := payload;
    }

    /** `generateSlots.rejected` and `fetchSlots.rejected` */
    method Rejected(t: Thunk, payload: Json)
      modifies this
      ensures !loading && error == Some(payload) && slots == old(slots)
      ensures Valid()
    {
      loading := false;
      error := Some(payload);
    }

    /** `fetchSlots()` run to completion with the service's reply. */
    method FetchSlots(reply: Outcome<Json>)
      modifies this
      ensures !loading && Valid()
      ensures reply.Resolved? ==> slots == reply.value && error == None
      ensures reply.Threw? ==> slots == old(slots) && error == Some(Rejection(reply.error))
    {
      Pending(Fetch);
      match reply
      case Resolved(payload) => FetchFulfilled(payload);
      case Threw(f) => Rejected(Fetch, Rejection(f));
    }

    /** `generateSlots(slotData)` run to completion. On success the payload
        creator dispatches `fetchSlots()` without awaiting it: its pending
        action comes before `generateSlots.fulfilled`, and its network reply
        `refetch` settles last. A failed generate does not refetch. */
    method GenerateSlots(reply: Outcome<Json>, refetch: Outcome<Json>)
      returns (refetched: bool)
      modifies this
      ensures refetched <==> reply.Resolved?
      ensures !loading && Valid()
      ensures reply.Threw? ==> slots == old(slots) && error == Some(Rejection(reply.error))
      ensures reply.Resolved? && refetch.Resolved? ==> slots == refetch.value && error == None
      ensures reply.Resolved? && refetch.Threw? ==>
        slots == old(slots) && error == Some(Rejection(refetch.error))
    {
      Pending(Generate);
      match reply
      case Resolved(_) =>
        refetched := true;
        Pending(Fetch);
        GenerateFulfilled();
        match refetch {
          case Resolved(payload) => FetchFulfilled(payload);
          case Threw(f) => Rejected(Fetch, Rejection(f));
        }
      case Threw(f) =>
        refetched := false;
        Rejected(Generate, Rejection(f));
    }
  }
}
