/** The `bookings` slice: `fetchTherapistBookings` going pending, then
    fulfilled or rejected, and the `selectBookings` selector. */
module BookingSlice {
  import opened JsValues

  class BookingStore {
    var bookings: Json
    var loading: bool
    var error: Option<Json>

    /** While a request runs, no earlier error is shown. */
    ghost predicate Valid()
      reads this
    {
      loading ==> error == None
    }

    constructor ()
      ensures bookings == Arr([]) && !loading && error == None && Valid()
    {
      bookings, loading, error := Arr([]), false, None;
    }

    /** `selectBookings`: `state.bookings.bookings`, the list this slice
        holds, in a store that mounts the slice under `bookings` (the
        application's store does not). */
    function SelectBookings(): (b: Json)
      reads this
      ensures b == bookings
    {
      bookings
    }

    method Pending()
      modifies this
      ensures loading && error == None && bookings == old(bookings)
      ensures Valid()
    {
      loading := true;
      error := None;
    }

    method Fulfilled(payload: Json)
      modifies this
      ensures !loading && error == old(error) && bookings == payload
      ensures Valid()
    {
      bookings := payload;
      loading := false;
    }

    method Rejected(payload: Json)
      modifies this
      ensures !loading && error == Some(payload) && bookings == old(bookings)
      ensures Valid()
    {
      loading := false;
      error := Some(payload);
    }

    /** `fetchTherapistBookings()` run to completion: the selector then gives
        the fetched list, or the old one with `error.message` recorded. */
    method FetchTherapistBookings(reply: Outcome<Json>)
      modifies this
      ensures !loading && Valid()
      ensures reply.Resolved? ==> SelectBookings() == reply.value && error == None
      ensures reply.Threw? ==>
        SelectBookings() == old(SelectBookings()) && error == Some(reply.error.message)
    {
      Pending();
      match reply
      case Resolved(payload) => Fulfilled(payload);
      case Threw(f) => Rejected(f.message);
    }
  }
}
