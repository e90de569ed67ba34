/** The booking part of `TherapistSlotsBookingPage`: a status per slot id,
    moved by `handleBooking` through booking to booked or back to idle, and
    the two predicates the slot button renders with. */
module TherapistSlotsBookingPage {
  import opened JsValues
  import opened BrowserStorage

  datatype Status = Idle | Booking | Booked

  /** `disabled={status === "booking" || status === "booked"}`; `None` is an
      unset entry. */
  predicate ButtonDisabled(status: Option<Status>)
    // only a slot with a status other than idle is locked
    ensures ButtonDisabled(status) <==> status.Some? && status.value != Idle
  {
    // the one case split the ensures needs: a set status other than idle is one of the other two
    assert status.Some? && status.value != Idle ==> status.value.Booking? || status.value.Booked?;
    status == Some(Booking) || status == Some(Booked)
  }

  /** The arrow icon: `status === "idle" || !status`. */
  predicate ShowsArrow(status: Option<Status>)
    ensures status.None? ==> ShowsArrow(status)
    // a booked slot never offers the arrow again
    ensures ShowsArrow(status) ==> status != Some(Booked)
  {
    status == Some(Idle) || status.None?
  }

  /** The arrow marks exactly the slots that can still be booked. */
  lemma ArrowIffEnabled(status: Option<Status>)
    ensures ShowsArrow(status) <==> !ButtonDisabled(status)
  {
    match status
    case None =>
    case Some(s) =>
      match s
      case Idle =>
      case Booking =>
      case Booked =>
  }

  /** The status a booking ends in: booked only when both the reservation and
      the payment resolved, idle on any failure. */
  function FinalStatus(book: Outcome<Json>, pay: Outcome<Json>): (s: Status)
    ensures s == Booked <==> book.Resolved? && pay.Resolved?
    ensures s == Idle <==> book.Threw? || pay.Threw?
    ensures s != Booking
  {
    if book.Resolved? && pay.Resolved? then Booked else Idle
  }

  class SlotsBookingPage {
    var bookingStatus: map<Json, Status>
    const storage: Storage

    constructor (storage: Storage)
      ensures this.storage == storage && bookingStatus == map[]
    {
      this.storage := storage;
      bookingStatus := map[];
    }

    function StatusOf(slotId: Json): Option<Status>
      reads this
    {
      if slotId in bookingStatus then Some(bookingStatus[slotId]) else None
    }

    /** The synchronous start of `handleBooking(slotId)`: while the requests
        run, that slot's button is disabled. */
    method BeginBooking(slotId: Json)
      modifies this
      ensures bookingStatus == old(bookingStatus)[slotId := Booking]
      ensures ButtonDisabled(StatusOf(slotId))
    {
      bookingStatus := bookingStatus[slotId := Booking];
    }

    /** The rest of `handleBooking(slotId)`, with `book` what `bookSlot`
        produces and `pay` what `mockPayment` would produce. Returns the
        booking id payment was attempted with, the toasts and the redirect. */
    method FinishBooking(slotId: Json, book: Outcome<Json>, pay: Outcome<Json>)
      returns (paidWith: Option<Option<Json>>, toasts: seq<Toast>, redirect: Option<string>)
      modifies this, storage`latestBookingId
      ensures bookingStatus == old(bookingStatus)[slotId := FinalStatus(book, pay)]
      // payment uses the id the reservation returned, stored before paying
      ensures book.Resolved? ==>
        paidWith == Some(Field(Some(book.value), "bookingId"))
        && storage.latestBookingId == Field(Some(book.value), "bookingId")
      ensures book.Threw? ==> paidWith == None && storage.latestBookingId == old(storage.latestBookingId)
      ensures FinalStatus(book, pay) == Booked ==>
        toasts == [SuccessToast(Str("Payment Success! Redirecting…"))] && redirect == Some("/dashboard")
      ensures FinalStatus(book, pay) == Idle ==>
        toasts == [ErrorToast(Str("Booking failed. Please try again."))] && redirect == None
    {
      paidWith := None;
      if book.Resolved? {
        var bookingId := Field(Some(book.value), "bookingId");
        storage.latestBookingId := bookingId;
        paidWith := Some(bookingId);
        if pay.Resolved? {
          toasts, redirect := [SuccessToast(Str("Payment Success! Redirecting…"))], Some("/dashboard");
          bookingStatus := bookingStatus[slotId := Booked];
          return;
        }
      }
      toasts, redirect := [ErrorToast(Str("Booking failed. Please try again."))], None;
      bookingStatus := bookingStatus[slotId := Idle];
    }

    /** `handleBooking(slotId)` run to completion: only that slot's entry
        changes, and it ends booked or idle; the stored id, the payment, the
        toast and the redirect are those of the reservation and payment. */
    method HandleBooking(slotId: Json, book: Outcome<Json>, pay: Outcome<Json>)
      returns (paidWith: Option<Option<Json>>, toasts: seq<Toast>, redirect: Option<string>)
      modifies this, storage`latestBookingId
      ensures bookingStatus.Keys == old(bookingStatus).Keys + {slotId}
      ensures bookingStatus[slotId] == FinalStatus(book, pay)
      ensures forall s :: s in old(bookingStatus) && s != slotId ==> bookingStatus[s] == old(bookingStatus)[s]
      ensures ButtonDisabled(StatusOf(slotId)) <==> book.Resolved? && pay.Resolved?
      // payment uses the id the reservation returned, stored before paying
      ensures book.Resolved? ==>
        paidWith == Some(Field(Some(book.value), "bookingId"))
        && storage.latestBookingId == Field(Some(book.value), "bookingId")
      ensures book.Threw? ==> paidWith == None && storage.latestBookingId == old(storage.latestBookingId)
      ensures FinalStatus(book, pay) == Booked ==>
        toasts == [SuccessToast(Str("Payment Success! Redirecting…"))] && redirect == Some("/dashboard")
      ensures FinalStatus(book, pay) == Idle ==>
        toasts == [ErrorToast(Str("Booking failed. Please try again."))] && redirect == None
    {
      BeginBooking(slotId);
      paidWith, toasts, redirect := FinishBooking(slotId, book, pay);
    }
  }
}
