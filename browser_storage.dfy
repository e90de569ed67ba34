/** The two `localStorage` entries the core reads or writes. JSON
    serialisation is not modelled: an entry holds the value that was stored. */
module BrowserStorage {
  import opened JsValues

  /** The `{ token, role, user }` triple kept under the "auth" key. */
  datatype SavedAuth = SavedAuth(token: Option<Json>, role: Option<Json>, user: Option<Json>)

  class Storage {
    /** The "auth" entry; `None` when it was never set or has been removed. */
    var auth: Option<SavedAuth>
    /** The "latestBookingId" entry written by the booking page. */
    var latestBookingId: Option<Json>

    /** The browser's storage as the page finds it when it loads. */
    constructor (auth: Option<SavedAuth>, latestBookingId: Option<Json>)
      ensures this.auth == auth && this.latestBookingId == latestBookingId
    {
      this.auth := auth;
      this.latestBookingId := latestBookingId;
    }
  }
}
