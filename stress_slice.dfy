/** The `stress` slice: three thunks (analyze, latest, weekly), each going
    pending, then fulfilled or rejected, each owning one data field. */
module StressSlice {
  import opened JsValues

  datatype Endpoint = Analyze | Latest | Weekly

  /** The rejection text used when a non-ok reply carries no message. */
  function Fallback(e: Endpoint): string {
    match e
    case Analyze => "Failed to analyze stress"
    case Latest => "Failed to fetch latest stress"
    case Weekly => "Failed to fetch weekly stress"
  }

  /** What `fetch` and `response.json()` gave: a parsed body with the
      response's `ok` flag, or an error (network failure, unparsable body). */
  datatype FetchReply = Replied(ok: bool, data: Json) | FetchFailed(error: Failure)

  /** How a thunk settles: the action it dispatches after pending, with its payload. */
  datatype Settled = Fulfilled(payload: Json) | Rejected(payload: Json)

  /** The payload creator: an ok reply fulfils with its body; a non-ok reply
      rejects with the body's message, or the endpoint's fallback text when
      that is missing or empty; a thrown error rejects with its message. */
  function Settle(e: Endpoint, reply: FetchReply): (r: Settled)
    ensures r.Fulfilled? <==> reply.Replied? && reply.ok
    ensures r.Fulfilled? ==> r.payload == reply.data
    ensures reply.Replied? && !reply.ok ==>
      r.payload == OrElse(Field(Some(reply.data), "message"), Str(Fallback(e)))
    ensures reply.Replied? && !reply.ok ==> Truthy(Some(r.payload))
    ensures reply.FetchFailed? ==> r.payload == reply.error.message
  {
    match reply
    case Replied(ok, data) =>
      if !ok then Rejected(OrElse(Field(Some(data), "message"), Str(Fallback(e))))
      else Fulfilled(data)
    case FetchFailed(error) => Rejected(error.message)
  }

  class StressStore {
    var analysis: Option<Json>
    var latestStress: Option<Json>
    var weeklyStress: Json
    var loading: bool
    var error: Option<Json>

    /** Only `pending` raises the flag, and it clears the error as it does:
        while a request runs, no earlier error is shown. */
    ghost predicate Valid()
      reads this
    {
      loading ==> error == None
    }

    constructor ()
      ensures analysis == None && latestStress == None && weeklyStress == Arr([])
      ensures !loading && error == None
      ensures Valid()
    {
      analysis, latestStress, weeklyStress := None, None, Arr([]);
      loading, error := false, None;
    }

    /** `analyzeStress.pending`, `getLatestStress.pending`, `getWeeklyStress.pending` */
    method Pending(e: Endpoint)
      modifies this
      ensures loading && error == None
      ensures analysis == old(analysis) && latestStress == old(latestStress)
      ensures weeklyStress == old(weeklyStress)
      ensures Valid()
    {
      loading := true;
      error := None;
    }

    /** The `fulfilled` case of endpoint `e`: replaces that endpoint's field only. */
    method Fulfilled(e: Endpoint, payload: Json)
      modifies this
      ensures !loading && error == old(error)
      ensures analysis == if e == Analyze then Some(payload) else old(analysis)
      ensures latestStress == if e == Latest then Some(payload) else old(latestStress)
      ensures weeklyStress == if e == Weekly then payload else old(weeklyStress)
      ensures Valid()
    {
      loading := false;
      match e
      case Analyze => analysis := Some(payload);
      case Latest => latestStress := Some(payload);
      case Weekly => weeklyStress := payload;
    }

    /** The `rejected` case of any endpoint: records the error, keeps the data. */
    method Rejected(e: Endpoint, payload: Json)
      modifies this
      ensures !loading && error == Some(payload)
      ensures analysis == old(analysis) && latestStress == old(latestStress)
      ensures weeklyStress == old(weeklyStress)
      ensures Valid()
    {
      loading := false;
      error := Some(payload);
    }

    /** Dispatching one of the thunks and letting it run to completion. */
    method Run(e: Endpoint, reply: FetchReply) returns (r: Settled)
      modifies this
      ensures r == Settle(e, reply)
      ensures !loading && Valid()
      ensures r.Rejected? ==> error == Some(r.payload)
      ensures r.Fulfilled? ==> error == None
      ensures analysis == if e == Analyze && r.Fulfilled? then Some(r.payload) else old(analysis)
      ensures latestStress ==
        if e == Latest && r.Fulfilled? then Some(r.payload) else old(latestStress)
      ensures weeklyStress == if e == Weekly && r.Fulfilled? then r.payload else old(weeklyStress)
    {
      Pending(e);
      r := Settle(e, reply);
      match r
      case Fulfilled(payload) => Fulfilled(e, payload);
      case Rejected(payload) => Rejected(e, payload);
    }
  }
}
