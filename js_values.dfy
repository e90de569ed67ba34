/** JavaScript values as the front end sees them: JSON from the backend, the
    truthiness tests the components branch on, and the outcome of an awaited
    call. JSON `null` and a missing member are both read as `None`. */
module JsValues {

  datatype Option<+T> = None | Some(value: T)

  /** A JSON value. Numbers are integers here; `null` has no constructor of its
      own because every place that reads a member treats it like a missing one. */
  datatype Json =
    | Bool(b: bool)
    | Num(n: int)
    | Str(s: string)
    | Arr(items: seq<Json>)
    | Obj(members: map<string, Json>)

  /** `v?.key`: the member `key` of an object; absent for anything else. */
  function Field(v: Option<Json>, key: string): (r: Option<Json>)
    ensures r.Some? <==> v.Some? && v.value.Obj? && key in v.value.members
    ensures r.Some? ==> r.value == v.value.members[key]
  {
    match v
    case Some(Obj(m)) => if key in m then Some(m[key]) else None
    case _ => None
  }

  /** JavaScript truthiness of a value that may be missing. */
  predicate Truthy(v: Option<Json>)
    ensures Truthy(v) ==> v.Some?
  {
    match v
    case None => false
    case Some(Bool(b)) => b
    case Some(Num(n)) => n != 0
    case Some(Str(s)) => s != ""
    case Some(_) => true
  }

  /** `v || fallback` */
  function OrElse(v: Option<Json>, fallback: Json): (r: Json)
    ensures Truthy(v) ==> v == Some(r)
    ensures !Truthy(v) ==> r == fallback
    ensures Truthy(Some(fallback)) ==> Truthy(Some(r))
  {
    if Truthy(v) then v.value else fallback
  }

  /** `v === true` */
  predicate IsTrue(v: Option<Json>) {
    v == Some(Bool(true))
  }

  /** A thrown error: `error.response?.data` (absent when the request got no
      response, or for an error the code threw itself) and `error.message`. */
  datatype Failure = Failure(responseData: Option<Json>, message: Json)

  /** `error.response?.data?.message` */
  function ResponseMessage(f: Failure): Option<Json> {
    Field(f.responseData, "message")
  }

  /** What an awaited call produced: the value it resolved to, or what it threw. */
  datatype Outcome<+T> = Resolved(value: T) | Threw(error: Failure)

  /** A `toast.success` or `toast.error` notice and the text it shows. */
  datatype Toast = SuccessToast(text: Json) | ErrorToast(text: Json)

  /** The characters `String.prototype.trim` removes: WhiteSpace and
      LineTerminator of ECMAScript (tab, VT, FF, BOM, every Zs space, LF, CR,
      LS, PS). */
  predicate IsWhitespace(c: char) {
    c == '\t' || c == '\n' || c == '\r' || c == ' '
    || c == '\U{000B}' || c == '\U{000C}' || c == '\U{00A0}' || c == '\U{1680}'
    || ('\U{2000}' <= c <= '\U{200A}')
    || c == '\U{2028}' || c == '\U{2029}' || c == '\U{202F}' || c == '\U{205F}'
    || c == '\U{3000}' || c == '\U{FEFF}'
  }

  /** `s.trim() === ""` */
  predicate IsBlank(s: string) {
    forall i :: 0 <= i < |s| ==> IsWhitespace(s[i])
  }

  /** `s.includes("@")`, the test both therapist pages use to tell an email
      from a mobile number. */
  predicate IsEmail(s: string) {
    '@' in s
  }

  /** The string members of a form state object, as the JSON object sent. */
  function StrObj(m: map<string, string>): (j: Json)
    ensures j.Obj? && j.members.Keys == m.Keys
    ensures forall k :: k in m ==> j.members[k] == Str(m[k])
  {
    Obj(map k | k in m :: Str(m[k]))
  }
}
