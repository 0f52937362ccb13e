/**
 * The remote client (`fetchData`): every request goes out with JSON headers
 * unless the caller chose its own, and every outcome is folded into one
 * uniform `{data, errMessage}` shape. A thrown fetch or an unparsable body
 * never escapes: it becomes a fixed network-error message.
 */
module Remote {
  import opened Wrappers

  /** A decoded JSON value; numbers are integers here. */
  datatype Json =
    | JNull
    | JBool(b: bool)
    | JNumber(n: int)
    | JString(s: string)
    | JArray(items: seq<Json>)
    | JObject(fields: map<string, Json>)

  /** JavaScript truthiness of a JSON value: objects and arrays are always truthy. */
  predicate Truthy(v: Json) {
    match v
    case JNull => false
    case JBool(b) => b
    case JNumber(n) => n != 0
    case JString(s) => s != ""
    case JArray(_) => true
    case JObject(_) => true
  }

  /** The user-visible message for a transport or parse failure ("network connection error"). */
  const NetworkError: string := "网络连接错误"

  /**
   * What `fetch` followed by `res.json()` yielded: a thrown exception, or a
   * decoded envelope whose `data` and `message` fields may be absent.
   */
  datatype Response =
    | Threw
    | Decoded(data: Option<Json>, message: Option<string>)

  /** `{data, errMessage}`: None stands for `data: null` and for `errMessage: false`. */
  datatype FetchResult = FetchResult(data: Option<Json>, errMessage: Option<string>)

  /** The envelope `fetchData` hands to its caller for a given outcome. */
  function Normalise(resp: Response): (r: FetchResult)
    ensures r.data.Some? ==> Truthy(r.data.value)
    ensures r.errMessage.Some? ==> r.errMessage.value != ""
    ensures r.errMessage.None? <==> resp.Decoded? && (resp.message.None? || resp.message.value == "")
    ensures resp.Threw? ==> r == FetchResult(None, Some(NetworkError))
    ensures resp.Decoded? ==> (r.data.Some? <==> resp.data.Some? && Truthy(resp.data.value))
    ensures resp.Decoded? && r.data.Some? ==> r.data == resp.data
    ensures resp.Decoded? && r.errMessage.Some? ==> r.errMessage == resp.message
  {
    match resp
    case Threw => FetchResult(None, Some(NetworkError))
    case Decoded(data, message) =>
      FetchResult(
        if data.Some? && Truthy(data.value) then data else None,
        if message.Some? && message.value != "" then message else None)
  }

  /**
   * Normalising is a fixpoint: an envelope that already went through it comes
   * back unchanged. No handler re-normalises; this says the envelope is in
   * canonical form (never a falsy `data`, never an empty `errMessage`), so a
   * handler that forwards it unchanged, as every handler does, loses nothing.
   */
  lemma NormaliseIsStable(resp: Response)
    ensures var r := Normalise(resp); Normalise(Decoded(r.data, r.errMessage)) == r
  {
  }

  /** A transport failure reads to callers exactly like a backend error carrying the network-error text. */
  lemma ThrownLooksLikeBackendError(data: Option<Json>)
    requires data.None? || !Truthy(data.value)
    ensures Normalise(Threw) == Normalise(Decoded(data, Some(NetworkError)))
  {
  }

  /** A JSON body of a request: the payloads the handlers serialise. */
  datatype Scene = Scene(id: int, url: string, text: string)

  datatype Body =
    | SceneBody(scene: Scene)
    | CollectionBody(url: Option<string>, title: Option<string>)
    | IdBody(id: int)

  /** The `init` argument of `fetch`: HTTP method (`verb`), body and headers, each optional. */
  datatype RequestInit = RequestInit(verb: Option<string>, body: Option<Body>, headers: Option<map<string, string>>)

  /** The headers `fetchData` installs when the caller gave none. */
  const JsonHeaders: map<string, string> :=
    map["Accept" := "application/json", "Content-Type" := "application/json"]

  /** The `init` that actually goes out: the caller's headers if it gave any, the JSON defaults otherwise. */
  function Prepared(init: RequestInit): (r: RequestInit)
    ensures r.verb == init.verb && r.body == init.body
    ensures r.headers.Some?
    ensures init.headers.Some? ==> r.headers == init.headers
    ensures init.headers.None? ==> r.headers == Some(JsonHeaders)
  {
    if init.headers.None? then init.(headers := Some(JsonHeaders)) else init
  }

  /**
   * Preparing twice is preparing once. `fetchData` prepares only once; this
   * says the default headers are a one-time choice that, once made, counts
   * as the caller's own headers and is never merged with anything.
   */
  lemma PreparedIdempotent(init: RequestInit)
    ensures Prepared(Prepared(init)) == Prepared(init)
  {
  }
}
