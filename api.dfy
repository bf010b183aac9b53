/** The mobile client's HTTP client (mobile/utils/api.ts): the default
    headers every request carries, the request interceptor that adds a
    bearer token read from the secure store, and the error interceptor that
    rewrites the message of timeouts and unreachable-server errors. The
    network itself is not modelled: a request's outcome is a parameter of
    the code that sends it. */
module Api {
  import opened Common
  import opened Models
  import opened SecureStore

  const TimeoutCode: string := "ECONNABORTED"
  const NetworkCode: string := "ERR_NETWORK"
  const NetworkErrorMessage: string := "Network Error"
  const TimeoutMessage: string := "Request timed out. Please check your connection."
  /** Written as its "Cannot connect" head and the rest, so that proofs can
      see the head. */
  const NoServerMessage: string := "Cannot connect" + " to server. Please check your internet connection."

  /** JavaScript truthiness of a JSON value: unlike Python, an empty array or
      object is truthy. */
  predicate JsTruthy(j: Json) {
    match j
    case JNull => false
    case JBool(b) => b
    case JNum(n) => n != 0.0
    case JStr(s) => s != ""
    case JArr(_) => true
    case JObj(_) => true
  }

  /** The `Authorization` entry of `api.defaults.headers.common`. */
  class Client {
    var defaultAuthorization: Option<string>

    constructor()
      ensures defaultAuthorization == None
    {
      defaultAuthorization := None;
    }
  }

  /** The part of an axios request config the interceptor touches. */
  class RequestConfig {
    var authorization: Option<string>
    var url: string

    constructor(url: string, authorization: Option<string>)
      ensures this.url == url && this.authorization == authorization
    {
      this.url := url;
      this.authorization := authorization;
    }
  }

  /** The header the request interceptor adds for a stored value, if any:
      `if (token)` admits a non-empty string only. */
  function BearerFor(read: ReadResult): (h: Option<string>)
    ensures h.Some? <==> read.Value? && TruthyStr(read.stored)
    ensures h.Some? ==> h.value == "Bearer " + read.stored.value
  {
    if read.Value? && TruthyStr(read.stored) then Some("Bearer " + read.stored.value) else None
  }

  /** The request interceptor: the same config comes back, carrying
      "Bearer <t>" when key "token" holds a non-empty `t`, and otherwise as it
      was, also when the read rejects. */
  method InterceptRequest(config: RequestConfig, store: Store, readFails: bool) returns (out: RequestConfig)
    modifies config
    ensures out == config && config.url == old(config.url)
    ensures !readFails && TruthyStr(Lookup(store.items, InterceptorTokenKey)) ==>
      config.authorization == Some("Bearer " + store.items[InterceptorTokenKey])
    ensures readFails || !TruthyStr(Lookup(store.items, InterceptorTokenKey)) ==>
      config.authorization == old(config.authorization)
  {
    var read := store.GetItem(InterceptorTokenKey, readFails);
    var header := BearerFor(read);
    if header.Some? {
      config.authorization := header;
    }
    out := config;
  }

  /** An error response from the server. */
  datatype ErrorResponse = ErrorResponse(status: int, data: Json)

  /** `response.data.detail` when present. */
  function Detail(r: ErrorResponse): (d: Option<Json>)
    ensures d.Some? <==> r.data.JObj? && "detail" in r.data.fields
  {
    if r.data.JObj? && "detail" in r.data.fields then Some(r.data.fields["detail"]) else None
  }

  /** `err?.response?.data?.detail` when it is truthy. */
  function TruthyDetail(response: Option<ErrorResponse>): (d: Option<Json>)
    ensures d.Some? ==> JsTruthy(d.value) && response.Some? && Detail(response.value) == d
    ensures d.None? ==> response.None? || Detail(response.value).None? || !JsTruthy(Detail(response.value).value)
  {
    if response.Some? && Detail(response.value).Some? && JsTruthy(Detail(response.value).value)
    then Detail(response.value) else None
  }

  /** An axios error as the interceptor receives and rejects it. */
  class ApiError {
    var code: Option<string>
    var message: string
    var response: Option<ErrorResponse>

    constructor(code: Option<string>, message: string, response: Option<ErrorResponse>)
      ensures this.code == code && this.message == message && this.response == response
    {
      this.code := code;
      this.message := message;
      this.response := response;
    }
  }

  /** The message after the error interceptor: a timeout first, then an
      unreachable server, otherwise the message as it was. */
  function RewrittenMessage(code: Option<string>, message: string): (m: string)
    ensures code == Some(TimeoutCode) ==> m == TimeoutMessage
    ensures code != Some(TimeoutCode) && (code == Some(NetworkCode) || message == NetworkErrorMessage) ==>
      m == NoServerMessage
    ensures code != Some(TimeoutCode) && code != Some(NetworkCode) && message != NetworkErrorMessage ==>
      m == message
  {
    if code == Some(TimeoutCode) then TimeoutMessage
    else if code == Some(NetworkCode) || message == NetworkErrorMessage then NoServerMessage
    else message
  }

  /** The error interceptor: the same error object is rejected again with
      its message rewritten and its code and response untouched. */
  method InterceptError(e: ApiError) returns (rejected: ApiError)
    modifies e
    ensures rejected == e
    ensures e.message == RewrittenMessage(old(e.code), old(e.message))
    ensures e.code == old(e.code) && e.response == old(e.response)
  {
    if e.code == Some(TimeoutCode) {
      e.message := TimeoutMessage;
    } else if e.code == Some(NetworkCode) || e.message == NetworkErrorMessage {
      e.message := NoServerMessage;
    }
    rejected := e;
  }

  /** The success interceptor hands the response on unchanged. */
  function InterceptResponse<T>(response: T): (r: T)
    ensures r == response
  {
    response
  }

  /** Rewriting is stable: an error passing the interceptor twice gets the
      message it got the first time. */
  lemma RewriteIdempotent(code: Option<string>, message: string)
    ensures RewrittenMessage(code, RewrittenMessage(code, message)) == RewrittenMessage(code, message)
  {
    assert NoServerMessage != NetworkErrorMessage by {
      assert |NoServerMessage| != |NetworkErrorMessage|;
    }
  }
}
