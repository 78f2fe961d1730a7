// The constant tables: request methods (src/Request/enums/Method.ts), status
// codes (src/Response/enums/Status.ts) and the default status texts
// (src/Response/enums/DefaultStatusTexts.ts).

module HttpTables {
  import opened Wrappers
  import opened Strings

  datatype Method = GET | POST | PUT | PATCH | DELETE | HEAD | OPTIONS | CONNECT | TRACE

  /** The string value of each `Method` member. */
  function MethodName(m: Method): (r: string)
    ensures ToUpper(r) == r
  {
    match m
    case GET => "GET"
    case POST => "POST"
    case PUT => "PUT"
    case PATCH => "PATCH"
    case DELETE => "DELETE"
    case HEAD => "HEAD"
    case OPTIONS => "OPTIONS"
    case CONNECT => "CONNECT"
    case TRACE => "TRACE"
  }

  /** `Object.values(Method)` lookup: the member whose value is exactly `s`. */
  function MethodFromString(s: string): (r: Option<Method>)
    ensures r.Some? ==> MethodName(r.value) == s
  {
    if s == "GET" then Some(GET)
    else if s == "POST" then Some(POST)
    else if s == "PUT" then Some(PUT)
    else if s == "PATCH" then Some(PATCH)
    else if s == "DELETE" then Some(DELETE)
    else if s == "HEAD" then Some(HEAD)
    else if s == "OPTIONS" then Some(OPTIONS)
    else if s == "CONNECT" then Some(CONNECT)
    else if s == "TRACE" then Some(TRACE)
    else None
  }

  /** Every member is found again from its value, so the value table is injective. */
  lemma MethodRoundTrip(m: Method)
    ensures MethodFromString(MethodName(m)) == Some(m)
  {
  }

  lemma MethodNameInjective(a: Method, b: Method)
    ensures MethodName(a) == MethodName(b) ==> a == b
  {
    MethodRoundTrip(a);
    MethodRoundTrip(b);
  }

  const CONTINUE: int := 100
  const SWITCHING_PROTOCOLS: int := 101
  const PROCESSING: int := 102
  const EARLY_HINTS: int := 103
  const OK: int := 200
  const CREATED: int := 201
  const ACCEPTED: int := 202
  const NON_AUTHORITATIVE_INFORMATION: int := 203
  const NO_CONTENT: int := 204
  const RESET_CONTENT: int := 205
  const PARTIAL_CONTENT: int := 206
  const MULTI_STATUS: int := 207
  const ALREADY_REPORTED: int := 208
  const IM_USED: int := 226
  const MULTIPLE_CHOICES: int := 300
  const MOVED_PERMANENTLY: int := 301
  const FOUND: int := 302
  const SEE_OTHER: int := 303
  const NOT_MODIFIED: int := 304
  const USE_PROXY: int := 305
  const TEMPORARY_REDIRECT: int := 307
  const PERMANENT_REDIRECT: int := 308
  const BAD_REQUEST: int := 400
  const UNAUTHORIZED: int := 401
  const PAYMENT_REQUIRED: int := 402
  const FORBIDDEN: int := 403
  const NOT_FOUND: int := 404
  const METHOD_NOT_ALLOWED: int := 405
  const NOT_ACCEPTABLE: int := 406
  const PROXY_AUTHENTICATION_REQUIRED: int := 407
  const REQUEST_TIMEOUT: int := 408
  const CONFLICT: int := 409
  const GONE: int := 410
  const LENGTH_REQUIRED: int := 411
  const PRECONDITION_FAILED: int := 412
  const PAYLOAD_TOO_LARGE: int := 413
  const URI_TOO_LONG: int := 414
  const UNSUPPORTED_MEDIA_TYPE: int := 415
  const RANGE_NOT_SATISFIABLE: int := 416
  const EXPECTATION_FAILED: int := 417
  const IM_A_TEAPOT: int := 418
  const MISDIRECTED_REQUEST: int := 421
  const UNPROCESSABLE_ENTITY: int := 422
  const LOCKED: int := 423
  const FAILED_DEPENDENCY: int := 424
  const TOO_EARLY: int := 425
  const UPGRADE_REQUIRED: int := 426
  const PRECONDITION_REQUIRED: int := 428
  const TOO_MANY_REQUESTS: int := 429
  const REQUEST_HEADER_FIELDS_TOO_LARGE: int := 431
  const UNAVAILABLE_FOR_LEGAL_REASONS: int := 451
  const INTERNAL_SERVER_ERROR: int := 500
  const NOT_IMPLEMENTED: int := 501
  const BAD_GATEWAY: int := 502
  const SERVICE_UNAVAILABLE: int := 503
  const GATEWAY_TIMEOUT: int := 504
  const HTTP_VERSION_NOT_SUPPORTED: int := 505
  const VARIANT_ALSO_NEGOTIATES: int := 506
  const INSUFFICIENT_STORAGE: int := 507
  const LOOP_DETECTED: int := 508
  const NOT_EXTENDED: int := 510
  const NETWORK_AUTHENTICATION_REQUIRED: int := 511

  /** `DefaultStatusTexts[status]`: defined for thirteen codes only. */
  function DefaultStatusText(status: int): (r: Option<string>)
    ensures r.Some? <==> status in {OK, CREATED, NO_CONTENT, MOVED_PERMANENTLY, FOUND, SEE_OTHER,
                                    TEMPORARY_REDIRECT, PERMANENT_REDIRECT, BAD_REQUEST, UNAUTHORIZED,
                                    FORBIDDEN, NOT_FOUND, INTERNAL_SERVER_ERROR}
    ensures r.Some? ==> r.value != ""
  {
    if status == OK then Some("OK")
    else if status == CREATED then Some("Created")
    else if status == NO_CONTENT then Some("No Content")
    else if status == MOVED_PERMANENTLY then Some("Moved Permanently")
    else if status == FOUND then Some("Found")
    else if status == SEE_OTHER then Some("See Other")
    else if status == TEMPORARY_REDIRECT then Some("Temporary Redirect")
    else if status == PERMANENT_REDIRECT then Some("Permanent Redirect")
    else if status == BAD_REQUEST then Some("Bad Request")
    else if status == UNAUTHORIZED then Some("Unauthorized")
    else if status == FORBIDDEN then Some("Forbidden")
    else if status == NOT_FOUND then Some("Not Found")
    else if status == INTERNAL_SERVER_ERROR then Some("Internal Server Error")
    else None
  }

  /** Status texts are distinct, so a text identifies its code. */
  lemma StatusTextInjective(a: int, b: int)
    requires DefaultStatusText(a).Some? && DefaultStatusText(a) == DefaultStatusText(b)
    ensures a == b
  {
  }
}
