/**
 * The HttpException taxonomy of the current revision (http-exceptions.ts): one record
 * with a status, the message exposed when messages are shown, and the safe default
 * message, plus a fixed (status, reason phrase) table for the seventeen subclasses.
 */
module Exceptions {
  import opened Wrappers
  import opened Types

  /** The seventeen HttpException subclasses. */
  datatype Kind =
    | BadRequest | Unauthorized | Forbidden | NotFound | MethodNotAllowed
    | NotAcceptable | RequestTimeout | Conflict | Gone | PayloadTooLarge
    | UnsupportedMediaType | TooManyRequests | InternalServerError | NotImplemented
    | BadGateway | ServiceUnavailable | GatewayTimeout

  /** The status each subclass passes to the base constructor. */
  function StatusOf(k: Kind): int
  {
    match k
    case BadRequest => 400
    case Unauthorized => 401
    case Forbidden => 403
    case NotFound => 404
    case MethodNotAllowed => 405
    case NotAcceptable => 406
    case RequestTimeout => 408
    case Conflict => 409
    case Gone => 410
    case PayloadTooLarge => 413
    case UnsupportedMediaType => 415
    case TooManyRequests => 429
    case InternalServerError => 500
    case NotImplemented => 501
    case BadGateway => 502
    case ServiceUnavailable => 503
    case GatewayTimeout => 504
  }

  /** The default value of each subclass's `defaultMessage` parameter. */
  function DefaultMessageOf(k: Kind): string
  {
    match k
    case BadRequest => "Bad Request"
    case Unauthorized => "Unauthorized"
    case Forbidden => "Forbidden"
    case NotFound => "Not Found"
    case MethodNotAllowed => "Method Not Allowed"
    case NotAcceptable => "Not Acceptable"
    case RequestTimeout => "Request Timeout"
    case Conflict => "Conflict"
    case Gone => "Gone"
    case PayloadTooLarge => "Payload Too Large"
    case UnsupportedMediaType => "Unsupported Media Type"
    case TooManyRequests => "Too Many Requests"
    case InternalServerError => "Internal Server Error"
    case NotImplemented => "Not Implemented"
    case BadGateway => "Bad Gateway"
    case ServiceUnavailable => "Service Unavailable"
    case GatewayTimeout => "Gateway Timeout"
  }

  /**
   * Reason phrases by status code, as registered by section 6.1 of RFC 7231 (the
   * 4xx and 5xx codes the library uses) and section 4 of RFC 6585 (429); an
   * independent reference for the subclass table.
   */
  function ReasonPhrase(code: int): Option<string>
  {
    if code == 400 then Some("Bad Request")
    else if code == 401 then Some("Unauthorized")
    else if code == 402 then Some("Payment Required")
    else if code == 403 then Some("Forbidden")
    else if code == 404 then Some("Not Found")
    else if code == 405 then Some("Method Not Allowed")
    else if code == 406 then Some("Not Acceptable")
    else if code == 407 then Some("Proxy Authentication Required")
    else if code == 408 then Some("Request Timeout")
    else if code == 409 then Some("Conflict")
    else if code == 410 then Some("Gone")
    else if code == 411 then Some("Length Required")
    else if code == 412 then Some("Precondition Failed")
    else if code == 413 then Some("Payload Too Large")
    else if code == 414 then Some("URI Too Long")
    else if code == 415 then Some("Unsupported Media Type")
    else if code == 416 then Some("Range Not Satisfiable")
    else if code == 417 then Some("Expectation Failed")
    else if code == 426 then Some("Upgrade Required")
    else if code == 428 then Some("Precondition Required")
    else if code == 429 then Some("Too Many Requests")
    else if code == 500 then Some("Internal Server Error")
    else if code == 501 then Some("Not Implemented")
    else if code == 502 then Some("Bad Gateway")
    else if code == 503 then Some("Service Unavailable")
    else if code == 504 then Some("Gateway Timeout")
    else if code == 505 then Some("HTTP Version Not Supported")
    else None
  }

  /** The subclass that fixes a given status, if any: the inverse of the status table. */
  function KindOf(code: int): (r: Option<Kind>)
    ensures r.Some? ==> StatusOf(r.value) == code
  {
    if code == 400 then Some(BadRequest)
    else if code == 401 then Some(Unauthorized)
    else if code == 403 then Some(Forbidden)
    else if code == 404 then Some(NotFound)
    else if code == 405 then Some(MethodNotAllowed)
    else if code == 406 then Some(NotAcceptable)
    else if code == 408 then Some(RequestTimeout)
    else if code == 409 then Some(Conflict)
    else if code == 410 then Some(Gone)
    else if code == 413 then Some(PayloadTooLarge)
    else if code == 415 then Some(UnsupportedMediaType)
    else if code == 429 then Some(TooManyRequests)
    else if code == 500 then Some(InternalServerError)
    else if code == 501 then Some(NotImplemented)
    else if code == 502 then Some(BadGateway)
    else if code == 503 then Some(ServiceUnavailable)
    else if code == 504 then Some(GatewayTimeout)
    else None
  }

  /**
   * Each subclass fixes a distinct client- or server-error status, and its default
   * message is the registered reason phrase of that status.
   */
  lemma KindTable(k: Kind)
    ensures KindOf(StatusOf(k)) == Some(k)
    ensures 400 <= StatusOf(k) < 600
    ensures ReasonPhrase(StatusOf(k)) == Some(DefaultMessageOf(k))
  {
  }

  /** Distinct subclasses never share a status. */
  lemma StatusInjective(a: Kind, b: Kind)
    ensures StatusOf(a) == StatusOf(b) ==> a == b
  {
    KindTable(a);
    KindTable(b);
  }

  /** An HttpException as the error handlers see it. */
  datatype HttpException = HttpException(status: int, message: string, defaultMessage: string)

  const DEFAULT_STATUS: int := 500
  const INTERNAL_SERVER_ERROR: string := "Internal Server Error"

  /**
   * `new HttpException(status?, message?, defaultMessage?)`: absent arguments take
   * their defaults, and the message falls back to the default message when it is
   * absent or empty.
   */
  function NewHttpException(status: Option<int>, message: Option<string>, defaultMessage: Option<string>): (e: HttpException)
    ensures e.status == status.GetOr(DEFAULT_STATUS)
    ensures e.defaultMessage == defaultMessage.GetOr(INTERNAL_SERVER_ERROR)
    ensures message.Some? && message.value != "" ==> e.message == message.value
    ensures message.None? || message.value == "" ==> e.message == e.defaultMessage
  {
    var dm := defaultMessage.GetOr(INTERNAL_SERVER_ERROR);
    HttpException(status.GetOr(DEFAULT_STATUS), if message.Some? && message.value != "" then message.value else dm, dm)
  }

  /** `new XxxException(message?, defaultMessage?)` for subclass k. */
  function New(k: Kind, message: Option<string>, defaultMessage: Option<string>): (e: HttpException)
    ensures e.status == StatusOf(k)
    ensures e.defaultMessage == defaultMessage.GetOr(DefaultMessageOf(k))
    ensures message.Some? && message.value != "" ==> e.message == message.value
    ensures message.None? || message.value == "" ==> e.message == e.defaultMessage
  {
    NewHttpException(Some(StatusOf(k)), message, Some(defaultMessage.GetOr(DefaultMessageOf(k))))
  }

  /** A bare `new HttpException()` is a 500 whose both messages are "Internal Server Error". */
  lemma BareHttpException()
    ensures NewHttpException(None, None, None) == HttpException(500, "Internal Server Error", "Internal Server Error")
  {
  }

  /** `new HttpException(418, msg)` keeps its status and message, with the generic default message. */
  lemma CustomStatusKeepsGenericDefault(msg: string)
    requires msg != ""
    ensures NewHttpException(Some(418), Some(msg), None) == HttpException(418, msg, "Internal Server Error")
  {
  }

  /** A subclass built with no arguments carries its reason phrase as both messages. */
  lemma NoArgumentSubclass(k: Kind)
    ensures New(k, None, None) == HttpException(StatusOf(k), DefaultMessageOf(k), DefaultMessageOf(k))
    ensures ReasonPhrase(New(k, None, None).status) == Some(New(k, None, None).message)
  {
    KindTable(k);
  }

  /**
   * A thrown value as the router catches it: an HttpException, or any other value with
   * whatever its `message` property holds (`Undefined` for a thrown string or number, or
   * for an object without one).
   */
  datatype Thrown = Http(exception: HttpException) | Plain(message: Value)
}
