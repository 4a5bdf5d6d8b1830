/**
 * The HttpException classes of the older revision (src/lib/http-exceptions.ts): a status
 * and a message only, twelve subclasses whose message parameter defaults to the reason
 * phrase, and "Too Many Requests" on status 428.
 */
module LegacyExceptions {
  import opened Wrappers
  import opened Types
  import X = Exceptions

  /** The twelve subclasses of the older revision. */
  datatype Kind =
    | BadRequest | Unauthorized | Forbidden | NotFound | MethodNotAllowed | NotAcceptable
    | RequestTimeout | Conflict | Gone | PayloadTooLarge | UnsupportedMediaType | TooManyRequests

  function StatusOf(k: Kind): int
  {
    match k
    case BadRequest => 400
    case Unauthorized => 401
    case Forbidden => 403
    case NotFound => 404
    case MethodNotAllowed => 405
    case NotAcceptable => 406
    case RequestTimeout => 408
    case Conflict => 409
    case Gone => 410
    case PayloadTooLarge => 413
    case UnsupportedMediaType => 415
    case TooManyRequests => 428
  }

  /** The default value of each subclass's message parameter. */
  function DefaultMessageOf(k: Kind): string
  {
    match k
    case BadRequest => "Bad Request"
    case Unauthorized => "Unauthorized"
    case Forbidden => "Forbidden"
    case NotFound => "Not Found"
    case MethodNotAllowed => "Method Not Allowed"
    case NotAcceptable => "Not Acceptable"
    case RequestTimeout => "Request Timeout"
    case Conflict => "Conflict"
    case Gone => "Gone"
    case PayloadTooLarge => "Payload Too Large"
    case UnsupportedMediaType => "Unsupported Media Type"
    case TooManyRequests => "Too Many Requests"
  }

  /** The subclass of the current revision with the same name. */
  function Current(k: Kind): X.Kind
  {
    match k
    case BadRequest => X.BadRequest
    case Unauthorized => X.Unauthorized
    case Forbidden => X.Forbidden
    case NotFound => X.NotFound
    case MethodNotAllowed => X.MethodNotAllowed
    case NotAcceptable => X.NotAcceptable
    case RequestTimeout => X.RequestTimeout
    case Conflict => X.Conflict
    case Gone => X.Gone
    case PayloadTooLarge => X.PayloadTooLarge
    case UnsupportedMediaType => X.UnsupportedMediaType
    case TooManyRequests => X.TooManyRequests
  }

  /**
   * The older table agrees with the current one on every subclass but one: both give the
   * same reason phrase, and the same status except for TooManyRequests, 428 here and 429
   * (RFC 6585, section 4) in the current revision.
   */
  lemma AgreesWithCurrentRevision(k: Kind)
    ensures DefaultMessageOf(k) == X.DefaultMessageOf(Current(k))
    ensures k != TooManyRequests <==> StatusOf(k) == X.StatusOf(Current(k))
    ensures StatusOf(TooManyRequests) == 428 && X.StatusOf(Current(TooManyRequests)) == 429
  {
  }

  /**
   * An older HttpException: its status and message. It declares no default message;
   * the field is kept as an option that these constructors leave absent, because the
   * error handler of the same revision reads it.
   */
  datatype LegacyHttpException = LegacyHttpException(status: int, message: string, defaultMessage: Option<string>)

  /** `new HttpException(status, message)`: both stored as given. */
  function NewHttpException(status: int, message: string): (e: LegacyHttpException)
    ensures e.status == status && e.message == message && e.defaultMessage.None?
  {
    LegacyHttpException(status, message, None)
  }

  /**
   * `new XxxException(message?)`: the subclass's status, and the message as given, or
   * the reason phrase when the argument is absent (an empty string is kept).
   */
  function New(k: Kind, message: Option<string>): (e: LegacyHttpException)
    ensures e.status == StatusOf(k) && e.defaultMessage.None?
    ensures message.Some? ==> e.message == message.value
    ensures message.None? ==> e.message == DefaultMessageOf(k)
  {
    NewHttpException(StatusOf(k), message.GetOr(DefaultMessageOf(k)))
  }

  /** A thrown value as the older router catches it, non-exceptions with their `message` property. */
  datatype LegacyThrown = Http(exception: LegacyHttpException) | Plain(message: Value)
}
