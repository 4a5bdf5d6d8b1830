/**
 * The app-router `handler(params)` of beta/handler.ts: the callback's outcome becomes one
 * returned (status, envelope) response.
 */
module BetaHandler {
  import opened Types
  import opened Exceptions
  import EH = ErrorHandler

  /** What awaiting `params(req)` gives: a value, or a thrown error. */
  datatype CallbackOutcome = Returned(data: Value) | Threw(error: Thrown)

  /** The `Response.json(body, { status })` the handler returns. */
  datatype JsonResponse = JsonResponse(status: int, body: Body)

  /**
   * `handler(params)(req)`: 200 with the data on success; an HttpException keeps its
   * status and shows its default message in production, its message elsewhere; any other
   * error is a 500 "Internal Server Error" in every environment.
   */
  function Handle<Req>(params: Req -> CallbackOutcome, env: string, req: Req): (r: JsonResponse)
    ensures params(req).Returned? ==> r == JsonResponse(200, Success(params(req).data))
    ensures params(req).Threw? ==> r.body.Failure?
    ensures params(req).Threw? && params(req).error.Http? ==>
              r.status == params(req).error.exception.status &&
              r.body.message == Str(if env == "production" then params(req).error.exception.defaultMessage
                                    else params(req).error.exception.message)
    ensures params(req).Threw? && params(req).error.Plain? ==>
              r == JsonResponse(500, Failure(Str("Internal Server Error")))
  {
    match params(req)
    case Returned(data) => JsonResponse(200, Success(data))
    case Threw(Http(e)) =>
      JsonResponse(e.status, Failure(Str(if env == "production" then e.defaultMessage else e.message)))
    case Threw(Plain(_)) => JsonResponse(500, Failure(Str(INTERNAL_SERVER_ERROR)))
  }

  /**
   * For an HttpException the beta handler answers exactly as the pages-router error
   * handler does with its default `showMessage` (messages shown outside production).
   */
  lemma AgreesWithErrorHandlerOnHttpExceptions<Req>(params: Req -> CallbackOutcome, env: string, req: Req)
    requires params(req).Threw? && params(req).error.Http?
    ensures var r := Handle(params, env, req);
            var w := EH.MakeErrorHandler(env != "production", params(req).error);
            w == [Status(r.status), Json(Envelope(r.body))]
  {
  }

  /**
   * For any other error the two differ when messages are shown: the beta handler never
   * reveals the message of an unexpected error.
   */
  lemma HidesUnexpectedErrors<Req>(params: Req -> CallbackOutcome, env: string, req: Req)
    requires params(req).Threw? && params(req).error.Plain?
    ensures Handle(params, env, req).body == Failure(EH.ErrorMessage(false, params(req).error))
  {
  }
}
