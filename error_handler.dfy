/**
 * `makeErrorHandler(showMessage)` of the current revision (error-handler.ts): the one
 * response written for a caught error.
 */
module ErrorHandler {
  import opened Wrappers
  import opened Types
  import opened Exceptions

  /** The status an error is answered with: its own for an HttpException, 500 for anything else. */
  function ErrorStatus(error: Thrown): int
  {
    match error
    case Http(e) => e.status
    case Plain(_) => 500
  }

  /**
   * The message of the failure envelope: the error's own message when messages are
   * shown (undefined, and so absent from the body, for a thrown value without one);
   * otherwise the exception's default message, or "Internal Server Error" for an error
   * that is not an HttpException.
   */
  function ErrorMessage(showMessage: bool, error: Thrown): Value
  {
    match error
    case Http(e) => Str(if showMessage then e.message else e.defaultMessage)
    case Plain(m) => if showMessage then m else Str(INTERNAL_SERVER_ERROR)
  }

  /** The writes the handler returned by `makeErrorHandler(showMessage)` makes for `error`. */
  function MakeErrorHandler(showMessage: bool, error: Thrown): (writes: seq<Write>)
    ensures |writes| == 2 && CountSends(writes) == 1 && CountStatus(writes) == 1
    ensures writes[0].Status? && writes[1].Json? && writes[1].payload.Envelope?
    ensures writes[1].payload.body.Failure?
    ensures error.Http? ==> writes[0].code == error.exception.status
    ensures error.Plain? ==> writes[0].code == 500
    ensures error.Http? ==>
              writes[1].payload.body.message ==
              Str(if showMessage then error.exception.message else error.exception.defaultMessage)
    ensures error.Plain? ==>
              writes[1].payload.body.message == (if showMessage then error.message else Str("Internal Server Error"))
  {
    var writes := [Status(ErrorStatus(error)), Json(Envelope(Failure(ErrorMessage(showMessage, error))))];
    assert writes[..1] == [writes[0]] && [writes[0]][..0] == [];
    assert CountStatus(writes[..1]) == 1 && CountSends(writes[..1]) == 0;
    writes
  }

  /** With messages hidden, the response never carries more than the status's safe default text. */
  lemma HiddenMessagesAreDefaults(error: Thrown)
    ensures ErrorMessage(false, error) ==
              Str(if error.Http? then error.exception.defaultMessage else "Internal Server Error")
  {
  }

  /**
   * A thrown value that is not an Error (a string, say) has no `message`: with messages
   * shown the failure envelope goes out without one, with them hidden it reads
   * "Internal Server Error".
   */
  lemma NonErrorThrown(show: bool)
    ensures MakeErrorHandler(show, Plain(Undefined)) ==
              [Status(500), Json(Envelope(Failure(if show then Undefined else Str("Internal Server Error"))))]
  {
    var ws := MakeErrorHandler(show, Plain(Undefined));
    assert ws == [ws[0], ws[1]];
  }

  /**
   * For an exception built from a subclass with no message, showing or hiding
   * messages makes no difference: both are the reason phrase of its status.
   */
  lemma SubclassDefaultsAgree(k: Kind, show: bool)
    ensures MakeErrorHandler(show, Http(New(k, None, None))) ==
              [Status(StatusOf(k)), Json(Envelope(Failure(Str(DefaultMessageOf(k)))))]
  {
  }
}
