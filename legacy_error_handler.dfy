/** `makeErrorHandler(showMessage)` of the older revision (src/lib/error-handler.ts). */
module LegacyErrorHandler {
  import opened Wrappers
  import opened Types
  import opened LegacyExceptions

  /**
   * The message of the failure envelope. With messages hidden an HttpException exposes
   * its `defaultMessage`, which the older exceptions never set, so the message is
   * undefined and drops out of the JSON body.
   */
  function ErrorMessage(showMessage: bool, error: LegacyThrown): Value
  {
    match error
    case Http(e) =>
      if showMessage then Str(e.message)
      else if e.defaultMessage.Some? then Str(e.defaultMessage.value) else Undefined
    case Plain(m) => if showMessage then m else Str("Internal Server Error")
  }

  /** The writes of the older error handler for `error`: one status, then one failure envelope. */
  function MakeErrorHandler(showMessage: bool, error: LegacyThrown): (writes: seq<Write>)
    ensures |writes| == 2 && CountSends(writes) == 1 && CountStatus(writes) == 1
    ensures writes[0].Status? && writes[1].Json? && writes[1].payload.Envelope?
    ensures writes[1].payload.body.Failure?
    ensures error.Http? ==> writes[0].code == error.exception.status
    ensures error.Plain? ==> writes[0].code == 500
    ensures error.Http? && showMessage ==> writes[1].payload.body.message == Str(error.exception.message)
    ensures error.Http? && !showMessage && error.exception.defaultMessage.None? ==>
              writes[1].payload.body.message == Undefined
    ensures error.Http? && !showMessage && error.exception.defaultMessage.Some? ==>
              writes[1].payload.body.message == Str(error.exception.defaultMessage.value)
    ensures error.Plain? ==>
              writes[1].payload.body.message == (if showMessage then error.message else Str("Internal Server Error"))
  {
    var status := if error.Http? then error.exception.status else 500;
    var writes := [Status(status), Json(Envelope(Failure(ErrorMessage(showMessage, error))))];
    assert writes[..1] == [writes[0]] && [writes[0]][..0] == [];
    assert CountStatus(writes[..1]) == 1 && CountSends(writes[..1]) == 0;
    writes
  }

  /** With messages hidden, an exception built by the older constructors is answered with no message at all. */
  lemma HiddenMessageOfLegacyException(k: Kind, message: Option<string>)
    ensures MakeErrorHandler(false, Http(New(k, message))) ==
              [Status(StatusOf(k)), Json(Envelope(Failure(Undefined)))]
  {
    var ws := MakeErrorHandler(false, Http(New(k, message)));
    assert ws == [ws[0], ws[1]];
  }
}
