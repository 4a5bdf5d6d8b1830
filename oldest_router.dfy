/**
 * The oldest RouterBuilder (src/lib/router.ts): a handler per method and nothing else.
 * The method is looked up exactly as given, a miss is answered 405 on the spot, and every
 * throw becomes a 500 carrying the error's own message.
 */
module OldestRouter {
  import opened Wrappers
  import opened Types
  import opened LegacyMethods

  /** What awaiting a handler gives: its data and its own writes, or a throw with the thrown value's `message`. */
  datatype HandlerResult = Returned(data: Value, direct: seq<Write>) | Threw(message: Option<string>)

  /** A route handler, observed through the request method it is called for. */
  type Handler = Option<string> -> HandlerResult

  /** `${req.method}` and `this.route[req.method as string]` read an absent method as "undefined". */
  function RawText(verb: Option<string>): string
  {
    verb.GetOr("undefined")
  }

  /** The handler registered under the request's method string, if any. */
  function Lookup(route: map<LegacyMethod, Handler>, verb: Option<string>): Option<Handler>
  {
    var m := Parse(RawText(verb));
    if m.Some? && m.value in route then Some(route[m.value]) else None
  }

  /**
   * The writes of one request served by the handler `build()` returns: every answer ends
   * with a status and an envelope, and the envelope is a success exactly when a handler
   * was found and returned.
   */
  function Respond(route: map<LegacyMethod, Handler>, verb: Option<string>): (ws: seq<Write>)
    ensures |ws| >= 2 && ws[|ws| - 2].Status? && ws[|ws| - 1].Json? && ws[|ws| - 1].payload.Envelope?
    ensures ws[|ws| - 1].payload.body.Success? <==> Lookup(route, verb).Some? && Lookup(route, verb).value(verb).Returned?
  {
    match Lookup(route, verb)
    case None => [Status(405), Json(Envelope(Failure(Str("Method " + RawText(verb) + " Not Allowed"))))]
    case Some(handler) =>
      match handler(verb)
      case Returned(data, direct) => direct + [Status(200), Json(Envelope(Success(data)))]
      case Threw(message) =>
        [Status(500), Json(Envelope(Failure(if message.Some? then Str(message.value) else Undefined)))]
  }

  class RouterBuilder {
    var route: map<LegacyMethod, Handler>

    constructor ()
      ensures route == map[]
    {
      route := map[];
    }

    /** `add(method, handler)`: store or replace the method's handler; the builder is returned. */
    method Add(m: LegacyMethod, handler: Handler) returns (r: RouterBuilder)
      modifies this
      ensures r == this && route == old(route)[m := handler]
    {
      route := route[m := handler];
      r := this;
    }

    method Get(handler: Handler) returns (r: RouterBuilder)
      modifies this
      ensures r == this && route == old(route)[GET := handler]
    {
      r := Add(GET, handler);
    }

    method Head(handler: Handler) returns (r: RouterBuilder)
      modifies this
      ensures r == this && route == old(route)[HEAD := handler]
    {
      r := Add(HEAD, handler);
    }

    method Patch(handler: Handler) returns (r: RouterBuilder)
      modifies this
      ensures r == this && route == old(route)[PATCH := handler]
    {
      r := Add(PATCH, handler);
    }

    method Options(handler: Handler) returns (r: RouterBuilder)
      modifies this
      ensures r == this && route == old(route)[OPTIONS := handler]
    {
      r := Add(OPTIONS, handler);
    }

    method Connect(handler: Handler) returns (r: RouterBuilder)
      modifies this
      ensures r == this && route == old(route)[CONNECT := handler]
    {
      r := Add(CONNECT, handler);
    }

    method Delete(handler: Handler) returns (r: RouterBuilder)
      modifies this
      ensures r == this && route == old(route)[DELETE := handler]
    {
      r := Add(DELETE, handler);
    }

    method Trace(handler: Handler) returns (r: RouterBuilder)
      modifies this
      ensures r == this && route == old(route)[TRACE := handler]
    {
      r := Add(TRACE, handler);
    }

    method Post(handler: Handler) returns (r: RouterBuilder)
      modifies this
      ensures r == this && route == old(route)[POST := handler]
    {
      r := Add(POST, handler);
    }

    method Put(handler: Handler) returns (r: RouterBuilder)
      modifies this
      ensures r == this && route == old(route)[PUT := handler]
    {
      r := Add(PUT, handler);
    }

    /** The handler `build()` returns, applied to a request: it reads the route map as it stands then. */
    function Built(verb: Option<string>): (ws: seq<Write>)
      reads this
      ensures ws == Respond(route, verb)
    {
      Respond(route, verb)
    }
  }

  /**
   * There is no GET default: a request without a method is never dispatched, whatever is
   * registered, and is answered 405 naming the method "undefined".
   */
  lemma NoGetDefault(route: map<LegacyMethod, Handler>)
    ensures Lookup(route, None).None?
    ensures Respond(route, None) == [Status(405), Json(Envelope(Failure(Str("Method undefined Not Allowed"))))]
  {
    assert Parse(RawText(None)).None?;
    assert "Method " + RawText(None) + " Not Allowed" == "Method undefined Not Allowed";
  }

  /**
   * A request is dispatched exactly when its method is one of the nine names and has a
   * handler; otherwise the response is the 405 envelope alone, with no Allow header.
   */
  lemma DispatchExactlyRegistered(route: map<LegacyMethod, Handler>, m: LegacyMethod, verb: Option<string>)
    ensures Lookup(route, Some(Name(m))).Some? <==> m in route
    ensures Lookup(route, verb).None? ==>
              && |Respond(route, verb)| == 2
              && Respond(route, verb)[0] == Status(405)
              && forall i :: 0 <= i < 2 ==> !Respond(route, verb)[i].Header?
    ensures Lookup(route, verb).None? ==>
              Respond(route, verb) == [Status(405), Json(Envelope(Failure(Str("Method " + RawText(verb) + " Not Allowed"))))]
  {
    ParseName(m);
  }

  /** A handler that returns gets its own writes followed by 200 and the success envelope with its data. */
  lemma ReturnIs200(route: map<LegacyMethod, Handler>, verb: Option<string>)
    requires Lookup(route, verb).Some? && Lookup(route, verb).value(verb).Returned?
    ensures var result := Lookup(route, verb).value(verb);
            Respond(route, verb) == result.direct + [Status(200), Json(Envelope(Success(result.data)))]
  {
  }

  /** Every throw is answered 500 with the thrown value's message; no status is taken from the error. */
  lemma EveryThrowIs500(route: map<LegacyMethod, Handler>, verb: Option<string>)
    requires Lookup(route, verb).Some? && Lookup(route, verb).value(verb).Threw?
    ensures var message := Lookup(route, verb).value(verb).message;
            Respond(route, verb) ==
              [Status(500), Json(Envelope(Failure(if message.Some? then Str(message.value) else Undefined)))]
  {
  }

  /** A handler that does not send the response itself gets exactly one response sent for it; so does a miss. */
  lemma {:induction false} ExactlyOneResponse(route: map<LegacyMethod, Handler>, verb: Option<string>)
    requires Lookup(route, verb).Some? && Lookup(route, verb).value(verb).Returned? ==>
               !HeadersSent(Lookup(route, verb).value(verb).direct)
    ensures CountSends(Respond(route, verb)) == 1
  {
    var ws := Respond(route, verb);
    match Lookup(route, verb)
    case None =>
      assert ws[..1] == [ws[0]] && [ws[0]][..0] == [];
    case Some(handler) =>
      match handler(verb)
      case Returned(data, direct) =>
        var envelope := [Status(200), Json(Envelope(Success(data)))];
        CountSendsAppend(direct, envelope);
        assert envelope[..1] == [Status(200)] && [Status(200)][..0] == [];
      case Threw(message) =>
        assert ws[..1] == [ws[0]] && [ws[0]][..0] == [];
  }
}
