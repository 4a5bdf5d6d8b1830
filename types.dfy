/**
 * The request/response surface the dispatcher works on, reduced to what it reads and
 * writes: the JSON values handlers and middleware produce, the per-request middleware
 * context, the two response envelopes, and a response modelled as the log of writes
 * made to it.
 */
module Types {
  import opened Wrappers

  /** A JSON-like value (`unknown` in the source); `Undefined` is dropped when serialised. */
  datatype Value =
    | Undefined
    | Null
    | Bool(b: bool)
    | Num(n: int)
    | Str(s: string)
    | Arr(items: seq<Value>)
    | Obj(fields: map<string, Value>)

  /** `req.middleware`: the flat key/value namespace middleware results are merged into. */
  type Context = map<string, Value>

  /** ApiResponse: the success envelope or the failure envelope. */
  datatype Body = Success(data: Value) | Failure(message: Value)

  /** What a `res.json` call serialises: one of the library's envelopes, or any value a handler sends itself. */
  datatype Payload = Envelope(body: Body) | Raw(value: Value)

  /** One call on the response object. */
  datatype Write =
    | Status(code: int)
    | Header(name: string, values: seq<string>)
    | Json(payload: Payload)
    | End

  /** `json` and `end` send the response; after either, `res.headersSent` is true. */
  predicate Sends(w: Write)
  {
    w.Json? || w.End?
  }

  predicate HeadersSent(writes: seq<Write>)
  {
    exists i | 0 <= i < |writes| :: Sends(writes[i])
  }

  /** How many of the writes send the response. */
  function CountSends(writes: seq<Write>): (n: nat)
    ensures n <= |writes|
    ensures n == 0 <==> !HeadersSent(writes)
  {
    if writes == [] then 0
    else CountSends(writes[..|writes| - 1]) + (if Sends(writes[|writes| - 1]) then 1 else 0)
  }

  lemma {:induction false} CountSendsAppend(a: seq<Write>, b: seq<Write>)
    ensures CountSends(a + b) == CountSends(a) + CountSends(b)
    decreases |b|
  {
    if b == [] {
      assert a + b == a;
    } else {
      assert (a + b)[..|a + b| - 1] == a + b[..|b| - 1];
      CountSendsAppend(a, b[..|b| - 1]);
    }
  }

  /** How many of the writes set the status code. */
  function CountStatus(writes: seq<Write>): nat
  {
    if writes == [] then 0
    else CountStatus(writes[..|writes| - 1]) + (if writes[|writes| - 1].Status? then 1 else 0)
  }

  /**
   * `req.method || 'GET'`, the method both builders dispatch on: an absent or empty
   * method is read as GET.
   */
  function EffectiveMethod(verb: Option<string>): (m: string)
    ensures verb.Some? && verb.value != "" ==> m == verb.value
    ensures verb.None? || verb.value == "" ==> m == "GET"
  {
    if verb.Some? && verb.value != "" then verb.value else "GET"
  }

  /** The incoming request: its (possibly absent) method and the `middleware` field the router resets and fills. */
  class Request {
    const verb: Option<string>
    var middleware: Context

    constructor (verb: Option<string>)
      ensures this.verb == verb && middleware == map[]
    {
      this.verb := verb;
      middleware := map[];
    }
  }

  /** The response object, observed as the sequence of writes made to it. */
  class Response {
    var writes: seq<Write>

    constructor ()
      ensures writes == []
    {
      writes := [];
    }

    /** `res.headersSent`. */
    predicate Sent()
      reads this
    {
      HeadersSent(writes)
    }

    method Write(w: Write)
      modifies this
      ensures writes == old(writes) + [w]
    {
      writes := writes + [w];
    }

    /** Replays the writes a handler made itself. */
    method WriteAll(ws: seq<Write>)
      modifies this
      ensures writes == old(writes) + ws
    {
      writes := writes + ws;
    }
  }
}
