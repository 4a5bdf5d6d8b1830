/**
 * The RouterBuilder of the older revision (src/lib/router-builder.ts): one flat parallel
 * list and one flat queue, a handler map keyed by the nine method names, a 405 whose
 * message prints the raw request method, no guard against a middleware that returns
 * nothing, and no `headersSent` check.
 */
module LegacyRouterBuilder {
  import opened Wrappers
  import opened Types
  import opened LegacyMethods
  import opened LegacyExceptions
  import opened Resolution
  import opened LegacyTable
  import T = Table
  import LEH = LegacyErrorHandler

  /** The TypeError `Object.keys` throws when a middleware returned undefined or null. */
  const TYPE_ERROR: string := "Cannot convert undefined or null to object"

  /** A middleware result as the older copy loop sees it: nothing to copy is a TypeError. */
  function Strict(r: MiddlewareResult<LegacyThrown>): (s: MiddlewareResult<LegacyThrown>)
    ensures r.Resolved? && r.value.None? ==> s == Rejected(Plain(Str(TYPE_ERROR)))
    ensures !(r.Resolved? && r.value.None?) ==> s == r
  {
    if r.Resolved? && r.value.None? then Rejected(Plain(Str(TYPE_ERROR))) else r
  }

  /** Each middleware followed by the unguarded copy of its result. */
  function StrictAll(ms: seq<LegacyTable.Middleware>): (r: seq<LegacyTable.Middleware>)
    ensures |r| == |ms|
    ensures forall i, c :: 0 <= i < |ms| ==> r[i](c) == Strict(ms[i](c))
  {
    seq(|ms|, i requires 0 <= i < |ms| => (c => Strict(ms[i](c))))
  }

  /** `${req.method}`: the raw method as a template literal prints it. */
  function RawText(verb: Option<string>): string
  {
    verb.GetOr("undefined")
  }

  /** The exception thrown when no handler is found: its message names the raw method. */
  function NotAllowed(verb: Option<string>): LegacyThrown
  {
    Http(New(MethodNotAllowed, Some("Method " + RawText(verb) + " Not Allowed")))
  }

  /** The Allow header value: `Object.keys(this.route)`. */
  function Names(ms: seq<LegacyMethod>): (r: seq<string>)
    ensures |r| == |ms| && forall i :: 0 <= i < |ms| ==> r[i] == Name(ms[i])
  {
    seq(|ms|, i requires 0 <= i < |ms| => Name(ms[i]))
  }

  datatype ErrorChoice = Custom(handler: LegacyThrown -> seq<Write>) | Made(showMessage: bool)

  /** RouterBuilderOptions of the older revision; the flag is spelt `shoeMessage` there. */
  datatype RouterBuilderOptions = RouterBuilderOptions(error: Option<LegacyThrown -> seq<Write>>, shoeMessage: Option<bool>)

  /** The constructor's choice: the supplied handler, else `makeErrorHandler` shown by flag or outside production. */
  function ApplyErrorHandler(options: RouterBuilderOptions, env: string): (c: ErrorChoice)
    ensures options.error.Some? ==> c == Custom(options.error.value)
    ensures options.error.None? && options.shoeMessage.Some? ==> c == Made(options.shoeMessage.value)
    ensures options.error.None? && options.shoeMessage.None? ==> c == Made(env != "production")
  {
    if options.error.Some? then Custom(options.error.value)
    else Made(options.shoeMessage.GetOr(env != "production"))
  }

  function RunErrorHandler(onError: ErrorChoice, error: LegacyThrown): seq<Write>
  {
    match onError
    case Custom(f) => f(error)
    case Made(show) => LEH.MakeErrorHandler(show, error)
  }

  /** What the builder's handler reads when a request arrives. */
  datatype BuilderState = BuilderState(
    routeOrder: seq<LegacyMethod>,
    route: map<LegacyMethod, Handler>,
    list: seq<LegacyTable.Middleware>,
    queue: seq<LegacyTable.Middleware>)

  /** The response's writes and `req.middleware` after one request. */
  datatype Outcome = Outcome(writes: seq<Write>, context: Context)

  /**
   * The middleware part of a request: the context starts empty, the parallel list is
   * called on it and settled in `schedule` order, then the queue runs in push order.
   */
  function Resolve(b: BuilderState, schedule: seq<nat>): (r: Phase<LegacyThrown>)
    requires IsSchedule(schedule, |b.list|)
    ensures r.error.None? ==> forall i :: 0 <= i < |b.list| ==> b.list[i](map[]).Resolved? && b.list[i](map[]).value.Some?
  {
    var p := Settle(Invoke(StrictAll(b.list), map[]), schedule, map[]);
    StrictListRejects(b.list, schedule);
    if p.error.Some? then p else RunQueue(StrictAll(b.queue), p.ctx)
  }

  /** A parallel entry that throws or returns nothing makes `Promise.all` reject, whatever the settle order. */
  lemma StrictListRejects(list: seq<LegacyTable.Middleware>, schedule: seq<nat>)
    requires IsSchedule(schedule, |list|)
    ensures (exists i :: 0 <= i < |list| && !(list[i](map[]).Resolved? && list[i](map[]).value.Some?)) ==>
              Settle(Invoke(StrictAll(list), map[]), schedule, map[]).error.Some?
  {
    var results := Invoke(StrictAll(list), map[]);
    SettleRejects(results, schedule, map[]);
    if i :| 0 <= i < |list| && !(list[i](map[]).Resolved? && list[i](map[]).value.Some?) {
      ScheduleCovers(schedule, |list|);
      assert i in schedule;
      var j :| 0 <= j < |schedule| && schedule[j] == i;
      assert results[schedule[j]].Rejected?;
    }
  }

  /**
   * One call of the handler `build()` returns: look the handler up; with none, set Allow
   * and throw the 405; otherwise reset the context, settle the parallel list on the empty
   * context in `schedule` order, run the queue, call the handler and write 200 with its
   * data. A throw anywhere goes to the error handler.
   */
  function Dispatch(b: BuilderState, onError: ErrorChoice, verb: Option<string>, ctx0: Context,
                    prior: seq<Write>, schedule: seq<nat>): (o: Outcome)
    requires IsSchedule(schedule, |b.list|)
    ensures |o.writes| >= |prior| && o.writes[..|prior|] == prior
  {
    var found := Parse(EffectiveMethod(verb));
    if found.None? || found.value !in b.route then
      var error := NotAllowed(verb);
      Outcome(prior + [Header("Allow", Names(b.routeOrder))] + RunErrorHandler(onError, error), ctx0)
    else
      var q := Resolve(b, schedule);
      if q.error.Some? then Outcome(prior + RunErrorHandler(onError, q.error.value), q.ctx)
      else match b.route[found.value](q.ctx)
        case Threw(e) => Outcome(prior + RunErrorHandler(onError, e), q.ctx)
        case Returned(data, direct) => Outcome(prior + direct + [Status(200), Json(Envelope(Success(data)))], q.ctx)
  }

  /**
   * With no method on the request and no GET handler, the older builder runs no
   * middleware and answers 405 naming the method "undefined"; with messages hidden the
   * body carries no message, since the older exceptions have no default message.
   */
  lemma UndefinedMethodNotAllowed(b: BuilderState, show: bool, ctx0: Context, prior: seq<Write>, schedule: seq<nat>)
    requires IsSchedule(schedule, |b.list|)
    requires GET !in b.route
    ensures var o := Dispatch(b, Made(show), None, ctx0, prior, schedule);
            && o.context == ctx0
            && o.writes == prior + [Header("Allow", Names(b.routeOrder)), Status(405),
                                    Json(Envelope(Failure(if show then Str("Method undefined Not Allowed") else Undefined)))]
  {
    assert Parse(EffectiveMethod(None)) == Some(GET);
    MissingHandlerIs405(b, Made(show), None, ctx0, prior, schedule);
    assert "Method " + RawText(None) + " Not Allowed" == "Method undefined Not Allowed";
  }

  /** The older error handler's answer to the 405: the status, then the message naming the raw method, or none when hidden. */
  lemma NotAllowedWrites(show: bool, verb: Option<string>)
    ensures LEH.MakeErrorHandler(show, NotAllowed(verb))
            == [Status(405), Json(Envelope(Failure(if show then Str("Method " + RawText(verb) + " Not Allowed") else Undefined)))]
  {
    var ws := LEH.MakeErrorHandler(show, NotAllowed(verb));
    assert ws == [ws[0], ws[1]];
    assert ws[1] == Json(Envelope(Failure(ws[1].payload.body.message)));
  }

  /**
   * A request whose method has no handler, a method outside the nine names included: no
   * middleware runs, `req.middleware` stays as it came, Allow lists the registered
   * methods, and the error handler is called once with the 405 naming the raw method.
   */
  lemma MissingHandlerIs405(b: BuilderState, onError: ErrorChoice, verb: Option<string>, ctx0: Context,
                            prior: seq<Write>, schedule: seq<nat>)
    requires IsSchedule(schedule, |b.list|)
    requires Parse(EffectiveMethod(verb)).None? || Parse(EffectiveMethod(verb)).value !in b.route
    ensures var o := Dispatch(b, onError, verb, ctx0, prior, schedule);
            && o.context == ctx0
            && o.writes == prior + [Header("Allow", Names(b.routeOrder))] + RunErrorHandler(onError, NotAllowed(verb))
    ensures onError.Made? ==>
              Dispatch(b, onError, verb, ctx0, prior, schedule).writes ==
                prior + [Header("Allow", Names(b.routeOrder)), Status(405),
                         Json(Envelope(Failure(if onError.showMessage then Str("Method " + RawText(verb) + " Not Allowed")
                                               else Undefined)))]
  {
    if onError.Made? {
      NotAllowedWrites(onError.showMessage, verb);
    }
  }

  /**
   * A request that finds its handler runs on the resolved context. A throw from the
   * parallel list or the queue, or from the handler, is handed to the error handler once,
   * with that error; otherwise the handler's own writes are followed by 200 and the
   * success envelope, whether or not the handler already sent the response.
   */
  lemma FoundHandlerOutcome(b: BuilderState, onError: ErrorChoice, verb: Option<string>, ctx0: Context,
                            prior: seq<Write>, schedule: seq<nat>)
    requires IsSchedule(schedule, |b.list|)
    requires Parse(EffectiveMethod(verb)).Some? && Parse(EffectiveMethod(verb)).value in b.route
    ensures var q := Resolve(b, schedule);
            var o := Dispatch(b, onError, verb, ctx0, prior, schedule);
            var result := b.route[Parse(EffectiveMethod(verb)).value](q.ctx);
            && o.context == q.ctx
            && (q.error.Some? ==> o.writes == prior + RunErrorHandler(onError, q.error.value))
            && (q.error.None? && result.Threw? ==> o.writes == prior + RunErrorHandler(onError, result.error))
            && (q.error.None? && result.Returned? ==>
                  o.writes == prior + result.direct + [Status(200), Json(Envelope(Success(result.data)))])
  {
  }

  /**
   * There is no `headersSent` check: a handler that already sent the response still gets
   * the 200 envelope written after its own writes, so the response is sent twice.
   */
  lemma {:induction false} SentResponseIsSentAgain(b: BuilderState, onError: ErrorChoice, verb: Option<string>,
                                                   ctx0: Context, prior: seq<Write>, schedule: seq<nat>)
    requires IsSchedule(schedule, |b.list|)
    requires var found := Parse(EffectiveMethod(verb));
             var q := Resolve(b, schedule);
             found.Some? && found.value in b.route &&
             q.error.None? && b.route[found.value](q.ctx).Returned? && HeadersSent(b.route[found.value](q.ctx).direct)
    ensures CountSends(Dispatch(b, onError, verb, ctx0, prior, schedule).writes) >= CountSends(prior) + 2
  {
    var found := Parse(EffectiveMethod(verb));
    var q := Resolve(b, schedule);
    var result := b.route[found.value](q.ctx);
    var envelope := [Status(200), Json(Envelope(Success(result.data)))];
    CountSendsAppend(prior, result.direct);
    CountSendsAppend(prior + result.direct, envelope);
    assert envelope[..1] == [Status(200)] && [Status(200)][..0] == [];
  }

  /**
   * A queued middleware that returns nothing: the current revision leaves the context as
   * it is and carries on, the older one stops with the TypeError of `Object.keys`.
   */
  lemma MissingResultAborts(mw: LegacyTable.Middleware, ctx: Context)
    requires mw(ctx) == Resolved(None)
    ensures RunQueue(StrictAll([mw]), ctx) == Phase(ctx, Some(Plain(Str(TYPE_ERROR))))
    ensures RunQueue([mw], ctx) == Phase(ctx, None)
  {
    assert StrictAll([mw])[..0] == [] && [mw][..0] == [];
  }

  /** Every request that finds a handler starts from an empty context, whatever `req.middleware` held. */
  lemma ContextResetPerRequest(b: BuilderState, onError: ErrorChoice, verb: Option<string>, c1: Context, c2: Context,
                               prior: seq<Write>, schedule: seq<nat>)
    requires IsSchedule(schedule, |b.list|)
    requires Parse(EffectiveMethod(verb)).Some? && Parse(EffectiveMethod(verb)).value in b.route
    ensures Dispatch(b, onError, verb, c1, prior, schedule) == Dispatch(b, onError, verb, c2, prior, schedule)
  {
  }

  class RouterBuilder {
    var routeOrder: seq<LegacyMethod>
    var route: map<LegacyMethod, Handler>
    var middlewareList: seq<LegacyTable.Middleware>
    var middlewareQueue: seq<LegacyTable.Middleware>
    const onError: ErrorChoice

    function State(): BuilderState
      reads this
    {
      BuilderState(routeOrder, route, middlewareList, middlewareQueue)
    }

    /** `routeOrder` is the key order of `route`. */
    ghost predicate Valid()
      reads this
    {
      T.Distinct(routeOrder) && forall m :: m in route <==> m in routeOrder
    }

    constructor (options: RouterBuilderOptions, env: string)
      ensures Valid()
      ensures routeOrder == [] && route == map[] && middlewareList == [] && middlewareQueue == []
      ensures onError == ApplyErrorHandler(options, env)
    {
      routeOrder := [];
      route := map[];
      middlewareList := [];
      middlewareQueue := [];
      onError := ApplyErrorHandler(options, env);
    }

    /** `add(method, handler)`: store or replace the method's handler; the builder is returned. */
    method Add(m: LegacyMethod, handler: Handler) returns (r: RouterBuilder)
      requires Valid()
      modifies this
      ensures Valid() && r == this
      ensures route == old(route)[m := handler]
      ensures routeOrder == if m in old(route) then old(routeOrder) else old(routeOrder) + [m]
      ensures middlewareList == old(middlewareList) && middlewareQueue == old(middlewareQueue)
    {
      if m !in route {
        routeOrder := routeOrder + [m];
      }
      route := route[m := handler];
      r := this;
    }

    method Get(handler: Handler) returns (r: RouterBuilder)
      requires Valid()
      modifies this
      ensures Valid() && r == this
      ensures route == old(route)[GET := handler]
      ensures routeOrder == if GET in old(route) then old(routeOrder) else old(routeOrder) + [GET]
      ensures middlewareList == old(middlewareList) && middlewareQueue == old(middlewareQueue)
    {
      r := Add(GET, handler);
    }

    method Head(handler: Handler) returns (r: RouterBuilder)
      requires Valid()
      modifies this
      ensures Valid() && r == this
      ensures route == old(route)[HEAD := handler]
      ensures routeOrder == if HEAD in old(route) then old(routeOrder) else old(routeOrder) + [HEAD]
      ensures middlewareList == old(middlewareList) && middlewareQueue == old(middlewareQueue)
    {
      r := Add(HEAD, handler);
    }

    method Patch(handler: Handler) returns (r: RouterBuilder)
      requires Valid()
      modifies this
      ensures Valid() && r == this
      ensures route == old(route)[PATCH := handler]
      ensures routeOrder == if PATCH in old(route) then old(routeOrder) else old(routeOrder) + [PATCH]
      ensures middlewareList == old(middlewareList) && middlewareQueue == old(middlewareQueue)
    {
      r := Add(PATCH, handler);
    }

    method Options(handler: Handler) returns (r: RouterBuilder)
      requires Valid()
      modifies this
      ensures Valid() && r == this
      ensures route == old(route)[OPTIONS := handler]
      ensures routeOrder == if OPTIONS in old(route) then old(routeOrder) else old(routeOrder) + [OPTIONS]
      ensures middlewareList == old(middlewareList) && middlewareQueue == old(middlewareQueue)
    {
      r := Add(OPTIONS, handler);
    }

    method Connect(handler: Handler) returns (r: RouterBuilder)
      requires Valid()
      modifies this
      ensures Valid() && r == this
      ensures route == old(route)[CONNECT := handler]
      ensures routeOrder == if CONNECT in old(route) then old(routeOrder) else old(routeOrder) + [CONNECT]
      ensures middlewareList == old(middlewareList) && middlewareQueue == old(middlewareQueue)
    {
      r := Add(CONNECT, handler);
    }

    method Delete(handler: Handler) returns (r: RouterBuilder)
      requires Valid()
      modifies this
      ensures Valid() && r == this
      ensures route == old(route)[DELETE := handler]
      ensures routeOrder == if DELETE in old(route) then old(routeOrder) else old(routeOrder) + [DELETE]
      ensures middlewareList == old(middlewareList) && middlewareQueue == old(middlewareQueue)
    {
      r := Add(DELETE, handler);
    }

    method Trace(handler: Handler) returns (r: RouterBuilder)
      requires Valid()
      modifies this
      ensures Valid() && r == this
      ensures route == old(route)[TRACE := handler]
      ensures routeOrder == if TRACE in old(route) then old(routeOrder) else old(routeOrder) + [TRACE]
      ensures middlewareList == old(middlewareList) && middlewareQueue == old(middlewareQueue)
    {
      r := Add(TRACE, handler);
    }

    method Post(handler: Handler) returns (r: RouterBuilder)
      requires Valid()
      modifies this
      ensures Valid() && r == this
      ensures route == old(route)[POST := handler]
      ensures routeOrder == if POST in old(route) then old(routeOrder) else old(routeOrder) + [POST]
      ensures middlewareList == old(middlewareList) && middlewareQueue == old(middlewareQueue)
    {
      r := Add(POST, handler);
    }

    method Put(handler: Handler) returns (r: RouterBuilder)
      requires Valid()
      modifies this
      ensures Valid() && r == this
      ensures route == old(route)[PUT := handler]
      ensures routeOrder == if PUT in old(route) then old(routeOrder) else old(routeOrder) + [PUT]
      ensures middlewareList == old(middlewareList) && middlewareQueue == old(middlewareQueue)
    {
      r := Add(PUT, handler);
    }

    /** `use`: push onto the queue. */
    method Use(middleware: LegacyTable.Middleware) returns (r: RouterBuilder)
      requires Valid()
      modifies this
      ensures Valid() && r == this
      ensures middlewareQueue == old(middlewareQueue) + [middleware]
      ensures middlewareList == old(middlewareList) && route == old(route) && routeOrder == old(routeOrder)
    {
      middlewareQueue := middlewareQueue + [middleware];
      r := this;
    }

    /** `inject`: push onto the parallel list. */
    method Inject(middleware: LegacyTable.Middleware) returns (r: RouterBuilder)
      requires Valid()
      modifies this
      ensures Valid() && r == this
      ensures middlewareList == old(middlewareList) + [middleware]
      ensures middlewareQueue == old(middlewareQueue) && route == old(route) && routeOrder == old(routeOrder)
    {
      middlewareList := middlewareList + [middleware];
      r := this;
    }

    /** `build()`: a handler bound to this builder, which reads its lists when each request arrives. */
    method Build() returns (h: BuiltHandler)
      ensures fresh(h) && h.builder == this
    {
      h := new BuiltHandler(this);
    }

    /** The middleware part of `build`: reset the context, then the parallel list if any, then the queue if any. */
    method ResolveMiddleware(req: Request, schedule: seq<nat>) returns (error: Option<LegacyThrown>)
      requires IsSchedule(schedule, |middlewareList|)
      modifies req
      ensures Phase(req.middleware, error) == Resolve(State(), schedule)
    {
      req.middleware := map[];
      error := None;
      if |middlewareList| > 0 {
        error := HandleMiddlewareList(req, schedule);
      } else {
        assert |multiset(schedule)| == 0;
      }
      if error.None? && |middlewareQueue| > 0 {
        error := HandleMiddlewareQueue(req);
      }
    }

    /** `handleMiddlewareList`: call every entry on the current context, then copy the results in settle order. */
    method HandleMiddlewareList(req: Request, schedule: seq<nat>) returns (error: Option<LegacyThrown>)
      requires IsSchedule(schedule, |middlewareList|)
      modifies req
      ensures Phase(req.middleware, error) == Settle(Invoke(StrictAll(middlewareList), old(req.middleware)), schedule, old(req.middleware))
    {
      var results := InvokeAll(StrictAll(middlewareList), req.middleware);
      error := SettleInto(results, schedule, req);
    }

    /** `handleMiddlewareQueue`: await each entry in push order and copy its result. */
    method HandleMiddlewareQueue(req: Request) returns (error: Option<LegacyThrown>)
      modifies req
      ensures Phase(req.middleware, error) == RunQueue(StrictAll(middlewareQueue), old(req.middleware))
    {
      error := ResolveQueue(StrictAll(middlewareQueue), req);
    }
  }

  /** The function `build()` returns; it keeps a reference to the builder, not a copy of its lists. */
  class BuiltHandler {
    const builder: RouterBuilder

    constructor (builder: RouterBuilder)
      ensures this.builder == builder
    {
      this.builder := builder;
    }

    method Handle(req: Request, res: Response, schedule: seq<nat>)
      requires IsSchedule(schedule, |builder.middlewareList|)
      modifies req, res
      ensures Outcome(res.writes, req.middleware) ==
                Dispatch(builder.State(), builder.onError, req.verb, old(req.middleware), old(res.writes), schedule)
    {
      var found := Parse(EffectiveMethod(req.verb));
      if found.None? || found.value !in builder.route {
        res.Write(Header("Allow", Names(builder.routeOrder)));
        res.WriteAll(RunErrorHandler(builder.onError, NotAllowed(req.verb)));
        return;
      }
      var handler := builder.route[found.value];
      var error := builder.ResolveMiddleware(req, schedule);
      if error.Some? {
        res.WriteAll(RunErrorHandler(builder.onError, error.value));
        return;
      }
      match handler(req.middleware) {
        case Threw(e) =>
          res.WriteAll(RunErrorHandler(builder.onError, e));
        case Returned(data, direct) =>
          res.WriteAll(direct);
          res.Write(Status(200));
          res.Write(Json(Envelope(Success(data))));
      }
    }
  }
}
