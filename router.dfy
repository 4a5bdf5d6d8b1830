/**
 * The RouterBuilder of the current revision (router-builder.ts): the per-request pass of
 * the handler `build()` returns, the middleware resolution it runs, the error-handler
 * choice and the log severities. The registration table it extends is module Table.
 */
module Router {
  import opened Wrappers
  import opened Types
  import opened Methods
  import opened Exceptions
  import opened Resolution
  import opened Table
  import L = Logger
  import EH = ErrorHandler

  /** `map[method]` when it holds a list, and no middleware otherwise. */
  function Bucket(m: map<MiddlewareKey, seq<Table.Middleware>>, verb: string): seq<Table.Middleware>
  {
    match KeyOf(verb)
    case Some(k) => if k in m then m[k] else []
    case None => []
  }

  predicate HasBucket(m: map<MiddlewareKey, seq<Table.Middleware>>, verb: string)
  {
    KeyOf(verb).Some? && KeyOf(verb).value in m
  }

  /** The promises `Promise.all` waits for: the 'ALL' parallel entries, then the method's. */
  function ParallelList(t: TableState, verb: string): seq<Table.Middleware>
  {
    Bucket(t.parallel, ALL) + Bucket(t.parallel, verb)
  }

  /** The handler events that `logHandler` and the resolve helpers report to the logger. */
  datatype Event =
    | Initiated
    | ResolvedList(count: nat, key: string)
    | ResolvedQueue(count: nat, key: string)
    | Skipped
    | AlreadySent
    | Succeeded
    | Caught(error: Thrown)

  /** The logger method each event is reported through. */
  function Severity(e: Event): (l: L.Level)
    ensures l != L.Silent
    ensures l == L.Debug <==> e.Initiated? || e.ResolvedList? || e.ResolvedQueue? || e.Skipped?
    ensures l == L.Info <==> e.Succeeded?
    ensures l == L.Warn <==> e.AlreadySent? || (e.Caught? && e.error.Http? && e.error.exception.status < 500)
    ensures l == L.Error <==> e.Caught? && (e.error.Plain? || e.error.exception.status >= 500)
  {
    match e
    case Initiated => L.Debug
    case ResolvedList(_, _) => L.Debug
    case ResolvedQueue(_, _) => L.Debug
    case Skipped => L.Debug
    case AlreadySent => L.Warn
    case Succeeded => L.Info
    case Caught(Http(x)) => if x.status < 500 then L.Warn else L.Error
    case Caught(Plain(_)) => L.Error
  }

  /** The error handler a builder keeps: the user's own, observed through what it writes, or `makeErrorHandler(showMessage)`. */
  datatype ErrorChoice = Custom(handler: Thrown -> seq<Write>) | Made(showMessage: bool)

  /** The logger a builder keeps: a user-supplied ApiLogger, or a DefaultApiLogger. */
  datatype LoggerChoice = CustomLogger | Default(logger: L.DefaultApiLogger)

  /** RouterBuilderOptions; `logger` records only whether one is supplied. */
  datatype RouterBuilderOptions = RouterBuilderOptions(
    error: Option<Thrown -> seq<Write>>,
    showMessage: Option<bool>,
    logger: bool,
    loggerOption: L.LoggerOption)

  /**
   * `applyErrorHandler`: the supplied handler wins; otherwise messages are shown when
   * `showMessage` says so, and by default everywhere except in production.
   */
  function ApplyErrorHandler(options: RouterBuilderOptions, env: string): (c: ErrorChoice)
    ensures options.error.Some? ==> c == Custom(options.error.value)
    ensures options.error.None? && options.showMessage.Some? ==> c == Made(options.showMessage.value)
    ensures options.error.None? && options.showMessage.None? ==> c == Made(env != "production")
  {
    if options.error.Some? then Custom(options.error.value)
    else Made(options.showMessage.GetOr(env != "production"))
  }

  /** `options.logger || new DefaultApiLogger(options.loggerOption)`. */
  function ChooseLogger(options: RouterBuilderOptions, env: string): (c: LoggerChoice)
    ensures options.logger <==> c.CustomLogger?
    ensures !options.logger ==> c.logger == L.NewLogger(options.loggerOption, env)
  {
    if options.logger then CustomLogger else Default(L.NewLogger(options.loggerOption, env))
  }

  /** The writes the chosen error handler makes for a caught error. */
  function RunErrorHandler(onError: ErrorChoice, error: Thrown): seq<Write>
  {
    match onError
    case Custom(f) => f(error)
    case Made(show) => EH.MakeErrorHandler(show, error)
  }

  /** The "Resolved n <method> middleware list/queue" event, logged only when that bucket holds a list. */
  function ListEvent(t: TableState, verb: string): seq<Event>
  {
    if HasBucket(t.parallel, verb) then [ResolvedList(|Bucket(t.parallel, verb)|, verb)] else []
  }

  function QueueEvent(t: TableState, verb: string): seq<Event>
  {
    if HasBucket(t.queue, verb) then [ResolvedQueue(|Bucket(t.queue, verb)|, verb)] else []
  }

  /** The outcome of `resolveMiddlewareListAndQueue`: the context and error reached, and the events logged. */
  datatype Resolving = Resolving(phase: Phase<Thrown>, events: seq<Event>)

  /**
   * `resolveMiddlewareListAndQueue`: the context starts empty; every parallel entry is
   * called on that empty context and the results are merged in settle order; then the
   * 'ALL' queue and then the method's queue run in order. The first throw ends it.
   */
  function ResolveMiddleware(t: TableState, verb: string, schedule: seq<nat>): (r: Resolving)
    requires IsSchedule(schedule, |ParallelList(t, verb)|)
    ensures r.phase.error.None? ==> forall i :: 0 <= i < |ParallelList(t, verb)| ==> ParallelList(t, verb)[i](map[]).Resolved?
  {
    var listEvents := ListEvent(t, ALL) + ListEvent(t, verb);
    var p := Settle(Invoke(ParallelList(t, verb), map[]), schedule, map[]);
    SettleNeedsAllResolved(ParallelList(t, verb), schedule, map[], map[]);
    if p.error.Some? then Resolving(p, listEvents)
    else
      var q := RunQueue(Bucket(t.queue, ALL), p.ctx);
      if q.error.Some? then Resolving(q, listEvents + QueueEvent(t, ALL))
      else Resolving(RunQueue(Bucket(t.queue, verb), q.ctx), listEvents + QueueEvent(t, ALL) + QueueEvent(t, verb))
  }

  /** The Allow header value: `Object.keys(routeHandlerMap)`. */
  function Names(ms: seq<RouterMethod>): (r: seq<string>)
    ensures |r| == |ms| && forall i :: 0 <= i < |ms| ==> r[i] == Name(ms[i])
  {
    seq(|ms|, i requires 0 <= i < |ms| => Name(ms[i]))
  }

  /** The exception thrown for a supported method with no handler. */
  function NotAllowed(verb: string): Thrown
  {
    Http(New(MethodNotAllowed, Some("Method " + verb + " Not Allowed"), None))
  }

  /** What one request leaves behind: the response's writes, `req.middleware`, and the logged events. */
  datatype Outcome = Outcome(writes: seq<Write>, context: Context, events: seq<Event>)

  /** The catch block: log the error, then hand it to the error handler once. */
  function Fail(onError: ErrorChoice, error: Thrown, writes: seq<Write>, ctx: Context, events: seq<Event>): (o: Outcome)
    ensures o.events == events + [Caught(error)]
  {
    Outcome(writes + RunErrorHandler(onError, error), ctx, events + [Caught(error)])
  }

  /**
   * One call of the handler `build()` returns, on the table as it stands when the request
   * arrives. `ctx0` is `req.middleware` on entry, `prior` the writes already on the
   * response, and `schedule` the order in which the parallel promises settle.
   */
  function Dispatch(t: TableState, onError: ErrorChoice, verb: Option<string>, ctx0: Context,
                    prior: seq<Write>, schedule: seq<nat>): (o: Outcome)
    requires IsSchedule(schedule, |ParallelList(t, EffectiveMethod(verb))|)
    ensures |o.events| >= 2 && o.events[0] == Initiated
  {
    var m := EffectiveMethod(verb);
    match Parse(m)
    case None => Skip(onError, ResolveMiddleware(t, m, schedule), prior)
    case Some(rm) =>
      if rm !in t.handlers then
        Fail(onError, NotAllowed(m), prior + [Header("Allow", Names(t.handlerOrder))], ctx0, [Initiated])
      else Serve(onError, t.handlers[rm], ResolveMiddleware(t, m, schedule), prior)
  }

  /** An unsupported method once middleware has run: end the response, or handle the middleware's throw. */
  function Skip(onError: ErrorChoice, r: Resolving, prior: seq<Write>): (o: Outcome)
    ensures |o.events| >= 2 && o.events[0] == Initiated
    ensures var last := o.events[|o.events| - 1]; last.Skipped? || last.Caught?
  {
    if r.phase.error.Some? then Fail(onError, r.phase.error.value, prior, r.phase.ctx, [Initiated] + r.events)
    else Outcome(prior + [End], r.phase.ctx, [Initiated] + r.events + [Skipped])
  }

  /**
   * A supported method with a handler once middleware has run: call the handler on the
   * context; unless the response was already sent, write 200 with the success envelope.
   */
  function Serve(onError: ErrorChoice, handler: Handler, r: Resolving, prior: seq<Write>): (o: Outcome)
    ensures |o.events| >= 2 && o.events[0] == Initiated
    ensures var last := o.events[|o.events| - 1]; last.AlreadySent? || last.Succeeded? || last.Caught?
  {
    if r.phase.error.Some? then Fail(onError, r.phase.error.value, prior, r.phase.ctx, [Initiated] + r.events)
    else match handler(r.phase.ctx)
      case Threw(e) => Fail(onError, e, prior, r.phase.ctx, [Initiated] + r.events)
      case Returned(data, direct) =>
        if HeadersSent(prior + direct) then
          Outcome(prior + direct, r.phase.ctx, [Initiated] + r.events + [AlreadySent])
        else
          Outcome(prior + direct + [Status(200), Json(Envelope(Success(data)))], r.phase.ctx,
                  [Initiated] + r.events + [Succeeded])
  }

  /**
   * Every request's log opens with the "initiated" event and closes with exactly one of
   * the four ends `logHandler` reports: skipped, already sent, succeeded, or an error caught.
   */
  lemma LogBracketed(t: TableState, onError: ErrorChoice, verb: Option<string>, ctx0: Context,
                     prior: seq<Write>, schedule: seq<nat>)
    requires IsSchedule(schedule, |ParallelList(t, EffectiveMethod(verb))|)
    ensures var o := Dispatch(t, onError, verb, ctx0, prior, schedule);
            var last := o.events[|o.events| - 1];
            && o.events[0] == Initiated
            && (last.Skipped? || last.AlreadySent? || last.Succeeded? || last.Caught?)
  {
    var m := EffectiveMethod(verb);
    match Parse(m)
    case None =>
    case Some(rm) =>
  }

  /** Every handler registered in the table leaves the response unsent when it returns. */
  ghost predicate HandlersDoNotSend(t: TableState)
  {
    forall rm, c :: rm in t.handlers && t.handlers[rm](c).Returned? ==> !HeadersSent(t.handlers[rm](c).direct)
  }

  /**
   * A method outside GET/PATCH/DELETE/POST/PUT never reaches a handler: the handler map
   * and its key order make no difference, and once middleware has run the response is
   * ended with no body.
   */
  lemma UnsupportedMethodSkips(t: TableState, onError: ErrorChoice, verb: Option<string>, ctx0: Context,
                               prior: seq<Write>, schedule: seq<nat>,
                               order: seq<RouterMethod>, handlers: map<RouterMethod, Handler>)
    requires !IsSupported(EffectiveMethod(verb))
    requires IsSchedule(schedule, |ParallelList(t, EffectiveMethod(verb))|)
    ensures var t2 := TableState(t.parallel, t.queue, order, handlers);
            Dispatch(t, onError, verb, ctx0, prior, schedule) == Dispatch(t2, onError, verb, ctx0, prior, schedule)
    ensures var r := ResolveMiddleware(t, EffectiveMethod(verb), schedule);
            var o := Dispatch(t, onError, verb, ctx0, prior, schedule);
            r.phase.error.None? ==> o.writes == prior + [End] && o.context == r.phase.ctx
  {
    ParseMatchesSupported(EffectiveMethod(verb));
  }

  /**
   * A supported method with no handler runs no middleware and leaves `req.middleware` as
   * it was: it sets Allow to the registered methods and hands the MethodNotAllowedException
   * to the error handler once; the default error handler turns it into a 405.
   */
  lemma MissingHandlerIs405(t: TableState, onError: ErrorChoice, verb: Option<string>, ctx0: Context,
                            prior: seq<Write>, schedule: seq<nat>)
    requires IsSchedule(schedule, |ParallelList(t, EffectiveMethod(verb))|)
    requires Parse(EffectiveMethod(verb)).Some? && Parse(EffectiveMethod(verb)).value !in t.handlers
    ensures var m := EffectiveMethod(verb);
            var o := Dispatch(t, onError, verb, ctx0, prior, schedule);
            && o.context == ctx0
            && o.events == [Initiated, Caught(NotAllowed(m))]
            && o.writes == prior + [Header("Allow", Names(t.handlerOrder))] + RunErrorHandler(onError, NotAllowed(m))
    ensures onError.Made? ==>
              var m := EffectiveMethod(verb);
              Dispatch(t, onError, verb, ctx0, prior, schedule).writes
                == prior + [Header("Allow", Names(t.handlerOrder)), Status(405),
                            Json(Envelope(Failure(Str(if onError.showMessage then "Method " + m + " Not Allowed"
                                                      else "Method Not Allowed"))))]
  {
    if onError.Made? {
      var m := EffectiveMethod(verb);
      var ws := EH.MakeErrorHandler(onError.showMessage, NotAllowed(m));
      assert ws == [ws[0], ws[1]];
      assert ws[1] == Json(Envelope(Failure(ws[1].payload.body.message)));
    }
  }

  /**
   * A throw from the parallel list or from a queued middleware, on a request that gets past
   * the handler lookup, is logged and handed to the error handler exactly once: the writes
   * are the error handler's after the earlier ones, and `req.middleware` is the context
   * resolution reached.
   */
  lemma MiddlewareThrowCaught(t: TableState, onError: ErrorChoice, verb: Option<string>, ctx0: Context,
                              prior: seq<Write>, schedule: seq<nat>)
    requires IsSchedule(schedule, |ParallelList(t, EffectiveMethod(verb))|)
    requires Parse(EffectiveMethod(verb)).None? || Parse(EffectiveMethod(verb)).value in t.handlers
    requires ResolveMiddleware(t, EffectiveMethod(verb), schedule).phase.error.Some?
    ensures var r := ResolveMiddleware(t, EffectiveMethod(verb), schedule);
            var e := r.phase.error.value;
            var o := Dispatch(t, onError, verb, ctx0, prior, schedule);
            && o.writes == prior + RunErrorHandler(onError, e)
            && o.context == r.phase.ctx
            && o.events == [Initiated] + r.events + [Caught(e)]
  {
  }

  /** The Allow list of a well-formed table names each registered method exactly once, and nothing else. */
  lemma AllowListsRegistered(t: TableState)
    requires WellFormed(t)
    ensures Distinct(Names(t.handlerOrder))
    ensures forall rm :: rm in t.handlers <==> Name(rm) in Names(t.handlerOrder)
  {
    var names := Names(t.handlerOrder);
    forall i, j | 0 <= i < j < |names| ensures names[i] != names[j] {
      NameInjective(t.handlerOrder[i], t.handlerOrder[j]);
    }
    forall rm ensures rm in t.handlers <==> Name(rm) in names {
      if Name(rm) in names {
        var i :| 0 <= i < |names| && names[i] == Name(rm);
        NameInjective(t.handlerOrder[i], rm);
      }
      if rm in t.handlers {
        var i :| 0 <= i < |t.handlerOrder| && t.handlerOrder[i] == rm;
        assert names[i] == Name(rm);
      }
    }
  }

  /**
   * Middleware runs in three stages: the parallel entries of 'ALL' and of the method,
   * all on an empty context; then the 'ALL' queue followed by the method's queue, as one
   * queue in registration order.
   */
  lemma {:induction false} ResolutionOrder(t: TableState, verb: string, schedule: seq<nat>)
    requires IsSchedule(schedule, |ParallelList(t, verb)|)
    ensures var p := Settle(Invoke(ParallelList(t, verb), map[]), schedule, map[]);
            var r := ResolveMiddleware(t, verb, schedule);
            r.phase == if p.error.Some? then p else RunQueue(Bucket(t.queue, ALL) + Bucket(t.queue, verb), p.ctx)
  {
    var p := Settle(Invoke(ParallelList(t, verb), map[]), schedule, map[]);
    RunQueueAppend(Bucket(t.queue, ALL), Bucket(t.queue, verb), p.ctx);
  }

  /** Two tables that agree on the 'ALL' buckets, the method's buckets and the handlers dispatch that method alike. */
  ghost predicate AgreeOn(t1: TableState, t2: TableState, verb: string)
  {
    && Bucket(t1.parallel, ALL) == Bucket(t2.parallel, ALL) && Bucket(t1.queue, ALL) == Bucket(t2.queue, ALL)
    && Bucket(t1.parallel, verb) == Bucket(t2.parallel, verb) && Bucket(t1.queue, verb) == Bucket(t2.queue, verb)
    && HasBucket(t1.parallel, ALL) == HasBucket(t2.parallel, ALL) && HasBucket(t1.queue, ALL) == HasBucket(t2.queue, ALL)
    && HasBucket(t1.parallel, verb) == HasBucket(t2.parallel, verb) && HasBucket(t1.queue, verb) == HasBucket(t2.queue, verb)
    && t1.handlers == t2.handlers && t1.handlerOrder == t2.handlerOrder
  }

  lemma AgreeingTablesDispatchAlike(t1: TableState, t2: TableState, onError: ErrorChoice, verb: Option<string>,
                                    ctx0: Context, prior: seq<Write>, schedule: seq<nat>)
    requires AgreeOn(t1, t2, EffectiveMethod(verb))
    requires IsSchedule(schedule, |ParallelList(t1, EffectiveMethod(verb))|)
    ensures IsSchedule(schedule, |ParallelList(t2, EffectiveMethod(verb))|)
    ensures Dispatch(t1, onError, verb, ctx0, prior, schedule) == Dispatch(t2, onError, verb, ctx0, prior, schedule)
  {
    var m := EffectiveMethod(verb);
    assert ParallelList(t1, m) == ParallelList(t2, m);
    assert ResolveMiddleware(t1, m, schedule) == ResolveMiddleware(t2, m, schedule);
  }

  /**
   * Middleware registered for another method is invisible to this request: adding it to
   * either map changes nothing in the request's outcome.
   */
  lemma OtherMethodMiddlewareIgnored(t: TableState, onError: ErrorChoice, verb: Option<string>, ctx0: Context,
                                     prior: seq<Write>, schedule: seq<nat>, other: RouterMethod,
                                     mw: Table.Middleware, parallel: bool)
    requires KeyOf(EffectiveMethod(verb)) != Some(Only(other))
    requires IsSchedule(schedule, |ParallelList(t, EffectiveMethod(verb))|)
    ensures var t2 := if parallel then TableState(AddOrSet(t.parallel, Only(other), mw), t.queue, t.handlerOrder, t.handlers)
                      else TableState(t.parallel, AddOrSet(t.queue, Only(other), mw), t.handlerOrder, t.handlers);
            && IsSchedule(schedule, |ParallelList(t2, EffectiveMethod(verb))|)
            && Dispatch(t2, onError, verb, ctx0, prior, schedule) == Dispatch(t, onError, verb, ctx0, prior, schedule)
  {
    var t2 := if parallel then TableState(AddOrSet(t.parallel, Only(other), mw), t.queue, t.handlerOrder, t.handlers)
              else TableState(t.parallel, AddOrSet(t.queue, Only(other), mw), t.handlerOrder, t.handlers);
    assert AgreeOn(t, t2, EffectiveMethod(verb));
    AgreeingTablesDispatchAlike(t, t2, onError, verb, ctx0, prior, schedule);
  }

  /**
   * When the parallel entries return disjoint keys and none of them throws, the order in
   * which their promises settle does not change the request's outcome.
   */
  lemma ParallelOrderIrrelevant(t: TableState, onError: ErrorChoice, verb: Option<string>, ctx0: Context,
                                prior: seq<Write>, s1: seq<nat>, s2: seq<nat>)
    requires var list := ParallelList(t, EffectiveMethod(verb));
             IsSchedule(s1, |list|) && IsSchedule(s2, |list|)
    requires DisjointKeys(Invoke(ParallelList(t, EffectiveMethod(verb)), map[]))
    requires forall i :: 0 <= i < |ParallelList(t, EffectiveMethod(verb))| ==> ParallelList(t, EffectiveMethod(verb))[i](map[]).Resolved?
    ensures Dispatch(t, onError, verb, ctx0, prior, s1) == Dispatch(t, onError, verb, ctx0, prior, s2)
  {
    var results := Invoke(ParallelList(t, EffectiveMethod(verb)), map[]);
    SettleOrderIndependent(results, s1, s2, map[]);
    SettleRejects(results, s1, map[]);
    SettleRejects(results, s2, map[]);
  }

  /** The default error handler sends once after writes that sent nothing. */
  lemma {:induction false} FailSendsOnce(show: bool, error: Thrown, writes: seq<Write>)
    requires !HeadersSent(writes)
    ensures CountSends(writes + EH.MakeErrorHandler(show, error)) == 1
  {
    CountSendsAppend(writes, EH.MakeErrorHandler(show, error));
  }

  /** The success path sends once after writes that sent nothing. */
  lemma {:induction false} SuccessSendsOnce(data: Value, writes: seq<Write>)
    requires !HeadersSent(writes)
    ensures CountSends(writes + [Status(200), Json(Envelope(Success(data)))]) == 1
  {
    var envelope := [Status(200), Json(Envelope(Success(data)))];
    CountSendsAppend(writes, envelope);
    assert envelope[..1] == [Status(200)] && [Status(200)][..0] == [];
  }

  /**
   * With the default error handler and handlers that do not send the response
   * themselves, every request sends exactly one response: the envelope, the error
   * response, or the bare end of an unsupported method.
   */
  lemma {:induction false} ExactlyOneResponse(t: TableState, show: bool, verb: Option<string>, ctx0: Context,
                                              prior: seq<Write>, schedule: seq<nat>)
    requires IsSchedule(schedule, |ParallelList(t, EffectiveMethod(verb))|)
    requires !HeadersSent(prior)
    requires HandlersDoNotSend(t)
    ensures CountSends(Dispatch(t, Made(show), verb, ctx0, prior, schedule).writes) == 1
  {
    var m := EffectiveMethod(verb);
    match Parse(m)
    case None =>
      SkipSendsOnce(show, ResolveMiddleware(t, m, schedule), prior);
    case Some(rm) =>
      if rm !in t.handlers {
        var allow := [Header("Allow", Names(t.handlerOrder))];
        assert allow[..0] == [];
        CountSendsAppend(prior, allow);
        FailSendsOnce(show, NotAllowed(m), prior + allow);
      } else {
        ServeSendsOnce(show, t.handlers[rm], ResolveMiddleware(t, m, schedule), prior);
      }
  }

  lemma SkipSendsOnce(show: bool, r: Resolving, prior: seq<Write>)
    requires !HeadersSent(prior)
    ensures CountSends(Skip(Made(show), r, prior).writes) == 1
  {
    if r.phase.error.Some? {
      FailSendsOnce(show, r.phase.error.value, prior);
    } else {
      CountSendsAppend(prior, [End]);
      assert [End][..0] == [];
    }
  }

  lemma ServeSendsOnce(show: bool, handler: Handler, r: Resolving, prior: seq<Write>)
    requires !HeadersSent(prior)
    requires handler(r.phase.ctx).Returned? ==> !HeadersSent(handler(r.phase.ctx).direct)
    ensures CountSends(Serve(Made(show), handler, r, prior).writes) == 1
  {
    if r.phase.error.Some? {
      FailSendsOnce(show, r.phase.error.value, prior);
    } else {
      match handler(r.phase.ctx)
      case Threw(e) =>
        FailSendsOnce(show, e, prior);
      case Returned(data, direct) =>
        CountSendsAppend(prior, direct);
        SuccessSendsOnce(data, prior + direct);
    }
  }

  /** A handler that sent the response itself gets nothing written after its own writes. */
  lemma SentResponseIsLeftAlone(t: TableState, onError: ErrorChoice, verb: Option<string>, ctx0: Context,
                                prior: seq<Write>, schedule: seq<nat>)
    requires IsSchedule(schedule, |ParallelList(t, EffectiveMethod(verb))|)
    requires Parse(EffectiveMethod(verb)).Some? && Parse(EffectiveMethod(verb)).value in t.handlers
    requires ResolveMiddleware(t, EffectiveMethod(verb), schedule).phase.error.None?
    ensures var rm := Parse(EffectiveMethod(verb)).value;
            var r := ResolveMiddleware(t, EffectiveMethod(verb), schedule);
            var result := t.handlers[rm](r.phase.ctx);
            var o := Dispatch(t, onError, verb, ctx0, prior, schedule);
            && (result.Returned? && HeadersSent(prior + result.direct) ==> o.writes == prior + result.direct)
            && (result.Returned? && !HeadersSent(prior + result.direct) ==>
                  o.writes == prior + result.direct + [Status(200), Json(Envelope(Success(result.data)))])
            && (result.Threw? ==>
                  && o.writes == prior + RunErrorHandler(onError, result.error)
                  && o.context == r.phase.ctx
                  && o.events == [Initiated] + r.events + [Caught(result.error)])
  {
  }

  /** `req.middleware` on entry is discarded by every request that gets past the handler lookup. */
  lemma ContextResetPerRequest(t: TableState, onError: ErrorChoice, verb: Option<string>, c1: Context, c2: Context,
                               prior: seq<Write>, schedule: seq<nat>)
    requires IsSchedule(schedule, |ParallelList(t, EffectiveMethod(verb))|)
    requires Parse(EffectiveMethod(verb)).None? || Parse(EffectiveMethod(verb)).value in t.handlers
    ensures Dispatch(t, onError, verb, c1, prior, schedule) == Dispatch(t, onError, verb, c2, prior, schedule)
  {
  }

  class RouterBuilder {
    /** The registration table this builder extends. */
    const router: ExpressLikeRouter
    const onError: ErrorChoice
    const logger: LoggerChoice

    constructor (options: RouterBuilderOptions, env: string)
      ensures fresh(router) && router.Valid()
      ensures router.Snapshot() == TableState(map[], map[], [], map[])
      ensures onError == ApplyErrorHandler(options, env)
      ensures logger == ChooseLogger(options, env)
    {
      router := new ExpressLikeRouter();
      onError := ApplyErrorHandler(options, env);
      logger := ChooseLogger(options, env);
    }

    /** `resolveMiddlewareListAndQueue` on the live table, updating `req.middleware`. */
    method ResolveMiddlewareListAndQueue(verb: string, req: Request, schedule: seq<nat>)
      returns (error: Option<Thrown>, events: seq<Event>)
      requires IsSchedule(schedule, |ParallelList(router.Snapshot(), verb)|)
      modifies req
      ensures Resolving(Phase(req.middleware, error), events) == ResolveMiddleware(router.Snapshot(), verb, schedule)
    {
      var t := router.Snapshot();
      req.middleware := map[];
      events := ListEvent(t, ALL) + ListEvent(t, verb);
      var results := InvokeAll(ParallelList(t, verb), req.middleware);
      error := SettleInto(results, schedule, req);
      if error.Some? {
        return;
      }
      events := events + QueueEvent(t, ALL);
      error := ResolveQueue(Bucket(t.queue, ALL), req);
      if error.Some? {
        return;
      }
      events := events + QueueEvent(t, verb);
      error := ResolveQueue(Bucket(t.queue, verb), req);
    }

    /** The handler returned by `build()`, serving one request. */
    method Handle(req: Request, res: Response, schedule: seq<nat>) returns (events: seq<Event>)
      requires IsSchedule(schedule, |ParallelList(router.Snapshot(), EffectiveMethod(req.verb))|)
      modifies req, res
      ensures var o := Dispatch(router.Snapshot(), onError, req.verb, old(req.middleware), old(res.writes), schedule);
              res.writes == o.writes && req.middleware == o.context && events == o.events
    {
      var t := router.Snapshot();
      var m := EffectiveMethod(req.verb);
      events := [Initiated];
      var parsed := Parse(m);
      var error: Option<Thrown> := None;
      if parsed.None? {
        var resolvedEvents;
        error, resolvedEvents := ResolveMiddlewareListAndQueue(m, req, schedule);
        events := events + resolvedEvents;
        if error.None? {
          events := events + [Skipped];
          res.Write(End);
          return;
        }
      } else if parsed.value !in t.handlers {
        res.Write(Header("Allow", Names(t.handlerOrder)));
        error := Some(NotAllowed(m));
      } else {
        var handler := t.handlers[parsed.value];
        var resolvedEvents;
        error, resolvedEvents := ResolveMiddlewareListAndQueue(m, req, schedule);
        events := events + resolvedEvents;
        if error.None? {
          var result := handler(req.middleware);
          match result {
            case Threw(e) =>
              error := Some(e);
            case Returned(data, direct) =>
              res.WriteAll(direct);
              if res.Sent() {
                events := events + [AlreadySent];
                return;
              }
              events := events + [Succeeded];
              res.Write(Status(200));
              res.Write(Json(Envelope(Success(data))));
              return;
          }
        }
      }
      events := events + [Caught(error.value)];
      res.WriteAll(RunErrorHandler(onError, error.value));
    }
  }
}
