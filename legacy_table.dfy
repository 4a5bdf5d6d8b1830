/**
 * The registration table of the older revision (src/lib/express-like-router.ts): the same
 * shape as the current one, with registrars for nine methods. The handler and middleware
 * shapes of the older revision are declared here.
 */
module LegacyTable {
  import opened Wrappers
  import opened Types
  import opened LegacyMethods
  import opened LegacyExceptions
  import R = Resolution
  import T = Table

  type Middleware = R.Middleware<LegacyThrown>

  /** What awaiting an older route handler gives: its data and any writes it made itself, or a throw. */
  datatype HandlerResult = Returned(data: Value, direct: seq<Write>) | Threw(error: LegacyThrown)

  type Handler = Context -> HandlerResult

  /** The two call shapes of `use` and `inject`. */
  datatype MiddlewareArgs = Single(middleware: Middleware) | ForMethod(key: LegacyMiddlewareKey, middleware: Middleware)

  /** The bucket a registration goes to: 'ALL' for a lone middleware, the named method otherwise. */
  function Target(args: MiddlewareArgs): (k: LegacyMiddlewareKey)
    ensures args.Single? ==> k == AllMethods
    ensures args.ForMethod? ==> k == args.key
  {
    match args
    case Single(_) => AllMethods
    case ForMethod(key, _) => key
  }

  class ExpressLikeRouter {
    var parallel: map<LegacyMiddlewareKey, seq<Middleware>>
    var queue: map<LegacyMiddlewareKey, seq<Middleware>>
    var handlerOrder: seq<LegacyMethod>
    var handlers: map<LegacyMethod, Handler>

    /** `handlerOrder` lists each registered method once, in first-registration order. */
    ghost predicate Valid()
      reads this
    {
      T.Distinct(handlerOrder) && forall m :: m in handlers <==> m in handlerOrder
    }

    constructor ()
      ensures Valid()
      ensures parallel == map[] && queue == map[] && handlerOrder == [] && handlers == map[]
    {
      parallel := map[];
      queue := map[];
      handlerOrder := [];
      handlers := map[];
    }

    /** `use`: append to the queue bucket of the target; nothing else changes. */
    method Use(args: MiddlewareArgs) returns (r: ExpressLikeRouter)
      requires Valid()
      modifies this
      ensures Valid() && r == this
      ensures queue == T.AddOrSet(old(queue), Target(args), args.middleware)
      ensures parallel == old(parallel)
      ensures handlers == old(handlers) && handlerOrder == old(handlerOrder)
    {
      queue := T.AddOrSet(queue, Target(args), args.middleware);
      r := this;
    }

    /** `inject`: append to the parallel bucket of the target; nothing else changes. */
    method Inject(args: MiddlewareArgs) returns (r: ExpressLikeRouter)
      requires Valid()
      modifies this
      ensures Valid() && r == this
      ensures parallel == T.AddOrSet(old(parallel), Target(args), args.middleware)
      ensures queue == old(queue)
      ensures handlers == old(handlers) && handlerOrder == old(handlerOrder)
    {
      parallel := T.AddOrSet(parallel, Target(args), args.middleware);
      r := this;
    }

    /** `addRouterMethod(method)(handler)`: store or replace the method's handler. */
    method AddRouterMethod(m: LegacyMethod, handler: Handler) returns (r: ExpressLikeRouter)
      requires Valid()
      modifies this
      ensures Valid() && r == this
      ensures handlers == old(handlers)[m := handler]
      ensures handlerOrder == if m in old(handlers) then old(handlerOrder) else old(handlerOrder) + [m]
      ensures parallel == old(parallel) && queue == old(queue)
    {
      if m !in handlers {
        handlerOrder := handlerOrder + [m];
      }
      handlers := handlers[m := handler];
      r := this;
    }

    method Get(handler: Handler) returns (r: ExpressLikeRouter)
      requires Valid()
      modifies this
      ensures Valid() && r == this
      ensures handlers == old(handlers)[GET := handler]
      ensures handlerOrder == if GET in old(handlers) then old(handlerOrder) else old(handlerOrder) + [GET]
      ensures parallel == old(parallel) && queue == old(queue)
    {
      r := AddRouterMethod(GET, handler);
    }

    method Head(handler: Handler) returns (r: ExpressLikeRouter)
      requires Valid()
      modifies this
      ensures Valid() && r == this
      ensures handlers == old(handlers)[HEAD := handler]
      ensures handlerOrder == if HEAD in old(handlers) then old(handlerOrder) else old(handlerOrder) + [HEAD]
      ensures parallel == old(parallel) && queue == old(queue)
    {
      r := AddRouterMethod(HEAD, handler);
    }

    method Patch(handler: Handler) returns (r: ExpressLikeRouter)
      requires Valid()
      modifies this
      ensures Valid() && r == this
      ensures handlers == old(handlers)[PATCH := handler]
      ensures handlerOrder == if PATCH in old(handlers) then old(handlerOrder) else old(handlerOrder) + [PATCH]
      ensures parallel == old(parallel) && queue == old(queue)
    {
      r := AddRouterMethod(PATCH, handler);
    }

    method Options(handler: Handler) returns (r: ExpressLikeRouter)
      requires Valid()
      modifies this
      ensures Valid() && r == this
      ensures handlers == old(handlers)[OPTIONS := handler]
      ensures handlerOrder == if OPTIONS in old(handlers) then old(handlerOrder) else old(handlerOrder) + [OPTIONS]
      ensures parallel == old(parallel) && queue == old(queue)
    {
      r := AddRouterMethod(OPTIONS, handler);
    }

    method Connect(handler: Handler) returns (r: ExpressLikeRouter)
      requires Valid()
      modifies this
      ensures Valid() && r == this
      ensures handlers == old(handlers)[CONNECT := handler]
      ensures handlerOrder == if CONNECT in old(handlers) then old(handlerOrder) else old(handlerOrder) + [CONNECT]
      ensures parallel == old(parallel) && queue == old(queue)
    {
      r := AddRouterMethod(CONNECT, handler);
    }

    method Delete(handler: Handler) returns (r: ExpressLikeRouter)
      requires Valid()
      modifies this
      ensures Valid() && r == this
      ensures handlers == old(handlers)[DELETE := handler]
      ensures handlerOrder == if DELETE in old(handlers) then old(handlerOrder) else old(handlerOrder) + [DELETE]
      ensures parallel == old(parallel) && queue == old(queue)
    {
      r := AddRouterMethod(DELETE, handler);
    }

    method Trace(handler: Handler) returns (r: ExpressLikeRouter)
      requires Valid()
      modifies this
      ensures Valid() && r == this
      ensures handlers == old(handlers)[TRACE := handler]
      ensures handlerOrder == if TRACE in old(handlers) then old(handlerOrder) else old(handlerOrder) + [TRACE]
      ensures parallel == old(parallel) && queue == old(queue)
    {
      r := AddRouterMethod(TRACE, handler);
    }

    method Post(handler: Handler) returns (r: ExpressLikeRouter)
      requires Valid()
      modifies this
      ensures Valid() && r == this
      ensures handlers == old(handlers)[POST := handler]
      ensures handlerOrder == if POST in old(handlers) then old(handlerOrder) else old(handlerOrder) + [POST]
      ensures parallel == old(parallel) && queue == old(queue)
    {
      r := AddRouterMethod(POST, handler);
    }

    method Put(handler: Handler) returns (r: ExpressLikeRouter)
      requires Valid()
      modifies this
      ensures Valid() && r == this
      ensures handlers == old(handlers)[PUT := handler]
      ensures handlerOrder == if PUT in old(handlers) then old(handlerOrder) else old(handlerOrder) + [PUT]
      ensures parallel == old(parallel) && queue == old(queue)
    {
      r := AddRouterMethod(PUT, handler);
    }
  }
}
