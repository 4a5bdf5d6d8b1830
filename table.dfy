/**
 * The registration table of the current revision (express-like-router.ts): one handler
 * per method, and two method-or-'ALL' keyed lists of middleware, the queue filled by
 * `use` and the parallel list filled by `inject`.
 */
module Table {
  import opened Wrappers
  import opened Types
  import opened Methods
  import opened Exceptions
  import R = Resolution

  type Middleware = R.Middleware<Thrown>

  /** What awaiting a route handler gives: its data together with any writes it made to the response itself, or a throw. */
  datatype HandlerResult = Returned(data: Value, direct: seq<Write>) | Threw(error: Thrown)

  /** A route handler, observed through the middleware context it is given. */
  type Handler = Context -> HandlerResult

  /** The two call shapes of `use` and `inject`: a middleware alone, or a method name and a middleware. */
  datatype MiddlewareArgs = Single(middleware: Middleware) | ForMethod(key: MiddlewareKey, middleware: Middleware)

  /** The bucket a registration goes to: 'ALL' for a lone middleware, the named method otherwise. */
  function Target(args: MiddlewareArgs): (k: MiddlewareKey)
    ensures args.Single? ==> k == AllMethods
    ensures args.ForMethod? ==> k == args.key
  {
    match args
    case Single(_) => AllMethods
    case ForMethod(key, _) => key
  }

  /**
   * `addOrSetPartialArrayMap`: append to the key's bucket when it exists, otherwise
   * create a one-element bucket; every other bucket is unchanged.
   */
  function AddOrSet<K, V>(m: map<K, seq<V>>, key: K, value: V): (r: map<K, seq<V>>)
    ensures r.Keys == m.Keys + {key}
    ensures key in m ==> |r[key]| == |m[key]| + 1 && r[key][..|m[key]|] == m[key]
    ensures |r[key]| > 0 && r[key][|r[key]| - 1] == value
    ensures key !in m ==> r[key] == [value]
    ensures forall k :: k in m && k != key ==> r[k] == m[k]
  {
    if key in m then m[key := m[key] + [value]] else m[key := [value]]
  }

  predicate Distinct<T(==)>(s: seq<T>)
  {
    forall i, j :: 0 <= i < j < |s| ==> s[i] != s[j]
  }

  /** A snapshot of the table's fields, on which the dispatcher's specification is stated. */
  datatype TableState = TableState(
    parallel: map<MiddlewareKey, seq<Middleware>>,
    queue: map<MiddlewareKey, seq<Middleware>>,
    handlerOrder: seq<RouterMethod>,
    handlers: map<RouterMethod, Handler>)

  /** `handlerOrder` is the key order of `routeHandlerMap`: each registered method once, in first-registration order. */
  ghost predicate WellFormed(t: TableState)
  {
    && Distinct(t.handlerOrder)
    && (forall m :: m in t.handlers <==> m in t.handlerOrder)
  }

  class ExpressLikeRouter {
    var parallel: map<MiddlewareKey, seq<Middleware>>
    var queue: map<MiddlewareKey, seq<Middleware>>
    var handlerOrder: seq<RouterMethod>
    var handlers: map<RouterMethod, Handler>

    function Snapshot(): TableState
      reads this
    {
      TableState(parallel, queue, handlerOrder, handlers)
    }

    ghost predicate Valid()
      reads this
    {
      WellFormed(Snapshot())
    }

    constructor ()
      ensures Valid()
      ensures Snapshot() == TableState(map[], map[], [], map[])
    {
      parallel := map[];
      queue := map[];
      handlerOrder := [];
      handlers := map[];
    }

    /** `use`: append to the queue bucket of the target; nothing else changes. */
    method Use(args: MiddlewareArgs) returns (r: ExpressLikeRouter)
      requires Valid()
      modifies this
      ensures Valid() && r == this
      ensures queue == AddOrSet(old(queue), Target(args), args.middleware)
      ensures parallel == old(parallel)
      ensures handlers == old(handlers) && handlerOrder == old(handlerOrder)
    {
      queue := AddOrSet(queue, Target(args), args.middleware);
      r := this;
    }

    /** `inject`: append to the parallel bucket of the target; nothing else changes. */
    method Inject(args: MiddlewareArgs) returns (r: ExpressLikeRouter)
      requires Valid()
      modifies this
      ensures Valid() && r == this
      ensures parallel == AddOrSet(old(parallel), Target(args), args.middleware)
      ensures queue == old(queue)
      ensures handlers == old(handlers) && handlerOrder == old(handlerOrder)
    {
      parallel := AddOrSet(parallel, Target(args), args.middleware);
      r := this;
    }

    /**
     * `addRouterMethod(method)(handler)`: store the handler under its method, replacing an
     * earlier one; a method registered for the first time joins the end of the key order.
     */
    method AddRouterMethod(m: RouterMethod, handler: Handler) returns (r: ExpressLikeRouter)
      requires Valid()
      modifies this
      ensures Valid() && r == this
      ensures handlers == old(handlers)[m := handler]
      ensures handlerOrder == if m in old(handlers) then old(handlerOrder) else old(handlerOrder) + [m]
      ensures parallel == old(parallel) && queue == old(queue)
    {
      if m !in handlers {
        handlerOrder := handlerOrder + [m];
      }
      handlers := handlers[m := handler];
      r := this;
    }

    method Get(handler: Handler) returns (r: ExpressLikeRouter)
      requires Valid()
      modifies this
      ensures Valid() && r == this
      ensures handlers == old(handlers)[GET := handler]
      ensures handlerOrder == if GET in old(handlers) then old(handlerOrder) else old(handlerOrder) + [GET]
      ensures parallel == old(parallel) && queue == old(queue)
    {
      r := AddRouterMethod(GET, handler);
    }

    method Patch(handler: Handler) returns (r: ExpressLikeRouter)
      requires Valid()
      modifies this
      ensures Valid() && r == this
      ensures handlers == old(handlers)[PATCH := handler]
      ensures handlerOrder == if PATCH in old(handlers) then old(handlerOrder) else old(handlerOrder) + [PATCH]
      ensures parallel == old(parallel) && queue == old(queue)
    {
      r := AddRouterMethod(PATCH, handler);
    }

    method Delete(handler: Handler) returns (r: ExpressLikeRouter)
      requires Valid()
      modifies this
      ensures Valid() && r == this
      ensures handlers == old(handlers)[DELETE := handler]
      ensures handlerOrder == if DELETE in old(handlers) then old(handlerOrder) else old(handlerOrder) + [DELETE]
      ensures parallel == old(parallel) && queue == old(queue)
    {
      r := AddRouterMethod(DELETE, handler);
    }

    method Post(handler: Handler) returns (r: ExpressLikeRouter)
      requires Valid()
      modifies this
      ensures Valid() && r == this
      ensures handlers == old(handlers)[POST := handler]
      ensures handlerOrder == if POST in old(handlers) then old(handlerOrder) else old(handlerOrder) + [POST]
      ensures parallel == old(parallel) && queue == old(queue)
    {
      r := AddRouterMethod(POST, handler);
    }

    method Put(handler: Handler) returns (r: ExpressLikeRouter)
      requires Valid()
      modifies this
      ensures Valid() && r == this
      ensures handlers == old(handlers)[PUT := handler]
      ensures handlerOrder == if PUT in old(handlers) then old(handlerOrder) else old(handlerOrder) + [PUT]
      ensures parallel == old(parallel) && queue == old(queue)
    {
      r := AddRouterMethod(PUT, handler);
    }
  }

  /** A registration keeps the key order free of repeats and in step with the handler map. */
  lemma RegistrationKeepsWellFormed(t: TableState, m: RouterMethod, h: Handler)
    requires WellFormed(t)
    ensures WellFormed(TableState(t.parallel, t.queue,
                                  if m in t.handlers then t.handlerOrder else t.handlerOrder + [m],
                                  t.handlers[m := h]))
  {
  }

  /** Last write wins: registering twice for one method leaves only the second handler and one key. */
  lemma LastRegistrationWins(t: TableState, m: RouterMethod, h1: Handler, h2: Handler)
    requires WellFormed(t)
    ensures var order1 := if m in t.handlers then t.handlerOrder else t.handlerOrder + [m];
            var t1 := TableState(t.parallel, t.queue, order1, t.handlers[m := h1]);
            var order2 := if m in t1.handlers then t1.handlerOrder else t1.handlerOrder + [m];
            t1.handlers[m := h2] == t.handlers[m := h2] && order2 == order1
  {
  }
}
