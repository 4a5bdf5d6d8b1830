# next-api-handler dispatcher, modelled in Dafny

This project models the request dispatcher of next-api-handler. The library builds one
Next.js API route handler from a table of per-method handlers and two kinds of middleware:

- middleware registered with `inject`, which runs in parallel;
- middleware registered with `use`, which runs in order as a queue.

A request that reaches a handler is answered with a JSON envelope, `{ success: true, data }`
or `{ success: false, message }`, and a thrown `HttpException` picks the status. There are
exceptions:

- a request whose method is not supported gets a bare `res.end()` after its middleware;
- a handler may send the response itself, and the current builder then writes nothing more;
- the older builder has no `headersSent` check, so it sends a second time after such a handler.

The project also models the table-of-contents parser of the documentation site.

Three revisions of the dispatcher are modelled side by side. Each has one module per
source file.

- **Current revision** (`packages/next-api-handler/src/lib`):
  - `Methods`: the method set and the `'ALL'` sentinel;
  - `Table`: `ExpressLikeRouter`, a class whose `use`, `inject` and registrar methods update its maps in place;
  - `Router`: `RouterBuilder`, the per-request pass of `build()`, the middleware resolution, the error-handler and logger choice, and the log severities;
  - `Exceptions`: the `HttpException` family;
  - `ErrorHandler`: `makeErrorHandler`;
  - `Logger`: `DefaultApiLogger`;
  - `BetaHandler`: the app-router `handler`.
- **Older revision** (`src/lib`):
  - `LegacyMethods`: nine methods;
  - `LegacyTable`;
  - `LegacyRouterBuilder`: flat middleware lists, no `headersSent` check, and no guard against a middleware returning nothing;
  - `LegacyExceptions`: no default message;
  - `LegacyErrorHandler`;
  - `LegacyLogger`.
- **Oldest router** (`src/lib/router.ts`): `OldestRouter`, a bare method-to-handler map.
- **Documentation parser** (`apps/doc/src/utils/parser.ts`): `Toc`. It covers `getNodeText` and `collectHeadings`.

## How the model is built

**Shared pieces.** `Types` holds the request and response surface, including
`Types.EffectiveMethod` (`req.method || 'GET'`), which both builders use. `Resolution` holds the middleware machinery both builders share. A
middleware is a function from the context it is given to a result: a mapping, nothing,
or a throw.

**Parallel middleware.** Every parallel entry is called on the same empty context. The
results are merged in the order their promises settle. That order is a parameter: a
permutation called the schedule. The first rejection in that order is what
`Promise.all` rejects with.

**Queued middleware.** The queue runs in order, and each middleware sees every earlier
merge.

**Dispatch as a function.** A request is a pure function, `Router.Dispatch` or
`LegacyRouterBuilder.Dispatch`. It maps the table, the request method, the incoming
`req.middleware`, the writes already on the response and the schedule to three things:
the response's writes, the final `req.middleware`, and (in the current revision) the
events reported to the logger. The imperative methods `Router.RouterBuilder.Handle` and
`LegacyRouterBuilder.BuiltHandler.Handle` update a `Request` and a `Response` object in
place, and are proved equal to those functions. In the current revision `build()` only
returns a closure over the builder. `Router.RouterBuilder.Handle` is that closure, written
as a method of the builder, so there is no separate `Build` member. The older revision's
`build()` returns a handler object, `LegacyRouterBuilder.RouterBuilder.Build`.

**Thrown values.** A thrown value that is not an `HttpException` is modelled by its
`message` property as a JSON value. A thrown string has none, so its `message` is undefined.

**The response.** It is the log of calls made on it. `res.headersSent` holds once the
log contains a `json` or `end` call.

**The environment.** `NODE_ENV` is a string parameter.

**Where the specification and the code disagree, the code is followed:**

- The context reset happens inside `resolveMiddlewareListAndQueue`. A request answered
  405 for a missing handler therefore keeps its incoming `req.middleware`
  (`Router.MissingHandlerIs405`). It does not start from a fresh mapping.
- `TooManyRequestsException` is 429 in the current revision. One test file of that
  revision still expects 428. In the older revision the code itself says 428
  (`LegacyExceptions.AgreesWithCurrentRevision`).

## Model

| member | source | states |
|---|---|---|
| Methods.Parse | packages/next-api-handler/src/lib/type.ts:81 | a method string reads as a RouterMethod exactly when it is one of the five names, case-sensitively |
| Methods.ParseMatchesSupported | packages/next-api-handler/src/lib/constants.ts:5-11 | parsing succeeds iff the string is in SUPPORTED_ROUTER_METHODS |
| Methods.KeyOf | packages/next-api-handler/src/lib/constants.ts:3 | a string names a middleware bucket exactly when it is 'ALL' or a supported method |
| LegacyMethods.ParseName | src/lib/type.ts:69-78 | each of the nine method names reads back as its own method |
| Exceptions.NewHttpException | packages/next-api-handler/src/lib/http-exceptions.ts:16-24 | status defaults to 500, default message to "Internal Server Error", and an absent or empty message falls back to the default message |
| Exceptions.New | packages/next-api-handler/src/lib/http-exceptions.ts:30-263 | a subclass fixes its status and default message; message fallback as in the base class |
| Exceptions.KindOf | packages/next-api-handler/src/lib/http-exceptions.ts:30-263 | the inverse of the status table: a status maps back to the subclass that fixes it |
| Exceptions.KindTable | packages/next-api-handler/src/lib/http-exceptions.ts:30-263 | every subclass has a 4xx/5xx status unique to it, and its default message is the registered reason phrase of that status |
| Exceptions.StatusInjective | packages/next-api-handler/src/lib/http-exceptions.ts:30-263 | no two subclasses share a status |
| Exceptions.BareHttpException | packages/next-api-handler/src/lib/http-exceptions.ts:16-24 | `new HttpException()` is 500 with both messages "Internal Server Error" |
| Exceptions.CustomStatusKeepsGenericDefault | packages/next-api-handler/src/lib/http-exceptions.ts:16-24 | a custom status and message are kept, with the generic default message |
| Exceptions.NoArgumentSubclass | packages/next-api-handler/src/lib/http-exceptions.ts:30-263 | a subclass built with no arguments carries its reason phrase as both messages |
| ErrorHandler.MakeErrorHandler | packages/next-api-handler/src/lib/error-handler.ts:20-37 | one status and one failure envelope, so exactly one send; an HttpException's own status, else 500; the message is shown (undefined for a thrown value without one) or replaced by the default |
| ErrorHandler.NonErrorThrown | packages/next-api-handler/src/lib/error-handler.ts:33-36 | a thrown value with no `message` is answered 500 with no message when messages are shown, "Internal Server Error" when hidden |
| ErrorHandler.HiddenMessagesAreDefaults | packages/next-api-handler/src/lib/error-handler.ts:29-35 | with messages hidden, only the default message or "Internal Server Error" is exposed |
| ErrorHandler.SubclassDefaultsAgree | packages/next-api-handler/src/lib/error-handler.ts:26-31 | a subclass thrown without a message answers its status and reason phrase whether messages are shown or not |
| BetaHandler.Handle | packages/next-api-handler/src/lib/beta/handler.ts:9-38 | 200 with the data on success; an HttpException's status with its default message in production and its message elsewhere; any other error 500 "Internal Server Error" |
| BetaHandler.AgreesWithErrorHandlerOnHttpExceptions | packages/next-api-handler/src/lib/beta/handler.ts:16-27 | for an HttpException the beta handler answers as `makeErrorHandler` does with its default showMessage |
| BetaHandler.HidesUnexpectedErrors | packages/next-api-handler/src/lib/beta/handler.ts:29-36 | an unexpected error's message is never revealed |
| Logger.LevelOrder | packages/next-api-handler/src/lib/api-logger.ts:4-10 | the levels are totally ordered debug < info < warn < error < silent |
| Logger.EmitsExtremes | packages/next-api-handler/src/lib/api-logger.ts:106-114 | a silent logger writes nothing, a debug logger writes every call |
| Logger.EmitsMonotone | packages/next-api-handler/src/lib/api-logger.ts:106-114 | a level that is written implies every higher level is written |
| Logger.DefaultLevel | packages/next-api-handler/src/lib/api-logger.ts:98-104 | silent under test, info under development, error otherwise |
| Logger.NewLogger | packages/next-api-handler/src/lib/api-logger.ts:62-72 | an explicit level wins over the environment's default; an absent or empty context is "[next-api-handler]" |
| Logger.Log | packages/next-api-handler/src/lib/api-logger.ts:106-114 | a line is written iff the configured level is at or below the call's, on the call's console method, prefixed by context, level and timestamp |
| Logger.TestEnvironmentIsQuiet | packages/next-api-handler/src/lib/api-logger.ts:98-100 | under the test environment a logger with no level writes nothing |
| LegacyLogger.NewLogger | src/lib/api-logger.ts:31-47 | same level and context defaults as the current revision |
| LegacyLogger.Log | src/lib/api-logger.ts:49-57 | a line is written iff the configured level is at or below the call's |
| Resolution.Merge | packages/next-api-handler/src/lib/router-builder.ts:307-311 | nothing changes for no result; otherwise every returned key is overwritten and every other key kept |
| Resolution.Invoke | packages/next-api-handler/src/lib/router-builder.ts:304-305 | every parallel entry is called on the same snapshot |
| Resolution.InvokeAll | packages/next-api-handler/src/lib/router-builder.ts:304-305 | the loop of calls yields exactly Invoke |
| Resolution.ScheduleCovers | packages/next-api-handler/src/lib/router-builder.ts:269-275 | a settle order mentions exactly the indices of the promises |
| Resolution.SettleRejects | packages/next-api-handler/src/lib/router-builder.ts:269-275 | the parallel phase fails iff some entry rejected |
| Resolution.SettleAt | packages/next-api-handler/src/lib/router-builder.ts:304-312 | with disjoint keys, each contributed key holds its contributor's value and other keys are untouched |
| Resolution.SettleOrderIndependent | packages/next-api-handler/src/lib/router-builder.ts:269-275 | with disjoint keys the settle order changes neither the context nor whether the phase fails |
| Resolution.SettleInto | packages/next-api-handler/src/lib/router-builder.ts:304-312 | merging results into `req.middleware` in settle order yields Settle |
| Resolution.Settle | packages/next-api-handler/src/lib/router-builder.ts:304-312 | merging never removes a key of the context, and a failed phase carries the rejection of one of the settled promises |
| Resolution.SettleNeedsAllResolved | packages/next-api-handler/src/lib/router-builder.ts:269-275 | a parallel phase without a throw means every entry resolved on the snapshot |
| Resolution.RunQueueAppend | packages/next-api-handler/src/lib/router-builder.ts:277-282 | running two queues back to back is running the first and, unless it threw, the second on its result |
| Resolution.RunQueue | packages/next-api-handler/src/lib/router-builder.ts:333-341 | a failed run carries the rejection of one queued middleware on some context |
| Resolution.RunQueueStep | packages/next-api-handler/src/lib/router-builder.ts:333-341 | a run that got past middleware i without a throw got past i - 1, and middleware i - 1 resolved and was merged into what i sees |
| Resolution.RunQueueNoErrorBefore | packages/next-api-handler/src/lib/router-builder.ts:333-341 | a queue that got past middleware i without a throw got past every earlier one |
| Resolution.RunQueueLaterSees | packages/next-api-handler/src/lib/router-builder.ts:333-341 | a key set by queued middleware j and not set again before i is in the context middleware i is called with, holding j's value |
| Resolution.RunQueueKeepsKeys | packages/next-api-handler/src/lib/router-builder.ts:336-340 | resolution never removes a key from the context |
| Resolution.ResolveQueue | packages/next-api-handler/src/lib/router-builder.ts:323-342 | the queue loop updates `req.middleware` to RunQueue's context and reports its first throw |
| Table.Target | packages/next-api-handler/src/lib/express-like-router.ts:46-51 | a lone middleware goes to 'ALL', a method-and-middleware call to that method |
| Table.AddOrSet | packages/next-api-handler/src/lib/express-like-router.ts:58-69 | the key's bucket grows by the value at its end, or is created as [value]; all other buckets unchanged |
| Table.ExpressLikeRouter.constructor | packages/next-api-handler/src/lib/express-like-router.ts:14-23 | all maps start empty |
| Table.ExpressLikeRouter.Use | packages/next-api-handler/src/lib/express-like-router.ts:25 | only the queue map changes, by AddOrSet on the target bucket |
| Table.ExpressLikeRouter.Inject | packages/next-api-handler/src/lib/express-like-router.ts:26 | only the parallel map changes, by AddOrSet on the target bucket |
| Table.ExpressLikeRouter.AddRouterMethod | packages/next-api-handler/src/lib/express-like-router.ts:71-78 | the handler replaces any earlier one; a new method joins the end of the key order; middleware unchanged |
| Table.ExpressLikeRouter.Get | packages/next-api-handler/src/lib/express-like-router.ts:28 | AddRouterMethod for GET |
| Table.ExpressLikeRouter.Patch | packages/next-api-handler/src/lib/express-like-router.ts:29 | AddRouterMethod for PATCH |
| Table.ExpressLikeRouter.Delete | packages/next-api-handler/src/lib/express-like-router.ts:30 | AddRouterMethod for DELETE |
| Table.ExpressLikeRouter.Post | packages/next-api-handler/src/lib/express-like-router.ts:31 | AddRouterMethod for POST |
| Table.ExpressLikeRouter.Put | packages/next-api-handler/src/lib/express-like-router.ts:32 | AddRouterMethod for PUT |
| Table.RegistrationKeepsWellFormed | packages/next-api-handler/src/lib/express-like-router.ts:71-78 | the key order stays free of repeats and in step with the handler map |
| Table.LastRegistrationWins | packages/next-api-handler/src/lib/express-like-router.ts:75 | registering twice keeps only the second handler and one key |
| Types.EffectiveMethod | packages/next-api-handler/src/lib/router-builder.ts:88 | an absent or empty method is GET, any other is kept; the older builder does the same (src/lib/router-builder.ts:182) |
| Router.Severity | packages/next-api-handler/src/lib/router-builder.ts:179-218 | debug for initiated/resolved/skipped, info for success, warn for already-sent and HttpExceptions under 500, error for the rest |
| Router.ApplyErrorHandler | packages/next-api-handler/src/lib/router-builder.ts:244-252 | the supplied handler wins; otherwise showMessage if given, else shown outside production |
| Router.ChooseLogger | packages/next-api-handler/src/lib/router-builder.ts:78 | a supplied logger wins; otherwise a DefaultApiLogger from loggerOption |
| Router.Names | packages/next-api-handler/src/lib/router-builder.ts:114 | the Allow value lists the registered methods' names in key order |
| Router.ResolveMiddleware | packages/next-api-handler/src/lib/router-builder.ts:262-283 | when resolution does not throw, every parallel 'ALL' and method entry resolved on the empty context; ResolutionOrder gives the order of calls |
| Router.Dispatch | packages/next-api-handler/src/lib/router-builder.ts:85-159 | every request's log starts with the initiated event and holds at least one more; UnsupportedMethodSkips, MissingHandlerIs405, MiddlewareThrowCaught and SentResponseIsLeftAlone state the writes, context and events of each path |
| Router.LogBracketed | packages/next-api-handler/src/lib/router-builder.ts:85-159 | every request's log opens with the initiated event and closes with skipped, already sent, succeeded or an error caught |
| Router.UnsupportedMethodSkips | packages/next-api-handler/src/lib/router-builder.ts:93-109 | an unsupported method never reaches a handler; after middleware the response is just ended |
| Router.MissingHandlerIs405 | packages/next-api-handler/src/lib/router-builder.ts:111-118 | for any error handler: no middleware runs, `req.middleware` is kept, Allow is set, the error is logged and the error handler is called once with the MethodNotAllowedException; the default handler answers 405 "Method X Not Allowed" or "Method Not Allowed" |
| Router.AllowListsRegistered | packages/next-api-handler/src/lib/router-builder.ts:114 | the Allow list names each registered method once and nothing else |
| Router.ResolutionOrder | packages/next-api-handler/src/lib/router-builder.ts:262-283 | parallel 'ALL' and method entries on an empty context, then the 'ALL' queue and the method's queue as one queue |
| Router.AgreeingTablesDispatchAlike | packages/next-api-handler/src/lib/router-builder.ts:262-313 | a request depends only on the 'ALL' buckets, its own method's buckets and the handlers |
| Router.OtherMethodMiddlewareIgnored | packages/next-api-handler/src/lib/router-builder.ts:293-300 | middleware registered for another method does not change the request's outcome |
| Router.ParallelOrderIrrelevant | packages/next-api-handler/src/lib/router-builder.ts:269-275 | with disjoint keys and no throw, the settle order does not change the outcome |
| Router.ExactlyOneResponse | packages/next-api-handler/src/lib/router-builder.ts:85-159 | with the default error handler and handlers that do not send, every request sends exactly one response |
| Router.SentResponseIsLeftAlone | packages/next-api-handler/src/lib/router-builder.ts:126-157 | once middleware succeeds: nothing is written after a handler that sent the response; otherwise 200 with the envelope; a handler throw is logged and goes to the error handler once, with the resolved context |
| Router.MiddlewareThrowCaught | packages/next-api-handler/src/lib/router-builder.ts:93-157 | for any error handler, a throw from the parallel list or a queue, on the unsupported path or after the handler lookup, is logged and goes to the error handler once: the writes are its writes after the earlier ones, and `req.middleware` is the context resolution reached |
| Router.ContextResetPerRequest | packages/next-api-handler/src/lib/router-builder.ts:267 | the incoming `req.middleware` does not affect a request that resolves middleware |
| Router.RouterBuilder.constructor | packages/next-api-handler/src/lib/router-builder.ts:75-79 | an empty table, with the error handler and logger chosen from the options |
| Router.RouterBuilder.ResolveMiddlewareListAndQueue | packages/next-api-handler/src/lib/router-builder.ts:262-283 | updates `req.middleware` and reports the error and events that ResolveMiddleware specifies |
| Router.RouterBuilder.Handle | packages/next-api-handler/src/lib/router-builder.ts:85-159 | the response's writes, `req.middleware` and the logged events are those Dispatch specifies |
| LegacyExceptions.AgreesWithCurrentRevision | src/lib/http-exceptions.ts:10-80 | same reason phrases as the current revision, same statuses except TooManyRequests (428 against 429) |
| LegacyExceptions.NewHttpException | src/lib/http-exceptions.ts:1-8 | status and message stored as given, no default message |
| LegacyExceptions.New | src/lib/http-exceptions.ts:10-80 | the subclass's status; the message as given, or the reason phrase when absent |
| LegacyErrorHandler.MakeErrorHandler | src/lib/error-handler.ts:12-26 | one status and one failure envelope; a hidden HttpException message is its default message when the exception has one and undefined otherwise; other errors 500 |
| LegacyErrorHandler.HiddenMessageOfLegacyException | src/lib/error-handler.ts:15-20 | with messages hidden, an older exception is answered with no message at all |
| LegacyTable.Target | src/lib/express-like-router.ts:50-55 | a lone middleware goes to 'ALL', a method-and-middleware call to that method |
| LegacyTable.ExpressLikeRouter.constructor | src/lib/express-like-router.ts:14-23 | all maps start empty |
| LegacyTable.ExpressLikeRouter.Use | src/lib/express-like-router.ts:25 | only the queue map changes, by AddOrSet |
| LegacyTable.ExpressLikeRouter.Inject | src/lib/express-like-router.ts:26 | only the parallel map changes, by AddOrSet |
| LegacyTable.ExpressLikeRouter.AddRouterMethod | src/lib/express-like-router.ts:74-81 | the handler replaces any earlier one for its method |
| LegacyTable.ExpressLikeRouter.Get | src/lib/express-like-router.ts:28 | AddRouterMethod for GET |
| LegacyTable.ExpressLikeRouter.Head | src/lib/express-like-router.ts:29 | AddRouterMethod for HEAD |
| LegacyTable.ExpressLikeRouter.Patch | src/lib/express-like-router.ts:30 | AddRouterMethod for PATCH |
| LegacyTable.ExpressLikeRouter.Options | src/lib/express-like-router.ts:31 | AddRouterMethod for OPTIONS |
| LegacyTable.ExpressLikeRouter.Connect | src/lib/express-like-router.ts:32 | AddRouterMethod for CONNECT |
| LegacyTable.ExpressLikeRouter.Delete | src/lib/express-like-router.ts:33 | AddRouterMethod for DELETE |
| LegacyTable.ExpressLikeRouter.Trace | src/lib/express-like-router.ts:34 | AddRouterMethod for TRACE |
| LegacyTable.ExpressLikeRouter.Post | src/lib/express-like-router.ts:35 | AddRouterMethod for POST |
| LegacyTable.ExpressLikeRouter.Put | src/lib/express-like-router.ts:36 | AddRouterMethod for PUT |
| LegacyRouterBuilder.Strict | src/lib/router-builder.ts:227-229 | a middleware returning nothing becomes the TypeError of `Object.keys`; any other result is unchanged |
| LegacyRouterBuilder.StrictAll | src/lib/router-builder.ts:237-245 | every middleware is followed by the unguarded copy of its result |
| LegacyRouterBuilder.Names | src/lib/router-builder.ts:185 | the Allow value lists the registered methods' names in key order |
| LegacyRouterBuilder.ApplyErrorHandler | src/lib/router-builder.ts:100-108 | the supplied handler wins; otherwise `shoeMessage` if given, else shown outside production |
| LegacyRouterBuilder.Resolve | src/lib/router-builder.ts:191-205 | when the list and queue do not throw, every parallel entry resolved on the empty context to an object |
| LegacyRouterBuilder.StrictListRejects | src/lib/router-builder.ts:233-246 | an entry of the parallel list that throws or returns nothing makes the list phase throw |
| LegacyRouterBuilder.Dispatch | src/lib/router-builder.ts:179-218 | whatever happens, the writes already on the response stay first; the lemmas below state each path |
| LegacyRouterBuilder.NotAllowedWrites | src/lib/router-builder.ts:185-188 | the default error handler answers the 405 with "Method M Not Allowed" for the raw method M when shown, no message when hidden |
| LegacyRouterBuilder.MissingHandlerIs405 | src/lib/router-builder.ts:182-189 | a method with no handler, a name outside the nine included, runs no middleware, sets Allow to the registered names and calls the error handler once with the 405; with the default handler that is the 405 envelope |
| LegacyRouterBuilder.FoundHandlerOutcome | src/lib/router-builder.ts:191-218 | with a handler: a throw in the list, the queue or the handler calls the error handler once with it; a return writes the handler's own writes, then 200 with the success envelope |
| LegacyRouterBuilder.UndefinedMethodNotAllowed | src/lib/router-builder.ts:182-189 | with no method and no GET handler, no middleware runs and the answer is 405 "Method undefined Not Allowed", or no message when hidden |
| LegacyRouterBuilder.SentResponseIsSentAgain | src/lib/router-builder.ts:207-213 | with no `headersSent` check, a handler that sent the response gets a second send |
| LegacyRouterBuilder.MissingResultAborts | src/lib/router-builder.ts:224-229 | a queued middleware returning nothing aborts the older builder but not the current one |
| LegacyRouterBuilder.ContextResetPerRequest | src/lib/router-builder.ts:191 | every request that finds a handler starts from an empty context |
| LegacyRouterBuilder.RouterBuilder.constructor | src/lib/router-builder.ts:100-108 | empty route and lists; the error handler chosen from the options |
| LegacyRouterBuilder.RouterBuilder.Add | src/lib/router-builder.ts:248-254 | the handler replaces any earlier one; a new method joins the end of the key order; lists unchanged |
| LegacyRouterBuilder.RouterBuilder.Get | src/lib/router-builder.ts:110-114 | Add for GET |
| LegacyRouterBuilder.RouterBuilder.Head | src/lib/router-builder.ts:116-120 | Add for HEAD |
| LegacyRouterBuilder.RouterBuilder.Patch | src/lib/router-builder.ts:122-126 | Add for PATCH |
| LegacyRouterBuilder.RouterBuilder.Options | src/lib/router-builder.ts:128-132 | Add for OPTIONS |
| LegacyRouterBuilder.RouterBuilder.Connect | src/lib/router-builder.ts:134-138 | Add for CONNECT |
| LegacyRouterBuilder.RouterBuilder.Delete | src/lib/router-builder.ts:140-144 | Add for DELETE |
| LegacyRouterBuilder.RouterBuilder.Trace | src/lib/router-builder.ts:146-150 | Add for TRACE |
| LegacyRouterBuilder.RouterBuilder.Post | src/lib/router-builder.ts:152-156 | Add for POST |
| LegacyRouterBuilder.RouterBuilder.Put | src/lib/router-builder.ts:158-162 | Add for PUT |
| LegacyRouterBuilder.RouterBuilder.Use | src/lib/router-builder.ts:164-169 | pushes onto the queue; nothing else changes |
| LegacyRouterBuilder.RouterBuilder.Inject | src/lib/router-builder.ts:171-177 | pushes onto the parallel list; nothing else changes |
| LegacyRouterBuilder.RouterBuilder.Build | src/lib/router-builder.ts:179-180 | a new handler bound to this builder |
| LegacyRouterBuilder.RouterBuilder.ResolveMiddleware | src/lib/router-builder.ts:191-205 | resets the context and runs the list and queue as Resolve specifies |
| LegacyRouterBuilder.RouterBuilder.HandleMiddlewareList | src/lib/router-builder.ts:233-246 | every entry called on the current context, results merged in settle order |
| LegacyRouterBuilder.RouterBuilder.HandleMiddlewareQueue | src/lib/router-builder.ts:220-231 | the queue run in push order with the unguarded copy |
| LegacyRouterBuilder.BuiltHandler.Handle | src/lib/router-builder.ts:179-218 | the response's writes and `req.middleware` are those Dispatch specifies, whose paths MissingHandlerIs405 and FoundHandlerOutcome state |
| OldestRouter.RouterBuilder.constructor | src/lib/router.ts:63 | the route map starts empty |
| OldestRouter.RouterBuilder.Add | src/lib/router.ts:127-133 | store or replace the method's handler |
| OldestRouter.RouterBuilder.Get | src/lib/router.ts:65-67 | Add for GET |
| OldestRouter.RouterBuilder.Head | src/lib/router.ts:69-71 | Add for HEAD |
| OldestRouter.RouterBuilder.Patch | src/lib/router.ts:73-75 | Add for PATCH |
| OldestRouter.RouterBuilder.Options | src/lib/router.ts:77-79 | Add for OPTIONS |
| OldestRouter.RouterBuilder.Connect | src/lib/router.ts:81-83 | Add for CONNECT |
| OldestRouter.RouterBuilder.Delete | src/lib/router.ts:85-87 | Add for DELETE |
| OldestRouter.RouterBuilder.Trace | src/lib/router.ts:89-91 | Add for TRACE |
| OldestRouter.RouterBuilder.Post | src/lib/router.ts:93-95 | Add for POST |
| OldestRouter.RouterBuilder.Put | src/lib/router.ts:97-99 | Add for PUT |
| OldestRouter.Respond | src/lib/router.ts:101-125 | every request ends with one status and one envelope, and the envelope is a success iff a handler was found and returned |
| OldestRouter.RouterBuilder.Built | src/lib/router.ts:101-125 | the function `build()` returns answers as Respond on the route map as it stands |
| OldestRouter.ReturnIs200 | src/lib/router.ts:112-117 | a handler that returns gets its own writes, then 200 with the success envelope |
| OldestRouter.NoGetDefault | src/lib/router.ts:103-110 | a request with no method is never dispatched and gets 405 "Method undefined Not Allowed" |
| OldestRouter.DispatchExactlyRegistered | src/lib/router.ts:103-110 | dispatched iff the method is one of the nine names with a handler; a miss is exactly 405 with the envelope "Method M Not Allowed" for the raw method M, and no Allow header |
| OldestRouter.EveryThrowIs500 | src/lib/router.ts:118-123 | every throw is 500 with the thrown value's message |
| OldestRouter.ExactlyOneResponse | src/lib/router.ts:101-125 | a handler that does not send gets exactly one response sent for it, and so does a miss |
| Toc.GetNodeText | apps/doc/src/utils/parser.ts:4-15 | the loop computes NodeText: string children and, recursively, each tag child's text |
| Toc.NodeText | apps/doc/src/utils/parser.ts:4-15 | the definition GetNodeText is proved against: empty for a string, otherwise the string children and each tag child's text in order |
| Toc.Entry | apps/doc/src/utils/parser.ts:46-52 | an entry has the heading's text as title, no children, and the id just written |
| Toc.EntryKeepsAttributes | apps/doc/src/utils/parser.ts:46-52 | an entry's attributes are exactly `id` and the heading's own other than `title` and `children`, and each of those is copied unchanged |
| Toc.Enter | apps/doc/src/utils/parser.ts:35-54 | a heading with text gets the id `slugify(title)`; an h2 appends a new section, an h3 is appended to the children of the last section, and an h3 with no section throws (iff) |
| Toc.ErrorSticks | apps/doc/src/utils/parser.ts:41-45 | once a prefix of the array throws, the whole walk throws the same error |
| Toc.CollectList | apps/doc/src/utils/parser.ts:30-57 | the walk over one array, defined item by item; CollectFacts, SectionsExpected and IdsWritten state what it yields |
| Toc.CollectHeadingsList | apps/doc/src/utils/parser.ts:30-59 | the loop over an array yields the walk CollectList specifies |
| Toc.CollectFacts | apps/doc/src/utils/parser.ts:30-57 | throws iff some array has an orphan h3; otherwise one section per h2 of the array in order, its h3s as sub-entries, two levels, and the slug counter sees every title in document order |
| Toc.H2IndexMeans | apps/doc/src/utils/parser.ts:35-52 | the index used by the reference table holds exactly the positions of the h2 headings with text |
| Toc.AscendingMeans | apps/doc/src/utils/parser.ts:32 | those positions are strictly increasing, in array order |
| Toc.TableOfAt | apps/doc/src/utils/parser.ts:46-52 | section i of the reference table is the i-th h2's entry with the h3 entries up to the next h2 as children |
| Toc.H3OfMeans | apps/doc/src/utils/parser.ts:46-50 | an entry is among a section's reference children iff it is the entry of an h3 in that section's range |
| Toc.ExpectedHead | apps/doc/src/utils/parser.ts:38-52 | section i of the reference table has the i-th h2's text as title and `slugify` of that text, given the titles before it, as id |
| Toc.H2IndexGap | apps/doc/src/utils/parser.ts:40-53 | no h2 with text lies between one section's heading and the next |
| Toc.ExpectedChildren | apps/doc/src/utils/parser.ts:40-50 | an entry is a child of section i iff it is the entry of an h3 with text after the i-th h2 and before the next (both directions); Toc.TableOfAt gives their order |
| Toc.SectionsExpected | apps/doc/src/utils/parser.ts:30-57 | when the walk does not throw, its sections equal the reference table, which is built by index and not by the walk |
| Toc.IdsWritten | apps/doc/src/utils/parser.ts:33-56 | every heading with text, at any depth, gets the id `slugify(title)` given the titles before it in document order; every other attribute and every other node is unchanged |
| Toc.SingleNodeGivesNothing | apps/doc/src/utils/parser.ts:28 | a single node yields no sections and is left untouched |
| Toc.LeadingH3Throws | apps/doc/src/utils/parser.ts:40-45 | an h3 before any h2 of the top-level array makes the extraction throw |
| Toc.CollectHeadingsFacts | apps/doc/src/utils/parser.ts:24-60 | `collectHeadings` throws iff an orphan h3 exists; otherwise the sections are the reference table (each h2's entry with the following h3 entries as children) and every heading with text, at any depth, carries its slugified id with the rest of the tree unchanged (IdWritten) |
| Toc.Collect | apps/doc/src/utils/parser.ts:24-60 | the definition CollectHeadings is proved against: nothing for a single node, the walk of the array otherwise; CollectHeadingsFacts states what it yields |
| Toc.CollectHeadings | apps/doc/src/utils/parser.ts:24-60 | the method returns Collect: nothing for a single node, the walk of the array otherwise |

## Left out

- Console output, timestamps, durations and log text. The current builder is modelled by the events it logs and their severities; the logger itself by the line it would write, with the timestamp as a parameter.
- A custom `ApiLogger`: the model records only that one was supplied.
- A custom error handler is modelled as a function of the error alone. It cannot read `req`.
- Middleware that writes to `res`: a middleware is observed only through the context it is given and the result it settles to.
- Middleware that reads `req.middleware` after an `await`: every parallel entry sees the context as it was when it was called, which is empty.
- A truthy middleware result that is not an object: `Object.keys` on a string or number is not modelled.
- A handler that writes to the response and then throws: a throw carries no writes.
- Router.Dispatch: after a `Promise.all` rejection, the context is the one reached once every promise has settled. In the source it is whatever had merged when the awaiting code resumed.
- LegacyRouterBuilder.Dispatch: the same simplification of a `Promise.all` rejection as Router.Dispatch.
- LegacyRouterBuilder.Resolve: the same simplification of a `Promise.all` rejection as Router.Dispatch.
- ErrorHandler.MakeErrorHandler: `throw null` and `throw undefined` are not modelled. Reading `error.message` then throws inside the catch, after `res.status(500)`, and no envelope is sent.
- LegacyErrorHandler.MakeErrorHandler: `throw null` and `throw undefined` are not modelled, for the same reason.
- Router.ExactlyOneResponse: holds for thrown values that are objects, strings or numbers. For `throw null` or `throw undefined` the default handler itself throws and sends nothing, which the model leaves out.
- Prototype-inherited keys such as "toString" in the older `this.route[...]` lookups: only the nine method names are looked up.
- OldestRouter: a handler is observed through the request method only, and a thrown value through its optional `message`.
- OldestRouter.ExactlyOneResponse, OldestRouter.EveryThrowIs500 and OldestRouter.Respond: a handler that throws `null` or `undefined`, or rejects with no value, is not modelled. Reading `message` then throws inside the `catch` after `res.status(500)`, so the source sends no envelope and the built handler's promise rejects. The model's thrown value is an object, string or number whose `message` may be absent, which always gets one 500 envelope.
- Toc: the in-place `node.attributes.id` writes are returned as an updated tree, so node aliasing is not modelled. Ids written before a throw are not reported.
- Toc: `slugifyWithCounter` is a parameter, a function of the titles slugified so far and the title.
- Toc: the sections found by the recursive call are dropped, as the source drops the result of `concat`. Only that call's id writes, slug history and throw are kept.
- The `NextApiRequest`/`NextApiResponse` types, the app-router `Response` class, and every other file of the repository (examples, documentation components, build configuration) are not part of this model.
