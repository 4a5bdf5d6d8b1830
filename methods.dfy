/**
 * The HTTP methods the router knows about (packages/.../type.ts and constants.ts),
 * the 'ALL' middleware sentinel, and the nine-method enum of the older revision
 * (src/lib/type.ts).
 */
module Methods {
  import opened Wrappers

  /** RouterMethod of the current revision: the only methods a handler can be registered for. */
  datatype RouterMethod = GET | PATCH | DELETE | POST | PUT

  function Name(m: RouterMethod): string
  {
    match m
    case GET => "GET"
    case PATCH => "PATCH"
    case DELETE => "DELETE"
    case POST => "POST"
    case PUT => "PUT"
  }

  /** DEFAULT_MIDDLEWARE_ROUTER_METHOD: the bucket for middleware that runs for every method. */
  const ALL: string := "ALL"

  /** SUPPORTED_ROUTER_METHODS, in declaration order. */
  const SUPPORTED_ROUTER_METHODS: seq<RouterMethod> := [GET, PATCH, DELETE, POST, PUT]

  /** The request-method strings the router dispatches on (`SUPPORTED_ROUTER_METHODS.includes`). */
  predicate IsSupported(s: string)
  {
    exists i | 0 <= i < |SUPPORTED_ROUTER_METHODS| :: Name(SUPPORTED_ROUTER_METHODS[i]) == s
  }

  /** Reads a request-method string as a RouterMethod; case-sensitive, as the source compares strings. */
  function Parse(s: string): (r: Option<RouterMethod>)
    ensures r.Some? ==> Name(r.value) == s
    ensures r.None? ==> forall m: RouterMethod :: Name(m) != s
  {
    if s == "GET" then Some(GET)
    else if s == "PATCH" then Some(PATCH)
    else if s == "DELETE" then Some(DELETE)
    else if s == "POST" then Some(POST)
    else if s == "PUT" then Some(PUT)
    else None
  }

  /** Parsing succeeds exactly for the members of SUPPORTED_ROUTER_METHODS. */
  lemma ParseMatchesSupported(s: string)
    ensures Parse(s).Some? <==> IsSupported(s)
  {
    if Parse(s).Some? {
      var m := Parse(s).value;
      var i := match m case GET => 0 case PATCH => 1 case DELETE => 2 case POST => 3 case PUT => 4;
      assert Name(SUPPORTED_ROUTER_METHODS[i]) == s;
    }
  }

  lemma NameInjective(a: RouterMethod, b: RouterMethod)
    ensures Name(a) == Name(b) ==> a == b
  {
  }

  /** MiddlewareRouterMethod: 'ALL' or one RouterMethod; the keys of both middleware maps. */
  datatype MiddlewareKey = AllMethods | Only(verb: RouterMethod)

  function KeyName(k: MiddlewareKey): string
  {
    match k
    case AllMethods => ALL
    case Only(m) => Name(m)
  }

  /**
   * Which middleware bucket a request-method string indexes (`map[method]` on a
   * JavaScript object): 'ALL' and the five method names hit a bucket, anything else
   * finds nothing.
   */
  function KeyOf(s: string): (r: Option<MiddlewareKey>)
    ensures r.Some? ==> KeyName(r.value) == s
    ensures r.None? ==> forall k: MiddlewareKey :: KeyName(k) != s
  {
    if s == ALL then Some(AllMethods)
    else match Parse(s)
      case Some(m) => Some(Only(m))
      case None => None
  }
}

/** The nine request methods of the older revision (src/lib/type.ts). */
module LegacyMethods {
  import opened Wrappers

  datatype LegacyMethod = GET | HEAD | PATCH | OPTIONS | CONNECT | DELETE | TRACE | POST | PUT

  function Name(m: LegacyMethod): string
  {
    match m
    case GET => "GET"
    case HEAD => "HEAD"
    case PATCH => "PATCH"
    case OPTIONS => "OPTIONS"
    case CONNECT => "CONNECT"
    case DELETE => "DELETE"
    case TRACE => "TRACE"
    case POST => "POST"
    case PUT => "PUT"
  }

  /** Looks a request-method string up among the nine method names (exact, case-sensitive). */
  function Parse(s: string): (r: Option<LegacyMethod>)
    ensures r.Some? ==> Name(r.value) == s
    ensures r.None? ==> forall m: LegacyMethod :: Name(m) != s
  {
    if s == "GET" then Some(GET)
    else if s == "HEAD" then Some(HEAD)
    else if s == "PATCH" then Some(PATCH)
    else if s == "OPTIONS" then Some(OPTIONS)
    else if s == "CONNECT" then Some(CONNECT)
    else if s == "DELETE" then Some(DELETE)
    else if s == "TRACE" then Some(TRACE)
    else if s == "POST" then Some(POST)
    else if s == "PUT" then Some(PUT)
    else None
  }

  /** Each of the nine names reads back as its own method. */
  lemma ParseName(m: LegacyMethod)
    ensures Parse(Name(m)) == Some(m)
  {
  }

  /** The 'ALL' sentinel or one of the nine methods: the keys of the older middleware maps. */
  datatype LegacyMiddlewareKey = AllMethods | Only(verb: LegacyMethod)
}
