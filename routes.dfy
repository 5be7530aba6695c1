/**
 * The router of the proxy: the routes that `Server.Start` registers, the way a
 * request path is matched against them (first registered route wins), and the
 * upstream path that each handler builds before it forwards the call.
 */
module Routes {
  import opened Wrappers

  /** The HTTP method of an inbound request. */
  datatype Method = Get | Post | Put | Delete | Patch | Head | Options

  /**
   * A registered path: a literal path, or a literal prefix followed by one
   * named parameter (`/v1/api/products/details/:sku`).
   */
  datatype Pattern = Exact(path: string) | Param(prefix: string, name: string)

  /** The handler methods of `Server` that a route dispatches to. */
  datatype Handler =
    | GetFilters | GetProducts | GetNewArrival
    | PostLogin | PostSignup
    | GetItemsInCart | AddItemsInCart
    | GetProductInfo | GetVersion

  datatype Route = Route(verb: Method, pattern: Pattern, handler: Handler)

  /** How a proxying handler reaches the upstream: `handleGetProxy` or `handlePostProxy`. */
  datatype Kind = GetProxy | PostProxy

  /** What a handler does: forward to an upstream path, or answer locally with the version. */
  datatype Action = Forward(kind: Kind, upstreamPath: string) | ServeVersion

  const FiltersPath := "/v1/api/filters"
  const ProductsPath := "/v1/api/products"
  const NewArrivalsPath := "/v1/api/products/new_arrivals"
  const LoginPath := "/v1/api/auth/login"
  const SignupPath := "/v1/api/auth/signup"
  const CartPath := "/v1/api/cart"
  const DetailsPrefix := "/v1/api/products/details/"
  const SkuParam := "sku"
  const VersionPath := "/ver"

  /** The routes in the order `Start` registers them. */
  const Table: seq<Route> := [
    Route(Get, Exact(FiltersPath), GetFilters),
    Route(Get, Exact(ProductsPath), GetProducts),
    Route(Get, Exact(NewArrivalsPath), GetNewArrival),
    Route(Post, Exact(LoginPath), PostLogin),
    Route(Post, Exact(SignupPath), PostSignup),
    Route(Get, Exact(CartPath), GetItemsInCart),
    Route(Post, Exact(CartPath), AddItemsInCart),
    Route(Get, Param(DetailsPrefix, SkuParam), GetProductInfo),
    Route(Get, Exact(VersionPath), GetVersion)
  ]

  // ----- Matching -----

  /** A parameter takes exactly one non-empty path segment. */
  predicate IsSegment(s: string) {
    s != [] && '/' !in s
  }

  /** The parameters bound when `path` matches `p`, or None when it does not match. */
  function MatchPattern(p: Pattern, path: string): Option<map<string, string>> {
    match p
    case Exact(q) =>
      if path == q then Some(map[]) else None
    case Param(prefix, name) =>
      if prefix <= path && IsSegment(path[|prefix|..]) then Some(map[name := path[|prefix|..]]) else None
  }

  predicate Matches(r: Route, m: Method, path: string) {
    r.verb == m && MatchPattern(r.pattern, path).Some?
  }

  /** The handler and parameters of the first route in `routes` that matches. */
  function Lookup(routes: seq<Route>, m: Method, path: string): Option<(Handler, map<string, string>)> {
    if routes == [] then None
    else if Matches(routes[0], m, path) then Some((routes[0].handler, MatchPattern(routes[0].pattern, path).value))
    else Lookup(routes[1..], m, path)
  }

  /** `Lookup` finds nothing exactly when no route matches, and otherwise returns the first match. */
  lemma {:induction false} LookupFirstMatch(routes: seq<Route>, m: Method, path: string)
    ensures Lookup(routes, m, path).None? <==> forall i :: 0 <= i < |routes| ==> !Matches(routes[i], m, path)
    ensures Lookup(routes, m, path).Some? ==>
      exists i :: 0 <= i < |routes| && Matches(routes[i], m, path)
        && Lookup(routes, m, path).value == (routes[i].handler, MatchPattern(routes[i].pattern, path).value)
        && forall j :: 0 <= j < i ==> !Matches(routes[j], m, path)
  {
    if routes == [] {
    } else if Matches(routes[0], m, path) {
      assert Lookup(routes, m, path).value == (routes[0].handler, MatchPattern(routes[0].pattern, path).value);
    } else {
      LookupFirstMatch(routes[1..], m, path);
      assert forall i :: 1 <= i < |routes| ==> routes[i] == routes[1..][i - 1];
      if Lookup(routes[1..], m, path).Some? {
        var k :| 0 <= k < |routes[1..]| && Matches(routes[1..][k], m, path)
          && Lookup(routes[1..], m, path).value == (routes[1..][k].handler, MatchPattern(routes[1..][k].pattern, path).value)
          && forall j :: 0 <= j < k ==> !Matches(routes[1..][j], m, path);
        assert Matches(routes[k + 1], m, path);
        assert forall j :: 0 <= j < k + 1 ==> !Matches(routes[j], m, path);
      }
    }
  }

  // ----- Properties of the table -----

  /** No two routes of the table share a (method, path) key. */
  lemma TableKeysUnique()
    ensures forall i, j :: 0 <= i < j < |Table| ==>
      (Table[i].verb, Table[i].pattern) != (Table[j].verb, Table[j].pattern)
  {
  }

  /** A request path never starts with the details prefix when it equals one of the literal routes. */
  lemma ExactPathsOutsideDetails(i: nat)
    requires i < |Table| && Table[i].pattern.Exact?
    ensures !(DetailsPrefix <= Table[i].pattern.path)
  {
    if i == 2 {
      assert NewArrivalsPath[17] != DetailsPrefix[17];
    }
  }

  /** At most one route of the table matches any request, so the registration order does not matter. */
  lemma {:induction false} TableMatchesDisjoint(m: Method, path: string, i: nat, j: nat)
    requires i < j < |Table|
    requires Matches(Table[i], m, path)
    ensures !Matches(Table[j], m, path)
  {
    if Table[i].pattern.Param? {
      assert i == 7;
      assert DetailsPrefix <= path;
      if Matches(Table[j], m, path) {
        ExactPathsOutsideDetails(j);
      }
    } else if Table[j].pattern.Param? {
      assert j == 7;
      if Matches(Table[j], m, path) {
        ExactPathsOutsideDetails(i);
      }
    } else {
      assert Table[i].pattern.path == path;
    }
  }

  /** When route `i` matches, the lookup in the table yields exactly that route. */
  lemma LookupTable(i: nat, m: Method, path: string)
    requires i < |Table| && Matches(Table[i], m, path)
    ensures Lookup(Table, m, path) == Some((Table[i].handler, MatchPattern(Table[i].pattern, path).value))
  {
    LookupFirstMatch(Table, m, path);
    var k :| 0 <= k < |Table| && Matches(Table[k], m, path)
      && Lookup(Table, m, path).value == (Table[k].handler, MatchPattern(Table[k].pattern, path).value)
      && forall j :: 0 <= j < k ==> !Matches(Table[j], m, path);
    if k < i {
      TableMatchesDisjoint(m, path, k, i);
    }
  }

  // ----- Path builders of the handlers -----

  /** Go's `strings.Join`: the parts with `sep` between neighbours. */
  function Join(parts: seq<string>, sep: string): string {
    if parts == [] then ""
    else if |parts| == 1 then parts[0]
    else parts[0] + sep + Join(parts[1..], sep)
  }

  /**
   * The upstream path of `handleGetProducts`: a one- or two-element list
   * joined with `?`, the raw query being appended only when it is non-empty.
   */
  function ProductsTarget(query: string): (r: string)
    ensures query == [] ==> r == ProductsPath
    ensures query != [] ==> r == ProductsPath + "?" + query
  {
    var path := [ProductsPath];
    var path := if |query| > 0 then path + [query] else path;
    assert |path| == 2 ==> path[1..] == [query] && Join(path[1..], "?") == query;
    Join(path, "?")
  }

  /** How an HTTP client reads a URL: the part before the first `?`, and the raw query after it. */
  function SplitQuery(u: string): (string, string) {
    if u == [] then ("", "")
    else if u[0] == '?' then ("", u[1..])
    else ([u[0]] + SplitQuery(u[1..]).0, SplitQuery(u[1..]).1)
  }

  /** A string without `?` is all path and no query. */
  lemma {:induction false} SplitQueryNoMark(p: string)
    requires '?' !in p
    ensures SplitQuery(p) == (p, "")
  {
    if p != [] {
      SplitQueryNoMark(p[1..]);
      assert [p[0]] + p[1..] == p;
    }
  }

  /** Joining a `?`-free path and any query with `?` splits back into the same two parts. */
  lemma {:induction false} SplitQueryJoin(p: string, q: string)
    requires '?' !in p
    ensures SplitQuery(p + "?" + q) == (p, q)
  {
    if p == [] {
      assert p + "?" + q == ['?'] + q;
    } else {
      SplitQueryJoin(p[1..], q);
      assert (p + "?" + q)[1..] == p[1..] + "?" + q;
      assert [p[0]] + p[1..] == p;
    }
  }

  /** Whatever the upstream reads back from the products path is the products path and the inbound query. */
  lemma ProductsQueryRoundTrip(prefix: string, query: string)
    requires '?' !in prefix
    ensures SplitQuery(prefix + ProductsTarget(query)) == (prefix + ProductsPath, query)
  {
    assert '?' !in prefix + ProductsPath;
    if query == [] {
      SplitQueryNoMark(prefix + ProductsPath);
    } else {
      assert prefix + ProductsTarget(query) == (prefix + ProductsPath) + "?" + query;
      SplitQueryJoin(prefix + ProductsPath, query);
    }
  }

  /** What `c.Params(name)` yields: the bound value, or the empty string when unbound. */
  function ParamValue(params: map<string, string>, name: string): string {
    if name in params then params[name] else ""
  }

  /** The action of each handler, given the bound parameters and the raw query string. */
  function Dispatch(h: Handler, params: map<string, string>, query: string): Action {
    match h
    case GetFilters => Forward(GetProxy, FiltersPath)
    case GetProducts => Forward(GetProxy, ProductsTarget(query))
    case GetNewArrival => Forward(GetProxy, NewArrivalsPath)
    case PostLogin => Forward(PostProxy, LoginPath)
    case PostSignup => Forward(PostProxy, SignupPath)
    case GetItemsInCart => Forward(GetProxy, CartPath)
    case AddItemsInCart => Forward(PostProxy, CartPath)
    case GetProductInfo => Forward(GetProxy, DetailsPrefix + ParamValue(params, SkuParam))
    case GetVersion => ServeVersion
  }

  /** The router as a whole: None is the framework's not-found answer. */
  function Resolve(m: Method, path: string, query: string): Option<Action> {
    match Lookup(Table, m, path)
    case None => None
    case Some((h, params)) => Some(Dispatch(h, params, query))
  }

  // ----- Properties of the router -----

  /** A request is routed exactly when some route of the table matches its method and path. */
  lemma ResolveNotFound(m: Method, path: string, query: string)
    ensures Resolve(m, path, query).None? <==> forall i :: 0 <= i < |Table| ==> !Matches(Table[i], m, path)
  {
    LookupFirstMatch(Table, m, path);
  }

  /** The table registers only GET and POST routes, so no other method is routed by it. */
  lemma ResolveOnlyGetPost(m: Method, path: string, query: string)
    requires Resolve(m, path, query).Some?
    ensures m == Get || m == Post
  {
    LookupFirstMatch(Table, m, path);
  }

  /** The products route forwards its raw query unchanged, after `?`, and only when it is non-empty. */
  lemma ResolveProducts(query: string)
    ensures query == [] ==> Resolve(Get, ProductsPath, query) == Some(Forward(GetProxy, ProductsPath))
    ensures query != [] ==> Resolve(Get, ProductsPath, query) == Some(Forward(GetProxy, ProductsPath + "?" + query))
  {
    LookupTable(1, Get, ProductsPath);
  }

  /** The details route forwards to the details prefix followed by the literal, unvalidated sku. */
  lemma ResolveProductInfo(sku: string, query: string)
    requires IsSegment(sku)
    ensures Resolve(Get, DetailsPrefix + sku, query) == Some(Forward(GetProxy, DetailsPrefix + sku))
  {
    var path := DetailsPrefix + sku;
    assert path[|DetailsPrefix|..] == sku;
    LookupTable(7, Get, path);
  }

  /** The details handler concatenates whatever `sku` is bound, without any check on it. */
  lemma DetailsSkuIsLiteral(sku: string, query: string)
    ensures Dispatch(GetProductInfo, map[SkuParam := sku], query) == Forward(GetProxy, DetailsPrefix + sku)
  {
  }

  /** GET and POST `/v1/api/cart` reach the same upstream path, through the two different proxies. */
  lemma ResolveCart(query: string)
    ensures Resolve(Get, CartPath, query) == Some(Forward(GetProxy, CartPath))
    ensures Resolve(Post, CartPath, query) == Some(Forward(PostProxy, CartPath))
  {
    LookupTable(5, Get, CartPath);
    LookupTable(6, Post, CartPath);
  }

  /** Every literal proxied route forwards a query-less request to its own public path by its method's proxy. */
  lemma StaticRoutesForwardToOwnPath(i: nat)
    requires i < |Table| && Table[i].pattern.Exact? && Table[i].handler != GetVersion
    ensures Resolve(Table[i].verb, Table[i].pattern.path, "")
      == Some(Forward(if Table[i].verb == Get then GetProxy else PostProxy, Table[i].pattern.path))
  {
    LookupTable(i, Table[i].verb, Table[i].pattern.path);
  }

  /**
   * The upstream path always equals the public path, except that the products
   * route adds `?` and its non-empty query; GET requests use the GET proxy and
   * POST requests the POST proxy.
   */
  lemma ResolveMirrorsPublicPath(m: Method, path: string, query: string)
    requires Resolve(m, path, query).Some? && Resolve(m, path, query).value.Forward?
    ensures var a := Resolve(m, path, query).value;
      (a.kind == GetProxy <==> m == Get) && (a.kind == PostProxy <==> m == Post)
    ensures var a := Resolve(m, path, query).value;
      a.upstreamPath == if path == ProductsPath && query != [] then path + "?" + query else path
  {
    LookupFirstMatch(Table, m, path);
    var i :| 0 <= i < |Table| && Matches(Table[i], m, path)
      && Lookup(Table, m, path).value == (Table[i].handler, MatchPattern(Table[i].pattern, path).value);
    var a := Resolve(m, path, query).value;
    if i == 1 {
      assert path == ProductsPath && a.upstreamPath == ProductsTarget(query);
    } else if i == 7 {
      assert DetailsPrefix + path[|DetailsPrefix|..] == path;
      assert |path| > |ProductsPath|;
      assert a.upstreamPath == path;
    } else {
      assert path == Table[i].pattern.path != ProductsPath;
      assert a.upstreamPath == path;
    }
  }

  /** `/ver` is the only route answered without an upstream request. */
  lemma ResolveVersionIff(m: Method, path: string, query: string)
    ensures Resolve(m, path, query) == Some(ServeVersion) <==> m == Get && path == VersionPath
  {
    LookupFirstMatch(Table, m, path);
    if m == Get && path == VersionPath {
      LookupTable(8, m, path);
    }
  }
}
