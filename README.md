# skillkamp-shop-proxy, modelled in Dafny

The proxy is a small Go server that sits between a shop's browser client and
its backend API. It exposes a fixed set of `/v1/api/...` routes and forwards
each one to the same path on the upstream server, with one `http.Get` or
`http.Post` call. A proxied GET is sent with no body. A proxied POST carries the
body that `c.Body()` returns, with a JSON content type. The status of the call's
final response and the body `io.ReadAll` returns are relayed unchanged. A call that fails gives 502 Bad Gateway. A
response body that cannot be read gives 422 Unprocessable Entity. `GET /ver` answers the configured version locally.
At start-up, `main` resolves the listen flag and the environment to a
configuration, with defaults, and picks a log level.

The model has four modules:

- `Wrappers` (`wrappers.dfy`): the `Option` datatype.
- `Routes` (`routes.dfy`): the route table that `Server.Start` registers,
  kept as data (`Table`), in registration order. It has a matcher for literal
  paths and for the `:sku` parameter, which takes one non-empty segment with no
  `/`. `Lookup` takes the first matching route. `Dispatch` gives the upstream
  path each handler builds. `Resolve` is the router as a whole, and `None`
  stands for the framework's not-found answer.
- `Api` (`api.dfy`): the `Server` record and `NewServer`, plus the outbound
  request (`Outbound`). The upstream exchange is an abstract outcome,
  `ConnError | ReadError | Ok`. `Translate` turns that outcome into the
  handler's reply, which is `Relay(status, body)`, `Fail(code)` or
  `Json(VersionResponse)`. `Handle` is the server for one request: it returns
  the upstream requests it sent plus the reply. The network is a parameter,
  `upstream: UpstreamRequest -> Exchange`.
- `Bootstrap` (`bootstrap.dfy`): `main` up to the construction of the server,
  as a pure function. It maps the environment (a map, where an unset variable
  reads as `""`) and the optional `-listen` flag to a `Config`. `SelectLevel`
  is the log-level `switch`, written over ASCII upper-casing. `Boot` calls
  `NewServer`.

Facts about the code that the model keeps:

- Routes are under `/v1/api/...`, and each upstream path equals its public path.
- Only the products route forwards the query string. Every other route drops
  it, and so does every POST.
- No inbound header is forwarded, including `Authorization`.
- There are no PUT or DELETE cart routes.
- The upstream URL comes only from the `SERVER` variable, defaulting to
  `http://localhost:3000`.
- The CORS origin and headers are hard-coded in `Start`, so `ALLOW_ORIGINS`
  is resolved but never used.
- `main.go:41` passes four arguments to the three-argument `NewServer`, so
  this snapshot does not compile as shown. The model uses the three-argument
  `NewServer` and keeps `origins` only in `Config`.

## Model

| member | source | states |
|---|---|---|
| `Routes.MatchPattern` | api/server.go:31-39 | a literal route matches only its own path; `:sku` binds one non-empty segment without `/` after the prefix; specified through `Routes.ResolveProductInfo` and `Routes.ResolveMirrorsPublicPath` |
| `Routes.Lookup` | api/server.go:31-39 | first registered route that matches; specified by `Routes.LookupFirstMatch` and `Routes.LookupTable` |
| `Routes.Dispatch` | api/server.go:44-79 | the upstream path each handler builds; specified by `Routes.ResolveProducts`, `Routes.ResolveProductInfo`, `Routes.DetailsSkuIsLiteral`, `Routes.StaticRoutesForwardToOwnPath` and `Routes.ResolveMirrorsPublicPath` |
| `Routes.Resolve` | api/server.go:31-79 | the router as a whole; specified by `Routes.ResolveNotFound`, `Routes.ResolveMirrorsPublicPath` and `Routes.ResolveVersionIff` |
| `Api.Outbound` | api/server.go:83-100 | the one client call a handler makes, a GET with no body or a POST with the inbound body as JSON, to `serverUrl + path`; specified by `Api.ForwardedExactlyOnce` |
| `Api.Translate` | api/server.go:84-112 | the reply derived from the outcome of the client call; specified by `Api.TranslateCases`, `Api.ReadErrorDropsPartialBody` and `Api.ConnErrorHidesCause` |
| `Api.ProxyCall` | api/server.go:81-113 | one client call and the translation of its outcome; specified by `Api.ForwardedExactlyOnce` |
| `Api.Handle` | api/server.go:31-120 | the server for one request; specified by `Api.HandleNotFound`, `Api.ForwardedExactlyOnce`, `Api.LocalIffVersion` and `Api.RelayRoundTrip` |
| `Api.VersionReply` | api/server.go:115-120 | the stored version as a one-field document; specified by `Api.VersionEndpoint` |
| `Bootstrap.ToUpper` | main.go:32 | ASCII upper-casing; specified by `Bootstrap.ToUpperAt` and `Bootstrap.ToUpperIsWord` |
| `Bootstrap.SelectLevel` | main.go:32-39 | the log-level switch; specified by `Bootstrap.SelectLevelCases` |
| `Bootstrap.Resolve` | main.go:17-31 | flag and environment resolved to a configuration; specified by `Bootstrap.ResolveDefaults` and `Bootstrap.ResolveEmptyEnvironment` |
| `Bootstrap.Boot` | main.go:41 | the server `main` builds from the configuration; specified by `Bootstrap.BootVersion` |
| `Routes.LookupFirstMatch` | api/server.go:31-39 | lookup finds nothing exactly when no route matches, and otherwise returns the handler and parameters of the first matching route |
| `Routes.TableKeysUnique` | api/server.go:31-39 | no two registered routes share a (method, path) key |
| `Routes.ExactPathsOutsideDetails` | api/server.go:31-39 | no literal route path starts with the product-details prefix |
| `Routes.TableMatchesDisjoint` | api/server.go:31-39 | at most one route matches any (method, path), so lookup is deterministic whatever the order |
| `Routes.LookupTable` | api/server.go:31-39 | when route `i` matches, the table lookup yields exactly route `i` and its parameters |
| `Routes.ProductsTarget` | api/server.go:48-55 | the products path is `/v1/api/products` for an empty query and `/v1/api/products?` + query otherwise |
| `Routes.SplitQueryNoMark` | api/server.go:83 | a URL without `?` reads back as all path and an empty query |
| `Routes.SplitQueryJoin` | api/server.go:54 | joining a `?`-free path and any query with `?` reads back as the same path and query |
| `Routes.ProductsQueryRoundTrip` | api/server.go:48-55 | behind any `?`-free base, the built products URL reads back as the products path and exactly the inbound query |
| `Routes.ResolveNotFound` | api/server.go:31-39 | a request is routed exactly when some registered route matches its method and path |
| `Routes.ResolveOnlyGetPost` | api/server.go:31-39 | the table registers only GET and POST routes |
| `Routes.ResolveProducts` | api/server.go:48-55 | GET products forwards to exactly `/v1/api/products`, or that plus `?` and the unmodified query when the query is non-empty |
| `Routes.ResolveProductInfo` | api/server.go:77-79 | GET details of any segment `sku` forwards to `/v1/api/products/details/` + sku |
| `Routes.DetailsSkuIsLiteral` | api/server.go:77-79 | the details handler concatenates whatever sku is bound, unvalidated |
| `Routes.ResolveCart` | api/server.go:69-75 | GET and POST `/v1/api/cart` both target `/v1/api/cart`, through the GET and the POST proxy |
| `Routes.StaticRoutesForwardToOwnPath` | api/server.go:44-75 | every literal proxied route forwards to its own public path, by the proxy of its method |
| `Routes.ResolveMirrorsPublicPath` | api/server.go:31-79 | a GET request uses the GET proxy and a POST the POST proxy; the upstream path is exactly the public path plus `?` and the query when the path is the products path and the query is non-empty, and exactly the public path otherwise |
| `Routes.ResolveVersionIff` | api/server.go:39 | the version action is chosen exactly for `GET /ver` |
| `Api.NewServer` | api/server.go:14-23 | an empty version becomes `dev`, a non-empty one is kept, listen address and upstream are stored unchanged |
| `Api.TranslateCases` | api/server.go:81-113 | a connection error gives exactly 502, a read error exactly 422, and a full read exactly a relay of its status and body |
| `Api.ReadErrorDropsPartialBody` | api/server.go:89-93 | the reply to a read error depends neither on the upstream status nor on the bytes read so far, and relays nothing |
| `Api.ConnErrorHidesCause` | api/server.go:83-87 | the cause of a connection error never reaches the caller; the reply is always 502 |
| `Api.HandleNotFound` | api/server.go:31-39 | the server answers a request exactly when some route matches it |
| `Api.ForwardedExactlyOnce` | api/server.go:81-113 | a proxied request makes exactly one `http.Get`/`http.Post` call, to `serverUrl + path`: for GET with no body and no content type, for POST with the inbound body and `application/json`; its reply is the translation of that call's outcome |
| `Api.ForwardKeepsMethodAndBody` | api/server.go:98-100 | the `http.Get`/`http.Post` call keeps the inbound method, and a POST call carries the body `c.Body()` returns, unchanged, with a JSON content type |
| `Api.ConnErrorGivesBadGateway` | api/server.go:83-104 | a failed `http.Get`/`http.Post` call gives 502, and the handler makes exactly one such call |
| `Api.ReadErrorGivesUnprocessable` | api/server.go:88-110 | an unreadable body of the final response gives 422 after one `http.Get`/`http.Post` call, with no upstream body |
| `Api.RelayRoundTrip` | api/server.go:94-112 | the status of the final response of the call and the body `io.ReadAll` returns reach the caller unchanged |
| `Api.LocalIffVersion` | api/server.go:115-120 | among answered requests, `GET /ver` is exactly the one that sends nothing upstream |
| `Api.VersionEndpoint` | api/server.go:115-124 | `GET /ver` answers `{version}` of the server with no upstream call, `dev` when built with an empty version |
| `Api.ProductsQueryReachesUpstream` | api/server.go:48-55 | the upstream URL of a products request reads back as base + products path and exactly the inbound query |
| `Api.ExampleProductsQuery` | api/server.go:48-55 | `GET /v1/api/products?category=shoes` calls `<server>/v1/api/products?category=shoes` |
| `Api.ExampleProductDetails` | api/server.go:77-79 | `GET /v1/api/products/details/ABC123` calls `<server>/v1/api/products/details/ABC123` |
| `Api.ExampleCreatedRelayed` | api/server.go:65-67 | a signup POST whose call ends in a 201 read in full is relayed as 201 with the body `io.ReadAll` returns, after posting the body `c.Body()` returns as JSON |
| `Bootstrap.ToUpperAt` | main.go:32 | upper-casing keeps the length and upper-cases each character in place |
| `Bootstrap.ToUpperIsWord` | main.go:32 | for a word already in upper case, upper-casing gives the word exactly when the input equals it ignoring ASCII case |
| `Bootstrap.SelectLevelCases` | main.go:32-39 | `DEBUG` in any ASCII case selects Debug, `INFO` in any case selects Info, and every other value (the empty one too) selects Warn |
| `Bootstrap.SelectLevelExamples` | main.go:32-39 | `debug` gives Debug, `Info` gives Info, and the empty value, `trace` and `WARN` give Warn |
| `Bootstrap.ResolveDefaults` | main.go:17-31 | the listen address defaults to `:3030` only when the flag is absent; an empty `ALLOW_ORIGINS` gives `http://localhost:5173` and an empty `SERVER` gives `http://localhost:3000`, while non-empty values are kept verbatim; `VERSION` is passed through raw |
| `Bootstrap.ResolveEmptyEnvironment` | main.go:17-39 | no flag and an empty environment give `:3030`, Warn, an empty version and the two localhost defaults |
| `Bootstrap.BootVersion` | main.go:21-41 | the configured version is empty exactly when `VERSION` is unset or empty; the server's version is `dev` exactly when `VERSION` is empty or `dev`; listen address and upstream reach the server unchanged |

## Left out

- The fiber application, its CORS middleware and `app.Listen`: this is framework I/O. Only the route table is kept, as data.
- Fiber-side routing details are not modelled. Fiber matches paths case-insensitively by default, tolerates a trailing `/`, registers HEAD alongside every GET route, and answers 405 for a known path with another method. The model matches the path exactly, and its `None` covers every kind of unrouted request.
- Fiber's default error handler is not modelled. It turns `Fail(code)` into a plain-text body. Encoding `VersionResponse` as JSON is not modelled either.
- `http.Get`, `http.Post` and `io.ReadAll` are network and stream I/O. Their outcome is the abstract `Exchange`, chosen by the `upstream` parameter. Closing the response body is not modelled.
- `Exchange` is the outcome of the whole call through Go's default HTTP client, not of one HTTP exchange. That client follows redirects: `Ok` carries the final response after them, so an upstream 301/302/303/307/308 with a `Location` header is not what the caller sees. A POST redirected by 301/302/303 is re-sent by the client as a GET with no body. A chain of ten or more redirects is a `ConnError`: the client follows nine and refuses the tenth. The requests inside the client are not modelled; `sent` holds the one call the handler makes.
- `Ok.body` is the body as `io.ReadAll` returns it. Go's default transport adds `Accept-Encoding: gzip` by itself and decodes a gzip reply, so these are the decoded bytes, not the bytes the upstream sent; a corrupt encoding counts as a `ReadError`. `Request.body` is what `c.Body()` returns, which some fiber releases decode by `Content-Encoding` first, forwarding the decoder's error text when decoding fails. Which release is used is not recorded in the source, so that decoding is not modelled.
- The default client has no timeout. A stalled upstream leaves the handler without a reply, while `Api.Handle` always gives one; the hang is not modelled.
- Parsing the full URL is not modelled. `SplitQuery` models only the first-`?` rule; fragments and percent-decoding are left out.
- zerolog logging and the process-wide level set by `zerolog.SetGlobalLevel`. Only the chosen `LogLevel` is modelled.
- `flag.Parse`, `os.Getenv`, `fmt.Println` and `log.Fatal` are process glue. The flag and the environment are inputs.
- Concurrency across requests is handled by the framework, and requests share no mutable state.
- `Bootstrap.ToUpper` upper-cases ASCII letters only, while Go's `strings.ToUpper` is full Unicode. For example, Go maps the dotless `ı` to `I`, so `ınfo` selects Info in Go but Warn in the model.
