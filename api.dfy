/**
 * The server of the proxy: its configuration record, the one upstream call a
 * proxying handler makes, the translation of that call's outcome into the
 * reply to the caller, and the local version endpoint.
 */
module Api {
  import opened Wrappers
  import opened Routes

  newtype byte = x: int | 0 <= x < 256

  /** The fields of `Server`, written once by `NewServer` and never updated. */
  datatype Server = Server(listenAddr: string, serverUrl: string, version: string)

  const DefaultVersion := "dev"
  const JsonContentType := "application/json"

  const StatusUnprocessableEntity := 422
  const StatusBadGateway := 502

  /** `NewServer`: the version falls back to `dev` when empty; everything else is stored as given. */
  function NewServer(listenAddr: string, upstream: string, version: string): (s: Server)
    ensures s.listenAddr == listenAddr && s.serverUrl == upstream
    ensures version != "" ==> s.version == version
    ensures version == "" ==> s.version == DefaultVersion
    ensures s.version != ""
  {
    var version := if version == "" then DefaultVersion else version;
    Server(listenAddr, upstream, version)
  }

  /** An inbound request: method, path, raw query string and the body bytes `c.Body()` returns. */
  datatype Request = Request(verb: Method, path: string, query: string, body: seq<byte>)

  /**
   * The request the proxy sends upstream. `contentType` is the only header the
   * proxy sets; no header of the inbound request is copied.
   */
  datatype UpstreamRequest = UpstreamRequest(verb: Method, url: string, contentType: Option<string>, body: seq<byte>)

  /**
   * The outcome of one `http.Get` / `http.Post` call, redirects included: no
   * response at all (a too-long redirect chain among the causes), a final
   * response whose body could not be read to the end, or a final response
   * read in full, its body being the bytes `io.ReadAll` returns after the
   * transport's decoding.
   */
  datatype Exchange =
    | ConnError(cause: string)
    | ReadError(status: int, partial: seq<byte>)
    | Ok(status: int, body: seq<byte>)

  datatype VersionResponse = VersionResponse(version: string)

  /**
   * What a handler returns: the upstream status and body to send, a framework
   * error with its status code, or a JSON document.
   */
  datatype Reply = Relay(status: int, body: seq<byte>) | Fail(code: int) | Json(doc: VersionResponse)

  /** The upstream requests a handler issued, in order, and its reply. */
  datatype Transaction = Transaction(sent: seq<UpstreamRequest>, reply: Reply)

  /** The call `http.Get` / `http.Post` makes for `path`. */
  function Outbound(s: Server, kind: Kind, path: string, inBody: seq<byte>): UpstreamRequest {
    match kind
    case GetProxy => UpstreamRequest(Get, s.serverUrl + path, None, [])
    case PostProxy => UpstreamRequest(Post, s.serverUrl + path, Some(JsonContentType), inBody)
  }

  /** The reply that `handleGetProxy` / `handlePostProxy` derive from the outcome of their call. */
  function Translate(x: Exchange): Reply {
    match x
    case ConnError(_) => Fail(StatusBadGateway)
    case ReadError(_, _) => Fail(StatusUnprocessableEntity)
    case Ok(status, body) => Relay(status, body)
  }

  /** One proxying handler: a single upstream call, whose outcome `upstream` decides. */
  function ProxyCall(s: Server, kind: Kind, path: string, inBody: seq<byte>, upstream: UpstreamRequest -> Exchange): Transaction {
    var out := Outbound(s, kind, path, inBody);
    Transaction([out], Translate(upstream(out)))
  }

  /** `handleGetVersion`: the stored version as a one-field document. */
  function VersionReply(s: Server): Reply {
    Json(VersionResponse(s.version))
  }

  /** The whole server for one request; None is the framework's not-found answer. */
  function Handle(s: Server, req: Request, upstream: UpstreamRequest -> Exchange): Option<Transaction> {
    match Resolve(req.verb, req.path, req.query)
    case None => None
    case Some(Forward(kind, path)) => Some(ProxyCall(s, kind, path, req.body, upstream))
    case Some(ServeVersion) => Some(Transaction([], VersionReply(s)))
  }

  // ----- Outcome translation -----

  /** The three outcomes give three different kinds of reply, both ways round. */
  lemma TranslateCases(x: Exchange)
    ensures Translate(x) == Fail(StatusBadGateway) <==> x.ConnError?
    ensures Translate(x) == Fail(StatusUnprocessableEntity) <==> x.ReadError?
    ensures Translate(x).Relay? <==> x.Ok?
    ensures x.Ok? ==> Translate(x) == Relay(x.status, x.body)
  {
  }

  /** The reply to a failed read depends neither on the upstream status nor on the bytes read so far. */
  lemma ReadErrorDropsPartialBody(st1: int, p1: seq<byte>, st2: int, p2: seq<byte>)
    ensures Translate(ReadError(st1, p1)) == Translate(ReadError(st2, p2))
    ensures !Translate(ReadError(st1, p1)).Relay?
  {
  }

  /** The cause of a connection failure never reaches the caller. */
  lemma ConnErrorHidesCause(c1: string, c2: string)
    ensures Translate(ConnError(c1)) == Translate(ConnError(c2)) == Fail(StatusBadGateway)
  {
  }

  // ----- The server as a whole -----

  /** A request is answered by the server exactly when the router finds a route for it. */
  lemma HandleNotFound(s: Server, req: Request, upstream: UpstreamRequest -> Exchange)
    ensures Handle(s, req, upstream).None? <==> forall i :: 0 <= i < |Table| ==> !Matches(Table[i], req.verb, req.path)
  {
    ResolveNotFound(req.verb, req.path, req.query);
  }

  /**
   * A proxied request makes exactly one upstream call, to `serverUrl + path`,
   * with the inbound body and a JSON content type for POST and nothing for GET,
   * and its reply is the translation of that call's outcome.
   */
  lemma ForwardedExactlyOnce(s: Server, req: Request, upstream: UpstreamRequest -> Exchange, kind: Kind, path: string)
    requires Resolve(req.verb, req.path, req.query) == Some(Forward(kind, path))
    ensures Handle(s, req, upstream).Some?
    ensures var t := Handle(s, req, upstream).value;
      |t.sent| == 1 && t.sent[0].url == s.serverUrl + path && t.reply == Translate(upstream(t.sent[0]))
    ensures var t := Handle(s, req, upstream).value;
      kind == PostProxy ==> t.sent[0] == UpstreamRequest(Post, s.serverUrl + path, Some(JsonContentType), req.body)
    ensures var t := Handle(s, req, upstream).value;
      kind == GetProxy ==> t.sent[0] == UpstreamRequest(Get, s.serverUrl + path, None, [])
  {
  }

  /** The upstream call keeps the inbound method, and a POST carries the inbound body unchanged. */
  lemma ForwardKeepsMethodAndBody(s: Server, req: Request, upstream: UpstreamRequest -> Exchange)
    requires Handle(s, req, upstream).Some? && Handle(s, req, upstream).value.sent != []
    ensures var out := Handle(s, req, upstream).value.sent[0];
      out.verb == req.verb && (req.verb == Post ==> out.body == req.body && out.contentType == Some(JsonContentType))
  {
    ResolveMirrorsPublicPath(req.verb, req.path, req.query);
  }

  /** An unreachable upstream gives Bad Gateway after one attempt. */
  lemma ConnErrorGivesBadGateway(s: Server, req: Request, cause: string)
    requires Resolve(req.verb, req.path, req.query).Some? && Resolve(req.verb, req.path, req.query).value.Forward?
    ensures var t := Handle(s, req, _ => ConnError(cause));
      t.Some? && |t.value.sent| == 1 && t.value.reply == Fail(StatusBadGateway)
  {
  }

  /** A body that cannot be read gives Unprocessable Entity, and no upstream byte is relayed. */
  lemma ReadErrorGivesUnprocessable(s: Server, req: Request, status: int, partial: seq<byte>)
    requires Resolve(req.verb, req.path, req.query).Some? && Resolve(req.verb, req.path, req.query).value.Forward?
    ensures var t := Handle(s, req, _ => ReadError(status, partial));
      t.Some? && |t.value.sent| == 1 && t.value.reply == Fail(StatusUnprocessableEntity)
  {
  }

  /** Round trip: whatever status and body the upstream answers with reach the caller unchanged. */
  lemma RelayRoundTrip(s: Server, req: Request, status: int, body: seq<byte>)
    requires Resolve(req.verb, req.path, req.query).Some? && Resolve(req.verb, req.path, req.query).value.Forward?
    ensures var t := Handle(s, req, _ => Ok(status, body));
      t.Some? && t.value.reply == Relay(status, body)
  {
  }

  /** `/ver` is the one answered request that sends nothing upstream. */
  lemma LocalIffVersion(s: Server, req: Request, upstream: UpstreamRequest -> Exchange)
    requires Handle(s, req, upstream).Some?
    ensures Handle(s, req, upstream).value.sent == [] <==> req.verb == Get && req.path == VersionPath
  {
    ResolveVersionIff(req.verb, req.path, req.query);
  }

  /** `GET /ver` answers the stored version, which is `dev` when the server was built without one. */
  lemma VersionEndpoint(listenAddr: string, upstream: string, version: string, query: string,
                        body: seq<byte>, call: UpstreamRequest -> Exchange)
    ensures var t := Handle(NewServer(listenAddr, upstream, version), Request(Get, VersionPath, query, body), call);
      t == Some(Transaction([], Json(VersionResponse(if version == "" then DefaultVersion else version))))
  {
    ResolveVersionIff(Get, VersionPath, query);
  }

  /** A products query reaches the upstream URL as its query, unchanged, when the base URL has no `?`. */
  lemma ProductsQueryReachesUpstream(s: Server, query: string, body: seq<byte>, upstream: UpstreamRequest -> Exchange)
    requires '?' !in s.serverUrl
    ensures var t := Handle(s, Request(Get, ProductsPath, query, body), upstream);
      t.Some? && |t.value.sent| == 1 && SplitQuery(t.value.sent[0].url) == (s.serverUrl + ProductsPath, query)
  {
    ResolveProducts(query);
    ProductsQueryRoundTrip(s.serverUrl, query);
  }

  // ----- Examples of the documented behaviour -----

  /** `GET /v1/api/products?category=shoes` calls `<server>/v1/api/products?category=shoes`. */
  lemma ExampleProductsQuery(s: Server, upstream: UpstreamRequest -> Exchange)
    ensures var t := Handle(s, Request(Get, ProductsPath, "category=shoes", []), upstream);
      t.Some? && t.value.sent == [UpstreamRequest(Get, s.serverUrl + "/v1/api/products?category=shoes", None, [])]
  {
    ResolveProducts("category=shoes");
    assert ProductsPath + "?" + "category=shoes" == "/v1/api/products?category=shoes";
  }

  /** `GET /v1/api/products/details/ABC123` calls `<server>/v1/api/products/details/ABC123`. */
  lemma ExampleProductDetails(s: Server, upstream: UpstreamRequest -> Exchange)
    ensures var t := Handle(s, Request(Get, "/v1/api/products/details/ABC123", "", []), upstream);
      t.Some? && t.value.sent == [UpstreamRequest(Get, s.serverUrl + "/v1/api/products/details/ABC123", None, [])]
  {
    assert IsSegment("ABC123");
    assert DetailsPrefix + "ABC123" == "/v1/api/products/details/ABC123";
    ResolveProductInfo("ABC123", "");
  }

  /** A 201 answer with a JSON body to a signup is relayed as 201 with the same bytes. */
  lemma ExampleCreatedRelayed(s: Server, reqBody: seq<byte>, respBody: seq<byte>)
    ensures var t := Handle(s, Request(Post, SignupPath, "", reqBody), _ => Ok(201, respBody));
      t == Some(Transaction([UpstreamRequest(Post, s.serverUrl + SignupPath, Some(JsonContentType), reqBody)],
                            Relay(201, respBody)))
  {
    StaticRoutesForwardToOwnPath(4);
  }
}
