/**
 * The gateway seen from the network: the router of src/main.rs:63-73, the gateway as the
 * network a SimpleFin client talks to, and the setup, claim and poll steps chained together.
 */
module Protocol {
  import opened Wrappers
  import opened Primitives
  import opened Http
  import opened Rotki
  import opened SimpleFinApi
  import opened Gateway
  import Base64
  import Utf8

  /** A path parameter such as `:b64_rotki_url` matches one non-empty segment: no `/` in it. */
  predicate IsSegment(t: string) {
    |t| > 0 && '/' !in t
  }

  // ---------------------------------------------------------------- routing

  datatype Route = Root | Health | Exchange(token: string) | Poll(token: string) | Unrouted

  const RootPath: string := "/"
  const HealthPath: string := "/_health"

  /** What follows `/f/` in a path, if it starts so. */
  function AfterPrefix(path: string): (rest: Option<string>)
    ensures rest.Some? ==> path == BridgePrefix + rest.value
  {
    if |path| >= |BridgePrefix| && path[..|BridgePrefix|] == BridgePrefix then
      assert path == path[..|BridgePrefix|] + path[|BridgePrefix|..];
      Some(path[|BridgePrefix|..])
    else None
  }

  /** What precedes `/accounts` in a path, if it ends so. */
  function BeforeSuffix(rest: string): (token: Option<string>)
    ensures token.Some? ==> rest == token.value + AccountsSuffix
  {
    if |rest| >= |AccountsSuffix| && rest[|rest| - |AccountsSuffix|..] == AccountsSuffix then
      var token := rest[..|rest| - |AccountsSuffix|];
      assert rest == token + rest[|rest| - |AccountsSuffix|..];
      Some(token)
    else None
  }

  lemma AfterPrefixOf(rest: string)
    ensures AfterPrefix(BridgePrefix + rest) == Some(rest)
  {
    var path := BridgePrefix + rest;
    assert path[..|BridgePrefix|] == BridgePrefix && path[|BridgePrefix|..] == rest;
  }

  lemma BeforeSuffixOf(token: string)
    ensures BeforeSuffix(token + AccountsSuffix) == Some(token)
  {
    var rest := token + AccountsSuffix;
    assert rest[|rest| - |AccountsSuffix|..] == AccountsSuffix;
    assert rest[..|rest| - |AccountsSuffix|] == token;
  }

  /** Which route of the router a path is: `/`, `/_health`, `/f/:b64_rotki_url`, `/f/:b64_rotki_url/accounts`, or none. */
  function MatchRoute(path: string): (r: Route)
    ensures r.Root? <==> path == RootPath
    ensures r.Health? <==> path == HealthPath
    ensures r.Exchange? ==> IsSegment(r.token) && path == BridgePrefix + r.token
    ensures r.Poll? ==> IsSegment(r.token) && path == BridgePrefix + r.token + AccountsSuffix
  {
    if path == RootPath then Root
    else if path == HealthPath then Health
    else
      match AfterPrefix(path)
      case None => Unrouted
      case Some(rest) =>
        if IsSegment(rest) then Exchange(rest)
        else
          match BeforeSuffix(rest)
          case None => Unrouted
          case Some(token) => if IsSegment(token) then Poll(token) else Unrouted
  }

  /** Every segment token reaches its handler: the router loses no well-formed path. */
  lemma RoutesOfSegment(t: string)
    requires IsSegment(t)
    ensures MatchRoute(BridgePrefix + t) == Exchange(t)
    ensures MatchRoute(BridgePrefix + t + AccountsSuffix) == Poll(t)
  {
    AfterPrefixOf(t);
    var rest := t + AccountsSuffix;
    assert BridgePrefix + t + AccountsSuffix == BridgePrefix + rest;
    AfterPrefixOf(rest);
    assert rest[|t|] == '/';
    BeforeSuffixOf(t);
    var p, q := BridgePrefix + t, BridgePrefix + rest;
    assert p[1] == 'f' && q[1] == 'f';
  }

  /** The one method each route answers; any other is a 405. */
  function RouteMethod(r: Route): Method
    requires !r.Unrouted?
  {
    if r.Exchange? then Post else Get
  }

  // ---------------------------------------------------------------- serving

  /** What the gateway sends on to Rotki while handling one request, and its response. */
  datatype Handled = Handled(sent: seq<Request>, response: Response)

  /** `POST /f/:b64_rotki_url`: the access URL as text, or the error page. */
  function ExchangeHandler(appUrl: string, token: string): (response: Response)
    ensures response.status == 200 <==> Base64.Decode(token).Success?
    ensures response.status == 200 ==> response.body == Text(SyncUrl(appUrl, token))
    ensures response.status != 200 ==> response == IntoResponse(PostExchangeToken(appUrl, token).error)
  {
    Reply(match PostExchangeToken(appUrl, token)
          case Success(syncUrl) => Success(Text(syncUrl))
          case Failure(e) => Failure(e))
  }

  /** `GET /f/:b64_rotki_url/accounts`: the account set as JSON, or the error page. */
  function PollHandler(token: string, rotkiNet: Network, parse: Parser<RotkiBalanceResponse>, now: DateTime)
    : (h: Handled)
    ensures h.sent == GetRotki(token, rotkiNet, parse, now).sent
    ensures h.response.status == 200 <==> GetRotki(token, rotkiNet, parse, now).outcome.Success?
    ensures h.response.status == 200 ==> h.response.body == Json(GetRotki(token, rotkiNet, parse, now).outcome.value)
    ensures h.response.status != 200 ==> h.response == IntoResponse(GetRotki(token, rotkiNet, parse, now).outcome.error)
  {
    var c := GetRotki(token, rotkiNet, parse, now);
    Handled(c.sent, Reply(match c.outcome
                          case Success(accountSet) => Success(Json(accountSet))
                          case Failure(e) => Failure(e)))
  }

  const HealthText: string := "OK"

  /**
   * The router, given the path and the query of a request. An unknown path is a 404, a
   * known path with the wrong method a 405; neither reaches a handler, and only a GET of the
   * poll route sends anything on to Rotki.
   */
  function Serve(appUrl: string, verb: Method, path: string, query: seq<(string, string)>,
                 rotkiNet: Network, parse: Parser<RotkiBalanceResponse>, now: DateTime): (h: Handled)
    ensures h.response.status in {200, 404, 405, 500}
    ensures h.response.status == 404 <==> MatchRoute(path).Unrouted?
    ensures !MatchRoute(path).Unrouted? ==> (h.response.status == 405 <==> verb != RouteMethod(MatchRoute(path)))
    ensures h.sent != [] ==> verb == Get && MatchRoute(path).Poll?
  {
    var route := MatchRoute(path);
    if route.Unrouted? then Handled([], Response(404, Text("")))
    else if verb != RouteMethod(route) then Handled([], Response(405, Text("")))
    else
      match route
      case Root => Handled([], Response(200, Page(GetRoot(appUrl, RotkiQuery(query)))))
      case Health => Handled([], Response(200, Text(HealthText)))
      case Exchange(token) => Handled([], ExchangeHandler(appUrl, token))
      case Poll(token) => PollHandler(token, rotkiNet, parse, now)
  }

  /** `GET /?rotki_url=U` shows the page with the setup token for `U`. */
  lemma ServeSetupPage(appUrl: string, rotkiUrl: string, rotkiNet: Network,
                       parse: Parser<RotkiBalanceResponse>, now: DateTime)
    ensures Serve(appUrl, Get, RootPath, [(RotkiUrlKey, rotkiUrl)], rotkiNet, parse, now)
            == Handled([], Response(200, Page(GetRoot(appUrl, Some(RotkiUrl(rotkiUrl))))))
  {
    assert QueryValues([(RotkiUrlKey, rotkiUrl)], RotkiUrlKey) == [rotkiUrl];
  }

  /** A POST of `/f/{token}`, for a segment token, reaches the exchange handler. */
  lemma ServeExchange(appUrl: string, token: string, query: seq<(string, string)>, rotkiNet: Network,
                      parse: Parser<RotkiBalanceResponse>, now: DateTime)
    requires IsSegment(token)
    ensures Serve(appUrl, Post, BridgePrefix + token, query, rotkiNet, parse, now)
            == Handled([], ExchangeHandler(appUrl, token))
  {
    RoutesOfSegment(token);
  }

  /** A GET of `/f/{token}/accounts`, for a segment token, reaches the poll handler. */
  lemma ServePoll(appUrl: string, token: string, query: seq<(string, string)>, rotkiNet: Network,
                  parse: Parser<RotkiBalanceResponse>, now: DateTime)
    requires IsSegment(token)
    ensures Serve(appUrl, Get, BridgePrefix + token + AccountsSuffix, query, rotkiNet, parse, now)
            == PollHandler(token, rotkiNet, parse, now)
  {
    RoutesOfSegment(token);
  }

  // ---------------------------------------------------------------- the gateway on the network

  /** The place the gateway listens at, as clients address it: `{scheme}://{authority}`. */
  datatype OriginParts = OriginParts(scheme: string, authority: string)

  /** A scheme without `:` and a non-empty authority (host and port) without `/`: no path. */
  type Origin = o: OriginParts | IsSegment(o.scheme) && ':' !in o.scheme && IsSegment(o.authority)
    witness OriginParts("http", "localhost")

  function OriginUrl(origin: Origin): string {
    origin.scheme + "://" + origin.authority
  }

  /**
   * The path a request for `url` arrives with at the gateway listening at `origin`, or
   * `None` when `url` names another origin. The authority has no `/`, so the path is all
   * that follows it; the bare origin is requested with the path `/`, since a request
   * target is never empty.
   */
  function ServerPath(origin: Origin, url: string): (p: Option<string>)
    ensures p.Some? ==> |p.value| > 0 && p.value[0] == '/'
    ensures p.Some? ==> url == OriginUrl(origin) + p.value || (url == OriginUrl(origin) && p.value == RootPath)
    ensures url == OriginUrl(origin) ==> p == Some(RootPath)
  {
    var o := OriginUrl(origin);
    if url == o then Some(RootPath)
    else if |o| < |url| && url[..|o|] == o && url[|o|] == '/' then
      assert url == o + url[|o|..];
      Some(url[|o|..])
    else None
  }

  lemma ServerPathOf(origin: Origin, path: string)
    requires |path| > 0 && path[0] == '/'
    ensures ServerPath(origin, OriginUrl(origin) + path) == Some(path)
  {
    var o := OriginUrl(origin);
    var url := o + path;
    assert url[..|o|] == o && url[|o|..] == path;
  }

  /** A URL under the access URL of a gateway configured with its own origin arrives as a path under `/f/{token}`. */
  lemma AccessPath(origin: Origin, token: string, suffix: string)
    requires suffix == [] || suffix[0] == '/'
    ensures ServerPath(origin, SyncUrl(OriginUrl(origin), token) + suffix) == Some(BridgePrefix + token + suffix)
  {
    var path := BridgePrefix + token + suffix;
    assert SyncUrl(OriginUrl(origin), token) + suffix == OriginUrl(origin) + path;
    ServerPathOf(origin, path);
  }

  /** The access URL of a gateway configured with its own origin arrives as the path `/f/{token}`. */
  lemma AccessUrlPath(origin: Origin, token: string)
    ensures ServerPath(origin, SyncUrl(OriginUrl(origin), token)) == Some(BridgePrefix + token)
  {
    assert SyncUrl(OriginUrl(origin), token) == OriginUrl(origin) + (BridgePrefix + token);
    ServerPathOf(origin, BridgePrefix + token);
  }

  /** With `app_url` one `/` longer than the origin, the claim link arrives as the path `//f/{token}`. */
  lemma SlashedAccessUrlPath(origin: Origin, token: string)
    ensures ServerPath(origin, SyncUrl(OriginUrl(origin) + "/", token)) == Some("/" + BridgePrefix + token)
  {
    assert SyncUrl(OriginUrl(origin) + "/", token) == OriginUrl(origin) + ("/" + BridgePrefix + token);
    ServerPathOf(origin, "/" + BridgePrefix + token);
  }

  /** With one `/` too many in front, no route matches: `//f/{token}` is no path of the router. */
  lemma DoubleSlashUnrouted(token: string)
    ensures MatchRoute("/" + BridgePrefix + token) == Unrouted
  {
    var path := "/" + BridgePrefix + token;
    assert path[..3] == "//f" && path[1] == '/';
  }

  /** How bodies become text: the JSON of an account set, the HTML page of `GET /`. */
  datatype Renderers = Renderers(json: AccountSet -> string, page: Option<string> -> string)

  function BodyText(body: Body, renderers: Renderers): string {
    match body
    case Text(text) => text
    case Json(accountSet) => renderers.json(accountSet)
    case Page(setupToken) => renderers.page(setupToken)
  }

  /**
   * The network as a SimpleFin client sees it when the gateway, configured with `appUrl`,
   * listens at `origin`: requests for `origin` are served by the router with the path they
   * arrive with; any other origin is unreachable.
   */
  function GatewayNetwork(origin: Origin, appUrl: string, rotkiNet: Network, parse: Parser<RotkiBalanceResponse>,
                          now: DateTime, renderers: Renderers): Network
  {
    (request: Request) =>
      match ServerPath(origin, request.url)
      case None => Failure("unreachable host")
      case Some(path) =>
        var h := Serve(appUrl, request.verb, path, request.query, rotkiNet, parse, now);
        Success(HttpResponse(h.response.status, BodyText(h.response.body, renderers)))
  }

  /** A request that reaches the gateway is answered by the router, with the path it arrives with. */
  lemma NetworkServes(origin: Origin, appUrl: string, rotkiNet: Network, parse: Parser<RotkiBalanceResponse>,
                      now: DateTime, renderers: Renderers, request: Request, path: string, response: Response)
    requires ServerPath(origin, request.url) == Some(path)
    requires Serve(appUrl, request.verb, path, request.query, rotkiNet, parse, now).response == response
    ensures GatewayNetwork(origin, appUrl, rotkiNet, parse, now, renderers)(request)
            == Success(HttpResponse(response.status, BodyText(response.body, renderers)))
  {
  }

  /** A path no route matches is a 404 with an empty body, whatever the method and the query. */
  lemma ServeUnrouted(appUrl: string, verb: Method, path: string, query: seq<(string, string)>,
                      rotkiNet: Network, parse: Parser<RotkiBalanceResponse>, now: DateTime)
    requires MatchRoute(path).Unrouted?
    ensures Serve(appUrl, verb, path, query, rotkiNet, parse, now) == Handled([], Response(404, Text("")))
  {
  }

  /** The bare origin, with `?rotki_url=U`, reaches the setup page over the network. */
  lemma OriginShowsSetupPage(origin: Origin, appUrl: string, rotkiUrl: string, rotkiNet: Network,
                             parse: Parser<RotkiBalanceResponse>, now: DateTime, renderers: Renderers)
    ensures GatewayNetwork(origin, appUrl, rotkiNet, parse, now, renderers)(Request(Get, OriginUrl(origin), [(RotkiUrlKey, rotkiUrl)]))
            == Success(HttpResponse(200, renderers.page(GetRoot(appUrl, Some(RotkiUrl(rotkiUrl))))))
  {
    ServeSetupPage(appUrl, rotkiUrl, rotkiNet, parse, now);
    NetworkServes(origin, appUrl, rotkiNet, parse, now, renderers, Request(Get, OriginUrl(origin), [(RotkiUrlKey, rotkiUrl)]),
                  RootPath, Response(200, Page(GetRoot(appUrl, Some(RotkiUrl(rotkiUrl))))));
  }

  // ---------------------------------------------------------------- the handshake

  /** The setup token decodes, read back as a string, to exactly the claim link `GetRoot` built. */
  lemma SetupTokenSpellsClaimLink(appUrl: string, rotkiUrl: string)
    ensures var setup := GetRoot(appUrl, Some(RotkiUrl(rotkiUrl))).value;
            Base64.Decode(setup).Success?
            && Utf8.DecodeLossy(Base64.Decode(setup).value) == SyncUrl(appUrl, ClaimToken(rotkiUrl))
  {
    Utf8.DecodeLossyEncode(SyncUrl(appUrl, ClaimToken(rotkiUrl)));
  }

  /** Whatever the network, the client's claim request for a minted setup token is one POST to the claim link. */
  lemma ClientPostsClaimLink(appUrl: string, rotkiUrl: string, net: Network)
    ensures TokenToAccessUrl(GetRoot(appUrl, Some(RotkiUrl(rotkiUrl))).value, net).sent
            == [Request(Post, SyncUrl(appUrl, ClaimToken(rotkiUrl)), [])]
  {
    SetupTokenSpellsClaimLink(appUrl, rotkiUrl);
  }

  /**
   * Exchange is idempotent in the strong sense: for a gateway configured with its own
   * origin, POSTing to the access URL it returned gives that same access URL again.
   */
  lemma ExchangeIdempotent(origin: Origin, token: string, rotkiNet: Network,
                           parse: Parser<RotkiBalanceResponse>, now: DateTime)
    requires IsSegment(token) && Base64.Decode(token).Success?
    ensures var appUrl := OriginUrl(origin);
            var first := Serve(appUrl, Post, BridgePrefix + token, [], rotkiNet, parse, now).response;
            first == Response(200, Text(SyncUrl(appUrl, token)))
            && ServerPath(origin, first.body.text) == Some(BridgePrefix + token)
            && Serve(appUrl, Post, ServerPath(origin, first.body.text).value, [], rotkiNet, parse, now).response == first
  {
    var appUrl := OriginUrl(origin);
    ServeExchange(appUrl, token, [], rotkiNet, parse, now);
    AccessUrlPath(origin, token);
  }

  /** The router answers the POST of a minted claim token's path with the claim link. */
  lemma ServeClaim(appUrl: string, rotkiUrl: string, rotkiNet: Network, parse: Parser<RotkiBalanceResponse>, now: DateTime)
    requires IsSegment(ClaimToken(rotkiUrl))
    ensures Serve(appUrl, Post, BridgePrefix + ClaimToken(rotkiUrl), [], rotkiNet, parse, now).response
            == Response(200, Text(SyncUrl(appUrl, ClaimToken(rotkiUrl))))
  {
    ExchangeOfClaimToken(appUrl, rotkiUrl);
    ServeExchange(appUrl, ClaimToken(rotkiUrl), [], rotkiNet, parse, now);
  }

  /** The claim POST a client makes to a gateway configured with its own origin is answered with the access URL. */
  lemma ClaimAnswered(origin: Origin, rotkiUrl: string, rotkiNet: Network, parse: Parser<RotkiBalanceResponse>,
                      now: DateTime, renderers: Renderers)
    requires IsSegment(ClaimToken(rotkiUrl))
    ensures var appUrl := OriginUrl(origin);
            var accessUrl := SyncUrl(appUrl, ClaimToken(rotkiUrl));
            GatewayNetwork(origin, appUrl, rotkiNet, parse, now, renderers)(Request(Post, accessUrl, []))
            == Success(HttpResponse(200, accessUrl))
  {
    var appUrl := OriginUrl(origin);
    var token := ClaimToken(rotkiUrl);
    var accessUrl := SyncUrl(appUrl, token);
    ServeClaim(appUrl, rotkiUrl, rotkiNet, parse, now);
    AccessUrlPath(origin, token);
    NetworkServes(origin, appUrl, rotkiNet, parse, now, renderers, Request(Post, accessUrl, []), BridgePrefix + token,
                  Response(200, Text(accessUrl)));
  }

  /** A client holding the setup token for `rotkiUrl` claims the access URL `{app_url}/f/{token}`. */
  lemma ClaimStep(origin: Origin, rotkiUrl: string, rotkiNet: Network, parse: Parser<RotkiBalanceResponse>,
                  now: DateTime, renderers: Renderers)
    requires IsSegment(ClaimToken(rotkiUrl))
    ensures var appUrl := OriginUrl(origin);
            var net := GatewayNetwork(origin, appUrl, rotkiNet, parse, now, renderers);
            TokenToAccessUrl(GetRoot(appUrl, Some(RotkiUrl(rotkiUrl))).value, net).outcome
            == Success(SyncUrl(appUrl, ClaimToken(rotkiUrl)))
  {
    var appUrl := OriginUrl(origin);
    var net := GatewayNetwork(origin, appUrl, rotkiNet, parse, now, renderers);
    ClientPostsClaimLink(appUrl, rotkiUrl, net);
    ClaimAnswered(origin, rotkiUrl, rotkiNet, parse, now, renderers);
  }

  /**
   * A client polling the access URL of a segment token reaches the poll route with that
   * token, and serving the poll asks the Rotki instance the token names for its balances, once.
   */
  lemma PollStep(origin: Origin, rotkiUrl: string, rotkiNet: Network, parse: Parser<RotkiBalanceResponse>,
                 now: DateTime, net: Network, parseSet: Parser<AccountSet>)
    requires IsSegment(ClaimToken(rotkiUrl))
    ensures var appUrl := OriginUrl(origin);
            var token := ClaimToken(rotkiUrl);
            var poll := Accounts(SyncUrl(appUrl, token), net, parseSet).sent[0];
            && ServerPath(origin, poll.url) == Some(BridgePrefix + token + AccountsSuffix)
            && MatchRoute(BridgePrefix + token + AccountsSuffix) == Poll(token)
            && Serve(appUrl, Get, BridgePrefix + token + AccountsSuffix, poll.query, rotkiNet, parse, now).sent
               == [Request(Get, rotkiUrl + BalancesPath, [])]
  {
    var appUrl := OriginUrl(origin);
    var token := ClaimToken(rotkiUrl);
    RoutesOfSegment(token);
    AccessPath(origin, token, AccountsSuffix);
    ServePoll(appUrl, token, StartDateQuery, rotkiNet, parse, now);
    PollFetchesMintedUrl(rotkiUrl, rotkiNet, parse, now);
  }

  /**
   * The whole handshake, for a gateway configured with its own origin and a Rotki URL whose
   * claim token is a single path segment: the page of `GET /?rotki_url=U` shows a setup
   * token; the SimpleFin client holding it gets back the access URL `{app_url}/f/{token}`
   * with the claim token unchanged; its poll of `{access_url}/accounts?start-date=0` reaches
   * the poll route with that same token; and serving that poll asks the Rotki instance at
   * `U` for its balances, once.
   */
  lemma Handshake(origin: Origin, rotkiUrl: string, rotkiNet: Network, parse: Parser<RotkiBalanceResponse>,
                  now: DateTime, renderers: Renderers, parseSet: Parser<AccountSet>)
    requires IsSegment(ClaimToken(rotkiUrl))
    ensures var appUrl := OriginUrl(origin);
            var net := GatewayNetwork(origin, appUrl, rotkiNet, parse, now, renderers);
            var page := Serve(appUrl, Get, RootPath, [(RotkiUrlKey, rotkiUrl)], rotkiNet, parse, now).response;
            var token := ClaimToken(rotkiUrl);
            var accessUrl := SyncUrl(appUrl, token);
            var poll := Accounts(accessUrl, net, parseSet).sent[0];
            && page.status == 200 && page.body.Page? && page.body.setupToken.Some?
            && TokenToAccessUrl(page.body.setupToken.value, net).outcome == Success(accessUrl)
            && ServerPath(origin, poll.url) == Some(BridgePrefix + token + AccountsSuffix)
            && MatchRoute(BridgePrefix + token + AccountsSuffix) == Poll(token)
            && Serve(appUrl, Get, BridgePrefix + token + AccountsSuffix, poll.query, rotkiNet, parse, now).sent
               == [Request(Get, rotkiUrl + BalancesPath, [])]
  {
    ServeSetupPage(OriginUrl(origin), rotkiUrl, rotkiNet, parse, now);
    ClaimStep(origin, rotkiUrl, rotkiNet, parse, now, renderers);
    PollStep(origin, rotkiUrl, rotkiNet, parse, now, GatewayNetwork(origin, OriginUrl(origin), rotkiNet, parse, now, renderers), parseSet);
  }

  // ---------------------------------------------------------------- where the handshake breaks

  /**
   * An app URL configured with a trailing `/` breaks the claim: the claim link's path is
   * `//f/{token}`, which no route matches, so the claim is a 404 and the client takes its
   * empty body for the access URL.
   */
  lemma TrailingSlashAppUrl(origin: Origin, rotkiUrl: string, rotkiNet: Network,
                            parse: Parser<RotkiBalanceResponse>, now: DateTime, renderers: Renderers)
    ensures var appUrl := OriginUrl(origin) + "/";
            var net := GatewayNetwork(origin, appUrl, rotkiNet, parse, now, renderers);
            TokenToAccessUrl(GetRoot(appUrl, Some(RotkiUrl(rotkiUrl))).value, net).outcome == Success("")
  {
    var appUrl := OriginUrl(origin) + "/";
    var token := ClaimToken(rotkiUrl);
    var net := GatewayNetwork(origin, appUrl, rotkiNet, parse, now, renderers);
    ClientPostsClaimLink(appUrl, rotkiUrl, net);
    var path := "/" + BridgePrefix + token;
    SlashedAccessUrlPath(origin, token);
    DoubleSlashUnrouted(token);
    ServeUnrouted(appUrl, Post, path, [], rotkiNet, parse, now);
    NetworkServes(origin, appUrl, rotkiNet, parse, now, renderers, Request(Post, SyncUrl(appUrl, token), []), path,
                  Response(404, Text("")));
  }

  /**
   * The standard alphabet's `/` can break the routes: the Rotki URL `???` has the claim
   * token `Pz8/`, and neither bridge route matches a path built from it.
   */
  lemma SlashInTokenUnrouted()
    ensures ClaimToken("???") == "Pz8/"
    ensures MatchRoute(BridgePrefix + ClaimToken("???")) == Unrouted
    ensures MatchRoute(BridgePrefix + ClaimToken("???") + AccountsSuffix) == Unrouted
  {
    assert Utf8.Encode("???") == [63, 63, 63];
    assert Base64.Sextets([63, 63, 63]) == [15, 51, 60, 63];
    var t := "Pz8/";
    assert Base64.Symbols([15, 51, 60, 63]) == t;
    assert !IsSegment(t) by { assert t[3] == '/'; }
    AfterPrefixOf(t);
    var rest := t + AccountsSuffix;
    assert BridgePrefix + t + AccountsSuffix == BridgePrefix + rest;
    AfterPrefixOf(rest);
    assert rest[3] == '/';
    BeforeSuffixOf(t);
    var p, q := BridgePrefix + t, BridgePrefix + rest;
    assert p[1] == 'f' && q[1] == 'f';
  }
}
