/**
 * The gateway's handlers (src/main.rs): minting the setup token, the token exchange, the
 * balance poll, the translation of Rotki balances into a SimpleFin account set, and the
 * mapping of every error to one response.
 */
module Gateway {
  import opened Wrappers
  import opened Primitives
  import opened HashMaps
  import opened Http
  import opened Rotki
  import opened SimpleFinApi
  import Base64
  import Utf8

  // ---------------------------------------------------------------- tokens

  /** The `rotki_url` query of `GET /`. */
  datatype RotkiUrl = RotkiUrl(rotkiUrl: string)

  const RotkiUrlKey: string := "rotki_url"

  /** The values a query string gives for `key`, in order: each value as often as the query pairs it with `key`. */
  function QueryValues(query: seq<(string, string)>, key: string): (values: seq<string>)
    ensures forall v :: v in values <==> (key, v) in query
    ensures forall v :: multiset(values)[v] == multiset(query)[(key, v)]
  {
    if |query| == 0 then []
    else
      assert query == [query[0]] + query[1..];
      assert forall p :: p in query <==> p == query[0] || p in query[1..];
      (if query[0].0 == key then [query[0].1] else []) + QueryValues(query[1..], key)
  }

  /**
   * `Option<Query<RotkiUrl>>`: the query deserialises into `RotkiUrl` when it gives
   * `rotki_url` exactly once (other parameters are ignored, a repeated field is an error);
   * otherwise the extractor yields `None`.
   */
  function RotkiQuery(query: seq<(string, string)>): (q: Option<RotkiUrl>)
    ensures q.Some? <==> |QueryValues(query, RotkiUrlKey)| == 1
    ensures q.Some? ==> (RotkiUrlKey, q.value.rotkiUrl) in query
  {
    var values := QueryValues(query, RotkiUrlKey);
    if |values| == 1 then
      assert values[0] in values;
      Some(RotkiUrl(values[0]))
    else None
  }

  /** A repeated `rotki_url` is a duplicate field: the extractor yields `None`, even with equal values. */
  lemma RepeatedRotkiUrlRejected(rotkiUrl: string)
    ensures RotkiQuery([(RotkiUrlKey, rotkiUrl), (RotkiUrlKey, rotkiUrl)]) == None
  {
    var query := [(RotkiUrlKey, rotkiUrl), (RotkiUrlKey, rotkiUrl)];
    var values := QueryValues(query, RotkiUrlKey);
    assert multiset(query)[(RotkiUrlKey, rotkiUrl)] == 2;
    assert multiset(values)[rotkiUrl] == 2;
  }

  /** The claim token: the Rotki URL's UTF-8 octets in base64. It decodes back to those octets. */
  function ClaimToken(rotkiUrl: string): (token: string)
    ensures Base64.Decode(token) == Success(Utf8.Encode(rotkiUrl))
  {
    Base64.DecodeEncode(Utf8.Encode(rotkiUrl));
    Base64.Encode(Utf8.Encode(rotkiUrl))
  }

  /** What precedes the token in the paths of the bridge routes. */
  const BridgePrefix: string := "/f/"

  /** `{app_url}/f/{token}`: the claim link, and also the access URL. The token ends it verbatim. */
  function SyncUrl(appUrl: string, token: string): (url: string)
    ensures |url| == |appUrl| + |BridgePrefix| + |token|
    ensures url[..|appUrl|] == appUrl && url[|appUrl| + |BridgePrefix|..] == token
  {
    var url := appUrl + BridgePrefix + token;
    assert url[|appUrl| + |BridgePrefix|..] == token;
    url
  }

  /** The setup token: the claim link's UTF-8 octets in base64, a second encoding. */
  function SetupToken(syncUrl: string): (token: string)
    ensures Base64.Decode(token) == Success(Utf8.Encode(syncUrl))
  {
    Base64.DecodeEncode(Utf8.Encode(syncUrl));
    Base64.Encode(Utf8.Encode(syncUrl))
  }

  /**
   * `get_root` without its page: the setup token it shows, present exactly when the
   * `rotki_url` query is, and decoding to the claim link for that URL.
   */
  function GetRoot(appUrl: string, query: Option<RotkiUrl>): (setupToken: Option<string>)
    ensures setupToken.Some? <==> query.Some?
    ensures query.Some? ==>
              Base64.Decode(setupToken.value)
              == Success(Utf8.Encode(SyncUrl(appUrl, ClaimToken(query.value.rotkiUrl))))
  {
    match query
    case None => None
    case Some(q) =>
      Some(SetupToken(SyncUrl(appUrl, ClaimToken(q.rotkiUrl))))
  }

  // ---------------------------------------------------------------- errors and responses

  /** `AppError`: whatever failed in a handler, wrapped as one error. */
  datatype AppError = TokenInvalid(decodeError: Base64.DecodeError) | BalancesUnavailable(fetchError: Rotki.Error)

  const ErrorPrefix: string := "Something went wrong: "

  /**
   * The diagnostic text of an error: a fetch error's own message unchanged; for a token
   * that does not decode, this model's wording (not the crate's `Display`).
   */
  function Describe(e: AppError): (text: string)
    ensures e.BalancesUnavailable? ==> text == e.fetchError.message
    ensures e.TokenInvalid? ==> |text| > 0
  {
    match e
    case TokenInvalid(_) => "invalid base64 token"
    case BalancesUnavailable(e) => e.message
  }

  /** A response body: text, an account set as JSON, or the HTML page of `GET /` showing a setup token, if any. */
  datatype Body = Text(text: string) | Json(accountSet: AccountSet) | Page(setupToken: Option<string>)

  datatype Response = Response(status: nat, body: Body)

  /** `IntoResponse for AppError`: every error, of every kind, is a 500 with a text body. */
  function IntoResponse(e: AppError): (r: Response)
    ensures r.status == 500 && r.body.Text?
    ensures |r.body.text| >= |ErrorPrefix| && r.body.text[..|ErrorPrefix|] == ErrorPrefix
  {
    Response(500, Text(ErrorPrefix + Describe(e)))
  }

  /** A handler's `Result<Response, AppError>` as the response the client gets. */
  function Reply(r: Result<Body, AppError>): (resp: Response)
    ensures resp.status == 200 <==> r.Success?
    ensures r.Success? ==> resp.body == r.value
    ensures r.Failure? ==> resp == IntoResponse(r.error)
  {
    match r
    case Success(body) => Response(200, body)
    case Failure(e) => IntoResponse(e)
  }

  // ---------------------------------------------------------------- exchange

  /**
   * `post_exchange_token`: a token that does not decode is an error; any other token comes
   * back inside `{app_url}/f/{token}` exactly as it was given, not re-encoded.
   */
  function PostExchangeToken(appUrl: string, token: string): (r: Result<string, AppError>)
    ensures Base64.Decode(token).Failure? ==> r == Failure(TokenInvalid(Base64.Decode(token).error))
    ensures Base64.Decode(token).Success? ==> r == Success(SyncUrl(appUrl, token))
  {
    var _ :- DecodeToken(token);
    Success(SyncUrl(appUrl, token))
  }

  /** `BASE64_STANDARD.decode(...)?` inside a handler. */
  function DecodeToken(token: string): (r: Result<seq<byte>, AppError>)
    ensures Base64.Decode(token).Failure? ==> r == Failure(TokenInvalid(Base64.Decode(token).error))
    ensures Base64.Decode(token).Success? ==> r == Success(Base64.Decode(token).value)
  {
    match Base64.Decode(token)
    case Failure(e) => Failure(TokenInvalid(e))
    case Success(bytes) => Success(bytes)
  }

  /** The exchange accepts exactly the tokens that are base64 encodings of something. */
  lemma ExchangeAcceptsExactlyEncodings(appUrl: string, token: string)
    ensures PostExchangeToken(appUrl, token).Success? <==> exists b :: Base64.Encode(b) == token
  {
    Base64.DecodeSucceedsIff(token);
  }

  /** Exchanging a claim token minted by `GetRoot` gives the claim link itself. */
  lemma ExchangeOfClaimToken(appUrl: string, rotkiUrl: string)
    ensures PostExchangeToken(appUrl, ClaimToken(rotkiUrl)) == Success(SyncUrl(appUrl, ClaimToken(rotkiUrl)))
  {
    Base64.DecodeEncode(Utf8.Encode(rotkiUrl));
  }

  // ---------------------------------------------------------------- translation

  const SfinUrl: string := "https://example.com/sfn_url"
  const Usd: string := "usd"

  /** The one organization every translated account names. */
  const BridgeOrg: Organization := Organization(None, SfinUrl, None)

  /** The account for one location. */
  function ToAccount(now: DateTime, name: string, value: BalanceLocationValue): (a: Account)
    ensures a.id == name && a.name == name && a.balance == value.usdValue
    ensures a.org == BridgeOrg && a.currency == Usd && a.availableBalance == None
    ensures a.balanceDate == now && a.transactions == []
  {
    Account(BridgeOrg, name, name, Usd, value.usdValue, None, now, [])
  }

  function AccountIds(accounts: seq<Account>): set<string> {
    set a | a in accounts :: a.id
  }

  /**
   * `balances_to_sf` with the clock reading `now` passed in: one account per location, in
   * the map's iteration order, and no errors. It never fails.
   */
  function BalancesToSf(b: RotkiBalanceResponse, now: DateTime): (r: Result<AccountSet, AppError>)
    ensures r.Success? && r.value.errors == []
    ensures |r.value.accounts| == |b.result.location|
    ensures AccountIds(r.value.accounts) == Keys(b.result.location)
    ensures forall i, j :: 0 <= i < j < |r.value.accounts| ==> r.value.accounts[i].id != r.value.accounts[j].id
    ensures forall a :: a in r.value.accounts ==>
              a.id == a.name && Lookup(b.result.location, a.id) == Some(BalanceLocationValue(a.balance))
    ensures forall a :: a in r.value.accounts ==>
              && a.org == BridgeOrg
              && a.currency == Usd
              && a.availableBalance == None
              && a.balanceDate == now
              && a.transactions == []
  {
    var location := b.result.location;
    var accounts := seq(|location|, i requires 0 <= i < |location| => ToAccount(now, location[i].0, location[i].1));
    assert forall a :: a in accounts ==> exists i :: 0 <= i < |location| && a == accounts[i];
    assert AccountIds(accounts) == Keys(location) by {
      forall k | k in Keys(location) ensures k in AccountIds(accounts) {
        var i :| 0 <= i < |location| && location[i].0 == k;
        assert accounts[i] in accounts;
      }
    }
    Success(AccountSet([], accounts))
  }

  /** In a sequence without repeats every element occurs once. */
  lemma {:induction false} OccursOnce<T>(s: seq<T>, x: T)
    requires forall i, j :: 0 <= i < j < |s| ==> s[i] != s[j]
    ensures multiset(s)[x] == if x in s then 1 else 0
  {
    if |s| > 0 {
      OccursOnce(s[1..], x);
      assert s == [s[0]] + s[1..];
      assert s[0] !in s[1..];
    }
  }

  /**
   * The iteration order of the location map does not matter: two orders of the same map
   * translate to the same accounts, each as often (once), only perhaps in another order.
   */
  lemma IterationOrderIrrelevant(b1: RotkiBalanceResponse, b2: RotkiBalanceResponse, now: DateTime)
    requires SameMap(b1.result.location, b2.result.location)
    ensures multiset(BalancesToSf(b1, now).value.accounts) == multiset(BalancesToSf(b2, now).value.accounts)
  {
    var a1, a2 := BalancesToSf(b1, now).value.accounts, BalancesToSf(b2, now).value.accounts;
    var m1, m2 := b1.result.location, b2.result.location;
    forall a | a in a1 ensures a in a2 {
      var k := a.id;
      var v := Lookup(m1, k).value;
      assert a == ToAccount(now, k, v);
      var j :| 0 <= j < |m2| && m2[j].0 == k;
      assert a2[j] == a;
    }
    forall a | a in a2 ensures a in a1 {
      var k := a.id;
      var v := Lookup(m2, k).value;
      assert a == ToAccount(now, k, v);
      var j :| 0 <= j < |m1| && m1[j].0 == k;
      assert a1[j] == a;
    }
    forall a ensures multiset(a1)[a] == multiset(a2)[a] {
      OccursOnce(a1, a);
      OccursOnce(a2, a);
    }
  }

  /** One Rotki location `checking` worth 123.45 USD becomes one account of that name. */
  lemma CheckingScenario(now: DateTime)
    ensures var b := RotkiBalanceResponse(BalanceResult([("checking", BalanceLocationValue(Decimal(12345, 2)))]));
            BalancesToSf(b, now)
            == Success(AccountSet([], [Account(BridgeOrg, "checking", "checking", Usd, Decimal(12345, 2), None, now, [])]))
  {
    var b := RotkiBalanceResponse(BalanceResult([("checking", BalanceLocationValue(Decimal(12345, 2)))]));
    var accounts := BalancesToSf(b, now).value.accounts;
    assert accounts[0] == ToAccount(now, "checking", BalanceLocationValue(Decimal(12345, 2)));
    assert accounts == [accounts[0]];
  }

  // ---------------------------------------------------------------- poll

  /**
   * `get_rotki` with the network, the balance decoder and the clock passed in: decode the
   * token (nothing is fetched if it does not decode), read it as a URL, fetch that Rotki's
   * balances, translate them. The first failure is the whole result; there are no partial
   * account sets.
   */
  function GetRotki(token: string, net: Network, parse: Parser<RotkiBalanceResponse>, now: DateTime)
    : (c: Call<AccountSet, AppError>)
    ensures Base64.Decode(token).Failure? ==>
              c == Call([], Failure(TokenInvalid(Base64.Decode(token).error)))
    ensures Base64.Decode(token).Success? ==>
              var fetch := RotkiAPI(Utf8.DecodeLossy(Base64.Decode(token).value)).Balances(net, parse);
              && c.sent == fetch.sent
              && (fetch.outcome.Failure? ==> c.outcome == Failure(BalancesUnavailable(fetch.outcome.error)))
              && (fetch.outcome.Success? ==> c.outcome == BalancesToSf(fetch.outcome.value, now))
  {
    match DecodeToken(token)
    case Failure(e) => Call([], Failure(e))
    case Success(rotkiUrlBytes) =>
      var r := RotkiAPI.New(Utf8.DecodeLossy(rotkiUrlBytes));
      var fetch := r.Balances(net, parse);
      match fetch.outcome
      case Failure(e) => Call(fetch.sent, Failure(BalancesUnavailable(e)))
      case Success(balances) => Call(fetch.sent, BalancesToSf(balances, now))
  }

  /** A token that does not decode fails the poll before anything is sent. */
  lemma PollRejectsBadTokenFirst(token: string, net: Network, parse: Parser<RotkiBalanceResponse>, now: DateTime)
    requires Base64.Decode(token).Failure?
    ensures GetRotki(token, net, parse, now).sent == []
    ensures GetRotki(token, net, parse, now).outcome.Failure?
    ensures GetRotki(token, net, parse, now).outcome.error.TokenInvalid?
    ensures Reply(Failure(GetRotki(token, net, parse, now).outcome.error)).status == 500
  {
  }

  /**
   * Polling with a claim token asks the Rotki instance it was minted for, exactly once,
   * at `{rotki_url}/api/1/balances`.
   */
  lemma PollFetchesMintedUrl(rotkiUrl: string, net: Network, parse: Parser<RotkiBalanceResponse>, now: DateTime)
    ensures GetRotki(ClaimToken(rotkiUrl), net, parse, now).sent == [Request(Get, rotkiUrl + BalancesPath, [])]
  {
    Base64.DecodeEncode(Utf8.Encode(rotkiUrl));
    Utf8.DecodeLossyEncode(rotkiUrl);
  }

  /** A poll whose Rotki instance cannot be reached is a 500 and carries no accounts. */
  lemma UnreachableBackendScenario(rotkiUrl: string, net: Network, parse: Parser<RotkiBalanceResponse>, now: DateTime)
    requires net(Request(Get, rotkiUrl + BalancesPath, [])).Failure?
    ensures var c := GetRotki(ClaimToken(rotkiUrl), net, parse, now);
            c.outcome.Failure? && c.outcome.error.BalancesUnavailable?
            && Reply(Failure(c.outcome.error)).status == 500
  {
    PollFetchesMintedUrl(rotkiUrl, net, parse, now);
  }

  /** A token with a character outside the alphabet fails the poll as a token error, not a fetch error. */
  lemma InvalidCharacterScenario(net: Network, parse: Parser<RotkiBalanceResponse>, now: DateTime)
    ensures GetRotki("ab!d", net, parse, now) == Call([], Failure(TokenInvalid(Base64.InvalidByte(2, '!'))))
  {
    var s := "ab!d";
    assert Base64.TrailingPads(s) == 0 && s[..4] == s;
    assert s[1..][1..] == "!d";
    assert Base64.Values("!d", 2) == Failure(Base64.InvalidByte(2, '!'));
  }

  /** The claim token for `http://localhost:8080`, decoded and read back, is that URL. */
  lemma LocalhostScenario()
    ensures var d := Base64.Decode(ClaimToken("http://localhost:8080"));
            d.Success? && Utf8.DecodeLossy(d.value) == "http://localhost:8080"
  {
    Base64.DecodeEncode(Utf8.Encode("http://localhost:8080"));
    Utf8.DecodeLossyEncode("http://localhost:8080");
  }
}
