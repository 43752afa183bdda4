# simplefin-rotki, modelled in Dafny

simplefin-rotki is a small HTTP gateway. It lets a SimpleFin client (a budgeting app that
speaks the SimpleFin bridge protocol) read the balances of a Rotki instance as SimpleFin
accounts. The protocol has three steps:

1. **Setup.** `GET /?rotki_url=U` shows a *setup token*. That is the base64 of the *claim link*
   `{app_url}/f/{T}`, where the *claim token* `T` is the base64 of `U`'s UTF-8 octets.
2. **Claim.** The client decodes the setup token and POSTs to the claim link. The gateway checks
   that `T` decodes and answers with the *access URL*, which is the same `{app_url}/f/{T}`.
3. **Poll.** The client GETs `{access_url}/accounts?start-date=0`. The gateway decodes `T` back
   to `U` and fetches `U/api/1/balances` from Rotki. It turns every location of that balance map
   into one SimpleFin account.

The model is pure: datatypes, functions and lemmas, matching the source, which keeps no
mutable state. The network, the JSON decoders and the clock are parameters:

* a `Network` maps a request to a response or a transport error;
* a `Parser<T>` maps a body to a value or an error;
* `now` is the clock reading.

Every fetching operation returns a `Call`, which records the requests it sent as well as its
outcome. This makes "nothing is sent when the token is bad" a provable statement.

Modules:

* `Base64`: the `BASE64_STANDARD` engine of the `base64` crate. It uses the alphabet of RFC 4648
  section 4, pads with `=`, and on decode requires canonical padding and zero trailing bits.
  The model proves both round trips, so the tokens that decode are exactly the encodings.
* `Utf8`: `str::as_bytes` and `String::from_utf8_lossy`, which replaces each maximal ill-formed
  subpart with U+FFFD as in section 3.9 of the Unicode Standard. The model proves that lossy
  decoding of a string's own octets is the identity.
* `HashMaps`: a `HashMap` seen through `into_iter`, as a sequence of entries with distinct keys.
  The order is that of the iterator, which is unspecified.
* `Http`: requests, responses, the network and `Call`.
* `Rotki` (`src/rotki.rs`): `RotkiAPI::new`, `balances` and the balance response types.
* `SimpleFinApi` (`src/simplefin_api.rs`): its error type, the account set types,
  `token_to_access_url` and `accounts`.
* `Gateway` (`src/main.rs`):
  * the three handlers;
  * `balances_to_sf`;
  * `AppError` and its conversion to a response.
* `Protocol`: the router of `src/main.rs` (`/`, `/_health` and the two bridge routes), and the
  gateway as a network a client can call. It chains the three steps into one lemma, `Handshake`.

The gateway listens at an *origin* `{scheme}://{authority}`. It is configured separately with
the text `app_url` that it writes into claim links. `GatewayNetwork` serves a request for that
origin with the path that follows the origin in its URL (`/` for the bare origin), as an HTTP server receives it. The
app URL never enters routing. The handshake lemmas are stated for a gateway configured with
its own origin, `app_url == OriginUrl(origin)`.

Three behaviours of the code are worth knowing:

* A token that does not decode answers 500, not a client error. `AppError` turns every error
  into `500 Something went wrong: …`. The model follows the code.
* An `app_url` ending in `/` breaks the claim. The claim link's path is then `//f/{T}`, which no
  route matches. The claim is a 404, and the client takes its empty body for the access URL
  (`TrailingSlashAppUrl`).
* The standard alphabet contains `/`. The route parameter `:b64_rotki_url` matches one path
  segment, so a claim token containing `/` reaches neither bridge route. `SlashInTokenUnrouted`
  shows this for the URL `???`, whose token is `Pz8/`. `Handshake` is therefore stated for the
  Rotki URLs whose claim token is one segment.

## Model

| member | source | states |
|---|---|---|
| Base64.Encode | src/main.rs:94 | An encoding is whole quads of four characters. |
| Base64.EncodeUsesAlphabet | src/main.rs:94 | Every character of an encoding is a symbol of the standard alphabet, or `=` in one of the last two places. |
| Base64.Decode | src/main.rs:119 | A token whose length is not a multiple of four is rejected as `InvalidLength`. |
| Base64.DecodeEncode | src/main.rs:119 | Decoding the encoding of any octets gives back exactly those octets. |
| Base64.EncodeDecode | src/main.rs:135 | A token that decodes is the one canonical encoding of what it decodes to. |
| Base64.DecodeSucceedsIff | src/main.rs:134-135 | A token decodes if and only if it is the encoding of some octets. |
| Base64.ForeignCharacterRejected | src/main.rs:135 | A token with a character that is neither a symbol nor `=` never decodes. |
| Base64.OctetsOfSextets | src/main.rs:94 | Splitting octets into 6-bit groups and joining them again is the identity. |
| Base64.SextetsOfOctets | src/main.rs:119 | 6-bit groups that join into octets are exactly the groups of those octets. |
| Base64.PadCount | src/main.rs:119 | In a token of whole quads, the number of `=` is fixed by the octet count, as in an encoding. |
| Gateway.QueryValues | src/main.rs:90 | The values the query gives for a key are exactly those paired with it in the query, each as many times as the query pairs it with the key. |
| Gateway.RotkiQuery | src/main.rs:90 | The `rotki_url` query is present if and only if the query gives `rotki_url` exactly once, and then with a value the query pairs with it. |
| Gateway.RepeatedRotkiUrlRejected | src/main.rs:90 | A query giving `rotki_url` twice, even with the same value, is a duplicate field, so no `rotki_url` query is extracted. |
| Gateway.ClaimToken | src/main.rs:94 | The claim token decodes to exactly the UTF-8 octets of the Rotki URL. |
| Gateway.SyncUrl | src/main.rs:96 | The claim link starts with the app URL and ends with the token verbatim, with the three characters `/f/` between them. |
| Gateway.SetupToken | src/main.rs:97 | The setup token decodes to exactly the UTF-8 octets of the claim link. |
| Utf8.Encode | src/main.rs:94 | `as_bytes` gives one to four octets per character. |
| Utf8.DecodeStep | src/main.rs:120 | Each step of lossy decoding consumes at least one octet and no more than there are. |
| Utf8.DecodeLossy | src/main.rs:120 | Lossy decoding never fails and gives at most one character per octet. |
| Utf8.DecodeStepEncodeChar | src/main.rs:120 | The octets of a character, followed by anything, decode first to that character and take its full length. |
| Utf8.DecodeLossyEncode | src/main.rs:120 | Lossy decoding of a string's octets gives back the string. |
| Utf8.EncodeInjective | src/main.rs:94 | Different strings never have the same octets. |
| HashMaps.KeysCount | src/rotki.rs:29 | A map has exactly as many keys as entries. |
| HashMaps.Lookup | src/rotki.rs:29 | A key has a value if and only if it is a key of the map, and that value is the one in its entry. |
| Rotki.RotkiAPI.New | src/rotki.rs:9-11 | The client keeps the instance URL unchanged. |
| Rotki.RotkiAPI.Balances | src/rotki.rs:13-20 | Exactly one GET of `{url}/api/1/balances` is sent.<br>A transport failure or an unparsable body is the result, and then no balances come back.<br>It succeeds if and only if both the request and the parse succeed, with the parsed value. |
| SimpleFinApi.TokenToAccessUrl | src/simplefin_api.rs:66-72 | An undecodable token is `TokenDecodeError`, and nothing is sent.<br>Otherwise one POST goes to the lossily decoded claim URL. The response body is the access URL, and a transport failure is `RequestError`. |
| SimpleFinApi.Accounts | src/simplefin_api.rs:75-83 | One GET of `{access_url}/accounts` is sent with the query `start-date=0`.<br>A transport failure is `RequestError` and an unparsable body is `JSONParseError`.<br>It succeeds if and only if both steps succeed, with the parsed account set. |
| Gateway.GetRoot | src/main.rs:90-99 | A setup token is shown exactly when `rotki_url` is given. It decodes to the octets of `{app_url}/f/{claim token}`. |
| Gateway.Describe | src/main.rs:180 | A failed fetch is described by the fetch error's own message; a bad token by a non-empty text. |
| Gateway.IntoResponse | src/main.rs:175-183 | Every error, of every kind, is status 500 with a text body starting `Something went wrong: `. |
| Gateway.Reply | src/main.rs:118 | A handler's result is status 200 with its body exactly when it succeeds. Otherwise it is the error's response. |
| Gateway.DecodeToken | src/main.rs:186-195 | `?` on a base64 decode keeps the decoded octets, or wraps the decode error as an `AppError`. |
| Gateway.PostExchangeToken | src/main.rs:130-141 | An undecodable token is `TokenInvalid` with its decode error. Any other token comes back unchanged inside `{app_url}/f/{token}`. |
| Gateway.ExchangeAcceptsExactlyEncodings | src/main.rs:134-135 | The exchange accepts a token if and only if it is a base64 encoding. |
| Gateway.ExchangeOfClaimToken | src/main.rs:138 | Exchanging a claim token minted at setup gives back the claim link itself. |
| Gateway.ToAccount | src/main.rs:152-162 | One account: id and name are the location name, the balance is its `usd_value`, with the fixed organization, currency `usd`, no available balance, the balance date `now` and no transactions. |
| Gateway.BalancesToSf | src/main.rs:143-168 | It never fails and reports no errors.<br>There is one account per location, with distinct ids, and the account ids are exactly the map's keys.<br>id and name are the location name, and the balance is that location's `usd_value`.<br>The fixed organization, currency `usd`, no available balance, the balance date `now` and no transactions. |
| Gateway.IterationOrderIrrelevant | src/main.rs:150-163 | Two iteration orders of the same map give the same accounts, each the same number of times (once). |
| Gateway.CheckingScenario | src/main.rs:143-168 | The single location `checking` worth 123.45 gives exactly one account, `checking`, with that balance. |
| Gateway.GetRotki | src/main.rs:118-126 | An undecodable token is `TokenInvalid`, and nothing is sent.<br>Otherwise the decoded URL's balances are fetched. A failed fetch is `BalancesUnavailable`; a successful one is the translated account set. |
| Gateway.PollRejectsBadTokenFirst | src/main.rs:119 | A poll with an undecodable token sends nothing and answers 500. |
| Gateway.PollFetchesMintedUrl | src/main.rs:119-122 | Polling with a claim token fetches `{rotki_url}/api/1/balances` for exactly the URL it was minted for, once. |
| Gateway.UnreachableBackendScenario | src/main.rs:122 | When the Rotki instance cannot be reached, the poll is `BalancesUnavailable` and answers 500. |
| Gateway.InvalidCharacterScenario | src/main.rs:119 | The token `ab!d` fails as an invalid byte at offset 2, and nothing is sent. |
| Gateway.LocalhostScenario | src/main.rs:119-120 | The claim token for `http://localhost:8080` decodes, and reads back, to that URL. |
| Protocol.MatchRoute | src/main.rs:63-73 | The root route matches exactly `/`, the health route exactly `/_health`. A path is routed to exchange or poll only when it is `/f/{segment}` or `/f/{segment}/accounts`, with that segment as the token. |
| Protocol.RoutesOfSegment | src/main.rs:66-67 | Every segment token reaches both of its routes. |
| Protocol.ExchangeHandler | src/main.rs:130-141 | The exchange answers 200 if and only if the token decodes, and then with the access URL as text. Otherwise the answer is the decode error's response. |
| Protocol.PollHandler | src/main.rs:118-126 | The poll sends what `get_rotki` sends. It answers 200 if and only if `get_rotki` succeeds, and then with that account set as JSON. Otherwise the answer is the error's response. |
| Protocol.Serve | src/main.rs:63-73 | Every response is 200, 404, 405 or 500.<br>It is 404 if and only if no route matches the path; on a matched route, 405 if and only if the method is not the route's.<br>Only a GET on the poll route sends anything to Rotki. |
| Protocol.ServeSetupPage | src/main.rs:65 | `GET /?rotki_url=U` answers 200 with the page showing the setup token `get_root` mints for `U`, and sends nothing. |
| Protocol.ServeExchange | src/main.rs:66 | A POST of `/f/{token}` reaches the exchange handler with that token. |
| Protocol.ServePoll | src/main.rs:67 | A GET of `/f/{token}/accounts` reaches the poll handler with that token. |
| Protocol.ServerPath | src/main.rs:77-78 | A request for the gateway's origin arrives with a path starting with `/`: the bare origin as `/`, any other URL as what follows the origin. |
| Protocol.AccessUrlPath | src/main.rs:96 | For a gateway configured with its own origin, the access URL arrives as the path `/f/{token}`. |
| Protocol.AccessPath | src/main.rs:96 | For a gateway configured with its own origin, a URL under the access URL arrives as `/f/{token}` followed by the rest. |
| Protocol.SlashedAccessUrlPath | src/main.rs:96 | With an app URL one `/` longer than the origin, the claim link arrives as the path `//f/{token}`. |
| Protocol.DoubleSlashUnrouted | src/main.rs:63-73 | No route matches a path `//f/{token}`. |
| Protocol.ServeUnrouted | src/main.rs:63-73 | A path no route matches is a 404 with an empty body, and nothing is sent. |
| Protocol.NetworkServes | src/main.rs:78 | A request that reaches the gateway's origin is answered over the network with the router's status and body. |
| Protocol.ServeClaim | src/main.rs:130-141 | The router answers the POST of a segment claim token's path with 200 and the claim link. |
| Protocol.OriginShowsSetupPage | src/main.rs:65 | A GET of the bare origin with `?rotki_url=U` is answered over the network with 200 and the setup page for `U`. |
| Protocol.SetupTokenSpellsClaimLink | src/main.rs:96-97 | The setup token decodes, and reads back as text, to exactly the claim link. |
| Protocol.ClientPostsClaimLink | src/simplefin_api.rs:67-70 | For any network, the client's claim is one POST to the claim link. |
| Protocol.ExchangeIdempotent | src/main.rs:138-140 | For a gateway configured with its own origin, POSTing to the returned access URL returns that same access URL again. |
| Protocol.ClaimAnswered | src/main.rs:66 | A gateway configured with its own origin answers the claim POST with status 200 and the access URL. |
| Protocol.ClaimStep | src/simplefin_api.rs:66-72 | A client holding a setup token minted by a gateway configured with its own origin obtains the access URL `{app_url}/f/{claim token}`. |
| Protocol.PollStep | src/simplefin_api.rs:75-79 | For a gateway configured with its own origin, the client's poll arrives at the poll route with the claim token. Serving it asks the original Rotki instance for its balances, once. |
| Protocol.Handshake | src/main.rs:90-141 | Setup, claim and poll chained for a gateway configured with its own origin: the setup page shows a token; with the access URL from the claim, the poll reaches the Rotki instance the setup was made for. |
| Protocol.TrailingSlashAppUrl | src/main.rs:96 | With an app URL ending in an extra `/`, the claim is answered by a 404, and the client's access URL is empty. |
| Protocol.SlashInTokenUnrouted | src/main.rs:66-67 | The URL `???` has the claim token `Pz8/`, and neither bridge route matches a path built from it. |

## Left out

- Base64.Decode: a malformed token always fails, but which error variant and which offset it
  reports is this model's own choice, not necessarily the crate's.
  - The crate's `InvalidPadding` is folded into `InvalidLength` and `InvalidByte`.
  - Offsets count characters, not octets.
  - Only success, failure and the decoded octets are claimed to agree with the crate.
- The HTML pages: the `maud` markup of `get_root`, with its form and the text around the token.
  The page is `Page(setupToken)`, and its text is a `Renderers` parameter.
- The configuration file, the command line and binding the socket (`src/main.rs:1-61`,
  `src/main.rs:75-77`). The app URL and the origin are parameters.
- The static assets: `serve_assets` is built at `src/main.rs:62` but never mounted on the
  router, so it serves no path, and the model has no asset route.
- The compression and tracing layers (`src/main.rs:68-72`). They do not change status or content.
- HEAD requests, which axum answers on GET routes. The model's methods are GET and POST only.
- Percent-decoding and `+` in query strings: the query is taken as already decoded pairs.
- An app URL that carries a path, such as a gateway behind a reverse proxy under a prefix. The
  handshake lemmas assume `app_url` is exactly the origin; `TrailingSlashAppUrl` shows one way
  the two can differ.
- The tracing headers and the `content-type` header that `request` adds
  (`src/rotki.rs:37-47`). They do not change which URL is fetched.
- JSON: `serde` and `rust_decimal`'s float conversion. They are `Parser` parameters, and
  decimals and timestamps are copied, never computed with. Rendering an account set as JSON is
  a parameter, `render`.
- Gateway.Describe: the text for a token that does not decode is this model's own wording, not
  the `Display` of the crate's `DecodeError`. Only that it is non-empty is claimed. A fetch
  error's message is carried over unchanged.
- reqwest internals: URL parsing, TLS, redirects and reading the body. Any failure among them is
  the network's failure. Like reqwest, the model treats a non-2xx status as a response whose
  body is read, not as an error.
- `chrono::Utc::now()`: the clock reading is the parameter `now`.
- Percent-decoding of path parameters by axum: the routed path is taken as already decoded.
- Axum's exact status and body for 404 and 405: modelled as empty text bodies.
- Concurrency and `async`: every handler is modelled as one call from start to finish.
