/** The SimpleFin side: the wire model and the client's two calls (src/simplefin_api.rs). */
module SimpleFinApi {
  import opened Wrappers
  import opened Primitives
  import opened Http
  import Base64
  import Utf8

  datatype SimpleFinAPIError =
    | TokenDecodeError(cause: Base64.DecodeError)
    | RequestError(message: string)
    | JSONParseError(message: string)

  /** Only `domain` and `name` may be absent. */
  datatype Organization = Organization(domain: Option<string>, sfinUrl: string, name: Option<string>)

  /** Only `transactedAt` and `pending` may be absent. */
  datatype Transaction = Transaction(
    id: string,
    posted: DateTime,
    amount: Decimal,
    description: string,
    transactedAt: Option<DateTime>,
    pending: Option<bool>)

  /** Only `availableBalance` may be absent. */
  datatype Account = Account(
    org: Organization,
    id: string,
    name: string,
    currency: string,
    balance: Decimal,
    availableBalance: Option<Decimal>,
    balanceDate: DateTime,
    transactions: seq<Transaction>)

  datatype AccountSet = AccountSet(errors: seq<string>, accounts: seq<Account>)

  /**
   * `token_to_access_url`: decode the setup token first; only if that succeeds POST to the
   * claim URL it spells (read as lossy UTF-8). The access URL is the answer's body text,
   * whatever its status.
   */
  function TokenToAccessUrl(b64token: string, net: Network): (c: Call<string, SimpleFinAPIError>)
    ensures Base64.Decode(b64token).Failure? ==>
              c == Call([], Failure(TokenDecodeError(Base64.Decode(b64token).error)))
    ensures Base64.Decode(b64token).Success? ==>
              c.sent == [Request(Post, Utf8.DecodeLossy(Base64.Decode(b64token).value), [])]
              && (net(c.sent[0]).Failure? ==> c.outcome == Failure(RequestError(net(c.sent[0]).error)))
              && (net(c.sent[0]).Success? ==> c.outcome == Success(net(c.sent[0]).value.text))
  {
    match Base64.Decode(b64token)
    case Failure(e) => Call([], Failure(TokenDecodeError(e)))
    case Success(claimUrlBytes) =>
      var request := Request(Post, Utf8.DecodeLossy(claimUrlBytes), []);
      match net(request)
      case Failure(e) => Call([request], Failure(RequestError(e)))
      case Success(response) => Call([request], Success(response.text))
  }

  const AccountsSuffix: string := "/accounts"
  const StartDateQuery: seq<(string, string)> := [("start-date", "0")]

  /**
   * `accounts`: one GET of `{access_url}/accounts?start-date=0`; the body must parse as an
   * account set, and a body that does not gives `JSONParseError` and no accounts.
   */
  function Accounts(accessUrl: string, net: Network, parse: Parser<AccountSet>): (c: Call<AccountSet, SimpleFinAPIError>)
    ensures c.sent == [Request(Get, accessUrl + AccountsSuffix, StartDateQuery)]
    ensures net(c.sent[0]).Failure? ==> c.outcome == Failure(RequestError(net(c.sent[0]).error))
    ensures net(c.sent[0]).Success? && parse(net(c.sent[0]).value.text).Failure? ==>
              c.outcome == Failure(JSONParseError(parse(net(c.sent[0]).value.text).error))
    ensures c.outcome.Success? <==> net(c.sent[0]).Success? && parse(net(c.sent[0]).value.text).Success?
    ensures c.outcome.Success? ==> c.outcome.value == parse(net(c.sent[0]).value.text).value
  {
    var request := Request(Get, accessUrl + AccountsSuffix, StartDateQuery);
    match net(request)
    case Failure(e) => Call([request], Failure(RequestError(e)))
    case Success(response) =>
      match parse(response.text)
      case Failure(e) => Call([request], Failure(JSONParseError(e)))
      case Success(accountSet) => Call([request], Success(accountSet))
  }
}
