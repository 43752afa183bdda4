/** The Rotki side: the balance response model and the balance fetch (src/rotki.rs). */
module Rotki {
  import opened Wrappers
  import opened Primitives
  import opened HashMaps
  import opened Http

  datatype BalanceLocationValue = BalanceLocationValue(usdValue: Decimal)

  /** `location`: one entry per location name; a name occurs at most once. */
  datatype BalanceResult = BalanceResult(location: HashMap<string, BalanceLocationValue>)

  datatype RotkiBalanceResponse = RotkiBalanceResponse(result: BalanceResult)

  /** Why a fetch failed: the request could not be sent, or the body is not a balance response. */
  datatype Error = RequestFailed(message: string) | BodyNotBalances(message: string)

  const BalancesPath: string := "/api/1/balances"

  /** A client for one Rotki instance. */
  datatype RotkiAPI = RotkiAPI(url: string) {

    /** `RotkiAPI::new`: keeps the instance URL exactly as given. */
    static function New(url: string): (api: RotkiAPI)
      ensures api.url == url
    {
      RotkiAPI(url)
    }

    /**
     * `balances`: one GET of `{url}/api/1/balances`, whatever the status of the answer;
     * the body then has to parse as a balance response. Either failure is the result, and
     * then no balances at all come back.
     */
    function Balances(net: Network, parse: Parser<RotkiBalanceResponse>): (c: Call<RotkiBalanceResponse, Error>)
      ensures c.sent == [Request(Get, url + BalancesPath, [])]
      ensures net(c.sent[0]).Failure? ==> c.outcome == Failure(RequestFailed(net(c.sent[0]).error))
      ensures net(c.sent[0]).Success? && parse(net(c.sent[0]).value.text).Failure? ==>
                c.outcome == Failure(BodyNotBalances(parse(net(c.sent[0]).value.text).error))
      ensures c.outcome.Success? <==> net(c.sent[0]).Success? && parse(net(c.sent[0]).value.text).Success?
      ensures c.outcome.Success? ==> c.outcome.value == parse(net(c.sent[0]).value.text).value
    {
      var request := Request(Get, url + BalancesPath, []);
      match net(request)
      case Failure(e) => Call([request], Failure(RequestFailed(e)))
      case Success(response) =>
        match parse(response.text)
        case Failure(e) => Call([request], Failure(BodyNotBalances(e)))
        case Success(balances) => Call([request], Success(balances))
    }
  }
}
