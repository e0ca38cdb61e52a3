/** Conversion of an amount between two currency codes through the exchange-rate
    service (src/currency.ts). The one HTTP lookup is replaced by its reply,
    given as an input; the requests the call would issue are returned. */
module Currency {
  import opened Outcomes
  import Config

  /** The fields of the rate service's JSON body that the conversion reads:
      `result`, `conversion_rate` and `error-type`, each possibly absent. */
  datatype RateData = RateData(result: Option<string>, conversionRate: Option<real>, errorType: Option<string>)

  /** How the lookup ends: a body, or a rejection of the HTTP call. */
  datatype RateReply = Answered(data: RateData) | Rejected(error: Error)

  /** The value `convertCurrency` resolves or rejects with, and the URLs of the
      GET requests it issued. */
  datatype Conversion = Conversion(result: Result<real, Error>, requests: seq<string>)

  const RateApiBase: string := "https://v6.exchangerate-api.com/v6/"

  const KeyRequiredMessage: string := "EXCHANGE_RATE_API_KEY is required for currency conversion."

  function PairUrl(apiKey: string, from: string, to: string): string
  {
    RateApiBase + apiKey + "/pair/" + from + "/" + to
  }

  /** A template literal renders an absent field as `undefined`. */
  function TextOf(field: Option<string>): string
  {
    match field
    case Some(s) => s
    case None => "undefined"
  }

  function ServiceErrorMessage(errorType: Option<string>): string
  {
    "ExchangeRate-API error: " + TextOf(errorType)
  }

  function RateNotFoundMessage(from: string, to: string): string
  {
    "Exchange rate not found for " + from + " to " + to + "."
  }

  /** `!apiKey`: an unset key and an empty key are both refused. */
  predicate HasKey(apiKey: Option<string>)
  {
    apiKey.Some? && apiKey.value != ""
  }

  /** `!rate`: an absent rate and a rate of 0 are both refused. */
  predicate HasRate(rate: Option<real>)
  {
    rate.Some? && rate.value != 0.0
  }

  /** convertCurrency(amount, from, to), with the process environment it reads
      through getConfig and the reply the rate service would give. */
  function ConvertCurrency(amount: real, from: string, to: string, env: Config.Env, reply: RateReply): (c: Conversion)
    // identity fast path: no settings read, no request, whatever the environment and the service
    ensures from == to ==> c == Conversion(Success(amount), [])
    // getConfig itself rejects when any required setting is missing
    ensures from != to && Config.GetConfig(env).Failure? ==>
      c == Conversion(Failure(Config.GetConfig(env).error), [])
    // the key is checked before any request
    ensures from != to && Config.GetConfig(env).Success?
            && !HasKey(Config.GetConfig(env).value.currencyApi.exchangeRateApiKey) ==>
      c == Conversion(Failure(Thrown(KeyRequiredMessage)), [])
    // otherwise exactly one request, for the ordered pair
    ensures |c.requests| <= 1
    ensures c.requests != [] <==>
      from != to && Config.GetConfig(env).Success?
      && HasKey(Config.GetConfig(env).value.currencyApi.exchangeRateApiKey)
    ensures c.requests != [] ==>
      c.requests == [PairUrl(Config.GetConfig(env).value.currencyApi.exchangeRateApiKey.value, from, to)]
    // after the request: a rejection passes through unchanged ...
    ensures c.requests != [] && reply.Rejected? ==> c.result == Failure(reply.error)
    // ... an error result wins over any rate ...
    ensures c.requests != [] && reply.Answered? && reply.data.result == Some("error") ==>
      c.result == Failure(Thrown(ServiceErrorMessage(reply.data.errorType)))
    // ... a missing or zero rate is refused ...
    ensures c.requests != [] && reply.Answered? && reply.data.result != Some("error")
            && !HasRate(reply.data.conversionRate) ==>
      c.result == Failure(Thrown(RateNotFoundMessage(from, to)))
    // ... a present, non-zero rate without an error result gives the product ...
    ensures c.requests != [] && reply.Answered? && reply.data.result != Some("error")
            && HasRate(reply.data.conversionRate) ==>
      c.result.Success? && c.result.value == amount * reply.data.conversionRate.value
    // ... and that is the only other way a conversion succeeds
    ensures c.result.Success? && from != to ==>
      && reply.Answered? && reply.data.result != Some("error") && HasRate(reply.data.conversionRate)
      && c.result.value == amount * reply.data.conversionRate.value
  {
    if from == to then Conversion(Success(amount), [])
    else
      match Config.GetConfig(env)
      case Failure(e) => Conversion(Failure(e), [])
      case Success(config) =>
        var apiKey := config.currencyApi.exchangeRateApiKey;
        if !HasKey(apiKey) then Conversion(Failure(Thrown(KeyRequiredMessage)), [])
        else
          Conversion(Quote(amount, from, to, reply), [PairUrl(apiKey.value, from, to)])
  }

  /** What the conversion resolves or rejects with once the lookup has been
      issued: the `catch` of a rejection, then the checks on the body. */
  function Quote(amount: real, from: string, to: string, reply: RateReply): (r: Result<real, Error>)
    ensures reply.Rejected? ==> r == Failure(reply.error)
    ensures reply.Answered? && reply.data.result == Some("error") ==>
      r == Failure(Thrown(ServiceErrorMessage(reply.data.errorType)))
    ensures reply.Answered? && reply.data.result != Some("error") && !HasRate(reply.data.conversionRate) ==>
      r == Failure(Thrown(RateNotFoundMessage(from, to)))
    ensures reply.Answered? && reply.data.result != Some("error") && HasRate(reply.data.conversionRate) ==>
      r.Success? && r.value == amount * reply.data.conversionRate.value
  {
    match reply
    case Rejected(e) => Failure(e)
    case Answered(data) =>
      if data.result == Some("error") then Failure(Thrown(ServiceErrorMessage(data.errorType)))
      else if !HasRate(data.conversionRate) then Failure(Thrown(RateNotFoundMessage(from, to)))
      else Success(amount * data.conversionRate.value)
  }

  /** The scenario of a successful lookup: 100 USD at rate 0.85, one request to
      the pair URL of the configured key. */
  lemma SuccessfulLookup(env: Config.Env)
    requires Config.GetConfig(env).Success?
    requires Config.GetConfig(env).value.currencyApi.exchangeRateApiKey == Some("test_api_key")
    ensures ConvertCurrency(100.0, "USD", "EUR", env, Answered(RateData(Some("success"), Some(0.85), None))) ==
      Conversion(Success(85.0), ["https://v6.exchangerate-api.com/v6/test_api_key/pair/USD/EUR"])
  {
    assert "USD"[0] != "EUR"[0];
    assert PairUrl("test_api_key", "USD", "EUR") == "https://v6.exchangerate-api.com/v6/test_api_key/pair/USD/EUR";
  }
}
