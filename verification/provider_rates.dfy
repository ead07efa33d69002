/**
 * The exchange-rate service of `internal/services/rate`: an API-key table built at construction
 * and the per-provider fetch, which looks up the key, builds the `latest` URL from the
 * fixed-position parts of the pair, checks the HTTP status and reads the rate from the decoded
 * `rates` map. The HTTP client is an input function from request to outcome.
 */
module ProviderRates {
  import opened Wrappers

  /** The GET request the fetch sends; the API key travels in the Authorization header. */
  datatype Request = Request(url: string, authorization: string)

  /** The response body as the JSON decoder saw it. */
  datatype Body = Undecodable(decodeError: string) | RatesBody(rates: map<string, real>)

  /** What building and sending one request produced. */
  datatype HttpOutcome =
    | NewRequestFailed(newRequestError: string)
    | DoFailed(doError: string)
    | Replied(statusCode: int, status: string, body: Body)

  const StatusOK := 200

  /**
   * The request URL: base currency `currencyPair[:3]`, target currency `currencyPair[4:]`;
   * the character at index 3 is skipped unchecked.
   */
  function LatestUrl(service: string, currencyPair: string): string
    requires |currencyPair| >= 4
  {
    "https://" + service + "/latest?base=" + currencyPair[..3] + "&symbols=" + currencyPair[4..]
  }

  /**
   * For a given service the URL determines, and is determined by, the base and the target
   * currency; any separator character gives the same URL.
   */
  lemma LatestUrlInjective(service: string, pair1: string, pair2: string)
    requires |pair1| >= 4 && |pair2| >= 4
    ensures LatestUrl(service, pair1) == LatestUrl(service, pair2) <==>
      pair1[..3] == pair2[..3] && pair1[4..] == pair2[4..]
  {
    var head := "https://" + service + "/latest?base=";
    var url1, url2 := LatestUrl(service, pair1), LatestUrl(service, pair2);
    assert url1 == head + pair1[..3] + ("&symbols=" + pair1[4..]);
    assert url2 == head + pair2[..3] + ("&symbols=" + pair2[4..]);
    if url1 == url2 {
      var n := |head|;
      assert url1[n..n + 3] == pair1[..3];
      assert url2[n..n + 3] == pair2[..3];
      assert url1[n + 3 + 9..] == pair1[4..];
      assert url2[n + 3 + 9..] == pair2[4..];
    }
  }

  const ExchangeratesApiIo := "exchangeratesapi.io"
  const OpenExchangeratesOrg := "openexchangerates.org"

  /** `ExchangeRateService`: the API keys of the known services. */
  class ExchangeRateService {
    var apiKeys: map<string, string>

    /**
     * `NewExchangeRateService`, with the two environment variables passed in: one entry per
     * known service, nothing else.
     */
    constructor (exchangeratesApiIoKey: string, openExchangeratesOrgKey: string)
      ensures apiKeys.Keys == {ExchangeratesApiIo, OpenExchangeratesOrg}
      ensures apiKeys[ExchangeratesApiIo] == exchangeratesApiIoKey
      ensures apiKeys[OpenExchangeratesOrg] == openExchangeratesOrgKey
    {
      var keys: map<string, string> := map[];
      keys := keys[ExchangeratesApiIo := exchangeratesApiIoKey];
      keys := keys[OpenExchangeratesOrg := openExchangeratesOrgKey];
      apiKeys := keys;
    }

    /**
     * Go's `fetchExchangeRate(service, currencyPair)` with the HTTP client `http`. Each of its
     * paths ends in exactly one channel send, the error or the rate, so one call yields exactly
     * one `Result`. A pair shorter than 4 characters is outside the function's domain once the
     * key is found: Go's slice `currencyPair[4:]` panics.
     */
    function FetchExchangeRate(service: string, currencyPair: string, http: Request -> HttpOutcome)
      : (r: Result<real, string>)
      reads this
      requires service in apiKeys ==> |currencyPair| >= 4
      ensures service !in apiKeys ==> r == Failure("API key not found for service: " + service)
      ensures r.Success? <==>
        service in apiKeys &&
        var outcome := http(Request(LatestUrl(service, currencyPair), apiKeys[service]));
        outcome.Replied? && outcome.statusCode == StatusOK && outcome.body.RatesBody? &&
        currencyPair[4..] in outcome.body.rates
      ensures r.Success? ==>
        r.value == http(Request(LatestUrl(service, currencyPair), apiKeys[service])).body.rates[currencyPair[4..]]
    {
      if service !in apiKeys then Failure("API key not found for service: " + service)
      else
        var request := Request(LatestUrl(service, currencyPair), apiKeys[service]);
        match http(request)
        case NewRequestFailed(e) => Failure(e)
        case DoFailed(e) => Failure(e)
        case Replied(code, status, body) =>
          if code != StatusOK then
            Failure("failed to fetch exchange rate from " + service + ": " + status)
          else
            match body
            case Undecodable(e) => Failure(e)
            case RatesBody(rates) =>
              if currencyPair[4..] !in rates then
                Failure("exchange rate for currency pair " + currencyPair + " not found in the response from " + service)
              else Success(rates[currencyPair[4..]])
    }
  }

  /**
   * A service without a key fails before any request is built: the result does not depend on
   * the HTTP client at all.
   */
  lemma NoRequestWithoutKey(s: ExchangeRateService, service: string, currencyPair: string,
                            http1: Request -> HttpOutcome, http2: Request -> HttpOutcome)
    requires service !in s.apiKeys
    ensures s.FetchExchangeRate(service, currencyPair, http1) == s.FetchExchangeRate(service, currencyPair, http2)
    ensures s.FetchExchangeRate(service, currencyPair, http1).Failure?
  {
  }

  /** A freshly built service knows only the two configured services. */
  lemma UnknownServiceRejected(s: ExchangeRateService, service: string, currencyPair: string,
                               http: Request -> HttpOutcome)
    requires s.apiKeys.Keys == {ExchangeratesApiIo, OpenExchangeratesOrg}
    requires service != ExchangeratesApiIo && service != OpenExchangeratesOrg
    ensures s.FetchExchangeRate(service, currencyPair, http) ==
      Failure("API key not found for service: " + service)
  {
  }

  /**
   * A non-200 status is an error naming the service and the status, whatever the body held;
   * no rate is read.
   */
  lemma BadStatusRejected(s: ExchangeRateService, service: string, currencyPair: string,
                          http: Request -> HttpOutcome)
    requires service in s.apiKeys && |currencyPair| >= 4
    requires var outcome := http(Request(LatestUrl(service, currencyPair), s.apiKeys[service]));
      outcome.Replied? && outcome.statusCode != StatusOK
    ensures s.FetchExchangeRate(service, currencyPair, http) ==
      Failure("failed to fetch exchange rate from " + service + ": " +
              http(Request(LatestUrl(service, currencyPair), s.apiKeys[service])).status)
  {
  }

  /**
   * A decoded 200 reply without the target currency is an error naming the whole pair and
   * the service.
   */
  lemma MissingRateRejected(s: ExchangeRateService, service: string, currencyPair: string,
                            http: Request -> HttpOutcome)
    requires service in s.apiKeys && |currencyPair| >= 4
    requires var outcome := http(Request(LatestUrl(service, currencyPair), s.apiKeys[service]));
      outcome.Replied? && outcome.statusCode == StatusOK && outcome.body.RatesBody? &&
      currencyPair[4..] !in outcome.body.rates
    ensures s.FetchExchangeRate(service, currencyPair, http) ==
      Failure("exchange rate for currency pair " + currencyPair + " not found in the response from " + service)
  {
  }

  /**
   * Two pairs that differ only in the separator position are fetched identically: the
   * character at index 3 is never checked.
   */
  lemma SeparatorIgnored(s: ExchangeRateService, service: string, pair1: string, pair2: string,
                         http: Request -> HttpOutcome)
    requires |pair1| >= 4 && |pair2| >= 4
    requires pair1[..3] == pair2[..3] && pair1[4..] == pair2[4..]
    requires service in s.apiKeys
    ensures s.FetchExchangeRate(service, pair1, http).Success? <==> s.FetchExchangeRate(service, pair2, http).Success?
    ensures s.FetchExchangeRate(service, pair1, http).Success? ==>
      s.FetchExchangeRate(service, pair1, http) == s.FetchExchangeRate(service, pair2, http)
  {
    LatestUrlInjective(service, pair1, pair2);
  }
}
