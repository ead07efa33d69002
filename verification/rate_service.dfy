/**
 * `RateService` of the rate-api: two provider calls (CurrencyAPI and ExchangeAPI), each of
 * which sends exactly one `RateResponse` on its channel, and the decision taken after a
 * `select` has read ONE of the two messages. Which message the `select` reads first is the
 * input `first`; the HTTP client is an input function from request to outcome.
 */
module RateApi {
  import opened Wrappers

  /** The service configuration (loaded from the environment by the caller). */
  datatype Config = Config(
    environment: string,
    currencyAPIBaseURI: string,
    exchangeAPIBaseURI: string,
    currencyAPIKey: string,
    exchangeAPIKey: string)

  /** A rate answer; `err` is the Go `Err error` field, None for nil. */
  datatype RateResponse = RateResponse(currencyPair: string, rate: real, err: Option<string>)

  /** The zero value of `RateResponse`: empty pair, rate 0, nil error. */
  const ZeroResponse := RateResponse("", 0.0, None)

  /** The JSON payload posted to a provider (its `Err` field is always nil). */
  datatype RateRequest = RateRequest(currencyPair: string)

  /** A POST request as the provider functions build it. */
  datatype Request = Request(url: string, contentType: string, authorization: string, payload: RateRequest)

  /** What the JSON decoder made of a provider's reply body. */
  datatype Decoded = Undecodable(decodeError: string) | Decoded(currencyPair: string, rate: real)

  /** What constructing and sending the request produced. */
  datatype HttpOutcome =
    | ConstructFailed(constructError: string)
    | SendFailed(sendError: string)
    | Replied(body: Decoded)

  /** The two providers, in the order their channels appear in the `select`. */
  datatype Provider = CurrencyAPI | ExchangeAPI

  /** `errors.Wrap(err, message)`: the message, a colon, then the wrapped error. */
  function Wrap(err: string, message: string): string {
    message + ": " + err
  }

  /** The CurrencyAPI request: `<base>/v3/rate`, authorised by the CurrencyAPI key. */
  function CurrencyAPIRequest(cfg: Config, currencyPair: string): Request {
    Request(cfg.currencyAPIBaseURI + "/v3/rate", "application/json",
            "Bearer " + cfg.currencyAPIKey, RateRequest(currencyPair))
  }

  /**
   * The ExchangeAPI request: `<base>/v3/latest?apikey=<key>`, the key both in the query and
   * in the Authorization header.
   */
  function ExchangeAPIRequest(cfg: Config, currencyPair: string): Request {
    Request(cfg.exchangeAPIBaseURI + "/v3/latest?apikey=" + cfg.exchangeAPIKey, "application/json",
            "Bearer " + cfg.exchangeAPIKey, RateRequest(currencyPair))
  }

  /**
   * The pair travels only in the JSON payload: the URL and the headers of both provider
   * requests depend on the configuration alone, so two pairs give requests that differ at
   * most in their payload, and differ there exactly when the pairs differ.
   */
  lemma RequestsDependOnPairOnlyInPayload(cfg: Config, pair1: string, pair2: string)
    ensures CurrencyAPIRequest(cfg, pair1).(payload := RateRequest(pair2)) == CurrencyAPIRequest(cfg, pair2)
    ensures ExchangeAPIRequest(cfg, pair1).(payload := RateRequest(pair2)) == ExchangeAPIRequest(cfg, pair2)
    ensures CurrencyAPIRequest(cfg, pair1) == CurrencyAPIRequest(cfg, pair2) <==> pair1 == pair2
    ensures ExchangeAPIRequest(cfg, pair1) == ExchangeAPIRequest(cfg, pair2) <==> pair1 == pair2
  {
  }

  /**
   * The messages one provider call sends on its channel, given its request, the HTTP client
   * and the provider's name as it appears in the error messages: one message on every path,
   * with a nil `Err` exactly when a reply was decoded, and then that reply unchanged.
   */
  function ProviderMessages(request: Request, http: Request -> HttpOutcome, api: string)
    : (sent: seq<RateResponse>)
    ensures |sent| == 1
    ensures sent[0].err.None? <==> http(request).Replied? && http(request).body.Decoded?
    ensures sent[0].err.None? ==>
      sent[0] == RateResponse(http(request).body.currencyPair, http(request).body.rate, None)
  {
    match http(request)
    case ConstructFailed(e) => [RateResponse("", 0.0, Some(Wrap(e, "constructing request to " + api)))]
    case SendFailed(e) => [RateResponse("", 0.0, Some(Wrap(e, "sending request to " + api)))]
    case Replied(Undecodable(e)) => [RateResponse("", 0.0, Some(Wrap(e, "decoding response from " + api)))]
    case Replied(Decoded(pair, rate)) => [RateResponse(pair, rate, None)]
  }

  /** `getRateFromCurrencyAPI` (the first of its two definitions): one message, nil `Err` iff decoded. */
  function GetRateFromCurrencyAPI(cfg: Config, currencyPair: string, http: Request -> HttpOutcome)
    : (sent: seq<RateResponse>)
    ensures |sent| == 1
    ensures var outcome := http(CurrencyAPIRequest(cfg, currencyPair));
      sent[0].err.None? <==> outcome.Replied? && outcome.body.Decoded?
  {
    ProviderMessages(CurrencyAPIRequest(cfg, currencyPair), http, "currency API")
  }

  /** `getRateFromExchangeAPI` (the first of its two definitions): one message, nil `Err` iff decoded. */
  function GetRateFromExchangeAPI(cfg: Config, currencyPair: string, http: Request -> HttpOutcome)
    : (sent: seq<RateResponse>)
    ensures |sent| == 1
    ensures var outcome := http(ExchangeAPIRequest(cfg, currencyPair));
      sent[0].err.None? <==> outcome.Replied? && outcome.body.Decoded?
  {
    ProviderMessages(ExchangeAPIRequest(cfg, currencyPair), http, "exchange API")
  }

  /** The "%v" rendering of a Go error value: its message, or `<nil>`. */
  function ErrorText(err: Option<string>): string {
    match err
    case None => "<nil>"
    case Some(m) => m
  }

  /**
   * `RateService`: start both providers, read whichever message `first` names, and decide.
   * Because the local error of the provider NOT read keeps its nil zero value, the result is
   * always a success: the CurrencyAPI reply when it was read and carried no error, and the
   * zero `RateResponse` in every other case, whatever the other provider sent. The
   * "both services" error is unreachable.
   */
  method RateService(cfg: Config, currencyPair: string, http: Request -> HttpOutcome, first: Provider)
    returns (r: Result<RateResponse, string>)
    ensures r.Success?
    ensures first == ExchangeAPI ==> r.value == ZeroResponse
    ensures first == CurrencyAPI ==>
      r.value == (var m := GetRateFromCurrencyAPI(cfg, currencyPair, http)[0];
                  if m.err.None? then m else ZeroResponse)
    ensures r.value.err.None?
  {
    var currencyCh := GetRateFromCurrencyAPI(cfg, currencyPair, http);
    var exchangeCh := GetRateFromExchangeAPI(cfg, currencyPair, http);

    var currencyAPIRate, exchangeAPIRate := ZeroResponse, ZeroResponse;
    var currencyAPIErr, exchangeAPIErr: Option<string> := None, None;

    match first {
      case CurrencyAPI =>
        currencyAPIRate := currencyCh[0];
        currencyAPIErr := currencyAPIRate.err;
      case ExchangeAPI =>
        exchangeAPIRate := exchangeCh[0];
        exchangeAPIErr := exchangeAPIRate.err;
    }

    if currencyAPIErr.None? {
      r := Success(currencyAPIRate);
    } else if exchangeAPIErr.None? {
      r := Success(exchangeAPIRate);
    } else {
      r := Failure("failed to fetch exchange rate from both services: " +
                   ErrorText(currencyAPIErr) + ", " + ErrorText(exchangeAPIErr));
    }
  }

  /**
   * The decision `RateService` evidently intends: read BOTH messages, prefer the CurrencyAPI
   * reply, fall back to the ExchangeAPI reply, and fail, naming both errors, only when both
   * providers failed. A success always carries a decoded provider reply.
   */
  method RateServiceBothRead(cfg: Config, currencyPair: string, http: Request -> HttpOutcome)
    returns (r: Result<RateResponse, string>)
    ensures var currencyMsg := GetRateFromCurrencyAPI(cfg, currencyPair, http)[0];
      var exchangeMsg := GetRateFromExchangeAPI(cfg, currencyPair, http)[0];
      && (r.Failure? <==> currencyMsg.err.Some? && exchangeMsg.err.Some?)
      && (currencyMsg.err.None? ==> r == Success(currencyMsg))
      && (currencyMsg.err.Some? && exchangeMsg.err.None? ==> r == Success(exchangeMsg))
      && (r.Failure? ==> r.error == "failed to fetch exchange rate from both services: " +
                                    currencyMsg.err.value + ", " + exchangeMsg.err.value)
    ensures r.Success? ==> r.value.err.None?
  {
    var currencyAPIRate := GetRateFromCurrencyAPI(cfg, currencyPair, http)[0];
    var exchangeAPIRate := GetRateFromExchangeAPI(cfg, currencyPair, http)[0];
    var currencyAPIErr, exchangeAPIErr := currencyAPIRate.err, exchangeAPIRate.err;
    if currencyAPIErr.None? {
      r := Success(currencyAPIRate);
    } else if exchangeAPIErr.None? {
      r := Success(exchangeAPIRate);
    } else {
      r := Failure("failed to fetch exchange rate from both services: " +
                   ErrorText(currencyAPIErr) + ", " + ErrorText(exchangeAPIErr));
    }
  }

  /** An HTTP client under which both providers answer USD-EUR at 0.88. */
  function AnswersUsdEur(request: Request): HttpOutcome {
    Replied(Decoded("USD-EUR", 0.88))
  }

  /**
   * As written, when the ExchangeAPI message is read first, a successful USD-EUR reply is
   * dropped and the zero response comes back as a success.
   */
  method ExchangeFirstDropsReply(cfg: Config) returns (r: Result<RateResponse, string>)
    ensures GetRateFromExchangeAPI(cfg, "USD-EUR", AnswersUsdEur)[0] == RateResponse("USD-EUR", 0.88, None)
    ensures r == Success(ZeroResponse)
  {
    r := RateService(cfg, "USD-EUR", AnswersUsdEur, ExchangeAPI);
  }
}
