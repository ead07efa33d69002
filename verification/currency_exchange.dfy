/**
 * The rate lookup of the `currency_exchange_api` service: the request handler, the two-provider
 * `getExchangeRate` and the per-provider `fetchExchangeRate` (service-name classification,
 * splitting the `BASE-QUOTE` pair, checking every token against the provider's `data` map and
 * computing the rate). The HTTP GET and JSON decoding of a provider are an input `ProviderReply`.
 */
module CurrencyExchange {
  import opened Wrappers
  import opened Text

  /** One entry of a provider's `data` object. */
  datatype CurrencyValue = CurrencyValue(code: string, value: real)

  /** A decoded provider response; `meta.last_updated_at` is decoded but never read. */
  datatype ExchangeRateResponse = ExchangeRateResponse(lastUpdatedAt: string, data: map<string, CurrencyValue>)

  /** What `http.Get` and the JSON decoder made of one provider URL. */
  datatype ProviderReply =
    | GetFailed(getError: string)
    | DecodeFailed(decodeError: string)
    | Decoded(response: ExchangeRateResponse)

  /**
   * The float64 rate `quote / base`, kept as the two provider values it is divided from:
   * floating-point division (and its Inf/NaN on a zero base) is not modelled.
   */
  datatype Quotient = Quotient(quote: real, base: real)

  /** The real value of a quotient with a non-zero base. */
  function Value(q: Quotient): real
    requires q.base != 0.0
  {
    q.quote / q.base
  }

  /**
   * The outcome of a fetch or of `getExchangeRate`: a rate, an error message, or a runtime panic
   * (indexing `currencies[1]` of a pair that has no `-`), which ends the whole process.
   */
  datatype Outcome = Rate(rate: Quotient) | Error(message: string) | Panic

  const CurrencyApiPrefix := "https://api." + "currencyapi" + ".com/v3/latest?apikey="
  const ExchangeratesApiPrefix := "https://api." + "exchangeratesapi" + ".io/v1/latest?access_key="

  /** The CurrencyAPI URL for an API key (the key comes from `CURRENCYAPI_API_KEY`). */
  function CurrencyApiUrl(apiKey: string): string {
    CurrencyApiPrefix + apiKey
  }

  /** The ExchangeratesAPI URL for an API key (the key comes from `EXCHANGERATESAPI_IO_KEY`). */
  function ExchangeratesApiUrl(apiKey: string): string {
    ExchangeratesApiPrefix + apiKey
  }

  /** The service name used in log lines and error messages, classified from the URL. */
  function ServiceName(url: string): (name: string)
    ensures name in {"CurrencyAPI", "ExchangeratesAPI", "Unknown"}
    ensures name == "CurrencyAPI" <==> Contains(url, "currencyapi")
    ensures name == "ExchangeratesAPI" <==> !Contains(url, "currencyapi") && Contains(url, "exchangeratesapi")
    ensures name == "Unknown" <==> !Contains(url, "currencyapi") && !Contains(url, "exchangeratesapi")
  {
    if Contains(url, "currencyapi") then "CurrencyAPI"
    else if Contains(url, "exchangeratesapi") then "ExchangeratesAPI"
    else "Unknown"
  }

  /** Every CurrencyAPI URL is classified as CurrencyAPI, whatever the key. */
  lemma CurrencyApiUrlName(apiKey: string)
    ensures ServiceName(CurrencyApiUrl(apiKey)) == "CurrencyAPI"
  {
    var url := CurrencyApiUrl(apiKey);
    assert url == "https://api." + "currencyapi" + (".com/v3/latest?apikey=" + apiKey);
    assert url[12..23] == "currencyapi";
    assert OccursAt(url, "currencyapi", 12);
  }

  /** An ExchangeratesAPI URL is never classified as Unknown, whatever the key. */
  lemma ExchangeratesApiUrlKnown(apiKey: string)
    ensures ServiceName(ExchangeratesApiUrl(apiKey)) != "Unknown"
  {
    var url := ExchangeratesApiUrl(apiKey);
    assert url == "https://api." + "exchangeratesapi" + (".io/v1/latest?access_key=" + apiKey);
    assert url[12..28] == "exchangeratesapi";
    assert OccursAt(url, "exchangeratesapi", 12);
  }

  /**
   * The classification looks at the whole URL, key included: an ExchangeratesAPI key that
   * contains "currencyapi" makes its errors name CurrencyAPI.
   */
  lemma ExchangeratesKeyMisclassified(apiKey: string)
    requires Contains(apiKey, "currencyapi")
    ensures ServiceName(ExchangeratesApiUrl(apiKey)) == "CurrencyAPI"
  {
    ContainsSuffix(ExchangeratesApiPrefix, apiKey, "currencyapi");
  }

  /**
   * An ExchangeratesAPI URL is named ExchangeratesAPI exactly when its key does not contain
   * "currencyapi": the fixed part of the URL has no 'u', and it ends in '=', so an occurrence
   * of "currencyapi" can only lie inside the key.
   */
  lemma ExchangeratesApiUrlName(apiKey: string)
    ensures ServiceName(ExchangeratesApiUrl(apiKey)) == "ExchangeratesAPI" <==> !Contains(apiKey, "currencyapi")
  {
    ExchangeratesApiUrlKnown(apiKey);
    if Contains(apiKey, "currencyapi") {
      ExchangeratesKeyMisclassified(apiKey);
    } else {
      var prefix := ExchangeratesApiPrefix;
      assert 'u' !in prefix by {
        assert 'u' !in "https://api." && 'u' !in "exchangeratesapi" && 'u' !in ".io/v1/latest?access_key=";
      }
      assert prefix[|prefix| - 1] == '=' by {
        var tail := ".io/v1/latest?access_key=";
        assert prefix == ("https://api." + "exchangeratesapi") + tail;
        assert tail[|tail| - 1] == '=';
      }
      if Contains(ExchangeratesApiUrl(apiKey), "currencyapi") {
        ContainsOnlyInSuffix(prefix, apiKey, "currencyapi");
      }
    }
  }

  /**
   * The first token missing from `data`, scanning left to right, or None when every token is
   * present.
   */
  function FirstMissing(tokens: seq<string>, data: map<string, CurrencyValue>): (missing: Option<string>)
    ensures missing.None? <==> forall j | 0 <= j < |tokens| :: tokens[j] in data
    ensures missing.Some? ==>
      exists i | 0 <= i < |tokens| ::
        tokens[i] == missing.value && tokens[i] !in data && forall j | 0 <= j < i :: tokens[j] in data
  {
    if tokens == [] then None
    else if tokens[0] !in data then Some(tokens[0])
    else
      var rest := FirstMissing(tokens[1..], data);
      assert forall j | 1 <= j < |tokens| :: tokens[j] == tokens[1..][j - 1];
      rest
  }

  /**
   * What `fetchExchangeRate(url, currencyPair)` returns once the provider replied as `reply`:
   * the specification the imperative `FetchExchangeRate` is proved against.
   */
  function Fetch(url: string, currencyPair: string, reply: ProviderReply): Outcome {
    var service := ServiceName(url);
    match reply
    case GetFailed(e) => Error("❌ Failed to get exchange rate from " + service + ": " + e)
    case DecodeFailed(e) => Error("❌ Failed to decode response from " + service + ": " + e)
    case Decoded(response) =>
      var currencies := Split(currencyPair, '-');
      match FirstMissing(currencies, response.data)
      case Some(cur) => Error("❌ Currency code " + cur + " not found in response from " + service)
      case None =>
        if |currencies| < 2 then Panic
        else Rate(Quotient(response.data[currencies[1]].value, response.data[currencies[0]].value))
  }

  /**
   * `fetchExchangeRate`: classify the service, take the provider's reply, split the pair on `-`
   * and check the tokens left to right, returning at the first missing one, then divide.
   */
  method FetchExchangeRate(url: string, currencyPair: string, reply: ProviderReply) returns (r: Outcome)
    ensures r == Fetch(url, currencyPair, reply)
  {
    var serviceName := ServiceName(url);
    if reply.GetFailed? {
      return Error("❌ Failed to get exchange rate from " + serviceName + ": " + reply.getError);
    }
    if reply.DecodeFailed? {
      return Error("❌ Failed to decode response from " + serviceName + ": " + reply.decodeError);
    }
    var data := reply.response.data;
    var currencies := Split(currencyPair, '-');
    var i := 0;
    while i < |currencies|
      invariant 0 <= i <= |currencies|
      invariant FirstMissing(currencies, data) == FirstMissing(currencies[i..], data)
    {
      var cur := currencies[i];
      if cur !in data {
        return Error("❌ Currency code " + cur + " not found in response from " + serviceName);
      }
      assert currencies[i..][1..] == currencies[i + 1..];
      i := i + 1;
    }
    if |currencies| < 2 {
      return Panic;
    }
    r := Rate(Quotient(data[currencies[1]].value, data[currencies[0]].value));
  }

  /**
   * A fetch yields a rate exactly when the provider's reply decoded, the pair has at least two
   * `-`-separated tokens and every token is a key of `data`; the rate divides the second
   * token's value by the first's, and tokens after the second are only checked for presence.
   */
  lemma FetchRate(url: string, currencyPair: string, reply: ProviderReply)
    ensures Fetch(url, currencyPair, reply).Rate? <==>
      reply.Decoded? && '-' in currencyPair &&
      forall t | t in Split(currencyPair, '-') :: t in reply.response.data
    ensures Fetch(url, currencyPair, reply).Rate? ==>
      var tokens, data := Split(currencyPair, '-'), reply.response.data;
      Fetch(url, currencyPair, reply).rate == Quotient(data[tokens[1]].value, data[tokens[0]].value)
  {
    CountZero(currencyPair, '-');
    var tokens := Split(currencyPair, '-');
    if reply.Decoded? {
      assert (forall j | 0 <= j < |tokens| :: tokens[j] in reply.response.data) <==>
             (forall t | t in tokens :: t in reply.response.data);
    }
  }

  /** A character occurs in a string exactly when its count is positive. */
  lemma {:induction false} CountZero(s: string, c: char)
    ensures c in s <==> Count(s, c) > 0
  {
    if s != [] {
      CountZero(s[1..], c);
      assert s == [s[0]] + s[1..];
    }
  }

  /**
   * When some token of the pair is missing from `data`, the error names the first missing one,
   * every token before it being present, and no rate is computed.
   */
  lemma FetchMissingToken(url: string, currencyPair: string, response: ExchangeRateResponse, i: nat)
    requires var tokens := Split(currencyPair, '-');
      i < |tokens| && tokens[i] !in response.data &&
      forall j | 0 <= j < i :: tokens[j] in response.data
    ensures Fetch(url, currencyPair, Decoded(response)) ==
      Error("❌ Currency code " + Split(currencyPair, '-')[i] + " not found in response from " + ServiceName(url))
  {
    var tokens := Split(currencyPair, '-');
    var m := FirstMissing(tokens, response.data);
    assert m.Some?;
    var k :| 0 <= k < |tokens| && tokens[k] == m.value && tokens[k] !in response.data &&
             forall j | 0 <= j < k :: tokens[j] in response.data;
    assert k == i;
  }

  /**
   * A pair with no `-` whose single token is in `data` passes the token check and then indexes
   * `currencies[1]` out of range.
   */
  lemma FetchSingleTokenPanics(url: string, currencyPair: string, response: ExchangeRateResponse)
    requires '-' !in currencyPair && currencyPair in response.data
    ensures Fetch(url, currencyPair, Decoded(response)) == Panic
  {
    SplitNoSeparator(currencyPair, '-');
  }

  /** The USD-EUR case the package's test checks: USD = 1.0 and EUR = 0.92 give 0.92. */
  lemma FetchUsdEur(url: string, lastUpdatedAt: string)
    ensures var data := map["USD" := CurrencyValue("USD", 1.0), "EUR" := CurrencyValue("EUR", 0.92)];
      var r := Fetch(url, "USD-EUR", Decoded(ExchangeRateResponse(lastUpdatedAt, data)));
      r.Rate? && r.rate.base != 0.0 && Value(r.rate) == 0.92
  {
    SplitJoin(["USD", "EUR"], '-');
    assert Join(["USD", "EUR"], '-') == "USD-EUR";
  }

  /**
   * The decision of `getExchangeRate` once both fetches are done: a panic in either fetch ends
   * the process; otherwise an error only when both failed (naming err1 then err2), the
   * CurrencyAPI rate whenever that fetch succeeded, and the ExchangeratesAPI rate otherwise.
   */
  function Select(first: Outcome, second: Outcome): (r: Outcome)
    ensures r == Panic <==> first == Panic || second == Panic
    ensures r.Error? <==> first.Error? && second.Error?
    ensures r.Error? ==>
      r.message == "failed to fetch exchange rate from both services: " + first.message + ", " + second.message
    ensures first.Rate? && second != Panic ==> r == first
    ensures first.Error? && second.Rate? ==> r == second
  {
    if first == Panic || second == Panic then Panic
    else if first.Error? && second.Error? then
      Error("failed to fetch exchange rate from both services: " + first.message + ", " + second.message)
    else if first.Rate? then first
    else second
  }

  /**
   * `getExchangeRate`: both fetches run (CurrencyAPI first, ExchangeratesAPI second; their
   * interleaving does not matter because each writes only its own `rate`/`err` pair), and the
   * choice is made by provider, not by which reply arrived first.
   */
  method GetExchangeRate(currencyPair: string, currencyApiKey: string, exchangeratesKey: string,
                         currencyApiReply: ProviderReply, exchangeratesReply: ProviderReply)
    returns (r: Outcome)
    ensures r == Select(Fetch(CurrencyApiUrl(currencyApiKey), currencyPair, currencyApiReply),
                        Fetch(ExchangeratesApiUrl(exchangeratesKey), currencyPair, exchangeratesReply))
  {
    var outcome1 := FetchExchangeRate(CurrencyApiUrl(currencyApiKey), currencyPair, currencyApiReply);
    var outcome2 := FetchExchangeRate(ExchangeratesApiUrl(exchangeratesKey), currencyPair, exchangeratesReply);
    r := Select(outcome1, outcome2);
  }

  /** The JSON body of a successful reply. */
  datatype ExchangeRate = ExchangeRate(currencyPair: string, rate: Quotient)

  /** What the handler answers (a panic takes the process down and sends nothing). */
  datatype HttpReply =
    | BadRequest(badRequestMessage: string)
    | InternalServerError(serverErrorMessage: string)
    | Ok(body: ExchangeRate)
    | Crashed

  /**
   * `handleExchangeRateRequest` after the request body decoded to `currencyPair`: an empty pair
   * is rejected with 400 before any fetch, a failed lookup is a 500 carrying its message, and a
   * success echoes the requested pair unchanged next to the rate.
   */
  method HandleExchangeRateRequest(currencyPair: string, currencyApiKey: string, exchangeratesKey: string,
                                   currencyApiReply: ProviderReply, exchangeratesReply: ProviderReply)
    returns (reply: HttpReply)
    ensures currencyPair == "" ==> reply == BadRequest("Currency pair is required")
    ensures currencyPair != "" ==>
      var r := Select(Fetch(CurrencyApiUrl(currencyApiKey), currencyPair, currencyApiReply),
                      Fetch(ExchangeratesApiUrl(exchangeratesKey), currencyPair, exchangeratesReply));
      reply == match r
        case Rate(q) => Ok(ExchangeRate(currencyPair, q))
        case Error(m) => InternalServerError(m)
        case Panic => Crashed
    ensures reply.Ok? ==> reply.body.currencyPair == currencyPair
  {
    if currencyPair == "" {
      return BadRequest("Currency pair is required");
    }
    var exchangeRate := GetExchangeRate(currencyPair, currencyApiKey, exchangeratesKey,
                                        currencyApiReply, exchangeratesReply);
    match exchangeRate
    case Rate(q) => reply := Ok(ExchangeRate(currencyPair, q));
    case Error(m) => reply := InternalServerError(m);
    case Panic => reply := Crashed;
  }
}
