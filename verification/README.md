# Currency-exchange rate services, modelled in Dafny

This project models the sequential rules of a small Go repository. The repository contains three
exchange-rate services and one salary report. Network calls, JSON decoding and goroutine scheduling
are reduced to abstract inputs: a provider reply, an HTTP client given as a function from request to
outcome, and an arrival order. What remains is deterministic, and the project proves it.

- `CurrencyExchange` (`currency_exchange_api/main.go`): the `/exchange-rate` handler's empty-pair
  check and its reply. Also `getExchangeRate`, which picks a result from two providers by provider
  order. And `fetchExchangeRate`: classify the service name from the URL, split the `BASE-QUOTE`
  pair on `-`, check each token against the provider's `data` map left to right, then divide. A pair
  without `-` is one token. When that token is missing from `data`, the fetch returns the usual
  "not found" error. When the whole pair is a key of `data`, the check passes and `currencies[1]`
  panics. The model has an explicit `Panic` outcome for that case.
- `ProviderRates` (`internal/services/rate/rate.go`): `ExchangeRateService` as a class whose
  constructor fills its API-key map one entry at a time. Its `fetchExchangeRate` looks up the key,
  builds the URL from `currencyPair[:3]` and `currencyPair[4:]`, checks the status and reads the
  rate from `rates`. Each call has exactly one outcome: an error or a rate.
- `RateApi` (`rate-api/internal/rateservice/service.go`): the two provider functions. Each sends
  exactly one `RateResponse`. Also `RateService`'s decision after its `select` has read one message;
  the input `first` says which one.
- `SalaryReport` (`task2/main.go`): `sort.Slice` ascending and then descending, done in place on an
  array of records; the grouping of records into a map by currency; and the USD filter.
- `Text`: Go's `strings.Contains` and `strings.Split` (one-character separator), with the
  split/join round trip. `Wrappers`: Option and Result.

Rates and salaries are `real`. The `currency_exchange_api` rate stays the symbolic quotient
`Quotient(quote, base)` of the two provider values.

## Model

| member | source | states |
|---|---|---|
| `Text.Split` | currency_exchange_api/main.go:137 | `strings.Split` on `-`: one token more than there are separators, and no token contains the separator |
| `Text.SplitNoSeparator` | currency_exchange_api/main.go:137 | a pair with no `-` splits into the single token that is the whole pair |
| `Text.JoinSplit` | currency_exchange_api/main.go:137 | joining the split tokens with `-` gives back the pair |
| `Text.SplitJoin` | currency_exchange_api/main.go:137 | splitting a join of `-`-free tokens gives back the tokens |
| `CurrencyExchange.ServiceName` | currency_exchange_api/main.go:113-120 | the name is CurrencyAPI exactly when the URL contains "currencyapi", even if it also contains "exchangeratesapi"; ExchangeratesAPI exactly when it contains "exchangeratesapi" but not "currencyapi"; Unknown exactly when it contains neither |
| `CurrencyExchange.CurrencyApiUrlName` | currency_exchange_api/main.go:88 | the CurrencyAPI URL is classified as CurrencyAPI for every API key |
| `CurrencyExchange.ExchangeratesApiUrlKnown` | currency_exchange_api/main.go:94 | the ExchangeratesAPI URL is never classified as Unknown, whatever the key |
| `CurrencyExchange.ExchangeratesApiUrlName` | currency_exchange_api/main.go:94 | the ExchangeratesAPI URL is named ExchangeratesAPI exactly when its key does not contain "currencyapi" |
| `CurrencyExchange.ExchangeratesKeyMisclassified` | currency_exchange_api/main.go:113-117 | the whole URL is classified, key included: an ExchangeratesAPI key containing "currencyapi" makes that fetch's messages name CurrencyAPI |
| `CurrencyExchange.FirstMissing` | currency_exchange_api/main.go:140-144 | None exactly when every token is a key of `data`; otherwise the token at the first index whose token is missing, with every earlier token present |
| `CurrencyExchange.FetchExchangeRate` | currency_exchange_api/main.go:110-153 | the loop version, with its early return at the first missing token, computes exactly the specified fetch outcome |
| `CurrencyExchange.FetchRate` | currency_exchange_api/main.go:137-147 | a rate comes back exactly when the reply decoded, the pair contains `-` and every token is in `data`; the rate is `data[tokens[1]]` over `data[tokens[0]]`, and extra tokens are only checked for presence |
| `CurrencyExchange.FetchMissingToken` | currency_exchange_api/main.go:140-144 | when token i is the first one missing, the result is the error naming token i and the service, and no rate is computed |
| `CurrencyExchange.FetchSingleTokenPanics` | currency_exchange_api/main.go:137-147 | a pair without `-` that is itself a key of `data` passes the check and then panics on `currencies[1]` |
| `CurrencyExchange.FetchUsdEur` | currency_exchange_api/tests/main_test.go:21-61 | USD = 1.0 and EUR = 0.92 give the rate 0.92 for USD-EUR |
| `CurrencyExchange.Select` | currency_exchange_api/main.go:99-107 | an error exactly when both fetches failed, its message naming err1 then err2; a CurrencyAPI success wins even when ExchangeratesAPI also succeeded; a lone ExchangeratesAPI success is returned; a panic in either fetch ends the process |
| `CurrencyExchange.GetExchangeRate` | currency_exchange_api/main.go:78-108 | runs both fetches on their own URLs and returns `Select` of their outcomes, so provider order decides and arrival order does not |
| `CurrencyExchange.HandleExchangeRateRequest` | currency_exchange_api/main.go:51-65 | an empty pair is a 400 "Currency pair is required" before any fetch; an error is a 500 carrying its message; a success echoes the requested pair unchanged with the rate |
| `ProviderRates.ExchangeRateService.constructor` | internal/services/rate/rate.go:18-27 | the key map's key set is exactly {exchangeratesapi.io, openexchangerates.org}, each mapped to its environment value |
| `ProviderRates.ExchangeRateService.FetchExchangeRate` | internal/services/rate/rate.go:49-92 | an unknown service gives "API key not found for service: <service>"; a rate comes back exactly when the key exists, the request was built and sent, the status is 200, the body decoded and `rates` has `pair[4:]`; the rate is `rates[pair[4:]]`; every call has one outcome |
| `ProviderRates.LatestUrlInjective` | internal/services/rate/rate.go:56 | for one service, two pairs give the same URL exactly when they agree on `pair[:3]` and on `pair[4:]` |
| `ProviderRates.NoRequestWithoutKey` | internal/services/rate/rate.go:50-54 | without a key the call fails and its result does not depend on the HTTP client: no request is made |
| `ProviderRates.UnknownServiceRejected` | internal/services/rate/rate.go:20-22 | a freshly built service rejects every service other than the two configured ones |
| `ProviderRates.BadStatusRejected` | internal/services/rate/rate.go:72-75 | a non-200 status is an error naming the service and the status text, whatever the body held |
| `ProviderRates.MissingRateRejected` | internal/services/rate/rate.go:85-89 | every decoded 200 reply whose `rates` lack `pair[4:]` is an error naming the whole pair and the service |
| `ProviderRates.SeparatorIgnored` | internal/services/rate/rate.go:56 | pairs that differ only at index 3 succeed or fail together and, on success, give the same rate |
| `RateApi.RequestsDependOnPairOnlyInPayload` | rate-api/internal/rateservice/service.go:63-142 | the pair travels only in the JSON payload: for each provider, two pairs give requests that differ only in the payload, and equal requests mean equal pairs |
| `RateApi.ProviderMessages` | rate-api/internal/rateservice/service.go:63-113 | every path sends exactly one message; its `Err` is nil exactly when a reply was decoded, and then the message is that reply |
| `RateApi.GetRateFromCurrencyAPI` | rate-api/internal/rateservice/service.go:63-113 | one message on the channel, with a nil `Err` exactly when the reply decoded; the request is `CurrencyAPIRequest`, a POST of the pair to `<base>/v3/rate` with "Bearer " plus the CurrencyAPI key |
| `RateApi.GetRateFromExchangeAPI` | rate-api/internal/rateservice/service.go:116-166 | one message on the channel, with a nil `Err` exactly when the reply decoded; the request is `ExchangeAPIRequest`, a POST of the pair to `<base>/v3/latest?apikey=<key>` with "Bearer " plus the ExchangeAPI key |
| `RateApi.RateService` | rate-api/internal/rateservice/service.go:35-61 | always a success with a nil error, so the "both services" error is unreachable; if the CurrencyAPI message is read first, it is returned when its `Err` is nil and the zero response otherwise; if the ExchangeAPI message is read first, the zero response is returned whatever that provider sent |
| `RateApi.ExchangeFirstDropsReply` | rate-api/internal/rateservice/service.go:45-57 | with an ExchangeAPI reply of USD-EUR at 0.88 read first, the service returns the zero response as a success |
| `RateApi.RateServiceBothRead` | rate-api/internal/rateservice/service.go:52-60 | the intended decision: fail, naming both errors, exactly when both providers failed; otherwise the CurrencyAPI reply if it succeeded, else the ExchangeAPI reply |
| `SalaryReport.SortBySalary` | task2/main.go:49-62 | after `sort.Slice` the slice is a permutation of what it held and is non-decreasing (ascending) or non-increasing (descending) in salary value; stability is not claimed |
| `SalaryReport.ExtremeIndex` | task2/main.go:49-51 | finds a record of the unsorted suffix that may precede all the others under the sort's comparison |
| `SalaryReport.WithCurrencyCounts` | task2/main.go:88-92 | the filter keeps every record of the currency exactly as often as it occurs, unchanged, and no other record |
| `SalaryReport.WithCurrencySorted` | task2/main.go:72-73 | selecting by currency keeps slice order, so a slice sorted by salary gives a sorted selection |
| `SalaryReport.GroupingByCurrency` | task2/main.go:71-74 | the map has one key per currency in the slice; each group is exactly that currency's records in slice order, so no group is empty |
| `SalaryReport.GroupOfEachRecord` | task2/main.go:71-74 | a record is in the group of currency c exactly when it is in the slice with currency c |
| `SalaryReport.GroupSizesSum` | task2/main.go:71-74 | the group sizes add up to the number of records |
| `SalaryReport.GroupByCurrency` | task2/main.go:71-74 | the loop builds exactly the grouping: keys are the currencies present, each group is the currency's records in order |
| `SalaryReport.FilterByCurrency` | task2/main.go:86-92 | the loop selects exactly the records with the currency, in slice order |
| `SalaryReport.Report` | task2/main.go:48-92 | the ascending snapshot and the final slice are permutations of the input, sorted ascending and descending; every group and the USD list are non-increasing in salary; the USD list is the USD records with their values unconverted |

## Left out

- Goroutines, channels, `sync.WaitGroup` and `select` scheduling. Arrival order is the input `first` of `RateApi.RateService`. In `getExchangeRate` each goroutine writes only its own variables, so the interleaving cannot change the result.
- `ExchangeRateService.GetExchangeRate` in internal/services/rate/rate.go:30-46 is not modelled. It returns whichever message, rate or error, comes first on either channel. That is pure scheduling.
- HTTP requests, JSON encoding and decoding, header setting and closing of response bodies. Each becomes an abstract outcome (`ProviderReply`, `HttpOutcome`). The Content-Type header is kept only inside `RateApi.Request`.
- The `json.Marshal` error paths of the rate-api providers. Marshalling a string and a nil error cannot fail, so those paths are not modelled.
- Error wrapping follows `errors.Wrap` of pkg/errors ("message: cause"). The source imports the standard `errors` package, which has no `Wrap`.
- The second definitions at rate-api/internal/rateservice/service.go:170-250 redeclare the provider methods, and the file does not compile with them. Only the first definitions are modelled.
- HTTP handlers, servers and routing: internal/services/handler/handlers.go, rate-api/internal/rateservice/http_handler.go, the `main` functions and cmd/. `CurrencyExchange.HandleExchangeRateRequest` starts after the request body has decoded.
- Environment and configuration loading: rate-api/internal/config/config.go, `os.Getenv` and godotenv. API keys and configuration are parameters.
- internal/services/rate/converter.go. It is one float multiplication around the unmodelled race.
- Floating-point semantics: rounding, division by a zero base value (Inf or NaN), NaN in salary comparisons, and `%.2f` formatting. The `currency_exchange_api` rate is kept as a symbolic quotient.
- CurrencyExchange.HandleExchangeRateRequest: answers `Ok` for every rate. In Go a zero base value gives ±Inf or NaN, `json.Marshal` refuses it, and the handler answers 500 (currency_exchange_api/main.go:67-71). That path is not modelled, because division is kept symbolic.
- ProviderRates.LatestUrl: slices characters, while Go slices bytes. For a pair such as "€-USD" Go builds `base=€&symbols=USD` and looks up "USD"; the model builds `base=€-U&symbols=D` and looks up "D". The two agree on pairs of one-byte characters, such as ASCII currency codes. Byte encoding is not modelled.
- ProviderRates.ExchangeRateService.FetchExchangeRate: requires a pair of at least 4 characters when the service has a key. In Go a shorter pair panics inside the goroutine and the process exits. That crash is not modelled.
- Logging, and the file reading and printing of task2. Go's random map iteration order when printing groups is also left out. What task2 prints is returned as snapshots.
- SalaryReport.SortBySalary: Go's pattern-defeating quicksort is replaced by a selection sort. Only what `sort.Slice` promises is stated: a permutation, sorted. The order that the real algorithm gives to equal salaries is not captured.
- ProviderRates.SeparatorIgnored: states that the results agree only on success. The error for a missing rate quotes the whole pair, separator included.
- Context cancellation, deadlines, upper-casing of codes, rejection of non-positive rates and an N-provider aggregator are not implemented in the code, so they are not modelled.

## Findings

| source | as written | input that shows it | evidently intended | confidence | as-written member | corrected member |
|---|---|---|---|---|---|---|
| rate-api/internal/rateservice/service.go:45-60 | the `select` reads one message; the other provider's error stays nil, so the zero `RateResponse` comes back as a success, and the "both services" error can never be returned | the ExchangeAPI message (USD-EUR, 0.88, nil error) is read first | prefer the CurrencyAPI reply, fall back to the ExchangeAPI reply, fail only when both failed | high (not executed) | `RateApi.ExchangeFirstDropsReply` | `RateApi.RateServiceBothRead` |
