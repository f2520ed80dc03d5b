# wallet-balance in Dafny

A model of the decision logic of `wallet-balance`, a command-line tool that
totals the US-dollar value of crypto-currency addresses. For each configured
currency it fetches the aggregate balance of some addresses and the exchange
rate into US dollars from one of three public APIs. It then ranks the
currencies by dollar value and prints a total.

The model covers everything decided between an HTTP reply and the balance
report:

- **Reply classifiers** (`NumberFetcher`, `JsonFetcher`).
  - A reply whose body is a number gives a value or an error.
  - A JSON reply is accepted only when its `status` member is `"1"`.
- **Provider adapters.**
  - `BlockchainInfo` serves bitcoin: satoshi are divided by 10^8, and the rate is a reciprocal.
  - `EtherscanInfo` serves ether: wei are summed up to the first unparsable entry and divided by 10^18; the rate is for `"usd"` only.
  - `CryptoidInfo` serves BCC, DASH, LTC and UNO: one request per address, with outcomes folded in completion order.
- **Dispatch and factory.**
  - `InfoFetcher` is the closed set of providers.
  - `FetcherCreator` maps a ticker symbol to a provider.
- **`BalanceReport`.** Its merge rule gives the balance error priority over the rate error.
- **`Legacy`.** This is the older `CryptoBalanceChecker` object that `main.go` actually drives. Both of its handlers write the checker's shared fields.
- **`Program`.** This is `main.go`: the worker loop of `fetchBalances`, the symbol column width, the descending sort by balance × rate, and the total over error-free lines.

## How the world is represented

- **Transport.** The network is a `Reply` value: a transport error, or a
  status code, status text and body. `Runtime.Client.serve` says what the
  remote side answers for each URL. The ghost log `Client.requested` records
  every URL asked for, in order, so contracts can state "no request" and
  "one request per address".
- **Parsing.**
  - `strconv.ParseFloat` is a parameter `parseFloat: string -> Option<real>`; a failure is `NumError(input)`.
  - The untyped JSON view is `decodeObject`.
  - The typed `json.Unmarshal` into the caller's destination is `unmarshalBalances` / `unmarshalPrice`, each of type `(body, destination) -> destination`.
  - All four are bundled in `Wire.Codecs`.
- **Amounts** are `real`.
- **Go runtime objects become classes.**
  - Out-pointers become `Runtime.Slot`.
  - `sync.WaitGroup` becomes `Runtime.WaitGroup`.
  - Channels become `Runtime.Channel`.
  - The typed JSON destination becomes `Runtime.Payload`.
- **Goroutines** run one after the other:
  - The order in which chainz.cryptoid.info answers arrive is a parameter `arrivals`. It must be a rearrangement of the per-address outcomes.
  - In the legacy checker, `rateFirst` says which of the two handlers runs first.
- **Go panics and +Inf become preconditions.**
  - `JsonFetcher.NoPanic`: the `status` and `message` type assertions.
  - `EtherscanInfo.PriceSafe`: a nil `Result`.
  - `BlockchainInfo.NonZeroRate`: the rate division.
- **Shared helpers.** The legacy checker's `fetchValueFromURL`
  (CryptoBalanceChecker.go:256-289) classifies a reply exactly as
  `NumberFetcher.Fetch` does. Its `fetchJSONResponse`
  (CryptoBalanceChecker.go:291-321) is the same procedure as `JsonFetcher.Fetch`.
  The legacy handlers therefore use those two models.

## Model

| member | source | states |
|---|---|---|
| Runtime.Client.Get | fetchers/HTTPClient.go:6-8 | the reply is what the remote side serves for that URL, and the URL is appended to the request log |
| NumberFetcher.StatusError | fetchers/NumberFetcher.go:42-48 | a failure reply's error is its body when non-empty, else its status text |
| NumberFetcher.Fetch | fetchers/NumberFetcher.go:26-59 | a transport error is passed on verbatim; status ≥ 300 fails with body or status text; a value exactly when status < 300 and the body parses, and then it is that number; an unparsable success body gives the parse error for that body |
| NumberFetcher.ErrorBodyNeverParsed | fetchers/NumberFetcher.go:42-50 | for status ≥ 300 the result is a failure and does not depend on the parser at all |
| NumberFetcher.StatusBoundary | fetchers/NumberFetcher.go:42 | 299 goes to the parser and yields the parsed number; 300 is already a failure |
| JsonFetcher.Status | fetchers/JSONFetcher.go:43-55 | transport error verbatim; the decode error for a body that is not a JSON object; success exactly when `status` is `"1"`; otherwise the `message` member verbatim |
| JsonFetcher.Fetch | fetchers/JSONFetcher.go:26-56 | one request for the URL; the signalled error is Status; the typed destination is decoded whenever a body was read, on the error paths too |
| JsonFetcher.StatusCodeIgnored | fetchers/JSONFetcher.go:26-56 | two replies with the same body and different HTTP status codes get the same verdict |
| BlockchainInfo.Balance | fetchers/BlockchainInfoFetcher.go:26-30 | no error exactly when the fetch gave a value; then the balance × 10^8 is the satoshi figure fetched; on error the fetch error with 0 and no division |
| BlockchainInfo.ExchangeRate | fetchers/BlockchainInfoFetcher.go:37-41 | no error exactly when the fetch gave a value; then rate × fetched value = 1; on error the fetch error and 0 |
| BlockchainInfo.FetchBalance | fetchers/BlockchainInfoFetcher.go:25-33 | exactly one request, to `…/q/addressbalance/` plus the addresses joined by `%7C` (ignoring the API key); writes Balance; one `Done` |
| BlockchainInfo.FetchExchangeRate | fetchers/BlockchainInfoFetcher.go:36-44 | exactly one request, to the `tobtc?currency=<target>&value=1` URL; writes ExchangeRate; one `Done` |
| BlockchainInfo.WorkedExamples | fetchers/BlockchainInfoFetcher.go:28-40 | 190000000 satoshi is 1.9 bitcoin; 0.00002 bitcoin per dollar is 50000 dollars per bitcoin |
| EtherscanInfo.FirstBad | fetchers/EtherscanInfoFetcher.go:51-60 | the index where the entry loop breaks: every earlier entry parses, and that one does not (or it is the end) |
| EtherscanInfo.SumUntilBad | fetchers/EtherscanInfoFetcher.go:51-60 | no error exactly when every entry parses; otherwise the parse error of the first bad entry; balance × 10^18 is the wei of the entries before it |
| EtherscanInfo.Balance | fetchers/EtherscanInfoFetcher.go:30-61 | a failed fetch leaves balance 0 with the fetch error; otherwise the entry loop's result |
| EtherscanInfo.ExchangeRate | fetchers/EtherscanInfoFetcher.go:64-95 | a target other than `"usd"` gives the "not supported" error naming it with rate 0; a rate exactly when the target is usd, the fetch succeeded and `ethusd` parses, and then it is that number; on the usd path the error is the JSON fetch's error, or else the parse error for the `ethusd` string; rate 0 on every error |
| EtherscanInfo.FetchBalance | fetchers/EtherscanInfoFetcher.go:30-61 | exactly one request, addresses joined by `,`; writes Balance; one `Done` |
| EtherscanInfo.SumEntries | fetchers/EtherscanInfoFetcher.go:51-60 | the loop with `break` computes SumUntilBad |
| EtherscanInfo.FetchExchangeRate | fetchers/EtherscanInfoFetcher.go:64-95 | no request at all for a target other than usd, one price request otherwise; writes ExchangeRate; one `Done` on every path |
| EtherscanInfo.AllEntriesParse | fetchers/EtherscanInfoFetcher.go:51-60 | when every entry parses: no error, and balance × 10^18 is the whole wei sum |
| EtherscanInfo.StopsAtFirstBad | fetchers/EtherscanInfoFetcher.go:51-60 | entries after the first unparsable one do not matter at all; the result is the ether sum before it plus its parse error |
| CryptoidInfo.BalanceUrls | fetchers/CryptoidInfoFetcher.go:28-29 | one getbalance URL per address, in address order, built from currency, API key and address |
| CryptoidInfo.Outcomes | fetchers/CryptoidInfoFetcher.go:28-37 | one outcome per URL, each the number fetcher's classification of that URL's reply |
| CryptoidInfo.LastError | fetchers/CryptoidInfoFetcher.go:40-46 | none exactly when every received outcome is a value; otherwise an error that was received with only values after it |
| CryptoidInfo.ExchangeRate | fetchers/CryptoidInfoFetcher.go:52-57 | the fetched ticker number unchanged (not inverted), or the fetch error with 0 |
| CryptoidInfo.FetchBalance | fetchers/CryptoidInfoFetcher.go:21-49 | one request per address, in order; consumes exactly one outcome per address; writes the sum of received values and the last received error; one `Done` |
| CryptoidInfo.FetchExchangeRate | fetchers/CryptoidInfoFetcher.go:52-57 | exactly one `ticker.<target>` request; writes ExchangeRate; one `Done` |
| CryptoidInfo.BalanceIgnoresOrder | fetchers/CryptoidInfoFetcher.go:40-46 | the balance is the sum of the successful outcomes whatever order they arrive in |
| CryptoidInfo.ErrorComesFromSomeAddress | fetchers/CryptoidInfoFetcher.go:40-46 | no error exactly when every address succeeded; otherwise the error is one of the addresses' errors |
| CryptoidInfo.NoAddresses | fetchers/CryptoidInfoFetcher.go:21-49 | no addresses: no requests, no outcomes, balance 0, no error |
| CryptoidInfo.PartialSumKept | fetchers/CryptoidInfoFetcher.go:40-46 | a value of 10 and a parse error give balance 10 with that error, in either arrival order |
| InfoFetcher.FetchBalance | fetchers/CryptoCurrencyInfoFetcher.go:4-6 | each provider's balance fetch requests its URLs and writes its own balance |
| InfoFetcher.FetchExchangeRate | fetchers/CryptoCurrencyInfoFetcher.go:9-11 | each provider's rate fetch requests its URL and writes its own rate |
| FetcherCreator.Create | CryptoCurrencyInfoFetcherCreator.go:39-55 | BTC gives bitcoin, ETH ether, BCC/DASH/LTC/UNO the chainz.cryptoid.info provider with the lower-case code; a provider exactly for the six table symbols, otherwise "unknown crypto-currency <symbol>" |
| FetcherCreator.CurrencyMapIsLowerCase | CryptoCurrencyInfoFetcherCreator.go:12-21 | the table has exactly the six symbols as keys and sends each to its lower-case form |
| BalanceReport.MergeError | CryptoCurrencyBalanceReport.go:45-48 | a balance error wins whatever the rate did; the rate error is reported exactly when the balance succeeded; nil exactly when both are nil |
| BalanceReport.FetchInfoForCryptoCurrency | CryptoCurrencyBalanceReport.go:32-52 | balance requested with the config's addresses and API key, rate with the API key and "usd"; both finish before exactly one report is sent; the report carries the config symbol, both values unchanged and MergeError of both errors |
| Legacy.Route | CryptoBalanceChecker.go:62-76 | the same providers as Create for the same six symbols, and "Unknown crypto-currency <symbol>" otherwise |
| Legacy.UnknownSymbolMessagesDifferInCase | CryptoBalanceChecker.go:73-74 | the two revisions' refusals differ only in their first letter, `U` versus `u` |
| Legacy.LastBad | CryptoBalanceChecker.go:115-122 | the index of the last unparsable entry: it does not parse and every later one does |
| Legacy.LastBadEntry | CryptoBalanceChecker.go:115-122 | no error exactly when every entry parses; otherwise the parse error of the last unparsable entry (every later entry parses) |
| Legacy.SumEveryEntry | CryptoBalanceChecker.go:115-122 | the loop adds every parsable balance as it stands (in wei) and keeps the last parse error |
| Legacy.CryptoBalanceChecker.constructor | CryptoBalanceChecker.go:51-53 | a new checker has the given symbol, key and addresses, zero balance, zero rate and no error |
| Legacy.CryptoBalanceChecker.GetAddressBalances | CryptoBalanceChecker.go:56-82 | the checker is sent exactly once; an unknown symbol sets the refusal and makes no request; otherwise both handlers of the provider run and their requests are made |
| Legacy.CryptoBalanceChecker.RunBalanceHandler | CryptoBalanceChecker.go:62-72 | the switch arm that starts the provider's balance handler |
| Legacy.CryptoBalanceChecker.RunRateHandler | CryptoBalanceChecker.go:62-72 | the switch arm that starts the provider's rate handler |
| Legacy.CryptoBalanceChecker.GetEtherscanAddressBalances | CryptoBalanceChecker.go:90-128 | resets balance and error; then the fetch error, or every parsable wei balance summed with the last parse error |
| Legacy.CryptoBalanceChecker.GetEtherscanExchangeRate | CryptoBalanceChecker.go:131-168 | computes the newer adapter's rate; writes its error only when there is one |
| Legacy.CryptoBalanceChecker.GetCryptoidAddressBalances | CryptoBalanceChecker.go:171-193 | resets error and balance, one request per address, then the newer adapter's fold |
| Legacy.CryptoBalanceChecker.GetCryptoidExchangeRate | CryptoBalanceChecker.go:196-214 | computes the newer adapter's rate; writes its error only when there is one |
| Legacy.CryptoBalanceChecker.GetBlockchainAddressBalances | CryptoBalanceChecker.go:217-233 | an error is written and the balance left alone; a value ÷ 10^8 is written and the error left alone |
| Legacy.CryptoBalanceChecker.GetBlockchainExchangeRate | CryptoBalanceChecker.go:236-254 | computes the newer adapter's reciprocal rate; writes its error only when there is one |
| Legacy.LegacyEtherscanCountsWei | CryptoBalanceChecker.go:115-122 | when all entries parse, the legacy balance is 10^18 times the newer adapter's |
| Legacy.OneEtherExample | CryptoBalanceChecker.go:115-122 | one ether at one address: newer balance 1, legacy balance 10^18 |
| Legacy.LegacyEtherscanSkipsBadEntries | CryptoBalanceChecker.go:115-122 | a bad entry before a "5": legacy balance 5, newer balance 0, same error |
| Legacy.RateErrorErasedWhenRateRunsFirst | CryptoBalanceChecker.go:171-214 | a failed rate is reported when the balance handler runs first, but when the rate handler runs first the checker ends with no error and rate 0 |
| Legacy.ValuesIgnoreHandlerOrder | CryptoBalanceChecker.go:56-82 | the balance and rate values do not depend on the handler order, and the rate is the newer adapter's |
| Legacy.BlockchainKeepsEveryFailure | CryptoBalanceChecker.go:217-254 | for bitcoin, in either order, the error is nil exactly when both sub-fetches succeeded |
| Base.ByteLength | main.go:34 | Go's `len` of a symbol: its UTF-8 byte count, between one and four bytes per character and exactly one per ASCII character |
| Base.ByteLengthCountsBytes | main.go:34 | "ETH" is 3 bytes long and the one-character "Ξ" (U+039E) 2 |
| Program.MaxSymbolLength | main.go:32-37 | the longest symbol length in UTF-8 bytes: at least every symbol's byte length and attained by one, 0 for no checkers |
| Program.FetchBalances | main.go:75-102 | exactly one result per checker is received; each checker ends with its own run's fields; every checker's requests are made |
| Program.RunJobs | main.go:80-94 | every checker's GetAddressBalances runs once and sends it once on the results channel |
| Program.CollectResults | main.go:96-99 | exactly `count` results are received, oldest first |
| Program.SortByKeyDescending | main.go:42-45 | afterwards the key is non-increasing along the array, which is a permutation of the original |
| Program.TotalUsdBalance | main.go:47-57 | the total is the sum of balance × rate over lines without error, errored lines adding nothing |
| Program.TotalCountsErrorFree | main.go:51-57 | that total equals the sum of balance × rate over exactly the error-free lines |
| Program.TotalIgnoresOrder | main.go:42-57 | sorting does not change the total |
| Program.RankLines | main.go:41-72 | the lines are the checkers' final fields, as a permutation, in descending dollar value; the total is that of the unsorted error-free lines |
| Program.RankAndTotal | main.go:31-72 | the column width is the longest symbol's byte length, 0 for no checkers; the lines are the checkers' final fields in descending dollar value; the total is that of the unsorted lines |
| Program.Summarise | main.go:28-72 | fetching then ranking: each checker holds its run's fields, the column width is the longest symbol's byte length (0 for none), and the ranking and total are over those fields |

## Left out

- HTTP transport is left out: `client.Get`, reading and closing the body, and the 10-second client timeout. A reply is a value, and a failed body read is folded into the transport error.
- Goroutines, channels, `sync.WaitGroup` and the worker pool are run sequentially.
  - The worker count is only required to be positive; it affects no result.
  - `fetchBalances` receives its results in the order the jobs were started. Its contract states only that each checker is received once.
- Program.FetchBalances: the request log lists the checkers' requests in checker order. Concurrent workers interleave them in any order.
- Legacy.CryptoBalanceChecker.GetAddressBalances: the two handlers are modelled as running one after the other, in either order. Finer interleavings of their field writes are not modelled.
- Floating point is modelled with exact reals.
  - Rounding is not modelled.
  - The order-independence of the chainz.cryptoid.info balance relies on exact addition.
  - `strconv.ParseFloat` and `encoding/json` are parameters whose behaviour is not modelled.
- Go panics and infinities are preconditions rather than modelled outcomes: a missing or non-string `status`/`message` member, a nil `Result` in the price reply, and a zero bitcoin rate.
- Nil entries in the balance list are not modelled; every entry is present.
- The newer sub-fetches call the number and JSON fetchers with signatures that differ from those fetchers' declarations. The model takes each function from its own body.
  - A numeric fetch returns a value or an error.
  - Where a caller assigns the `(value, error)` pair straight through, the value on error is taken to be 0.
- The typed JSON payload is abstract: only its `result` entries and `ethusd` field are modelled.
- Console output, colours, number formatting, and the `maxSymbolLength` padding are not modelled. Neither is `os.Exit`.
- Configuration loading (ConfigLoader.go) is not part of this model. `BalanceReport.Config` only mirrors its record.
- The tests and their mocks are not modelled. MergeError picks the error that each case of CryptoCurrencyBalanceReport_test.go:40-43 expects (none, none, the balance error, the rate error). The test file as written does not agree with the code: cases 42-43 expect capitalised messages ("Balance retrieval error") that the error passed through verbatim cannot produce, and its mock expectations match and cast a `chan<- bool` where the code passes a `*sync.WaitGroup`.

## Findings

| source | as written | input that shows it | evidently intended | confidence | as-written member | corrected member |
|---|---|---|---|---|---|---|
| CryptoBalanceChecker.go:171-214 | the chainz.cryptoid.info (and ether) balance handler starts with `checker.Error = nil`, racing with the rate handler on the same field | a DASH checker whose addresses all answer but whose ticker request fails, with the rate handler completing before the balance handler's first statement (`checker.Error = nil`) runs | a failed rate is reported, as the newer report does by keeping the two errors apart | medium, not executed (the outcome depends on goroutine scheduling) | Legacy.RateErrorErasedWhenRateRunsFirst | BalanceReport.MergeError |
| CryptoBalanceChecker.go:115-122 | the ether balance adds each entry's wei figure as it stands | one address holding 10^18 wei (one ether) | the balance in ether, 10^18 wei being one ether, as fetchers/EtherscanInfoFetcher.go:55 divides | high, not executed | Legacy.LegacyEtherscanCountsWei | EtherscanInfo.SumUntilBad |
