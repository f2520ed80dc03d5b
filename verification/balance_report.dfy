/**
 * `FetchInfoForCryptoCurrency` (CryptoCurrencyBalanceReport.go): for one
 * configured currency, run the balance and the exchange-rate sub-fetches,
 * wait for both, and emit one report whose error gives the balance error
 * priority over the rate error.
 */
module BalanceReport {
  import opened Base
  import opened Wire
  import opened Runtime
  import opened InfoFetcher

  /** `cryptoBalanceCheckerConfig` (ConfigLoader.go). */
  datatype Config = Config(symbol: string, addresses: seq<string>, apiKey: string)

  /** `CryptoCurrencyBalanceReport`; the constructor is `NewCryptoCurrencyBalanceReport`. */
  datatype Report = Report(symbol: string, usdExchangeRate: real, balance: real, error: Option<Error>)

  /** The rate is always requested into US dollars. */
  const TargetCurrency := "usd"

  /** The report's error, from the balance sub-fetch's error and the rate sub-fetch's error. */
  function MergeError(balanceErr: Option<Error>, rateErr: Option<Error>): (r: Option<Error>)
    // a balance error wins, whatever the rate did
    ensures balanceErr != None ==> r == balanceErr
    // the rate error is reported exactly when the balance succeeded and the rate failed
    ensures balanceErr == None ==> r == rateErr
    // nil exactly when both sub-fetches succeeded
    ensures r == None <==> balanceErr == None && rateErr == None
  {
    var err := balanceErr;
    if balanceErr == None && rateErr != None then rateErr else err
  }

  /**
   * Run both sub-fetches, join them, emit one report on `done`. `rateFirst`
   * says which of the two concurrent sub-fetches is run first; nothing but the
   * order of the requests depends on it.
   */
  method FetchInfoForCryptoCurrency(config: Config, infoFetcher: Provider, client: Client, codecs: Codecs,
                                    arrivals: seq<Outcome<real>>, rateFirst: bool, done: Channel<Report>)
    requires BalanceSafe(infoFetcher, client.serve, codecs, config.addresses, config.apiKey, arrivals)
    requires RateSafe(infoFetcher, client.serve, codecs, config.apiKey, TargetCurrency)
    modifies client, done
    ensures var balance := BalanceOf(infoFetcher, client.serve, codecs, config.addresses, config.apiKey, arrivals);
            var rate := RateOf(infoFetcher, client.serve, codecs, config.apiKey, TargetCurrency);
            done.items == old(done.items) + [Report(config.symbol, rate.value, balance.value, MergeError(balance.err, rate.err))]
    ensures var b := BalanceRequests(infoFetcher, config.addresses, config.apiKey);
            var r := RateRequests(infoFetcher, config.apiKey, TargetCurrency);
            client.requested == old(client.requested) + (if rateFirst then r + b else b + r)
  {
    ghost var expectedBalance := BalanceOf(infoFetcher, client.serve, codecs, config.addresses, config.apiKey, arrivals);
    ghost var expectedRate := RateOf(infoFetcher, client.serve, codecs, config.apiKey, TargetCurrency);
    var infoFetched := new WaitGroup(2);
    var balance := new Slot();
    var usdExchangeRate := new Slot();
    if rateFirst {
      FetchExchangeRate(infoFetcher, client, codecs, config.apiKey, TargetCurrency, usdExchangeRate, infoFetched);
      FetchBalance(infoFetcher, client, codecs, config.addresses, config.apiKey, arrivals, balance, infoFetched);
    } else {
      FetchBalance(infoFetcher, client, codecs, config.addresses, config.apiKey, arrivals, balance, infoFetched);
      FetchExchangeRate(infoFetcher, client, codecs, config.apiKey, TargetCurrency, usdExchangeRate, infoFetched);
    }
    assert balance.Reading() == expectedBalance && usdExchangeRate.Reading() == expectedRate;
    // infoFetched.Wait(): both sub-fetches have called Done
    assert infoFetched.pending == 0;
    var err := MergeError(balance.err, usdExchangeRate.err);
    var report := Report(config.symbol, usdExchangeRate.value, balance.value, err);
    done.Send(report);
  }
}
