/**
 * The `CryptoCurrencyInfoFetcher` capability (fetchers/CryptoCurrencyInfoFetcher.go):
 * fetch the aggregate balance of some addresses, fetch the exchange rate into a
 * target currency. Its three implementations form a closed set, so the model
 * is a tagged union and each operation dispatches on the tag.
 */
module InfoFetcher {
  import opened Base
  import opened Wire
  import opened Runtime
  import NumberFetcher
  import BlockchainInfo
  import EtherscanInfo
  import CryptoidInfo

  datatype Provider = Blockchain | Etherscan | Cryptoid(currency: string)

  /** The URLs FetchBalance requests, in order. */
  function BalanceRequests(p: Provider, addresses: seq<string>, apiKey: string): seq<string>
  {
    match p
    case Blockchain => [BlockchainInfo.BalanceUrl(addresses)]
    case Etherscan => [EtherscanInfo.BalanceUrl(addresses)]
    case Cryptoid(currency) => CryptoidInfo.BalanceUrls(currency, apiKey, addresses)
  }

  /** The URLs FetchExchangeRate requests. */
  function RateRequests(p: Provider, apiKey: string, targetCurrency: string): seq<string>
  {
    match p
    case Blockchain => [BlockchainInfo.RateUrl(targetCurrency)]
    case Etherscan => if targetCurrency == EtherscanInfo.SupportedTarget then [EtherscanInfo.PriceUrl(apiKey)] else []
    case Cryptoid(currency) => [CryptoidInfo.RateUrl(currency, targetCurrency, apiKey)]
  }

  /**
   * What the balance sub-fetch needs of the world: no Go panic for the JSON
   * provider, and for the fan-out provider an order of completion that is a
   * rearrangement of the per-address outcomes.
   */
  predicate BalanceSafe(p: Provider, serve: string -> Reply, codecs: Codecs, addresses: seq<string>, apiKey: string,
                        arrivals: seq<Outcome<real>>)
  {
    match p
    case Blockchain => true
    case Etherscan => EtherscanInfo.BalanceSafe(serve(EtherscanInfo.BalanceUrl(addresses)), codecs)
    case Cryptoid(currency) =>
      multiset(arrivals) == multiset(CryptoidInfo.Outcomes(serve, codecs.parseFloat, CryptoidInfo.BalanceUrls(currency, apiKey, addresses)))
  }

  /** What the rate sub-fetch needs of the world: no division by zero, no Go panic. */
  predicate RateSafe(p: Provider, serve: string -> Reply, codecs: Codecs, apiKey: string, targetCurrency: string)
  {
    match p
    case Blockchain => BlockchainInfo.NonZeroRate(serve(BlockchainInfo.RateUrl(targetCurrency)), codecs.parseFloat)
    case Etherscan =>
      targetCurrency == EtherscanInfo.SupportedTarget ==> EtherscanInfo.PriceSafe(serve(EtherscanInfo.PriceUrl(apiKey)), codecs)
    case Cryptoid(_) => true
  }

  /** The `(balance, err)` the provider's FetchBalance writes. */
  function BalanceOf(p: Provider, serve: string -> Reply, codecs: Codecs, addresses: seq<string>, apiKey: string,
                     arrivals: seq<Outcome<real>>): Reading
    requires BalanceSafe(p, serve, codecs, addresses, apiKey, arrivals)
  {
    match p
    case Blockchain => BlockchainInfo.Balance(serve(BlockchainInfo.BalanceUrl(addresses)), codecs.parseFloat)
    case Etherscan => EtherscanInfo.Balance(serve(EtherscanInfo.BalanceUrl(addresses)), codecs)
    case Cryptoid(_) => CryptoidInfo.Balance(arrivals)
  }

  /** The `(exchangeRate, err)` the provider's FetchExchangeRate writes. */
  function RateOf(p: Provider, serve: string -> Reply, codecs: Codecs, apiKey: string, targetCurrency: string): Reading
    requires RateSafe(p, serve, codecs, apiKey, targetCurrency)
  {
    match p
    case Blockchain => BlockchainInfo.ExchangeRate(serve(BlockchainInfo.RateUrl(targetCurrency)), codecs.parseFloat)
    case Etherscan => EtherscanInfo.ExchangeRate(targetCurrency, serve(EtherscanInfo.PriceUrl(apiKey)), codecs)
    case Cryptoid(currency) => CryptoidInfo.ExchangeRate(serve(CryptoidInfo.RateUrl(currency, targetCurrency, apiKey)), codecs.parseFloat)
  }

  method FetchBalance(p: Provider, client: Client, codecs: Codecs, addresses: seq<string>, apiKey: string,
                      arrivals: seq<Outcome<real>>, balance: Slot, done: WaitGroup)
    requires done.pending > 0
    requires BalanceSafe(p, client.serve, codecs, addresses, apiKey, arrivals)
    modifies client, balance, done
    ensures client.requested == old(client.requested) + BalanceRequests(p, addresses, apiKey)
    ensures balance.Reading() == BalanceOf(p, client.serve, codecs, addresses, apiKey, arrivals)
    ensures done.pending == old(done.pending) - 1
  {
    match p
    case Blockchain =>
      BlockchainInfo.FetchBalance(client, codecs.parseFloat, addresses, apiKey, balance, done);
    case Etherscan =>
      EtherscanInfo.FetchBalance(client, codecs, addresses, apiKey, balance, done);
    case Cryptoid(currency) =>
      CryptoidInfo.FetchBalance(client, codecs.parseFloat, currency, addresses, apiKey, arrivals, balance, done);
  }

  method FetchExchangeRate(p: Provider, client: Client, codecs: Codecs, apiKey: string, targetCurrency: string,
                           exchangeRate: Slot, done: WaitGroup)
    requires done.pending > 0
    requires RateSafe(p, client.serve, codecs, apiKey, targetCurrency)
    modifies client, exchangeRate, done
    ensures client.requested == old(client.requested) + RateRequests(p, apiKey, targetCurrency)
    ensures exchangeRate.Reading() == RateOf(p, client.serve, codecs, apiKey, targetCurrency)
    ensures done.pending == old(done.pending) - 1
  {
    match p
    case Blockchain =>
      BlockchainInfo.FetchExchangeRate(client, codecs.parseFloat, apiKey, targetCurrency, exchangeRate, done);
    case Etherscan =>
      EtherscanInfo.FetchExchangeRate(client, codecs, apiKey, targetCurrency, exchangeRate, done);
    case Cryptoid(currency) =>
      CryptoidInfo.FetchExchangeRate(client, codecs.parseFloat, currency, apiKey, targetCurrency, exchangeRate, done);
  }
}
