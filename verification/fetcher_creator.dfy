/**
 * `CryptoCurrencyInfoHTTPFetcherCreator.Create` (CryptoCurrencyInfoFetcherCreator.go):
 * the closed mapping from a ticker symbol to a provider, and the read-only
 * table from ticker symbol to the code the provider APIs use.
 */
module FetcherCreator {
  import opened Base
  import opened InfoFetcher

  /** `cryptoCurrencyMap`, built once at start-up. */
  const CurrencyMap: map<string, string> :=
    map["BTC" := "btc", "ETH" := "eth", "LTC" := "ltc", "DASH" := "dash", "UNO" := "uno", "BCC" := "bcc"]

  /** The symbols served by chainz.cryptoid.info. */
  const CryptoidSymbols: set<string> := {"BCC", "DASH", "LTC", "UNO"}

  function UnknownCurrency(symbol: string): Error
  {
    Message("unknown crypto-currency " + symbol)
  }

  function Create(symbol: string): (r: Outcome<Provider>)
    ensures symbol == "BTC" ==> r == Value(Blockchain)
    ensures symbol == "ETH" ==> r == Value(Etherscan)
    ensures symbol in CryptoidSymbols ==> r == Value(Cryptoid(Lower(symbol)))
    // a provider exactly for the six symbols of the table; otherwise the unknown-currency error
    ensures r.Value? <==> symbol in CurrencyMap
    ensures r.Failed? ==> r.error == UnknownCurrency(symbol)
  {
    CurrencyMapIsLowerCase();
    if symbol == "BTC" then Value(Blockchain)
    else if symbol == "ETH" then Value(Etherscan)
    else if symbol in CryptoidSymbols then Value(Cryptoid(CurrencyMap[symbol]))
    else Failed(UnknownCurrency(symbol))
  }

  /** The table sends each of its six symbols to its lower-case form, and has no other keys. */
  lemma CurrencyMapIsLowerCase()
    ensures CurrencyMap.Keys == {"BTC", "ETH"} + CryptoidSymbols
    ensures forall symbol :: symbol in CurrencyMap ==> CurrencyMap[symbol] == Lower(symbol)
  {
    assert Lower("BTC") == "btc";
    assert Lower("ETH") == "eth";
    assert Lower("LTC") == "ltc";
    assert Lower("DASH") == "dash";
    assert Lower("UNO") == "uno";
    assert Lower("BCC") == "bcc";
  }
}
