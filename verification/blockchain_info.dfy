/**
 * `BlockchainInfoFetcher` (fetchers/BlockchainInfoFetcher.go): the bitcoin
 * adapter. One balance request for all addresses, answered in satoshi, and an
 * exchange rate obtained as the reciprocal of "bitcoin per unit of currency".
 */
module BlockchainInfo {
  import opened Base
  import opened Runtime
  import NumberFetcher

  /** Satoshi per bitcoin, 10^8. */
  const Satoshi: real := 100000000.0

  /** `|` percent-encoded, as section 2.1 of RFC 3986 writes it. */
  const AddressSeparator := "%7C"

  const BalancePrefix := "https://blockchain.info/q/addressbalance/"

  function BalanceUrl(addresses: seq<string>): string
  {
    BalancePrefix + Join(addresses, AddressSeparator)
  }

  function RateUrl(targetCurrency: string): string
  {
    "https://blockchain.info/tobtc?currency=" + targetCurrency + "&value=1"
  }

  /** The `(balance, err)` FetchBalance writes, given the reply to BalanceUrl. */
  function Balance(reply: Reply, parse: string -> Option<real>): (r: Reading)
    ensures r.err == None <==> NumberFetcher.Fetch(reply, parse).Value?
    // in bitcoin: multiplying back by 10^8 gives the satoshi the server reported
    ensures r.err == None ==> r.value * Satoshi == NumberFetcher.Fetch(reply, parse).value
    // on error nothing is divided: the fetcher's error and zero value are passed on
    ensures r.err != None ==> r == Reading(0.0, Some(NumberFetcher.Fetch(reply, parse).error))
  {
    var fetched := ToReading(NumberFetcher.Fetch(reply, parse));
    if fetched.err == None then fetched.(value := fetched.value / Satoshi) else fetched
  }

  /** A successful rate reply is not 0 (Go would divide to +Inf). */
  predicate NonZeroRate(reply: Reply, parse: string -> Option<real>)
  {
    NumberFetcher.Fetch(reply, parse).Value? ==> NumberFetcher.Fetch(reply, parse).value != 0.0
  }

  /** The `(exchangeRate, err)` FetchExchangeRate writes, given the reply to RateUrl. */
  function ExchangeRate(reply: Reply, parse: string -> Option<real>): (r: Reading)
    requires NonZeroRate(reply, parse)
    ensures r.err == None <==> NumberFetcher.Fetch(reply, parse).Value?
    // the rate is the reciprocal of "bitcoin per unit of currency"
    ensures r.err == None ==> r.value * NumberFetcher.Fetch(reply, parse).value == 1.0
    ensures r.err != None ==> r == Reading(0.0, Some(NumberFetcher.Fetch(reply, parse).error))
  {
    var fetched := ToReading(NumberFetcher.Fetch(reply, parse));
    if fetched.err == None then fetched.(value := 1.0 / fetched.value) else fetched
  }

  method FetchBalance(client: Client, parse: string -> Option<real>, addresses: seq<string>, apiKey: string,
                      balance: Slot, done: WaitGroup)
    requires done.pending > 0
    modifies client, balance, done
    ensures client.requested == old(client.requested) + [BalanceUrl(addresses)]
    ensures balance.Reading() == Balance(client.serve(BalanceUrl(addresses)), parse)
    ensures done.pending == old(done.pending) - 1
  {
    var url := BalanceUrl(addresses);
    var reply := client.Get(url);
    var fetched := ToReading(NumberFetcher.Fetch(reply, parse));
    balance.value, balance.err := fetched.value, fetched.err;
    if balance.err == None {
      balance.value := balance.value / Satoshi;
    }
    done.Done();
  }

  method FetchExchangeRate(client: Client, parse: string -> Option<real>, apiKey: string, targetCurrency: string,
                           exchangeRate: Slot, done: WaitGroup)
    requires done.pending > 0
    requires NonZeroRate(client.serve(RateUrl(targetCurrency)), parse)
    modifies client, exchangeRate, done
    ensures client.requested == old(client.requested) + [RateUrl(targetCurrency)]
    ensures exchangeRate.Reading() == ExchangeRate(client.serve(RateUrl(targetCurrency)), parse)
    ensures done.pending == old(done.pending) - 1
  {
    var url := RateUrl(targetCurrency);
    var reply := client.Get(url);
    var fetched := ToReading(NumberFetcher.Fetch(reply, parse));
    exchangeRate.value, exchangeRate.err := fetched.value, fetched.err;
    if exchangeRate.err == None {
      exchangeRate.value := 1.0 / exchangeRate.value;
    }
    done.Done();
  }

  /** A balance body of "190000000" satoshi is 1.9 bitcoin; a rate body of "0.00002" is 50000 per bitcoin. */
  lemma WorkedExamples(parse: string -> Option<real>)
    requires parse("190000000") == Some(190000000.0)
    requires parse("0.00002") == Some(0.00002)
    ensures Balance(Response(200, "200 OK", "190000000"), parse) == Reading(1.9, None)
    ensures ExchangeRate(Response(200, "200 OK", "0.00002"), parse) == Reading(50000.0, None)
  {
  }
}
