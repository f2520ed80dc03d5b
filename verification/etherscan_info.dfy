/**
 * `EtherscanInfoFetcher` (fetchers/EtherscanInfoFetcher.go): the ether
 * adapter. One `balancemulti` request for all addresses whose per-account
 * balances, in wei, are summed into ether until the first one that does not
 * parse; and a price request that only the target "usd" may make.
 */
module EtherscanInfo {
  import opened Base
  import opened Wire
  import opened Runtime
  import opened Sums
  import JsonFetcher

  /** Wei per ether, 10^18. */
  const Wei: real := 1000000000000000000.0

  /** The only target currency the price endpoint serves. */
  const SupportedTarget := "usd"

  function BalanceUrl(addresses: seq<string>): string
  {
    "https://api.etherscan.io/api?module=account&action=balancemulti&address=" + Join(addresses, ",") + "&tag=latest"
  }

  function PriceUrl(apiKey: string): string
  {
    "https://api.etherscan.io/api?module=stats&action=ethprice&apikey=" + apiKey
  }

  /** The error for any target other than "usd". */
  function UnsupportedTarget(targetCurrency: string): Error
  {
    Message(targetCurrency + " is not supported as target currency for ETH, only USD at the moment")
  }

  /** An entry's balance as the server wrote it, in wei (0 when it does not parse). */
  function InWei(parse: string -> Option<real>): BalanceEntry -> real
  {
    (e: BalanceEntry) => if parse(e.balance).Some? then parse(e.balance).value else 0.0
  }

  /** An entry's balance in ether, as the loop adds it. */
  function InEther(parse: string -> Option<real>): BalanceEntry -> real
  {
    (e: BalanceEntry) => if parse(e.balance).Some? then parse(e.balance).value / Wei else 0.0
  }

  /** The index of the first entry whose balance does not parse, or the number of entries. */
  function FirstBad(entries: seq<BalanceEntry>, parse: string -> Option<real>): (k: nat)
    ensures k <= |entries|
    ensures forall i :: 0 <= i < k ==> parse(entries[i].balance).Some?
    ensures k < |entries| ==> parse(entries[k].balance).None?
  {
    if |entries| == 0 || parse(entries[0].balance).None? then 0
    else 1 + FirstBad(entries[1..], parse)
  }

  /** The balance loop: ether summed in order, stopping at the first unparsable entry. */
  function SumUntilBad(entries: seq<BalanceEntry>, parse: string -> Option<real>): (r: Reading)
    // no error exactly when every entry parses
    ensures r.err == None <==> forall i :: 0 <= i < |entries| ==> parse(entries[i].balance).Some?
    // otherwise the error is the parse error of the first bad entry
    ensures r.err != None ==> r.err == Some(NumError(entries[FirstBad(entries, parse)].balance))
    // the value, times 10^18, is the wei reported by the entries before the first bad one
    ensures r.value * Wei == SumBy(entries[..FirstBad(entries, parse)], InWei(parse))
  {
    var k := FirstBad(entries, parse);
    SumByScaled(entries[..k], InWei(parse), InEther(parse), Wei);
    Reading(SumBy(entries[..k], InEther(parse)), if k < |entries| then Some(NumError(entries[k].balance)) else None)
  }

  predicate BalanceSafe(reply: Reply, codecs: Codecs)
  {
    JsonFetcher.NoPanic(reply, codecs.decodeObject)
  }

  /** The entries the balance request decoded. */
  function Entries(reply: Reply, codecs: Codecs): seq<BalanceEntry>
  {
    JsonFetcher.Decoded(reply, codecs.unmarshalBalances, EmptyBalanceResponse).result
  }

  /** The `(balance, err)` FetchBalance writes, given the reply to BalanceUrl. */
  function Balance(reply: Reply, codecs: Codecs): (r: Reading)
    requires BalanceSafe(reply, codecs)
    // a failed fetch leaves the balance at 0 with the fetch error
    ensures JsonFetcher.Status(reply, codecs.decodeObject) != None ==>
              r == Reading(0.0, JsonFetcher.Status(reply, codecs.decodeObject))
    ensures JsonFetcher.Status(reply, codecs.decodeObject) == None ==>
              r == SumUntilBad(Entries(reply, codecs), codecs.parseFloat)
  {
    var status := JsonFetcher.Status(reply, codecs.decodeObject);
    if status != None then Reading(0.0, status) else SumUntilBad(Entries(reply, codecs), codecs.parseFloat)
  }

  /** The price reply does not leave `Result` nil on success (Go would panic). */
  predicate PriceSafe(reply: Reply, codecs: Codecs)
  {
    && JsonFetcher.NoPanic(reply, codecs.decodeObject)
    && (JsonFetcher.Status(reply, codecs.decodeObject) == None ==>
          JsonFetcher.Decoded(reply, codecs.unmarshalPrice, EmptyPriceResponse).result.Some?)
  }

  /** The `ethusd` string of a price reply that succeeded. */
  function EthUsd(reply: Reply, codecs: Codecs): string
    requires PriceSafe(reply, codecs) && JsonFetcher.Status(reply, codecs.decodeObject) == None
  {
    JsonFetcher.Decoded(reply, codecs.unmarshalPrice, EmptyPriceResponse).result.value.ethusd
  }

  /** The `(exchangeRate, err)` FetchExchangeRate writes; `reply` answers PriceUrl. */
  function ExchangeRate(targetCurrency: string, reply: Reply, codecs: Codecs): (r: Reading)
    requires targetCurrency == SupportedTarget ==> PriceSafe(reply, codecs)
    ensures targetCurrency != SupportedTarget ==> r == Reading(0.0, Some(UnsupportedTarget(targetCurrency)))
    // a rate exactly when the target is usd, the fetch succeeded and ethusd parses; then it is that number
    ensures r.err == None <==>
              && targetCurrency == SupportedTarget
              && JsonFetcher.Status(reply, codecs.decodeObject) == None
              && codecs.parseFloat(EthUsd(reply, codecs)).Some?
    ensures r.err == None ==> r.value == codecs.parseFloat(EthUsd(reply, codecs)).value
    // on the usd path the error is the fetch's own, or else the parse error for ethusd
    ensures targetCurrency == SupportedTarget && JsonFetcher.Status(reply, codecs.decodeObject) != None ==>
              r.err == JsonFetcher.Status(reply, codecs.decodeObject)
    ensures targetCurrency == SupportedTarget && JsonFetcher.Status(reply, codecs.decodeObject) == None &&
            codecs.parseFloat(EthUsd(reply, codecs)).None? ==>
              r.err == Some(NumError(EthUsd(reply, codecs)))
    // on every error path the rate stays 0
    ensures r.err != None ==> r.value == 0.0
  {
    if targetCurrency != SupportedTarget then Reading(0.0, Some(UnsupportedTarget(targetCurrency)))
    else
      var status := JsonFetcher.Status(reply, codecs.decodeObject);
      if status != None then Reading(0.0, status)
      else
        var ethusd := EthUsd(reply, codecs);
        match codecs.parseFloat(ethusd)
        case None => Reading(0.0, Some(NumError(ethusd)))
        case Some(v) => Reading(v, None)
  }

  method FetchBalance(client: Client, codecs: Codecs, addresses: seq<string>, apiKey: string,
                      balance: Slot, done: WaitGroup)
    requires done.pending > 0
    requires BalanceSafe(client.serve(BalanceUrl(addresses)), codecs)
    modifies client, balance, done
    ensures client.requested == old(client.requested) + [BalanceUrl(addresses)]
    ensures balance.Reading() == Balance(client.serve(BalanceUrl(addresses)), codecs)
    ensures done.pending == old(done.pending) - 1
  {
    balance.value := 0.0;
    var url := BalanceUrl(addresses);
    var response := new Payload(EmptyBalanceResponse);
    balance.err := JsonFetcher.Fetch(client, url, response, codecs.unmarshalBalances, codecs.decodeObject);
    if balance.err == None {
      balance.value, balance.err := SumEntries(response.value.result, codecs.parseFloat);
    }
    done.Done();
  }

  /** The loop over the decoded entries: add each balance in ether, stop at the first parse error. */
  method SumEntries(entries: seq<BalanceEntry>, parse: string -> Option<real>) returns (balance: real, err: Option<Error>)
    ensures Reading(balance, err) == SumUntilBad(entries, parse)
  {
    balance, err := 0.0, None;
    var i := 0;
    while i < |entries|
      invariant 0 <= i <= |entries|
      invariant forall j :: 0 <= j < i ==> parse(entries[j].balance).Some?
      invariant balance == SumBy(entries[..i], InEther(parse))
      invariant err == None
    {
      var partial := parse(entries[i].balance);
      if partial.Some? {
        assert entries[..i + 1][..i] == entries[..i];
        balance := balance + partial.value / Wei;
      } else {
        err := Some(NumError(entries[i].balance));
        break;
      }
      i := i + 1;
    }
    assert entries[..|entries|] == entries;
  }

  method FetchExchangeRate(client: Client, codecs: Codecs, apiKey: string, targetCurrency: string,
                           exchangeRate: Slot, done: WaitGroup)
    requires done.pending > 0
    requires targetCurrency == SupportedTarget ==> PriceSafe(client.serve(PriceUrl(apiKey)), codecs)
    modifies client, exchangeRate, done
    // no request at all for an unsupported target
    ensures client.requested == old(client.requested) + (if targetCurrency == SupportedTarget then [PriceUrl(apiKey)] else [])
    ensures exchangeRate.Reading() == ExchangeRate(targetCurrency, client.serve(PriceUrl(apiKey)), codecs)
    ensures done.pending == old(done.pending) - 1
  {
    exchangeRate.value := 0.0;
    if targetCurrency != SupportedTarget {
      exchangeRate.err := Some(UnsupportedTarget(targetCurrency));
      done.Done();
      return;
    }
    var url := PriceUrl(apiKey);
    var response := new Payload(EmptyPriceResponse);
    exchangeRate.err := JsonFetcher.Fetch(client, url, response, codecs.unmarshalPrice, codecs.decodeObject);
    if exchangeRate.err == None {
      var parsed := codecs.parseFloat(response.value.result.value.ethusd);
      if parsed.None? {
        exchangeRate.err := Some(NumError(response.value.result.value.ethusd));
      } else {
        exchangeRate.value := parsed.value;
      }
    }
    done.Done();
  }

  /** When every entry parses, the balance is the whole wei sum divided by 10^18, with no error. */
  lemma AllEntriesParse(entries: seq<BalanceEntry>, parse: string -> Option<real>)
    requires forall i :: 0 <= i < |entries| ==> parse(entries[i].balance).Some?
    ensures SumUntilBad(entries, parse).err == None
    ensures SumUntilBad(entries, parse).value * Wei == SumBy(entries, InWei(parse))
  {
    assert entries[..|entries|] == entries;
  }

  /** At the first unparsable entry the loop stops: later entries add nothing, whatever they hold. */
  lemma {:induction false} StopsAtFirstBad(entries: seq<BalanceEntry>, k: nat, rest: seq<BalanceEntry>,
                                           parse: string -> Option<real>)
    requires k < |entries|
    requires forall i :: 0 <= i < k ==> parse(entries[i].balance).Some?
    requires parse(entries[k].balance).None?
    ensures SumUntilBad(entries, parse) == SumUntilBad(entries[..k + 1] + rest, parse)
    ensures SumUntilBad(entries, parse) == Reading(SumBy(entries[..k], InEther(parse)), Some(NumError(entries[k].balance)))
  {
    var other := entries[..k + 1] + rest;
    assert FirstBad(entries, parse) == k;
    assert other[..k] == entries[..k];
    assert other[k] == entries[k];
    assert FirstBad(other, parse) == k;
  }
}
