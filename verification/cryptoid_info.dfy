/**
 * `CryptoidInfoFetcher` (fetchers/CryptoidInfoFetcher.go): the adapter for
 * the altcoins served by chainz.cryptoid.info. The balance fans out one
 * request per address and folds the outcomes in the order they complete: a
 * value is added to the balance, an error overwrites the error. The rate is
 * the fetched ticker value, not inverted.
 */
module CryptoidInfo {
  import opened Base
  import opened Runtime
  import opened Sums
  import NumberFetcher

  function BalanceUrl(currency: string, apiKey: string, address: string): string
  {
    "https://chainz.cryptoid.info/" + currency + "/api.dws?q=getbalance&key=" + apiKey + "&a=" + address
  }

  /** One balance URL per address, in address order. */
  function BalanceUrls(currency: string, apiKey: string, addresses: seq<string>): (urls: seq<string>)
    ensures |urls| == |addresses|
    ensures forall i :: 0 <= i < |addresses| ==> urls[i] == BalanceUrl(currency, apiKey, addresses[i])
  {
    seq(|addresses|, i requires 0 <= i < |addresses| => BalanceUrl(currency, apiKey, addresses[i]))
  }

  function RateUrl(currency: string, targetCurrency: string, apiKey: string): string
  {
    "https://chainz.cryptoid.info/" + currency + "/api.dws?q=ticker." + targetCurrency + "&key=" + apiKey
  }

  /** What each address's request produces, in address order. */
  function Outcomes(serve: string -> Reply, parse: string -> Option<real>, urls: seq<string>): (outcomes: seq<Outcome<real>>)
    ensures |outcomes| == |urls|
    ensures forall i :: 0 <= i < |urls| ==> outcomes[i] == NumberFetcher.Fetch(serve(urls[i]), parse)
  {
    seq(|urls|, i requires 0 <= i < |urls| => NumberFetcher.Fetch(serve(urls[i]), parse))
  }

  /** What one received outcome adds to the balance. */
  function Contribution(o: Outcome<real>): real
  {
    if o.Value? then o.value else 0.0
  }

  /** The error left by overwriting on every received error: the last one, or none. */
  function LastError(arrivals: seq<Outcome<real>>): (r: Option<Error>)
    ensures r == None <==> forall k :: 0 <= k < |arrivals| ==> arrivals[k].Value?
    ensures r != None ==> exists k :: 0 <= k < |arrivals| && arrivals[k] == Failed(r.value) &&
                                      forall j :: k < j < |arrivals| ==> arrivals[j].Value?
  {
    if |arrivals| == 0 then None
    else if arrivals[|arrivals| - 1].Failed? then Some(arrivals[|arrivals| - 1].error)
    else
      var r := LastError(arrivals[..|arrivals| - 1]);
      assert r != None ==> exists k :: 0 <= k < |arrivals| - 1 && arrivals[k] == Failed(r.value) &&
                                       forall j :: k < j < |arrivals| ==> arrivals[j].Value?;
      r
  }

  /** The `(balance, err)` the receive loop leaves, for outcomes received in this order. */
  function Balance(arrivals: seq<Outcome<real>>): Reading
  {
    Reading(SumBy(arrivals, Contribution), LastError(arrivals))
  }

  /** The `(exchangeRate, err)` FetchExchangeRate writes: the fetched number as it is. */
  function ExchangeRate(reply: Reply, parse: string -> Option<real>): (r: Reading)
    ensures r.err == None <==> NumberFetcher.Fetch(reply, parse).Value?
    ensures r.err == None ==> r.value == NumberFetcher.Fetch(reply, parse).value
    ensures r.err != None ==> r == Reading(0.0, Some(NumberFetcher.Fetch(reply, parse).error))
  {
    ToReading(NumberFetcher.Fetch(reply, parse))
  }

  method FetchBalance(client: Client, parse: string -> Option<real>, currency: string, addresses: seq<string>,
                      apiKey: string, arrivals: seq<Outcome<real>>, balance: Slot, done: WaitGroup)
    requires done.pending > 0
    // the outcomes complete in some order: a rearrangement of the per-address outcomes
    requires multiset(arrivals) == multiset(Outcomes(client.serve, parse, BalanceUrls(currency, apiKey, addresses)))
    modifies client, balance, done
    ensures client.requested == old(client.requested) + BalanceUrls(currency, apiKey, addresses)
    ensures balance.Reading() == Balance(arrivals)
    ensures done.pending == old(done.pending) - 1
  {
    balance.err := None;
    balance.value := 0.0;
    ghost var urls := BalanceUrls(currency, apiKey, addresses);
    ghost var outcomes := [];
    for i := 0 to |addresses|
      invariant client.requested == old(client.requested) + urls[..i]
      invariant outcomes == Outcomes(client.serve, parse, urls[..i])
      invariant balance.value == 0.0 && balance.err == None
      invariant done.pending == old(done.pending)
    {
      var url := BalanceUrl(currency, apiKey, addresses[i]);
      var reply := client.Get(url);
      outcomes := outcomes + [NumberFetcher.Fetch(reply, parse)];
      assert urls[..i + 1] == urls[..i] + [url];
    }
    assert urls[..|addresses|] == urls;
    assert |arrivals| == |multiset(arrivals)| == |outcomes| == |addresses|;
    for k := 0 to |addresses|
      invariant balance.Reading() == Balance(arrivals[..k])
      invariant client.requested == old(client.requested) + urls
      invariant done.pending == old(done.pending)
    {
      assert arrivals[..k + 1][..k] == arrivals[..k];
      match arrivals[k]
      case Failed(e) =>
        balance.err := Some(e);
      case Value(partial) =>
        balance.value := balance.value + partial;
    }
    assert arrivals[..|addresses|] == arrivals;
    done.Done();
  }

  method FetchExchangeRate(client: Client, parse: string -> Option<real>, currency: string, apiKey: string,
                           targetCurrency: string, exchangeRate: Slot, done: WaitGroup)
    requires done.pending > 0
    modifies client, exchangeRate, done
    ensures client.requested == old(client.requested) + [RateUrl(currency, targetCurrency, apiKey)]
    ensures exchangeRate.Reading() == ExchangeRate(client.serve(RateUrl(currency, targetCurrency, apiKey)), parse)
    ensures done.pending == old(done.pending) - 1
  {
    var reply := client.Get(RateUrl(currency, targetCurrency, apiKey));
    var fetched := ToReading(NumberFetcher.Fetch(reply, parse));
    exchangeRate.value, exchangeRate.err := fetched.value, fetched.err;
    done.Done();
  }

  /** The balance is the sum of the successful outcomes, whatever order they complete in. */
  lemma BalanceIgnoresOrder(outcomes: seq<Outcome<real>>, arrivals: seq<Outcome<real>>)
    requires multiset(arrivals) == multiset(outcomes)
    ensures Balance(arrivals).value == SumBy(outcomes, Contribution)
  {
    SumByPermutation(arrivals, outcomes, Contribution);
  }

  /** No error exactly when every address succeeded; otherwise the error is one of the addresses' errors. */
  lemma ErrorComesFromSomeAddress(outcomes: seq<Outcome<real>>, arrivals: seq<Outcome<real>>)
    requires multiset(arrivals) == multiset(outcomes)
    ensures Balance(arrivals).err == None <==> forall i :: 0 <= i < |outcomes| ==> outcomes[i].Value?
    ensures Balance(arrivals).err != None ==>
              exists i :: 0 <= i < |outcomes| && outcomes[i] == Failed(Balance(arrivals).err.value)
  {
    if Balance(arrivals).err == None {
      forall i | 0 <= i < |outcomes| ensures outcomes[i].Value? {
        assert outcomes[i] in multiset(arrivals);
      }
    } else {
      var k :| 0 <= k < |arrivals| && arrivals[k] == Failed(Balance(arrivals).err.value);
      assert arrivals[k] in multiset(outcomes);
      var i :| 0 <= i < |outcomes| && outcomes[i] == arrivals[k];
    }
  }

  /** No addresses: no requests, balance 0 and no error. */
  lemma NoAddresses(serve: string -> Reply, parse: string -> Option<real>, currency: string, apiKey: string)
    ensures BalanceUrls(currency, apiKey, []) == []
    ensures Outcomes(serve, parse, BalanceUrls(currency, apiKey, [])) == []
    ensures Balance([]) == Reading(0.0, None)
  {
  }

  /** One address answers "10", another an unparsable body: in either arrival order the error is that parse error and 10 is kept. */
  lemma PartialSumKept()
    ensures Balance([Value(10.0), Failed(NumError("ten"))]) == Reading(10.0, Some(NumError("ten")))
    ensures Balance([Failed(NumError("ten")), Value(10.0)]) == Reading(10.0, Some(NumError("ten")))
  {
    var x: Outcome<real> := Value(10.0);
    var y: Outcome<real> := Failed(NumError("ten"));
    assert [x, y][..1] == [x] && [y, x][..1] == [y];
    assert [x][..0] == [] == [y][..0];
    assert SumBy([x], Contribution) == 10.0 && SumBy([y], Contribution) == 0.0;
    assert LastError([x]) == None && LastError([y]) == Some(NumError("ten"));
  }
}
