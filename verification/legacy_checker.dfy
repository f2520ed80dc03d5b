/**
 * `CryptoBalanceChecker` (CryptoBalanceChecker.go): the older, object-based
 * path that main.go drives. One checker per currency holds the inputs and the
 * three result fields; the balance handler and the rate handler for the
 * checker's provider run concurrently and both write the checker's fields,
 * `Error` included.
 *
 * The handlers' two network helpers, `fetchValueFromURL` and
 * `fetchJSONResponse`, are the same procedures as `WebNumberFetcher.Fetch`
 * and `EtherscanJSONFetcher.Fetch`; the handlers here call the models of
 * those. The two handlers are modelled as running one after the other, in
 * the order `rateFirst` gives.
 */
module Legacy {
  import opened Base
  import opened Wire
  import opened Runtime
  import opened Sums
  import opened InfoFetcher
  import NumberFetcher
  import JsonFetcher
  import BlockchainInfo
  import EtherscanInfo
  import CryptoidInfo
  import FetcherCreator

  /** The three fields the handlers write. */
  datatype CheckerState = CheckerState(balance: real, usdExchangeRate: real, error: Option<Error>)

  /** The rate is always requested into US dollars. */
  const TargetCurrency := "usd"

  function UnknownCurrency(symbol: string): Error
  {
    Message("Unknown crypto-currency " + symbol)
  }

  /** The `switch checker.Symbol` of GetAddressBalances: which provider's handlers run. */
  function Route(symbol: string): (r: Outcome<Provider>)
    // the same providers as the newer creator, for the same six symbols
    ensures r.Value? <==> FetcherCreator.Create(symbol).Value?
    ensures r.Value? ==> r == FetcherCreator.Create(symbol)
    // the same refusal, with its own wording
    ensures r.Failed? ==> r.error == UnknownCurrency(symbol)
  {
    FetcherCreator.CurrencyMapIsLowerCase();
    if symbol == "BTC" then Value(Blockchain)
    else if symbol == "ETH" then Value(Etherscan)
    else if symbol in FetcherCreator.CryptoidSymbols then Value(Cryptoid(FetcherCreator.CurrencyMap[symbol]))
    else Failed(UnknownCurrency(symbol))
  }

  /**
   * For a symbol outside the table both revisions refuse, with messages that
   * differ only in the capital letter they start with.
   */
  lemma UnknownSymbolMessagesDifferInCase(symbol: string)
    requires symbol !in FetcherCreator.CurrencyMap
    ensures Route(symbol).Failed? && FetcherCreator.Create(symbol).Failed?
    ensures Route(symbol).error.text[0] == 'U' && FetcherCreator.Create(symbol).error.text[0] == 'u'
    ensures Route(symbol).error.text[1..] == FetcherCreator.Create(symbol).error.text[1..]
    ensures Route(symbol).error.text[1..] == "nknown crypto-currency " + symbol
  {
    var tail := "nknown crypto-currency " + symbol;
    assert Route(symbol).error.text == ['U'] + tail;
    assert FetcherCreator.Create(symbol).error.text == ['u'] + tail;
  }

  /** The index of the last entry whose balance does not parse, or -1. */
  function LastBad(entries: seq<BalanceEntry>, parse: string -> Option<real>): (k: int)
    ensures -1 <= k < |entries|
    ensures k >= 0 ==> parse(entries[k].balance).None?
    ensures forall j :: k < j < |entries| ==> parse(entries[j].balance).Some?
  {
    if |entries| == 0 then -1
    else if parse(entries[|entries| - 1].balance).None? then |entries| - 1
    else LastBad(entries[..|entries| - 1], parse)
  }

  /** The parse error the entry loop leaves: that of the last unparsable entry, or none. */
  function LastBadEntry(entries: seq<BalanceEntry>, parse: string -> Option<real>): (r: Option<Error>)
    ensures r == None <==> forall i :: 0 <= i < |entries| ==> parse(entries[i].balance).Some?
    // otherwise it is the parse error of an unparsable entry after which every entry parses
    ensures r != None ==>
              exists k :: 0 <= k < |entries| && r == Some(NumError(entries[k].balance)) &&
                parse(entries[k].balance).None? &&
                forall j :: k < j < |entries| ==> parse(entries[j].balance).Some?
  {
    var k := LastBad(entries, parse);
    if k < 0 then None else Some(NumError(entries[k].balance))
  }

  /**
   * The fields after `getEtherscanAddressBalances`: balance and error reset,
   * then either the fetch error, or every parsable balance added as it stands
   * (in wei) with the last parse error kept.
   */
  function EtherscanBalanceStep(s: CheckerState, reply: Reply, codecs: Codecs): CheckerState
    requires EtherscanInfo.BalanceSafe(reply, codecs)
  {
    var status := JsonFetcher.Status(reply, codecs.decodeObject);
    if status != None then s.(balance := 0.0, error := status)
    else
      var entries := EtherscanInfo.Entries(reply, codecs);
      s.(balance := SumBy(entries, EtherscanInfo.InWei(codecs.parseFloat)), error := LastBadEntry(entries, codecs.parseFloat))
  }

  /** The fields after the provider's balance handler. */
  function BalanceStep(p: Provider, s: CheckerState, serve: string -> Reply, codecs: Codecs, addresses: seq<string>,
                       apiKey: string, arrivals: seq<Outcome<real>>): CheckerState
    requires BalanceSafe(p, serve, codecs, addresses, apiKey, arrivals)
  {
    match p
    case Blockchain =>
      // no reset: an error leaves the balance alone, a value leaves the error alone
      var r := BlockchainInfo.Balance(serve(BlockchainInfo.BalanceUrl(addresses)), codecs.parseFloat);
      if r.err != None then s.(error := r.err) else s.(balance := r.value)
    case Etherscan =>
      EtherscanBalanceStep(s, serve(EtherscanInfo.BalanceUrl(addresses)), codecs)
    case Cryptoid(_) =>
      // error and balance reset, then the same fold as the newer adapter
      var r := CryptoidInfo.Balance(arrivals);
      s.(balance := r.value, error := r.err)
  }

  /**
   * The fields after the provider's rate handler: the rate the newer adapter
   * computes, with its error written only when there is one.
   */
  function RateStep(p: Provider, s: CheckerState, serve: string -> Reply, codecs: Codecs, apiKey: string,
                    targetCurrency: string): CheckerState
    requires RateSafe(p, serve, codecs, apiKey, targetCurrency)
  {
    var r := RateOf(p, serve, codecs, apiKey, targetCurrency);
    s.(usdExchangeRate := r.value, error := if r.err != None then r.err else s.error)
  }

  /** What GetAddressBalances needs of the world for the checker's provider. */
  predicate Safe(symbol: string, addresses: seq<string>, apiKey: string, serve: string -> Reply, codecs: Codecs,
                 arrivals: seq<Outcome<real>>)
  {
    Route(symbol).Value? ==>
      && BalanceSafe(Route(symbol).value, serve, codecs, addresses, apiKey, arrivals)
      && RateSafe(Route(symbol).value, serve, codecs, apiKey, TargetCurrency)
  }

  /** The fields after GetAddressBalances, for the given handler order. */
  function Checked(symbol: string, addresses: seq<string>, apiKey: string, s: CheckerState, serve: string -> Reply,
                   codecs: Codecs, arrivals: seq<Outcome<real>>, rateFirst: bool): CheckerState
    requires Safe(symbol, addresses, apiKey, serve, codecs, arrivals)
  {
    match Route(symbol)
    case Failed(e) => s.(error := Some(e))
    case Value(p) =>
      if rateFirst then BalanceStep(p, RateStep(p, s, serve, codecs, apiKey, TargetCurrency), serve, codecs, addresses, apiKey, arrivals)
      else RateStep(p, BalanceStep(p, s, serve, codecs, addresses, apiKey, arrivals), serve, codecs, apiKey, TargetCurrency)
  }

  /** The URLs GetAddressBalances requests, for the given handler order. */
  function Requests(symbol: string, addresses: seq<string>, apiKey: string, rateFirst: bool): seq<string>
  {
    match Route(symbol)
    case Failed(_) => []
    case Value(p) =>
      if rateFirst then RateRequests(p, apiKey, TargetCurrency) + BalanceRequests(p, addresses, apiKey)
      else BalanceRequests(p, addresses, apiKey) + RateRequests(p, apiKey, TargetCurrency)
  }

  class CryptoBalanceChecker {
    const symbol: string
    const addresses: seq<string>
    const apiKey: string
    var usdExchangeRate: real
    var balance: real
    var error: Option<Error>

    /** `NewCryptoBalanceChecker`: rate and balance 0, no error. */
    constructor (symbol: string, apiKey: string, addresses: seq<string>)
      ensures this.symbol == symbol && this.apiKey == apiKey && this.addresses == addresses
      ensures State() == CheckerState(0.0, 0.0, None)
    {
      this.symbol := symbol;
      this.addresses := addresses;
      this.apiKey := apiKey;
      usdExchangeRate := 0.0;
      balance := 0.0;
      error := None;
    }

    function State(): CheckerState
      reads this
    {
      CheckerState(balance, usdExchangeRate, error)
    }

    /** Run both handlers of the checker's provider, then send the checker on `done`. */
    method GetAddressBalances(client: Client, codecs: Codecs, arrivals: seq<Outcome<real>>, rateFirst: bool,
                              done: Channel<CryptoBalanceChecker>)
      requires Safe(symbol, addresses, apiKey, client.serve, codecs, arrivals)
      modifies this, client, done
      ensures done.items == old(done.items) + [this]
      ensures State() == Checked(symbol, addresses, apiKey, old(State()), client.serve, codecs, arrivals, rateFirst)
      ensures client.requested == old(client.requested) + Requests(symbol, addresses, apiKey, rateFirst)
    {
      match Route(symbol)
      case Failed(e) =>
        error := Some(e);
        done.Send(this);
      case Value(p) =>
        if rateFirst {
          RunRateHandler(p, client, codecs);
          RunBalanceHandler(p, client, codecs, arrivals);
        } else {
          RunBalanceHandler(p, client, codecs, arrivals);
          RunRateHandler(p, client, codecs);
        }
        done.Send(this);
    }

    /** The balance arm of the switch. */
    method RunBalanceHandler(p: Provider, client: Client, codecs: Codecs, arrivals: seq<Outcome<real>>)
      requires BalanceSafe(p, client.serve, codecs, addresses, apiKey, arrivals)
      modifies this, client
      ensures State() == BalanceStep(p, old(State()), client.serve, codecs, addresses, apiKey, arrivals)
      ensures client.requested == old(client.requested) + BalanceRequests(p, addresses, apiKey)
    {
      match p
      case Blockchain => GetBlockchainAddressBalances(client, codecs);
      case Etherscan => GetEtherscanAddressBalances(client, codecs);
      case Cryptoid(currency) => GetCryptoidAddressBalances(client, codecs, currency, arrivals);
    }

    /** The rate arm of the switch. */
    method RunRateHandler(p: Provider, client: Client, codecs: Codecs)
      requires RateSafe(p, client.serve, codecs, apiKey, TargetCurrency)
      modifies this, client
      ensures State() == RateStep(p, old(State()), client.serve, codecs, apiKey, TargetCurrency)
      ensures client.requested == old(client.requested) + RateRequests(p, apiKey, TargetCurrency)
    {
      match p
      case Blockchain => GetBlockchainExchangeRate(client, codecs, TargetCurrency);
      case Etherscan => GetEtherscanExchangeRate(client, codecs, TargetCurrency);
      case Cryptoid(currency) => GetCryptoidExchangeRate(client, codecs, currency, TargetCurrency);
    }

    method GetEtherscanAddressBalances(client: Client, codecs: Codecs)
      requires EtherscanInfo.BalanceSafe(client.serve(EtherscanInfo.BalanceUrl(addresses)), codecs)
      modifies this, client
      ensures State() == EtherscanBalanceStep(old(State()), client.serve(EtherscanInfo.BalanceUrl(addresses)), codecs)
      ensures client.requested == old(client.requested) + [EtherscanInfo.BalanceUrl(addresses)]
    {
      balance := 0.0;
      error := None;
      var url := EtherscanInfo.BalanceUrl(addresses);
      var response := new Payload(EmptyBalanceResponse);
      var err := JsonFetcher.Fetch(client, url, response, codecs.unmarshalBalances, codecs.decodeObject);
      if err != None {
        error := err;
      } else {
        balance, error := SumEveryEntry(response.value.result, codecs.parseFloat);
      }
    }

    method GetEtherscanExchangeRate(client: Client, codecs: Codecs, targetCurrency: string)
      requires RateSafe(Etherscan, client.serve, codecs, apiKey, targetCurrency)
      modifies this, client
      ensures State() == RateStep(Etherscan, old(State()), client.serve, codecs, apiKey, targetCurrency)
      ensures client.requested == old(client.requested) + RateRequests(Etherscan, apiKey, targetCurrency)
    {
      usdExchangeRate := 0.0;
      if targetCurrency != "usd" {
        error := Some(EtherscanInfo.UnsupportedTarget(targetCurrency));
        return;
      }
      var url := EtherscanInfo.PriceUrl(apiKey);
      var response := new Payload(EmptyPriceResponse);
      var err := JsonFetcher.Fetch(client, url, response, codecs.unmarshalPrice, codecs.decodeObject);
      if err != None {
        error := err;
      } else {
        var exchangeRate := codecs.parseFloat(response.value.result.value.ethusd);
        if exchangeRate.None? {
          error := Some(NumError(response.value.result.value.ethusd));
        } else {
          usdExchangeRate := exchangeRate.value;
        }
      }
    }

    method GetCryptoidAddressBalances(client: Client, codecs: Codecs, currency: string, arrivals: seq<Outcome<real>>)
      requires BalanceSafe(Cryptoid(currency), client.serve, codecs, addresses, apiKey, arrivals)
      modifies this, client
      ensures State() == BalanceStep(Cryptoid(currency), old(State()), client.serve, codecs, addresses, apiKey, arrivals)
      ensures client.requested == old(client.requested) + CryptoidInfo.BalanceUrls(currency, apiKey, addresses)
    {
      error := None;
      balance := 0.0;
      ghost var urls := CryptoidInfo.BalanceUrls(currency, apiKey, addresses);
      for i := 0 to |addresses|
        invariant client.requested == old(client.requested) + urls[..i]
        invariant State() == old(State()).(balance := 0.0, error := None)
      {
        var url := CryptoidInfo.BalanceUrl(currency, apiKey, addresses[i]);
        var reply := client.Get(url);
        assert urls[..i + 1] == urls[..i] + [url];
      }
      assert urls[..|addresses|] == urls;
      assert |arrivals| == |multiset(arrivals)| == |addresses|;
      for k := 0 to |addresses|
        invariant State() == old(State()).(balance := SumBy(arrivals[..k], CryptoidInfo.Contribution),
                                           error := CryptoidInfo.LastError(arrivals[..k]))
        invariant client.requested == old(client.requested) + urls
      {
        assert arrivals[..k + 1][..k] == arrivals[..k];
        match arrivals[k]
        case Failed(err) =>
          error := Some(err);
        case Value(partial) =>
          balance := balance + partial;
      }
      assert arrivals[..|addresses|] == arrivals;
    }

    method GetCryptoidExchangeRate(client: Client, codecs: Codecs, currency: string, targetCurrency: string)
      modifies this, client
      ensures State() == RateStep(Cryptoid(currency), old(State()), client.serve, codecs, apiKey, targetCurrency)
      ensures client.requested == old(client.requested) + [CryptoidInfo.RateUrl(currency, targetCurrency, apiKey)]
    {
      usdExchangeRate := 0.0;
      var reply := client.Get(CryptoidInfo.RateUrl(currency, targetCurrency, apiKey));
      match NumberFetcher.Fetch(reply, codecs.parseFloat)
      case Failed(err) =>
        error := Some(err);
      case Value(exchangeRate) =>
        usdExchangeRate := exchangeRate;
    }

    method GetBlockchainAddressBalances(client: Client, codecs: Codecs)
      modifies this, client
      ensures State() == BalanceStep(Blockchain, old(State()), client.serve, codecs, addresses, apiKey, [])
      ensures client.requested == old(client.requested) + [BlockchainInfo.BalanceUrl(addresses)]
    {
      var reply := client.Get(BlockchainInfo.BalanceUrl(addresses));
      match NumberFetcher.Fetch(reply, codecs.parseFloat)
      case Failed(err) =>
        error := Some(err);
      case Value(satoshi) =>
        balance := satoshi / 100000000.0;
    }

    method GetBlockchainExchangeRate(client: Client, codecs: Codecs, targetCurrency: string)
      requires BlockchainInfo.NonZeroRate(client.serve(BlockchainInfo.RateUrl(targetCurrency)), codecs.parseFloat)
      modifies this, client
      ensures State() == RateStep(Blockchain, old(State()), client.serve, codecs, apiKey, targetCurrency)
      ensures client.requested == old(client.requested) + [BlockchainInfo.RateUrl(targetCurrency)]
    {
      usdExchangeRate := 0.0;
      var reply := client.Get(BlockchainInfo.RateUrl(targetCurrency));
      match NumberFetcher.Fetch(reply, codecs.parseFloat)
      case Failed(err) =>
        error := Some(err);
      case Value(exchangeRate) =>
        usdExchangeRate := 1.0 / exchangeRate;
    }
  }

  /** The entry loop of `getEtherscanAddressBalances`: add every parsable balance, remember the last parse error. */
  method SumEveryEntry(entries: seq<BalanceEntry>, parse: string -> Option<real>) returns (balance: real, err: Option<Error>)
    ensures balance == SumBy(entries, EtherscanInfo.InWei(parse))
    ensures err == LastBadEntry(entries, parse)
  {
    balance, err := 0.0, None;
    for i := 0 to |entries|
      invariant balance == SumBy(entries[..i], EtherscanInfo.InWei(parse))
      invariant err == LastBadEntry(entries[..i], parse)
    {
      assert entries[..i + 1][..i] == entries[..i];
      var partial := parse(entries[i].balance);
      if partial.None? {
        err := Some(NumError(entries[i].balance));
      } else {
        balance := balance + partial.value;
      }
    }
    assert entries[..|entries|] == entries;
  }

  /**
   * When the fetch succeeded and every entry parses, the older handler's
   * balance is 10^18 times the newer adapter's: it adds wei and never
   * converts them to ether.
   */
  lemma LegacyEtherscanCountsWei(s: CheckerState, reply: Reply, codecs: Codecs)
    requires EtherscanInfo.BalanceSafe(reply, codecs)
    requires JsonFetcher.Status(reply, codecs.decodeObject) == None
    requires forall i :: 0 <= i < |EtherscanInfo.Entries(reply, codecs)| ==>
               codecs.parseFloat(EtherscanInfo.Entries(reply, codecs)[i].balance).Some?
    ensures EtherscanBalanceStep(s, reply, codecs).error == EtherscanInfo.Balance(reply, codecs).err == None
    ensures EtherscanBalanceStep(s, reply, codecs).balance == EtherscanInfo.Balance(reply, codecs).value * EtherscanInfo.Wei
  {
    EtherscanInfo.AllEntriesParse(EtherscanInfo.Entries(reply, codecs), codecs.parseFloat);
  }

  /** One ether held at one address: the newer adapter reports 1, the older handler 10^18. */
  lemma OneEtherExample(reply: Reply, codecs: Codecs, entry: BalanceEntry)
    requires EtherscanInfo.BalanceSafe(reply, codecs)
    requires JsonFetcher.Status(reply, codecs.decodeObject) == None
    requires EtherscanInfo.Entries(reply, codecs) == [entry]
    requires codecs.parseFloat(entry.balance) == Some(EtherscanInfo.Wei)
    ensures EtherscanInfo.Balance(reply, codecs) == Reading(1.0, None)
    ensures EtherscanBalanceStep(CheckerState(0.0, 0.0, None), reply, codecs) == CheckerState(EtherscanInfo.Wei, 0.0, None)
  {
    LegacyEtherscanCountsWei(CheckerState(0.0, 0.0, None), reply, codecs);
    assert [entry][..1] == [entry] && [entry][..0] == [];
    assert EtherscanInfo.InWei(codecs.parseFloat)(entry) == EtherscanInfo.Wei;
    assert SumBy([entry], EtherscanInfo.InWei(codecs.parseFloat)) == EtherscanInfo.Wei;
  }

  /**
   * Where the newer adapter stops at the first unparsable entry, the older
   * handler goes on: an unparsable entry before "5" wei leaves 5 in the
   * older balance and 0 in the newer one, both with that entry's error.
   */
  lemma LegacyEtherscanSkipsBadEntries(parse: string -> Option<real>, bad: BalanceEntry, good: BalanceEntry)
    requires parse(bad.balance) == None && parse(good.balance) == Some(5.0)
    ensures SumBy([bad, good], EtherscanInfo.InWei(parse)) == 5.0
    ensures LastBadEntry([bad, good], parse) == Some(NumError(bad.balance))
    ensures EtherscanInfo.SumUntilBad([bad, good], parse) == Reading(0.0, Some(NumError(bad.balance)))
  {
    assert [bad, good][..1] == [bad];
    assert [bad][..0] == [];
    assert EtherscanInfo.InWei(parse)(bad) == 0.0 && EtherscanInfo.InWei(parse)(good) == 5.0;
    assert SumBy([bad], EtherscanInfo.InWei(parse)) == 0.0;
    assert EtherscanInfo.FirstBad([bad, good], parse) == 0;
  }

  /**
   * The rate error is lost when the rate handler runs first, that is, when it
   * writes its error before the balance handler's first statement resets the
   * field: for a chainz.cryptoid.info currency whose balances all arrive, a
   * failed rate then leaves the checker without error (and so rate 0 counted
   * as a success); with the balance handler run first the rate error stays.
   */
  lemma RateErrorErasedWhenRateRunsFirst(symbol: string, addresses: seq<string>, apiKey: string,
                                        serve: string -> Reply, codecs: Codecs, arrivals: seq<Outcome<real>>)
    requires symbol in FetcherCreator.CryptoidSymbols
    requires Safe(symbol, addresses, apiKey, serve, codecs, arrivals)
    requires forall k :: 0 <= k < |arrivals| ==> arrivals[k].Value?
    requires RateOf(Route(symbol).value, serve, codecs, apiKey, TargetCurrency).err != None
    ensures Checked(symbol, addresses, apiKey, CheckerState(0.0, 0.0, None), serve, codecs, arrivals, true).error == None
    ensures Checked(symbol, addresses, apiKey, CheckerState(0.0, 0.0, None), serve, codecs, arrivals, true).usdExchangeRate == 0.0
    ensures Checked(symbol, addresses, apiKey, CheckerState(0.0, 0.0, None), serve, codecs, arrivals, false).error ==
              RateOf(Route(symbol).value, serve, codecs, apiKey, TargetCurrency).err
  {
    var p := Route(symbol).value;
    assert p.Cryptoid?;
  }

  /**
   * The rate and the balance values do not depend on the handler order; only
   * the error can.
   */
  lemma ValuesIgnoreHandlerOrder(symbol: string, addresses: seq<string>, apiKey: string, s: CheckerState,
                                 serve: string -> Reply, codecs: Codecs, arrivals: seq<Outcome<real>>)
    requires Safe(symbol, addresses, apiKey, serve, codecs, arrivals)
    ensures var first := Checked(symbol, addresses, apiKey, s, serve, codecs, arrivals, true);
            var second := Checked(symbol, addresses, apiKey, s, serve, codecs, arrivals, false);
            first.balance == second.balance && first.usdExchangeRate == second.usdExchangeRate
    ensures Route(symbol).Value? ==>
              Checked(symbol, addresses, apiKey, s, serve, codecs, arrivals, true).usdExchangeRate ==
              RateOf(Route(symbol).value, serve, codecs, apiKey, TargetCurrency).value
  {
  }

  /**
   * Bitcoin does not lose errors: its balance handler never clears the error,
   * so from a fresh checker the error is nil, in either order, exactly when
   * both sub-fetches succeeded.
   */
  lemma BlockchainKeepsEveryFailure(addresses: seq<string>, apiKey: string, serve: string -> Reply, codecs: Codecs,
                                    rateFirst: bool)
    requires Safe("BTC", addresses, apiKey, serve, codecs, [])
    ensures Checked("BTC", addresses, apiKey, CheckerState(0.0, 0.0, None), serve, codecs, [], rateFirst).error == None <==>
              && BalanceOf(Blockchain, serve, codecs, addresses, apiKey, []).err == None
              && RateOf(Blockchain, serve, codecs, apiKey, TargetCurrency).err == None
  {
  }
}
