/**
 * main.go: run every configured checker through a small worker pool, then
 * rank the checkers by US-dollar value, largest first, and total the dollar
 * value of those that report no error.
 */
module Program {
  import opened Base
  import opened Runtime
  import opened Wire
  import opened Sums
  import opened BalanceReport
  import opened Legacy

  /** The number of workers main starts. */
  const WorkerCount: int := 3

  /** How one checker's run unfolds: the order its address balances arrive and which handler runs first. */
  datatype Schedule = Schedule(arrivals: seq<Outcome<real>>, rateFirst: bool)

  /** A checker's final fields, as a value. */
  function ReportOf(c: CryptoBalanceChecker): Report
    reads c
  {
    Report(c.symbol, c.usdExchangeRate, c.balance, c.error)
  }

  function Snapshots(checkers: seq<CryptoBalanceChecker>): (r: seq<Report>)
    reads checkers
    ensures |r| == |checkers|
    ensures forall i :: 0 <= i < |checkers| ==> r[i] == ReportOf(checkers[i])
  {
    seq(|checkers|, i requires 0 <= i < |checkers| reads checkers => ReportOf(checkers[i]))
  }

  function UsdValue(r: Report): real
  {
    r.balance * r.usdExchangeRate
  }

  /** What one line adds to the total: its dollar value, or nothing when it reports an error. */
  function UsdContribution(r: Report): real
  {
    if r.error == None then UsdValue(r) else 0.0
  }

  predicate DescendingBy(s: seq<Report>, key: Report -> real)
  {
    forall i, j :: 0 <= i < j < |s| ==> key(s[i]) >= key(s[j])
  }

  /** The reports without an error, in their order. */
  function ErrorFree(s: seq<Report>): (r: seq<Report>)
    ensures forall x :: x in r <==> x in s && x.error == None
  {
    if |s| == 0 then []
    else if s[|s| - 1].error == None then ErrorFree(s[..|s| - 1]) + [s[|s| - 1]]
    else ErrorFree(s[..|s| - 1])
  }

  /** A checker's fields after its run, from the fields `before` it. */
  function Expected(c: CryptoBalanceChecker, before: CheckerState, serve: string -> Reply, codecs: Codecs,
                    schedule: Schedule): CheckerState
    requires Safe(c.symbol, c.addresses, c.apiKey, serve, codecs, schedule.arrivals)
  {
    Checked(c.symbol, c.addresses, c.apiKey, before, serve, codecs, schedule.arrivals, schedule.rateFirst)
  }

  /** The requests of every checker, run one after the other. */
  function AllRequests(checkers: seq<CryptoBalanceChecker>, schedules: seq<Schedule>): seq<string>
    requires |schedules| == |checkers|
  {
    if |checkers| == 0 then []
    else
      var c := checkers[|checkers| - 1];
      AllRequests(checkers[..|checkers| - 1], schedules[..|checkers| - 1]) +
      Requests(c.symbol, c.addresses, c.apiKey, schedules[|checkers| - 1].rateFirst)
  }

  /** The width of the symbol column: the longest symbol in UTF-8 bytes, 0 when there is none. */
  method MaxSymbolLength(checkers: seq<CryptoBalanceChecker>) returns (maxSymbolLength: int)
    ensures forall i :: 0 <= i < |checkers| ==> ByteLength(checkers[i].symbol) <= maxSymbolLength
    ensures |checkers| == 0 ==> maxSymbolLength == 0
    ensures |checkers| > 0 ==> exists i :: 0 <= i < |checkers| && ByteLength(checkers[i].symbol) == maxSymbolLength
  {
    maxSymbolLength := 0;
    for k := 0 to |checkers|
      invariant forall i :: 0 <= i < k ==> ByteLength(checkers[i].symbol) <= maxSymbolLength
      invariant k == 0 ==> maxSymbolLength == 0
      invariant k > 0 ==> exists i :: 0 <= i < k && ByteLength(checkers[i].symbol) == maxSymbolLength
    {
      var length := ByteLength(checkers[k].symbol);
      if length > maxSymbolLength {
        maxSymbolLength := length;
      }
    }
  }

  /**
   * `fetchBalances`: every checker is handed to a worker, which runs
   * GetAddressBalances; then one result per checker is collected.
   */
  method FetchBalances(balanceCheckers: seq<CryptoBalanceChecker>, workerCount: int, client: Client, codecs: Codecs,
                       schedules: seq<Schedule>) returns (received: seq<CryptoBalanceChecker>)
    // with no worker the first job can never be taken
    requires workerCount > 0
    requires |schedules| == |balanceCheckers|
    requires forall i, j :: 0 <= i < j < |balanceCheckers| ==> balanceCheckers[i] != balanceCheckers[j]
    requires forall i :: 0 <= i < |balanceCheckers| ==>
               var c := balanceCheckers[i];
               Safe(c.symbol, c.addresses, c.apiKey, client.serve, codecs, schedules[i].arrivals)
    modifies balanceCheckers, client
    // one result per checker
    ensures multiset(received) == multiset(balanceCheckers)
    // each checker holds what its own run computes
    ensures forall i :: 0 <= i < |balanceCheckers| ==>
              balanceCheckers[i].State() == Expected(balanceCheckers[i], old(balanceCheckers[i].State()), client.serve, codecs, schedules[i])
    ensures client.requested == old(client.requested) + AllRequests(balanceCheckers, schedules)
  {
    var results := new Channel<CryptoBalanceChecker>();
    RunJobs(balanceCheckers, client, codecs, schedules, results);
    assert results.items == balanceCheckers;
    received := CollectResults(results, |balanceCheckers|);
    assert balanceCheckers[..|balanceCheckers|] == balanceCheckers;
  }

  /** The workers' side: each job runs GetAddressBalances, which sends the checker on `results`. */
  method RunJobs(balanceCheckers: seq<CryptoBalanceChecker>, client: Client, codecs: Codecs, schedules: seq<Schedule>,
                 results: Channel<CryptoBalanceChecker>)
    requires |schedules| == |balanceCheckers|
    requires forall i, j :: 0 <= i < j < |balanceCheckers| ==> balanceCheckers[i] != balanceCheckers[j]
    requires forall i :: 0 <= i < |balanceCheckers| ==>
               var c := balanceCheckers[i];
               Safe(c.symbol, c.addresses, c.apiKey, client.serve, codecs, schedules[i].arrivals)
    modifies balanceCheckers, client, results
    ensures results.items == old(results.items) + balanceCheckers
    ensures forall i :: 0 <= i < |balanceCheckers| ==>
              balanceCheckers[i].State() == Expected(balanceCheckers[i], old(balanceCheckers[i].State()), client.serve, codecs, schedules[i])
    ensures client.requested == old(client.requested) + AllRequests(balanceCheckers, schedules)
  {
    var n := |balanceCheckers|;
    ghost var initial := seq(n, k requires 0 <= k < n reads balanceCheckers => balanceCheckers[k].State());
    ghost var expected := seq(n, k requires 0 <= k < n => Expected(balanceCheckers[k], initial[k], client.serve, codecs, schedules[k]));
    for i := 0 to n
      invariant results.items == old(results.items) + balanceCheckers[..i]
      invariant forall k :: 0 <= k < n ==> balanceCheckers[k].State() == if k < i then expected[k] else initial[k]
      invariant client.requested == old(client.requested) + AllRequests(balanceCheckers[..i], schedules[..i])
    {
      var checker := balanceCheckers[i];
      label before:
      checker.GetAddressBalances(client, codecs, schedules[i].arrivals, schedules[i].rateFirst, results);
      forall k | 0 <= k < n && k != i
        ensures balanceCheckers[k].State() == old@before(balanceCheckers[k].State())
      {
        assert balanceCheckers[k] != checker;
      }
      PrefixStep(old(results.items), balanceCheckers, i);
      AllRequestsStep(old(client.requested), balanceCheckers, schedules, i);
    }
    assert balanceCheckers[..n] == balanceCheckers && schedules[..n] == schedules;
  }

  /** One more job sent: the channel's contents grow by that job. */
  lemma PrefixStep<T>(before: seq<T>, s: seq<T>, i: nat)
    requires i < |s|
    ensures before + s[..i + 1] == before + s[..i] + [s[i]]
  {
    assert s[..i + 1] == s[..i] + [s[i]];
  }

  /** One more job run: the request log grows by that job's requests. */
  lemma AllRequestsStep(before: seq<string>, checkers: seq<CryptoBalanceChecker>, schedules: seq<Schedule>, i: nat)
    requires |schedules| == |checkers| && i < |checkers|
    ensures before + AllRequests(checkers[..i + 1], schedules[..i + 1]) ==
            before + AllRequests(checkers[..i], schedules[..i]) +
            Requests(checkers[i].symbol, checkers[i].addresses, checkers[i].apiKey, schedules[i].rateFirst)
  {
    assert checkers[..i + 1][..i] == checkers[..i];
    assert schedules[..i + 1][..i] == schedules[..i];
  }

  /** `for _ = range balanceCheckers { <-results }`: receive `count` results. */
  method CollectResults(results: Channel<CryptoBalanceChecker>, count: nat) returns (received: seq<CryptoBalanceChecker>)
    requires count <= |results.items|
    modifies results
    ensures received == old(results.items)[..count]
    ensures results.items == old(results.items)[count..]
  {
    received := [];
    for j := 0 to count
      invariant received == old(results.items)[..j]
      invariant results.items == old(results.items)[j..]
    {
      var checker := results.Receive();
      received := received + [checker];
      assert old(results.items)[..j + 1] == old(results.items)[..j] + [checker];
    }
  }

  /**
   * `slice.Sort` with the order "`key` of the left greater than `key` of the
   * right"; main sorts by UsdValue.
   */
  method SortByKeyDescending(a: array<Report>, key: Report -> real)
    modifies a
    ensures DescendingBy(a[..], key)
    ensures multiset(a[..]) == multiset(old(a[..]))
  {
    var i := 0;
    while i < a.Length
      invariant 0 <= i <= a.Length
      invariant DescendingBy(a[..i], key)
      invariant multiset(a[..]) == multiset(old(a[..]))
    {
      var j := i;
      while j > 0 && key(a[j - 1]) < key(a[j])
        invariant 0 <= j <= i
        invariant multiset(a[..]) == multiset(old(a[..]))
        invariant forall p, q :: 0 <= p < q <= i && p != j && q != j ==> key(a[p]) >= key(a[q])
        invariant forall q :: j < q <= i ==> key(a[j]) > key(a[q])
      {
        Swap(a, j - 1, j);
        j := j - 1;
      }
      i := i + 1;
    }
  }

  method Swap(a: array<Report>, i: int, j: int)
    requires 0 <= i < a.Length && 0 <= j < a.Length
    modifies a
    ensures a[..] == old(a[..])[i := old(a[j])][j := old(a[i])]
    ensures multiset(a[..]) == multiset(old(a[..]))
  {
    a[i], a[j] := a[j], a[i];
  }

  /** The printing loop's running total: the dollar value of every line without an error. */
  method TotalUsdBalance(a: array<Report>) returns (totalUsdBalance: real)
    ensures totalUsdBalance == SumBy(a[..], UsdContribution)
  {
    totalUsdBalance := 0.0;
    for i := 0 to a.Length
      invariant totalUsdBalance == SumBy(a[..i], UsdContribution)
    {
      assert a[..i + 1][..i] == a[..i];
      if a[i].error == None {
        var usdBalance := a[i].balance * a[i].usdExchangeRate;
        totalUsdBalance := totalUsdBalance + usdBalance;
      }
    }
    assert a[..a.Length] == a[..];
  }

  /** The total is the dollar value of exactly the lines that report no error. */
  lemma {:induction false} TotalCountsErrorFree(s: seq<Report>)
    ensures SumBy(s, UsdContribution) == SumBy(ErrorFree(s), UsdValue)
  {
    if |s| > 0 {
      TotalCountsErrorFree(s[..|s| - 1]);
      if s[|s| - 1].error == None {
        var r := ErrorFree(s[..|s| - 1]) + [s[|s| - 1]];
        assert r[..|r| - 1] == ErrorFree(s[..|s| - 1]);
      }
    }
  }

  /** Ranking does not change the total. */
  lemma TotalIgnoresOrder(s: seq<Report>, t: seq<Report>)
    requires multiset(s) == multiset(t)
    ensures SumBy(s, UsdContribution) == SumBy(t, UsdContribution)
  {
    SumByPermutation(s, t, UsdContribution);
  }

  /**
   * main once the balances are in: rank the checkers by dollar value and
   * total the lines without an error.
   */
  method RankLines(balanceCheckers: seq<CryptoBalanceChecker>) returns (ranked: array<Report>, totalUsdBalance: real)
    // the lines are the checkers' final fields, largest dollar value first
    ensures multiset(ranked[..]) == multiset(Snapshots(balanceCheckers))
    ensures DescendingBy(ranked[..], UsdValue)
    // the total does not depend on the ranking: every error-free checker's dollar value, once
    ensures totalUsdBalance == SumBy(Snapshots(balanceCheckers), UsdContribution)
  {
    ranked := new Report[|balanceCheckers|](i requires 0 <= i < |balanceCheckers| reads balanceCheckers => ReportOf(balanceCheckers[i]));
    ghost var lines := Snapshots(balanceCheckers);
    assert ranked[..] == lines;
    SortByKeyDescending(ranked, UsdValue);
    totalUsdBalance := TotalUsdBalance(ranked);
    TotalIgnoresOrder(ranked[..], lines);
  }

  /** The symbol column width, then the ranked lines and their total. */
  method RankAndTotal(balanceCheckers: seq<CryptoBalanceChecker>)
    returns (maxSymbolLength: int, ranked: array<Report>, totalUsdBalance: real)
    ensures forall i :: 0 <= i < |balanceCheckers| ==> ByteLength(balanceCheckers[i].symbol) <= maxSymbolLength
    ensures |balanceCheckers| == 0 ==> maxSymbolLength == 0
    ensures |balanceCheckers| > 0 ==> exists i :: 0 <= i < |balanceCheckers| && ByteLength(balanceCheckers[i].symbol) == maxSymbolLength
    ensures multiset(ranked[..]) == multiset(Snapshots(balanceCheckers))
    ensures DescendingBy(ranked[..], UsdValue)
    ensures totalUsdBalance == SumBy(Snapshots(balanceCheckers), UsdContribution)
  {
    maxSymbolLength := MaxSymbolLength(balanceCheckers);
    ranked, totalUsdBalance := RankLines(balanceCheckers);
  }

  /** main after loading its configuration: fetch with three workers, then rank and total. */
  method Summarise(balanceCheckers: seq<CryptoBalanceChecker>, client: Client, codecs: Codecs, schedules: seq<Schedule>)
    returns (maxSymbolLength: int, ranked: array<Report>, totalUsdBalance: real)
    requires |schedules| == |balanceCheckers|
    requires forall i, j :: 0 <= i < j < |balanceCheckers| ==> balanceCheckers[i] != balanceCheckers[j]
    requires forall i :: 0 <= i < |balanceCheckers| ==>
               var c := balanceCheckers[i];
               Safe(c.symbol, c.addresses, c.apiKey, client.serve, codecs, schedules[i].arrivals)
    modifies balanceCheckers, client
    ensures forall i :: 0 <= i < |balanceCheckers| ==>
              balanceCheckers[i].State() == Expected(balanceCheckers[i], old(balanceCheckers[i].State()), client.serve, codecs, schedules[i])
    ensures forall i :: 0 <= i < |balanceCheckers| ==> ByteLength(balanceCheckers[i].symbol) <= maxSymbolLength
    ensures |balanceCheckers| == 0 ==> maxSymbolLength == 0
    ensures |balanceCheckers| > 0 ==> exists i :: 0 <= i < |balanceCheckers| && ByteLength(balanceCheckers[i].symbol) == maxSymbolLength
    ensures multiset(ranked[..]) == multiset(Snapshots(balanceCheckers))
    ensures DescendingBy(ranked[..], UsdValue)
    ensures totalUsdBalance == SumBy(Snapshots(balanceCheckers), UsdContribution)
  {
    var received := FetchBalances(balanceCheckers, WorkerCount, client, codecs, schedules);
    maxSymbolLength, ranked, totalUsdBalance := RankAndTotal(balanceCheckers);
  }
}
