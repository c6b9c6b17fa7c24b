/**
 * The aggregation core of the monitor's StatsUtilities: cluster-wide sums and
 * transaction-weighted averages over the statistics that each instance of a
 * monitored application reports. An instance whose statistics are missing or
 * whose value does not parse is skipped; no operation fails.
 */
module StatsUtilities {
  import opened Wrappers
  import opened JavaInt
  import opened Reductions

  /** Keys of an instance's statistics dictionary. */
  const TransactionCountKey: string := "transactions"
  const ActiveSessionCountKey: string := "activeSessions"
  const AverageTransactionTimeKey: string := "avgTransactionTime"
  const AverageIdleTimeKey: string := "averageIdlePeriod"

  /**
   * One instance of a monitored application: whether it is running, and its
   * statistics dictionary, `None` while the instance has reported none.
   */
  datatype Instance = Instance(running: bool, stats: Option<map<string, string>>)

  /** `valueForKey` on a statistics dictionary: null when the key is absent. */
  function Lookup(stats: map<string, string>, key: string): Option<string> {
    if key in stats then Some(stats[key]) else None
  }

  predicate IsRunning(inst: Instance) {
    inst.running
  }

  predicate IsStopped(inst: Instance) {
    !inst.running
  }

  predicate HasStatistics(inst: Instance) {
    inst.stats.Some?
  }

  /** The instances for which `isRunning_M()` holds, in order. */
  function Running(instances: seq<Instance>): seq<Instance> {
    Filter(instances, IsRunning)
  }

  function Stopped(instances: seq<Instance>): seq<Instance> {
    Filter(instances, IsStopped)
  }

  function Reported(instances: seq<Instance>): seq<Instance> {
    Filter(instances, HasStatistics)
  }

  // ---------------------------------------------------------------------------
  // Integer sums
  // ---------------------------------------------------------------------------

  /**
   * The value an instance reports under `key`, or `None` when its statistics are
   * null or `Integer.parseInt` throws on the value (absent, malformed, out of range).
   */
  function ReportedCount(inst: Instance, key: string): (r: Option<int>)
    ensures inst.stats.None? ==> r.None?
    ensures r.Some? ==> IsInt32(r.value)
  {
    match inst.stats
    case None => None
    case Some(stats) => ParseInt(Lookup(stats, key))
  }

  /** What one instance adds to the sum of `key`: its parsed value, or 0 when it is skipped. */
  function Stat(inst: Instance, key: string): int {
    match ReportedCount(inst, key) case Some(v) => v case None => 0
  }

  function StatOf(key: string): Instance -> int {
    inst => Stat(inst, key)
  }

  /** The exact (unbounded) sum of `key` over `instances`. */
  function Total(instances: seq<Instance>, key: string): int {
    SumBy(instances, StatOf(key))
  }

  /** One step of the summing loops: the exact sum after instance `i` is visited. */
  lemma TotalStep(instances: seq<Instance>, i: nat, key: string)
    requires i < |instances|
    ensures Total(instances[..i + 1], key) == Total(instances[..i], key) + Stat(instances[i], key)
  {
    assert instances[..i + 1][..i] == instances[..i];
  }

  /** The running instances among the first `i + 1`. */
  lemma RunningStep(instances: seq<Instance>, i: nat)
    requires i < |instances|
    ensures instances[i].running ==> Running(instances[..i + 1]) == Running(instances[..i]) + [instances[i]]
    ensures !instances[i].running ==> Running(instances[..i + 1]) == Running(instances[..i])
  {
    assert instances[..i + 1][..i] == instances[..i];
  }

  /**
   * The loop of `totalTransactionsForApplication` and
   * `totalActiveSessionsForApplication`: sums `key` over every instance,
   * running or not, with Java's wrapping `int` addition.
   */
  method SumStatisticOfAllInstances(instances: seq<Instance>, key: string) returns (total: int)
    ensures total == Wrap32(Total(instances, key))
  {
    total := 0;
    for i := 0 to |instances|
      invariant total == Wrap32(Total(instances[..i], key))
    {
      var instance := instances[i];
      TotalStep(instances, i, key);
      if instance.stats.Some? {
        var value := ParseInt(Lookup(instance.stats.value, key));
        if value.Some? {
          WrapAdd(Total(instances[..i], key), value.value);
          total := Wrap32(total + value.value);
        }
      }
    }
    assert instances[..|instances|] == instances;
  }

  method TotalTransactionsForApplication(instances: seq<Instance>) returns (total: int)
    ensures total == Wrap32(Total(instances, TransactionCountKey))
  {
    total := SumStatisticOfAllInstances(instances, TransactionCountKey);
  }

  method TotalActiveSessionsForApplication(instances: seq<Instance>) returns (total: int)
    ensures total == Wrap32(Total(instances, ActiveSessionCountKey))
  {
    total := SumStatisticOfAllInstances(instances, ActiveSessionCountKey);
  }

  /**
   * `sumStatisticOfActiveInstances`: sums `key` over the running instances only,
   * with Java's wrapping `int` addition.
   */
  method SumStatisticOfActiveInstances(instances: seq<Instance>, key: string) returns (sum: int)
    ensures sum == Wrap32(Total(Running(instances), key))
  {
    sum := 0;
    ghost var selected: seq<Instance> := [];
    for i := 0 to |instances|
      invariant selected == Running(instances[..i])
      invariant sum == Wrap32(Total(selected, key))
    {
      var instance := instances[i];
      RunningStep(instances, i);
      if instance.running {
        assert (selected + [instance])[..|selected|] == selected;
        var statistics := instance.stats;
        if statistics.Some? {
          var value := ParseInt(Lookup(statistics.value, key));
          if value.Some? {
            WrapAdd(Total(selected, key), value.value);
            sum := Wrap32(sum + value.value);
          }
        }
        selected := selected + [instance];
      }
    }
    assert instances[..|instances|] == instances;
  }

  method TotalTransactionsForActiveInstancesOfApplication(instances: seq<Instance>) returns (total: int)
    ensures total == Wrap32(Total(Running(instances), TransactionCountKey))
  {
    total := SumStatisticOfActiveInstances(instances, TransactionCountKey);
  }

  method TotalActiveSessionsForActiveInstancesOfApplication(instances: seq<Instance>) returns (total: int)
    ensures total == Wrap32(Total(Running(instances), ActiveSessionCountKey))
  {
    total := SumStatisticOfActiveInstances(instances, ActiveSessionCountKey);
  }

  // ---------------------------------------------------------------------------
  // Transaction-weighted averages
  // ---------------------------------------------------------------------------

  /** A contributing instance's positive transaction count and its time value. */
  datatype Sample = Sample(transactions: int, time: real) {
    /** The sample's share of the weighted total time: its count times its time. */
    function Product(): real {
      transactions as real * time
    }
  }

  /**
   * The sample an instance adds to a weighted average of `key`, or `None` when
   * it adds nothing: its statistics are null, its transaction count does not
   * parse or is not positive, or its time value under `key` does not parse.
   * `parseTime` stands for `Float.valueOf`; `None` is its exception.
   */
  function SampleOf(inst: Instance, key: string, parseTime: string -> Option<real>): (r: Option<Sample>)
    ensures inst.stats.None? ==> r.None?
    ensures r.Some? ==> 0 < r.value.transactions < TwoTo31
  {
    match inst.stats
    case None => None
    case Some(stats) =>
      match ParseInt(Lookup(stats, TransactionCountKey))
      case None => None
      case Some(transactions) =>
        if transactions <= 0 then None
        else
          match Lookup(stats, key)
          case None => None
          case Some(text) =>
            match parseTime(text)
            case None => None
            case Some(time) => Some(Sample(transactions, time))
  }

  /** What one instance adds to the weight: its transaction count if it contributes, else 0. */
  function SampleWeight(inst: Instance, key: string, parseTime: string -> Option<real>): int {
    match SampleOf(inst, key, parseTime) case Some(x) => x.transactions case None => 0
  }

  /** What one instance adds to the weighted total time: count times time if it contributes, else 0. */
  function SampleTime(inst: Instance, key: string, parseTime: string -> Option<real>): real {
    match SampleOf(inst, key, parseTime) case Some(x) => x.Product() case None => 0.0
  }

  function WeightOf(key: string, parseTime: string -> Option<real>): Instance -> int {
    inst => SampleWeight(inst, key, parseTime)
  }

  function WeightedTimeOf(key: string, parseTime: string -> Option<real>): Instance -> real {
    inst => SampleTime(inst, key, parseTime)
  }

  /** The exact total weight: the sum of the transaction counts of the contributing instances. */
  function Weight(instances: seq<Instance>, key: string, parseTime: string -> Option<real>): int {
    SumBy(instances, WeightOf(key, parseTime))
  }

  /** The total weighted time, idealised over the reals. */
  function WeightedTime(instances: seq<Instance>, key: string, parseTime: string -> Option<real>): real {
    RealSumBy(instances, WeightedTimeOf(key, parseTime))
  }

  /** The final division of the averaging loops: 0 unless the `int` weight is positive. */
  function Mean(totalTime: real, weight: int): real {
    if weight > 0 then totalTime / (weight as real) else 0.0
  }

  /**
   * The reported average: the weighted total time divided by the weight as the
   * `int` accumulator holds it, or 0 when that `int` is not positive.
   */
  function WeightedAverage(instances: seq<Instance>, key: string, parseTime: string -> Option<real>): real {
    Mean(WeightedTime(instances, key, parseTime), Wrap32(Weight(instances, key, parseTime)))
  }

  /** One step of the all-instances averaging loop: the accumulators after instance `i` is visited. */
  lemma AveragePrefixStep(instances: seq<Instance>, i: nat, key: string, parseTime: string -> Option<real>)
    requires i < |instances|
    ensures Weight(instances[..i + 1], key, parseTime)
         == Weight(instances[..i], key, parseTime) + SampleWeight(instances[i], key, parseTime)
    ensures WeightedTime(instances[..i + 1], key, parseTime)
         == WeightedTime(instances[..i], key, parseTime) + SampleTime(instances[i], key, parseTime)
  {
    assert instances[..i + 1][..i] == instances[..i];
  }

  /** One step of the running-instances averaging loop: the accumulators after instance `i` is visited. */
  lemma ActiveAverageStep(instances: seq<Instance>, i: nat, key: string, parseTime: string -> Option<real>)
    requires i < |instances|
    ensures Weight(Running(instances[..i + 1]), key, parseTime)
         == Weight(Running(instances[..i]), key, parseTime)
            + (if instances[i].running then SampleWeight(instances[i], key, parseTime) else 0)
    ensures WeightedTime(Running(instances[..i + 1]), key, parseTime)
         == WeightedTime(Running(instances[..i]), key, parseTime)
            + (if instances[i].running then SampleTime(instances[i], key, parseTime) else 0.0)
  {
    RunningStep(instances, i);
    var visited := Running(instances[..i]);
    assert (visited + [instances[i]])[..|visited|] == visited;
  }

  /**
   * `averageTimeStatisticOfActiveInstances`: the transaction-weighted average of
   * the time under `key` over the running instances.
   */
  method AverageTimeStatisticOfActiveInstances(instances: seq<Instance>, key: string, parseTime: string -> Option<real>)
    returns (average: real)
    ensures average == WeightedAverage(Running(instances), key, parseTime)
  {
    var totalTime := 0.0;
    var totalNumberOfTransactions := 0;
    ghost var weight := 0;
    for i := 0 to |instances|
      invariant weight == Weight(Running(instances[..i]), key, parseTime)
      invariant totalNumberOfTransactions == Wrap32(weight)
      invariant totalTime == WeightedTime(Running(instances[..i]), key, parseTime)
    {
      var instance := instances[i];
      ActiveAverageStep(instances, i, key, parseTime);
      if instance.running {
        var statistics := instance.stats;
        if statistics.Some? {
          var numberOfTransactions := ParseInt(Lookup(statistics.value, TransactionCountKey));
          if numberOfTransactions.Some? && numberOfTransactions.value > 0 {
            var timeString := Lookup(statistics.value, key);
            if timeString.Some? {
              var time := parseTime(timeString.value);
              if time.Some? {
                var sample := Sample(numberOfTransactions.value, time.value);
                assert SampleOf(instance, key, parseTime) == Some(sample);
                WrapAdd(weight, sample.transactions);
                totalTime := totalTime + sample.Product();
                totalNumberOfTransactions := Wrap32(totalNumberOfTransactions + sample.transactions);
                weight := weight + sample.transactions;
              }
            }
          }
        }
      }
    }
    assert instances[..|instances|] == instances;
    average := Mean(totalTime, totalNumberOfTransactions);
  }

  method AverageTransactionTimeOfActiveInstances(instances: seq<Instance>, parseTime: string -> Option<real>)
    returns (average: real)
    ensures average == WeightedAverage(Running(instances), AverageTransactionTimeKey, parseTime)
  {
    average := AverageTimeStatisticOfActiveInstances(instances, AverageTransactionTimeKey, parseTime);
  }

  method AverageIdleTimeOfActiveInstances(instances: seq<Instance>, parseTime: string -> Option<real>)
    returns (average: real)
    ensures average == WeightedAverage(Running(instances), AverageIdleTimeKey, parseTime)
  {
    average := AverageTimeStatisticOfActiveInstances(instances, AverageIdleTimeKey, parseTime);
  }

  /**
   * The loop of `totalAverageTransactionTimeForApplication` and
   * `totalAverageIdleTimeForApplication`: the same weighted average over every
   * instance, running or not.
   */
  method AverageTimeStatisticOfAllInstances(instances: seq<Instance>, key: string, parseTime: string -> Option<real>)
    returns (average: real)
    ensures average == WeightedAverage(instances, key, parseTime)
  {
    var totalTime := 0.0;
    var totalTransactions := 0;
    ghost var weight := 0;
    for i := 0 to |instances|
      invariant weight == Weight(instances[..i], key, parseTime)
      invariant totalTransactions == Wrap32(weight)
      invariant totalTime == WeightedTime(instances[..i], key, parseTime)
    {
      var instance := instances[i];
      AveragePrefixStep(instances, i, key, parseTime);
      var statistics := instance.stats;
      if statistics.Some? {
        var transactions := ParseInt(Lookup(statistics.value, TransactionCountKey));
        if transactions.Some? && transactions.value > 0 {
          var timeString := Lookup(statistics.value, key);
          if timeString.Some? {
            var time := parseTime(timeString.value);
            if time.Some? {
              var sample := Sample(transactions.value, time.value);
              assert SampleOf(instance, key, parseTime) == Some(sample);
              WrapAdd(weight, sample.transactions);
              totalTime := totalTime + sample.Product();
              totalTransactions := Wrap32(totalTransactions + sample.transactions);
              weight := weight + sample.transactions;
            }
          }
        }
      }
    }
    assert instances[..|instances|] == instances;
    average := Mean(totalTime, totalTransactions);
  }

  method TotalAverageTransactionTimeForApplication(instances: seq<Instance>, parseTime: string -> Option<real>)
    returns (average: real)
    ensures average == WeightedAverage(instances, AverageTransactionTimeKey, parseTime)
  {
    average := AverageTimeStatisticOfAllInstances(instances, AverageTransactionTimeKey, parseTime);
  }

  method TotalAverageIdleTimeForApplication(instances: seq<Instance>, parseTime: string -> Option<real>)
    returns (average: real)
    ensures average == WeightedAverage(instances, AverageIdleTimeKey, parseTime)
  {
    average := AverageTimeStatisticOfAllInstances(instances, AverageIdleTimeKey, parseTime);
  }
}
