/**
 * What the aggregation of StatsUtilities guarantees, stated over the
 * specification functions that its loops are proved to compute.
 */
module StatsProperties {
  import opened Wrappers
  import opened JavaInt
  import opened Reductions
  import opened StatsUtilities

  // ---------------------------------------------------------------------------
  // Sums
  // ---------------------------------------------------------------------------

  /**
   * Each instance adds its parsed value, or exactly 0 when its statistics are
   * null or its value does not parse; the others are unaffected wherever it stands.
   */
  lemma OneInstanceContribution(front: seq<Instance>, inst: Instance, back: seq<Instance>, key: string)
    ensures ReportedCount(inst, key).None? ==> Total(front + [inst] + back, key) == Total(front + back, key)
    ensures ReportedCount(inst, key).Some? ==>
              Total(front + [inst] + back, key) == Total(front + back, key) + ReportedCount(inst, key).value
  {
    SumByInsert(front, inst, back, StatOf(key));
  }

  /**
   * A value written by `Integer.toString` is added as it is, negative values
   * included: there is no check that a count is non-negative.
   */
  lemma ReportedValueIsAdded(running: bool, stats: map<string, string>, key: string, n: int)
    requires IsInt32(n) && key in stats && stats[key] == Show(n)
    ensures Stat(Instance(running, Some(stats)), key) == n
  {
    ParseShow(n);
  }

  /** A sum in which no instance has a usable value is 0, and so is the sum over no instances. */
  lemma {:induction false} TotalWithoutUsableValues(instances: seq<Instance>, key: string)
    requires forall inst :: inst in instances ==> ReportedCount(inst, key).None?
    ensures Total(instances, key) == 0
  {
    assert forall i :: 0 <= i < |instances| ==> StatOf(key)(instances[i]) == 0 by {
      forall i | 0 <= i < |instances| ensures StatOf(key)(instances[i]) == 0 {
        assert instances[i] in instances;
      }
    }
    SumByZero(instances, StatOf(key));
  }

  /**
   * `sumStatisticOfActiveInstances` is 0 when no running instance has a usable
   * value, in particular when no instance is running.
   */
  lemma ActiveSumWithoutUsableValues(instances: seq<Instance>, key: string)
    requires forall inst :: inst in instances && inst.running ==> ReportedCount(inst, key).None?
    ensures Total(Running(instances), key) == 0
  {
    forall inst | inst in Running(instances) ensures ReportedCount(inst, key).None? {
      FilterMembership(instances, IsRunning, inst);
    }
    TotalWithoutUsableValues(Running(instances), key);
  }

  /** The sum over all instances is the sum over the running ones plus the sum over the others. */
  lemma RunningStoppedDecomposition(instances: seq<Instance>, key: string)
    ensures Total(instances, key) == Total(Running(instances), key) + Total(Stopped(instances), key)
  {
    SumBySplit(instances, IsRunning, IsStopped, StatOf(key));
  }

  /**
   * The same decomposition for the `int` results: `totalTransactionsForApplication`
   * equals `totalTransactionsForActiveInstancesOfApplication` plus the stopped
   * instances' sum, in Java's wrapping arithmetic.
   */
  lemma WrappedDecomposition(instances: seq<Instance>, key: string)
    ensures Wrap32(Total(instances, key))
         == Wrap32(Wrap32(Total(Running(instances), key)) + Wrap32(Total(Stopped(instances), key)))
  {
    var running, stopped := Total(Running(instances), key), Total(Stopped(instances), key);
    RunningStoppedDecomposition(instances, key);
    WrapAdd(running, Wrap32(stopped));
    WrapAdd(stopped, running);
  }

  /** The sums do not depend on the order in which the instances are listed. */
  lemma TotalOrderIndependent(instances: seq<Instance>, reordered: seq<Instance>, key: string)
    requires multiset(instances) == multiset(reordered)
    ensures Total(instances, key) == Total(reordered, key)
    ensures Total(Running(instances), key) == Total(Running(reordered), key)
  {
    SumByPermutation(instances, reordered, StatOf(key));
    FilterPermutation(instances, reordered, IsRunning);
    SumByPermutation(Running(instances), Running(reordered), StatOf(key));
  }

  // ---------------------------------------------------------------------------
  // Weighted averages
  // ---------------------------------------------------------------------------

  /**
   * The selection rule of the averages: an instance contributes exactly when its
   * statistics are present, its transaction count parses and is positive, and
   * its time value is present and parses.
   */
  lemma SampleSelection(inst: Instance, key: string, parseTime: string -> Option<real>)
    ensures SampleOf(inst, key, parseTime).Some? <==>
              && inst.stats.Some?
              && ReportedCount(inst, TransactionCountKey).Some?
              && ReportedCount(inst, TransactionCountKey).value > 0
              && key in inst.stats.value
              && parseTime(inst.stats.value[key]).Some?
    ensures SampleOf(inst, key, parseTime).Some? ==>
              SampleOf(inst, key, parseTime).value
              == Sample(ReportedCount(inst, TransactionCountKey).value, parseTime(inst.stats.value[key]).value)
  {
  }

  /** An instance reporting a positive count `n` and a parsable time `t` contributes exactly `(n, t)`. */
  lemma ReportedSample(
    running: bool, stats: map<string, string>, key: string, parseTime: string -> Option<real>, n: int, t: real)
    requires 0 < n < TwoTo31 && TransactionCountKey in stats && stats[TransactionCountKey] == Show(n)
    requires key in stats && parseTime(stats[key]) == Some(t)
    ensures SampleOf(Instance(running, Some(stats)), key, parseTime) == Some(Sample(n, t))
  {
    ParseShow(n);
  }

  /**
   * An instance changes the weight and the weighted total time together or not
   * at all; when it does, it adds its positive count to the weight and count
   * times time to the total.
   */
  lemma ContributesToBothOrNeither(
    front: seq<Instance>, inst: Instance, back: seq<Instance>, key: string, parseTime: string -> Option<real>)
    ensures SampleOf(inst, key, parseTime).None? ==>
              && Weight(front + [inst] + back, key, parseTime) == Weight(front + back, key, parseTime)
              && WeightedTime(front + [inst] + back, key, parseTime) == WeightedTime(front + back, key, parseTime)
    ensures SampleOf(inst, key, parseTime).Some? ==>
              var x := SampleOf(inst, key, parseTime).value;
              && x.transactions > 0
              && Weight(front + [inst] + back, key, parseTime) == Weight(front + back, key, parseTime) + x.transactions
              && WeightedTime(front + [inst] + back, key, parseTime)
                 == WeightedTime(front + back, key, parseTime) + x.transactions as real * x.time
  {
    SumByInsert(front, inst, back, WeightOf(key, parseTime));
    RealSumByInsert(front, inst, back, WeightedTimeOf(key, parseTime));
  }

  /**
   * An instance whose count parses but whose time value does not is skipped
   * entirely: the exception comes before either accumulator is updated.
   */
  lemma TimeParseFailureSkips(
    front: seq<Instance>, inst: Instance, back: seq<Instance>, key: string, parseTime: string -> Option<real>)
    requires inst.stats.Some? && ReportedCount(inst, TransactionCountKey).Some?
    requires ReportedCount(inst, TransactionCountKey).value > 0
    requires key !in inst.stats.value || parseTime(inst.stats.value[key]).None?
    ensures Weight(front + [inst] + back, key, parseTime) == Weight(front + back, key, parseTime)
    ensures WeightedTime(front + [inst] + back, key, parseTime) == WeightedTime(front + back, key, parseTime)
  {
    ContributesToBothOrNeither(front, inst, back, key, parseTime);
  }

  /** An instance reporting no positive transaction count is skipped, however valid its time value. */
  lemma NonPositiveCountSkips(
    front: seq<Instance>, inst: Instance, back: seq<Instance>, key: string, parseTime: string -> Option<real>)
    requires ReportedCount(inst, TransactionCountKey).Some?
    requires ReportedCount(inst, TransactionCountKey).value <= 0
    ensures Weight(front + [inst] + back, key, parseTime) == Weight(front + back, key, parseTime)
    ensures WeightedTime(front + [inst] + back, key, parseTime) == WeightedTime(front + back, key, parseTime)
  {
    ContributesToBothOrNeither(front, inst, back, key, parseTime);
  }

  /** The weight is 0 exactly when no instance contributes, for instance when there are none. */
  lemma WeightZeroIffNoContribution(instances: seq<Instance>, key: string, parseTime: string -> Option<real>)
    ensures Weight(instances, key, parseTime) >= 0
    ensures Weight(instances, key, parseTime) == 0 <==>
              forall i :: 0 <= i < |instances| ==> SampleOf(instances[i], key, parseTime).None?
  {
    var f := WeightOf(key, parseTime);
    SumByNonNegative(instances, f);
    if Weight(instances, key, parseTime) == 0 {
      forall i | 0 <= i < |instances| ensures SampleOf(instances[i], key, parseTime).None? {
        assert f(instances[i]) == 0;
      }
    }
    if forall i :: 0 <= i < |instances| ==> SampleOf(instances[i], key, parseTime).None? {
      SumByZero(instances, f);
    }
  }

  /** With no contributing instance (or none at all), every average is 0. */
  lemma AverageWithoutContributionIsZero(instances: seq<Instance>, key: string, parseTime: string -> Option<real>)
    requires forall i :: 0 <= i < |instances| ==> SampleOf(instances[i], key, parseTime).None?
    ensures WeightedAverage(instances, key, parseTime) == 0.0
    ensures WeightedAverage(Running(instances), key, parseTime) == 0.0
  {
    WeightZeroIffNoContribution(instances, key, parseTime);
    var running := Running(instances);
    forall i | 0 <= i < |running| ensures SampleOf(running[i], key, parseTime).None? {
      FilterMembership(instances, IsRunning, running[i]);
      var j :| 0 <= j < |instances| && instances[j] == running[i];
    }
    WeightZeroIffNoContribution(running, key, parseTime);
  }

  /** Null statistics add nothing to any sum, weight or weighted total. */
  lemma NullStatisticsIgnored(instances: seq<Instance>, key: string, parseTime: string -> Option<real>)
    ensures Total(Reported(instances), key) == Total(instances, key)
    ensures Weight(Reported(instances), key, parseTime) == Weight(instances, key, parseTime)
    ensures WeightedTime(Reported(instances), key, parseTime) == WeightedTime(instances, key, parseTime)
  {
    SumByDropZeros(instances, HasStatistics, StatOf(key));
    SumByDropZeros(instances, HasStatistics, WeightOf(key, parseTime));
    RealSumByDropZeros(instances, HasStatistics, WeightedTimeOf(key, parseTime));
  }

  /**
   * A weighted mean lies between the smallest and the largest contributing
   * time, as long as the weight does not overflow the `int` accumulator.
   */
  lemma AverageWithinBounds(instances: seq<Instance>, key: string, parseTime: string -> Option<real>, lo: real, hi: real)
    requires forall i :: 0 <= i < |instances| && SampleOf(instances[i], key, parseTime).Some? ==>
               lo <= SampleOf(instances[i], key, parseTime).value.time <= hi
    requires 0 < Weight(instances, key, parseTime) < TwoTo31
    ensures lo <= WeightedAverage(instances, key, parseTime) <= hi
  {
    WeightedTimeBounds(instances, key, parseTime, lo, hi);
    DivideBounds(lo, hi, Weight(instances, key, parseTime), WeightedTime(instances, key, parseTime));
  }

  /** The weighted total time lies between `lo` and `hi` times the weight. */
  lemma WeightedTimeBounds(instances: seq<Instance>, key: string, parseTime: string -> Option<real>, lo: real, hi: real)
    requires forall i :: 0 <= i < |instances| && SampleOf(instances[i], key, parseTime).Some? ==>
               lo <= SampleOf(instances[i], key, parseTime).value.time <= hi
    ensures Between(lo, hi, Weight(instances, key, parseTime), WeightedTime(instances, key, parseTime))
  {
    var w, g := WeightOf(key, parseTime), WeightedTimeOf(key, parseTime);
    forall i | 0 <= i < |instances| ensures Between(lo, hi, w(instances[i]), g(instances[i])) {
      var sample := SampleOf(instances[i], key, parseTime);
      if sample.Some? {
        SampleBetween(lo, hi, sample.value.transactions, sample.value.time);
      }
    }
    WeightedSumBounds(instances, w, g, lo, hi);
  }

  lemma SampleBetween(lo: real, hi: real, transactions: int, time: real)
    requires transactions > 0 && lo <= time <= hi
    ensures Between(lo, hi, transactions, transactions as real * time)
  {
  }

  lemma DivideBounds(lo: real, hi: real, weight: int, total: real)
    requires weight > 0 && Between(lo, hi, weight, total)
    ensures lo <= total / (weight as real) <= hi
  {
  }

  /** The averages do not depend on the order in which the instances are listed. */
  lemma AverageOrderIndependent(
    instances: seq<Instance>, reordered: seq<Instance>, key: string, parseTime: string -> Option<real>)
    requires multiset(instances) == multiset(reordered)
    ensures WeightedAverage(instances, key, parseTime) == WeightedAverage(reordered, key, parseTime)
    ensures WeightedAverage(Running(instances), key, parseTime) == WeightedAverage(Running(reordered), key, parseTime)
  {
    SumByPermutation(instances, reordered, WeightOf(key, parseTime));
    RealSumByPermutation(instances, reordered, WeightedTimeOf(key, parseTime));
    FilterPermutation(instances, reordered, IsRunning);
    SumByPermutation(Running(instances), Running(reordered), WeightOf(key, parseTime));
    RealSumByPermutation(Running(instances), Running(reordered), WeightedTimeOf(key, parseTime));
  }

  /**
   * The weight accumulator is a Java `int`: two instances reporting the largest
   * `int` count overflow it to a negative value, and the average is then
   * reported as 0 although both instances contribute.
   */
  lemma WeightOverflowReportsZero(stats: map<string, string>, key: string, parseTime: string -> Option<real>)
    requires TransactionCountKey in stats && stats[TransactionCountKey] == Show(TwoTo31 - 1)
    requires key in stats && parseTime(stats[key]).Some?
    ensures var instances := [Instance(true, Some(stats)), Instance(true, Some(stats))];
            && SampleOf(instances[0], key, parseTime).Some?
            && Weight(instances, key, parseTime) == 2 * (TwoTo31 - 1)
            && WeightedAverage(instances, key, parseTime) == 0.0
  {
    ParseShow(TwoTo31 - 1);
    var inst := Instance(true, Some(stats));
    var instances := [inst, inst];
    assert SampleOf(inst, key, parseTime).value.transactions == TwoTo31 - 1;
    SumBySingleton(inst, WeightOf(key, parseTime));
    SumByAppend([inst], [inst], WeightOf(key, parseTime));
    assert instances == [inst] + [inst];
  }

  // ---------------------------------------------------------------------------
  // Worked examples
  // ---------------------------------------------------------------------------

  /** A malformed count is skipped and a well-formed one is added. */
  lemma MalformedCountSkipped()
    ensures Total([Instance(true, Some(map[TransactionCountKey := "abc"])),
                   Instance(true, Some(map[TransactionCountKey := "5"]))], TransactionCountKey) == 5
  {
    var bad := Instance(true, Some(map[TransactionCountKey := "abc"]));
    var good := Instance(true, Some(map[TransactionCountKey := "5"]));
    assert !IsDigit('a');
    assert Show(5) == "5";
    ParseShow(5);
    OneInstanceContribution([], bad, [good], TransactionCountKey);
    OneInstanceContribution([], good, [], TransactionCountKey);
    assert [] + [good] + [] == [good];
    assert [] + [bad] + [good] == [bad, good];
  }

  /** A stopped instance counts in the all-instances sum and not in the running-instances sum. */
  lemma StoppedInstanceExcludedFromActiveSum()
    ensures var instances := [Instance(false, Some(map[TransactionCountKey := "5"]))];
            Total(instances, TransactionCountKey) == 5 && Total(Running(instances), TransactionCountKey) == 0
  {
    var stopped := Instance(false, Some(map[TransactionCountKey := "5"]));
    assert Show(5) == "5";
    ParseShow(5);
    OneInstanceContribution([], stopped, [], TransactionCountKey);
    assert [] + [stopped] + [] == [stopped];
    assert Running([stopped]) == [] by {
      assert [stopped][..0] == [];
    }
  }

  /** Ten transactions of 2.0 and thirty of 4.0 average to 3.5. */
  lemma WeightedMeanExample(parseTime: string -> Option<real>)
    requires parseTime("2.0") == Some(2.0) && parseTime("4.0") == Some(4.0)
    ensures WeightedAverage([Instance(true, Some(map[TransactionCountKey := "10", AverageTransactionTimeKey := "2.0"])),
                             Instance(true, Some(map[TransactionCountKey := "30", AverageTransactionTimeKey := "4.0"]))],
                            AverageTransactionTimeKey, parseTime) == 3.5
  {
    var key := AverageTransactionTimeKey;
    var first := Instance(true, Some(map[TransactionCountKey := "10", key := "2.0"]));
    var second := Instance(true, Some(map[TransactionCountKey := "30", key := "4.0"]));
    assert Show(10) == "10" && Show(30) == "30";
    ReportedSample(true, first.stats.value, key, parseTime, 10, 2.0);
    ReportedSample(true, second.stats.value, key, parseTime, 30, 4.0);
    var instances := [first, second];
    AveragePrefixStep(instances, 0, key, parseTime);
    AveragePrefixStep(instances, 1, key, parseTime);
    assert instances[..0] == [] && instances[..1] == [first] && instances[..2] == instances;
    assert Weight([first, second], key, parseTime) == 40;
    assert WeightedTime([first, second], key, parseTime) == 140.0;
  }
}
