# StatsUtilities aggregation, modelled in Dafny

This project models the statistics aggregation in JavaMonitor's `StatsUtilities`
(WebObjects' application monitor). Each monitored application has a list of
instances. Each instance may carry a statistics dictionary of strings, reported by
the running application. `StatsUtilities` folds those dictionaries into per-application figures:

- totals of the `transactions` and `activeSessions` counts, over all instances or
  over the running ones only;
- transaction-weighted averages of the `avgTransactionTime` and
  `averageIdlePeriod` times, again over all instances or over the running ones.

The folds are parse-or-skip. An instance whose value cannot be read is passed over
and the loop goes on with the next one. A value cannot be read when:

- its dictionary is null;
- the key is absent;
- the value does not parse.

An instance that is passed over changes none of the accumulators.

Modules:

- `Wrappers` — the `Option` type.
- `JavaInt` — Java `int` arithmetic and parsing:
  - `Wrap32`, two's-complement wrap-around;
  - `ParseInt`, `Integer.parseInt`/`Integer.valueOf` as a total function that
    answers `None` where Java throws;
  - `Show`, `Integer.toString`, its partner.
- `Reductions` — generic left-to-right sums (`SumBy`, `RealSumBy`) and `Filter`,
  with their append, permutation, split and bound lemmas.
- `StatsUtilities` — the instances, the per-instance selection rules, the
  specification functions `Total`, `Weight`, `WeightedTime` and `WeightedAverage`,
  and one method per Java loop. Each method is proved to compute its specification
  function.
- `StatsProperties` — the properties of the aggregation, stated over the
  specification functions:
  - which instances count, and that a skipped instance changes nothing;
  - the running/stopped decomposition;
  - the zero results;
  - the bounds and the order independence of the averages;
  - the consequence of `int` overflow of the weight;
  - three worked examples.

An instance is `Instance(running, stats)`. `running` is `isRunning_M()`.
`stats` is `statistics()`: `None` for null, otherwise a map from key to string
value. An application is the sequence of its instances (`instanceArray()`).

## Model

| member | source | states |
|---|---|---|
| StatsUtilities.SumStatisticOfAllInstances | Frameworks/Misc/JavaMonitorFramework/Sources/com/webobjects/monitor/_private/StatsUtilities.java:53-73 | the loop returns the 32-bit wrap of the sum, over every instance, of the parsed value of the key; instances with null statistics, a missing key or an unparsable value add nothing |
| StatsUtilities.TotalTransactionsForApplication | Frameworks/Misc/JavaMonitorFramework/Sources/com/webobjects/monitor/_private/StatsUtilities.java:53-73 | the wrapped sum of `transactions` over all instances |
| StatsUtilities.TotalActiveSessionsForApplication | Frameworks/Misc/JavaMonitorFramework/Sources/com/webobjects/monitor/_private/StatsUtilities.java:89-109 | the wrapped sum of `activeSessions` over all instances |
| StatsUtilities.SumStatisticOfActiveInstances | Frameworks/Misc/JavaMonitorFramework/Sources/com/webobjects/monitor/_private/StatsUtilities.java:133-151 | the loop returns the 32-bit wrap of the same sum taken over the running instances only |
| StatsUtilities.TotalTransactionsForActiveInstancesOfApplication | Frameworks/Misc/JavaMonitorFramework/Sources/com/webobjects/monitor/_private/StatsUtilities.java:83-86 | the wrapped sum of `transactions` over the running instances |
| StatsUtilities.TotalActiveSessionsForActiveInstancesOfApplication | Frameworks/Misc/JavaMonitorFramework/Sources/com/webobjects/monitor/_private/StatsUtilities.java:119-122 | the wrapped sum of `activeSessions` over the running instances |
| StatsUtilities.AverageTimeStatisticOfActiveInstances | Frameworks/Misc/JavaMonitorFramework/Sources/com/webobjects/monitor/_private/StatsUtilities.java:163-195 | the loop returns the weighted average over the running instances: the sum of count times time over the sum of counts. Only instances with a positive count and a parsable time contribute. The loop's own null, count, `> 0` and time-parse checks are proved to select exactly those instances. The `int` count total wraps, and the result is 0 unless that wrapped total is positive |
| StatsUtilities.AverageTransactionTimeOfActiveInstances | Frameworks/Misc/JavaMonitorFramework/Sources/com/webobjects/monitor/_private/StatsUtilities.java:205-208 | the weighted average of `avgTransactionTime` over the running instances |
| StatsUtilities.AverageIdleTimeOfActiveInstances | Frameworks/Misc/JavaMonitorFramework/Sources/com/webobjects/monitor/_private/StatsUtilities.java:218-221 | the weighted average of `averageIdlePeriod` over the running instances |
| StatsUtilities.AverageTimeStatisticOfAllInstances | Frameworks/Misc/JavaMonitorFramework/Sources/com/webobjects/monitor/_private/StatsUtilities.java:224-258 | the same weighted average over all instances, running or not; the loop's inline checks are proved to select exactly the contributing instances |
| StatsUtilities.TotalAverageTransactionTimeForApplication | Frameworks/Misc/JavaMonitorFramework/Sources/com/webobjects/monitor/_private/StatsUtilities.java:224-258 | the weighted average of `avgTransactionTime` over all instances |
| StatsUtilities.TotalAverageIdleTimeForApplication | Frameworks/Misc/JavaMonitorFramework/Sources/com/webobjects/monitor/_private/StatsUtilities.java:261-295 | the weighted average of `averageIdlePeriod` over all instances |
| StatsUtilities.ReportedCount | Frameworks/Misc/JavaMonitorFramework/Sources/com/webobjects/monitor/_private/StatsUtilities.java:63-66 | null statistics never yield a count; a count that is yielded is a 32-bit `int` |
| StatsUtilities.SampleOf | Frameworks/Misc/JavaMonitorFramework/Sources/com/webobjects/monitor/_private/StatsUtilities.java:172-182 | null statistics never yield a sample; a sample's transaction count is a positive `int` |
| StatsUtilities.TotalStep | Frameworks/Misc/JavaMonitorFramework/Sources/com/webobjects/monitor/_private/StatsUtilities.java:59-71 | one iteration of the summing loop adds exactly the visited instance's contribution |
| StatsUtilities.RunningStep | Frameworks/Misc/JavaMonitorFramework/Sources/com/webobjects/monitor/_private/StatsUtilities.java:137 | the running instances of a longer prefix gain the visited instance exactly when it is running |
| StatsUtilities.AveragePrefixStep | Frameworks/Misc/JavaMonitorFramework/Sources/com/webobjects/monitor/_private/StatsUtilities.java:232-251 | one iteration of the all-instances averaging loop updates the weight and weighted total by the visited instance's sample |
| StatsUtilities.ActiveAverageStep | Frameworks/Misc/JavaMonitorFramework/Sources/com/webobjects/monitor/_private/StatsUtilities.java:169-188 | one iteration of the running-instances averaging loop updates them only when the visited instance is running |
| JavaInt.Wrap32 | Frameworks/Misc/JavaMonitorFramework/Sources/com/webobjects/monitor/_private/StatsUtilities.java:66 | the result is a 32-bit `int`, and an in-range value is unchanged |
| JavaInt.WrapAdd | Frameworks/Misc/JavaMonitorFramework/Sources/com/webobjects/monitor/_private/StatsUtilities.java:66 | adding to a wrapped accumulator and wrapping gives the wrap of the exact sum |
| JavaInt.ParseInt | Frameworks/Misc/JavaMonitorFramework/Sources/com/webobjects/monitor/_private/StatsUtilities.java:66 | a parse succeeds only on a present decimal literal, and its value is a 32-bit `int`; a non-literal never parses |
| JavaInt.DecimalDigitsValue | Frameworks/Misc/JavaMonitorFramework/Sources/com/webobjects/monitor/_private/StatsUtilities.java:66 | reading back the decimal digits of `n` gives `n` |
| JavaInt.ParseShow | Frameworks/Misc/JavaMonitorFramework/Sources/com/webobjects/monitor/_private/StatsUtilities.java:66 | parsing the `toString` of `n` gives back `n` exactly when `n` is a 32-bit `int`, and fails otherwise |
| JavaInt.ParsePlusSign | Frameworks/Misc/JavaMonitorFramework/Sources/com/webobjects/monitor/_private/StatsUtilities.java:175 | a leading `+` parses to the same value as no sign, and out-of-range magnitudes fail |
| StatsProperties.OneInstanceContribution | Frameworks/Misc/JavaMonitorFramework/Sources/com/webobjects/monitor/_private/StatsUtilities.java:63-69 | an instance with no readable value leaves the sum as it is without it; one with value `v` adds exactly `v`, wherever it stands in the list |
| StatsProperties.ReportedValueIsAdded | Frameworks/Misc/JavaMonitorFramework/Sources/com/webobjects/monitor/_private/StatsUtilities.java:142 | any reported `int`, negative or not, is the instance's contribution as it is |
| StatsProperties.TotalWithoutUsableValues | Frameworks/Misc/JavaMonitorFramework/Sources/com/webobjects/monitor/_private/StatsUtilities.java:53-73 | with no readable value, or no instance, the sum is 0 |
| StatsProperties.ActiveSumWithoutUsableValues | Frameworks/Misc/JavaMonitorFramework/Sources/com/webobjects/monitor/_private/StatsUtilities.java:76-86 | when no running instance has a readable value (for example when none is running) the running-instances sum is 0 |
| StatsProperties.RunningStoppedDecomposition | Frameworks/Misc/JavaMonitorFramework/Sources/com/webobjects/monitor/_private/StatsUtilities.java:133-151 | the all-instances sum equals the running-instances sum plus the sum over the instances that are not running |
| StatsProperties.WrappedDecomposition | Frameworks/Misc/JavaMonitorFramework/Sources/com/webobjects/monitor/_private/StatsUtilities.java:53-73 | the same decomposition holds for the wrapped `int` results |
| StatsProperties.TotalOrderIndependent | Frameworks/Misc/JavaMonitorFramework/Sources/com/webobjects/monitor/_private/StatsUtilities.java:59-71 | both sums are unchanged by reordering the instances |
| StatsProperties.SampleSelection | Frameworks/Misc/JavaMonitorFramework/Sources/com/webobjects/monitor/_private/StatsUtilities.java:236-250 | an instance contributes to an average exactly when its statistics are non-null, its count parses and is positive, and its time key is present and parses |
| StatsProperties.ReportedSample | Frameworks/Misc/JavaMonitorFramework/Sources/com/webobjects/monitor/_private/StatsUtilities.java:237-246 | an instance reporting a positive count `n` and a time that parses to `t` contributes the sample `(n, t)` |
| StatsProperties.ContributesToBothOrNeither | Frameworks/Misc/JavaMonitorFramework/Sources/com/webobjects/monitor/_private/StatsUtilities.java:241-246 | an instance adds its count to the weight and count times time to the weighted total together, or adds to neither |
| StatsProperties.TimeParseFailureSkips | Frameworks/Misc/JavaMonitorFramework/Sources/com/webobjects/monitor/_private/StatsUtilities.java:242-248 | a positive count whose time is missing or unparsable is not added to the weight: the time parse comes before both updates |
| StatsProperties.NonPositiveCountSkips | Frameworks/Misc/JavaMonitorFramework/Sources/com/webobjects/monitor/_private/StatsUtilities.java:241 | an instance whose count is 0 or negative adds nothing, whatever its time value |
| StatsProperties.WeightZeroIffNoContribution | Frameworks/Misc/JavaMonitorFramework/Sources/com/webobjects/monitor/_private/StatsUtilities.java:253-255 | the exact weight is never negative and is 0 exactly when no instance contributes |
| StatsProperties.AverageWithoutContributionIsZero | Frameworks/Misc/JavaMonitorFramework/Sources/com/webobjects/monitor/_private/StatsUtilities.java:190-194 | with no contributing instance, both averages are 0 |
| StatsProperties.NullStatisticsIgnored | Frameworks/Misc/JavaMonitorFramework/Sources/com/webobjects/monitor/_private/StatsUtilities.java:63 | dropping the instances with null statistics changes no sum, weight or weighted total |
| StatsProperties.AverageWithinBounds | Frameworks/Misc/JavaMonitorFramework/Sources/com/webobjects/monitor/_private/StatsUtilities.java:253-257 | when every contributing time lies in `[lo, hi]` and the weight does not overflow, the average lies in `[lo, hi]` |
| StatsProperties.WeightedTimeBounds | Frameworks/Misc/JavaMonitorFramework/Sources/com/webobjects/monitor/_private/StatsUtilities.java:244-245 | the weighted total lies between `lo` and `hi` times the weight |
| StatsProperties.AverageOrderIndependent | Frameworks/Misc/JavaMonitorFramework/Sources/com/webobjects/monitor/_private/StatsUtilities.java:232-251 | both averages are unchanged by reordering the instances (over the reals) |
| StatsProperties.WeightOverflowReportsZero | Frameworks/Misc/JavaMonitorFramework/Sources/com/webobjects/monitor/_private/StatsUtilities.java:245 | two instances each reporting `Integer.MAX_VALUE` transactions overflow the `int` weight to a negative value, and the average reports 0 |
| StatsProperties.MalformedCountSkipped | Frameworks/Misc/JavaMonitorFramework/Sources/com/webobjects/monitor/_private/StatsUtilities.java:64-69 | `"abc"` followed by `"5"` sums to 5 |
| StatsProperties.StoppedInstanceExcludedFromActiveSum | Frameworks/Misc/JavaMonitorFramework/Sources/com/webobjects/monitor/_private/StatsUtilities.java:137 | a stopped instance reporting 5 gives 5 over all instances and 0 over the running ones |
| StatsProperties.WeightedMeanExample | Frameworks/Misc/JavaMonitorFramework/Sources/com/webobjects/monitor/_private/StatsUtilities.java:163-195 | counts 10 and 30 with times 2.0 and 4.0 average to 3.5 |

## Left out

- Floating point: the Java `float` products, sums and division are modelled over
  the reals. Rounding, NaN and infinities are not captured.
- `Float.valueOf` is not modelled. It is the parameter `parseTime`, which is `None`
  where the parse throws.
- `ParseInt` accepts the ASCII digits only. Java's `Character.digit` also
  accepts the decimal digits of other scripts.
- A statistics value that is not a `String` raises a `ClassCastException`, which
  the loops catch. The model's dictionaries hold strings only, so an absent key
  stands for that case too.
- `actualTransactionsPerSecondForApplication` (lines 297-339) is not part of this
  model. It reads the clock, formats and parses timestamps and logs through `NSLog`.
  Its elapsed time is computed as the start time minus the current time.
- The static `dateFormatter` (line 22) is not modelled; only the left-out rate
  computation uses it.
- `MApplication`, `MInstance`, `NSArray` and `NSDictionary` are not part of this
  model. They are reduced to a sequence of `Instance` values.
- The Java file repeats one summing loop for each key. The model has one loop
  method, `SumStatisticOfAllInstances`, with one wrapper per key. The same holds
  for the averaging loops.
- Exceptions other than the parse failures, such as `OutOfMemoryError`, are
  caught by the same `catch (Throwable)`. They are not modelled.
