# GcPerf: garbage-collection counter aggregation, in Dafny

`GcPerf` gathers the JVM's garbage-collection statistics into four perf
counters. Its `dump(Map)` walks a fixed table of six collector kinds
(`GcType`: the young collectors `Serial`, `ParNew`, `Parallel` and the full
collectors `MSC`, `PSMS`, `CMS`), asks the platform MBean server for each
kind's `CollectionCount` and `CollectionTime`, adds both to the young or the
full running totals, and finally puts `sys.gc.young.count.COUNTER`,
`sys.gc.young.time.COUNTER`, `sys.gc.full.count.COUNTER` and
`sys.gc.full.time.COUNTER` into the caller's map, which it returns. A
collector that is not present in the running JVM makes `getAttribute` throw;
the exception is caught and logged, and that collector adds nothing.

The model is one module, `GcPerf` in `gc_perf.dfy`:

- `GcType` is a datatype of the six kinds, and its `Generation()` is the
  young/full classification made by the `switch`. `AllTypes` is
  `GcType.values()` in declaration order.
- The MBean server is a parameter `lookup: (GcType, Attribute) -> Option<int>`.
  `None` stands for a `getAttribute` call that throws. The count and the
  time are separate lookups, so the case "count read, then time lookup
  throws" can be expressed.
- The caller's `Map<String, Long>` is the class `CounterMap`, whose
  `entries: map<string, int>` field is changed in place by `Put`.
  `Dump` takes and returns a `CounterMap`, so "returns the same map" is
  stated as reference equality.
- `Dump` keeps the source's loop: four accumulators, two lookups per kind,
  and a `match` on the kind's `Generation()` for the `switch`. It is proved against the specification
  function `Expected` (`SumOver` applied to `AllTypes`), and its result map is
  given by `Merged`. The lemmas then state what `Expected` means: the
  per-generation sums, independence from visit order, isolation of
  failures, and non-negativity.
- `ReportCycle` is the body of the reporter's `ReportTask.run`. It creates a
  fresh map, dumps into it, and returns the entries that would be pushed to
  the metrics sink.

The code adds whatever the MBean server returns, and `CollectionCount` and
`CollectionTime` may be -1 when undefined for a collector, so the outputs
are non-negative only for a provider that never returns a negative value.
The model follows the code: non-negativity (`DumpNonNegative`) holds only
for a provider that never returns a negative value.

## Model

| member | source | states |
|---|---|---|
| `GcPerf.Query` | GcPerf.java:79-81 | one iteration's reads succeed exactly when both the count and the time lookups succeed, and then carry those two values |
| `GcPerf.Contribution` | GcPerf.java:79-95 | a young kind adds only to the young totals and a full kind only to the full totals; if either lookup throws, the kind adds nothing (all or nothing); otherwise it adds its count and its time to its own generation |
| `GcPerf.Merged` | GcPerf.java:100-103 | after the four puts, the map's keys are the old keys plus the four metric keys, each metric key holds its total, and every other key keeps its old value |
| `GcPerf.Dump` | GcPerf.java:75-105 | returns the very map it was given, and changes that map to the old contents merged with the totals `Expected` of the six kinds |
| `GcPerf.CounterMap.Put` | GcPerf.java:100-103 | a put binds the key to the value and leaves every other entry as it was |
| `GcPerf.CounterMap.constructor` | GcPerf.java:115 | a fresh counter map is empty |
| `GcPerf.ReportCycle` | GcPerf.java:112-121 | one reporting cycle pushes exactly the four metric keys, bound to the totals |
| `GcPerf.MetricKeysDistinct` | GcPerf.java:39-42 | the four metric key strings are pairwise distinct (four different keys) |
| `GcPerf.AllTypesEnumeratesEachOnce` | GcPerf.java:50-53 | the table of kinds lists each of the six kinds exactly once |
| `GcPerf.ClassificationPartition` | GcPerf.java:82-94 | `Serial`, `ParNew` and `Parallel` are exactly the young kinds, and `MSC`, `PSMS` and `CMS` are exactly the full kinds; no kind reaches the `default` branch |
| `GcPerf.YoungTotals` | GcPerf.java:77-87 | the young count and young time are the sums over `Serial`, `ParNew` and `Parallel` of their values, where a kind whose query failed counts as 0 |
| `GcPerf.FullTotals` | GcPerf.java:77-92 | the full count and full time are the sums over `MSC`, `PSMS` and `CMS` of their values, where a kind whose query failed counts as 0 |
| `GcPerf.SumOverRemove` | GcPerf.java:78-95 | taking one kind out of the visit sequence removes exactly that kind's contribution from the totals |
| `GcPerf.SumOverPermutation` | GcPerf.java:78-95 | two visit sequences that are permutations of each other give the same totals |
| `GcPerf.ExpectedOrderIndependent` | GcPerf.java:78-95 | visiting the six kinds in any order gives the totals `dump` computes |
| `GcPerf.FailureOnlyDropsItself` | GcPerf.java:79-98 | if one kind's query fails where it would otherwise succeed, the totals lose exactly that kind's contribution; the other kinds are still summed as before |
| `GcPerf.SumOverNonNegative` | GcPerf.java:77-90 | starting from 0 and adding only provider values gives non-negative totals when the provider never returns a negative value |
| `GcPerf.DumpNonNegative` | GcPerf.java:77-103 | with such a provider, all four metrics written into the map are at least 0 |

## Left out

- Building the JMX `ObjectName` of each kind and the `MalformedObjectNameException` path of the `GcType` constructor (GcPerf.java:55-65): this belongs to a foreign library. A kind's identity is the enum value itself.
- `ManagementFactory.getPlatformMBeanServer()` and `MBeanServer.getAttribute`: these are runtime-supplied calls. The server they give access to is the `lookup` parameter; an `Exception` thrown by `getAttribute` or by the `(Long)` cast inside the `try` is `None`.
- Dump: a failing `getPlatformMBeanServer()` (GcPerf.java:76, outside the `try`), or any throwable from the loop that is not an `Exception` (an `Error`, which the `catch` does not catch), propagates out of `dump` before any `put`, leaving the map untouched; this exit path is not modelled.
- `logger.debug` in the catch block: logging only, with no effect on the results.
- `startReporter`, `stopReporter` and the single-thread `ScheduledExecutorService`: fixed-delay scheduling, shutdown and threads are not modelled. Only one cycle of the task is modelled (`ReportCycle`).
- `PerfCounter.count`, the metrics sink: `ReportCycle` returns the entries it would push instead of calling the sink. The `HashMap` iteration order of those pushes is not modelled.
- Dump: counts, times and totals are unbounded integers, so Java `long` overflow wrap-around is not modelled.
- Dump: a `null` attribute value is not modelled. With the code as written, a `null` time after a non-null count would add the count and then throw a `NullPointerException`, which the catch block absorbs. The model treats each lookup as either a value or a throw.
