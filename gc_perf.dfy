/**
 * A model of the lazy garbage-collection counter aggregator `GcPerf`.
 *
 * `Dump` walks the fixed table of six collector kinds, asks the platform
 * MBean server for each kind's cumulative collection count and time, adds
 * them to the young or the full totals, and writes four metrics into the
 * caller's counter map, which it then returns.
 *
 * The MBean server is a parameter: a total function from a collector kind
 * and an attribute name to `Some(value)`, or to `None` when the lookup
 * throws (collector not present in this JVM, attribute missing, reflection
 * error, ...).
 */
module GcPerf {

  datatype Option<+T> = None | Some(value: T)

  // ---------------------------------------------------------------------
  // Collector kinds and their classification
  // ---------------------------------------------------------------------

  /** The two generations a collector kind reports for. */
  datatype Generation = Young | Full

  /** The collector kinds of the Oracle/Sun JVM, in declaration order. */
  datatype GcType = Serial | ParNew | Parallel | MSC | PSMS | CMS
  {
    /** The young/full classification made by the `switch` in `dump`. */
    function Generation(): Generation
    {
      match this
      case Serial | ParNew | Parallel => Young
      case MSC | PSMS | CMS => Full
    }
  }

  /** `GcType.values()`: every kind, in declaration order. */
  const AllTypes: seq<GcType> := [Serial, ParNew, Parallel, MSC, PSMS, CMS]

  /** The two MBean attributes `dump` reads. */
  datatype Attribute = CollectionCount | CollectionTime

  /** The MBean server: `None` stands for a `getAttribute` call that throws. */
  type Lookup = (GcType, Attribute) -> Option<int>

  // ---------------------------------------------------------------------
  // Metric keys and the caller's counter map
  // ---------------------------------------------------------------------

  const YGCC: string := "sys.gc.young.count.COUNTER"
  const YGCT: string := "sys.gc.young.time.COUNTER"
  const FGCC: string := "sys.gc.full.count.COUNTER"
  const FGCT: string := "sys.gc.full.time.COUNTER"

  const MetricKeys: set<string> := {YGCC, YGCT, FGCC, FGCT}

  /** The caller-owned `Map<String, Long>` that `dump` fills in place. */
  class CounterMap {
    var entries: map<string, int>

    /** `new HashMap<String, Long>()` */
    constructor ()
      ensures entries == map[]
    {
      entries := map[];
    }

    /** `Map.put`: binds `key` to `value`, replacing any earlier value. */
    method Put(key: string, value: int)
      modifies this
      ensures entries == old(entries)[key := value]
    {
      entries := entries[key := value];
    }
  }

  // ---------------------------------------------------------------------
  // Specification of the aggregation
  // ---------------------------------------------------------------------

  /** The four running totals of `dump`: ygcc, ygct, fgcc, fgct. */
  datatype Totals = Totals(youngCount: int, youngTime: int, fullCount: int, fullTime: int)

  const Zero: Totals := Totals(0, 0, 0, 0)

  function Add(a: Totals, b: Totals): Totals
  {
    Totals(a.youngCount + b.youngCount, a.youngTime + b.youngTime,
           a.fullCount + b.fullCount, a.fullTime + b.fullTime)
  }

  /** One collector's (count, time) pair, when both lookups succeed. */
  datatype Sample = Sample(count: int, time: int)

  /**
   * The two lookups of one loop iteration. The count is read first; if
   * either read throws, the whole iteration is abandoned.
   */
  function Query(lookup: Lookup, t: GcType): (q: Option<Sample>)
    ensures q.Some? <==> lookup(t, CollectionCount).Some? && lookup(t, CollectionTime).Some?
    ensures q.Some? ==>
              q.value.count == lookup(t, CollectionCount).value && q.value.time == lookup(t, CollectionTime).value
  {
    match lookup(t, CollectionCount)
    case None => None
    case Some(c) =>
      match lookup(t, CollectionTime)
      case None => None
      case Some(tm) => Some(Sample(c, tm))
  }

  /** What one collector adds to the four running totals. */
  function Contribution(lookup: Lookup, t: GcType): (r: Totals)
    // a young collector never touches the full totals, and vice versa
    ensures t.Generation() == Young ==> r.fullCount == 0 && r.fullTime == 0
    ensures t.Generation() == Full ==> r.youngCount == 0 && r.youngTime == 0
    // all or nothing: a throwing lookup, of either attribute, adds nothing
    ensures lookup(t, CollectionCount).None? ==> r == Zero
    ensures lookup(t, CollectionTime).None? ==> r == Zero
    // otherwise both values land in the collector's own generation
    ensures Query(lookup, t).Some? && t.Generation() == Young ==>
              r.youngCount == lookup(t, CollectionCount).value
              && r.youngTime == lookup(t, CollectionTime).value
    ensures Query(lookup, t).Some? && t.Generation() == Full ==>
              r.fullCount == lookup(t, CollectionCount).value
              && r.fullTime == lookup(t, CollectionTime).value
  {
    match Query(lookup, t)
    case None => Zero
    case Some(s) =>
      match t.Generation()
      case Young => Totals(s.count, s.time, 0, 0)
      case Full => Totals(0, 0, s.count, s.time)
  }

  /** The totals after the loop has visited `ts`, in order, starting from 0. */
  function SumOver(lookup: Lookup, ts: seq<GcType>): Totals
  {
    if ts == [] then Zero
    else Add(SumOver(lookup, ts[..|ts| - 1]), Contribution(lookup, ts[|ts| - 1]))
  }

  /** The totals `dump` computes. */
  function Expected(lookup: Lookup): Totals
  {
    SumOver(lookup, AllTypes)
  }

  /** The caller's map after the four `put`s. */
  function Merged(m: map<string, int>, tot: Totals): (r: map<string, int>)
    ensures r.Keys == m.Keys + MetricKeys
    ensures r[YGCC] == tot.youngCount && r[YGCT] == tot.youngTime
    ensures r[FGCC] == tot.fullCount && r[FGCT] == tot.fullTime
    ensures forall k :: k in m && k !in MetricKeys ==> r[k] == m[k]
  {
    m[YGCC := tot.youngCount][YGCT := tot.youngTime][FGCC := tot.fullCount][FGCT := tot.fullTime]
  }

  // ---------------------------------------------------------------------
  // The operations
  // ---------------------------------------------------------------------

  /**
   * `GcPerf.dump`: aggregates the six collectors and stores the four
   * metrics in `counters`, returning that same map.
   */
  method Dump(counters: CounterMap, lookup: Lookup) returns (r: CounterMap)
    modifies counters
    ensures r == counters
    ensures counters.entries == Merged(old(counters.entries), Expected(lookup))
  {
    var ygcc, ygct, fgcc, fgct := 0, 0, 0, 0;
    for i := 0 to |AllTypes|
      invariant Totals(ygcc, ygct, fgcc, fgct) == SumOver(lookup, AllTypes[..i])
      invariant counters.entries == old(counters.entries)
    {
      var t := AllTypes[i];
      ghost var before := Totals(ygcc, ygct, fgcc, fgct);
      var c := lookup(t, CollectionCount);
      if c.Some? {
        var tm := lookup(t, CollectionTime);
        if tm.Some? {
          match t.Generation()
          case Young =>
            ygcc := ygcc + c.value;
            ygct := ygct + tm.value;
          case Full =>
            fgcc := fgcc + c.value;
            fgct := fgct + tm.value;
        }
        // a throwing time lookup skips the switch: nothing is added
      }
      // a throwing count lookup is caught and logged: nothing is added
      assert Totals(ygcc, ygct, fgcc, fgct) == Add(before, Contribution(lookup, t));
      assert AllTypes[..i + 1] == AllTypes[..i] + [t];
      SumOverSnoc(lookup, AllTypes[..i], t);
    }
    assert AllTypes[..|AllTypes|] == AllTypes;
    ghost var totals := Totals(ygcc, ygct, fgcc, fgct);
    assert totals == Expected(lookup);
    counters.Put(YGCC, ygcc);
    counters.Put(YGCT, ygct);
    counters.Put(FGCC, fgcc);
    counters.Put(FGCT, fgct);
    r := counters;
  }

  /**
   * One cycle of the reporter's task: a fresh map is dumped into and every
   * entry of it is handed to the metrics sink. The result is the set of
   * (key, value) pairs pushed to the sink.
   */
  method ReportCycle(lookup: Lookup) returns (pushed: map<string, int>)
    ensures pushed.Keys == MetricKeys
    ensures pushed == Merged(map[], Expected(lookup))
  {
    var counters := new CounterMap();
    counters := Dump(counters, lookup);
    pushed := counters.entries;
  }

  // ---------------------------------------------------------------------
  // Properties
  // ---------------------------------------------------------------------

  /** The four metric keys are pairwise distinct, so no `put` undoes another. */
  lemma MetricKeysDistinct()
    ensures |MetricKeys| == 4
  {
  }

  /** The table lists every kind exactly once. */
  lemma AllTypesEnumeratesEachOnce(t: GcType)
    ensures multiset(AllTypes)[t] == 1
  {
  }

  /** Where a kind sits in the table. */
  function Position(t: GcType): (j: nat)
    ensures j < |AllTypes| && AllTypes[j] == t
  {
    match t
    case Serial => 0 case ParNew => 1 case Parallel => 2
    case MSC => 3 case PSMS => 4 case CMS => 5
  }

  /** Taking a kind out of the table leaves no other copy of it. */
  lemma OthersExclude(t: GcType)
    ensures t !in AllTypes[..Position(t)] + AllTypes[Position(t) + 1..]
  {
  }

  /** The classification is a partition: three young kinds, three full kinds. */
  lemma ClassificationPartition(t: GcType)
    ensures t.Generation() == Young <==> t in {Serial, ParNew, Parallel}
    ensures t.Generation() == Full <==> t in {MSC, PSMS, CMS}
  {
  }

  /** The value a collector adds to one quantity, 0 when its query fails. */
  function SampleCount(lookup: Lookup, t: GcType): int
  {
    match Query(lookup, t)
    case None => 0
    case Some(s) => s.count
  }

  function SampleTime(lookup: Lookup, t: GcType): int
  {
    match Query(lookup, t)
    case None => 0
    case Some(s) => s.time
  }

  /** The young totals are the sums over the three young collectors. */
  lemma YoungTotals(lookup: Lookup)
    ensures Expected(lookup).youngCount
              == SampleCount(lookup, Serial) + SampleCount(lookup, ParNew) + SampleCount(lookup, Parallel)
    ensures Expected(lookup).youngTime
              == SampleTime(lookup, Serial) + SampleTime(lookup, ParNew) + SampleTime(lookup, Parallel)
  {
    ExpectedUnfolded(lookup);
    ContributionParts(lookup, Serial);
    ContributionParts(lookup, ParNew);
    ContributionParts(lookup, Parallel);
  }

  /** The full totals are the sums over the three full collectors. */
  lemma FullTotals(lookup: Lookup)
    ensures Expected(lookup).fullCount
              == SampleCount(lookup, MSC) + SampleCount(lookup, PSMS) + SampleCount(lookup, CMS)
    ensures Expected(lookup).fullTime
              == SampleTime(lookup, MSC) + SampleTime(lookup, PSMS) + SampleTime(lookup, CMS)
  {
    ExpectedUnfolded(lookup);
    ContributionParts(lookup, MSC);
    ContributionParts(lookup, PSMS);
    ContributionParts(lookup, CMS);
  }

  /** The six iterations of the loop, written out. */
  lemma ExpectedUnfolded(lookup: Lookup)
    ensures Expected(lookup)
         == Add(Add(Add(Add(Add(Add(Zero,
              Contribution(lookup, Serial)), Contribution(lookup, ParNew)), Contribution(lookup, Parallel)),
              Contribution(lookup, MSC)), Contribution(lookup, PSMS)), Contribution(lookup, CMS))
  {
    var s1 := [Serial];
    var s2 := s1 + [ParNew];
    var s3 := s2 + [Parallel];
    var s4 := s3 + [MSC];
    var s5 := s4 + [PSMS];
    assert AllTypes == s5 + [CMS];
    SumOverSnoc(lookup, [], Serial);
    assert [] + [Serial] == s1;
    SumOverSnoc(lookup, s1, ParNew);
    SumOverSnoc(lookup, s2, Parallel);
    SumOverSnoc(lookup, s3, MSC);
    SumOverSnoc(lookup, s4, PSMS);
    SumOverSnoc(lookup, s5, CMS);
  }

  /** A collector's contribution, quantity by quantity. */
  lemma ContributionParts(lookup: Lookup, t: GcType)
    ensures Contribution(lookup, t).youngCount == (if t.Generation() == Young then SampleCount(lookup, t) else 0)
    ensures Contribution(lookup, t).youngTime == (if t.Generation() == Young then SampleTime(lookup, t) else 0)
    ensures Contribution(lookup, t).fullCount == (if t.Generation() == Full then SampleCount(lookup, t) else 0)
    ensures Contribution(lookup, t).fullTime == (if t.Generation() == Full then SampleTime(lookup, t) else 0)
  {
  }

  /** The loop's step: visiting one more collector adds its contribution. */
  lemma SumOverSnoc(lookup: Lookup, ts: seq<GcType>, t: GcType)
    ensures SumOver(lookup, ts + [t]) == Add(SumOver(lookup, ts), Contribution(lookup, t))
  {
  }

  /** Removing one collector from the visit order removes exactly its contribution. */
  lemma {:induction false} SumOverRemove(lookup: Lookup, ts: seq<GcType>, j: nat)
    requires j < |ts|
    ensures SumOver(lookup, ts) == Add(SumOver(lookup, ts[..j] + ts[j + 1..]), Contribution(lookup, ts[j]))
  {
    var n := |ts|;
    var rest := ts[..j] + ts[j + 1..];
    if j == n - 1 {
      assert rest == ts[..n - 1];
    } else {
      var init := ts[..n - 1];
      SumOverRemove(lookup, init, j);
      assert rest[..|rest| - 1] == init[..j] + init[j + 1..];
      assert rest[|rest| - 1] == ts[n - 1];
    }
  }

  /** Summation does not depend on the order in which the collectors are visited. */
  lemma {:induction false} SumOverPermutation(lookup: Lookup, ts: seq<GcType>, us: seq<GcType>)
    requires multiset(ts) == multiset(us)
    ensures SumOver(lookup, ts) == SumOver(lookup, us)
    decreases |ts|
  {
    if ts == [] {
      assert |us| == |multiset(us)| == 0;
    } else {
      var n := |ts|;
      var x := ts[n - 1];
      assert ts == ts[..n - 1] + [x];
      assert x in multiset(us);
      var j :| 0 <= j < |us| && us[j] == x;
      var rest := us[..j] + us[j + 1..];
      assert us == us[..j] + [x] + us[j + 1..];
      assert multiset(ts) == multiset(ts[..n - 1]) + multiset{x};
      assert multiset(us) == multiset(us[..j]) + multiset{x} + multiset(us[j + 1..]);
      assert multiset(rest) == multiset(us[..j]) + multiset(us[j + 1..]);
      assert multiset(ts[..n - 1]) == multiset(ts) - multiset{x};
      assert multiset(rest) == multiset(us) - multiset{x};
      SumOverPermutation(lookup, ts[..n - 1], rest);
      SumOverRemove(lookup, us, j);
    }
  }

  /** Any visit order of the six kinds gives the totals `dump` computes. */
  lemma ExpectedOrderIndependent(lookup: Lookup, order: seq<GcType>)
    requires multiset(order) == multiset(AllTypes)
    ensures SumOver(lookup, order) == Expected(lookup)
  {
    SumOverPermutation(lookup, order, AllTypes);
  }

  /** Two providers that agree except on `t` give the same totals over kinds other than `t`. */
  lemma {:induction false} SumOverAgree(lookup: Lookup, lookup': Lookup, t: GcType, ts: seq<GcType>)
    requires forall u, a :: u != t ==> lookup'(u, a) == lookup(u, a)
    requires t !in ts
    ensures SumOver(lookup', ts) == SumOver(lookup, ts)
  {
    if ts != [] {
      var u := ts[|ts| - 1];
      assert lookup'(u, CollectionCount) == lookup(u, CollectionCount);
      assert lookup'(u, CollectionTime) == lookup(u, CollectionTime);
      SumOverAgree(lookup, lookup', t, ts[..|ts| - 1]);
    }
  }

  /**
   * A failing collector costs only its own contribution: the other five are
   * still queried and summed as if nothing had happened.
   */
  lemma FailureOnlyDropsItself(lookup: Lookup, lookup': Lookup, t: GcType)
    requires forall u, a :: u != t ==> lookup'(u, a) == lookup(u, a)
    requires Query(lookup', t).None?
    ensures Add(Expected(lookup'), Contribution(lookup, t)) == Expected(lookup)
  {
    var j := Position(t);
    var rest := AllTypes[..j] + AllTypes[j + 1..];
    OthersExclude(t);
    SumOverRemove(lookup, AllTypes, j);
    SumOverRemove(lookup', AllTypes, j);
    SumOverAgree(lookup, lookup', t, rest);
  }

  /** A provider that never reports a negative count or time. */
  ghost predicate NonNegativeProvider(lookup: Lookup)
  {
    forall t, a :: lookup(t, a).Some? ==> lookup(t, a).value >= 0
  }

  ghost predicate NonNegativeTotals(tot: Totals)
  {
    tot.youngCount >= 0 && tot.youngTime >= 0 && tot.fullCount >= 0 && tot.fullTime >= 0
  }

  lemma {:induction false} SumOverNonNegative(lookup: Lookup, ts: seq<GcType>)
    requires NonNegativeProvider(lookup)
    ensures NonNegativeTotals(SumOver(lookup, ts))
  {
    if ts != [] {
      var u := ts[|ts| - 1];
      assert lookup(u, CollectionCount).Some? ==> lookup(u, CollectionCount).value >= 0;
      assert lookup(u, CollectionTime).Some? ==> lookup(u, CollectionTime).value >= 0;
      SumOverNonNegative(lookup, ts[..|ts| - 1]);
    }
  }

  /** With a well-behaved provider, all four metrics `dump` writes are >= 0. */
  lemma DumpNonNegative(lookup: Lookup, m: map<string, int>)
    requires NonNegativeProvider(lookup)
    ensures forall k :: k in MetricKeys ==> Merged(m, Expected(lookup))[k] >= 0
  {
    SumOverNonNegative(lookup, AllTypes);
  }
}
