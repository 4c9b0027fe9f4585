/** Value types of a demand trace: the fragment record, the Java integer
    widths it is stored in, the scaling-policy token a workload carries, and
    the maxima a workload caches when it is constructed. */
module Fragments {

  /** Java `int`. */
  newtype Int32 = x: int | -0x8000_0000 <= x < 0x8000_0000

  /** Java `long`. */
  newtype Int64 = x: int | -0x8000_0000_0000_0000 <= x < 0x8000_0000_0000_0000

  /** One constant-demand interval of a trace: the timestamp (epoch millis)
      at which it ends, the CPU usage during it and the number of cores used. */
  datatype Fragment = Fragment(duration: Int64, cpuUsage: real, coreCount: Int32)

  /** The scaling policy a workload hands to its execution adapter. The model
      only carries it; `NoDelayScaling` is the default the factories supply. */
  datatype ScalingPolicy = NoDelayScaling | OtherScaling(id: nat)

  /** The comparison key of `Comparator.comparing(TraceFragment::cpuUsage)`. */
  function CpuUsageKey(f: Fragment): real { f.cpuUsage }

  /** The comparison key of `Comparator.comparing(TraceFragment::coreCount)`. */
  function CoreCountKey(f: Fragment): real { f.coreCount as real }

  /** The element `fs.stream().max(comparing(key))` picks: the stream reduces
      left to right and keeps the running maximum unless a later element
      compares strictly greater, so the result is the FIRST maximal element. */
  function FirstMaxIndex(fs: seq<Fragment>, key: Fragment -> real): (k: nat)
    requires |fs| > 0
    ensures k < |fs|
    ensures forall i :: 0 <= i < |fs| ==> key(fs[i]) <= key(fs[k])
    ensures forall i :: 0 <= i < k ==> key(fs[i]) < key(fs[k])
    decreases |fs|
  {
    if |fs| == 1 then 0
    else
      var k := FirstMaxIndex(fs[..|fs| - 1], key);
      if key(fs[k]) >= key(fs[|fs| - 1]) then k else |fs| - 1
  }

  /** Any index that is maximal and has only strictly smaller keys before it
      is the one the stream picks: the two conditions pin the result down. */
  lemma FirstMaxIndexUnique(fs: seq<Fragment>, key: Fragment -> real, j: nat)
    requires j < |fs|
    requires forall i :: 0 <= i < |fs| ==> key(fs[i]) <= key(fs[j])
    requires forall i :: 0 <= i < j ==> key(fs[i]) < key(fs[j])
    ensures FirstMaxIndex(fs, key) == j
  {
  }

  /** The value cached as `maxCpuDemand`: the largest `cpuUsage` of `fs`. */
  function MaxCpuUsage(fs: seq<Fragment>): (m: real)
    requires |fs| > 0
    ensures exists i :: 0 <= i < |fs| && fs[i].cpuUsage == m
    ensures forall i :: 0 <= i < |fs| ==> fs[i].cpuUsage <= m
  {
    var k := FirstMaxIndex(fs, CpuUsageKey);
    assert CpuUsageKey(fs[k]) == fs[k].cpuUsage;
    assert forall i :: 0 <= i < |fs| ==> CpuUsageKey(fs[i]) == fs[i].cpuUsage;
    fs[k].cpuUsage
  }

  /** The value cached as `maxCoreCount`: the largest `coreCount` of `fs`. */
  function MaxCoreCount(fs: seq<Fragment>): (m: Int32)
    requires |fs| > 0
    ensures exists i :: 0 <= i < |fs| && fs[i].coreCount == m
    ensures forall i :: 0 <= i < |fs| ==> fs[i].coreCount <= m
  {
    var k := FirstMaxIndex(fs, CoreCountKey);
    assert forall i :: 0 <= i < |fs| ==> CoreCountKey(fs[i]) == fs[i].coreCount as real;
    fs[k].coreCount
  }

  /** Dropping a prefix never raises the maximum: while the list has only
      lost a prefix since construction, the cached maxima still bound every
      remaining fragment from above, though they need no longer be attained. */
  lemma MaxOfSuffixBounded(fs: seq<Fragment>, n: nat)
    requires n < |fs|
    ensures MaxCpuUsage(fs[n..]) <= MaxCpuUsage(fs)
    ensures MaxCoreCount(fs[n..]) <= MaxCoreCount(fs)
  {
  }

  /** Re-inserting a fragment at the head raises the maximum exactly when the
      fragment exceeds it. While the list is still the one a workload was
      constructed with, `addFirst` thus leaves the cached maxima exact exactly
      when the fragment does not exceed them; after prefix removals, with
      `MaxOfSuffixBounded`, they stay upper bounds exactly then. */
  lemma MaxOfConsIsLarger(f: Fragment, fs: seq<Fragment>)
    requires |fs| > 0
    ensures MaxCpuUsage([f] + fs) == if f.cpuUsage > MaxCpuUsage(fs) then f.cpuUsage else MaxCpuUsage(fs)
    ensures MaxCoreCount([f] + fs) == if f.coreCount > MaxCoreCount(fs) then f.coreCount else MaxCoreCount(fs)
  {
    var all := [f] + fs;
    assert all[0] == f;
    assert forall i :: 0 <= i < |fs| ==> all[i + 1] == fs[i];
    var m := MaxCpuUsage(all);
    var i :| 0 <= i < |all| && all[i].cpuUsage == m;
    var j :| 0 <= j < |fs| && fs[j].cpuUsage == MaxCpuUsage(fs);
    assert all[j + 1].cpuUsage <= m;
    if i > 0 {
      assert all[i] == fs[i - 1];
    }
    var c := MaxCoreCount(all);
    var p :| 0 <= p < |all| && all[p].coreCount == c;
    var q :| 0 <= q < |fs| && fs[q].coreCount == MaxCoreCount(fs);
    assert all[q + 1].coreCount <= c;
    if p > 0 {
      assert all[p] == fs[p - 1];
    }
  }
}
