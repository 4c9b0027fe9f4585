/** The trace workload: an ordered, mutable list of fragments with a fixed
    checkpoint configuration and cached maxima, the builder that assembles
    it, and the restart-time edits `removeFragments` and `addFirst`. */
module Trace {
  import opened Fragments

  /** The exceptions the Java code lets escape. */
  datatype Error =
    | NoSuchElement     // `Optional.get()` on the empty `max` of an empty list
    | IndexOutOfBounds  // `subList(0, n)` with `n` past the end of the list

  datatype Result<T> = Ok(value: T) | Err(error: Error)

  datatype Outcome = Pass | Fail(error: Error)

  /** What `removeFragments(n)` leaves of `fs`: nothing dropped for `n <= 0`,
      the list after its first `n` fragments for `0 < n <= |fs|`, and an
      index error (with `fs` untouched) when `n` runs past the end. */
  function DropFirst(fs: seq<Fragment>, n: int): (r: Result<seq<Fragment>>)
    ensures n <= 0 ==> r == Ok(fs)
    ensures 0 < n <= |fs| ==> r.Ok? && |r.value| == |fs| - n && fs == fs[..n] + r.value
    ensures n > |fs| ==> r == Err(IndexOutOfBounds)
  {
    if n <= 0 then Ok(fs)
    else if n > |fs| then Err(IndexOutOfBounds)
    else Ok(fs[n..])
  }

  /** `addFirst(f)` followed by `removeFragments(1)` restores the list. */
  lemma DropFirstUndoesAddFirst(f: Fragment, fs: seq<Fragment>)
    ensures DropFirst([f] + fs, 1) == Ok(fs)
  {
  }

  /** Two successful restarts that drop `a` and then `b` fragments leave the
      same list as one restart that drops `a + b`. */
  lemma DropFirstComposes(fs: seq<Fragment>, a: nat, b: nat)
    requires a + b <= |fs|
    ensures DropFirst(fs, a).Ok?
    ensures DropFirst(DropFirst(fs, a).value, b) == DropFirst(fs, a + b)
  {
  }

  /** The `ArrayList<TraceFragment>` object. A builder fills it and hands the
      same object to every workload it builds, so an edit made through one
      holder is seen by all of them. */
  class FragmentList {
    var items: seq<Fragment>

    constructor ()
      ensures items == []
    {
      items := [];
    }
  }

  class TraceWorkload {
    /** Not declared `final` in the source, but never reassigned after construction. */
    const fragments: FragmentList
    const checkpointInterval: Int64
    const checkpointDuration: Int64
    const checkpointIntervalScaling: real
    const maxCpuDemand: real
    const maxCoreCount: Int32
    const scalingPolicy: ScalingPolicy

    /** The fragments the list held when this workload was constructed: the
        cached maxima describe these, not the list's current contents. */
    ghost const initialFragments: seq<Fragment>

    ghost predicate Valid()
      reads this
    {
      |initialFragments| > 0 &&
      maxCpuDemand == MaxCpuUsage(initialFragments) &&
      maxCoreCount == MaxCoreCount(initialFragments)
    }

    /** The main constructor on a non-empty list (the empty list is the error
        path of `Create`). It keeps the caller's list object, not a copy. */
    constructor (fragments: FragmentList, checkpointInterval: Int64, checkpointDuration: Int64,
                 checkpointIntervalScaling: real, scalingPolicy: ScalingPolicy)
      requires |fragments.items| > 0
      ensures Valid() && initialFragments == fragments.items
      ensures this.fragments == fragments
      ensures this.checkpointInterval == checkpointInterval
      ensures this.checkpointDuration == checkpointDuration
      ensures this.checkpointIntervalScaling == checkpointIntervalScaling
      ensures this.scalingPolicy == scalingPolicy
    {
      this.fragments := fragments;
      this.checkpointInterval := checkpointInterval;
      this.checkpointDuration := checkpointDuration;
      this.checkpointIntervalScaling := checkpointIntervalScaling;
      this.scalingPolicy := scalingPolicy;
      this.maxCpuDemand := MaxCpuUsage(fragments.items);
      this.maxCoreCount := MaxCoreCount(fragments.items);
      this.initialFragments := fragments.items;
    }

    /** The five-argument constructor with its failure: the maxima of an
        empty list do not exist, and the source throws. */
    static method Create(fragments: FragmentList, checkpointInterval: Int64, checkpointDuration: Int64,
                         checkpointIntervalScaling: real, scalingPolicy: ScalingPolicy)
      returns (r: Result<TraceWorkload>)
      ensures r.Err? <==> fragments.items == []
      ensures r.Err? ==> r.error == NoSuchElement
      ensures r.Ok? ==> fresh(r.value) && r.value.Valid() && r.value.initialFragments == fragments.items
      ensures r.Ok? ==> r.value.fragments == fragments
      ensures r.Ok? ==> r.value.checkpointInterval == checkpointInterval
      ensures r.Ok? ==> r.value.checkpointDuration == checkpointDuration
      ensures r.Ok? ==> r.value.checkpointIntervalScaling == checkpointIntervalScaling
      ensures r.Ok? ==> r.value.scalingPolicy == scalingPolicy
    {
      if fragments.items == [] {
        return Err(NoSuchElement);
      }
      var w := new TraceWorkload(fragments, checkpointInterval, checkpointDuration,
                                 checkpointIntervalScaling, scalingPolicy);
      return Ok(w);
    }

    /** The one-argument constructor: no checkpointing, interval scaling 1.0
        and the no-delay policy. */
    static method CreateWithDefaults(fragments: FragmentList) returns (r: Result<TraceWorkload>)
      ensures r.Err? <==> fragments.items == []
      ensures r.Err? ==> r.error == NoSuchElement
      ensures r.Ok? ==> fresh(r.value) && r.value.Valid() && r.value.initialFragments == fragments.items
      ensures r.Ok? ==> r.value.fragments == fragments
      ensures r.Ok? ==> r.value.checkpointInterval == 0 && r.value.checkpointDuration == 0
      ensures r.Ok? ==> r.value.checkpointIntervalScaling == 1.0
      ensures r.Ok? ==> r.value.scalingPolicy == NoDelayScaling
    {
      r := Create(fragments, 0, 0, 1.0, NoDelayScaling);
    }

    /** `getMaxCpuDemand()`: the largest CPU usage among the fragments the
        workload was constructed with, whatever the list holds now. */
    function GetMaxCpuDemand(): (m: real)
      reads this
      requires Valid()
      ensures exists i :: 0 <= i < |initialFragments| && initialFragments[i].cpuUsage == m
      ensures forall i :: 0 <= i < |initialFragments| ==> initialFragments[i].cpuUsage <= m
    {
      maxCpuDemand
    }

    /** `getMaxCoreCount()`: the largest core count among the fragments the
        workload was constructed with, whatever the list holds now. */
    function GetMaxCoreCount(): (m: Int32)
      reads this
      requires Valid()
      ensures exists i :: 0 <= i < |initialFragments| && initialFragments[i].coreCount == m
      ensures forall i :: 0 <= i < |initialFragments| ==> initialFragments[i].coreCount <= m
    {
      maxCoreCount
    }

    /** Drops the first `n` fragments of the shared list; only the list
        changes, and it is left as it was when the call fails. */
    method RemoveFragments(n: Int32) returns (r: Outcome)
      modifies fragments
      ensures var expected := DropFirst(old(fragments.items), n as int);
        if expected.Ok?
        then r == Pass && fragments.items == expected.value
        else r == Fail(expected.error) && fragments.items == old(fragments.items)
    {
      if n <= 0 {
        return Pass;
      }
      if n as int > |fragments.items| {
        return Fail(IndexOutOfBounds);
      }
      fragments.items := fragments.items[n..];
      return Pass;
    }

    /** Re-inserts `fragment` at the head of the shared list, without any check. */
    method AddFirst(fragment: Fragment)
      modifies fragments
      ensures fragments.items == [fragment] + old(fragments.items)
    {
      fragments.items := [fragment] + fragments.items;
    }

    /** `builder()`: a builder with no checkpointing, interval scaling 0.0 (not
        the 1.0 of the one-argument constructor) and the no-delay policy. */
    static method DefaultBuilder() returns (b: Builder)
      ensures fresh(b) && fresh(b.fragments) && b.fragments.items == []
      ensures b.checkpointInterval == 0 && b.checkpointDuration == 0
      ensures b.checkpointIntervalScaling == 0.0
      ensures b.scalingPolicy == NoDelayScaling
    {
      b := NewBuilder(0, 0, 0.0, NoDelayScaling);
    }

    /** `builder(interval, duration, scaling, policy)`. */
    static method NewBuilder(checkpointInterval: Int64, checkpointDuration: Int64,
                             checkpointIntervalScaling: real, scalingPolicy: ScalingPolicy)
      returns (b: Builder)
      ensures fresh(b) && fresh(b.fragments) && b.fragments.items == []
      ensures b.checkpointInterval == checkpointInterval
      ensures b.checkpointDuration == checkpointDuration
      ensures b.checkpointIntervalScaling == checkpointIntervalScaling
      ensures b.scalingPolicy == scalingPolicy
    {
      b := new Builder(checkpointInterval, checkpointDuration, checkpointIntervalScaling, scalingPolicy);
    }

    /** `ofFragments(TraceFragment...)`: copies each fragment's fields into a
        fresh default builder, in order, and builds. The workload gets a new
        list, so it does not share the caller's array. */
    static method OfFragmentArray(fragments: array<Fragment>) returns (r: Result<TraceWorkload>)
      ensures r.Err? <==> fragments.Length == 0
      ensures r.Err? ==> r.error == NoSuchElement
      ensures r.Ok? ==> fresh(r.value) && fresh(r.value.fragments) && r.value.Valid()
      ensures r.Ok? ==> r.value.fragments.items == fragments[..] && r.value.initialFragments == fragments[..]
      ensures r.Ok? ==> r.value.checkpointInterval == 0 && r.value.checkpointDuration == 0
      ensures r.Ok? ==> r.value.checkpointIntervalScaling == 0.0
      ensures r.Ok? ==> r.value.scalingPolicy == NoDelayScaling
    {
      var builder := DefaultBuilder();
      for i := 0 to fragments.Length
        invariant fresh(builder.fragments)
        invariant builder.fragments.items == fragments[..i]
      {
        var fragment := fragments[i];
        builder.Add(fragment.duration, fragment.cpuUsage, fragment.coreCount);
      }
      r := builder.Build();
    }

    /** `ofFragments(List<TraceFragment>)`: as the array form, reading the
        caller's list, which is left unchanged and unshared. */
    static method OfFragmentList(fragments: FragmentList) returns (r: Result<TraceWorkload>)
      ensures r.Err? <==> fragments.items == []
      ensures r.Err? ==> r.error == NoSuchElement
      ensures r.Ok? ==> fresh(r.value) && fresh(r.value.fragments) && r.value.Valid()
      ensures r.Ok? ==> r.value.fragments.items == fragments.items && r.value.initialFragments == fragments.items
      ensures r.Ok? ==> r.value.checkpointInterval == 0 && r.value.checkpointDuration == 0
      ensures r.Ok? ==> r.value.checkpointIntervalScaling == 0.0
      ensures r.Ok? ==> r.value.scalingPolicy == NoDelayScaling
    {
      var builder := DefaultBuilder();
      var i := 0;
      while i < |fragments.items|
        invariant 0 <= i <= |fragments.items|
        invariant fresh(builder.fragments)
        invariant builder.fragments.items == fragments.items[..i]
      {
        var fragment := fragments.items[i];
        builder.Add(fragment.duration, fragment.cpuUsage, fragment.coreCount);
        i := i + 1;
      }
      r := builder.Build();
    }
  }

  /** Accumulates fragments under a checkpoint configuration fixed when the
      builder is created. */
  class Builder {
    const fragments: FragmentList
    const checkpointInterval: Int64
    const checkpointDuration: Int64
    const checkpointIntervalScaling: real
    const scalingPolicy: ScalingPolicy

    constructor (checkpointInterval: Int64, checkpointDuration: Int64,
                 checkpointIntervalScaling: real, scalingPolicy: ScalingPolicy)
      ensures fresh(fragments) && fragments.items == []
      ensures this.checkpointInterval == checkpointInterval
      ensures this.checkpointDuration == checkpointDuration
      ensures this.checkpointIntervalScaling == checkpointIntervalScaling
      ensures this.scalingPolicy == scalingPolicy
    {
      this.fragments := new FragmentList();
      this.checkpointInterval := checkpointInterval;
      this.checkpointDuration := checkpointDuration;
      this.checkpointIntervalScaling := checkpointIntervalScaling;
      this.scalingPolicy := scalingPolicy;
    }

    /** Appends `Fragment(duration, usage, cores)` at the tail. */
    method Add(duration: Int64, usage: real, cores: Int32)
      modifies fragments
      ensures fragments.items == old(fragments.items) + [Fragment(duration, usage, cores)]
    {
      fragments.items := fragments.items + [Fragment(duration, usage, cores)];
    }

    /** Builds a workload over this builder's own list object: the list is
        neither copied nor cleared, so later `Add`s, and the restart edits of
        every workload built here, act on one list. */
    method Build() returns (r: Result<TraceWorkload>)
      ensures r.Err? <==> fragments.items == []
      ensures r.Err? ==> r.error == NoSuchElement
      ensures r.Ok? ==> fresh(r.value) && r.value.Valid() && r.value.initialFragments == fragments.items
      ensures r.Ok? ==> r.value.fragments == fragments
      ensures r.Ok? ==> r.value.checkpointInterval == checkpointInterval
      ensures r.Ok? ==> r.value.checkpointDuration == checkpointDuration
      ensures r.Ok? ==> r.value.checkpointIntervalScaling == checkpointIntervalScaling
      ensures r.Ok? ==> r.value.scalingPolicy == scalingPolicy
    {
      r := TraceWorkload.Create(fragments, checkpointInterval, checkpointDuration,
                                checkpointIntervalScaling, scalingPolicy);
    }
  }

  /** A restart cycle on a three-fragment trace built through a builder: the
      workload drops its first fragment, the builder sees the shorter list
      (they share it), and the cached maxima keep their construction values
      even after the fragment holding them has also been dropped. */
  method RestartScenario()
    returns (maxCpu: real, maxCores: Int32, remaining: seq<Fragment>, seenByBuilder: seq<Fragment>)
    ensures maxCpu == 4.0 && maxCores == 2
    ensures remaining == [Fragment(5000, 1.0, 1)]
    ensures seenByBuilder == remaining
  {
    var builder := TraceWorkload.DefaultBuilder();
    builder.Add(1000, 2.0, 1);
    builder.Add(3000, 4.0, 2);
    builder.Add(5000, 1.0, 1);
    var built := builder.Build();
    var w := built.value;
    assert w.initialFragments[1].cpuUsage == 4.0 && w.initialFragments[1].coreCount == 2;
    var removed := w.RemoveFragments(2);
    assert removed == Pass;
    maxCpu, maxCores := w.GetMaxCpuDemand(), w.GetMaxCoreCount();
    remaining, seenByBuilder := w.fragments.items, builder.fragments.items;
  }
}
