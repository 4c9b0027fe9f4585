# OpenDC trace workload, modelled in Dafny

OpenDC simulates data-centre machines stepping through time. A compute
workload there is a *trace*: an ordered list of fragments, each a constant
CPU demand (`cpuUsage` spread over `coreCount` cores) that ends at the
timestamp `duration`. `TraceWorkload` holds that list together with a fixed
checkpoint configuration (interval, duration, interval scaling), a scaling
policy and two maxima cached at construction. During checkpoint/restart the
simulator edits the list in place: `removeFragments(n)` drops consumed
fragments from the head and `addFirst(f)` re-queues an interrupted one. A
`Builder` appends fragments one by one and builds the workload;
`ofFragments` runs a list or array of fragments through a default builder.

The project has two modules:

- `Fragments` (`fragment.dfy`): the `Fragment` record with Java's `long` and
  `int` widths as newtypes, the scaling-policy token, and the maxima. Java's
  `stream().max(Comparator.comparing(key))` is modelled by `FirstMaxIndex`,
  a left-to-right fold that keeps its running maximum unless a later element
  compares strictly greater. Its contract is that it picks the first maximal
  element. `MaxCpuUsage` and `MaxCoreCount` are the values cached from it.
- `Trace` (`trace_workload.dfy`): the Java exceptions as an `Error`
  datatype, and `DropFirst`, the value-level meaning of `removeFragments`.
  It has three classes. `FragmentList` is the `ArrayList` object. Both
  `TraceWorkload` and `Builder` hold a reference to one, so the sharing
  that `build()` sets up is real aliasing in the model.

The `final` fields of the Java classes are `const` fields. So the checkpoint
configuration, the policy and the cached maxima provably cannot change
under `RemoveFragments` or `AddFirst`, which modify only the list object.
A ghost `initialFragments` records the list as it was at construction.
`Valid()` ties the cached maxima to it, not to the current list. That is
how the model states that the maxima go stale: they are not recomputed
after an edit. `MaxOfSuffixBounded` and `MaxOfConsIsLarger` say how far they
drift.

Three behaviours of the code that the model keeps:

- `builder()`, and so both `ofFragments` forms, use checkpoint interval
  scaling `0.0`. Only the one-argument constructor uses `1.0`.
- `build()` hands the builder's own list to the workload. The list is not
  copied or cleared. A builder and every workload built from it share one
  list.
- An empty list fails with Java's `NoSuchElementException` (from
  `Optional.get()`), modelled as `NoSuchElement`. An out-of-range
  `removeFragments` fails with `IndexOutOfBoundsException` (from `subList`),
  modelled as `IndexOutOfBounds`. In that case the list is left unchanged,
  because `subList` throws before `clear()` runs. Java exceptions become
  `Result`/`Outcome` values.

## Model

| member | source | states |
|---|---|---|
| `Fragments.FirstMaxIndex` | opendc-simulator/opendc-simulator-compute/src/main/java/org/opendc/simulator/compute/workload/trace/TraceWorkload.java:63-70 | on a non-empty list, the index picked is in range, its key bounds every key, and every earlier key is strictly smaller (the first maximal element, as `max` with `Comparator.comparing` picks) |
| `Fragments.FirstMaxIndexUnique` | opendc-simulator/opendc-simulator-compute/src/main/java/org/opendc/simulator/compute/workload/trace/TraceWorkload.java:63-70 | any index with those two properties is the one picked, so the contract determines the result |
| `Fragments.MaxCpuUsage` | opendc-simulator/opendc-simulator-compute/src/main/java/org/opendc/simulator/compute/workload/trace/TraceWorkload.java:63-66 | the cached `maxCpuDemand` is the `cpuUsage` of some fragment and is at least every fragment's `cpuUsage` |
| `Fragments.MaxCoreCount` | opendc-simulator/opendc-simulator-compute/src/main/java/org/opendc/simulator/compute/workload/trace/TraceWorkload.java:67-70 | the cached `maxCoreCount` is the `coreCount` of some fragment and is at least every fragment's `coreCount` |
| `Fragments.MaxOfSuffixBounded` | opendc-simulator/opendc-simulator-compute/src/main/java/org/opendc/simulator/compute/workload/trace/TraceWorkload.java:104-109 | after dropping a prefix, the maxima of the rest are no larger, so the cached maxima remain upper bounds while the list has only lost a prefix since construction |
| `Fragments.MaxOfConsIsLarger` | opendc-simulator/opendc-simulator-compute/src/main/java/org/opendc/simulator/compute/workload/trace/TraceWorkload.java:111-113 | after re-inserting a fragment at the head, each maximum is the larger of that fragment's value and the old maximum; so while the list is still the one the workload was constructed with, the cache stays exact after `addFirst` exactly when the fragment does not exceed it, and after prefix removals (with `MaxOfSuffixBounded`) the cache stays an upper bound exactly when the fragment does not exceed it |
| `Trace.DropFirst` | opendc-simulator/opendc-simulator-compute/src/main/java/org/opendc/simulator/compute/workload/trace/TraceWorkload.java:104-109 | `n <= 0` keeps the list; `0 < n <= size` leaves the `size - n` fragments that follow the first `n`, in order; `n > size` is an index error |
| `Trace.DropFirstUndoesAddFirst` | opendc-simulator/opendc-simulator-compute/src/main/java/org/opendc/simulator/compute/workload/trace/TraceWorkload.java:104-113 | removing one fragment after `addFirst(f)` restores the original list, for every `f` |
| `Trace.DropFirstComposes` | opendc-simulator/opendc-simulator-compute/src/main/java/org/opendc/simulator/compute/workload/trace/TraceWorkload.java:104-109 | removing `a` and then `b` fragments equals removing `a + b` when `a + b` fits |
| `Trace.FragmentList.constructor` | opendc-simulator/opendc-simulator-compute/src/main/java/org/opendc/simulator/compute/workload/trace/TraceWorkload.java:182 | a new list is empty |
| `Trace.TraceWorkload.constructor` | opendc-simulator/opendc-simulator-compute/src/main/java/org/opendc/simulator/compute/workload/trace/TraceWorkload.java:50-71 | the success path on a non-empty list: it keeps the caller's list object, stores the configuration unchanged and caches the maxima of the list's current contents |
| `Trace.TraceWorkload.Create` | opendc-simulator/opendc-simulator-compute/src/main/java/org/opendc/simulator/compute/workload/trace/TraceWorkload.java:50-71 | fails with `NoSuchElement` exactly when the list is empty; otherwise yields a fresh workload over the same list object with the given configuration and valid cached maxima |
| `Trace.TraceWorkload.CreateWithDefaults` | opendc-simulator/opendc-simulator-compute/src/main/java/org/opendc/simulator/compute/workload/trace/TraceWorkload.java:73-75 | like `Create` with interval 0, duration 0, scaling 1.0 and `NoDelayScaling` |
| `Trace.TraceWorkload.GetMaxCpuDemand` | opendc-simulator/opendc-simulator-compute/src/main/java/org/opendc/simulator/compute/workload/trace/TraceWorkload.java:100-102 | returns the largest `cpuUsage` of the fragments present at construction, whatever the list holds now |
| `Trace.TraceWorkload.GetMaxCoreCount` | opendc-simulator/opendc-simulator-compute/src/main/java/org/opendc/simulator/compute/workload/trace/TraceWorkload.java:96-98 | returns the largest `coreCount` of the fragments present at construction, whatever the list holds now |
| `Trace.TraceWorkload.RemoveFragments` | opendc-simulator/opendc-simulator-compute/src/main/java/org/opendc/simulator/compute/workload/trace/TraceWorkload.java:104-109 | the shared list becomes what `DropFirst` gives; on `IndexOutOfBounds` it is unchanged; nothing but the list changes |
| `Trace.TraceWorkload.AddFirst` | opendc-simulator/opendc-simulator-compute/src/main/java/org/opendc/simulator/compute/workload/trace/TraceWorkload.java:111-113 | the shared list becomes `[f]` followed by the old list; nothing else changes |
| `Trace.TraceWorkload.DefaultBuilder` | opendc-simulator/opendc-simulator-compute/src/main/java/org/opendc/simulator/compute/workload/trace/TraceWorkload.java:125-127 | a fresh empty builder with interval 0, duration 0, scaling 0.0 and `NoDelayScaling` |
| `Trace.TraceWorkload.NewBuilder` | opendc-simulator/opendc-simulator-compute/src/main/java/org/opendc/simulator/compute/workload/trace/TraceWorkload.java:129-135 | a fresh empty builder carrying exactly the given configuration |
| `Trace.TraceWorkload.OfFragmentArray` | opendc-simulator/opendc-simulator-compute/src/main/java/org/opendc/simulator/compute/workload/trace/TraceWorkload.java:142-150 | fails with `NoSuchElement` exactly when the array is empty; otherwise the workload's fresh list equals the array's fragments in order, with configuration (0, 0, 0.0, `NoDelayScaling`) |
| `Trace.TraceWorkload.OfFragmentList` | opendc-simulator/opendc-simulator-compute/src/main/java/org/opendc/simulator/compute/workload/trace/TraceWorkload.java:157-165 | the same for a list; the workload gets a fresh list, not the caller's |
| `Trace.Builder.constructor` | opendc-simulator/opendc-simulator-compute/src/main/java/org/opendc/simulator/compute/workload/trace/TraceWorkload.java:177-187 | a fresh empty list and the given configuration |
| `Trace.Builder.Add` | opendc-simulator/opendc-simulator-compute/src/main/java/org/opendc/simulator/compute/workload/trace/TraceWorkload.java:196-198 | appends `Fragment(duration, usage, cores)` at the tail, so after k adds to a new builder the list holds the k fragments in call order, provided no workload built from the builder has edited the list |
| `Trace.Builder.Build` | opendc-simulator/opendc-simulator-compute/src/main/java/org/opendc/simulator/compute/workload/trace/TraceWorkload.java:203-210 | fails with `NoSuchElement` exactly when its shared list is empty at the call; otherwise a fresh workload over the builder's own list object (shared, not copied or cleared) with the builder's configuration passed through unchanged |
| `Trace.RestartScenario` | opendc-simulator/opendc-simulator-compute/src/main/java/org/opendc/simulator/compute/workload/trace/TraceWorkload.java:203-210 | building `[(1000, 2.0, 1), (3000, 4.0, 2), (5000, 1.0, 1)]` and removing two fragments leaves `[(5000, 1.0, 1)]`, as seen from the workload and from the builder, while the cached maxima stay 4.0 and 2 |

## Left out

- `startWorkload(supplier)` and `SimTraceWorkload` are left out: they hand the workload to the flow-graph simulation engine, which is not part of this model. The three-argument `startWorkload` only delegates to the one-argument form.
- `ScalingPolicy` and `NoDelayScaling` are not part of this model. The policy is an opaque token that is stored and passed on. A fresh `NoDelayScaling` object per call becomes the single value `NoDelayScaling`, so object identity is not modelled.
- `TraceFragment.java` is not part of this model. The fragment is modelled as the three-field record its uses in `TraceWorkload.java` show.
- `cpuUsage` and `checkpointIntervalScaling` are `real` values. IEEE `double` semantics are not modelled: NaN and `-0.0` ordering in `Comparator.comparing`, and rounding.
- The plain accessors (`getFragments`, `getCheckpointInterval`, `getCheckpointDuration`, `getCheckpointIntervalScaling`, `getScalingPolicy`) are the public `const` fields of the Dafny class. `fragments` is the live, shared list object, as in the source.
- Null arguments are excluded by Dafny's non-null types. A null list, array or element makes the Java code throw `NullPointerException`; `addFirst(null)` inserts a null element and a null scaling policy is stored as is, and the model represents neither.
- `SimPowerSourceTest.kt` and `RackSpaceFillContainer.js` are not part of this model. They belong to the power-source simulator and the web UI, not to the trace workload.
