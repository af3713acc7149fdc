# Occupancy estimator of the hierarchical semi-Markov sampler

This project models the simulation engine of `PyramisSamplerFromFilesLongEvents`. The engine
estimates how long a hierarchical semi-Markov process spends in each of its states. It does
this by repeated replications of one run of the process.

A replication has two parts:

1. **Resolution** (the first half of `samplerOut`). One shared coin decides which half of
   every leaf race pair receives the sampled duration; the other half gets 0. Each draw is also
   added to the aggregate of the region that owns the leaf. Composites are then joined from the
   deepest level up. Each gets the minimum (EXIT policy) or maximum (FINAL policy) of its
   regions' aggregates, and a composite below the root adds that value to its own parent
   region.
2. **Attribution** (`topDown`). The root's resolved duration is recorded in a bounded trace
   buffer and attributed to the root. It is then pushed down every region:
   - A composite that outlasts the budget gets the budget, and so do its regions.
   - Otherwise the composite gets its own duration, and the chain of its successors gets
     what is left.
   - A leaf chain is walked state by state. Each state gets `min(duration, remaining)`, until
     the budget is used up or a Final/Exit state comes next.

The accumulator `probabs` collects every attribution through `add`. The batch loop snapshots it
with `deepCopy` and stops once `isChanged` reports that no normalised estimate moved by more
than a relative 1e-4.

Layout:

- `Topology.dfy`: the process structure the engine reads (state kinds, successor lists,
  regions, depths, race companions, the loop bounds `depthS`, `parallelS`, `sequenceS`). It
  also holds the winner rule of a racing successor pair.
- `Accumulator.dfy`: `add`, and the effect of a trace of `add` calls on the accumulator.
- `Resolver.dfy`: race resolution and the depth-ordered min/max join. Each is a
  specification function plus the imperative loops proved against it.
- `Attribution.dfy`: the top-down walk as a trace of `add` calls, and the budget lemmas.
- `Engine.dfy`: the mutable state (the accumulator, its snapshot, the trace buffer as an
  array with a write index) and the methods of `samplerOut`, `topDown`, `add` and `deepCopy`.
  Each method is proved against the specification functions above.
- `Convergence.dfy`: `isChanged` and its properties.
- `Conservation.dfy`: conservation of one race pair's mass between resolution and the
  top-down walk.

A Java exception (a `NullPointerException` on a missing map entry, an
`IndexOutOfBoundsException` on a short successor list) is not caught anywhere: it leaves
`samplerOut`, `sample` and `main` and ends the whole run. The model stops the batch at that
point. Resolution then returns `None`; attribution returns `Walk(trace, false)`, where `trace`
is the `add` calls made before the exception. The methods report `ok == false` and leave the
state those calls produced, which is the state the program holds when it terminates.

## Model

| member | source | states |
|---|---|---|
| Accumulator.Added | src/test/java/it/unifi/hierarchical/analysisScalability/PyramisSamplerFromFilesLongEvents.java:219-222 | `add(s, v, m)` raises the entry of `s` by exactly `v`, keeps every other entry, and neither adds nor removes keys |
| Accumulator.ApplyAt | src/test/java/it/unifi/hierarchical/analysisScalability/PyramisSamplerFromFilesLongEvents.java:219-222 | conservation: after a sequence of `add` calls each entry has grown by exactly the total amount the calls attributed to it |
| Accumulator.ApplyAppend | src/test/java/it/unifi/hierarchical/analysisScalability/PyramisSamplerFromFilesLongEvents.java:219-222 | two sequences of `add` calls run one after the other have the effect of their concatenation |
| Accumulator.ApplyMonotone | src/test/java/it/unifi/hierarchical/analysisScalability/PyramisSamplerFromFilesLongEvents.java:219-222 | `add` calls with nonnegative amounts never lower any accumulator entry |
| Engine.Estimator.Add | src/test/java/it/unifi/hierarchical/analysisScalability/PyramisSamplerFromFilesLongEvents.java:219-222 | succeeds exactly when the key has an entry, and then updates the accumulator as `Added` does; a missing key (the source's NullPointerException) changes nothing |
| Engine.Estimator.DeepCopy | src/test/java/it/unifi/hierarchical/analysisScalability/PyramisSamplerFromFilesLongEvents.java:210-215 | afterwards the snapshot holds every accumulator entry with its current value, and snapshot keys the accumulator lacks keep their old values |
| Engine.Estimator.constructor | src/test/java/it/unifi/hierarchical/analysisScalability/PyramisSamplerFromFilesLongEvents.java:85-118 | every listed state starts at 0 and the root `S0` at 1, the snapshot starts empty, and the trace buffer is empty with the given capacity |
| Engine.TraceBuffer.constructor | src/test/java/it/unifi/hierarchical/analysisScalability/PyramisSamplerFromFilesLongEvents.java:73-75 | the trace buffer is a fresh zero-filled array of the given capacity with write index 0 |
| Engine.TraceBuffer.Save | src/test/java/it/unifi/hierarchical/analysisScalability/PyramisSamplerFromFilesLongEvents.java:508-511 | while there is room the value goes into the next slot and the index advances by one; once full, array and index are unchanged; the index never passes the capacity |
| Engine.Push | src/test/java/it/unifi/hierarchical/analysisScalability/PyramisSamplerFromFilesLongEvents.java:508-511 | the recorded contents after one optional recording: extended by exactly that value while there is room, otherwise unchanged, never longer than the capacity |
| Engine.Capped | src/test/java/it/unifi/hierarchical/analysisScalability/PyramisSamplerFromFilesLongEvents.java:508-511 | appending a series of recordings to a buffer keeps all of them when they fit and fills it exactly to capacity when not, always a prefix of contents followed by the recordings |
| Engine.CappedStep | src/test/java/it/unifi/hierarchical/analysisScalability/PyramisSamplerFromFilesLongEvents.java:508-511 | recording one value and then a series gives the same contents as recording the whole series at once (drops happen only at the end) |
| Engine.Recorded | src/test/java/it/unifi/hierarchical/analysisScalability/PyramisSamplerFromFilesLongEvents.java:507-511 | a replication records a value exactly when resolution succeeded and produced a root duration, and the value is that duration |
| Topology.Winner | src/test/java/it/unifi/hierarchical/analysisScalability/PyramisSamplerFromFilesLongEvents.java:535-541 | of two racing successors the first wins exactly when its resolved duration is strictly positive, the second otherwise; a missing duration or a missing second successor is a failure; the winner lies strictly lower in the termination rank |
| Attribution.Effective | src/test/java/it/unifi/hierarchical/analysisScalability/PyramisSamplerFromFilesLongEvents.java:533-541 | a region's walk starts from its initial state unless that state is a race placeholder; a placeholder is replaced by its first successor when that one's duration is strictly positive and by its second otherwise, and fails as `Winner` does when a successor or the first duration is missing |
| Attribution.ChainWalkBudget | src/test/java/it/unifi/hierarchical/analysisScalability/PyramisSamplerFromFilesLongEvents.java:590-607 | with nonnegative durations, every attribution of a leaf-chain walk lies between 0 and the budget, and their sum is at most the budget |
| Attribution.ChainWalkShape | src/test/java/it/unifi/hierarchical/analysisScalability/PyramisSamplerFromFilesLongEvents.java:590-607 | the walk starts at the winning state and each later state is the first successor of the one before it, never a Final or Exit state; every state of the chain except the last gets its full duration; the last gets the smaller of its duration and the budget left after the states before it; a walk that ends normally with a positive budget attributes less than the whole budget only when the next state after the last one is Final or Exit |
| Attribution.ChainWalkFollows | src/test/java/it/unifi/hierarchical/analysisScalability/PyramisSamplerFromFilesLongEvents.java:590-607 | the walk starts at the winning state and moves along first successors only, stopping before any Final or Exit state |
| Attribution.ChainWalkFull | src/test/java/it/unifi/hierarchical/analysisScalability/PyramisSamplerFromFilesLongEvents.java:590-607 | every state of the walk except the last gets its full duration |
| Attribution.ChainWalkLast | src/test/java/it/unifi/hierarchical/analysisScalability/PyramisSamplerFromFilesLongEvents.java:590-607 | the last state of the walk gets the smaller of its duration and the budget left after the states before it |
| Attribution.ChainWalkStops | src/test/java/it/unifi/hierarchical/analysisScalability/PyramisSamplerFromFilesLongEvents.java:590-607 | a walk that ends normally with a positive budget attributes less than the whole budget only when the next state after the last one is Final or Exit |
| Attribution.TopDownTruncates | src/test/java/it/unifi/hierarchical/analysisScalability/PyramisSamplerFromFilesLongEvents.java:545-550 | a composite that outlasts the budget is attributed exactly the budget, its regions are walked with the budget, and no successor is visited |
| Attribution.TopDownContinues | src/test/java/it/unifi/hierarchical/analysisScalability/PyramisSamplerFromFilesLongEvents.java:551-584 | a composite within the budget is attributed its own duration first; its regions are walked with that duration; the successor chain starts at the race winner with the leftover budget, and is skipped when nothing is left |
| Attribution.TopDownBounded | src/test/java/it/unifi/hierarchical/analysisScalability/PyramisSamplerFromFilesLongEvents.java:531-610 | with nonnegative durations, no single attribution of a whole top-down walk is negative or exceeds the budget the walk was given |
| Attribution.ContinueBounded | src/test/java/it/unifi/hierarchical/analysisScalability/PyramisSamplerFromFilesLongEvents.java:551-584 | for a composite within the budget, its regions and its successor chain together attribute nothing above the budget |
| Attribution.RegionsBounded | src/test/java/it/unifi/hierarchical/analysisScalability/PyramisSamplerFromFilesLongEvents.java:547-555 | walking a composite's regions one after the other attributes nothing above the budget given to them |
| Attribution.TopDownInKeys | src/test/java/it/unifi/hierarchical/analysisScalability/PyramisSamplerFromFilesLongEvents.java:531-610 | a top-down walk only adds to states that have an accumulator entry |
| Attribution.ChainWalkInKeys | src/test/java/it/unifi/hierarchical/analysisScalability/PyramisSamplerFromFilesLongEvents.java:590-607 | a leaf-chain walk only adds to states that have an accumulator entry |
| Attribution.ContinueInKeys | src/test/java/it/unifi/hierarchical/analysisScalability/PyramisSamplerFromFilesLongEvents.java:551-584 | the regions and successor chain of a composite within budget only add to states that have an entry |
| Attribution.RegionsInKeys | src/test/java/it/unifi/hierarchical/analysisScalability/PyramisSamplerFromFilesLongEvents.java:547-555 | the region walks of a composite only add to states that have an entry |
| Engine.Estimator.WalkChain | src/test/java/it/unifi/hierarchical/analysisScalability/PyramisSamplerFromFilesLongEvents.java:590-607 | the `while (remaining > 0)` loop leaves the accumulator as the chain walk's `add` calls do and reports whether it ended without an exception |
| Engine.Estimator.TopDownWalk | src/test/java/it/unifi/hierarchical/analysisScalability/PyramisSamplerFromFilesLongEvents.java:531-610 | `topDown` leaves the accumulator exactly as the `add` calls of the top-down walk do, and reports whether it ended without an exception |
| Engine.Estimator.WalkContinue | src/test/java/it/unifi/hierarchical/analysisScalability/PyramisSamplerFromFilesLongEvents.java:553-584 | the region recursion and successor loop of a composite within budget update the accumulator as that part of the walk specifies |
| Engine.Estimator.WalkRegions | src/test/java/it/unifi/hierarchical/analysisScalability/PyramisSamplerFromFilesLongEvents.java:547-555 | the loop over a composite's regions updates the accumulator as the walks of all its regions in order, stopping at the first exception |
| Engine.Estimator.WalkRegion | src/test/java/it/unifi/hierarchical/analysisScalability/PyramisSamplerFromFilesLongEvents.java:553-555 | one turn of the region loop either fails the whole loop or leaves exactly the remaining regions' walks to do |
| Engine.RegionsStep | src/test/java/it/unifi/hierarchical/analysisScalability/PyramisSamplerFromFilesLongEvents.java:547-555 | the walk of one region followed by the walks of the regions after it is the walk of them all |
| Engine.Estimator.WalkRoot | src/test/java/it/unifi/hierarchical/analysisScalability/PyramisSamplerFromFilesLongEvents.java:512-516 | the root gets its whole duration, then every root region is walked with it, and the accumulator ends as those `add` calls leave it |
| Engine.RootWalkInKeys | src/test/java/it/unifi/hierarchical/analysisScalability/PyramisSamplerFromFilesLongEvents.java:512-516 | the root attribution and its region walks only add to states with an entry |
| Engine.ReplicationInKeys | src/test/java/it/unifi/hierarchical/analysisScalability/PyramisSamplerFromFilesLongEvents.java:400-519 | a whole replication only adds to states with an entry |
| Engine.BatchInKeys | src/test/java/it/unifi/hierarchical/analysisScalability/PyramisSamplerFromFilesLongEvents.java:398-521 | a batch of replications only adds to states with an entry |
| Engine.ReplicationMonotone | src/test/java/it/unifi/hierarchical/analysisScalability/PyramisSamplerFromFilesLongEvents.java:400-519 | with nonnegative sampled draws, every attribution of a replication lies between 0 and the root's duration, and no accumulator entry goes down |
| Engine.BatchNonneg | src/test/java/it/unifi/hierarchical/analysisScalability/PyramisSamplerFromFilesLongEvents.java:398-521 | with nonnegative sampled draws, every `add` call of a batch has a nonnegative amount |
| Engine.BatchMonotone | src/test/java/it/unifi/hierarchical/analysisScalability/PyramisSamplerFromFilesLongEvents.java:393-525 | with nonnegative sampled draws, a whole batch only adds to states with an entry and lowers no accumulator entry |
| Engine.RecordedNonneg | src/test/java/it/unifi/hierarchical/analysisScalability/PyramisSamplerFromFilesLongEvents.java:507-511 | with nonnegative sampled draws, a recorded root duration is nonnegative |
| Engine.RecordingsNonneg | src/test/java/it/unifi/hierarchical/analysisScalability/PyramisSamplerFromFilesLongEvents.java:398-521 | with nonnegative sampled draws, every value a batch records is nonnegative |
| Engine.BufferNonneg | src/test/java/it/unifi/hierarchical/analysisScalability/PyramisSamplerFromFilesLongEvents.java:508-511 | with nonnegative sampled draws, a trace buffer holding only nonnegative values still does after a batch's recordings are appended up to capacity |
| Engine.Estimator.Replicate | src/test/java/it/unifi/hierarchical/analysisScalability/PyramisSamplerFromFilesLongEvents.java:400-519 | one replication: the accumulator ends as the replication's `add` calls leave it, and the buffer gains the root duration exactly when one was resolved and there is room |
| Engine.Estimator.NextReplication | src/test/java/it/unifi/hierarchical/analysisScalability/PyramisSamplerFromFilesLongEvents.java:398-521 | one turn of the replication loop leaves exactly the later replications to do, for both the accumulator and the buffer, or ends the batch on an exception |
| Engine.BatchStep | src/test/java/it/unifi/hierarchical/analysisScalability/PyramisSamplerFromFilesLongEvents.java:398-521 | one replication followed by the later replications has the effect of the batch from that replication on |
| Engine.RecordStep | src/test/java/it/unifi/hierarchical/analysisScalability/PyramisSamplerFromFilesLongEvents.java:508-511 | recording one replication and then the later ones fills the buffer as recording the batch from that replication on |
| Engine.Estimator.SamplerOut | src/test/java/it/unifi/hierarchical/analysisScalability/PyramisSamplerFromFilesLongEvents.java:393-525 | `samplerOut` returns 0 and leaves the accumulator as the `add` calls of all replications up to the first exception do; the buffer holds the recorded root durations up to its capacity, and its other slots are untouched |
| Resolver.InitialSamp | src/test/java/it/unifi/hierarchical/analysisScalability/PyramisSamplerFromFilesLongEvents.java:417-419 | before the leaf loop exactly the composites have a duration, all 0 |
| Resolver.InitComposites | src/test/java/it/unifi/hierarchical/analysisScalability/PyramisSamplerFromFilesLongEvents.java:417-419 | the initialisation loop builds that map |
| Resolver.RacePut | src/test/java/it/unifi/hierarchical/analysisScalability/PyramisSamplerFromFilesLongEvents.java:439-452 | of a leaf and its race companion, exactly one receives the sampled value and the other 0, chosen by the shared coin; no other duration changes |
| Resolver.ZeroCompanion | src/test/java/it/unifi/hierarchical/analysisScalability/PyramisSamplerFromFilesLongEvents.java:458-467 | at a chain step the companion from `doublesMap` (coin false) or `doublesMapFrom2` (coin true) gets duration 0, every other duration keeps its value and no other key appears; a state without companion leaves the map unchanged |
| Resolver.ChainDrawsMass | src/test/java/it/unifi/hierarchical/analysisScalability/PyramisSamplerFromFilesLongEvents.java:456-469 | the chain steps add exactly the sum of their draws to the owning region and touch no other region |
| Resolver.LeafStepMass | src/test/java/it/unifi/hierarchical/analysisScalability/PyramisSamplerFromFilesLongEvents.java:434-469 | one race pair adds exactly the sum of all its draws to its owning region (created at 0 if absent) and touches no other region |
| Resolver.LeafPhaseMass | src/test/java/it/unifi/hierarchical/analysisScalability/PyramisSamplerFromFilesLongEvents.java:422-472 | after the leaf loop the regions with an aggregate are exactly the owning regions, and each holds the sum of the draws of the leaves it owns |
| Resolver.RegionMassIgnoresCoin | src/test/java/it/unifi/hierarchical/analysisScalability/PyramisSamplerFromFilesLongEvents.java:414-472 | the region aggregates after the leaf loop do not depend on how the shared coin fell |
| Resolver.DrawPair | src/test/java/it/unifi/hierarchical/analysisScalability/PyramisSamplerFromFilesLongEvents.java:434-454 | one turn of the leaf loop produces exactly the specified resolution of that race pair |
| Resolver.DrawChain | src/test/java/it/unifi/hierarchical/analysisScalability/PyramisSamplerFromFilesLongEvents.java:456-469 | the chain loop produces exactly the specified chain steps, failing on a chain state without successors |
| Resolver.ResolveLeaves | src/test/java/it/unifi/hierarchical/analysisScalability/PyramisSamplerFromFilesLongEvents.java:417-472 | the initialisation and leaf loops produce exactly the specified leaf phase |
| Resolver.ScanBounds | src/test/java/it/unifi/hierarchical/analysisScalability/PyramisSamplerFromFilesLongEvents.java:479-485 | the scan fails exactly when some region has no aggregate; otherwise it yields the least of the start value and all aggregates and the greatest of the other start value and all aggregates, each attained by the start value or by some aggregate |
| Resolver.ScanRegions | src/test/java/it/unifi/hierarchical/analysisScalability/PyramisSamplerFromFilesLongEvents.java:479-485 | the loop over the first `parallelS` regions computes that scan |
| Resolver.JoinOneValue | src/test/java/it/unifi/hierarchical/analysisScalability/PyramisSamplerFromFilesLongEvents.java:478-499 | a composite's join fails exactly when a scanned region or the parent region lacks an aggregate; otherwise EXIT gives it the minimum of 100000 and its regions' aggregates and FINAL the maximum of 0 and them; a composite at depth > 0 adds that value to its parent region, and the root adds nothing |
| Resolver.JoinStep | src/test/java/it/unifi/hierarchical/analysisScalability/PyramisSamplerFromFilesLongEvents.java:478-499 | the body of the join for one composite computes that join |
| Resolver.LevelMembers | src/test/java/it/unifi/hierarchical/analysisScalability/PyramisSamplerFromFilesLongEvents.java:477-478 | one pass of the inner loop visits exactly the composites of the given depth |
| Resolver.JoinOrderMembers | src/test/java/it/unifi/hierarchical/analysisScalability/PyramisSamplerFromFilesLongEvents.java:476-478 | the join loop visits exactly the composites of depth -1 through `depthS - 1` |
| Resolver.JoinOrderDeepestFirst | src/test/java/it/unifi/hierarchical/analysisScalability/PyramisSamplerFromFilesLongEvents.java:476-478 | the join loop processes deeper composites before shallower ones |
| Resolver.LevelStep | src/test/java/it/unifi/hierarchical/analysisScalability/PyramisSamplerFromFilesLongEvents.java:477-478 | at each composite the inner loop joins it when its depth matches and passes over it otherwise |
| Resolver.JoinAt | src/test/java/it/unifi/hierarchical/analysisScalability/PyramisSamplerFromFilesLongEvents.java:477-502 | one turn of the inner loop either fails the join or leaves exactly the later composites of the level to join |
| Resolver.JoinLevel | src/test/java/it/unifi/hierarchical/analysisScalability/PyramisSamplerFromFilesLongEvents.java:477-503 | the inner loop joins the composites of depth `i - 1` in iteration order, stopping at the first failure |
| Resolver.JoinOrderStep | src/test/java/it/unifi/hierarchical/analysisScalability/PyramisSamplerFromFilesLongEvents.java:476-505 | one turn of the outer loop is the level of depth `i - 1` followed by the turns below it |
| Resolver.JoinComposites | src/test/java/it/unifi/hierarchical/analysisScalability/PyramisSamplerFromFilesLongEvents.java:476-505 | the two join loops together join the composites in the join order, stopping at the first failure |
| Resolver.ResolveReplication | src/test/java/it/unifi/hierarchical/analysisScalability/PyramisSamplerFromFilesLongEvents.java:400-505 | the resolution part of a replication produces exactly the specified leaf phase followed by the join |
| Resolver.ChainDrawsNonneg | src/test/java/it/unifi/hierarchical/analysisScalability/PyramisSamplerFromFilesLongEvents.java:456-469 | with nonnegative draws, the chain steps keep every duration and region aggregate nonnegative |
| Resolver.LeafStepNonneg | src/test/java/it/unifi/hierarchical/analysisScalability/PyramisSamplerFromFilesLongEvents.java:434-469 | with nonnegative draws, one race pair keeps every duration and region aggregate nonnegative |
| Resolver.LeafPhaseNonneg | src/test/java/it/unifi/hierarchical/analysisScalability/PyramisSamplerFromFilesLongEvents.java:422-472 | with nonnegative draws, the leaf loop leaves every duration and region aggregate nonnegative |
| Resolver.JoinOneNonneg | src/test/java/it/unifi/hierarchical/analysisScalability/PyramisSamplerFromFilesLongEvents.java:478-499 | a composite's join keeps every duration and region aggregate nonnegative |
| Resolver.JoinAllNonneg | src/test/java/it/unifi/hierarchical/analysisScalability/PyramisSamplerFromFilesLongEvents.java:476-505 | the join loops keep every duration and region aggregate nonnegative |
| Resolver.ResolveNonneg | src/test/java/it/unifi/hierarchical/analysisScalability/PyramisSamplerFromFilesLongEvents.java:400-505 | with nonnegative sampled draws, a successful resolution has only nonnegative durations and region aggregates |
| Conservation.ChainDrawsPlaces | src/test/java/it/unifi/hierarchical/analysisScalability/PyramisSamplerFromFilesLongEvents.java:455-469 | the chain steps leave draw `j` on the `j`-th first successor after the winning state and keep every duration of a set that neither a step nor a zeroed companion touches |
| Conservation.LeafStepPlaces | src/test/java/it/unifi/hierarchical/analysisScalability/PyramisSamplerFromFilesLongEvents.java:434-469 | after one race pair the leaf holds the first draw (coin false) or 0 (coin true), its companion the other, and the states along the winning half hold the later draws in order |
| Conservation.PlaceholderPicksDraw | src/test/java/it/unifi/hierarchical/analysisScalability/PyramisSamplerFromFilesLongEvents.java:535-541 | of a placeholder's two successors, in either order, the one holding a positive draw is picked over the one holding 0 |
| Conservation.TopDownAtLeaf | src/test/java/it/unifi/hierarchical/analysisScalability/PyramisSamplerFromFilesLongEvents.java:544-607 | when the effective start state is not a composite, `topDown` is exactly the `while (remaining > 0)` chain walk from it |
| Conservation.ChainWalkExact | src/test/java/it/unifi/hierarchical/analysisScalability/PyramisSamplerFromFilesLongEvents.java:590-607 | along a chain of states holding exactly the draws `vs` and then a Final/Exit state, a budget that covers their sum gives a walk that ends normally and attributes exactly that sum |
| Conservation.LeafRaceConserved | src/test/java/it/unifi/hierarchical/analysisScalability/PyramisSamplerFromFilesLongEvents.java:531-607 | mass conservation for one race pair: with a positive first draw, a budget that covers the draws, keyed states and companions that stay off the winning half, the walk from the placeholder over the durations that pair's resolution leaves ends normally and attributes exactly what the pair added to its region's aggregate |
| Convergence.IsChanged | src/test/java/it/unifi/hierarchical/analysisScalability/PyramisSamplerFromFilesLongEvents.java:375-391 | returns true exactly when some state's normalised value moved, relative to its new normalised value, by more than 1e-4 since the snapshot |
| Convergence.MovedIsRelative | src/test/java/it/unifi/hierarchical/analysisScalability/PyramisSamplerFromFilesLongEvents.java:380 | for a nonzero new estimate the test fires exactly when the change exceeds 1e-4 times the estimate's own size |
| Convergence.ScaledNotChanged | src/test/java/it/unifi/hierarchical/analysisScalability/PyramisSamplerFromFilesLongEvents.java:375-391 | if every entry, the root included, was scaled by the same nonzero factor since the snapshot, no change is reported |
| Convergence.SnapshotNotChanged | src/test/java/it/unifi/hierarchical/analysisScalability/PyramisSamplerFromFilesLongEvents.java:375-391 | comparing against a snapshot that still equals the accumulator, as right after `deepCopy`, reports no change |

## Left out

- `main` and `sample` (the experiment sweep, the wall-clock deadline, file names, `PrintWriter` output): I/O and timing. The loop condition "while changed" is represented only by `IsChanged`.
- The samplers (`ExpolSampler`, `DetSampler`, `ErlExpSampler`, `ExponErlangSampler`) and the choice between the `exp` and `exp10` sampler at lines 426-430: they read files or call classes not shown. The values `getSample()` returns are an input: `draws[i]` holds the draws for leaf `i`, in call order.
- `Math.random()` at line 414: the shared coin is a parameter, one per replication.
- Console printing at line 383: output only.
- `HSMP_JournalLongEvents` and the classes `State`, `CompositeState`, `Region` are not part of this model. The topology and the index sets they build are an input. `WF` states the structural facts the engine relies on: keys defined where they are read, a rank that makes nesting and chains finite. Hash-set iteration order is given by the order of the `leaves` and `comps` sequences.
- IEEE doubles: durations and accumulator values are exact reals. Rounding, overflow to infinity and NaN are not modelled, except in `Moved`, which gives `0/0` (false) and `x/0` (true) their IEEE comparison results.
- Convergence.IsChanged: requires both root values nonzero and every current key present in the snapshot, because the source then divides by zero in floating point or unboxes a missing value. Those runs are not modelled.
- Engine.Estimator.SamplerOut: the number of replications `RUNS_AT_A_TIME` is the length of the coin sequence, and `leaves` and `samplers` are replaced by the draws.
- Resolver.ZeroCompanion: when a chain state has no companion the source stores 0 under the `null` key, which nothing reads. The model leaves the map unchanged.
- Resolver.JoinOneValue: the policy is one of FINAL and EXIT. A third region type, for which the source leaves the composite at 0 and adds nothing, is not modelled.
- Conservation.LeafRaceConserved: conservation is stated for one race pair, on the durations its own resolution leaves. That later leaves and the joins leave those durations alone, and that the placeholder's successors, the chain shape and the companion maps are laid out as the lemma assumes, are properties of how the topology is built. The model takes the topology as an input and does not carry them.
- Conservation.LeafRaceConserved: the first draw must be positive. When it is exactly 0, both halves hold 0 and the `> 0.` test at line 538 always picks the second successor. For one of the two coin outcomes that is the half that did not receive the draws; the walk then attributes none of the later draws, which is less than the pair added whenever one of them is positive.
- Sampled durations are taken to be nonnegative wherever a lemma needs it (`NonnegDraws`, `AllNonneg`): the samplers draw durations, and the source does not check their sign.
- The EXIT running minimum starts at 100000 (line 479). A composite all of whose regions take longer therefore gets 100000. The model keeps this, and `JoinOneValue` states the bound.
