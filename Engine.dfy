/** The sampler engine's mutable state and the methods that update it: the accumulator
    `probabs` and its snapshot `probabsOld`, the bounded trace buffer `arrSave`/`indexSave`,
    and the replication loop of `samplerOut` with its top-down walk. */
module Engine {
  import opened Topology
  import opened Accumulator
  import opened Attribution
  import opened Resolver

  /** What follows the resolution of one replication: the root gets its whole duration, then
      every root region is walked top-down with that duration. */
  function RootWalk(t: Topo, samp: map<StateName, real>, keys: set<StateName>): Walk
    requires WF(t) && t.root in samp
  {
    CompositeRegionsOk(t, t.root);
    var tte := samp[t.root];
    Seq(Attr(keys, t.root, tte), Regions(t, samp, keys, t.kind[t.root].regions, tte, t.rank[t.root]))
  }

  /** One replication: resolve the durations, then walk from the root; a missing root duration
      is the source's NullPointerException. */
  function Replication(t: Topo, pol: Policy, keys: set<StateName>, coin: bool,
                       draws: seq<seq<real>>): Walk
    requires WF(t) && DrawsFit(t, draws)
  {
    match Resolve(t, pol, coin, draws)
    case None => Fail
    case Some(res) => if t.root !in res.samp then Fail else RootWalk(t, res.samp, keys)
  }

  /** The value a replication records in the trace buffer: the root's duration, once the
      resolution got that far. */
  function Recorded(t: Topo, pol: Policy, coin: bool, draws: seq<seq<real>>): (r: Option<real>)
    requires WF(t) && DrawsFit(t, draws)
    ensures r.Some? <==> Resolve(t, pol, coin, draws).Some? && t.root in Resolve(t, pol, coin, draws).value.samp
    ensures r.Some? ==> r.value == Resolve(t, pol, coin, draws).value.samp[t.root]
  {
    match Resolve(t, pol, coin, draws)
    case None => None
    case Some(res) => if t.root in res.samp then Some(res.samp[t.root]) else None
  }

  ghost predicate AllFit(t: Topo, draws: seq<seq<seq<real>>>) {
    forall k :: 0 <= k < |draws| ==> DrawsFit(t, draws[k])
  }

  /** Replications `k` onwards of a batch, one per coin, stopping at the first that throws. */
  function Batch(t: Topo, pol: Policy, keys: set<StateName>, coins: seq<bool>,
                 draws: seq<seq<seq<real>>>, k: nat): Walk
    requires WF(t) && |coins| == |draws| && AllFit(t, draws) && k <= |coins|
    decreases |coins| - k
  {
    if k == |coins| then Done
    else Seq(Replication(t, pol, keys, coins[k], draws[k]), Batch(t, pol, keys, coins, draws, k + 1))
  }

  /** The root durations replications `k` onwards record, in order, up to the one that
      throws. */
  function Recordings(t: Topo, pol: Policy, keys: set<StateName>, coins: seq<bool>,
                      draws: seq<seq<seq<real>>>, k: nat): seq<real>
    requires WF(t) && |coins| == |draws| && AllFit(t, draws) && k <= |coins|
    decreases |coins| - k
  {
    if k == |coins| then []
    else
      var here := match Recorded(t, pol, coins[k], draws[k])
        case None => []
        case Some(x) => [x];
      if Replication(t, pol, keys, coins[k], draws[k]).ok
      then here + Recordings(t, pol, keys, coins, draws, k + 1)
      else here
  }

  /** What a buffer of `cap` slots holds after appending `xs` to contents `c`: everything up
      to the capacity, the rest dropped. */
  function Capped(c: seq<real>, xs: seq<real>, cap: nat): (r: seq<real>)
    requires |c| <= cap
    ensures |r| <= cap && r <= c + xs
    ensures |c + xs| <= cap ==> r == c + xs
    ensures |c + xs| > cap ==> |r| == cap
  {
    if |c + xs| <= cap then c + xs else (c + xs)[..cap]
  }

  /** The buffer contents after an optional recording: appended while there is room. */
  function Push(c: seq<real>, r: Option<real>, cap: nat): (c': seq<real>)
    requires |c| <= cap
    ensures |c'| <= cap && c <= c'
    ensures r.None? || |c| == cap ==> c' == c
    ensures r.Some? && |c| < cap ==> c' == c + [r.value]
  {
    match r
    case None => c
    case Some(x) => if |c| < cap then c + [x] else c
  }

  lemma CappedStep(c: seq<real>, x: real, xs: seq<real>, cap: nat)
    requires |c| <= cap
    ensures var c' := if |c| < cap then c + [x] else c;
      |c'| <= cap && Capped(c', xs, cap) == Capped(c, [x] + xs, cap)
  {
    if |c| < cap {
      assert c + [x] + xs == c + ([x] + xs);
    } else {
      assert (c + xs)[..cap] == c;
      assert (c + ([x] + xs))[..cap] == c;
    }
  }

  lemma RootWalkInKeys(t: Topo, samp: map<StateName, real>, keys: set<StateName>)
    requires WF(t) && t.root in samp
    ensures InKeys(RootWalk(t, samp, keys).trace, keys)
  {
    CompositeRegionsOk(t, t.root);
    var tte := samp[t.root];
    RegionsInKeys(t, samp, keys, t.kind[t.root].regions, tte, t.rank[t.root]);
    InKeysAppend(Attr(keys, t.root, tte).trace,
                 Regions(t, samp, keys, t.kind[t.root].regions, tte, t.rank[t.root]).trace, keys);
  }

  lemma ReplicationInKeys(t: Topo, pol: Policy, keys: set<StateName>, coin: bool,
                          draws: seq<seq<real>>)
    requires WF(t) && DrawsFit(t, draws)
    ensures InKeys(Replication(t, pol, keys, coin, draws).trace, keys)
  {
    match Resolve(t, pol, coin, draws)
    case None =>
    case Some(res) =>
      if t.root in res.samp {
        RootWalkInKeys(t, res.samp, keys);
      }
  }

  lemma {:induction false} BatchInKeys(t: Topo, pol: Policy, keys: set<StateName>, coins: seq<bool>,
                                       draws: seq<seq<seq<real>>>, k: nat)
    requires WF(t) && |coins| == |draws| && AllFit(t, draws) && k <= |coins|
    ensures InKeys(Batch(t, pol, keys, coins, draws, k).trace, keys)
    decreases |coins| - k
  {
    if k < |coins| {
      ReplicationInKeys(t, pol, keys, coins[k], draws[k]);
      BatchInKeys(t, pol, keys, coins, draws, k + 1);
      InKeysAppend(Replication(t, pol, keys, coins[k], draws[k]).trace,
                   Batch(t, pol, keys, coins, draws, k + 1).trace, keys);
    }
  }

  ghost predicate AllNonneg(draws: seq<seq<seq<real>>>) {
    forall k :: 0 <= k < |draws| ==> NonnegDraws(draws[k])
  }

  /** Monotonicity of one replication: with nonnegative draws every attribution lies between 0
      and the root's duration, and no accumulator entry goes down. */
  lemma ReplicationMonotone(t: Topo, pol: Policy, m: map<StateName, real>, coin: bool,
                            draws: seq<seq<real>>)
    requires WF(t) && DrawsFit(t, draws) && NonnegDraws(draws)
    ensures var w := Replication(t, pol, m.Keys, coin, draws);
      && AllIn(w.trace, m) && Nonneg(w.trace)
      && (Resolve(t, pol, coin, draws).Some? && t.root in Resolve(t, pol, coin, draws).value.samp ==>
            Bounded(w.trace, Resolve(t, pol, coin, draws).value.samp[t.root]))
      && forall k :: k in m ==> Apply(m, w.trace)[k] >= m[k]
  {
    var w := Replication(t, pol, m.Keys, coin, draws);
    ReplicationInKeys(t, pol, m.Keys, coin, draws);
    ResolveNonneg(t, pol, coin, draws);
    match Resolve(t, pol, coin, draws)
    case None =>
    case Some(res) =>
      if t.root in res.samp {
        CompositeRegionsOk(t, t.root);
        var tte := res.samp[t.root];
        var rs := t.kind[t.root].regions;
        RegionsBounded(t, res.samp, m.Keys, rs, tte, t.rank[t.root]);
        BoundedAppend(Attr(m.Keys, t.root, tte).trace, Regions(t, res.samp, m.Keys, rs, tte, t.rank[t.root]).trace, tte);
        assert Bounded(w.trace, tte);
      }
    ApplyMonotone(m, w.trace);
  }

  lemma {:induction false} BatchNonneg(t: Topo, pol: Policy, keys: set<StateName>, coins: seq<bool>,
                                       draws: seq<seq<seq<real>>>, k: nat)
    requires WF(t) && |coins| == |draws| && AllFit(t, draws) && AllNonneg(draws) && k <= |coins|
    ensures Nonneg(Batch(t, pol, keys, coins, draws, k).trace)
    decreases |coins| - k
  {
    if k < |coins| {
      var m := map s | s in keys :: 0.0;
      assert m.Keys == keys;
      ReplicationMonotone(t, pol, m, coins[k], draws[k]);
      BatchNonneg(t, pol, keys, coins, draws, k + 1);
      NonnegAppend(Replication(t, pol, keys, coins[k], draws[k]).trace,
                   Batch(t, pol, keys, coins, draws, k + 1).trace);
    }
  }

  /** Monotonicity across a batch: with nonnegative draws, the replications of `samplerOut`
      never lower any accumulator entry, whether the batch runs to the end or stops early. */
  lemma BatchMonotone(t: Topo, pol: Policy, m: map<StateName, real>, coins: seq<bool>,
                      draws: seq<seq<seq<real>>>)
    requires WF(t) && |coins| == |draws| && AllFit(t, draws) && AllNonneg(draws)
    ensures var w := Batch(t, pol, m.Keys, coins, draws, 0);
      AllIn(w.trace, m) && forall k :: k in m ==> Apply(m, w.trace)[k] >= m[k]
  {
    var w := Batch(t, pol, m.Keys, coins, draws, 0);
    BatchInKeys(t, pol, m.Keys, coins, draws, 0);
    BatchNonneg(t, pol, m.Keys, coins, draws, 0);
    ApplyMonotone(m, w.trace);
  }

  /** With nonnegative draws the root's duration a replication records is nonnegative. */
  lemma RecordedNonneg(t: Topo, pol: Policy, coin: bool, draws: seq<seq<real>>)
    requires WF(t) && DrawsFit(t, draws) && NonnegDraws(draws)
    ensures Recorded(t, pol, coin, draws).Some? ==> Recorded(t, pol, coin, draws).value >= 0.0
  {
    ResolveNonneg(t, pol, coin, draws);
  }

  /** With nonnegative draws every value a batch records in the trace buffer is nonnegative. */
  lemma {:induction false} RecordingsNonneg(t: Topo, pol: Policy, keys: set<StateName>, coins: seq<bool>,
                                            draws: seq<seq<seq<real>>>, k: nat)
    requires WF(t) && |coins| == |draws| && AllFit(t, draws) && AllNonneg(draws) && k <= |coins|
    ensures forall j :: 0 <= j < |Recordings(t, pol, keys, coins, draws, k)| ==>
      Recordings(t, pol, keys, coins, draws, k)[j] >= 0.0
    decreases |coins| - k
  {
    if k < |coins| {
      RecordedNonneg(t, pol, coins[k], draws[k]);
      RecordingsNonneg(t, pol, keys, coins, draws, k + 1);
      var here := match Recorded(t, pol, coins[k], draws[k])
        case None => []
        case Some(x) => [x];
      var rest := Recordings(t, pol, keys, coins, draws, k + 1);
      if Replication(t, pol, keys, coins[k], draws[k]).ok {
        assert Recordings(t, pol, keys, coins, draws, k) == here + rest;
        assert forall j :: |here| <= j < |here + rest| ==> (here + rest)[j] == rest[j - |here|];
      } else {
        assert Recordings(t, pol, keys, coins, draws, k) == here;
      }
    }
  }

  /** With nonnegative draws, a trace buffer holding only nonnegative values still does
      after a batch's recordings are appended up to its capacity. */
  lemma BufferNonneg(t: Topo, pol: Policy, keys: set<StateName>, coins: seq<bool>,
                     draws: seq<seq<seq<real>>>, c: seq<real>, cap: nat)
    requires WF(t) && |coins| == |draws| && AllFit(t, draws) && AllNonneg(draws)
    requires |c| <= cap && forall j :: 0 <= j < |c| ==> c[j] >= 0.0
    ensures forall j :: 0 <= j < |Capped(c, Recordings(t, pol, keys, coins, draws, 0), cap)| ==>
      Capped(c, Recordings(t, pol, keys, coins, draws, 0), cap)[j] >= 0.0
  {
    var xs := Recordings(t, pol, keys, coins, draws, 0);
    RecordingsNonneg(t, pol, keys, coins, draws, 0);
    var r := Capped(c, xs, cap);
    forall j | 0 <= j < |r|
      ensures r[j] >= 0.0
    {
      assert r[j] == (c + xs)[j];
      if j >= |c| {
        assert (c + xs)[j] == xs[j - |c|];
      }
    }
  }

  /** The bounded trace buffer `arrSave` with its write index `indexSave`. */
  class TraceBuffer {
    var arr: array<real>
    var index: nat

    ghost predicate Valid()
      reads this
    {
      index <= arr.Length
    }

    /** The values recorded so far. */
    ghost function Contents(): seq<real>
      reads this, arr
      requires Valid()
    {
      arr[..index]
    }

    /** `arrSave = new double[capacity]; indexSave = 0`. */
    constructor (capacity: nat)
      ensures Valid() && fresh(arr)
      ensures arr.Length == capacity && index == 0
      ensures forall i :: 0 <= i < capacity ==> arr[i] == 0.0
    {
      arr := new real[capacity](_ => 0.0);
      index := 0;
    }

    /** The slots from the write index on hold what `s` holds there. */
    ghost predicate TailIs(s: seq<real>)
      reads this, arr
    {
      Valid() && |s| == arr.Length && forall i :: index <= i < arr.Length ==> arr[i] == s[i]
    }

    /** `if (indexSave < arrSave.length) { arrSave[indexSave] = x; indexSave++; }`: records
        `x` while there is room, and changes nothing once the buffer is full. */
    method Save(x: real)
      requires Valid()
      modifies this, arr
      ensures Valid() && arr == old(arr)
      ensures old(index) < arr.Length ==>
        index == old(index) + 1 && arr[..] == old(arr[..])[old(index) := x]
      ensures old(index) >= arr.Length ==> index == old(index) && arr[..] == old(arr[..])
      ensures Contents() == if old(index) < arr.Length then old(Contents()) + [x] else old(Contents())
    {
      if index < arr.Length {
        arr[index] := x;
        index := index + 1;
      }
    }
  }

  /** The accumulator `probabs`, its per-batch snapshot `probabsOld`, and the trace buffer. */
  class Estimator {
    var probabs: map<StateName, real>
    var probabsOld: map<StateName, real>
    const buffer: TraceBuffer

    /** Every state starts at 0 and the root at 1; the snapshot starts empty. */
    constructor (states: set<StateName>, capacity: nat)
      ensures probabs.Keys == states + {RootName}
      ensures probabs[RootName] == 1.0
      ensures forall s :: s in states && s != RootName ==> probabs[s] == 0.0
      ensures probabsOld == map[]
      ensures fresh(buffer) && fresh(buffer.arr) && buffer.Valid()
      ensures buffer.arr.Length == capacity && buffer.index == 0
    {
      probabs := (map s | s in states :: 0.0)[RootName := 1.0];
      probabsOld := map[];
      buffer := new TraceBuffer(capacity);
    }

    /** `add(s, v, probabs)`: a missing key is the source's NullPointerException, reported as
        `ok == false` with nothing changed. */
    method Add(s: StateName, v: real) returns (ok: bool)
      modifies this`probabs
      ensures ok <==> s in old(probabs)
      ensures ok ==> probabs == Added(old(probabs), s, v)
      ensures !ok ==> probabs == old(probabs)
    {
      if s !in probabs {
        return false;
      }
      var d := v + probabs[s];
      probabs := probabs[s := d];
      return true;
    }

    /** `deepCopy(probabs, probabsOld)`: every current entry is copied into the snapshot,
        overwriting what was there; snapshot keys the accumulator lacks are kept. */
    method DeepCopy()
      modifies this`probabsOld
      ensures probabsOld == old(probabsOld) + probabs
      ensures probabs.Keys <= probabsOld.Keys
      ensures forall s :: s in probabs ==> probabsOld[s] == probabs[s]
    {
      var rest := probabs.Keys;
      while rest != {}
        invariant rest <= probabs.Keys
        invariant probabsOld == old(probabsOld) + (map s | s in probabs && s !in rest :: probabs[s])
        decreases |rest|
      {
        var s :| s in rest;
        probabsOld := probabsOld[s := probabs[s]];
        rest := rest - {s};
      }
      assert (map s | s in probabs && s !in rest :: probabs[s]) == probabs;
    }

    /** The chain loop `while (remaining > 0)` of `topDown`, starting at `win0`. */
    method WalkChain(t: Topo, samp: map<StateName, real>, win0: StateName, remaining0: real)
      returns (ok: bool)
      requires WF(t) && win0 in t.kind
      modifies this`probabs
      ensures var w := ChainWalk(t, samp, old(probabs).Keys, win0, remaining0);
        AllIn(w.trace, old(probabs)) && probabs == Apply(old(probabs), w.trace) && ok == w.ok
    {
      ghost var keys := probabs.Keys;
      ghost var w0 := ChainWalk(t, samp, keys, win0, remaining0);
      ChainWalkInKeys(t, samp, keys, win0, remaining0);
      var win, remaining := win0, remaining0;
      while remaining > 0.0
        invariant win in t.kind && probabs.Keys == keys
        invariant InKeys(ChainWalk(t, samp, keys, win, remaining).trace, keys)
        invariant Apply(probabs, ChainWalk(t, samp, keys, win, remaining).trace) == Apply(old(probabs), w0.trace)
        invariant ChainWalk(t, samp, keys, win, remaining).ok == w0.ok
        decreases t.rank[win]
      {
        if win !in samp {
          return false;
        }
        if samp[win] > remaining {
          ok := Add(win, remaining);
          return;
        }
        ok := Add(win, samp[win]);
        if !ok {
          return;
        }
        remaining := remaining - samp[win];
        var succ := t.next[win];
        if |succ| == 0 {
          return false;
        }
        if IsTerminal(t, succ[0]) {
          return true;
        }
        win := succ[0];
        ChainWalkInKeys(t, samp, keys, win, remaining);
      }
      return true;
    }

    /** `topDown(initQ, r, budget, samp, probabs)`. */
    method TopDownWalk(t: Topo, samp: map<StateName, real>, q: StateName, budget: real)
      returns (ok: bool)
      requires WF(t) && q in t.kind
      modifies this`probabs
      ensures var w := TopDown(t, samp, old(probabs).Keys, q, budget);
        AllIn(w.trace, old(probabs)) && probabs == Apply(old(probabs), w.trace) && ok == w.ok
      decreases t.rank[q], 3
    {
      ghost var keys := probabs.Keys;
      ghost var p0 := probabs;
      TopDownInKeys(t, samp, keys, q, budget);
      var eff := Effective(t, samp, q);
      if eff.None? {
        return false;
      }
      var init := eff.value;
      if !t.kind[init].Composite? {
        ok := WalkChain(t, samp, init, budget);
        return;
      }
      if init !in samp {
        return false;
      }
      CompositeRegionsOk(t, init);
      var rs := t.kind[init].regions;
      var d := samp[init];
      var amount := if d > budget then budget else d;
      ok := Add(init, amount);
      if !ok {
        return;
      }
      if d > budget {
        ok := WalkRegions(t, samp, rs, budget, t.rank[init]);
        ApplyAppend(p0, [Entry(init, budget)], Regions(t, samp, keys, rs, budget, t.rank[init]).trace);
      } else {
        ok := WalkContinue(t, samp, init, budget);
        ApplyAppend(p0, [Entry(init, d)], Continue(t, samp, keys, init, budget).trace);
      }
    }

    /** The rest of `topDown` for a composite that finishes within the budget: its regions
        with its own duration, then, when time is left, the chain from the winning successor. */
    method WalkContinue(t: Topo, samp: map<StateName, real>, init: StateName, budget: real)
      returns (ok: bool)
      requires WF(t) && init in t.kind && t.kind[init].Composite? && init in samp
      modifies this`probabs
      ensures var w := Continue(t, samp, old(probabs).Keys, init, budget);
        AllIn(w.trace, old(probabs)) && probabs == Apply(old(probabs), w.trace) && ok == w.ok
      decreases t.rank[init], 2
    {
      ghost var keys := probabs.Keys;
      ghost var p0 := probabs;
      ContinueInKeys(t, samp, keys, init, budget);
      CompositeRegionsOk(t, init);
      var rs := t.kind[init].regions;
      var d := samp[init];
      ghost var rw := Regions(t, samp, keys, rs, d, t.rank[init]);
      ok := WalkRegions(t, samp, rs, d, t.rank[init]);
      if !ok {
        return;
      }
      var remaining := budget - d;
      if !(remaining > 0.0) {
        assert rw.trace + [] == rw.trace;
        return true;
      }
      var w := Winner(t, samp, init);
      if w.None? {
        assert rw.trace + [] == rw.trace;
        return false;
      }
      ghost var cw := ChainWalk(t, samp, keys, w.value, remaining);
      ok := WalkChain(t, samp, w.value, remaining);
      RegionsInKeys(t, samp, keys, rs, d, t.rank[init]);
      ChainWalkInKeys(t, samp, keys, w.value, remaining);
      InKeysAppend(rw.trace, cw.trace, keys);
      ApplyAppend(p0, rw.trace, cw.trace);
    }

    /** `for (Region r1 : regions) topDown(r1.getInitialState(), r1, budget, samp, probabs)`. */
    method WalkRegions(t: Topo, samp: map<StateName, real>, rs: seq<RegionName>, budget: real,
                       ghost bound: nat)
      returns (ok: bool)
      requires WF(t) && RegionsOk(t, rs, bound)
      modifies this`probabs
      ensures var w := Regions(t, samp, old(probabs).Keys, rs, budget, bound);
        AllIn(w.trace, old(probabs)) && probabs == Apply(old(probabs), w.trace) && ok == w.ok
      decreases bound, 1
    {
      ghost var keys := probabs.Keys;
      ghost var w0 := Regions(t, samp, keys, rs, budget, bound);
      RegionsInKeys(t, samp, keys, rs, budget, bound);
      ghost var target := Apply(probabs, w0.trace);
      assert rs[0..] == rs;
      var k := 0;
      while k < |rs|
        invariant k <= |rs| && probabs.Keys == keys && RegionsOk(t, rs[k..], bound)
        invariant AllIn(Regions(t, samp, keys, rs[k..], budget, bound).trace, probabs)
        invariant Apply(probabs, Regions(t, samp, keys, rs[k..], budget, bound).trace) == target
        invariant Regions(t, samp, keys, rs[k..], budget, bound).ok == w0.ok
      {
        ok := WalkRegion(t, samp, rs, budget, bound, k);
        if !ok {
          return;
        }
        k := k + 1;
      }
      return true;
    }

    /** One turn of the region loop of `topDown`: the walk of region `rs[k]` from its initial
        state, which either fails the whole loop or leaves the regions after it to walk. */
    method WalkRegion(t: Topo, samp: map<StateName, real>, rs: seq<RegionName>, budget: real,
                      ghost bound: nat, k: nat)
      returns (ok: bool)
      requires WF(t) && k < |rs| && RegionsOk(t, rs[k..], bound)
      modifies this`probabs
      ensures probabs.Keys == old(probabs).Keys && RegionsOk(t, rs[k + 1..], bound)
      ensures var all := Regions(t, samp, old(probabs).Keys, rs[k..], budget, bound);
        var rest := Regions(t, samp, old(probabs).Keys, rs[k + 1..], budget, bound);
        && AllIn(all.trace, old(probabs))
        && (ok ==>
              && AllIn(rest.trace, probabs)
              && Apply(probabs, rest.trace) == Apply(old(probabs), all.trace) && rest.ok == all.ok)
        && (!ok ==> probabs == Apply(old(probabs), all.trace) && !all.ok)
      decreases bound, 0
    {
      RegionsStep(t, samp, rs, budget, bound, k, probabs);
      RegionsInKeys(t, samp, probabs.Keys, rs[k..], budget, bound);
      ok := TopDownWalk(t, samp, t.regionInit[rs[k]], budget);
    }

    /** `add(initial.getName(), timeToEnd, probabs)` followed by the top-down walk of every
        root region with `timeToEnd`. */
    method WalkRoot(t: Topo, samp: map<StateName, real>) returns (ok: bool)
      requires WF(t) && t.root in samp
      modifies this`probabs
      ensures var w := RootWalk(t, samp, old(probabs).Keys);
        AllIn(w.trace, old(probabs)) && probabs == Apply(old(probabs), w.trace) && ok == w.ok
    {
      ghost var keys := probabs.Keys;
      ghost var p0 := probabs;
      RootWalkInKeys(t, samp, keys);
      var timeToEnd := samp[t.root];
      ok := Add(t.root, timeToEnd);
      if !ok {
        return;
      }
      CompositeRegionsOk(t, t.root);
      ok := WalkRegions(t, samp, t.kind[t.root].regions, timeToEnd, t.rank[t.root]);
      ApplyAppend(p0, [Entry(t.root, timeToEnd)],
                  Regions(t, samp, keys, t.kind[t.root].regions, timeToEnd, t.rank[t.root]).trace);
    }

    /** One replication of `samplerOut`'s loop: resolve the durations, record the root's
        duration in the buffer, then attribute it from the root down. */
    method Replicate(t: Topo, pol: Policy, coin: bool, draws: seq<seq<real>>) returns (ok: bool)
      requires WF(t) && DrawsFit(t, draws) && buffer.Valid()
      modifies this`probabs, buffer, buffer.arr
      ensures var w := Replication(t, pol, old(probabs).Keys, coin, draws);
        AllIn(w.trace, old(probabs)) && probabs == Apply(old(probabs), w.trace) && ok == w.ok
      ensures buffer.Valid() && buffer.arr == old(buffer.arr)
      ensures buffer.Contents() == Push(old(buffer.Contents()), Recorded(t, pol, coin, draws), buffer.arr.Length)
      ensures forall i :: buffer.index <= i < buffer.arr.Length ==> buffer.arr[i] == old(buffer.arr[i])
    {
      ReplicationInKeys(t, pol, probabs.Keys, coin, draws);
      var res := ResolveReplication(t, pol, coin, draws);
      if res.None? || t.root !in res.value.samp {
        return false;
      }
      var samp := res.value.samp;
      buffer.Save(samp[t.root]);
      ok := WalkRoot(t, samp);
    }

    /** Replication `k` of a batch, stated as the step it makes from the suffix of the batch
        starting at `k` to the suffix after it: what is still to be added to the accumulator
        and recorded in the buffer shrinks by this replication, or the batch ends here. */
    method NextReplication(t: Topo, pol: Policy, coins: seq<bool>, draws: seq<seq<seq<real>>>, k: nat,
                           ghost keys: set<StateName>, ghost target: map<StateName, real>, ghost ok0: bool,
                           ghost recorded: seq<real>, ghost arr0: seq<real>)
      returns (ok: bool)
      requires WF(t) && |coins| == |draws| && AllFit(t, draws) && k < |coins| && buffer.Valid()
      requires BatchAhead(t, pol, keys, coins, draws, k, probabs, target, ok0)
      requires RecordsAhead(t, pol, keys, coins, draws, k, buffer.Contents(), buffer.arr.Length, recorded)
      requires buffer.TailIs(arr0)
      modifies this`probabs, buffer, buffer.arr
      ensures buffer.Valid() && buffer.arr == old(buffer.arr) && buffer.TailIs(arr0)
      ensures ok ==>
        && BatchAhead(t, pol, keys, coins, draws, k + 1, probabs, target, ok0)
        && RecordsAhead(t, pol, keys, coins, draws, k + 1, buffer.Contents(), buffer.arr.Length, recorded)
      ensures !ok ==> probabs == target && !ok0 && buffer.Contents() == recorded
    {
      BatchStep(t, pol, coins, draws, k, probabs);
      RecordStep(t, pol, keys, coins, draws, k, buffer.Contents(), buffer.arr.Length);
      ok := Replicate(t, pol, coins[k], draws[k]);
    }

    /** `samplerOut`: one replication per coin (RUNS_AT_A_TIME of them), stopping at the first
        that throws. Returns the source's counter `c`, which nothing increments. */
    method SamplerOut(t: Topo, pol: Policy, coins: seq<bool>, draws: seq<seq<seq<real>>>)
      returns (c: int, ok: bool)
      requires WF(t) && |coins| == |draws| && AllFit(t, draws) && buffer.Valid()
      modifies this`probabs, buffer, buffer.arr
      ensures c == 0
      ensures var w := Batch(t, pol, old(probabs).Keys, coins, draws, 0);
        AllIn(w.trace, old(probabs)) && probabs == Apply(old(probabs), w.trace) && ok == w.ok
      ensures buffer.Valid() && buffer.arr == old(buffer.arr)
      ensures buffer.Contents() ==
        Capped(old(buffer.Contents()), Recordings(t, pol, old(probabs).Keys, coins, draws, 0), buffer.arr.Length)
      ensures forall i :: buffer.index <= i < buffer.arr.Length ==> buffer.arr[i] == old(buffer.arr[i])
    {
      ghost var keys := probabs.Keys;
      ghost var w0 := Batch(t, pol, keys, coins, draws, 0);
      BatchInKeys(t, pol, keys, coins, draws, 0);
      ghost var target := Apply(probabs, w0.trace);
      ghost var recorded := Capped(buffer.Contents(), Recordings(t, pol, keys, coins, draws, 0), buffer.arr.Length);
      ghost var arr0 := buffer.arr[..];
      c := 0;
      var k := 0;
      while k < |coins|
        invariant k <= |coins| && buffer.Valid() && buffer.arr == old(buffer.arr)
        invariant BatchAhead(t, pol, keys, coins, draws, k, probabs, target, w0.ok)
        invariant RecordsAhead(t, pol, keys, coins, draws, k, buffer.Contents(), buffer.arr.Length, recorded)
        invariant buffer.TailIs(arr0)
      {
        ok := NextReplication(t, pol, coins, draws, k, keys, target, w0.ok, recorded, arr0);
        if !ok {
          return;
        }
        k := k + 1;
      }
      assert buffer.Contents() + [] == buffer.Contents();
      ok := true;
    }
  }

  /** The accumulator invariant of the replication loop: adding what the replications from `k`
      on attribute to `p` gives `target`, and they run to the end exactly when `ok0`. */
  ghost predicate BatchAhead(t: Topo, pol: Policy, keys: set<StateName>, coins: seq<bool>,
                             draws: seq<seq<seq<real>>>, k: nat, p: map<StateName, real>,
                             target: map<StateName, real>, ok0: bool)
    requires WF(t) && |coins| == |draws| && AllFit(t, draws) && k <= |coins|
  {
    && p.Keys == keys
    && AllIn(Batch(t, pol, keys, coins, draws, k).trace, p)
    && Apply(p, Batch(t, pol, keys, coins, draws, k).trace) == target
    && Batch(t, pol, keys, coins, draws, k).ok == ok0
  }

  /** The buffer invariant of the replication loop: recording what the replications from `k`
      on record into contents `c` gives `recorded`. */
  ghost predicate RecordsAhead(t: Topo, pol: Policy, keys: set<StateName>, coins: seq<bool>,
                               draws: seq<seq<seq<real>>>, k: nat, c: seq<real>, cap: nat,
                               recorded: seq<real>)
    requires WF(t) && |coins| == |draws| && AllFit(t, draws) && k <= |coins| && |c| <= cap
  {
    Capped(c, Recordings(t, pol, keys, coins, draws, k), cap) == recorded
  }

  /** How one region's walk moves the accumulator invariant of `WalkRegions`. */
  lemma RegionsStep(t: Topo, samp: map<StateName, real>, rs: seq<RegionName>, budget: real,
                    bound: nat, k: nat, m: map<StateName, real>)
    requires WF(t) && k < |rs| && RegionsOk(t, rs[k..], bound)
    ensures RegionsOk(t, rs[k + 1..], bound)
    ensures rs[k] in t.regionInit && t.regionInit[rs[k]] in t.kind && t.rank[t.regionInit[rs[k]]] < bound
    ensures var here := TopDown(t, samp, m.Keys, t.regionInit[rs[k]], budget);
      var rest := Regions(t, samp, m.Keys, rs[k + 1..], budget, bound);
      var all := Regions(t, samp, m.Keys, rs[k..], budget, bound);
      && AllIn(here.trace, m)
      && (here.ok ==>
            && AllIn(rest.trace, Apply(m, here.trace))
            && Apply(Apply(m, here.trace), rest.trace) == Apply(m, all.trace) && rest.ok == all.ok)
      && (!here.ok ==> Apply(m, here.trace) == Apply(m, all.trace) && !all.ok)
  {
    var keys := m.Keys;
    assert rs[k..][0] == rs[k] && rs[k..][1..] == rs[k + 1..];
    var here := TopDown(t, samp, keys, t.regionInit[rs[k]], budget);
    var rest := Regions(t, samp, keys, rs[k + 1..], budget, bound);
    TopDownInKeys(t, samp, keys, t.regionInit[rs[k]], budget);
    if here.ok {
      RegionsInKeys(t, samp, keys, rs[k + 1..], budget, bound);
      InKeysAppend(here.trace, rest.trace, keys);
      ApplyAppend(m, here.trace, rest.trace);
    }
  }

  /** How one replication moves the accumulator invariant of `SamplerOut`. */
  lemma BatchStep(t: Topo, pol: Policy, coins: seq<bool>, draws: seq<seq<seq<real>>>, k: nat,
                  m: map<StateName, real>)
    requires WF(t) && |coins| == |draws| && AllFit(t, draws) && k < |coins|
    ensures var here := Replication(t, pol, m.Keys, coins[k], draws[k]);
      var rest := Batch(t, pol, m.Keys, coins, draws, k + 1);
      var all := Batch(t, pol, m.Keys, coins, draws, k);
      && AllIn(here.trace, m)
      && (here.ok ==>
            && AllIn(rest.trace, Apply(m, here.trace))
            && Apply(Apply(m, here.trace), rest.trace) == Apply(m, all.trace) && rest.ok == all.ok)
      && (!here.ok ==> Apply(m, here.trace) == Apply(m, all.trace) && !all.ok)
  {
    var keys := m.Keys;
    var here := Replication(t, pol, keys, coins[k], draws[k]);
    var rest := Batch(t, pol, keys, coins, draws, k + 1);
    ReplicationInKeys(t, pol, keys, coins[k], draws[k]);
    if here.ok {
      BatchInKeys(t, pol, keys, coins, draws, k + 1);
      InKeysAppend(here.trace, rest.trace, keys);
      ApplyAppend(m, here.trace, rest.trace);
    }
  }

  /** How one replication's recording moves the buffer-contents invariant of `SamplerOut`. */
  lemma RecordStep(t: Topo, pol: Policy, keys: set<StateName>, coins: seq<bool>,
                   draws: seq<seq<seq<real>>>, k: nat, c: seq<real>, cap: nat)
    requires WF(t) && |coins| == |draws| && AllFit(t, draws) && k < |coins| && |c| <= cap
    ensures var c' := Push(c, Recorded(t, pol, coins[k], draws[k]), cap);
      var rest := Recordings(t, pol, keys, coins, draws, k + 1);
      && (Replication(t, pol, keys, coins[k], draws[k]).ok ==>
            Capped(c', rest, cap) == Capped(c, Recordings(t, pol, keys, coins, draws, k), cap))
      && (!Replication(t, pol, keys, coins[k], draws[k]).ok ==>
            c' == Capped(c, Recordings(t, pol, keys, coins, draws, k), cap))
  {
    var rest := Recordings(t, pol, keys, coins, draws, k + 1);
    match Recorded(t, pol, coins[k], draws[k])
    case None =>
      assert c + [] == c;
    case Some(x) =>
      CappedStep(c, x, rest, cap);
      CappedStep(c, x, [], cap);
      assert [x] + [] == [x];
      assert (if |c| < cap then c + [x] else c) + [] == (if |c| < cap then c + [x] else c);
  }
}
