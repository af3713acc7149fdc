/** Race resolution and join aggregation for one replication (the first half of
    `samplerOut`): every leaf race pair gets its sampled durations, every region the sum of
    what was drawn in it, and every composite the min (EXIT) or max (FINAL) of its regions,
    deepest composites first. */
module Resolver {
  import opened Topology

  /** The replication-scoped maps `samp` (state -> resolved duration) and `regSamp`
      (region -> aggregated duration). */
  datatype Resolved = Resolved(samp: map<StateName, real>, reg: map<RegionName, real>)

  /** Starting value of the EXIT running minimum. */
  const ExitSentinel: real := 100000.0

  function Sum(vs: seq<real>): real
    decreases |vs|
  {
    if vs == [] then 0.0 else vs[0] + Sum(vs[1..])
  }

  /** The companion zeroed at a chain step: from `doublesMap` when the coin is false and from
      `doublesMapFrom2` when it is true. A state with no companion makes the source put under
      the null key, which nothing reads; the model leaves the map as it is. */
  function ZeroCompanion(t: Topo, coin: bool, samp: map<StateName, real>, x: StateName): (r: map<StateName, real>)
    ensures var m := if coin then t.doublesFrom2 else t.doubles;
      && (x in m ==> r.Keys == samp.Keys + {m[x]} && r[m[x]] == 0.0
                     && forall k :: k in samp && k != m[x] ==> r[k] == samp[k])
      && (x !in m ==> r == samp)
  {
    var m := if coin then t.doublesFrom2 else t.doubles;
    if x in m then samp[m[x] := 0.0] else samp
  }

  /** The first draw of a race pair: the coin decides which half receives `v`; the other half
      receives 0 (the half written second wins if the two names coincide). */
  function RacePut(samp: map<StateName, real>, s: StateName, d: StateName, coin: bool, v: real): (r: map<StateName, real>)
    ensures r.Keys == samp.Keys + {s, d}
    ensures r[d] == if coin then v else 0.0
    ensures s != d ==> r[s] == if coin then 0.0 else v
    ensures forall k :: k in samp && k != s && k != d ==> r[k] == samp[k]
  {
    if !coin then samp[s := v][d := 0.0] else samp[s := 0.0][d := v]
  }

  /** Chain steps 1 .. sequenceS-1 of one race pair: follow the first successor, give it the
      next draw, zero its companion, add the draw to region `r`. A chain state without
      successors is the source's IndexOutOfBoundsException. */
  function ChainDraws(t: Topo, coin: bool, win: StateName, vs: seq<real>, r: RegionName,
                      st: Resolved): Option<Resolved>
    requires Chains(t) && win in t.kind && r in st.reg
    decreases |vs|
  {
    if vs == [] then Some(st)
    else if |t.next[win]| == 0 then None
    else
      var w := t.next[win][0];
      ChainDraws(t, coin, w, vs[1..], r,
        Resolved(ZeroCompanion(t, coin, st.samp[w := vs[0]], w), st.reg[r := st.reg[r] + vs[0]]))
  }

  /** All draws of the race pair of leaf `s` (one loop turn over `expS`). */
  function LeafStep(t: Topo, coin: bool, s: StateName, vs: seq<real>, st: Resolved): Option<Resolved>
    requires Chains(t) && s in t.kind && s in t.regionOf && s in t.doubles && t.doubles[s] in t.kind
    requires |vs| >= 1
  {
    var r := t.regionOf[s];
    var reg := if r in st.reg then st.reg else st.reg[r := 0.0];
    var d := t.doubles[s];
    ChainDraws(t, coin, if coin then d else s, vs[1..], r,
      Resolved(RacePut(st.samp, s, d, coin, vs[0]), reg[r := reg[r] + vs[0]]))
  }

  ghost predicate DrawsFit(t: Topo, draws: seq<seq<real>>) {
    |draws| == |t.leaves| && forall i :: 0 <= i < |draws| ==> |draws[i]| == ChainLen(t)
  }

  /** The leaf loop over `expS` from position `i` on; `draws[i]` are the values the sampler
      returns for leaf `i`, in call order. */
  function LeafPhase(t: Topo, coin: bool, draws: seq<seq<real>>, i: nat, st: Resolved): Option<Resolved>
    requires Chains(t) && LeafFacts(t) && DrawsFit(t, draws) && i <= |t.leaves|
    decreases |t.leaves| - i
  {
    if i == |t.leaves| then Some(st)
    else match LeafStep(t, coin, t.leaves[i], draws[i], st)
      case None => None
      case Some(st') => LeafPhase(t, coin, draws, i + 1, st')
  }

  /** Sum of the draws of the leaves from position `i` on that region `r` owns. */
  function DrawnIn(t: Topo, draws: seq<seq<real>>, r: RegionName, i: nat): real
    requires Chains(t) && LeafFacts(t) && DrawsFit(t, draws) && i <= |t.leaves|
    decreases |t.leaves| - i
  {
    if i == |t.leaves| then 0.0
    else (if t.regionOf[t.leaves[i]] == r then Sum(draws[i]) else 0.0) + DrawnIn(t, draws, r, i + 1)
  }

  /** Regions owning some leaf from position `i` on. */
  function OwningRegions(t: Topo, i: nat): set<RegionName>
    requires Chains(t) && LeafFacts(t) && i <= |t.leaves|
    decreases |t.leaves| - i
  {
    if i == |t.leaves| then {} else {t.regionOf[t.leaves[i]]} + OwningRegions(t, i + 1)
  }

  function Get0(m: map<RegionName, real>, r: RegionName): real {
    if r in m then m[r] else 0.0
  }

  /** Each chain step adds its draw to the owning region and touches no other region. */
  lemma {:induction false} ChainDrawsMass(t: Topo, coin: bool, win: StateName, vs: seq<real>,
                                          r: RegionName, st: Resolved)
    requires Chains(t) && win in t.kind && r in st.reg
    ensures ChainDraws(t, coin, win, vs, r, st).Some? ==>
      ChainDraws(t, coin, win, vs, r, st).value.reg == st.reg[r := st.reg[r] + Sum(vs)]
    decreases |vs|
  {
    if vs != [] && |t.next[win]| > 0 {
      var w := t.next[win][0];
      var st' := Resolved(ZeroCompanion(t, coin, st.samp[w := vs[0]], w), st.reg[r := st.reg[r] + vs[0]]);
      ChainDrawsMass(t, coin, w, vs[1..], r, st');
    }
  }

  /** One race pair adds the sum of its draws to its owning region and touches no other. */
  lemma {:induction false} LeafStepMass(t: Topo, coin: bool, s: StateName, vs: seq<real>, st: Resolved)
    requires Chains(t) && s in t.kind && s in t.regionOf && s in t.doubles && t.doubles[s] in t.kind
    requires |vs| >= 1
    ensures var x := LeafStep(t, coin, s, vs, st);
      x.Some? ==> x.value.reg == st.reg[t.regionOf[s] := Get0(st.reg, t.regionOf[s]) + Sum(vs)]
  {
    var r := t.regionOf[s];
    var reg := if r in st.reg then st.reg else st.reg[r := 0.0];
    var st1 := Resolved(RacePut(st.samp, s, t.doubles[s], coin, vs[0]), reg[r := reg[r] + vs[0]]);
    var win := if coin then t.doubles[s] else s;
    var x := LeafStep(t, coin, s, vs, st);
    assert x == ChainDraws(t, coin, win, vs[1..], r, st1);
    ChainDrawsMass(t, coin, win, vs[1..], r, st1);
    if x.Some? {
      assert x.value.reg == st1.reg[r := st1.reg[r] + Sum(vs[1..])];
      assert st1.reg[r] == Get0(st.reg, r) + vs[0];
      assert Sum(vs) == vs[0] + Sum(vs[1..]);
      assert x.value.reg == st.reg[r := Get0(st.reg, r) + Sum(vs)];
    }
  }

  /** Region mass after the leaf loop: every region's aggregate is its starting value plus the
      sum of all draws of the leaves it owns, and the regions touched are exactly those. */
  lemma {:induction false} LeafPhaseMass(t: Topo, coin: bool, draws: seq<seq<real>>, i: nat, st: Resolved)
    requires Chains(t) && LeafFacts(t) && DrawsFit(t, draws) && i <= |t.leaves|
    ensures var res := LeafPhase(t, coin, draws, i, st);
      res.Some? ==>
        && res.value.reg.Keys == st.reg.Keys + OwningRegions(t, i)
        && forall r :: r in res.value.reg ==> res.value.reg[r] == Get0(st.reg, r) + DrawnIn(t, draws, r, i)
    decreases |t.leaves| - i
  {
    if i < |t.leaves| {
      var s := t.leaves[i];
      LeafStepMass(t, coin, s, draws[i], st);
      match LeafStep(t, coin, s, draws[i], st)
      case None =>
      case Some(st') =>
        LeafPhaseMass(t, coin, draws, i + 1, st');
        var res := LeafPhase(t, coin, draws, i + 1, st');
        if res.Some? {
          forall r | r in res.value.reg
            ensures res.value.reg[r] == Get0(st.reg, r) + DrawnIn(t, draws, r, i)
          {
            assert res.value.reg[r] == Get0(st'.reg, r) + DrawnIn(t, draws, r, i + 1);
          }
        }
    }
  }

  /** The region aggregates do not depend on which way the shared coin fell. */
  lemma RegionMassIgnoresCoin(t: Topo, draws: seq<seq<real>>, st: Resolved)
    requires Chains(t) && LeafFacts(t) && DrawsFit(t, draws)
    requires LeafPhase(t, false, draws, 0, st).Some? && LeafPhase(t, true, draws, 0, st).Some?
    ensures LeafPhase(t, false, draws, 0, st).value.reg == LeafPhase(t, true, draws, 0, st).value.reg
  {
    LeafPhaseMass(t, false, draws, 0, st);
    LeafPhaseMass(t, true, draws, 0, st);
  }

  // ---------------------------------------------------------------- join phase

  /** The running min/max scan over regions `rs`; a region with no aggregate is the source's
      NullPointerException. */
  function Scan(rs: seq<RegionName>, reg: map<RegionName, real>, lo: real, hi: real): Option<(real, real)>
    decreases |rs|
  {
    if rs == [] then Some((lo, hi))
    else if rs[0] !in reg then None
    else
      var v := reg[rs[0]];
      Scan(rs[1..], reg, if v < lo then v else lo, if v > hi then v else hi)
  }

  /** The scan yields the least of the start value and the region aggregates, and the
      greatest of the other start value and the aggregates; it fails exactly when some region
      has no aggregate. */
  lemma {:induction false} ScanBounds(rs: seq<RegionName>, reg: map<RegionName, real>, lo: real, hi: real)
    ensures Scan(rs, reg, lo, hi).Some? <==> forall j :: 0 <= j < |rs| ==> rs[j] in reg
    ensures Scan(rs, reg, lo, hi).Some? ==>
      var (mn, mx) := Scan(rs, reg, lo, hi).value;
      && mn <= lo && (forall j :: 0 <= j < |rs| ==> mn <= reg[rs[j]])
      && (mn == lo || exists j :: 0 <= j < |rs| && mn == reg[rs[j]])
      && mx >= hi && (forall j :: 0 <= j < |rs| ==> mx >= reg[rs[j]])
      && (mx == hi || exists j :: 0 <= j < |rs| && mx == reg[rs[j]])
    decreases |rs|
  {
    if rs != [] && rs[0] in reg {
      var v := reg[rs[0]];
      var lo' := if v < lo then v else lo;
      var hi' := if v > hi then v else hi;
      ScanBounds(rs[1..], reg, lo', hi');
      assert forall j :: 1 <= j < |rs| ==> rs[j] == rs[1..][j - 1];
      if Scan(rs, reg, lo, hi).Some? {
        var (mn, mx) := Scan(rs, reg, lo, hi).value;
        if mn != lo && mn != v {
          var j :| 0 <= j < |rs[1..]| && mn == reg[rs[1..][j]];
          assert mn == reg[rs[j + 1]];
        }
        if mx != hi && mx != v {
          var j :| 0 <= j < |rs[1..]| && mx == reg[rs[1..][j]];
          assert mx == reg[rs[j + 1]];
        }
      }
    }
  }

  /** The regions scanned for composite `s`: the first `parallelS` of them. */
  function ScannedRegions(t: Topo, s: StateName): (rs: seq<RegionName>)
    requires s in t.kind && t.kind[s].Composite? && |t.kind[s].regions| >= t.parallelS
    ensures |rs| == if t.parallelS > 0 then t.parallelS else 0
  {
    if t.parallelS <= 0 then [] else t.kind[s].regions[..t.parallelS]
  }

  ghost predicate IsComp(t: Topo, s: StateName) {
    && s in t.kind && t.kind[s].Composite? && s in t.depth
    && |t.kind[s].regions| >= t.parallelS && (t.depth[s] > 0 ==> s in t.regionOf)
  }

  lemma CompsAreComps(t: Topo, i: int)
    requires CompFacts(t) && 0 <= i < |t.comps|
    ensures IsComp(t, t.comps[i])
  {
  }

  /** One composite of the join loop: the min (EXIT) or max (FINAL) of its regions'
      aggregates, added to the owning region when the composite is below the root. */
  function JoinOne(t: Topo, pol: Policy, s: StateName, st: Resolved): Option<Resolved>
    requires IsComp(t, s)
  {
    match Scan(ScannedRegions(t, s), st.reg, ExitSentinel, 0.0)
    case None => None
    case Some((lo, hi)) =>
      var v := if pol == Final then hi else lo;
      var samp := st.samp[s := v];
      if t.depth[s] > 0 then
        var p := t.regionOf[s];
        if p !in st.reg then None else Some(Resolved(samp, st.reg[p := st.reg[p] + v]))
      else Some(Resolved(samp, st.reg))
  }

  /** What one composite gets: it fails exactly when a scanned region has no aggregate or the
      owning region of a non-root composite has none; otherwise its value is the least of the
      EXIT sentinel and its regions' aggregates (EXIT) or the greatest of 0 and them (FINAL),
      nothing else in `samp` changes, and only the owning region's aggregate grows, by that
      value. */
  lemma JoinOneValue(t: Topo, pol: Policy, s: StateName, st: Resolved)
    requires IsComp(t, s)
    ensures var rs := ScannedRegions(t, s);
      JoinOne(t, pol, s, st).Some? <==>
        (forall j :: 0 <= j < |rs| ==> rs[j] in st.reg) && (t.depth[s] > 0 ==> t.regionOf[s] in st.reg)
    ensures var rs := ScannedRegions(t, s);
      JoinOne(t, pol, s, st).Some? ==>
        var res := JoinOne(t, pol, s, st).value;
        && s in res.samp
        && var v := res.samp[s];
        && res.samp == st.samp[s := v]
        && (pol == Exit ==>
              && v <= ExitSentinel && (forall j :: 0 <= j < |rs| ==> v <= st.reg[rs[j]])
              && (v == ExitSentinel || exists j :: 0 <= j < |rs| && v == st.reg[rs[j]]))
        && (pol == Final ==>
              && v >= 0.0 && (forall j :: 0 <= j < |rs| ==> v >= st.reg[rs[j]])
              && (v == 0.0 || exists j :: 0 <= j < |rs| && v == st.reg[rs[j]]))
        && (t.depth[s] > 0 ==> res.reg == st.reg[t.regionOf[s] := st.reg[t.regionOf[s]] + v])
        && (t.depth[s] <= 0 ==> res.reg == st.reg)
  {
    ScanBounds(ScannedRegions(t, s), st.reg, ExitSentinel, 0.0);
  }

  /** Composites from position `k` on whose depth is `d`, in iteration order. */
  function Level(t: Topo, d: int, k: nat): seq<StateName>
    requires CompFacts(t) && k <= |t.comps|
    decreases |t.comps| - k
  {
    if k == |t.comps| then []
    else (if t.depth[t.comps[k]] == d then [t.comps[k]] else []) + Level(t, d, k + 1)
  }

  /** The order in which the join loop `for i = depthS downto 0` visits composites: at turn
      `i`, those of depth `i - 1`. */
  function JoinOrder(t: Topo, i: int): seq<StateName>
    requires CompFacts(t)
    decreases if i < 0 then 0 else i + 1
  {
    if i < 0 then [] else Level(t, i - 1, 0) + JoinOrder(t, i - 1)
  }

  lemma {:induction false} LevelComps(t: Topo, d: int, k: nat)
    requires CompFacts(t) && k <= |t.comps|
    ensures AllComps(t, Level(t, d, k))
    decreases |t.comps| - k
  {
    if k < |t.comps| {
      LevelComps(t, d, k + 1);
      CompsAreComps(t, k);
    }
  }

  lemma {:induction false} LevelMembers(t: Topo, d: int, k: nat)
    requires CompFacts(t) && k <= |t.comps|
    ensures forall x :: x in Level(t, d, k) <==> x in t.comps[k..] && t.depth[x] == d
    decreases |t.comps| - k
  {
    if k < |t.comps| {
      LevelMembers(t, d, k + 1);
      assert t.comps[k..] == [t.comps[k]] + t.comps[k + 1..];
    }
  }

  lemma {:induction false} JoinOrderComps(t: Topo, i: int)
    requires CompFacts(t)
    ensures AllComps(t, JoinOrder(t, i))
    decreases if i < 0 then 0 else i + 1
  {
    if i >= 0 {
      var lv := Level(t, i - 1, 0);
      var rest := JoinOrder(t, i - 1);
      LevelComps(t, i - 1, 0);
      JoinOrderComps(t, i - 1);
      var o := lv + rest;
      assert forall j :: |lv| <= j < |o| ==> o[j] == rest[j - |lv|];
    }
  }

  /** The join loop visits exactly the composites of depth -1 .. i-1. */
  lemma {:induction false} JoinOrderMembers(t: Topo, i: int)
    requires CompFacts(t)
    ensures forall x :: x in JoinOrder(t, i) <==> x in t.comps && -1 <= t.depth[x] <= i - 1
    decreases if i < 0 then 0 else i + 1
  {
    if i >= 0 {
      LevelMembers(t, i - 1, 0);
      JoinOrderMembers(t, i - 1);
      assert t.comps[0..] == t.comps;
    }
  }

  ghost predicate DeepestFirst(t: Topo, o: seq<StateName>) {
    forall p, q :: 0 <= p < q < |o| && o[p] in t.depth && o[q] in t.depth ==>
      t.depth[o[p]] >= t.depth[o[q]]
  }

  /** The join loop processes deeper composites before shallower ones. */
  lemma {:induction false} JoinOrderDeepestFirst(t: Topo, i: int)
    requires CompFacts(t)
    ensures DeepestFirst(t, JoinOrder(t, i))
    decreases if i < 0 then 0 else i + 1
  {
    if i >= 0 {
      var lv := Level(t, i - 1, 0);
      var rest := JoinOrder(t, i - 1);
      LevelMembers(t, i - 1, 0);
      JoinOrderMembers(t, i - 1);
      JoinOrderDeepestFirst(t, i - 1);
      var o := lv + rest;
      forall p, q | 0 <= p < q < |o| && o[p] in t.depth && o[q] in t.depth
        ensures t.depth[o[p]] >= t.depth[o[q]]
      {
        if q < |lv| {
          assert o[p] == lv[p] && o[q] == lv[q] && lv[p] in lv && lv[q] in lv;
        } else if p < |lv| {
          assert o[p] == lv[p] && lv[p] in lv;
          assert o[q] == rest[q - |lv|] && rest[q - |lv|] in rest;
        } else {
          assert o[p] == rest[p - |lv|] && o[q] == rest[q - |lv|];
        }
      }
    }
  }

  ghost predicate AllComps(t: Topo, order: seq<StateName>) {
    forall j :: 0 <= j < |order| ==> IsComp(t, order[j])
  }

  /** `JoinOne` over `order`, stopping at the first failure. */
  function JoinAll(t: Topo, pol: Policy, order: seq<StateName>, st: Resolved): Option<Resolved>
    requires AllComps(t, order)
    decreases |order|
  {
    if order == [] then Some(st)
    else match JoinOne(t, pol, order[0], st)
      case None => None
      case Some(st') => JoinAll(t, pol, order[1..], st')
  }

  lemma {:induction false} JoinAllAppend(t: Topo, pol: Policy, a: seq<StateName>, b: seq<StateName>, st: Resolved)
    requires AllComps(t, a) && AllComps(t, b)
    ensures AllComps(t, a + b)
    ensures JoinAll(t, pol, a + b, st) ==
      match JoinAll(t, pol, a, st)
      case None => None
      case Some(st') => JoinAll(t, pol, b, st')
    decreases |a|
  {
    assert forall j :: |a| <= j < |a + b| ==> (a + b)[j] == b[j - |a|];
    if a == [] {
      assert a + b == b;
    } else {
      assert (a + b)[1..] == a[1..] + b;
      match JoinOne(t, pol, a[0], st)
      case None =>
      case Some(st') => JoinAllAppend(t, pol, a[1..], b, st');
    }
  }

  /** `samp` before the leaf loop: every composite at 0. */
  function InitialSamp(t: Topo): (m: map<StateName, real>)
    ensures forall s :: s in m <==> s in t.comps
    ensures forall s :: s in m ==> m[s] == 0.0
  {
    map s | s in t.comps :: 0.0
  }

  /** One replication's resolution: the leaf loop, then the join loop. */
  function Resolve(t: Topo, pol: Policy, coin: bool, draws: seq<seq<real>>): Option<Resolved>
    requires WF(t) && DrawsFit(t, draws)
  {
    JoinOrderComps(t, t.depthS);
    match LeafPhase(t, coin, draws, 0, Resolved(InitialSamp(t), map[]))
    case None => None
    case Some(st) => JoinAll(t, pol, JoinOrder(t, t.depthS), st)
  }

  // ---------------------------------------------------------------- nonnegativity

  /** Every value the samplers return is nonnegative (they sample durations). */
  ghost predicate NonnegDraws(draws: seq<seq<real>>) {
    forall i, q :: 0 <= i < |draws| && 0 <= q < |draws[i]| ==> draws[i][q] >= 0.0
  }

  ghost predicate NonnegState(st: Resolved) {
    && (forall x :: x in st.samp ==> st.samp[x] >= 0.0)
    && (forall r :: r in st.reg ==> st.reg[r] >= 0.0)
  }

  lemma {:induction false} ChainDrawsNonneg(t: Topo, coin: bool, win: StateName, vs: seq<real>,
                                            r: RegionName, st: Resolved)
    requires Chains(t) && win in t.kind && r in st.reg && NonnegState(st)
    requires forall q :: 0 <= q < |vs| ==> vs[q] >= 0.0
    ensures ChainDraws(t, coin, win, vs, r, st).Some? ==> NonnegState(ChainDraws(t, coin, win, vs, r, st).value)
    decreases |vs|
  {
    if vs != [] && |t.next[win]| > 0 {
      var w := t.next[win][0];
      var st' := Resolved(ZeroCompanion(t, coin, st.samp[w := vs[0]], w), st.reg[r := st.reg[r] + vs[0]]);
      assert NonnegState(st');
      assert forall q :: 0 <= q < |vs[1..]| ==> vs[1..][q] == vs[q + 1];
      ChainDrawsNonneg(t, coin, w, vs[1..], r, st');
    }
  }

  lemma LeafStepNonneg(t: Topo, coin: bool, s: StateName, vs: seq<real>, st: Resolved)
    requires Chains(t) && s in t.kind && s in t.regionOf && s in t.doubles && t.doubles[s] in t.kind
    requires |vs| >= 1 && NonnegState(st) && forall q :: 0 <= q < |vs| ==> vs[q] >= 0.0
    ensures LeafStep(t, coin, s, vs, st).Some? ==> NonnegState(LeafStep(t, coin, s, vs, st).value)
  {
    var r := t.regionOf[s];
    var reg := if r in st.reg then st.reg else st.reg[r := 0.0];
    var st1 := Resolved(RacePut(st.samp, s, t.doubles[s], coin, vs[0]), reg[r := reg[r] + vs[0]]);
    assert NonnegState(st1);
    assert forall q :: 0 <= q < |vs[1..]| ==> vs[1..][q] == vs[q + 1];
    ChainDrawsNonneg(t, coin, if coin then t.doubles[s] else s, vs[1..], r, st1);
  }

  lemma {:induction false} LeafPhaseNonneg(t: Topo, coin: bool, draws: seq<seq<real>>, i: nat, st: Resolved)
    requires Chains(t) && LeafFacts(t) && DrawsFit(t, draws) && i <= |t.leaves|
    requires NonnegDraws(draws) && NonnegState(st)
    ensures LeafPhase(t, coin, draws, i, st).Some? ==> NonnegState(LeafPhase(t, coin, draws, i, st).value)
    decreases |t.leaves| - i
  {
    if i < |t.leaves| {
      LeafStepNonneg(t, coin, t.leaves[i], draws[i], st);
      match LeafStep(t, coin, t.leaves[i], draws[i], st)
      case None =>
      case Some(st') => LeafPhaseNonneg(t, coin, draws, i + 1, st');
    }
  }

  lemma JoinOneNonneg(t: Topo, pol: Policy, s: StateName, st: Resolved)
    requires IsComp(t, s) && NonnegState(st)
    ensures JoinOne(t, pol, s, st).Some? ==> NonnegState(JoinOne(t, pol, s, st).value)
  {
    JoinOneValue(t, pol, s, st);
  }

  lemma {:induction false} JoinAllNonneg(t: Topo, pol: Policy, order: seq<StateName>, st: Resolved)
    requires AllComps(t, order) && NonnegState(st)
    ensures JoinAll(t, pol, order, st).Some? ==> NonnegState(JoinAll(t, pol, order, st).value)
    decreases |order|
  {
    if order != [] {
      JoinOneNonneg(t, pol, order[0], st);
      match JoinOne(t, pol, order[0], st)
      case None =>
      case Some(st') => JoinAllNonneg(t, pol, order[1..], st');
    }
  }

  /** Nonnegative draws resolve to nonnegative durations and region aggregates: a race pair
      hands out draws and zeros, and a join takes a minimum or maximum of aggregates (or its
      start value 100000 or 0) and adds it to another aggregate. */
  lemma ResolveNonneg(t: Topo, pol: Policy, coin: bool, draws: seq<seq<real>>)
    requires WF(t) && DrawsFit(t, draws) && NonnegDraws(draws)
    ensures Resolve(t, pol, coin, draws).Some? ==> NonnegState(Resolve(t, pol, coin, draws).value)
  {
    var st0 := Resolved(InitialSamp(t), map[]);
    LeafPhaseNonneg(t, coin, draws, 0, st0);
    JoinOrderComps(t, t.depthS);
    match LeafPhase(t, coin, draws, 0, st0)
    case None =>
    case Some(st) => JoinAllNonneg(t, pol, JoinOrder(t, t.depthS), st);
  }

  // ---------------------------------------------------------------- the loops of samplerOut

  /** `for (State s : compS) samp.put(s, 0.0)`. */
  method InitComposites(t: Topo) returns (samp: map<StateName, real>)
    ensures samp == InitialSamp(t)
  {
    samp := map[];
    var k := 0;
    while k < |t.comps|
      invariant 0 <= k <= |t.comps|
      invariant forall x :: x in samp <==> x in t.comps[..k]
      invariant forall x :: x in samp ==> samp[x] == 0.0
    {
      assert t.comps[..k + 1] == t.comps[..k] + [t.comps[k]];
      samp := samp[t.comps[k] := 0.0];
      k := k + 1;
    }
    assert t.comps[..k] == t.comps;
  }

  /** One turn of the leaf loop: the race pair of `s` and its chain, all drawn into the
      region that owns `s`. */
  method DrawPair(t: Topo, coin: bool, s: StateName, vs: seq<real>, st: Resolved) returns (res: Option<Resolved>)
    requires Chains(t) && s in t.kind && s in t.regionOf && s in t.doubles && t.doubles[s] in t.kind
    requires |vs| == ChainLen(t)
    ensures res == LeafStep(t, coin, s, vs, st)
  {
    var samp, reg := st.samp, st.reg;
    var rparent := t.regionOf[s];
    if rparent !in reg {
      reg := reg[rparent := 0.0];
    }
    var doub := t.doubles[s];
    var win: StateName;
    var v: real;
    if !coin {
      v := vs[0];
      samp := samp[s := v];
      samp := samp[doub := 0.0];
      win := s;
    } else {
      v := vs[0];
      samp := samp[s := 0.0];
      samp := samp[doub := v];
      win := doub;
    }
    reg := reg[rparent := reg[rparent] + v];
    res := DrawChain(t, coin, win, vs[1..], rparent, Resolved(samp, reg));
  }

  /** The chain loop `for (q = 1; q < sequenceS; q++)` of one race pair: each step moves to the
      first successor, gives it the next draw, zeroes its companion and adds the draw to
      region `r`. */
  method DrawChain(t: Topo, coin: bool, win0: StateName, vs: seq<real>, r: RegionName, st: Resolved)
    returns (res: Option<Resolved>)
    requires Chains(t) && win0 in t.kind && r in st.reg
    ensures res == ChainDraws(t, coin, win0, vs, r, st)
  {
    ghost var target := ChainDraws(t, coin, win0, vs, r, st);
    var win, samp, reg := win0, st.samp, st.reg;
    var q := 0;
    assert vs[0..] == vs;
    while q < |vs|
      invariant q <= |vs| && win in t.kind && r in reg
      invariant target == ChainDraws(t, coin, win, vs[q..], r, Resolved(samp, reg))
    {
      if |t.next[win]| == 0 {
        return None;
      }
      win := t.next[win][0];
      var v := vs[q];
      samp := samp[win := v];
      var companions := if coin then t.doublesFrom2 else t.doubles;
      if win in companions {
        samp := samp[companions[win] := 0.0];
      }
      reg := reg[r := reg[r] + v];
      assert vs[q..][1..] == vs[q + 1..];
      q := q + 1;
    }
    assert vs[q..] == [];
    res := Some(Resolved(samp, reg));
  }

  /** The leaf loop of `samplerOut`: `samp` starts with every composite at 0, then each race
      pair in `expS` order gets its draws, each draw also added to the owning region. */
  method ResolveLeaves(t: Topo, coin: bool, draws: seq<seq<real>>) returns (res: Option<Resolved>)
    requires Chains(t) && LeafFacts(t) && DrawsFit(t, draws)
    ensures res == LeafPhase(t, coin, draws, 0, Resolved(InitialSamp(t), map[]))
  {
    var samp := InitComposites(t);
    var st := Resolved(samp, map[]);
    var i := 0;
    while i < |t.leaves|
      invariant 0 <= i <= |t.leaves|
      invariant LeafPhase(t, coin, draws, 0, Resolved(InitialSamp(t), map[])) == LeafPhase(t, coin, draws, i, st)
    {
      var next := DrawPair(t, coin, t.leaves[i], draws[i], st);
      if next.None? {
        return None;
      }
      st := next.value;
      i := i + 1;
    }
    res := Some(st);
  }

  /** The scan `for (r = 0; r < parallelS; r++)` of one composite's region aggregates, with
      the running minimum starting at the EXIT sentinel and the running maximum at 0. */
  method ScanRegions(t: Topo, s: StateName, reg: map<RegionName, real>) returns (res: Option<(real, real)>)
    requires IsComp(t, s)
    ensures res == Scan(ScannedRegions(t, s), reg, ExitSentinel, 0.0)
  {
    ghost var rs := ScannedRegions(t, s);
    var min := ExitSentinel;
    var max := 0.0;
    var r := 0;
    while r < t.parallelS
      invariant 0 <= r <= |rs|
      invariant Scan(rs, reg, ExitSentinel, 0.0) == Scan(rs[r..], reg, min, max)
    {
      var region := t.kind[s].regions[r];
      assert region == rs[r..][0];
      if region !in reg {
        return None;
      }
      var val := reg[region];
      assert rs[r..][1..] == rs[r + 1..];
      if val < min {
        min := val;
      }
      if val > max {
        max := val;
      }
      r := r + 1;
    }
    assert rs[r..] == [];
    res := Some((min, max));
  }

  /** One composite of the join loop (`JoinOne`). */
  method JoinStep(t: Topo, pol: Policy, s: StateName, st: Resolved) returns (res: Option<Resolved>)
    requires IsComp(t, s)
    ensures res == JoinOne(t, pol, s, st)
  {
    var samp, reg := st.samp, st.reg;
    var scanned := ScanRegions(t, s, reg);
    if scanned.None? {
      return None;
    }
    var (lo, hi) := scanned.value;
    var v := if pol == Final then hi else lo;
    samp := samp[s := v];
    if t.depth[s] > 0 {
      var p := t.regionOf[s];
      if p !in reg {
        return None;
      }
      reg := reg[p := reg[p] + v];
    }
    res := Some(Resolved(samp, reg));
  }

  /** The composites of depth `i - 1`, in `compS` order (the inner loop of the join). */
  method JoinLevel(t: Topo, pol: Policy, i: int, st0: Resolved) returns (res: Option<Resolved>)
    requires CompFacts(t)
    ensures AllComps(t, Level(t, i - 1, 0))
    ensures res == JoinAll(t, pol, Level(t, i - 1, 0), st0)
  {
    LevelComps(t, i - 1, 0);
    ghost var target := JoinAll(t, pol, Level(t, i - 1, 0), st0);
    var st := st0;
    var k := 0;
    while k < |t.comps|
      invariant 0 <= k <= |t.comps|
      invariant AllComps(t, Level(t, i - 1, k))
      invariant target == JoinAll(t, pol, Level(t, i - 1, k), st)
    {
      var next := JoinAt(t, pol, i - 1, k, st);
      if next.None? {
        return None;
      }
      st := next.value;
      k := k + 1;
    }
    res := Some(st);
  }

  /** One turn of the inner join loop: composite `comps[k]` is joined when its depth is `d`
      and passed over otherwise. */
  method JoinAt(t: Topo, pol: Policy, d: int, k: nat, st: Resolved) returns (res: Option<Resolved>)
    requires CompFacts(t) && k < |t.comps|
    ensures AllComps(t, Level(t, d, k)) && AllComps(t, Level(t, d, k + 1))
    ensures res.None? ==> JoinAll(t, pol, Level(t, d, k), st).None?
    ensures res.Some? ==> JoinAll(t, pol, Level(t, d, k), st) == JoinAll(t, pol, Level(t, d, k + 1), res.value)
  {
    LevelStep(t, pol, d, k, st);
    var s := t.comps[k];
    if t.depth[s] == d {
      res := JoinStep(t, pol, s, st);
    } else {
      res := Some(st);
    }
  }

  /** One composite of the inner join loop: joined when it has depth `d`, skipped otherwise. */
  lemma LevelStep(t: Topo, pol: Policy, d: int, k: nat, st: Resolved)
    requires CompFacts(t) && k < |t.comps|
    ensures IsComp(t, t.comps[k]) && AllComps(t, Level(t, d, k)) && AllComps(t, Level(t, d, k + 1))
    ensures JoinAll(t, pol, Level(t, d, k), st) ==
      if t.depth[t.comps[k]] == d then
        match JoinOne(t, pol, t.comps[k], st)
        case None => None
        case Some(st') => JoinAll(t, pol, Level(t, d, k + 1), st')
      else JoinAll(t, pol, Level(t, d, k + 1), st)
  {
    LevelComps(t, d, k);
    LevelComps(t, d, k + 1);
    CompsAreComps(t, k);
    var s := t.comps[k];
    if t.depth[s] == d {
      assert Level(t, d, k) == [s] + Level(t, d, k + 1);
      assert ([s] + Level(t, d, k + 1))[1..] == Level(t, d, k + 1);
    } else {
      assert Level(t, d, k) == Level(t, d, k + 1);
    }
  }

  /** The join loop: for `i` from `depthS` down to 0, every composite of depth `i - 1` gets
      the min (EXIT) or max (FINAL) of its regions, and a non-root composite adds it to its
      owning region. */
  method JoinComposites(t: Topo, pol: Policy, st0: Resolved) returns (res: Option<Resolved>)
    requires CompFacts(t)
    ensures AllComps(t, JoinOrder(t, t.depthS))
    ensures res == JoinAll(t, pol, JoinOrder(t, t.depthS), st0)
  {
    JoinOrderComps(t, t.depthS);
    var st := st0;
    var i := t.depthS;
    while i >= 0
      invariant AllComps(t, JoinOrder(t, i))
      invariant JoinAll(t, pol, JoinOrder(t, t.depthS), st0) == JoinAll(t, pol, JoinOrder(t, i), st)
      decreases i + 1
    {
      JoinOrderStep(t, pol, i, st);
      var level := JoinLevel(t, pol, i, st);
      if level.None? {
        return None;
      }
      st := level.value;
      i := i - 1;
    }
    res := Some(st);
  }

  /** One turn of the outer join loop: the composites of depth `i - 1`, then the turns below. */
  lemma JoinOrderStep(t: Topo, pol: Policy, i: int, st: Resolved)
    requires CompFacts(t) && i >= 0
    ensures AllComps(t, Level(t, i - 1, 0)) && AllComps(t, JoinOrder(t, i - 1))
    ensures AllComps(t, JoinOrder(t, i))
    ensures JoinAll(t, pol, JoinOrder(t, i), st) ==
      match JoinAll(t, pol, Level(t, i - 1, 0), st)
      case None => None
      case Some(st') => JoinAll(t, pol, JoinOrder(t, i - 1), st')
  {
    LevelComps(t, i - 1, 0);
    JoinOrderComps(t, i - 1);
    JoinAllAppend(t, pol, Level(t, i - 1, 0), JoinOrder(t, i - 1), st);
  }

  /** Race resolution and join for one replication: the two loops of `samplerOut` before
      `timeToEnd` is read. */
  method ResolveReplication(t: Topo, pol: Policy, coin: bool, draws: seq<seq<real>>) returns (res: Option<Resolved>)
    requires WF(t) && DrawsFit(t, draws)
    ensures res == Resolve(t, pol, coin, draws)
  {
    var leaves := ResolveLeaves(t, coin, draws);
    if leaves.None? {
      return None;
    }
    res := JoinComposites(t, pol, leaves.value);
  }
}
