// Conservation of a race pair's mass: the time `topDown` attributes along the winning half of
// a leaf race equals what the pair's resolution added to the aggregate of its region.

module Conservation {
  import opened Topology
  import opened Accumulator
  import opened Resolver
  import opened Attribution

  /** The states the chain steps visit after `win`: its first successor, that one's first
      successor, and so on, `n` times or until a state has no successor. */
  ghost function Steps(t: Topo, win: StateName, n: nat): seq<StateName>
    requires Chains(t) && win in t.kind
    decreases n
  {
    if n == 0 || |t.next[win]| == 0 then []
    else [t.next[win][0]] + Steps(t, t.next[win][0], n - 1)
  }

  /** `win` is followed by exactly `n` first successors that are not Final/Exit, and then by a
      Final/Exit state: the shape of one half of a leaf race chain. */
  ghost predicate EndsAfter(t: Topo, win: StateName, n: nat)
    requires Chains(t) && win in t.kind
    decreases n
  {
    && |t.next[win]| > 0
    && if n == 0 then IsTerminal(t, t.next[win][0])
       else !IsTerminal(t, t.next[win][0]) && EndsAfter(t, t.next[win][0], n - 1)
  }

  /** No chain step's companion, in the map the coin selects, is one of `avoid` or one of the
      steps themselves: zeroing a companion never overwrites a duration the walk reads. */
  ghost predicate CompanionsClear(t: Topo, coin: bool, steps: seq<StateName>, avoid: set<StateName>) {
    var m := if coin then t.doublesFrom2 else t.doubles;
    forall j :: 0 <= j < |steps| && steps[j] in m ==> m[steps[j]] !in avoid && m[steps[j]] !in steps
  }

  /** The states after a chain's first state hold the draws after its first draw. */
  ghost predicate Carries(samp: map<StateName, real>, steps: seq<StateName>, vs: seq<real>) {
    && |steps| + 1 == |vs|
    && forall j :: 0 <= j < |steps| ==> steps[j] in samp && samp[steps[j]] == vs[j + 1]
  }

  ghost predicate AllKeyed(keys: set<StateName>, steps: seq<StateName>) {
    forall j :: 0 <= j < |steps| ==> steps[j] in keys
  }

  lemma {:induction false} StepsBelow(t: Topo, win: StateName, n: nat)
    requires WF(t) && win in t.kind
    ensures var S := Steps(t, win, n);
      |S| <= n && forall j :: 0 <= j < |S| ==> S[j] in t.kind && t.rank[S[j]] < t.rank[win]
    decreases n
  {
    if n > 0 && |t.next[win]| > 0 {
      var w := t.next[win][0];
      StepsBelow(t, w, n - 1);
      var S := Steps(t, win, n);
      assert S == [w] + Steps(t, w, n - 1);
      assert forall j :: 1 <= j < |S| ==> S[j] == Steps(t, w, n - 1)[j - 1];
    }
  }

  lemma {:induction false} EndsAfterSteps(t: Topo, win: StateName, n: nat)
    requires Chains(t) && win in t.kind && EndsAfter(t, win, n)
    ensures |Steps(t, win, n)| == n
    decreases n
  {
    if n > 0 {
      EndsAfterSteps(t, t.next[win][0], n - 1);
    }
  }

  lemma {:induction false} SumNonneg(vs: seq<real>)
    requires forall j :: 0 <= j < |vs| ==> vs[j] >= 0.0
    ensures Sum(vs) >= 0.0
    decreases |vs|
  {
    if vs != [] {
      SumNonneg(vs[1..]);
    }
  }

  /** One chain step gives `w` its draw and keeps every duration of `keep`, when neither `w`
      nor its companion is in `keep` and the companion is not `w` itself. */
  lemma ChainStepPlaces(t: Topo, coin: bool, samp: map<StateName, real>, w: StateName, v: real,
                        keep: set<StateName>)
    requires var m := if coin then t.doublesFrom2 else t.doubles;
      w !in keep && (w in m ==> m[w] != w && m[w] !in keep)
    ensures var samp' := ZeroCompanion(t, coin, samp[w := v], w);
      && w in samp' && samp'[w] == v
      && forall k :: k in keep && k in samp ==> k in samp' && samp'[k] == samp[k]
  {
  }

  /** The chain steps leave draw `vs[j]` on the `j`-th state after `win`, and keep the
      durations of `keep`, provided neither a step nor a step's companion is in `keep` and no
      companion is itself a step. */
  lemma {:induction false} ChainDrawsPlaces(t: Topo, coin: bool, win: StateName, vs: seq<real>,
                                            r: RegionName, st: Resolved, keep: set<StateName>)
    requires WF(t) && win in t.kind && r in st.reg
    requires ChainDraws(t, coin, win, vs, r, st).Some?
    requires forall j :: 0 <= j < |Steps(t, win, |vs|)| ==> Steps(t, win, |vs|)[j] !in keep
    requires CompanionsClear(t, coin, Steps(t, win, |vs|), keep)
    ensures var S := Steps(t, win, |vs|);
      var res := ChainDraws(t, coin, win, vs, r, st).value;
      && |S| == |vs|
      && (forall j :: 0 <= j < |vs| ==> S[j] in res.samp && res.samp[S[j]] == vs[j])
      && (forall k :: k in keep && k in st.samp ==> k in res.samp && res.samp[k] == st.samp[k])
    decreases |vs|
  {
    if vs != [] {
      var w := t.next[win][0];
      var m := if coin then t.doublesFrom2 else t.doubles;
      var S := Steps(t, win, |vs|);
      var S' := Steps(t, w, |vs| - 1);
      assert S == [w] + S';
      assert forall j :: 0 <= j < |S'| ==> S'[j] == S[j + 1];
      StepsBelow(t, w, |vs| - 1);
      var st1 := Resolved(ZeroCompanion(t, coin, st.samp[w := vs[0]], w), st.reg[r := st.reg[r] + vs[0]]);
      assert ChainDraws(t, coin, win, vs, r, st) == ChainDraws(t, coin, w, vs[1..], r, st1);
      assert S[0] == w;
      ChainStepPlaces(t, coin, st.samp, w, vs[0], keep);
      assert CompanionsClear(t, coin, S', keep + {w});
      ChainDrawsPlaces(t, coin, w, vs[1..], r, st1, keep + {w});
      var res := ChainDraws(t, coin, win, vs, r, st).value;
      forall j | 1 <= j < |vs|
        ensures S[j] in res.samp && res.samp[S[j]] == vs[j]
      {
        assert S[j] == S'[j - 1] && vs[j] == vs[1..][j - 1];
      }
    }
  }

  /** A chain walk over durations that are exactly `vs` along a chain of `|vs|` states ending
      before a Final/Exit state attributes all of `vs` when the budget covers their sum. */
  lemma {:induction false} ChainWalkExact(t: Topo, samp: map<StateName, real>, keys: set<StateName>,
                                          win: StateName, vs: seq<real>, budget: real)
    requires WF(t) && win in t.kind && |vs| >= 1 && EndsAfter(t, win, |vs| - 1)
    requires win in samp && samp[win] == vs[0] && win in keys
    requires Carries(samp, Steps(t, win, |vs| - 1), vs) && AllKeyed(keys, Steps(t, win, |vs| - 1))
    requires forall j :: 0 <= j < |vs| ==> vs[j] >= 0.0
    requires Sum(vs) <= budget
    ensures ChainWalk(t, samp, keys, win, budget).ok
    ensures Total(ChainWalk(t, samp, keys, win, budget).trace) == Sum(vs)
    decreases |vs|
  {
    SumNonneg(vs[1..]);
    assert Sum(vs) == vs[0] + Sum(vs[1..]);
    if budget > 0.0 && |vs| > 1 {
      var w := t.next[win][0];
      var S := Steps(t, win, |vs| - 1);
      var S' := Steps(t, w, |vs| - 2);
      assert S == [w] + S';
      assert forall j :: 0 <= j < |S'| ==> S'[j] == S[j + 1];
      assert S[0] == w;
      forall j | 0 <= j < |S'|
        ensures S'[j] in samp && samp[S'[j]] == vs[1..][j + 1] && S'[j] in keys
      {
        assert S'[j] == S[j + 1];
      }
      ChainWalkExact(t, samp, keys, w, vs[1..], budget - vs[0]);
      var rest := ChainWalk(t, samp, keys, w, budget - vs[0]);
      var tr := [Entry(win, vs[0])] + rest.trace;
      assert tr[1..] == rest.trace;
    }
  }

  /** A race placeholder whose two successors are `win`, holding a positive draw, and
      `lose`, holding 0, in either order, is replaced by `win`. */
  lemma PlaceholderPicksDraw(t: Topo, samp: map<StateName, real>, p: StateName, win: StateName,
                             lose: StateName)
    requires WF(t) && p in t.kind && p in t.zeros && |t.next[p]| >= 2
    requires (t.next[p][0] == win && t.next[p][1] == lose) || (t.next[p][0] == lose && t.next[p][1] == win)
    requires win in samp && samp[win] > 0.0 && lose in samp && samp[lose] == 0.0
    ensures Effective(t, samp, p) == Some(win)
  {
  }

  /** A walk whose effective start state is a leaf is the chain walk from that state. */
  lemma TopDownAtLeaf(t: Topo, samp: map<StateName, real>, keys: set<StateName>, q: StateName,
                      w: StateName, budget: real)
    requires WF(t) && q in t.kind && Effective(t, samp, q) == Some(w) && !t.kind[w].Composite?
    ensures TopDown(t, samp, keys, q, budget) == ChainWalk(t, samp, keys, w, budget)
  {
  }

  /** The durations one race pair's resolution leaves: the leaf `s` holds the first draw
      (coin false) or 0 (coin true), the winning half's first state holds the first draw, and
      the `j`-th state after it holds draw `j`. */
  lemma LeafStepPlaces(t: Topo, coin: bool, s: StateName, vs: seq<real>, st: Resolved)
    requires WF(t) && s in t.kind && s in t.regionOf && s in t.doubles && t.doubles[s] in t.kind
    requires s != t.doubles[s] && |vs| >= 1
    requires var w0 := if coin then t.doubles[s] else s;
      var S := Steps(t, w0, |vs| - 1);
      && (forall j :: 0 <= j < |S| ==> S[j] != s && S[j] != t.doubles[s])
      && CompanionsClear(t, coin, S, {s, t.doubles[s]})
    requires LeafStep(t, coin, s, vs, st).Some?
    ensures var res := LeafStep(t, coin, s, vs, st).value;
      var w0 := if coin then t.doubles[s] else s;
      var S := Steps(t, w0, |vs| - 1);
      && s in res.samp && res.samp[s] == (if coin then 0.0 else vs[0])
      && t.doubles[s] in res.samp && res.samp[t.doubles[s]] == (if coin then vs[0] else 0.0)
      && w0 in res.samp && res.samp[w0] == vs[0]
      && Carries(res.samp, S, vs)
  {
    var r := t.regionOf[s];
    var d := t.doubles[s];
    var reg := if r in st.reg then st.reg else st.reg[r := 0.0];
    var w0 := if coin then d else s;
    var st1 := Resolved(RacePut(st.samp, s, d, coin, vs[0]), reg[r := reg[r] + vs[0]]);
    assert LeafStep(t, coin, s, vs, st) == ChainDraws(t, coin, w0, vs[1..], r, st1);
    ChainDrawsPlaces(t, coin, w0, vs[1..], r, st1, {s, d});
    var S := Steps(t, w0, |vs| - 1);
    assert forall j :: 0 <= j < |S| ==> vs[1..][j] == vs[j + 1];
  }

  /** Mass conservation for one leaf race pair. The placeholder `p` races the leaf `s`
      against its companion `d`, listed in either order; the half the coin chose carries the pair's draws along
      `|vs| - 1` further states and then reaches a Final/Exit state. When the first draw is
      positive, the budget covers all draws, every state on the winning half has an
      accumulator entry, and zeroing companions never touches that half or the pair, then
      the walk from `p` over the durations the pair's resolution leaves ends normally and
      attributes exactly what that resolution added to the region of `s`. */
  lemma LeafRaceConserved(t: Topo, coin: bool, s: StateName, vs: seq<real>, st: Resolved,
                          p: StateName, keys: set<StateName>, budget: real)
    requires WF(t) && s in t.kind && s in t.regionOf && s in t.doubles && t.doubles[s] in t.kind
    requires p in t.kind && p in t.zeros && |t.next[p]| >= 2
    requires || (t.next[p][0] == s && t.next[p][1] == t.doubles[s])
             || (t.next[p][0] == t.doubles[s] && t.next[p][1] == s)
    requires s != t.doubles[s] && |vs| >= 1 && vs[0] > 0.0 && forall j :: 0 <= j < |vs| ==> vs[j] >= 0.0
    requires var w0 := if coin then t.doubles[s] else s;
      var S := Steps(t, w0, |vs| - 1);
      && !t.kind[w0].Composite? && EndsAfter(t, w0, |vs| - 1) && w0 in keys
      && AllKeyed(keys, S) && (forall j :: 0 <= j < |S| ==> S[j] != s && S[j] != t.doubles[s])
      && CompanionsClear(t, coin, S, {s, t.doubles[s]})
    requires LeafStep(t, coin, s, vs, st).Some? && Sum(vs) <= budget
    ensures var res := LeafStep(t, coin, s, vs, st).value;
      var w := TopDown(t, res.samp, keys, p, budget);
      && w.ok
      && t.regionOf[s] in res.reg
      && Total(w.trace) == res.reg[t.regionOf[s]] - Get0(st.reg, t.regionOf[s])
  {
    var w0 := if coin then t.doubles[s] else s;
    LeafStepPlaces(t, coin, s, vs, st);
    var res := LeafStep(t, coin, s, vs, st).value;
    PlaceholderPicksDraw(t, res.samp, p, w0, if coin then s else t.doubles[s]);
    ChainWalkExact(t, res.samp, keys, w0, vs, budget);
    TopDownAtLeaf(t, res.samp, keys, p, w0, budget);
    LeafStepMass(t, coin, s, vs, st);
  }
}
