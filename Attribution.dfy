/** Top-down attribution of one replication's resolved durations (`topDown`): the trace of
    `add` calls the walk makes, and whether it ran to the end or stopped on an exception. */
module Attribution {
  import opened Topology
  import opened Accumulator

  /** The `add` calls a walk made, in order; `ok` is false when the source would have thrown
      (a missing map entry or a too-short successor list) right after them. */
  datatype Walk = Walk(trace: seq<Entry>, ok: bool)

  const Done := Walk([], true)
  const Fail := Walk([], false)

  /** Runs `w2` after `w1` unless `w1` threw. */
  function Seq(w1: Walk, w2: Walk): (w: Walk)
    ensures !w1.ok ==> w == w1
    ensures w1.ok ==> w == Walk(w1.trace + w2.trace, w2.ok)
  {
    if !w1.ok then w1 else Walk(w1.trace + w2.trace, w2.ok)
  }

  /** `add(s, v, probabs)`, which throws when `s` has no accumulator entry. */
  function Attr(keys: set<StateName>, s: StateName, v: real): (w: Walk)
    ensures w.ok <==> s in keys
    ensures w.trace == if s in keys then [Entry(s, v)] else []
  {
    if s in keys then Walk([Entry(s, v)], true) else Fail
  }

  /** The chain walk `while (remaining > 0)`: each state gets min(duration, remaining); the
      walk stops after a truncated state or before a Final/Exit successor. */
  function ChainWalk(t: Topo, samp: map<StateName, real>, keys: set<StateName>,
                     win: StateName, remaining: real): Walk
    requires WF(t) && win in t.kind
    decreases t.rank[win]
  {
    if !(remaining > 0.0) then Done
    else if win !in samp then Fail
    else if samp[win] > remaining then Attr(keys, win, remaining)
    else if win !in keys then Fail
    else
      var e := Entry(win, samp[win]);
      var succ := t.next[win];
      if |succ| == 0 then Walk([e], false)
      else if IsTerminal(t, succ[0]) then Walk([e], true)
      else
        var rest := ChainWalk(t, samp, keys, succ[0], remaining - samp[win]);
        Walk([e] + rest.trace, rest.ok)
  }

  ghost predicate RegionsOk(t: Topo, rs: seq<RegionName>, bound: nat)
    requires WF(t)
  {
    forall j :: 0 <= j < |rs| ==>
      rs[j] in t.regionInit && t.regionInit[rs[j]] in t.kind && t.rank[t.regionInit[rs[j]]] < bound
  }

  lemma CompositeRegionsOk(t: Topo, x: StateName)
    requires WF(t) && x in t.kind && t.kind[x].Composite?
    ensures RegionsOk(t, t.kind[x].regions, t.rank[x])
  {
  }

  /** The state a region's walk starts from: a placeholder in `zeros` is replaced by whichever
      of its two successors won the race. */
  function Effective(t: Topo, samp: map<StateName, real>, q: StateName): (r: Option<StateName>)
    requires WF(t) && q in t.kind
    ensures r.Some? ==> r.value in t.kind && t.rank[r.value] <= t.rank[q]
    ensures q !in t.zeros ==> r == Some(q)
    ensures q in t.zeros ==> r == Winner(t, samp, q)
    ensures q in t.zeros && r.Some? ==>
      r.value == if samp[t.next[q][0]] > 0.0 then t.next[q][0] else t.next[q][1]
  {
    if q in t.zeros then Winner(t, samp, q) else Some(q)
  }

  /** `topDown(initQ, r, timeToEnd, samp, probabs)`. */
  function TopDown(t: Topo, samp: map<StateName, real>, keys: set<StateName>,
                   q: StateName, budget: real): Walk
    requires WF(t) && q in t.kind
    decreases t.rank[q], 2, 0
  {
    match Effective(t, samp, q)
    case None => Fail
    case Some(init) =>
      if !t.kind[init].Composite? then ChainWalk(t, samp, keys, init, budget)
      else if init !in samp then Fail
      else
        CompositeRegionsOk(t, init);
        var rs := t.kind[init].regions;
        var d := samp[init];
        if d > budget then
          Seq(Attr(keys, init, budget), Regions(t, samp, keys, rs, budget, t.rank[init]))
        else
          Seq(Attr(keys, init, d), Continue(t, samp, keys, init, budget))
  }

  /** What follows the composite's own attribution when it finishes within the budget: its
      regions walked with its duration, then the successor chain on the leftover. */
  function Continue(t: Topo, samp: map<StateName, real>, keys: set<StateName>,
                    init: StateName, budget: real): Walk
    requires WF(t) && init in t.kind && t.kind[init].Composite? && init in samp
    decreases t.rank[init], 1, 0
  {
    CompositeRegionsOk(t, init);
    var d := samp[init];
    Seq(Regions(t, samp, keys, t.kind[init].regions, d, t.rank[init]),
      if !(budget - d > 0.0) then Done
      else match Winner(t, samp, init)
        case None => Fail
        case Some(w) => ChainWalk(t, samp, keys, w, budget - d))
  }

  /** `for (Region r1 : regions) topDown(r1.getInitialState(), r1, budget, ...)`. */
  function Regions(t: Topo, samp: map<StateName, real>, keys: set<StateName>,
                   rs: seq<RegionName>, budget: real, bound: nat): Walk
    requires WF(t) && RegionsOk(t, rs, bound)
    decreases bound, 0, |rs|
  {
    if rs == [] then Done
    else Seq(TopDown(t, samp, keys, t.regionInit[rs[0]], budget),
             Regions(t, samp, keys, rs[1..], budget, bound))
  }

  ghost predicate NonnegDurations(samp: map<StateName, real>) {
    forall x :: x in samp ==> samp[x] >= 0.0
  }

  ghost predicate Bounded(tr: seq<Entry>, budget: real) {
    forall j :: 0 <= j < |tr| ==> 0.0 <= tr[j].amount <= budget
  }

  /** Leaf-chain budget: the chain walk attributes nonnegative amounts, none above the budget,
      totalling at most the budget. */
  lemma {:induction false} ChainWalkBudget(t: Topo, samp: map<StateName, real>,
                                           keys: set<StateName>, win: StateName, remaining: real)
    requires WF(t) && win in t.kind && NonnegDurations(samp) && remaining >= 0.0
    ensures var w := ChainWalk(t, samp, keys, win, remaining);
      Bounded(w.trace, remaining) && Total(w.trace) <= remaining
    decreases t.rank[win]
  {
    var w := ChainWalk(t, samp, keys, win, remaining);
    if remaining > 0.0 && win in samp && !(samp[win] > remaining) && win in keys {
      var succ := t.next[win];
      if |succ| > 0 && !IsTerminal(t, succ[0]) {
        var rest := ChainWalk(t, samp, keys, succ[0], remaining - samp[win]);
        ChainWalkBudget(t, samp, keys, succ[0], remaining - samp[win]);
        assert w.trace == [Entry(win, samp[win])] + rest.trace;
        assert w.trace[1..] == rest.trace;
      }
    }
  }

  /** Each state of the trace after the first is the first successor of the state before it,
      and none of them is a Final/Exit state. */
  ghost predicate FollowsChain(t: Topo, tr: seq<Entry>)
    decreases |tr|
  {
    |tr| <= 1 ||
      (&& tr[0].state in t.next && |t.next[tr[0].state]| > 0
       && tr[1].state == t.next[tr[0].state][0] && !IsTerminal(t, tr[1].state)
       && FollowsChain(t, tr[1..]))
  }

  /** The walk starts at `win` and moves along first successors only. */
  lemma {:induction false} ChainWalkFollows(t: Topo, samp: map<StateName, real>,
                                            keys: set<StateName>, win: StateName, remaining: real)
    requires WF(t) && win in t.kind
    ensures |ChainWalk(t, samp, keys, win, remaining).trace| > 0 ==>
      ChainWalk(t, samp, keys, win, remaining).trace[0].state == win
    ensures FollowsChain(t, ChainWalk(t, samp, keys, win, remaining).trace)
    decreases t.rank[win]
  {
    var w := ChainWalk(t, samp, keys, win, remaining);
    if remaining > 0.0 && win in samp && !(samp[win] > remaining) && win in keys {
      var succ := t.next[win];
      if |succ| > 0 && !IsTerminal(t, succ[0]) {
        var rest := ChainWalk(t, samp, keys, succ[0], remaining - samp[win]);
        ChainWalkFollows(t, samp, keys, succ[0], remaining - samp[win]);
        assert w.trace == [Entry(win, samp[win])] + rest.trace;
        assert w.trace[1..] == rest.trace;
        if |rest.trace| > 0 {
          assert w.trace[1] == rest.trace[0];
        }
      }
    }
  }

  /** Every state of a chain walk but the last gets its full duration. */
  lemma {:induction false} ChainWalkFull(t: Topo, samp: map<StateName, real>,
                                         keys: set<StateName>, win: StateName, remaining: real)
    requires WF(t) && win in t.kind
    ensures forall j :: 0 <= j < |ChainWalk(t, samp, keys, win, remaining).trace| - 1 ==>
      ChainWalk(t, samp, keys, win, remaining).trace[j].state in samp
      && ChainWalk(t, samp, keys, win, remaining).trace[j].amount
         == samp[ChainWalk(t, samp, keys, win, remaining).trace[j].state]
    decreases t.rank[win]
  {
    var w := ChainWalk(t, samp, keys, win, remaining);
    if remaining > 0.0 && win in samp && !(samp[win] > remaining) && win in keys {
      var succ := t.next[win];
      if |succ| > 0 && !IsTerminal(t, succ[0]) {
        var rest := ChainWalk(t, samp, keys, succ[0], remaining - samp[win]);
        ChainWalkFull(t, samp, keys, succ[0], remaining - samp[win]);
        assert w.trace == [Entry(win, samp[win])] + rest.trace;
        forall j | 1 <= j < |w.trace| - 1
          ensures w.trace[j].state in samp && w.trace[j].amount == samp[w.trace[j].state]
        {
          assert w.trace[j] == rest.trace[j - 1];
        }
      }
    }
  }

  /** The last state of a chain walk gets the smaller of its duration and the budget the
      states before it left. */
  lemma {:induction false} ChainWalkLast(t: Topo, samp: map<StateName, real>,
                                         keys: set<StateName>, win: StateName, remaining: real)
    requires WF(t) && win in t.kind
    ensures var w := ChainWalk(t, samp, keys, win, remaining);
      |w.trace| > 0 ==>
        var x := w.trace[|w.trace| - 1];
        var left := remaining - Total(w.trace[..|w.trace| - 1]);
        x.state in samp && x.amount == if samp[x.state] > left then left else samp[x.state]
    decreases t.rank[win]
  {
    var w := ChainWalk(t, samp, keys, win, remaining);
    if remaining > 0.0 && win in samp && !(samp[win] > remaining) && win in keys {
      var succ := t.next[win];
      var e := Entry(win, samp[win]);
      if |succ| > 0 && !IsTerminal(t, succ[0]) {
        var rest := ChainWalk(t, samp, keys, succ[0], remaining - samp[win]);
        ChainWalkLast(t, samp, keys, succ[0], remaining - samp[win]);
        assert w.trace == [e] + rest.trace;
        if |rest.trace| > 0 {
          var n := |rest.trace|;
          assert w.trace[|w.trace| - 1] == rest.trace[n - 1];
          assert w.trace[..|w.trace| - 1] == [e] + rest.trace[..n - 1];
          assert Total(w.trace[..|w.trace| - 1]) == samp[win] + Total(rest.trace[..n - 1]);
        } else {
          assert w.trace == [e] && w.trace[..0] == [];
        }
      } else {
        assert w.trace == [e] && w.trace[..0] == [];
      }
    } else if remaining > 0.0 && win in samp && samp[win] > remaining && win in keys {
      assert w.trace == [Entry(win, remaining)] && w.trace[..0] == [];
    }
  }

  /** A chain walk that ends normally with a positive budget attributes less than the whole
      budget only when the state after its last one is Final/Exit. */
  lemma {:induction false} ChainWalkStops(t: Topo, samp: map<StateName, real>,
                                          keys: set<StateName>, win: StateName, remaining: real)
    requires WF(t) && win in t.kind
    ensures var w := ChainWalk(t, samp, keys, win, remaining);
      w.ok && Total(w.trace) != remaining && remaining > 0.0 ==>
        |w.trace| > 0 && w.trace[|w.trace| - 1].state in t.kind
        && |t.next[w.trace[|w.trace| - 1].state]| > 0
        && IsTerminal(t, t.next[w.trace[|w.trace| - 1].state][0])
    decreases t.rank[win]
  {
    if remaining > 0.0 && win in samp {
      if samp[win] > remaining {
        if win in keys {
          assert Total([Entry(win, remaining)]) == remaining + Total([]);
        }
      } else if win in keys {
        var succ := t.next[win];
        var e := Entry(win, samp[win]);
        if |succ| > 0 && !IsTerminal(t, succ[0]) {
          var rest := ChainWalk(t, samp, keys, succ[0], remaining - samp[win]);
          ChainWalkStops(t, samp, keys, succ[0], remaining - samp[win]);
          var w := ChainWalk(t, samp, keys, win, remaining);
          assert w.trace == [e] + rest.trace;
          assert w.trace[1..] == rest.trace;
          assert Total(w.trace) == samp[win] + Total(rest.trace);
          if |rest.trace| > 0 {
            assert w.trace[|w.trace| - 1] == rest.trace[|rest.trace| - 1];
          }
        }
      }
    }
  }

  /** Leaf-chain shape: the walk starts at `win` and follows first successors, never
      stepping onto a Final/Exit state; every visited state gets min(its duration,
      the budget left when it is reached), so every state but the last gets its full
      duration; and the walk attributes less than the whole budget only when it stopped
      before a Final/Exit successor (or threw). */
  lemma ChainWalkShape(t: Topo, samp: map<StateName, real>, keys: set<StateName>,
                       win: StateName, remaining: real)
    requires WF(t) && win in t.kind
    ensures var w := ChainWalk(t, samp, keys, win, remaining);
      && (|w.trace| > 0 ==> w.trace[0].state == win)
      && (forall j :: 0 <= j < |w.trace| - 1 ==>
            w.trace[j].state in samp && w.trace[j].amount == samp[w.trace[j].state])
      && (|w.trace| > 0 ==>
            var x := w.trace[|w.trace| - 1];
            var left := remaining - Total(w.trace[..|w.trace| - 1]);
            x.state in samp && x.amount == if samp[x.state] > left then left else samp[x.state])
      && (w.ok && Total(w.trace) != remaining && remaining > 0.0 ==>
            |w.trace| > 0 && w.trace[|w.trace| - 1].state in t.kind
            && |t.next[w.trace[|w.trace| - 1].state]| > 0
            && IsTerminal(t, t.next[w.trace[|w.trace| - 1].state][0]))
    ensures FollowsChain(t, ChainWalk(t, samp, keys, win, remaining).trace)
  {
    ChainWalkFollows(t, samp, keys, win, remaining);
    ChainWalkFull(t, samp, keys, win, remaining);
    ChainWalkLast(t, samp, keys, win, remaining);
    ChainWalkStops(t, samp, keys, win, remaining);
  }

  lemma BoundedAppend(a: seq<Entry>, b: seq<Entry>, budget: real)
    requires Bounded(a, budget) && Bounded(b, budget)
    ensures Bounded(a + b, budget)
  {
    assert forall j :: |a| <= j < |a + b| ==> (a + b)[j] == b[j - |a|];
  }

  lemma BoundedWeaken(a: seq<Entry>, lo: real, hi: real)
    requires Bounded(a, lo) && lo <= hi
    ensures Bounded(a, hi)
  {
  }

  /** No single attribution of a walk exceeds the budget it was given, and none is negative:
      a composite that outlasts the budget is cut to it, its regions get at most that, and
      the successor chain gets only what is left. */
  lemma {:induction false} TopDownBounded(t: Topo, samp: map<StateName, real>,
                                          keys: set<StateName>, q: StateName, budget: real)
    requires WF(t) && q in t.kind && NonnegDurations(samp) && budget >= 0.0
    ensures Bounded(TopDown(t, samp, keys, q, budget).trace, budget)
    decreases t.rank[q], 2, 0
  {
    match Effective(t, samp, q)
    case None =>
    case Some(init) =>
      if !t.kind[init].Composite? {
        ChainWalkBudget(t, samp, keys, init, budget);
      } else if init in samp {
        CompositeRegionsOk(t, init);
        var rs := t.kind[init].regions;
        var d := samp[init];
        if d > budget {
          RegionsBounded(t, samp, keys, rs, budget, t.rank[init]);
          BoundedAppend(Attr(keys, init, budget).trace,
                        Regions(t, samp, keys, rs, budget, t.rank[init]).trace, budget);
        } else {
          ContinueBounded(t, samp, keys, init, budget);
          BoundedAppend(Attr(keys, init, d).trace, Continue(t, samp, keys, init, budget).trace, budget);
        }
      }
  }

  lemma {:induction false} ContinueBounded(t: Topo, samp: map<StateName, real>,
                                           keys: set<StateName>, init: StateName, budget: real)
    requires WF(t) && init in t.kind && t.kind[init].Composite? && init in samp
    requires NonnegDurations(samp) && samp[init] <= budget
    ensures Bounded(Continue(t, samp, keys, init, budget).trace, budget)
    decreases t.rank[init], 1, 0
  {
    CompositeRegionsOk(t, init);
    var d := samp[init];
    var reg := Regions(t, samp, keys, t.kind[init].regions, d, t.rank[init]);
    RegionsBounded(t, samp, keys, t.kind[init].regions, d, t.rank[init]);
    BoundedWeaken(reg.trace, d, budget);
    if budget - d > 0.0 && Winner(t, samp, init).Some? {
      var tail := ChainWalk(t, samp, keys, Winner(t, samp, init).value, budget - d);
      ChainWalkBudget(t, samp, keys, Winner(t, samp, init).value, budget - d);
      BoundedWeaken(tail.trace, budget - d, budget);
      BoundedAppend(reg.trace, tail.trace, budget);
    } else {
      assert reg.trace + [] == reg.trace;
    }
  }

  lemma {:induction false} RegionsBounded(t: Topo, samp: map<StateName, real>,
                                          keys: set<StateName>, rs: seq<RegionName>,
                                          budget: real, bound: nat)
    requires WF(t) && RegionsOk(t, rs, bound) && NonnegDurations(samp) && budget >= 0.0
    ensures Bounded(Regions(t, samp, keys, rs, budget, bound).trace, budget)
    decreases bound, 0, |rs|
  {
    if rs != [] {
      TopDownBounded(t, samp, keys, t.regionInit[rs[0]], budget);
      RegionsBounded(t, samp, keys, rs[1..], budget, bound);
      BoundedAppend(TopDown(t, samp, keys, t.regionInit[rs[0]], budget).trace,
                    Regions(t, samp, keys, rs[1..], budget, bound).trace, budget);
    }
  }

  /** Boundary truncation: a composite that outlasts the budget is attributed exactly the
      budget, its regions are walked with that same budget, and no successor is visited. */
  lemma TopDownTruncates(t: Topo, samp: map<StateName, real>, keys: set<StateName>,
                         q: StateName, budget: real)
    requires WF(t) && q in t.kind
    requires Effective(t, samp, q).Some?
    requires var init := Effective(t, samp, q).value;
      t.kind[init].Composite? && init in samp && samp[init] > budget && init in keys
    ensures var init := Effective(t, samp, q).value;
      RegionsOk(t, t.kind[init].regions, t.rank[init]) &&
      var rw := Regions(t, samp, keys, t.kind[init].regions, budget, t.rank[init]);
      TopDown(t, samp, keys, q, budget) == Walk([Entry(init, budget)] + rw.trace, rw.ok)
  {
  }

  /** A composite that finishes within the budget gets its own duration, its regions are walked
      with that duration, and the successor chain runs on the leftover, or is skipped when
      nothing is left. */
  lemma TopDownContinues(t: Topo, samp: map<StateName, real>, keys: set<StateName>,
                         q: StateName, budget: real)
    requires WF(t) && q in t.kind
    requires Effective(t, samp, q).Some?
    requires var init := Effective(t, samp, q).value;
      t.kind[init].Composite? && init in samp && !(samp[init] > budget) && init in keys
    ensures var init := Effective(t, samp, q).value;
      var d := samp[init];
      RegionsOk(t, t.kind[init].regions, t.rank[init]) &&
      var rw := Regions(t, samp, keys, t.kind[init].regions, d, t.rank[init]);
      var w := TopDown(t, samp, keys, q, budget);
      && w.trace[..1] == [Entry(init, d)]
      && (!rw.ok ==> w == Walk([Entry(init, d)] + rw.trace, false))
      && (rw.ok && !(budget - d > 0.0) ==> w == Walk([Entry(init, d)] + rw.trace, true))
      && (rw.ok && budget - d > 0.0 && Winner(t, samp, init).Some? ==>
            var cw := ChainWalk(t, samp, keys, Winner(t, samp, init).value, budget - d);
            w == Walk([Entry(init, d)] + rw.trace + cw.trace, cw.ok))
  {
  }

  ghost predicate InKeys(tr: seq<Entry>, keys: set<StateName>) {
    forall j :: 0 <= j < |tr| ==> tr[j].state in keys
  }

  lemma InKeysAppend(a: seq<Entry>, b: seq<Entry>, keys: set<StateName>)
    requires InKeys(a, keys) && InKeys(b, keys)
    ensures InKeys(a + b, keys)
  {
    assert forall j :: |a| <= j < |a + b| ==> (a + b)[j] == b[j - |a|];
  }

  /** A walk only ever adds to states that have an accumulator entry. */
  lemma {:induction false} ChainWalkInKeys(t: Topo, samp: map<StateName, real>, keys: set<StateName>,
                                           win: StateName, remaining: real)
    requires WF(t) && win in t.kind
    ensures InKeys(ChainWalk(t, samp, keys, win, remaining).trace, keys)
    decreases t.rank[win]
  {
    if remaining > 0.0 && win in samp && !(samp[win] > remaining) && win in keys {
      var succ := t.next[win];
      if |succ| > 0 && !IsTerminal(t, succ[0]) {
        ChainWalkInKeys(t, samp, keys, succ[0], remaining - samp[win]);
        InKeysAppend([Entry(win, samp[win])], ChainWalk(t, samp, keys, succ[0], remaining - samp[win]).trace, keys);
      }
    }
  }

  lemma {:induction false} TopDownInKeys(t: Topo, samp: map<StateName, real>, keys: set<StateName>,
                                         q: StateName, budget: real)
    requires WF(t) && q in t.kind
    ensures InKeys(TopDown(t, samp, keys, q, budget).trace, keys)
    decreases t.rank[q], 2, 0
  {
    match Effective(t, samp, q)
    case None =>
    case Some(init) =>
      if !t.kind[init].Composite? {
        ChainWalkInKeys(t, samp, keys, init, budget);
      } else if init in samp {
        CompositeRegionsOk(t, init);
        var rs := t.kind[init].regions;
        var d := samp[init];
        if d > budget {
          RegionsInKeys(t, samp, keys, rs, budget, t.rank[init]);
          InKeysAppend(Attr(keys, init, budget).trace, Regions(t, samp, keys, rs, budget, t.rank[init]).trace, keys);
        } else {
          ContinueInKeys(t, samp, keys, init, budget);
          InKeysAppend(Attr(keys, init, d).trace, Continue(t, samp, keys, init, budget).trace, keys);
        }
      }
  }

  lemma {:induction false} ContinueInKeys(t: Topo, samp: map<StateName, real>, keys: set<StateName>,
                                          init: StateName, budget: real)
    requires WF(t) && init in t.kind && t.kind[init].Composite? && init in samp
    ensures InKeys(Continue(t, samp, keys, init, budget).trace, keys)
    decreases t.rank[init], 1, 0
  {
    CompositeRegionsOk(t, init);
    var d := samp[init];
    var rw := Regions(t, samp, keys, t.kind[init].regions, d, t.rank[init]);
    RegionsInKeys(t, samp, keys, t.kind[init].regions, d, t.rank[init]);
    if budget - d > 0.0 && Winner(t, samp, init).Some? {
      ChainWalkInKeys(t, samp, keys, Winner(t, samp, init).value, budget - d);
      InKeysAppend(rw.trace, ChainWalk(t, samp, keys, Winner(t, samp, init).value, budget - d).trace, keys);
    }
    assert rw.trace + [] == rw.trace;
  }

  lemma {:induction false} RegionsInKeys(t: Topo, samp: map<StateName, real>, keys: set<StateName>,
                                         rs: seq<RegionName>, budget: real, bound: nat)
    requires WF(t) && RegionsOk(t, rs, bound)
    ensures InKeys(Regions(t, samp, keys, rs, budget, bound).trace, keys)
    decreases bound, 0, |rs|
  {
    if rs != [] {
      TopDownInKeys(t, samp, keys, t.regionInit[rs[0]], budget);
      RegionsInKeys(t, samp, keys, rs[1..], budget, bound);
      InKeysAppend(TopDown(t, samp, keys, t.regionInit[rs[0]], budget).trace,
                   Regions(t, samp, keys, rs[1..], budget, bound).trace, keys);
    }
  }
}
