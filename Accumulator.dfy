/** The global accumulator: state name -> cumulative time attributed across replications,
    and the trace of attributions a walk adds to it. */
module Accumulator {
  import opened Topology

  /** One call of `add(name, amount, probabs)`. */
  datatype Entry = Entry(state: StateName, amount: real)

  /** `add(s, v, m)`: the value under `s` grows by exactly `v`; every other key keeps its
      value and no key is added or removed. */
  function Added(m: map<StateName, real>, s: StateName, v: real): (r: map<StateName, real>)
    requires s in m
    ensures r.Keys == m.Keys
    ensures r[s] == m[s] + v
    ensures forall k :: k in m && k != s ==> r[k] == m[k]
  {
    m[s := v + m[s]]
  }

  ghost predicate AllIn(tr: seq<Entry>, m: map<StateName, real>) {
    forall j :: 0 <= j < |tr| ==> tr[j].state in m
  }

  /** The accumulator after applying a trace of `add` calls in order. */
  function Apply(m: map<StateName, real>, tr: seq<Entry>): (r: map<StateName, real>)
    requires AllIn(tr, m)
    ensures r.Keys == m.Keys
    decreases |tr|
  {
    if tr == [] then m else Apply(Added(m, tr[0].state, tr[0].amount), tr[1..])
  }

  /** Total amount a trace attributes to one state. */
  function AmountFor(tr: seq<Entry>, k: StateName): real
    decreases |tr|
  {
    if tr == [] then 0.0
    else (if tr[0].state == k then tr[0].amount else 0.0) + AmountFor(tr[1..], k)
  }

  /** Total amount a trace attributes, over all states. */
  function Total(tr: seq<Entry>): real
    decreases |tr|
  {
    if tr == [] then 0.0 else tr[0].amount + Total(tr[1..])
  }

  ghost predicate Nonneg(tr: seq<Entry>) {
    forall j :: 0 <= j < |tr| ==> tr[j].amount >= 0.0
  }

  lemma NonnegAppend(a: seq<Entry>, b: seq<Entry>)
    requires Nonneg(a) && Nonneg(b)
    ensures Nonneg(a + b)
  {
    assert forall j :: |a| <= j < |a + b| ==> (a + b)[j] == b[j - |a|];
  }

  /** Applying two traces one after the other is applying their concatenation. */
  lemma {:induction false} ApplyAppend(m: map<StateName, real>, a: seq<Entry>, b: seq<Entry>)
    requires AllIn(a + b, m)
    ensures AllIn(a, m) && AllIn(b, Apply(m, a))
    ensures Apply(m, a + b) == Apply(Apply(m, a), b)
    decreases |a|
  {
    assert forall j :: 0 <= j < |a| ==> a[j] == (a + b)[j];
    assert forall j :: 0 <= j < |b| ==> b[j] == (a + b)[|a| + j];
    if a == [] {
      assert a + b == b;
    } else {
      assert (a + b)[1..] == a[1..] + b;
      ApplyAppend(Added(m, a[0].state, a[0].amount), a[1..], b);
    }
  }

  /** Conservation: every key ends up raised by exactly the amount the trace attributes to it. */
  lemma {:induction false} ApplyAt(m: map<StateName, real>, tr: seq<Entry>, k: StateName)
    requires AllIn(tr, m) && k in m
    ensures Apply(m, tr)[k] == m[k] + AmountFor(tr, k)
    decreases |tr|
  {
    if tr != [] {
      ApplyAt(Added(m, tr[0].state, tr[0].amount), tr[1..], k);
    }
  }

  lemma {:induction false} AmountForNonneg(tr: seq<Entry>, k: StateName)
    requires Nonneg(tr)
    ensures AmountFor(tr, k) >= 0.0
    decreases |tr|
  {
    if tr != [] {
      AmountForNonneg(tr[1..], k);
    }
  }

  /** Monotonicity: a trace of nonnegative attributions never lowers any accumulator entry. */
  lemma ApplyMonotone(m: map<StateName, real>, tr: seq<Entry>)
    requires AllIn(tr, m) && Nonneg(tr)
    ensures forall k :: k in m ==> Apply(m, tr)[k] >= m[k]
  {
    forall k | k in m
      ensures Apply(m, tr)[k] >= m[k]
    {
      ApplyAt(m, tr, k);
      AmountForNonneg(tr, k);
    }
  }
}
