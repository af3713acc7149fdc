/** The stopping test of the batch loop (`isChanged`): the occupancy estimates have not
    converged while some state's normalised accumulator value moved by more than a relative
    1e-4 since the previous batch's snapshot. */
module Convergence {
  import opened Topology

  const Epsilon: real := 0.0001

  function Abs(x: real): (r: real)
    ensures r >= 0.0 && (r == x || r == -x)
  {
    if x < 0.0 then -x else x
  }

  /** The two maps the test reads: both hold the root with a nonzero value (the source divides
      by it), and every key of the current map is in the snapshot (the source reads it there). */
  ghost predicate Comparable(probabs: map<StateName, real>, probOld: map<StateName, real>) {
    && RootName in probabs && RootName in probOld
    && probabs[RootName] != 0.0 && probOld[RootName] != 0.0
    && probabs.Keys <= probOld.Keys
  }

  /** `m[s] / m["S0"]`: the estimated occupancy probability of `s`. */
  function Normalized(m: map<StateName, real>, s: StateName): real
    requires s in m && RootName in m && m[RootName] != 0.0
  {
    m[s] / m[RootName]
  }

  /** `|(now - before) / now| > 1e-4`. When `now` is 0 the source divides by zero in floating
      point: 0/0 is NaN, which compares false, and any other quotient is infinite, which
      compares true. */
  predicate Moved(now: real, before: real) {
    if now == 0.0 then now - before != 0.0
    else Abs((now - before) / now) > Epsilon
  }

  /** Some state's normalised value moved since the snapshot. */
  ghost predicate Changed(probabs: map<StateName, real>, probOld: map<StateName, real>)
    requires Comparable(probabs, probOld)
  {
    exists s :: s in probabs && Moved(Normalized(probabs, s), Normalized(probOld, s))
  }

  /** `isChanged(probabs, probOld, i)`: scans the keys and stops at the first state that moved. */
  method IsChanged(probabs: map<StateName, real>, probOld: map<StateName, real>) returns (changed: bool)
    requires Comparable(probabs, probOld)
    ensures changed <==> Changed(probabs, probOld)
  {
    var rest := probabs.Keys;
    while rest != {}
      invariant rest <= probabs.Keys
      invariant forall s :: s in probabs && s !in rest ==>
        !Moved(Normalized(probabs, s), Normalized(probOld, s))
      decreases |rest|
    {
      var s :| s in rest;
      if Moved(Normalized(probabs, s), Normalized(probOld, s)) {
        return true;
      }
      rest := rest - {s};
    }
    return false;
  }

  lemma ScaledRatio(x: real, r: real, c: real)
    requires c != 0.0 && r != 0.0
    ensures (c * x) / (c * r) == x / r
  {
  }

  /** A batch that scales every accumulator entry, the root's included, by the same factor
      leaves all normalised estimates where they were, and the test reports no change. */
  lemma ScaledNotChanged(probabs: map<StateName, real>, probOld: map<StateName, real>, c: real)
    requires Comparable(probabs, probOld) && c != 0.0
    requires forall s :: s in probabs ==> probabs[s] == c * probOld[s]
    ensures !Changed(probabs, probOld)
  {
    forall s | s in probabs
      ensures !Moved(Normalized(probabs, s), Normalized(probOld, s))
    {
      ScaledRatio(probOld[s], probOld[RootName], c);
    }
  }

  /** A snapshot equal to the current values reports no change. */
  lemma SnapshotNotChanged(probabs: map<StateName, real>, probOld: map<StateName, real>)
    requires Comparable(probabs, probOld)
    requires forall s :: s in probabs ==> probOld[s] == probabs[s]
    ensures !Changed(probabs, probOld)
  {
    ScaledNotChanged(probabs, probOld, 1.0);
  }

  /** The test really is a relative one: for a nonzero current estimate it fires exactly when
      the estimate moved by more than 1e-4 of its own size. */
  lemma MovedIsRelative(now: real, before: real)
    requires now != 0.0
    ensures Moved(now, before) <==> Abs(now - before) > Epsilon * Abs(now)
  {
    var q := (now - before) / now;
    var a := Abs(now);
    var d := Abs(q);
    assert now - before == q * now;
    assert Abs(now - before) == d * a by {
      if now > 0.0 {
        assert a == now;
      } else {
        assert a == -now;
      }
    }
    ScaleComparison(d, Epsilon, a, Abs(now - before));
  }

  lemma ScaleComparison(x: real, y: real, a: real, p: real)
    requires a > 0.0 && p == x * a
    ensures x > y <==> p > y * a
  {
    assert p - y * a == (x - y) * a;
  }
}
