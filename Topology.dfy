/** The immutable HSMP structure the sampler engine reads: states by name, their successor
    lists, the regions of each composite, and the precomputed index sets and maps the
    model builder supplies (leaf set, composite set, owning region, depth, race companions). */
module Topology {

  type StateName = string
  type RegionName = string

  datatype Option<T> = None | Some(value: T)

  /** Name of the root state "S0": the initial state of every model built, and the
      normaliser of every estimate. */
  const RootName: StateName := "S0"

  /** Join policy of every region of the model: EXIT (the first region to finish ends the
      composite) or FINAL (all regions must finish). */
  datatype Policy = Exit | Final

  /** The run-time class of a state: a plain state, a composite with its ordered regions,
      or one of the two terminal markers. */
  datatype Kind = Plain | Composite(regions: seq<RegionName>) | FinalState | ExitState

  datatype Topo = Topo(
    root: StateName,                             // the `initial` state samplerOut walks from
    kind: map<StateName, Kind>,
    next: map<StateName, seq<StateName>>,        // ordered successor list of every state
    regionInit: map<RegionName, StateName>,      // initial state of every region
    regionOf: map<StateName, RegionName>,        // owning region (regMap)
    depth: map<StateName, int>,                  // nesting depth, root = 0
    zeros: set<StateName>,                       // placeholders whose two successors race
    doubles: map<StateName, StateName>,          // race companion (doublesMap)
    doublesFrom2: map<StateName, StateName>,     // companion used from the second chain step on
    leaves: seq<StateName>,                      // expS, in iteration order
    comps: seq<StateName>,                       // compS, in iteration order
    depthS: int,                                 // number of nesting levels
    parallelS: int,                              // regions per composite
    sequenceS: int,                              // states per leaf chain
    rank: map<StateName, nat>)                   // strictly decreases along successors and into regions

  predicate IsTerminal(t: Topo, x: StateName) {
    x in t.kind && (t.kind[x].FinalState? || t.kind[x].ExitState?)
  }

  /** Every successor of a state is a known state. */
  ghost predicate Chains(t: Topo) {
    && t.next.Keys == t.kind.Keys
    && (forall x, i :: x in t.next && 0 <= i < |t.next[x]| ==> t.next[x][i] in t.kind)
  }

  /** Every leaf of `expS` is a known state with an owning region and a known race companion. */
  ghost predicate LeafFacts(t: Topo) {
    && (forall i :: 0 <= i < |t.leaves| ==>
          t.leaves[i] in t.kind && t.leaves[i] in t.regionOf && t.leaves[i] in t.doubles)
    && (forall i :: 0 <= i < |t.leaves| ==> t.doubles[t.leaves[i]] in t.kind)
  }

  /** Every member of `compS` is a known composite with a depth and at least `parallelS`
      regions, and one below the root has an owning region. */
  ghost predicate CompFacts(t: Topo) {
    && (forall i :: 0 <= i < |t.comps| ==>
          t.comps[i] in t.kind && t.comps[i] in t.depth && t.kind[t.comps[i]].Composite?)
    && (forall i :: 0 <= i < |t.comps| ==>
          |t.kind[t.comps[i]].regions| >= t.parallelS
          && (t.depth[t.comps[i]] > 0 ==> t.comps[i] in t.regionOf))
  }

  /** The structural facts the model builder guarantees: every name that is followed is a
      known state, the index maps are defined where the engine reads them, and `rank` is a
      termination witness (the nesting and every chain are finite and acyclic). */
  ghost predicate WF(t: Topo) {
    && Chains(t) && LeafFacts(t) && CompFacts(t)
    && t.rank.Keys == t.kind.Keys
    && t.root in t.kind && t.kind[t.root].Composite?
    && (forall x, i :: x in t.next && 0 <= i < |t.next[x]| ==> t.rank[t.next[x][i]] < t.rank[x])
    && (forall x, j :: x in t.kind && t.kind[x].Composite? && 0 <= j < |t.kind[x].regions| ==>
          t.kind[x].regions[j] in t.regionInit)
    && (forall x, j :: x in t.kind && t.kind[x].Composite? && 0 <= j < |t.kind[x].regions| ==>
          t.regionInit[t.kind[x].regions[j]] in t.kind
          && t.rank[t.regionInit[t.kind[x].regions[j]]] < t.rank[x])
  }

  /** Number of draws one leaf race pair consumes: the first draw plus one per further
      chain state (the chain loop runs from 1 up to sequenceS). */
  function ChainLen(t: Topo): (n: nat)
    ensures n >= 1 && (t.sequenceS >= 1 ==> n == t.sequenceS)
  {
    if t.sequenceS >= 1 then t.sequenceS else 1
  }

  /** Effective successor of a state whose first two successors race: the first one if its
      resolved duration is strictly positive, otherwise the second. A missing duration or a
      missing successor is the source's NullPointerException / IndexOutOfBoundsException. */
  function Winner(t: Topo, samp: map<StateName, real>, x: StateName): (r: Option<StateName>)
    requires WF(t) && x in t.kind
    ensures r.Some? <==>
      |t.next[x]| >= 1 && t.next[x][0] in samp && (samp[t.next[x][0]] > 0.0 || |t.next[x]| >= 2)
    ensures r.Some? && samp[t.next[x][0]] > 0.0 ==> r.value == t.next[x][0]
    ensures r.Some? && !(samp[t.next[x][0]] > 0.0) ==> r.value == t.next[x][1]
    ensures r.Some? ==> r.value in t.kind && t.rank[r.value] < t.rank[x]
  {
    var kl := t.next[x];
    if |kl| == 0 || kl[0] !in samp then None
    else if samp[kl[0]] > 0.0 then Some(kl[0])
    else if |kl| < 2 then None
    else Some(kl[1])
  }
}
