/** The labelling rules of the one-dimensional DBSCAN engine, written as
    functions over the item sequence.

    Items live in a sequence that the engine relabels in place. Only the
    `cluster` field of an item is ever written; the functions below say what
    the sequence looks like after each of the engine's steps, and the class in
    module DBScanEngine is proved to produce exactly these sequences. */
module Clustering {

  /** Label of an item that no expansion has reached yet. */
  const Unclassified: int := -1
  /** Label of an item whose neighbourhood was too small. */
  const Noise: int := -2

  /** One observation: its scalar value, its label and the caller's handle,
      which the engine carries along without looking at it. */
  datatype ClusterItem<H> = ClusterItem(value: real, cluster: int, userDataHandle: H)

  /** The engine's two settings, fixed at construction. */
  datatype Settings = Settings(minClusterSize: nat, epsilon: real)

  function Abs(x: real): real {
    if x < 0.0 then -x else x
  }

  /** The neighbourhood relation: distance at most epsilon, boundary included. */
  predicate Near(a: real, b: real, epsilon: real) {
    Abs(a - b) <= epsilon
  }

  /** Indices, among the first n items, of those near the value v, in
      sequence order. */
  function NeighboursIn<H>(s: seq<ClusterItem<H>>, v: real, epsilon: real, n: nat): (r: seq<nat>)
    requires n <= |s|
    ensures forall k :: 0 <= k < |r| ==> r[k] < n
  {
    if n == 0 then []
    else
      var prefix := NeighboursIn(s, v, epsilon, n - 1);
      if Near(v, s[n - 1].value, epsilon) then prefix + [n - 1] else prefix
  }

  /** The epsilon-neighbourhood of the value v over the whole sequence. */
  function Neighbours<H>(s: seq<ClusterItem<H>>, v: real, epsilon: real): seq<nat> {
    NeighboursIn(s, v, epsilon, |s|)
  }

  /** The sequence with item j's label replaced by c. */
  function Relabel<H>(s: seq<ClusterItem<H>>, j: nat, c: int): seq<ClusterItem<H>>
    requires j < |s|
  {
    s[j := s[j].(cluster := c)]
  }

  /** Number of items still Unclassified: the measure that every expansion
      step lowers or keeps. */
  function CountUnclassified<H>(s: seq<ClusterItem<H>>): nat {
    if s == [] then 0
    else CountUnclassified(s[..|s| - 1]) + (if s[|s| - 1].cluster == Unclassified then 1 else 0)
  }

  /** Same length, and every value and handle where it was. */
  ghost predicate SameItems<H>(s: seq<ClusterItem<H>>, r: seq<ClusterItem<H>>) {
    |r| == |s| &&
    forall i :: 0 <= i < |s| ==> r[i].value == s[i].value && r[i].userDataHandle == s[i].userDataHandle
  }

  /** No item that had a label lost it. */
  predicate KeepsClassified<H>(s: seq<ClusterItem<H>>, r: seq<ClusterItem<H>>) {
    |r| == |s| &&
    forall i :: 0 <= i < |s| && s[i].cluster != Unclassified ==> r[i].cluster != Unclassified
  }

  /** Every label either stayed, became Noise, or went from Unclassified to c. */
  predicate ChangesOnly<H>(s: seq<ClusterItem<H>>, r: seq<ClusterItem<H>>, c: int) {
    |r| == |s| &&
    forall i :: 0 <= i < |s| ==>
      r[i].cluster == s[i].cluster || r[i].cluster == Noise ||
      (s[i].cluster == Unclassified && r[i].cluster == c)
  }

  lemma {:induction false} CountMono<H>(s: seq<ClusterItem<H>>, r: seq<ClusterItem<H>>)
    requires KeepsClassified(s, r)
    ensures CountUnclassified(r) <= CountUnclassified(s)
    decreases |s|
  {
    if s != [] {
      var n := |s| - 1;
      assert KeepsClassified(s[..n], r[..n]);
      CountMono(s[..n], r[..n]);
    }
  }

  lemma {:induction false} CountStrict<H>(s: seq<ClusterItem<H>>, r: seq<ClusterItem<H>>, j: nat)
    requires KeepsClassified(s, r)
    requires j < |s| && s[j].cluster == Unclassified && r[j].cluster != Unclassified
    ensures CountUnclassified(r) < CountUnclassified(s)
    decreases |s|
  {
    var n := |s| - 1;
    assert KeepsClassified(s[..n], r[..n]);
    if j == n {
      CountMono(s[..n], r[..n]);
    } else {
      CountStrict(s[..n], r[..n], j);
    }
  }

  /** The labels after expanding from the item at index seed with the given
      cluster id: collect the seed's neighbourhood, then walk it in order. */
  function Expanded<H>(s: seq<ClusterItem<H>>, seed: nat, cluster: int, cfg: Settings): (r: seq<ClusterItem<H>>)
    requires seed < |s|
    requires cluster != Unclassified
    ensures |r| == |s|
    ensures CountUnclassified(r) <= CountUnclassified(s)
    decreases CountUnclassified(s), 1, 0
  {
    var nbrs := Neighbours(s, s[seed].value, cfg.epsilon);
    ExpandLoop(s, nbrs, 0, s[seed].value, |nbrs| < cfg.minClusterSize, cluster, cfg)
  }

  /** The walk over the neighbourhood nbrs from its k-th member on. When
      noise is set every member becomes Noise; otherwise each member that is
      still Unclassified gets the cluster id, and the expansion goes on from
      it when its value differs from the seed's. */
  function ExpandLoop<H>(s: seq<ClusterItem<H>>, nbrs: seq<nat>, k: nat, seedValue: real, noise: bool,
                         cluster: int, cfg: Settings): (r: seq<ClusterItem<H>>)
    requires k <= |nbrs|
    requires forall m :: 0 <= m < |nbrs| ==> nbrs[m] < |s|
    requires cluster != Unclassified
    ensures |r| == |s|
    ensures CountUnclassified(r) <= CountUnclassified(s)
    decreases CountUnclassified(s), 0, |nbrs| - k
  {
    if k == |nbrs| then s
    else
      var j := nbrs[k];
      if noise then
        var s1 := Relabel(s, j, Noise);
        CountMono(s, s1);
        ExpandLoop(s1, nbrs, k + 1, seedValue, noise, cluster, cfg)
      else if s[j].cluster == Unclassified then
        var s1 := Relabel(s, j, cluster);
        CountStrict(s, s1, j);
        if s1[j].value != seedValue then
          var s2 := Expanded(s1, j, cluster, cfg);
          ExpandLoop(s2, nbrs, k + 1, seedValue, noise, cluster, cfg)
        else
          ExpandLoop(s1, nbrs, k + 1, seedValue, noise, cluster, cfg)
      else
        ExpandLoop(s, nbrs, k + 1, seedValue, noise, cluster, cfg)
  }

  /** The labels after the top-level walk from index i on, where cluster is
      the last id handed out (-1 before the first). */
  function ClusteredFrom<H>(s: seq<ClusterItem<H>>, i: nat, cluster: int, cfg: Settings): (r: seq<ClusterItem<H>>)
    requires i <= |s|
    requires cluster >= -1
    ensures |r| == |s|
    decreases |s| - i
  {
    if i == |s| then s
    else if s[i].cluster == Unclassified then
      ClusteredFrom(Expanded(s, i, cluster + 1, cfg), i + 1, cluster + 1, cfg)
    else
      ClusteredFrom(s, i + 1, cluster, cfg)
  }

  /** The labels after a complete run. */
  function Clustered<H>(s: seq<ClusterItem<H>>, cfg: Settings): seq<ClusterItem<H>> {
    ClusteredFrom(s, 0, -1, cfg)
  }
}
