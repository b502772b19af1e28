/** What the labelling rules of module Clustering guarantee: the shape of
    an expansion in its two cases, the progress it makes on the number of
    Unclassified items, and the totality of a complete run. */
module DBScanProperties {
  import opened Clustering

  /** All labels are Unclassified, as the item constructor leaves them. */
  predicate AllUnclassified<H>(s: seq<ClusterItem<H>>) {
    forall i :: 0 <= i < |s| ==> s[i].cluster == Unclassified
  }

  // ---------------------------------------------------------------------
  // The neighbourhood

  /** The first n items' neighbourhood of v lists exactly the indices below
      n whose value is within epsilon of v, each once, in increasing order. */
  lemma {:induction false} NeighboursInExactly<H>(s: seq<ClusterItem<H>>, v: real, epsilon: real, n: nat)
    requires n <= |s|
    ensures forall k :: 0 <= k < |NeighboursIn(s, v, epsilon, n)| ==>
      Near(v, s[NeighboursIn(s, v, epsilon, n)[k]].value, epsilon)
    ensures forall j :: 0 <= j < n && Near(v, s[j].value, epsilon) ==> j in NeighboursIn(s, v, epsilon, n)
    ensures forall k, l :: 0 <= k < l < |NeighboursIn(s, v, epsilon, n)| ==>
      NeighboursIn(s, v, epsilon, n)[k] < NeighboursIn(s, v, epsilon, n)[l]
  {
    if n > 0 {
      NeighboursInExactly(s, v, epsilon, n - 1);
    }
  }

  /** Membership in a neighbourhood, both directions, and its order. */
  lemma NeighboursExactly<H>(s: seq<ClusterItem<H>>, v: real, epsilon: real)
    ensures forall j :: j in Neighbours(s, v, epsilon) <==> 0 <= j < |s| && Near(v, s[j].value, epsilon)
    ensures forall k, l :: 0 <= k < l < |Neighbours(s, v, epsilon)| ==>
      Neighbours(s, v, epsilon)[k] < Neighbours(s, v, epsilon)[l]
  {
    NeighboursInExactly(s, v, epsilon, |s|);
  }

  /** Same length and the same value at every index; labels and handles
      may differ. */
  predicate SameValues<H, G>(s: seq<ClusterItem<H>>, t: seq<ClusterItem<G>>) {
    |t| == |s| && forall i :: 0 <= i < |s| ==> t[i].value == s[i].value
  }

  /** A neighbourhood depends on the values alone, so neither relabelling
      items nor changing their handles alters it. */
  lemma {:induction false} NeighboursByValues<H, G>(s: seq<ClusterItem<H>>, t: seq<ClusterItem<G>>, v: real,
                                                    epsilon: real, n: nat)
    requires n <= |s| && SameValues(s, t)
    ensures NeighboursIn(s, v, epsilon, n) == NeighboursIn(t, v, epsilon, n)
  {
    if n > 0 {
      NeighboursByValues(s, t, v, epsilon, n - 1);
    }
  }

  /** Being a neighbour is symmetric: distance does not depend on direction. */
  lemma NeighbourSymmetric<H>(s: seq<ClusterItem<H>>, i: nat, j: nat, epsilon: real)
    requires i < |s| && j < |s|
    ensures j in Neighbours(s, s[i].value, epsilon) <==> i in Neighbours(s, s[j].value, epsilon)
  {
    NeighboursExactly(s, s[i].value, epsilon);
    NeighboursExactly(s, s[j].value, epsilon);
    assert Near(s[i].value, s[j].value, epsilon) <==> Near(s[j].value, s[i].value, epsilon);
  }

  /** With a non-negative epsilon an item is its own neighbour. */
  lemma SeedIsNeighbour<H>(s: seq<ClusterItem<H>>, seed: nat, epsilon: real)
    requires seed < |s| && epsilon >= 0.0
    ensures seed in Neighbours(s, s[seed].value, epsilon)
  {
    NeighboursExactly(s, s[seed].value, epsilon);
    assert Near(s[seed].value, s[seed].value, epsilon);
  }

  // ---------------------------------------------------------------------
  // What an expansion may change

  /** An expansion writes only labels, never clears one, and every label it
      writes is Noise or, on an item that was Unclassified, the cluster id. */
  lemma {:induction false} ExpandedFrame<H>(s: seq<ClusterItem<H>>, seed: nat, cluster: int, cfg: Settings)
    requires seed < |s| && cluster != Unclassified
    ensures SameItems(s, Expanded(s, seed, cluster, cfg))
    ensures KeepsClassified(s, Expanded(s, seed, cluster, cfg))
    ensures ChangesOnly(s, Expanded(s, seed, cluster, cfg), cluster)
    decreases CountUnclassified(s), 1, 0
  {
    var nbrs := Neighbours(s, s[seed].value, cfg.epsilon);
    LoopFrame(s, nbrs, 0, s[seed].value, |nbrs| < cfg.minClusterSize, cluster, cfg);
  }

  lemma {:induction false} LoopFrame<H>(s: seq<ClusterItem<H>>, nbrs: seq<nat>, k: nat, seedValue: real,
                                        noise: bool, cluster: int, cfg: Settings)
    requires k <= |nbrs|
    requires forall m :: 0 <= m < |nbrs| ==> nbrs[m] < |s|
    requires cluster != Unclassified
    ensures SameItems(s, ExpandLoop(s, nbrs, k, seedValue, noise, cluster, cfg))
    ensures KeepsClassified(s, ExpandLoop(s, nbrs, k, seedValue, noise, cluster, cfg))
    ensures ChangesOnly(s, ExpandLoop(s, nbrs, k, seedValue, noise, cluster, cfg), cluster)
    decreases CountUnclassified(s), 0, |nbrs| - k
  {
    if k < |nbrs| {
      var j := nbrs[k];
      if noise {
        var s1 := Relabel(s, j, Noise);
        CountMono(s, s1);
        LoopFrame(s1, nbrs, k + 1, seedValue, noise, cluster, cfg);
      } else if s[j].cluster == Unclassified {
        var s1 := Relabel(s, j, cluster);
        CountStrict(s, s1, j);
        if s1[j].value != seedValue {
          var s2 := Expanded(s1, j, cluster, cfg);
          ExpandedFrame(s1, j, cluster, cfg);
          LoopFrame(s2, nbrs, k + 1, seedValue, noise, cluster, cfg);
        } else {
          LoopFrame(s1, nbrs, k + 1, seedValue, noise, cluster, cfg);
        }
      } else {
        LoopFrame(s, nbrs, k + 1, seedValue, noise, cluster, cfg);
      }
    }
  }

  // ---------------------------------------------------------------------
  // The walk over one neighbourhood

  /** After the walk from position k, every member from position k on
      carries a label. */
  lemma {:induction false} LoopClassifies<H>(s: seq<ClusterItem<H>>, nbrs: seq<nat>, k: nat, seedValue: real,
                                             noise: bool, cluster: int, cfg: Settings)
    requires k <= |nbrs|
    requires forall m :: 0 <= m < |nbrs| ==> nbrs[m] < |s|
    requires cluster != Unclassified
    ensures var r := ExpandLoop(s, nbrs, k, seedValue, noise, cluster, cfg);
      forall m :: k <= m < |nbrs| ==> r[nbrs[m]].cluster != Unclassified
    decreases |nbrs| - k
  {
    if k < |nbrs| {
      var j := nbrs[k];
      if noise {
        var s1 := Relabel(s, j, Noise);
        LoopFrame(s1, nbrs, k + 1, seedValue, noise, cluster, cfg);
        LoopClassifies(s1, nbrs, k + 1, seedValue, noise, cluster, cfg);
      } else if s[j].cluster == Unclassified {
        var s1 := Relabel(s, j, cluster);
        if s1[j].value != seedValue {
          var s2 := Expanded(s1, j, cluster, cfg);
          ExpandedFrame(s1, j, cluster, cfg);
          LoopFrame(s2, nbrs, k + 1, seedValue, noise, cluster, cfg);
          LoopClassifies(s2, nbrs, k + 1, seedValue, noise, cluster, cfg);
        } else {
          LoopFrame(s1, nbrs, k + 1, seedValue, noise, cluster, cfg);
          LoopClassifies(s1, nbrs, k + 1, seedValue, noise, cluster, cfg);
        }
      } else {
        LoopFrame(s, nbrs, k + 1, seedValue, noise, cluster, cfg);
        LoopClassifies(s, nbrs, k + 1, seedValue, noise, cluster, cfg);
      }
    }
  }

  /** In the too-small case the walk sets every remaining member to Noise,
      whatever it held, and touches nothing else. */
  lemma {:induction false} NoiseLoop<H>(s: seq<ClusterItem<H>>, nbrs: seq<nat>, k: nat, seedValue: real,
                                        cluster: int, cfg: Settings)
    requires k <= |nbrs|
    requires forall m :: 0 <= m < |nbrs| ==> nbrs[m] < |s|
    requires cluster != Unclassified
    ensures var r := ExpandLoop(s, nbrs, k, seedValue, true, cluster, cfg);
      forall i :: 0 <= i < |s| ==> r[i].cluster == if i in nbrs[k..] then Noise else s[i].cluster
    decreases |nbrs| - k
  {
    if k < |nbrs| {
      var j := nbrs[k];
      var s1 := Relabel(s, j, Noise);
      NoiseLoop(s1, nbrs, k + 1, seedValue, cluster, cfg);
      forall i | 0 <= i < |s|
        ensures i in nbrs[k..] <==> i == j || i in nbrs[k + 1..]
      {
        assert nbrs[k..] == [j] + nbrs[k + 1..];
      }
    }
  }

  /** In the large-enough case, when every remaining member has the seed's
      value, nothing recurses: exactly the Unclassified members get the id. */
  lemma {:induction false} FlatLoop<H>(s: seq<ClusterItem<H>>, nbrs: seq<nat>, k: nat, seedValue: real,
                                       cluster: int, cfg: Settings)
    requires k <= |nbrs|
    requires forall m :: 0 <= m < |nbrs| ==> nbrs[m] < |s|
    requires forall m :: k <= m < |nbrs| ==> s[nbrs[m]].value == seedValue
    requires cluster != Unclassified
    ensures var r := ExpandLoop(s, nbrs, k, seedValue, false, cluster, cfg);
      forall i :: 0 <= i < |s| ==>
        r[i].cluster == if i in nbrs[k..] && s[i].cluster == Unclassified then cluster else s[i].cluster
    decreases |nbrs| - k
  {
    if k < |nbrs| {
      var j := nbrs[k];
      var s' := if s[j].cluster == Unclassified then Relabel(s, j, cluster) else s;
      FlatLoop(s', nbrs, k + 1, seedValue, cluster, cfg);
      forall i | 0 <= i < |s|
        ensures i in nbrs[k..] <==> i == j || i in nbrs[k + 1..]
      {
        assert nbrs[k..] == [j] + nbrs[k + 1..];
      }
    }
  }

  /** In the large-enough case a walk over members that all carry a label
      already changes nothing. */
  lemma {:induction false} SettledLoop<H>(s: seq<ClusterItem<H>>, nbrs: seq<nat>, k: nat, seedValue: real,
                                          cluster: int, cfg: Settings)
    requires k <= |nbrs|
    requires forall m :: 0 <= m < |nbrs| ==> nbrs[m] < |s|
    requires forall m :: k <= m < |nbrs| ==> s[nbrs[m]].cluster != Unclassified
    requires cluster != Unclassified
    ensures ExpandLoop(s, nbrs, k, seedValue, false, cluster, cfg) == s
    decreases |nbrs| - k
  {
    if k < |nbrs| {
      SettledLoop(s, nbrs, k + 1, seedValue, cluster, cfg);
    }
  }

  // ---------------------------------------------------------------------
  // One expansion

  /** Every member of the seed's neighbourhood carries a label afterwards. */
  lemma ExpandClassifiesNeighbourhood<H>(s: seq<ClusterItem<H>>, seed: nat, cluster: int, cfg: Settings)
    requires seed < |s| && cluster != Unclassified
    ensures var nbrs := Neighbours(s, s[seed].value, cfg.epsilon);
      var r := Expanded(s, seed, cluster, cfg);
      forall j :: j in nbrs ==> r[j].cluster != Unclassified
  {
    var nbrs := Neighbours(s, s[seed].value, cfg.epsilon);
    LoopClassifies(s, nbrs, 0, s[seed].value, |nbrs| < cfg.minClusterSize, cluster, cfg);
  }

  /** With a non-negative epsilon the seed itself carries a label afterwards,
      and the number of Unclassified items has dropped if the seed was one. */
  lemma ExpandProgress<H>(s: seq<ClusterItem<H>>, seed: nat, cluster: int, cfg: Settings)
    requires seed < |s| && cluster != Unclassified && cfg.epsilon >= 0.0
    ensures Expanded(s, seed, cluster, cfg)[seed].cluster != Unclassified
    ensures CountUnclassified(Expanded(s, seed, cluster, cfg)) <= CountUnclassified(s)
    ensures s[seed].cluster == Unclassified ==>
      CountUnclassified(Expanded(s, seed, cluster, cfg)) < CountUnclassified(s)
  {
    var r := Expanded(s, seed, cluster, cfg);
    SeedIsNeighbour(s, seed, cfg.epsilon);
    ExpandClassifiesNeighbourhood(s, seed, cluster, cfg);
    ExpandedFrame(s, seed, cluster, cfg);
    if s[seed].cluster == Unclassified {
      CountStrict(s, r, seed);
    }
  }

  /** Too-small neighbourhood: every member becomes Noise, including members
      that already held a cluster id; every other item keeps its label. */
  lemma ExpandTooSmall<H>(s: seq<ClusterItem<H>>, seed: nat, cluster: int, cfg: Settings)
    requires seed < |s| && cluster != Unclassified
    requires |Neighbours(s, s[seed].value, cfg.epsilon)| < cfg.minClusterSize
    ensures var nbrs := Neighbours(s, s[seed].value, cfg.epsilon);
      var r := Expanded(s, seed, cluster, cfg);
      forall i :: 0 <= i < |s| ==> r[i].cluster == if i in nbrs then Noise else s[i].cluster
  {
    var nbrs := Neighbours(s, s[seed].value, cfg.epsilon);
    NoiseLoop(s, nbrs, 0, s[seed].value, cluster, cfg);
    assert nbrs[0..] == nbrs;
  }

  /** Large-enough neighbourhood: a member that was Unclassified ends with
      the cluster id or, if a later expansion found a too-small
      neighbourhood around it, Noise; a member that had a label keeps it
      unless it is turned into Noise. */
  lemma ExpandLargeEnough<H>(s: seq<ClusterItem<H>>, seed: nat, cluster: int, cfg: Settings)
    requires seed < |s| && cluster != Unclassified
    requires |Neighbours(s, s[seed].value, cfg.epsilon)| >= cfg.minClusterSize
    ensures var nbrs := Neighbours(s, s[seed].value, cfg.epsilon);
      var r := Expanded(s, seed, cluster, cfg);
      forall j :: j in nbrs ==>
        if s[j].cluster == Unclassified then r[j].cluster == cluster || r[j].cluster == Noise
        else r[j].cluster == s[j].cluster || r[j].cluster == Noise
  {
    ExpandClassifiesNeighbourhood(s, seed, cluster, cfg);
    ExpandedFrame(s, seed, cluster, cfg);
  }

  /** Large-enough neighbourhood whose members all share the seed's value:
      no recursion happens, so exactly the Unclassified members get the id
      and nothing else changes. */
  lemma ExpandFlat<H>(s: seq<ClusterItem<H>>, seed: nat, cluster: int, cfg: Settings)
    requires seed < |s| && cluster != Unclassified
    requires var nbrs := Neighbours(s, s[seed].value, cfg.epsilon);
      |nbrs| >= cfg.minClusterSize && forall j :: j in nbrs ==> s[j].value == s[seed].value
    ensures var nbrs := Neighbours(s, s[seed].value, cfg.epsilon);
      var r := Expanded(s, seed, cluster, cfg);
      forall i :: 0 <= i < |s| ==>
        r[i].cluster == if i in nbrs && s[i].cluster == Unclassified then cluster else s[i].cluster
  {
    var nbrs := Neighbours(s, s[seed].value, cfg.epsilon);
    FlatLoop(s, nbrs, 0, s[seed].value, cluster, cfg);
    assert nbrs[0..] == nbrs;
  }

  /** Large-enough neighbourhood whose members all carry a label already:
      the expansion changes nothing. */
  lemma ExpandSettled<H>(s: seq<ClusterItem<H>>, seed: nat, cluster: int, cfg: Settings)
    requires seed < |s| && cluster != Unclassified
    requires var nbrs := Neighbours(s, s[seed].value, cfg.epsilon);
      |nbrs| >= cfg.minClusterSize && forall j :: j in nbrs ==> s[j].cluster != Unclassified
    ensures Expanded(s, seed, cluster, cfg) == s
  {
    var nbrs := Neighbours(s, s[seed].value, cfg.epsilon);
    SettledLoop(s, nbrs, 0, s[seed].value, cluster, cfg);
  }

  // ---------------------------------------------------------------------
  // A complete run

  lemma {:induction false} ClusteredFromTotal<H>(s: seq<ClusterItem<H>>, i: nat, cluster: int, cfg: Settings)
    requires i <= |s| && cluster >= -1 && cfg.epsilon >= 0.0
    requires forall j :: 0 <= j < i ==> s[j].cluster != Unclassified
    ensures forall j :: 0 <= j < |s| ==> ClusteredFrom(s, i, cluster, cfg)[j].cluster != Unclassified
    decreases |s| - i
  {
    if i < |s| {
      if s[i].cluster == Unclassified {
        var s1 := Expanded(s, i, cluster + 1, cfg);
        ExpandProgress(s, i, cluster + 1, cfg);
        ExpandedFrame(s, i, cluster + 1, cfg);
        ClusteredFromTotal(s1, i + 1, cluster + 1, cfg);
      } else {
        ClusteredFromTotal(s, i + 1, cluster, cfg);
      }
    }
  }

  /** A run writes only labels and never clears one. */
  lemma {:induction false} ClusteredFromFrame<H>(s: seq<ClusterItem<H>>, i: nat, cluster: int, cfg: Settings)
    requires i <= |s| && cluster >= -1
    ensures SameItems(s, ClusteredFrom(s, i, cluster, cfg))
    ensures KeepsClassified(s, ClusteredFrom(s, i, cluster, cfg))
    decreases |s| - i
  {
    if i < |s| {
      if s[i].cluster == Unclassified {
        ExpandedFrame(s, i, cluster + 1, cfg);
        ClusteredFromFrame(Expanded(s, i, cluster + 1, cfg), i + 1, cluster + 1, cfg);
      } else {
        ClusteredFromFrame(s, i + 1, cluster, cfg);
      }
    }
  }

  /** Values and handles of every item are the same after a run. */
  lemma RunFrame<H>(s: seq<ClusterItem<H>>, cfg: Settings)
    ensures SameItems(s, Clustered(s, cfg))
  {
    ClusteredFromFrame(s, 0, -1, cfg);
  }

  /** With a non-negative epsilon no item is left Unclassified by a run,
      whatever the labels were before. */
  lemma RunTotal<H>(s: seq<ClusterItem<H>>, cfg: Settings)
    requires cfg.epsilon >= 0.0
    ensures forall j :: 0 <= j < |s| ==> Clustered(s, cfg)[j].cluster != Unclassified
  {
    ClusteredFromTotal(s, 0, -1, cfg);
  }

  /** Labels valid at the point the walk has reached i with last id cluster:
      everything before i is labelled, and every id is at most the index of
      its item. */
  predicate ValidSoFar<H>(s: seq<ClusterItem<H>>, i: nat, cluster: int) {
    i <= |s| && -1 <= cluster < i &&
    (forall j :: 0 <= j < i ==> s[j].cluster != Unclassified) &&
    (forall j :: 0 <= j < |s| ==>
      s[j].cluster == Unclassified || s[j].cluster == Noise || 0 <= s[j].cluster <= j)
  }

  /** One seed's expansion keeps the labelling valid and moves the walk on. */
  lemma ExpandKeepsValid<H>(s: seq<ClusterItem<H>>, i: nat, cluster: int, cfg: Settings)
    requires cfg.epsilon >= 0.0
    requires ValidSoFar(s, i, cluster) && i < |s| && s[i].cluster == Unclassified
    ensures ValidSoFar(Expanded(s, i, cluster + 1, cfg), i + 1, cluster + 1)
  {
    var s1 := Expanded(s, i, cluster + 1, cfg);
    ExpandProgress(s, i, cluster + 1, cfg);
    ExpandedFrame(s, i, cluster + 1, cfg);
    forall j | 0 <= j < |s1|
      ensures s1[j].cluster == Unclassified || s1[j].cluster == Noise || 0 <= s1[j].cluster <= j
    {
      if s1[j].cluster != s[j].cluster && s1[j].cluster != Noise {
        assert s[j].cluster == Unclassified && j >= i;
      }
    }
  }

  lemma {:induction false} ClusteredFromLabels<H>(s: seq<ClusterItem<H>>, i: nat, cluster: int, cfg: Settings)
    requires cfg.epsilon >= 0.0
    requires ValidSoFar(s, i, cluster)
    ensures forall j :: 0 <= j < |s| ==>
      ClusteredFrom(s, i, cluster, cfg)[j].cluster == Noise || 0 <= ClusteredFrom(s, i, cluster, cfg)[j].cluster <= j
    decreases |s| - i
  {
    if i == |s| {
    } else if s[i].cluster == Unclassified {
      ExpandKeepsValid(s, i, cluster, cfg);
      ClusteredFromLabels(Expanded(s, i, cluster + 1, cfg), i + 1, cluster + 1, cfg);
    } else {
      ClusteredFromLabels(s, i + 1, cluster, cfg);
    }
  }

  /** Starting from all Unclassified with a non-negative epsilon, a run
      labels every item Noise or with a cluster id no larger than its own
      index; ids start at 0 and so lie in [0, n). */
  lemma RunLabels<H>(s: seq<ClusterItem<H>>, cfg: Settings)
    requires cfg.epsilon >= 0.0 && AllUnclassified(s)
    ensures forall j :: 0 <= j < |s| ==>
      Clustered(s, cfg)[j].cluster == Noise || 0 <= Clustered(s, cfg)[j].cluster <= j
  {
    ClusteredFromLabels(s, 0, -1, cfg);
  }

  lemma {:induction false} ClusteredFromNewIds<H>(s: seq<ClusterItem<H>>, i: nat, cluster: int, cfg: Settings)
    requires i <= |s| && cluster >= -1
    ensures forall j :: 0 <= j < |s| ==>
      ClusteredFrom(s, i, cluster, cfg)[j].cluster == s[j].cluster ||
      ClusteredFrom(s, i, cluster, cfg)[j].cluster == Noise ||
      ClusteredFrom(s, i, cluster, cfg)[j].cluster > cluster
    decreases |s| - i
  {
    if i < |s| {
      if s[i].cluster == Unclassified {
        var s1 := Expanded(s, i, cluster + 1, cfg);
        ExpandedFrame(s, i, cluster + 1, cfg);
        ClusteredFromNewIds(s1, i + 1, cluster + 1, cfg);
      } else {
        ClusteredFromNewIds(s, i + 1, cluster, cfg);
      }
    }
  }

  /** Every label a run writes is Noise or a cluster id from 0 up: the
      counter starts below 0 and only grows. */
  lemma RunNewIds<H>(s: seq<ClusterItem<H>>, cfg: Settings)
    ensures forall j :: 0 <= j < |s| ==>
      Clustered(s, cfg)[j].cluster == s[j].cluster ||
      Clustered(s, cfg)[j].cluster == Noise ||
      Clustered(s, cfg)[j].cluster >= 0
  {
    ClusteredFromNewIds(s, 0, -1, cfg);
  }

  lemma {:induction false} ClusteredFromLabelled<H>(s: seq<ClusterItem<H>>, i: nat, cluster: int, cfg: Settings)
    requires i <= |s| && cluster >= -1
    requires forall j :: 0 <= j < |s| ==> s[j].cluster != Unclassified
    ensures ClusteredFrom(s, i, cluster, cfg) == s
    decreases |s| - i
  {
    if i < |s| {
      ClusteredFromLabelled(s, i + 1, cluster, cfg);
    }
  }

  /** A second run over a finished labelling changes nothing. */
  lemma RunAgain<H>(s: seq<ClusterItem<H>>, cfg: Settings)
    requires cfg.epsilon >= 0.0
    ensures Clustered(Clustered(s, cfg), cfg) == Clustered(s, cfg)
  {
    RunTotal(s, cfg);
    ClusteredFromLabelled(Clustered(s, cfg), 0, -1, cfg);
  }

  // ---------------------------------------------------------------------
  // The noise threshold

  /** Every item holding a cluster id, except possibly the one at index x,
      has a neighbourhood of at least the minimum size. */
  ghost predicate IdsAreCoreExcept<H>(s: seq<ClusterItem<H>>, cfg: Settings, x: int) {
    forall j :: 0 <= j < |s| && j != x && s[j].cluster != Unclassified && s[j].cluster != Noise ==>
      |Neighbours(s, s[j].value, cfg.epsilon)| >= cfg.minClusterSize
  }

  ghost predicate IdsAreCore<H>(s: seq<ClusterItem<H>>, cfg: Settings) {
    IdsAreCoreExcept(s, cfg, -1)
  }

  /** Two sequences with the same values have the same neighbourhoods. */
  lemma SameNeighbourhoods<H, G>(s: seq<ClusterItem<H>>, t: seq<ClusterItem<G>>, epsilon: real)
    requires SameValues(s, t)
    ensures forall v :: Neighbours(s, v, epsilon) == Neighbours(t, v, epsilon)
  {
    forall v ensures Neighbours(s, v, epsilon) == Neighbours(t, v, epsilon) {
      NeighboursByValues(s, t, v, epsilon, |s|);
    }
  }

  /** An expansion hands ids only to items with a large enough
      neighbourhood: a seed whose own neighbourhood is too small turns
      itself Noise, and every item the walk labels either shares the seed's
      value, hence its neighbourhood, or is expanded in turn. */
  lemma {:induction false} ExpandedCore<H>(s: seq<ClusterItem<H>>, seed: nat, cluster: int, cfg: Settings)
    requires seed < |s| && cluster != Unclassified && cfg.epsilon >= 0.0
    requires IdsAreCoreExcept(s, cfg, seed)
    ensures IdsAreCore(Expanded(s, seed, cluster, cfg), cfg)
    decreases CountUnclassified(s), 1, 0
  {
    var nbrs := Neighbours(s, s[seed].value, cfg.epsilon);
    ExpandedFrame(s, seed, cluster, cfg);
    SameNeighbourhoods(s, Expanded(s, seed, cluster, cfg), cfg.epsilon);
    if |nbrs| < cfg.minClusterSize {
      ExpandTooSmall(s, seed, cluster, cfg);
      SeedIsNeighbour(s, seed, cfg.epsilon);
    } else {
      LoopCore(s, nbrs, 0, s[seed].value, cluster, cfg);
    }
  }

  /** The large-enough walk keeps every id holder's neighbourhood large
      enough. */
  lemma {:induction false} LoopCore<H>(s: seq<ClusterItem<H>>, nbrs: seq<nat>, k: nat, seedValue: real,
                                       cluster: int, cfg: Settings)
    requires k <= |nbrs|
    requires forall m :: 0 <= m < |nbrs| ==> nbrs[m] < |s|
    requires cluster != Unclassified && cfg.epsilon >= 0.0
    requires IdsAreCore(s, cfg)
    requires |Neighbours(s, seedValue, cfg.epsilon)| >= cfg.minClusterSize
    ensures IdsAreCore(ExpandLoop(s, nbrs, k, seedValue, false, cluster, cfg), cfg)
    decreases CountUnclassified(s), 0, |nbrs| - k
  {
    if k < |nbrs| {
      var j := nbrs[k];
      if s[j].cluster == Unclassified {
        var s1 := Relabel(s, j, cluster);
        CountStrict(s, s1, j);
        assert SameItems(s, s1);
        SameNeighbourhoods(s, s1, cfg.epsilon);
        if s1[j].value != seedValue {
          assert IdsAreCoreExcept(s1, cfg, j);
          var s2 := Expanded(s1, j, cluster, cfg);
          ExpandedCore(s1, j, cluster, cfg);
          ExpandedFrame(s1, j, cluster, cfg);
          SameNeighbourhoods(s1, s2, cfg.epsilon);
          LoopCore(s2, nbrs, k + 1, seedValue, cluster, cfg);
        } else {
          assert IdsAreCore(s1, cfg);
          LoopCore(s1, nbrs, k + 1, seedValue, cluster, cfg);
        }
      } else {
        LoopCore(s, nbrs, k + 1, seedValue, cluster, cfg);
      }
    }
  }

  lemma {:induction false} ClusteredFromCore<H>(s: seq<ClusterItem<H>>, i: nat, cluster: int, cfg: Settings)
    requires i <= |s| && cluster >= -1 && cfg.epsilon >= 0.0
    requires IdsAreCore(s, cfg)
    ensures IdsAreCore(ClusteredFrom(s, i, cluster, cfg), cfg)
    decreases |s| - i
  {
    if i < |s| {
      if s[i].cluster == Unclassified {
        ExpandedCore(s, i, cluster + 1, cfg);
        ClusteredFromCore(Expanded(s, i, cluster + 1, cfg), i + 1, cluster + 1, cfg);
      } else {
        ClusteredFromCore(s, i + 1, cluster, cfg);
      }
    }
  }

  /** After a run from fresh items with epsilon >= 0, an item whose own
      neighbourhood has fewer members than the minimum is Noise, even when
      an earlier expansion gave it a cluster id first. */
  lemma NoiseThreshold<H>(s: seq<ClusterItem<H>>, cfg: Settings, j: nat)
    requires cfg.epsilon >= 0.0 && AllUnclassified(s) && j < |s|
    requires |Neighbours(s, s[j].value, cfg.epsilon)| < cfg.minClusterSize
    ensures Clustered(s, cfg)[j].cluster == Noise
  {
    ClusteredFromCore(s, 0, -1, cfg);
    RunTotal(s, cfg);
    RunFrame(s, cfg);
    SameNeighbourhoods(s, Clustered(s, cfg), cfg.epsilon);
  }

  // ---------------------------------------------------------------------
  // Neighbourhoods that are all large enough

  /** Every item's own neighbourhood has at least the minimum size. */
  ghost predicate Dense<H>(s: seq<ClusterItem<H>>, cfg: Settings) {
    forall k :: 0 <= k < |s| ==> |Neighbours(s, s[k].value, cfg.epsilon)| >= cfg.minClusterSize
  }

  /** Every label stayed, or went from Unclassified to c: no Noise was
      written. */
  predicate NoNoiseWritten<H>(s: seq<ClusterItem<H>>, r: seq<ClusterItem<H>>, c: int) {
    |r| == |s| &&
    forall i :: 0 <= i < |s| ==> r[i].cluster == s[i].cluster || (s[i].cluster == Unclassified && r[i].cluster == c)
  }

  /** When every neighbourhood is large enough, no expansion, nested or not,
      takes the noise branch. */
  lemma {:induction false} ExpandedDense<H>(s: seq<ClusterItem<H>>, seed: nat, cluster: int, cfg: Settings)
    requires seed < |s| && cluster != Unclassified && Dense(s, cfg)
    ensures NoNoiseWritten(s, Expanded(s, seed, cluster, cfg), cluster)
    decreases CountUnclassified(s), 1, 0
  {
    var nbrs := Neighbours(s, s[seed].value, cfg.epsilon);
    LoopDense(s, nbrs, 0, s[seed].value, cluster, cfg);
  }

  lemma {:induction false} LoopDense<H>(s: seq<ClusterItem<H>>, nbrs: seq<nat>, k: nat, seedValue: real,
                                        cluster: int, cfg: Settings)
    requires k <= |nbrs|
    requires forall m :: 0 <= m < |nbrs| ==> nbrs[m] < |s|
    requires cluster != Unclassified && Dense(s, cfg)
    ensures NoNoiseWritten(s, ExpandLoop(s, nbrs, k, seedValue, false, cluster, cfg), cluster)
    decreases CountUnclassified(s), 0, |nbrs| - k
  {
    if k < |nbrs| {
      var j := nbrs[k];
      if s[j].cluster == Unclassified {
        var s1 := Relabel(s, j, cluster);
        CountStrict(s, s1, j);
        SameNeighbourhoods(s, s1, cfg.epsilon);
        assert Dense(s1, cfg);
        if s1[j].value != seedValue {
          var s2 := Expanded(s1, j, cluster, cfg);
          ExpandedDense(s1, j, cluster, cfg);
          ExpandedFrame(s1, j, cluster, cfg);
          SameNeighbourhoods(s1, s2, cfg.epsilon);
          assert Dense(s2, cfg);
          LoopDense(s2, nbrs, k + 1, seedValue, cluster, cfg);
        } else {
          LoopDense(s1, nbrs, k + 1, seedValue, cluster, cfg);
        }
      } else {
        LoopDense(s, nbrs, k + 1, seedValue, cluster, cfg);
      }
    }
  }

  /** The exact large-enough rule, when every neighbourhood is large
      enough: each member that was Unclassified ends with the cluster id,
      and each member that had a label keeps it. */
  lemma ExpandDenseExact<H>(s: seq<ClusterItem<H>>, seed: nat, cluster: int, cfg: Settings)
    requires seed < |s| && cluster != Unclassified && Dense(s, cfg)
    ensures forall j :: j in Neighbours(s, s[seed].value, cfg.epsilon) ==>
      Expanded(s, seed, cluster, cfg)[j].cluster == if s[j].cluster == Unclassified then cluster else s[j].cluster
  {
    ExpandedDense(s, seed, cluster, cfg);
    ExpandClassifiesNeighbourhood(s, seed, cluster, cfg);
  }

  lemma {:induction false} ClusteredFromDense<H>(s: seq<ClusterItem<H>>, i: nat, cluster: int, cfg: Settings)
    requires i <= |s| && cluster >= -1 && Dense(s, cfg)
    ensures forall j :: 0 <= j < |s| && ClusteredFrom(s, i, cluster, cfg)[j].cluster == Noise ==> s[j].cluster == Noise
    decreases |s| - i
  {
    if i < |s| {
      if s[i].cluster == Unclassified {
        var s1 := Expanded(s, i, cluster + 1, cfg);
        ExpandedDense(s, i, cluster + 1, cfg);
        ExpandedFrame(s, i, cluster + 1, cfg);
        SameNeighbourhoods(s, s1, cfg.epsilon);
        assert Dense(s1, cfg);
        ClusteredFromDense(s1, i + 1, cluster + 1, cfg);
      } else {
        ClusteredFromDense(s, i + 1, cluster, cfg);
      }
    }
  }

  /** A run over fresh items whose neighbourhoods are all large enough marks
      no item Noise. */
  lemma RunDense<H>(s: seq<ClusterItem<H>>, cfg: Settings)
    requires AllUnclassified(s) && Dense(s, cfg)
    ensures forall j :: 0 <= j < |s| ==> Clustered(s, cfg)[j].cluster != Noise
  {
    ClusteredFromDense(s, 0, -1, cfg);
  }

  // ---------------------------------------------------------------------
  // Handles play no part

  /** Same length, values and labels; the handles, even their type, may
      differ. */
  predicate SameLabels<H, G>(s: seq<ClusterItem<H>>, t: seq<ClusterItem<G>>) {
    |t| == |s| &&
    forall i :: 0 <= i < |s| ==> t[i].value == s[i].value && t[i].cluster == s[i].cluster
  }

  lemma {:induction false} ExpandedHandles<H, G>(s: seq<ClusterItem<H>>, t: seq<ClusterItem<G>>, seed: nat,
                                                 cluster: int, cfg: Settings)
    requires seed < |s| && cluster != Unclassified && SameLabels(s, t)
    ensures SameLabels(Expanded(s, seed, cluster, cfg), Expanded(t, seed, cluster, cfg))
    decreases CountUnclassified(s), 1, 0
  {
    NeighboursByValues(s, t, s[seed].value, cfg.epsilon, |s|);
    var nbrs := Neighbours(s, s[seed].value, cfg.epsilon);
    LoopHandles(s, t, nbrs, 0, s[seed].value, |nbrs| < cfg.minClusterSize, cluster, cfg);
  }

  lemma {:induction false} LoopHandles<H, G>(s: seq<ClusterItem<H>>, t: seq<ClusterItem<G>>, nbrs: seq<nat>, k: nat,
                                             seedValue: real, noise: bool, cluster: int, cfg: Settings)
    requires k <= |nbrs|
    requires forall m :: 0 <= m < |nbrs| ==> nbrs[m] < |s|
    requires cluster != Unclassified && SameLabels(s, t)
    ensures SameLabels(ExpandLoop(s, nbrs, k, seedValue, noise, cluster, cfg),
                       ExpandLoop(t, nbrs, k, seedValue, noise, cluster, cfg))
    decreases CountUnclassified(s), 0, |nbrs| - k
  {
    if k < |nbrs| {
      var j := nbrs[k];
      if noise {
        var s1 := Relabel(s, j, Noise);
        CountMono(s, s1);
        LoopHandles(s1, Relabel(t, j, Noise), nbrs, k + 1, seedValue, noise, cluster, cfg);
      } else if s[j].cluster == Unclassified {
        var s1 := Relabel(s, j, cluster);
        var t1 := Relabel(t, j, cluster);
        CountStrict(s, s1, j);
        if s1[j].value != seedValue {
          ExpandedHandles(s1, t1, j, cluster, cfg);
          LoopHandles(Expanded(s1, j, cluster, cfg), Expanded(t1, j, cluster, cfg), nbrs, k + 1,
                      seedValue, noise, cluster, cfg);
        } else {
          LoopHandles(s1, t1, nbrs, k + 1, seedValue, noise, cluster, cfg);
        }
      } else {
        LoopHandles(s, t, nbrs, k + 1, seedValue, noise, cluster, cfg);
      }
    }
  }

  lemma {:induction false} ClusteredFromHandles<H, G>(s: seq<ClusterItem<H>>, t: seq<ClusterItem<G>>, i: nat,
                                                      cluster: int, cfg: Settings)
    requires i <= |s| && cluster >= -1 && SameLabels(s, t)
    ensures SameLabels(ClusteredFrom(s, i, cluster, cfg), ClusteredFrom(t, i, cluster, cfg))
    decreases |s| - i
  {
    if i < |s| {
      if s[i].cluster == Unclassified {
        ExpandedHandles(s, t, i, cluster + 1, cfg);
        ClusteredFromHandles(Expanded(s, i, cluster + 1, cfg), Expanded(t, i, cluster + 1, cfg),
                             i + 1, cluster + 1, cfg);
      } else {
        ClusteredFromHandles(s, t, i + 1, cluster, cfg);
      }
    }
  }

  /** Two runs over items with the same values and labels write the same
      labels, whatever handles the items carry. */
  lemma RunIgnoresHandles<H, G>(s: seq<ClusterItem<H>>, t: seq<ClusterItem<G>>, cfg: Settings)
    requires SameLabels(s, t)
    ensures SameLabels(Clustered(s, cfg), Clustered(t, cfg))
  {
    ClusteredFromHandles(s, t, 0, -1, cfg);
  }
}
