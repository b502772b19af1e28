/** The clustering engine: a DBScan object borrows a (possibly absent) array
    of items and relabels it in place. Each method is proved to leave the
    array exactly as the matching function of module Clustering says. */
module DBScanEngine {
  import opened Clustering
  import DBScanProperties

  class DBScan<H> {
    /** The borrowed item vector; null when the caller passed none. */
    const items: array?<ClusterItem<H>>
    const minClusterSize: nat
    const epsilon: real

    constructor (items: array?<ClusterItem<H>>, minClusterSize: nat, epsilon: real)
      ensures this.items == items
      ensures this.minClusterSize == minClusterSize && this.epsilon == epsilon
    {
      this.items := items;
      this.minClusterSize := minClusterSize;
      this.epsilon := epsilon;
    }

    function Cfg(): Settings {
      Settings(minClusterSize, epsilon)
    }

    /** Labels every item; fails, touching nothing, when there is no vector. */
    method Run() returns (ok: bool)
      modifies items
      ensures ok == (items != null)
      ensures items != null ==> items[..] == Clustered(old(items[..]), Cfg())
      ensures items != null ==> SameItems(old(items[..]), items[..])
      ensures items != null && epsilon >= 0.0 ==>
        forall i :: 0 <= i < items.Length ==> items[i].cluster != Unclassified
    {
      if items == null {
        return false;
      }
      ghost var s0 := items[..];
      var cluster := -1;
      var i := 0;
      while i < items.Length
        invariant 0 <= i <= items.Length
        invariant cluster >= -1
        invariant ClusteredFrom(items[..], i, cluster, Cfg()) == Clustered(s0, Cfg())
      {
        if items[i].cluster == Unclassified {
          cluster := cluster + 1;
          Expand(i, cluster);
        }
        i := i + 1;
      }
      assert items[..] == Clustered(s0, Cfg());
      DBScanProperties.RunFrame(s0, Cfg());
      if epsilon >= 0.0 {
        DBScanProperties.RunTotal(s0, Cfg());
      }
      return true;
    }

    /** Expands the cluster from the item at index seed. */
    method Expand(seed: nat, cluster: int)
      requires items != null && seed < items.Length
      requires cluster != Unclassified
      modifies items
      ensures items[..] == Expanded(old(items[..]), seed, cluster, Cfg())
      decreases CountUnclassified(items[..])
    {
      ghost var s0 := items[..];
      var clusterItems := FindClusterItems(seed);
      var noise := |clusterItems| < minClusterSize;
      var v := items[seed].value;
      ghost var target := Expanded(s0, seed, cluster, Cfg());
      var k := 0;
      while k < |clusterItems|
        invariant 0 <= k <= |clusterItems|
        invariant forall m :: 0 <= m < |clusterItems| ==> clusterItems[m] < items.Length
        invariant CountUnclassified(items[..]) <= CountUnclassified(s0)
        invariant ExpandLoop(items[..], clusterItems, k, v, noise, cluster, Cfg()) == target
      {
        var j := clusterItems[k];
        ghost var before := items[..];
        if noise {
          items[j] := items[j].(cluster := Noise);
          assert items[..] == Relabel(before, j, Noise);
          CountMono(before, items[..]);
          assert ExpandLoop(before, clusterItems, k, v, noise, cluster, Cfg())
              == ExpandLoop(items[..], clusterItems, k + 1, v, noise, cluster, Cfg());
        } else if items[j].cluster == Unclassified {
          items[j] := items[j].(cluster := cluster);
          assert items[..] == Relabel(before, j, cluster);
          CountStrict(before, items[..], j);
          if items[j].value != v {
            Expand(j, cluster);
            assert ExpandLoop(before, clusterItems, k, v, noise, cluster, Cfg())
                == ExpandLoop(items[..], clusterItems, k + 1, v, noise, cluster, Cfg());
          } else {
            assert ExpandLoop(before, clusterItems, k, v, noise, cluster, Cfg())
                == ExpandLoop(items[..], clusterItems, k + 1, v, noise, cluster, Cfg());
          }
        } else {
          assert ExpandLoop(before, clusterItems, k, v, noise, cluster, Cfg())
              == ExpandLoop(items[..], clusterItems, k + 1, v, noise, cluster, Cfg());
        }
        assert ExpandLoop(items[..], clusterItems, k + 1, v, noise, cluster, Cfg()) == target;
        k := k + 1;
      }
    }

    /** The indices of every item within epsilon of the seed's value, in
        sequence order. */
    method FindClusterItems(seed: nat) returns (r: seq<nat>)
      requires items != null && seed < items.Length
      ensures r == Neighbours(items[..], items[seed].value, epsilon)
    {
      r := [];
      var i := 0;
      while i < items.Length
        invariant 0 <= i <= items.Length
        invariant r == NeighboursIn(items[..], items[seed].value, epsilon, i)
      {
        if Abs(items[seed].value - items[i].value) <= epsilon {
          r := r + [i];
        }
        i := i + 1;
      }
    }
  }
}
