module Scenarios {
  import opened Clustering
  import DBScanProperties

  function Item(v: real): ClusterItem<int> { ClusterItem(v, Unclassified, 0) }
  function Labelled(v: real, c: int): ClusterItem<int> { ClusterItem(v, c, 0) }

  function InputA(): seq<ClusterItem<int>> {
    [Item(1.0), Item(1.1), Item(1.2), Item(5.0), Item(5.1), Item(10.0)]
  }

  lemma NeighboursA(t: seq<ClusterItem<int>>)
    requires SameItems(InputA(), t)
    ensures Neighbours(t, 1.0, 0.3) == [0, 1, 2]
    ensures Neighbours(t, 1.1, 0.3) == [0, 1, 2]
    ensures Neighbours(t, 1.2, 0.3) == [0, 1, 2]
    ensures Neighbours(t, 5.0, 0.3) == [3, 4]
    ensures Neighbours(t, 5.1, 0.3) == [3, 4]
    ensures Neighbours(t, 10.0, 0.3) == [5]
  {
    var s := InputA();
    assert NeighboursIn(s, 1.0, 0.3, 3) == [0, 1, 2];
    assert NeighboursIn(s, 1.0, 0.3, 6) == [0, 1, 2];
    assert NeighboursIn(s, 1.1, 0.3, 3) == [0, 1, 2];
    assert NeighboursIn(s, 1.1, 0.3, 6) == [0, 1, 2];
    assert NeighboursIn(s, 1.2, 0.3, 3) == [0, 1, 2];
    assert NeighboursIn(s, 1.2, 0.3, 6) == [0, 1, 2];
    assert NeighboursIn(s, 5.0, 0.3, 3) == [];
    assert NeighboursIn(s, 5.0, 0.3, 6) == [3, 4];
    assert NeighboursIn(s, 5.1, 0.3, 3) == [];
    assert NeighboursIn(s, 5.1, 0.3, 6) == [3, 4];
    assert NeighboursIn(s, 10.0, 0.3, 5) == [];
    assert NeighboursIn(s, 10.0, 0.3, 6) == [5];
    DBScanProperties.NeighboursByValues(s, t, 1.0, 0.3, 6);
    DBScanProperties.NeighboursByValues(s, t, 1.1, 0.3, 6);
    DBScanProperties.NeighboursByValues(s, t, 1.2, 0.3, 6);
    DBScanProperties.NeighboursByValues(s, t, 5.0, 0.3, 6);
    DBScanProperties.NeighboursByValues(s, t, 5.1, 0.3, 6);
    DBScanProperties.NeighboursByValues(s, t, 10.0, 0.3, 6);
  }

  /** Expanding from item 1 once items 0 and 1 carry id 0 reaches item 2. */
  lemma FirstClusterFromItem1()
    ensures Expanded([Labelled(1.0, 0), Labelled(1.1, 0), Item(1.2), Item(5.0), Item(5.1), Item(10.0)], 1, 0, Settings(2, 0.3)) ==
      [Labelled(1.0, 0), Labelled(1.1, 0), Labelled(1.2, 0), Item(5.0), Item(5.1), Item(10.0)]
  {
    var cfg := Settings(2, 0.3);
    var a := [Labelled(1.0, 0), Labelled(1.1, 0), Labelled(1.2, 0), Item(5.0), Item(5.1), Item(10.0)];
    var b := [Labelled(1.0, 0), Labelled(1.1, 0), Item(1.2), Item(5.0), Item(5.1), Item(10.0)];
    NeighboursA(a);
    NeighboursA(b);
    DBScanProperties.ExpandSettled(a, 2, 0, cfg);
    var n := [0, 1, 2];
    assert Relabel(b, 2, 0) == a;
    assert ExpandLoop(a, n, 3, 1.1, false, 0, cfg) == a;
    assert ExpandLoop(b, n, 2, 1.1, false, 0, cfg) == a;
    assert ExpandLoop(b, n, 0, 1.1, false, 0, cfg) == a;
  }

  /** Item 0 seeds cluster 0, which takes in items 0, 1 and 2. */
  lemma FirstClusterA()
    ensures Expanded(InputA(), 0, 0, Settings(2, 0.3)) ==
      [Labelled(1.0, 0), Labelled(1.1, 0), Labelled(1.2, 0), Item(5.0), Item(5.1), Item(10.0)]
  {
    var cfg := Settings(2, 0.3);
    var s := InputA();
    var a := [Labelled(1.0, 0), Labelled(1.1, 0), Labelled(1.2, 0), Item(5.0), Item(5.1), Item(10.0)];
    var b := [Labelled(1.0, 0), Labelled(1.1, 0), Item(1.2), Item(5.0), Item(5.1), Item(10.0)];
    var s0 := [Labelled(1.0, 0), Item(1.1), Item(1.2), Item(5.0), Item(5.1), Item(10.0)];
    NeighboursA(s);
    FirstClusterFromItem1();
    var n := [0, 1, 2];
    assert Relabel(s, 0, 0) == s0;
    assert Relabel(s0, 1, 0) == b;
    DBScanProperties.SettledLoop(a, n, 2, 1.0, 0, cfg);
    assert ExpandLoop(s0, n, 1, 1.0, false, 0, cfg) == a;
    assert ExpandLoop(s, n, 0, 1.0, false, 0, cfg) == a;
  }

  lemma SecondClusterA()
    ensures Expanded([Labelled(1.0, 0), Labelled(1.1, 0), Labelled(1.2, 0), Item(5.0), Item(5.1), Item(10.0)], 3, 1, Settings(2, 0.3)) ==
      [Labelled(1.0, 0), Labelled(1.1, 0), Labelled(1.2, 0), Labelled(5.0, 1), Labelled(5.1, 1), Item(10.0)]
  {
    var cfg := Settings(2, 0.3);
    var a := [Labelled(1.0, 0), Labelled(1.1, 0), Labelled(1.2, 0), Item(5.0), Item(5.1), Item(10.0)];
    var c := [Labelled(1.0, 0), Labelled(1.1, 0), Labelled(1.2, 0), Labelled(5.0, 1), Labelled(5.1, 1), Item(10.0)];
    var d := [Labelled(1.0, 0), Labelled(1.1, 0), Labelled(1.2, 0), Labelled(5.0, 1), Item(5.1), Item(10.0)];
    NeighboursA(a);
    NeighboursA(c);
    DBScanProperties.ExpandSettled(c, 4, 1, cfg);
    var n := [3, 4];
    assert Relabel(a, 3, 1) == d;
    assert Relabel(d, 4, 1) == c;
    assert ExpandLoop(c, n, 2, 5.0, false, 1, cfg) == c;
    assert ExpandLoop(d, n, 1, 5.0, false, 1, cfg) == c;
    assert ExpandLoop(a, n, 0, 5.0, false, 1, cfg) == c;
  }

  lemma NoiseA()
    ensures Expanded([Labelled(1.0, 0), Labelled(1.1, 0), Labelled(1.2, 0), Labelled(5.0, 1), Labelled(5.1, 1), Item(10.0)], 5, 2, Settings(2, 0.3)) ==
      [Labelled(1.0, 0), Labelled(1.1, 0), Labelled(1.2, 0), Labelled(5.0, 1), Labelled(5.1, 1), Labelled(10.0, Noise)]
  {
    NeighboursA([Labelled(1.0, 0), Labelled(1.1, 0), Labelled(1.2, 0), Labelled(5.0, 1), Labelled(5.1, 1), Item(10.0)]);
  }

  lemma ScenarioA()
    ensures Clustered(InputA(), Settings(2, 0.3)) ==
      [Labelled(1.0, 0), Labelled(1.1, 0), Labelled(1.2, 0), Labelled(5.0, 1), Labelled(5.1, 1), Labelled(10.0, Noise)]
  {
    var cfg := Settings(2, 0.3);
    var a := [Labelled(1.0, 0), Labelled(1.1, 0), Labelled(1.2, 0), Item(5.0), Item(5.1), Item(10.0)];
    var c := [Labelled(1.0, 0), Labelled(1.1, 0), Labelled(1.2, 0), Labelled(5.0, 1), Labelled(5.1, 1), Item(10.0)];
    var e := [Labelled(1.0, 0), Labelled(1.1, 0), Labelled(1.2, 0), Labelled(5.0, 1), Labelled(5.1, 1), Labelled(10.0, Noise)];
    FirstClusterA();
    SecondClusterA();
    NoiseA();
    assert ClusteredFrom(e, 6, 2, cfg) == e;
    assert ClusteredFrom(c, 4, 1, cfg) == e;
    assert ClusteredFrom(a, 1, 0, cfg) == e;
  }

  /** Three equal values, epsilon 0, threshold 3: one cluster of three. */
  lemma ScenarioB()
    ensures Clustered([Item(1.0), Item(1.0), Item(1.0)], Settings(3, 0.0)) ==
      [Labelled(1.0, 0), Labelled(1.0, 0), Labelled(1.0, 0)]
  {
    var cfg := Settings(3, 0.0);
    var s := [Item(1.0), Item(1.0), Item(1.0)];
    var a := [Labelled(1.0, 0), Labelled(1.0, 0), Labelled(1.0, 0)];
    assert NeighboursIn(s, 1.0, 0.0, 3) == [0, 1, 2];
    var n := [0, 1, 2];
    var b1 := [Labelled(1.0, 0), Item(1.0), Item(1.0)];
    var b2 := [Labelled(1.0, 0), Labelled(1.0, 0), Item(1.0)];
    assert Relabel(s, 0, 0) == b1;
    assert Relabel(b1, 1, 0) == b2;
    assert Relabel(b2, 2, 0) == a;
    assert ExpandLoop(a, n, 3, 1.0, false, 0, cfg) == a;
    assert ExpandLoop(b2, n, 2, 1.0, false, 0, cfg) == a;
    assert ExpandLoop(b1, n, 1, 1.0, false, 0, cfg) == a;
    assert ExpandLoop(s, n, 0, 1.0, false, 0, cfg) == a;
    assert ClusteredFrom(a, 1, 0, cfg) == a;
  }

  /** Two far-apart values, threshold 1: each is a cluster of its own. */
  lemma ScenarioC()
    ensures Clustered([Item(1.0), Item(100.0)], Settings(1, 1.0)) ==
      [Labelled(1.0, 0), Labelled(100.0, 1)]
  {
    var cfg := Settings(1, 1.0);
    var s := [Item(1.0), Item(100.0)];
    assert NeighboursIn(s, 1.0, 1.0, 1) == [0];
    assert Neighbours(s, 1.0, 1.0) == [0];
    var s1 := [Labelled(1.0, 0), Item(100.0)];
    assert ExpandLoop(s, [0], 1, 1.0, false, 0, cfg) == s;
    assert Expanded(s, 0, 0, cfg) == s1;
    assert NeighboursIn(s1, 100.0, 1.0, 1) == [];
    assert Neighbours(s1, 100.0, 1.0) == [1];
    var s2 := [Labelled(1.0, 0), Labelled(100.0, 1)];
    assert Expanded(s1, 1, 1, cfg) == s2;
    assert ClusteredFrom(s2, 2, 1, cfg) == s2;
    assert ClusteredFrom(s1, 1, 0, cfg) == s2;
  }

  /** An empty vector stays empty. */
  lemma ScenarioD()
    ensures Clustered<int>([], Settings(2, 0.5)) == []
  {
  }

  function InputE(): seq<ClusterItem<int>> {
    [Item(0.0), Item(1.0), Item(2.0), Item(3.0)]
  }

  lemma NeighboursE(t: seq<ClusterItem<int>>)
    requires SameItems(InputE(), t)
    ensures Neighbours(t, 0.0, 1.0) == [0, 1]
    ensures Neighbours(t, 2.0, 1.0) == [1, 2, 3]
    ensures Neighbours(t, 3.0, 1.0) == [2, 3]
  {
    var s := InputE();
    assert NeighboursIn(s, 0.0, 1.0, 2) == [0, 1];
    assert NeighboursIn(s, 0.0, 1.0, 4) == [0, 1];
    assert NeighboursIn(s, 2.0, 1.0, 1) == [];
    assert NeighboursIn(s, 2.0, 1.0, 4) == [1, 2, 3];
    assert NeighboursIn(s, 3.0, 1.0, 2) == [];
    assert NeighboursIn(s, 3.0, 1.0, 4) == [2, 3];
    DBScanProperties.NeighboursByValues(s, t, 0.0, 1.0, 4);
    DBScanProperties.NeighboursByValues(s, t, 2.0, 1.0, 4);
    DBScanProperties.NeighboursByValues(s, t, 3.0, 1.0, 4);
  }

  /** Item 0 has two neighbours, too few: items 0 and 1 become Noise. */
  lemma NoiseFromItem0()
    ensures Expanded(InputE(), 0, 0, Settings(3, 1.0)) ==
      [Labelled(0.0, Noise), Labelled(1.0, Noise), Item(2.0), Item(3.0)]
  {
    var cfg := Settings(3, 1.0);
    var s := InputE();
    var t1 := [Labelled(0.0, Noise), Labelled(1.0, Noise), Item(2.0), Item(3.0)];
    NeighboursE(s);
    var n0 := [0, 1];
    var u := [Labelled(0.0, Noise), Item(1.0), Item(2.0), Item(3.0)];
    assert Relabel(s, 0, Noise) == u;
    assert Relabel(u, 1, Noise) == t1;
    assert ExpandLoop(t1, n0, 2, 0.0, true, 0, cfg) == t1;
    assert ExpandLoop(u, n0, 1, 0.0, true, 0, cfg) == t1;
    assert ExpandLoop(s, n0, 0, 0.0, true, 0, cfg) == t1;
  }

  /** Item 3 has two neighbours, too few: items 2 and 3 become Noise,
      although item 2 already holds cluster id 1. */
  lemma NoiseFromItem3()
    ensures Expanded([Labelled(0.0, Noise), Labelled(1.0, Noise), Labelled(2.0, 1), Labelled(3.0, 1)], 3, 1, Settings(3, 1.0)) ==
      [Labelled(0.0, Noise), Labelled(1.0, Noise), Labelled(2.0, Noise), Labelled(3.0, Noise)]
  {
    var cfg := Settings(3, 1.0);
    var t3 := [Labelled(0.0, Noise), Labelled(1.0, Noise), Labelled(2.0, 1), Labelled(3.0, 1)];
    var t4 := [Labelled(0.0, Noise), Labelled(1.0, Noise), Labelled(2.0, Noise), Labelled(3.0, Noise)];
    NeighboursE(t3);
    var n3 := [2, 3];
    var u := [Labelled(0.0, Noise), Labelled(1.0, Noise), Labelled(2.0, Noise), Labelled(3.0, 1)];
    assert Relabel(t3, 2, Noise) == u;
    assert Relabel(u, 3, Noise) == t4;
    assert ExpandLoop(t4, n3, 2, 3.0, true, 1, cfg) == t4;
    assert ExpandLoop(u, n3, 1, 3.0, true, 1, cfg) == t4;
    assert ExpandLoop(t3, n3, 0, 3.0, true, 1, cfg) == t4;
  }

  /** Item 2 has three neighbours and seeds cluster 1; the expansion from
      item 3 then turns the whole cluster into Noise. */
  lemma ClusterFromItem2()
    ensures Expanded([Labelled(0.0, Noise), Labelled(1.0, Noise), Item(2.0), Item(3.0)], 2, 1, Settings(3, 1.0)) ==
      [Labelled(0.0, Noise), Labelled(1.0, Noise), Labelled(2.0, Noise), Labelled(3.0, Noise)]
  {
    var cfg := Settings(3, 1.0);
    var t1 := [Labelled(0.0, Noise), Labelled(1.0, Noise), Item(2.0), Item(3.0)];
    var t2 := [Labelled(0.0, Noise), Labelled(1.0, Noise), Labelled(2.0, 1), Item(3.0)];
    var t3 := [Labelled(0.0, Noise), Labelled(1.0, Noise), Labelled(2.0, 1), Labelled(3.0, 1)];
    var t4 := [Labelled(0.0, Noise), Labelled(1.0, Noise), Labelled(2.0, Noise), Labelled(3.0, Noise)];
    NeighboursE(t1);
    NoiseFromItem3();
    var n2 := [1, 2, 3];
    assert Relabel(t1, 2, 1) == t2;
    assert Relabel(t2, 3, 1) == t3;
    assert ExpandLoop(t4, n2, 3, 2.0, false, 1, cfg) == t4;
    assert ExpandLoop(t2, n2, 2, 2.0, false, 1, cfg) == t4;
    assert ExpandLoop(t1, n2, 0, 2.0, false, 1, cfg) == t4;
  }

  /** Values 0, 1, 2, 3 with epsilon 1 and threshold 3. Item 2 has three
      neighbours, so it seeds cluster 1; item 3 then has only two, and its
      expansion turns item 2 back into Noise. Every item ends as Noise, and
      the ids 0 and 1 handed out along the way appear nowhere. */
  lemma CoreItemEndsAsNoise()
    ensures |Neighbours(InputE(), 2.0, 1.0)| >= 3
    ensures Clustered(InputE(), Settings(3, 1.0)) ==
      [Labelled(0.0, Noise), Labelled(1.0, Noise), Labelled(2.0, Noise), Labelled(3.0, Noise)]
  {
    var cfg := Settings(3, 1.0);
    var t1 := [Labelled(0.0, Noise), Labelled(1.0, Noise), Item(2.0), Item(3.0)];
    var t4 := [Labelled(0.0, Noise), Labelled(1.0, Noise), Labelled(2.0, Noise), Labelled(3.0, Noise)];
    NeighboursE(InputE());
    NoiseFromItem0();
    ClusterFromItem2();
    assert ClusteredFrom(t4, 3, 1, cfg) == t4;
    assert ClusteredFrom(t1, 1, 0, cfg) == t4;
  }

  function InputF(): seq<ClusterItem<int>> {
    [Item(1.0), Item(0.0), Item(2.0)]
  }

  /** Values 1, 0, 2 with epsilon 1 and threshold 3. Item 0 has all three
      items as neighbours, so items 1 and 2 first join its cluster; each of
      them has only two neighbours of its own, so each ends as Noise. */
  lemma JoinedItemsEndAsNoise()
    ensures Neighbours(InputF(), 1.0, 1.0) == [0, 1, 2]
    ensures Clustered(InputF(), Settings(3, 1.0))[1].cluster == Noise
    ensures Clustered(InputF(), Settings(3, 1.0))[2].cluster == Noise
  {
    var s := InputF();
    var cfg := Settings(3, 1.0);
    assert NeighboursIn(s, 1.0, 1.0, 3) == [0, 1, 2];
    assert NeighboursIn(s, 0.0, 1.0, 3) == [0, 1];
    assert NeighboursIn(s, 2.0, 1.0, 3) == [0, 2];
    DBScanProperties.NoiseThreshold(s, cfg, 1);
    DBScanProperties.NoiseThreshold(s, cfg, 2);
  }
}
