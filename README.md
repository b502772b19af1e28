# One-dimensional DBSCAN, modelled and verified in Dafny

This project models the header-only DBSCAN engine in `dbscan.hpp`. The engine
clusters one-dimensional items. A `DBScan` object borrows a vector of
`DBScanClusterItem`s, where each item has a `Value`, a `Cluster` label and an
opaque `UserDataHandle`. It also holds a minimum cluster size and an epsilon.
`run` walks the vector in order. Each time it meets an item that is still
`DBSCAN_UNCLASSIFIED` (-1), it hands out the next cluster id and calls
`expand`. `expand` collects the seed's epsilon-neighbourhood with
`findClusterItems`, which picks every item whose value is within epsilon of the
seed's value, boundary included, in vector order. Then:

- if the neighbourhood has fewer members than the minimum, every member is
  overwritten to `DBSCAN_NOISE` (-2), even a member that already holds a
  cluster id;
- otherwise every member that is still Unclassified gets the cluster id, and
  expansion recurses from each such member whose value differs from the
  seed's.

The model has four modules in four files:

- `clustering.dfy`, module `Clustering`: the two sentinels, the
  `ClusterItem<H>` datatype (the handle type `H` is a type parameter), the
  engine's settings, and the labelling rules as functions over the item
  sequence. `Neighbours` is the neighbourhood filter. `Expanded` and
  `ExpandLoop` are one expansion and the walk over its neighbourhood.
  `ClusteredFrom` and `Clustered` are the top-level walk. `Expanded` and
  `ExpandLoop` terminate by the measure "number of Unclassified items". It
  falls strictly before every recursive expansion and never rises. The
  top-level walk terminates by its position in the vector.
- `dbscan.dfy`, module `DBScanEngine`: class `DBScan<H>`. Its nullable
  `array?` of items stands for the vector pointer, and its methods `Run`,
  `Expand` and `FindClusterItems` write labels in place with the source's
  loops and recursion. Each method is proved to leave the array exactly as
  the matching function says.
- `properties.dfy`, module `DBScanProperties`: what the rules guarantee. It
  covers neighbourhood membership, the frame (only labels change; a label,
  once set, is never cleared), the two cases of an expansion, run totality,
  the bounds on cluster ids, the noise threshold of a whole run (an item
  whose own neighbourhood is too small ends as Noise), the exact outcome
  when every neighbourhood is large enough, independence from the handles,
  and idempotence of a second run.
- `scenarios.dfy`, module `Scenarios`: concrete runs computed through the
  functions.

## Model

| member | source | states |
|---|---|---|
| Clustering.NeighboursIn | dbscan.hpp:81-88 | every index it lists lies below the prefix length, so each member names an item of the vector |
| DBScanProperties.NeighboursInExactly | dbscan.hpp:82-86 | the prefix neighbourhood lists exactly the indices whose value is within epsilon of the seed value, each once, in increasing order |
| DBScanProperties.NeighboursExactly | dbscan.hpp:79-89 | j is in the neighbourhood if and only if j is an index of the vector and abs(v - value[j]) <= epsilon; members appear in vector order |
| DBScanProperties.NeighbourSymmetric | dbscan.hpp:84 | item j is in item i's neighbourhood exactly when item i is in item j's |
| DBScanProperties.SeedIsNeighbour | dbscan.hpp:84 | with epsilon >= 0 the seed is a member of its own neighbourhood |
| DBScanProperties.NeighboursByValues | dbscan.hpp:79-89 | two sequences with the same values (labels and handles may differ, handles even in type) have the same neighbourhoods |
| DBScanEngine.DBScan.FindClusterItems | dbscan.hpp:79-89 | the loop returns exactly the neighbourhood filter of the seed's value over the current vector, and changes nothing |
| Clustering.Expanded | dbscan.hpp:57-77 | one expansion keeps the vector length and never raises the number of Unclassified items; this is the termination measure of the recursion |
| Clustering.ExpandLoop | dbscan.hpp:63-76 | the walk over a neighbourhood keeps the length and never raises the Unclassified count; a recursive expansion is entered only after an Unclassified member was labelled, i.e. with a strictly smaller count |
| DBScanProperties.ExpandedFrame | dbscan.hpp:57-77 | an expansion leaves every value and handle unchanged; it never turns a labelled item back to Unclassified; every label that changes becomes Noise, or goes from Unclassified to the current cluster id |
| DBScanProperties.LoopFrame | dbscan.hpp:63-76 | the same frame guarantees for the walk over a neighbourhood from any position on |
| DBScanProperties.LoopClassifies | dbscan.hpp:63-76 | after the walk from position k, every member from position k on carries a label |
| DBScanProperties.NoiseLoop | dbscan.hpp:67-68 | in the noise case the walk sets exactly the remaining members to Noise, whatever they held, and no other item changes |
| DBScanProperties.FlatLoop | dbscan.hpp:69-74 | in the large-enough case, when the remaining members all have the seed's value, exactly the Unclassified ones get the id and nothing recurses |
| DBScanProperties.SettledLoop | dbscan.hpp:69-75 | in the large-enough case, a walk over members that are all labelled changes nothing |
| DBScanProperties.ExpandClassifiesNeighbourhood | dbscan.hpp:59-76 | after an expansion, every member of the seed's neighbourhood carries a label |
| DBScanProperties.ExpandProgress | dbscan.hpp:67-74 | with epsilon >= 0 the seed carries a label afterwards; the Unclassified count never rises, and it falls strictly when the seed was Unclassified |
| DBScanProperties.ExpandTooSmall | dbscan.hpp:61-68 | too-small neighbourhood: the result labels every member Noise, including members that had a cluster id, and leaves every other label as it was |
| DBScanProperties.ExpandLargeEnough | dbscan.hpp:69-74 | large-enough neighbourhood: a member that was Unclassified ends with the cluster id or Noise; a member that had a label keeps it or becomes Noise; the exact rule is ExpandDenseExact |
| DBScanProperties.ExpandFlat | dbscan.hpp:69-74 | large-enough neighbourhood whose members share the seed's value: exactly the Unclassified members get the id and nothing else changes, so there is no recursion |
| DBScanProperties.ExpandSettled | dbscan.hpp:69-75 | large-enough neighbourhood whose members are all labelled already: the expansion changes nothing |
| DBScanEngine.DBScan.Expand | dbscan.hpp:57-77 | the in-place expansion leaves the array equal to Expanded of the old array; it terminates by the Unclassified count |
| Clustering.ClusteredFrom | dbscan.hpp:49-51 | the top-level walk from position i, with the last handed-out id as the counter, keeps the vector length |
| DBScanProperties.ClusteredFromFrame | dbscan.hpp:49-51 | the walk from any position keeps every value and handle, and never clears a label |
| DBScanProperties.RunFrame | dbscan.hpp:44-54 | after a run every item's value and handle are what they were; only labels are written |
| DBScanProperties.ClusteredFromTotal | dbscan.hpp:50-51 | with epsilon >= 0, if every item before position i is labelled, the walk leaves no item Unclassified |
| DBScanProperties.RunTotal | dbscan.hpp:44-54 | with epsilon >= 0, a run leaves no item Unclassified, whatever the labels were before |
| DBScanProperties.ExpandKeepsValid | dbscan.hpp:51 | one seed's expansion, taken with the pre-increment of the counter, keeps the prefix labelled and keeps every id at most its item's index |
| DBScanProperties.ClusteredFromLabels | dbscan.hpp:49-51 | from a valid intermediate state, the walk ends with every label Noise or an id between 0 and the item's index |
| DBScanProperties.RunLabels | dbscan.hpp:49-53 | from all Unclassified with epsilon >= 0, every final label is Noise or a cluster id in [0, index], hence in [0, n) |
| DBScanProperties.ClusteredFromNewIds | dbscan.hpp:49-51 | every label the walk writes is Noise or an id above the counter it started from |
| DBScanProperties.RunNewIds | dbscan.hpp:49-51 | every label a run writes is Noise or an id >= 0: the counter starts at -1 and is pre-incremented before each use |
| DBScanProperties.ClusteredFromLabelled | dbscan.hpp:50-51 | a walk over a vector with no Unclassified item changes nothing |
| DBScanProperties.RunAgain | dbscan.hpp:44-54 | with epsilon >= 0, a second run over the result of a run changes nothing |
| DBScanProperties.SameNeighbourhoods | dbscan.hpp:79-89 | two sequences with the same values, whatever their labels and handles, have the same neighbourhood of every value |
| DBScanProperties.ExpandedCore | dbscan.hpp:57-77 | with epsilon >= 0, if every item holding a cluster id (except perhaps the seed) has a neighbourhood of at least the minimum size, the same holds of every id holder after the expansion |
| DBScanProperties.LoopCore | dbscan.hpp:69-74 | the large-enough walk keeps that invariant: a member given the id either shares the seed's value, hence its neighbourhood, or is expanded in turn |
| DBScanProperties.ClusteredFromCore | dbscan.hpp:49-51 | the top-level walk from any position keeps the invariant that every item holding a cluster id has a large enough neighbourhood |
| DBScanProperties.NoiseThreshold | dbscan.hpp:61-74 | with epsilon >= 0, from all Unclassified, an item whose own neighbourhood has fewer members than the minimum ends as Noise, even if an earlier expansion gave it an id |
| DBScanProperties.ExpandedDense | dbscan.hpp:57-77 | when every item's own neighbourhood is large enough, an expansion writes no Noise: each label stays, or goes from Unclassified to the cluster id |
| DBScanProperties.LoopDense | dbscan.hpp:69-74 | the same for the large-enough walk from any position, through its nested expansions |
| DBScanProperties.ExpandDenseExact | dbscan.hpp:69-74 | when every neighbourhood is large enough, each member of the seed's neighbourhood ends with exactly the cluster id if it was Unclassified, and keeps its label otherwise |
| DBScanProperties.ClusteredFromDense | dbscan.hpp:49-51 | when every neighbourhood is large enough, the top-level walk marks Noise only items that were Noise already |
| DBScanProperties.RunDense | dbscan.hpp:44-54 | a run over fresh items whose neighbourhoods are all large enough marks no item Noise |
| DBScanProperties.ExpandedHandles | dbscan.hpp:57-77 | two sequences with the same values and labels get the same labels from an expansion, whatever their handles |
| DBScanProperties.LoopHandles | dbscan.hpp:63-76 | the same for the walk over a neighbourhood from any position |
| DBScanProperties.ClusteredFromHandles | dbscan.hpp:49-51 | the same for the top-level walk from any position |
| DBScanProperties.RunIgnoresHandles | dbscan.hpp:44-54 | two runs over items with the same values and labels write the same labels, whatever handles, of whatever type, the items carry |
| DBScanEngine.DBScan.Run | dbscan.hpp:44-54 | returns false and writes nothing when the vector is absent; otherwise returns true and leaves the array equal to Clustered of the old array, with the same values and handles and, when epsilon >= 0, no Unclassified item |
| DBScanEngine.DBScan.constructor | dbscan.hpp:36-40 | stores the vector, the minimum cluster size and epsilon |
| Scenarios.ScenarioA | dbscan.hpp:44-89 | values 1.0, 1.1, 1.2, 5.0, 5.1, 10.0 with epsilon 0.3 and minimum 2 give labels 0, 0, 0, 1, 1, Noise |
| Scenarios.ScenarioB | dbscan.hpp:44-89 | three values 1.0 with epsilon 0 and minimum 3 form one cluster 0 |
| Scenarios.ScenarioC | dbscan.hpp:44-89 | values 1.0 and 100.0 with epsilon 1 and minimum 1 give clusters 0 and 1 |
| Scenarios.ScenarioD | dbscan.hpp:44-54 | an empty vector stays empty |
| Scenarios.CoreItemEndsAsNoise | dbscan.hpp:61-74 | values 0, 1, 2, 3 with epsilon 1 and minimum 3: item 2 has a large enough neighbourhood, yet every item ends as Noise; ids 0 and 1 are consumed and appear nowhere |
| Scenarios.JoinedItemsEndAsNoise | dbscan.hpp:61-74 | values 1, 0, 2 with epsilon 1 and minimum 3: items 1 and 2 are in item 0's large neighbourhood, yet each ends as Noise, because its own neighbourhood has only two members |

## Left out

- Floating point: values are Dafny `real`s and epsilon is a `real`. The
  widening of the `float` epsilon to `double`, rounding in
  `std::abs(a - b) <= eps`, NaN and infinities are not modelled.
- Epsilon is not required to be non-negative, since the source does not check
  it. With a negative epsilon every neighbourhood is empty, and the totality
  lemmas (RunTotal, RunLabels, RunAgain) therefore assume epsilon >= 0.
- The `void*` user data handle is a type parameter `H`. The engine never
  inspects it, and RunFrame proves it is never changed.
- The `int` cluster counter is unbounded. After n seeds it holds n - 1, so
  in the source `++cluster` would first overflow on seed number 2^31 + 1.
  That overflow is not modelled.
- The `unsigned int` minimum cluster size is a `nat`. The comparison with the
  `size_t` neighbourhood size cannot wrap.
- `findClusterItems` returns indices into the vector instead of item pointers.
  The non-const reference bound to its returned temporary is a by-value
  result here.
- `expand` refers to its seed through an index, and reads the seed's value
  once before its loop. The source re-reads `item.Value` through a reference
  on every iteration, but values never change, so the result is identical.
- DBScan.Expand requires a cluster id other than Unclassified. `run` only
  passes ids of 0 or more. With -1 the source's recursion need not terminate,
  because labelling an item -1 leaves it Unclassified.
- The item constructor's default arguments (value 0, null handle) and the
  empty destructor: a fresh item is `ClusterItem(value, Unclassified, handle)`.
- Recursion depth and stack use are not modelled.
- Determinism: a run's result is a function of the item sequence and the
  settings. RunIgnoresHandles adds that the labels depend only on the values
  and the starting labels, and not on the handles.
- The noise threshold (NoiseThreshold) is stated for a run over fresh items
  with epsilon >= 0. Its converse does not hold: an item with a large enough
  neighbourhood can still end as Noise, because a later too-small
  expansion overwrites it (CoreItemEndsAsNoise).
- DBScanProperties.ExpandLargeEnough states the large-enough case only up
  to Noise: a member may end as Noise rather than with the cluster id or its
  old label. The exact rule (Unclassified members get the id, labelled
  members keep theirs) is false in general, because a nested expansion
  whose own neighbourhood is too small overwrites members to Noise
  (CoreItemEndsAsNoise). It is proved exactly when every neighbourhood is
  large enough (ExpandDenseExact). It is also exact step by step for the
  walk with no recursion (FlatLoop) or with nothing left to label
  (SettledLoop).
