# linkstream core, modelled in Dafny

A link stream is a sequence of interactions `(node1, node2, time)`. This
engine reads them in stream order and answers questions about them:

- whether the nodes stay Δ-connected at each change of timestamp;
- the Δ-reachability graph;
- a decomposition of the nodes into Δ-cliques;
- which tracked nodes were seen within Δ of each timestamp;
- small statistics: degrees, first and last appearance, and the number of
  nodes and links.

This project models that engine together with what it runs on:

- the square matrix it stores distances and reachability in;
- the link record and its line parser;
- the node and time filters;
- the iterator that renames node ids to `0, 1, 2, …`.

The project has one module per part of the program:

- `Links` (`links.dfy`): the `Link` record, equality, the `"n1 n2 t"` text
  form and `parse_line`.
- `Filters` (`filters.dfy`): `combine` and `node_filter`.
- `Matrices` (`matrices.dfy`):
  - the class `Matrix<V>`, with `new`, `get`, `set` (push then
    `swap_remove`), `diag` and `copy`;
  - the clique tests;
  - the successor and predecessor lists.
- `Distance` (`distance.dfy`): `maj_distance`, the in-place update of the
  current and snapshot distance matrices.
- `Reachability` (`reachability.dfy`): `maj_reach_graph`,
  `delta_reachability_graph` and `is_delta_connected`.
- `Traversal` (`traversal.dfy`): `dfs` and `connected_component`.
  `TraversalExamples` (`examples.dfy`) checks their documented examples.
- `Components` (`components.dfy`): `delta_components`.
- `Existence` (`existence.dfy`): `delta_existence`.
- `Counters` (`counters.dfy`): `count_degrees`,
  `count_first_and_last_apparition` and `count_nodes_and_links`.
- `Rename` (`rename.dfy`): `RenameLinkIter` and its `next`.

Each loop of the source is a Dafny method with its loop. The method is
proved equal to a fold over the prefix of the stream it has consumed
(`ScanReach`, `ExistScan`, `DegreeScan`, `Rename`, …). Lemmas then state
what each fold computes, in terms that do not mention the loop.

A stream is a `seq<Link>`:

- `Time` is a `u64`, the natural numbers up to `MAX = 2^64 - 1`; `MAX` is
  also the sentinel for "no time yet".
- `Node` is a 64-bit `usize`.
- The engine relies on streams arriving in non-increasing time order. This
  is stated as the precondition `NonIncreasing` where the source relies on
  it: the `u64` subtractions in `maj_reach_graph` and `delta_existence`, and
  the reading of the apparition pairs.

## Model

| member | source | states |
|---|---|---|
| Links.Equals | src/data/link.rs:26-30 | `eq` holds exactly when the two links are the same link |
| Links.NotEquals | src/data/link.rs:32-34 | `ne` holds exactly when the links differ |
| Links.Decimal | src/data/link.rs:20-22 | the decimal form of a number is a non-empty digit string, with no leading zero, whose value is the number |
| Links.Split | src/data/link.rs:51 | `split(" ")` gives one field more than the line has spaces; no field holds a space; the fields joined with single spaces give the line back |
| Links.ToString | src/data/link.rs:20-22 | `to_string` splits into exactly three fields, the decimal forms of `node1`, `node2` and `time` |
| Links.ParseUnsigned | src/data/link.rs:54-56 | an accepted number never exceeds the type's largest value, and its text starts with a digit or `+` |
| Links.ParseUnsignedSpec | src/data/link.rs:54-56 | `parse` gives `n` exactly when the text is `d` or `+d` with `d` a non-empty digit string of value `n` within the type; it is an error exactly when no such `n` exists (empty text, any non-digit after the optional `+`, a value too large) |
| Links.ParseDecimal | src/data/link.rs:54-56 | reading the decimal form of `n` gives `n` when it fits the type, and an error otherwise |
| Links.ParseLine | src/data/link.rs:50-58 | a line is rejected exactly when it has fewer than three fields or one of its first three fields denotes no value of its type (`usize`, `usize`, `u64`) |
| Links.ParseLineSpec | src/data/link.rs:50-58 | a line parses to `l` exactly when it has at least three fields denoting `l.node1`, `l.node2` and `l.time` within their types |
| Links.ParseLineRoundTrip | src/data/link.rs:50-58 | parsing the text form of any link gives that link back |
| Links.ParseLineIgnoresExtraFields | src/data/link.rs:50-58 | fields after the third do not change the parsed link |
| Links.ParseLineNeedsThreeFields | src/data/link.rs:52 | a line with fewer than three fields is rejected |
| Links.ParseLineRejectsNonNumeric | src/data/link.rs:54 | a line whose first field does not start with a digit or `+` is rejected |
| Links.ParseLineRejectsOutOfRange | src/data/link.rs:54 | a `node1` beyond `usize::MAX` is rejected |
| Links.ParseLineRejectsLargeNode2 | src/data/link.rs:55 | a `node2` beyond `usize::MAX` is rejected |
| Links.ParseLineRejectsLargeTime | src/data/link.rs:56 | a time beyond `u64::MAX` is rejected |
| Links.ParseLineRejectsLetterField | src/data/link.rs:55 | `"1 x 3"` is rejected |
| Links.ParseLineRejectsTrailingLetter | src/data/link.rs:56 | `"1 2 9z"` is rejected |
| Links.ParseLineExample | src/data/link.rs:48 | `parse_line("0 1 10")` is the link `(0, 1, 10)` |
| Filters.CombineSymmetric | src/data/filtre.rs:10-12 | a link passes exactly when both ends and its time pass; swapping the ends never changes the verdict |
| Filters.Membership | src/data/filtre.rs:15-19 | the vector has `size` entries, and entry `i` is true exactly when `i` is listed |
| Filters.MembershipIgnoresRepeatsAndOutOfRange | src/data/filtre.rs:17 | repeated ids, and ids at or beyond `size`, do not change the vector |
| Filters.NodeFilterOf | src/data/filtre.rs:15-19 | the push loop builds exactly the membership vector |
| Matrices.Filled | src/data/matrix.rs:12-25 | `size` rows of `size` entries, every entry the initial element |
| Matrices.Matrix.constructor | src/data/matrix.rs:12-25 | `new(elem, size)` yields a square matrix of side `size` filled with `elem` |
| Matrices.PushSwapRemove | src/data/matrix.rs:29-30 | pushing then swap-removing slot `y` overwrites slot `y` and keeps the row's length |
| Matrices.Matrix.Set | src/data/matrix.rs:27-31 | afterwards `get(x, y)` is the new value, every other entry is unchanged and the matrix stays square |
| Matrices.Diagonal | src/data/matrix.rs:38-42 | every `(x, x)` becomes `item`; every other entry is unchanged |
| Matrices.Matrix.Diag | src/data/matrix.rs:38-42 | the loop of `set(x, x, item)` produces exactly that matrix |
| Matrices.Matrix.Copy | src/data/matrix.rs:44-51 | with equal sizes, the matrix becomes entry for entry equal to the other |
| Matrices.IsSubsetClique | src/data/matrix.rs:56-67 | true exactly when no pair of filtered nodes, `x == y` included, has a zero entry |
| Matrices.IsClique | src/data/matrix.rs:69-78 | true exactly when no entry is zero, which is `is_subset_clique` under the filter that keeps every node |
| Matrices.NonZeroIndicesSound | src/algo.rs:158 | every listed neighbour has a non-zero entry |
| Matrices.NonZeroIndicesComplete | src/algo.rs:158 | every index with a non-zero entry is listed |
| Matrices.NonZeroIndicesAscending | src/algo.rs:122 | neighbours are listed in ascending order, so the stack pops the largest first |
| Matrices.NeighbourhoodsAreNonZeroEntries | src/algo.rs:219 | `successors(v)` holds the `j` with a non-zero `(v, j)` and `predecessors(v)` the `i` with a non-zero `(i, v)`, each ascending |
| Distance.Min | src/algo.rs:104 | `min` is one of its arguments and no larger than either |
| Distance.Initial | src/algo.rs:49-50 | both matrices start square and full of `MAX` |
| Distance.Prepare | src/algo.rs:86-94 | after the reset the tracked time is the record's time |
| Distance.Step | src/algo.rs:81-113 | after a record `(u, v, t)` the tracked time is `t` and `dist[u][v] = dist[v][u] = t` |
| Distance.StepSnapshot | src/algo.rs:86-94 | the snapshot becomes an exact copy of `dist`, taken before the diagonal reset, exactly when a tracked time changes, and is untouched otherwise; on a change, and on the first record, the diagonal becomes `t` |
| Distance.StepFrame | src/algo.rs:95-112 | only rows `u` and `v` are written, plus the diagonal on a change of time |
| Distance.StepLowers | src/algo.rs:95-112 | in non-increasing time order no entry ever rises, and every entry stays at or above the tracked time |
| Distance.RelaxColumn | src/algo.rs:96-111 | one column step of the loop writes exactly the relaxed entries of column `i` |
| Distance.MajDistance | src/algo.rs:81-113 | the in-place update equals one step of the tracker |
| Reachability.Refresh | src/algo.rs:68-79 | an entry is cleared exactly when it was 1 and its distance exceeds the time by more than Δ; entries only go from 1 to 0 |
| Reachability.MajReachGraph | src/algo.rs:68-79 | the nested loops produce exactly the refreshed graph |
| Reachability.ScanReach | src/algo.rs:43-66 | in non-increasing time order no distance falls below the tracked time, so no subtraction underflows; the graph, which starts all ones, stays 0/1 |
| Reachability.ReachMonotone | src/algo.rs:72-74 | a link never adds an edge to the graph |
| Reachability.DirectContact | src/algo.rs:96-100 | once a filtered link `(x, y, t)` has been read, the distance between `x` and `y` is at most `t` |
| Reachability.DeltaReachabilityGraph | src/algo.rs:43-66 | the returned matrix is the graph of the fold |
| Reachability.ScanConn | src/algo.rs:16-41 | the state records whether a filtered link has been seen and, once one has, the time of the last one |
| Reachability.ConnTimes | src/algo.rs:31-36 | one verdict per change of timestamp among the filtered links, stamped with the new time |
| Reachability.FilteredTimesNonIncreasing | src/algo.rs:28-29 | the filtered times of a non-increasing stream do not increase, and each is the time of some link |
| Reachability.BoundariesDecrease | src/algo.rs:32-33 | the changes of a non-increasing sequence strictly decrease |
| Reachability.ConnTimesDecrease | src/algo.rs:32-35 | the verdicts carry strictly decreasing times |
| Reachability.IsDeltaConnected | src/algo.rs:16-41 | the returned verdicts are those of the fold |
| Traversal.DrainSpec | src/algo.rs:154-162 | the inner loop outputs only filtered, unmarked nodes, each once, marks exactly them, and marks every filtered node that was pushed |
| Traversal.DrainStack | src/algo.rs:154-162 | the inner `while let` loop computes that drain |
| Traversal.Unmarks | src/algo.rs:148 | the push loop builds a vector of `size` false marks |
| Traversal.DfsWalkSpec | src/algo.rs:150-164 | a node is marked exactly when it has been output; the output holds filtered nodes, none twice; every filtered root ends marked |
| Traversal.DfsOutputsFilteredNodes | src/algo.rs:144-166 | `dfs` outputs filtered nodes, none twice, and every filtered node of `order`; when `order` lists every node, it outputs exactly the filtered nodes |
| Traversal.Dfs | src/algo.rs:144-166 | the method returns the fold's output order |
| Traversal.GroupStep | src/algo.rs:212-225 | opening a group at an unmarked filtered root keeps the partition invariant |
| Traversal.GroupWalkSpec | src/algo.rs:211-226 | the groups are non-empty, disjoint and without repeats, and hold exactly the marked nodes |
| Traversal.ComponentsPartition | src/algo.rs:205-228 | when `order` lists every node, the components are non-empty, pairwise disjoint, without repeats, and together hold exactly the filtered nodes |
| Traversal.ConnectedComponent | src/algo.rs:205-228 | the method returns those components |
| TraversalExamples.DfsExample1 | src/algo.rs:136 | the first documented `dfs` call gives `[0, 2, 3, 1]` |
| TraversalExamples.DfsExample2 | src/algo.rs:139 | the second gives `[0, 1, 3]` |
| TraversalExamples.DfsExample3 | src/algo.rs:142 | the third gives `[1, 0, 3]` |
| TraversalExamples.ComponentsExample1 | src/algo.rs:185 | the first documented `connected_component` call gives `[[0], [1], [2], [3]]` |
| TraversalExamples.ComponentsExample2 | src/algo.rs:194 | the second gives `[[0, 1], [3, 2]]` |
| TraversalExamples.ComponentsExample3 | src/algo.rs:203 | the third gives `[[0, 1, 2, 3]]` |
| Components.Range | src/algo.rs:232 | `(0..size).collect()` lists `0, 1, …, size - 1` |
| Components.CliqueBySet | src/algo.rs:240 | groups with the same nodes are cliques together or not at all |
| Components.CutsCoverFilter | src/algo.rs:244 | the components of a group hold exactly its nodes, and none is empty |
| Components.PlaceAllPool | src/algo.rs:245-248 | every piece goes to `reste` or back on the stack, and no node is lost or added |
| Components.PlaceAllBound | src/algo.rs:245-248 | pieces pushed back raise the termination measure (sum of squared sizes) by at most `(L - 1)` per node |
| Components.PlaceAllNonCliques | src/algo.rs:246 | a piece as large as a non-clique group holds its nodes and is not a clique either, so `reste` holds only non-cliques |
| Components.SplitGroup | src/algo.rs:243-249 | splitting a non-clique group keeps every node, strictly lowers the measure, and leaves only non-cliques in `reste` |
| Components.Decompose | src/algo.rs:237-251 | the loop terminates; every node of `0..size` ends in exactly one group of `components` or `reste`; the components are cliques and the `reste` groups are not |
| Components.DeltaComponents | src/algo.rs:230-252 | the same, over the Δ-reachability graph of the whole stream |
| Existence.Positions | src/algo.rs:261 | every slot in the map is a valid index into `nodes` |
| Existence.PositionsSpec | src/algo.rs:261 | the map holds exactly the listed nodes, each at a slot holding it, and no later slot holds it again |
| Existence.PositionMap | src/algo.rs:261 | the insert loop builds that map |
| Existence.Existing | src/algo.rs:267-270 | the existence vector has one entry per tracked slot |
| Existence.ExistScan | src/algo.rs:257-287 | one record entry per tracked node, none below the tracked time; the tracked time is the last link's time, or `MAX` |
| Existence.DeltaExistence | src/algo.rs:257-287 | the method returns the fold's pairs |
| Existence.ExistRecord | src/algo.rs:279-284 | each record slot holds the time of the last link touching its node if the map keeps that slot, and `MAX` otherwise |
| Existence.SeenWithin | src/algo.rs:267-270 | one flag per tracked node |
| Existence.ExistSample | src/algo.rs:274-277 | a pair is emitted exactly at a change of time; it carries the new time and flags the nodes last seen less than Δ after the time being left |
| Existence.ExistTimes | src/algo.rs:272-278 | the emitted times are exactly the changes of timestamp along the stream |
| Counters.DegreeScan | src/algo.rs:293-306 | the pair matrix is square and the degree vector has `size` entries |
| Counters.Mark | src/algo.rs:299-300 | the two `set` calls mark `(u, v)` and `(v, u)` and nothing else |
| Counters.CountDegrees | src/algo.rs:293-306 | the method returns the fold's degree vector |
| Counters.DegreeLinked | src/algo.rs:298-300 | a pair is marked exactly when some link joins it, in either direction |
| Counters.PartnersStep | src/algo.rs:298-302 | marking a new pair gives each end one new partner (none for a self-loop) and no other node one |
| Counters.DegreeCount | src/algo.rs:293-306 | each degree is the number of distinct other nodes linked with the node, plus two for a self-loop |
| Counters.ApparitionScan | src/algo.rs:309-330 | one pair and one flag per node |
| Counters.CountFirstAndLastApparition | src/algo.rs:309-330 | the method returns the fold's pairs |
| Counters.ApparitionTimes | src/algo.rs:313-328 | a node is flagged exactly when a link touches it; its pair is then (time of the latest touching link, time of the earliest), and `(0, 0)` otherwise |
| Counters.TouchBounds | src/algo.rs:316-327 | in non-increasing time order the pair is (smallest, largest) time of the node's links: first and last appearance in time |
| Counters.SeenNodesMembers | src/algo.rs:338-339 | `seens` holds exactly the node ids of the stream |
| Counters.SeenNodesDistinct | src/algo.rs:338-339 | `seens` has no repeat |
| Counters.SeenNodesCount | src/algo.rs:333-342 | the length of `seens` is the number of distinct node ids |
| Counters.CountNodesAndLinks | src/algo.rs:333-342 | returns the number of distinct node ids and the number of links |
| Rename.FreshIdFits | src/data/iterators/rename_link_iterator.rs:32-39 | while an id is still unnamed, fewer than `usize::MAX + 1` ids are named, so the new id fits |
| Rename.Rename | src/data/iterators/rename_link_iterator.rs:32-39 | after any prefix of the stream, `count` is the number of named ids |
| Rename.Emitted | src/data/iterators/rename_link_iterator.rs:28-49 | the iterator hands out one link per link of the source |
| Rename.Insert | src/data/iterators/rename_link_iterator.rs:32-35 | after naming, `count` is the number of keys and the id is a key |
| Rename.InsertKeeps | src/data/iterators/rename_link_iterator.rs:32-39 | naming keeps the ids numbered `0..count` one-to-one, and keeps every id already named |
| Rename.RenameNumbering | src/data/iterators/rename_link_iterator.rs:32-39 | after every call `count` is the number of keys, every new id is below `count`, and no two keys share one, so the new ids are exactly `0..count` |
| Rename.Relabel | src/data/iterators/rename_link_iterator.rs:40-46 | the link handed out carries the new ids of its ends and the original time |
| Rename.RenameStep | src/data/iterators/rename_link_iterator.rs:32-39 | reading one link names `node1`, then `node2` |
| Rename.RenameLinkIter.constructor | src/data/iterators/rename_link_iterator.rs:17-23 | a new iterator has an empty map and a zero count |
| Rename.RenameLinkIter.Name | src/data/iterators/rename_link_iterator.rs:32-35 | one `contains_key`/`insert` block names the id |
| Rename.RenameLinkIter.Next | src/data/iterators/rename_link_iterator.rs:28-49 | `None`, with map and count unchanged, once the source is exhausted; otherwise the link under the new names with its time unchanged, and the fields hold the renaming of everything read |
| Rename.InsertInOrder | src/data/iterators/rename_link_iterator.rs:32-39 | naming an id appends it to the order of first appearance when it is new |
| Rename.RenameInOrder | src/data/iterators/rename_link_iterator.rs:32-39 | new ids follow the order of first appearance, `node1` before `node2`; `count` is the number of distinct ids read |
| Rename.NewIds | src/data/iterators/rename_link_iterator.rs:32-39 | a link adds at most two ids, and a self-loop at most one |
| Rename.RenameStable | src/data/iterators/rename_link_iterator.rs:32-41 | once named, an id keeps its new id for the rest of the stream |
| Rename.EmittedUniform | src/data/iterators/rename_link_iterator.rs:40-46 | the whole output is the input under one renaming, the final one, with times untouched |
| Rename.Collect | src/data/iterators/rename_link_iterator.rs:28-49 | calling `next` until `None` hands out exactly the renamed stream |

## Left out

- Reading links from standard input, the command-line front end, the
  random link generator and all printing are not modelled. The `println!`
  in `is_delta_connected` is dropped and its returned vector is kept.
  Streams are given as `seq<Link>`.
- `is_subset_delta_clique` has no body in the shown matrix code. It is a
  function parameter of `IsDeltaConnected`, and nothing is proved about its
  verdicts.
- The shown `matrix.rs` is older than the one `algo.rs` calls. The newer
  one has `width`/`height`, a three-argument `new`, `successors` and
  `predecessors`. The model uses one square matrix with
  `width == height == size`. `successors(v)` is the ascending list of `j`
  with a non-zero `(v, j)`, and `predecessors(v)` the ascending list of `i`
  with a non-zero `(i, v)`. This reading reproduces the documented
  examples.
- `Matrix::parse`, `transpose`, and the routines `main.rs` calls whose
  source is not shown are not modelled: `delta_components_upper`/`_lower`,
  `largest_boxe`, `existence_intervals` and `delta_partition`.
- `u64` wrap-around in `dist - time` and `time - t_curr` is not modelled.
  Streams in non-increasing time order are a precondition under which
  neither subtraction underflows. `delta_existence` under it is proved
  without wrap-around for every input.
- `Existence.ExistTimes` assumes no link carries the time `u64::MAX`. The
  source uses that value as the "no time yet" sentinel, so such a link
  would not open a timestamp.
- `Counters.CountDegrees` uses unbounded degrees where the source uses
  `u32`. A node would need more than 2^32 - 1 distinct neighbours to make
  them differ.
- `Rename.RenameLinkIter.Next` does not model an overflow of `count` when
  it steps past `usize::MAX`. That takes every one of the 2^64 node ids;
  the ids handed out are proved to fit in a `usize`.
- `HashMap` is a Dafny `map`. The decorated iterator is the sequence of
  links it would yield, plus a position.
- `is_subset_clique` takes a closure. `delta_components` passes it
  `|node| filter.contains(&node)`, modelled as the total function
  `Components.Member`.
- A panic on an out-of-range index or a failed `assert!` is a
  precondition of the method, except in `parse_line`. There the failure is
  modelled as `None`.
- `Reachability.InRange`, and the matching precondition of
  `Components.DeltaComponents`, also exclude one case that does not panic:
  `size == 0` with links that pass the filters. With empty matrices,
  `diag`, `copy` and the `for i in 0..width` loop of `maj_distance` do
  nothing, so the source only moves `curr`. The model does not cover
  streams over a zero-sized matrix.
