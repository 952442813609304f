# Prim's traversal over a binary min-heap of edges

The program models a graph as `Node`s (an integer ID and a `visited` flag)
joined by directed, weighted `Edge`s. `primsAlgorithm` starts from the
nodes already marked visited. Its seed scan pushes every edge that leaves
a visited node for an unvisited one onto a `MinHeap` ordered by weight, and
records each such edge's source ID. Its main loop then runs until the heap
is empty. Each turn does four things:

- polls the root edge;
- records the edge's destination ID unless it is already recorded;
- marks that destination visited;
- re-scans the whole edge list, pushing every crossing edge the heap does
  not already hold (same endpoints, same weight).

The heap keeps its edges in an `ArrayList` laid out as a binary tree:
- `add` appends the edge and sifts it up;
- `poll` takes index 0 out with `remove(0)`, which shifts every later
  edge one place left, then sifts the new index 0 down.

The model has three layers:

- **Value specifications** (`HeapSpec`, `PrimSpec`). These are pure
  functions that compute exactly what the code does to the heap list and
  to the driver's state. They cover sift-up with its fixed probe, sift-down
  with its saved element, the shifting removal, the seed scan, one turn of
  the loop, and the whole loop. The lemmas about them state what the code
  promises.
- **Imperative code** (`PriorityQueue`, `Prim`).
  - `MinHeap` is a class whose `heap` field the methods reassign.
  - The driver updates a `visited: array<bool>` in place, indexed by node
    ID.
  - Each method is proved to leave exactly the state the corresponding
    specification function describes.
- **Concrete runs** (`HeapScenarios`, `PrimScenarios`). These are the heap
  traces and the driver runs on the example graph of `main`, worked out
  from the definitions.

Nodes are represented by their IDs, and `Edge` is a value type. The
reference comparison in `containsEdge` therefore becomes equality of IDs
and weights, which assumes that node IDs are distinct.

## Model

| member | source | states |
|---|---|---|
| HeapSpec.Parent | src/Main.java:25-28 | Index 0 is its own parent under truncating division. Every other index is strictly greater than its parent and is the parent's first or second child. |
| HeapSpec.KthChild | src/Main.java:30-33 | For `k` in 1..2, the `k`-th child of `i` lies after `i` and has `i` as its parent. |
| HeapSpec.MinChildIndex | src/Main.java:47-59 | The chosen index is a child of `i` and is no heavier than either child. The second child is chosen only when it is strictly lighter, so the first child wins ties. |
| HeapSpec.Swap | src/Main.java:79 | `Collections.swap` on the list: the length is kept (`SwapPermutes` proves the edges are only exchanged). |
| HeapSpec.SiftUpFrom | src/Main.java:72-84 | The `heapifyUp` loop, with the probe fixed at the edge first found at the start index and no early exit: the length is kept (`SiftUpPermutes`, `SiftUpRestores` give its meaning). |
| HeapSpec.SiftDownFrom | src/Main.java:87-101 | The `heapifyDown` loop with its saved edge, `break` and final `set`: the length is kept (`SiftDownPermutes`, `SiftDownRestores` give its meaning). |
| HeapSpec.Added | src/Main.java:36-45 | `add`: the list grows by exactly one (`AddedContents`, `AddedMembers`, `AddedKeepsOrder` give its meaning). |
| HeapSpec.Removed | src/Main.java:104-115 | What `poll` leaves: the list shrinks by exactly one (`RemovedContents`, `RemovedMembers`, `PollBreaksOrder` give its meaning). |
| HeapSpec.AddedAll | src/Main.java:36-45 | A series of `add`s: the list grows by the number of edges added (`AddedAllKeepsHeap`, `BuiltByAdds` give its meaning). |
| HeapSpec.SwapPermutes | src/Main.java:79 | Exchanging two positions keeps the multiset of edges. |
| HeapSpec.SiftUpPermutes | src/Main.java:72-84 | Sift-up only swaps: the multiset of edges is unchanged. |
| HeapSpec.SiftDownPermutes | src/Main.java:87-101 | Sift-down only swaps, then stores the saved edge back: the multiset of edges is unchanged. |
| HeapSpec.AddedContents | src/Main.java:36-45 | `add` grows the list by exactly one, and the multiset gains exactly the new edge. |
| HeapSpec.RemovedContents | src/Main.java:104-115 | `poll` shrinks the list by one, and the multiset loses exactly one copy of the old root. |
| HeapSpec.AddedMembers | src/Main.java:36-45 | After `add`, an edge is stored iff it was stored before or is the new edge. |
| HeapSpec.RemovedMembers | src/Main.java:104-115 | After `poll`, only old edges are stored, and every old edge other than the root still is. |
| HeapSpec.RootIsLightest | src/Main.java:71-84 | In a heap-ordered list (parent weight ≤ child weight), index 0 holds a lightest edge. |
| HeapSpec.SiftUpSettled | src/Main.java:76-83 | When the list is ordered and the probe is no lighter than the element at the index, the rest of the loop swaps nothing. |
| HeapSpec.SiftUpStep | src/Main.java:78-82 | One sift-up swap moves the only disorder from an index to its parent. |
| HeapSpec.SiftUpRestores | src/Main.java:72-84 | If the only disorder is between the start index and its parent, sift-up leaves the list heap-ordered. |
| HeapSpec.AddedKeepsOrder | src/Main.java:36-45 | `add` keeps a heap-ordered list heap-ordered. |
| HeapSpec.AddedAllKeepsHeap | src/Main.java:36-45 | A series of `add`s keeps the list heap-ordered and stores exactly the old edges plus the added ones. |
| HeapSpec.BuiltByAdds | src/Main.java:36-45 | A heap built only by `add`s from empty is heap-ordered, holds exactly the added edges, and has a lightest of them at index 0. |
| HeapSpec.SiftDownStep | src/Main.java:91-99 | One sift-down swap with the lighter child moves the only disorder from an index down to that child. |
| HeapSpec.SiftDownRestores | src/Main.java:87-101 | If the only disorder is between the start index and its children, sift-down leaves the list heap-ordered. |
| PriorityQueue.MinHeap.constructor | src/Main.java:15-18 | A new heap is empty. |
| PriorityQueue.MinHeap.IsEmpty | src/Main.java:21-23 | True exactly when no edge is stored. |
| PriorityQueue.MinHeap.Add | src/Main.java:36-45 | The new list is the old one with the edge appended and sifted up (`Added`). The multiset gains exactly that edge, and a heap-ordered list stays heap-ordered. |
| PriorityQueue.MinHeap.MinChild | src/Main.java:48-59 | The counting loop returns the index `MinChildIndex` describes. |
| PriorityQueue.MinHeap.ContainsEdge | src/Main.java:62-69 | True iff an edge with the same source, destination and weight is stored. The heap is unchanged. |
| PriorityQueue.MinHeap.HeapifyUp | src/Main.java:72-84 | The new list is `SiftUpFrom` of the old list and the edge first found at the index. The multiset is unchanged. The list ends heap-ordered when the only disorder was at that index. |
| PriorityQueue.MinHeap.HeapifyDown | src/Main.java:87-101 | The new list is `SiftDownFrom` of the old list and the saved edge. The multiset is unchanged. The list ends heap-ordered when the only disorder was below that index. |
| PriorityQueue.MinHeap.Poll | src/Main.java:104-115 | On an empty heap: the underflow outcome, heap unchanged. Otherwise: returns the old root, leaves `Removed` of the old list (shift left, then sift down), and the multiset loses exactly that root. |
| PrimSpec.Crossing | src/Main.java:170 | The test both scans apply (visited source, unvisited destination, both in range). A crossing edge is never a self-loop. |
| PrimSpec.SeedUpTo | src/Main.java:169-178 | The seed scan never changes a flag (`SeedHeap`, `SeedRecords` say what it pushes and records). |
| PrimSpec.RescanUpTo | src/Main.java:196-202 | The re-scan's heap is at least as long as the old one and gains at most one edge per list edge it looks at (`RescanKeeps`, `RescanGrows`, `RescanCovers`, `RescanSettled` say which edges). |
| PrimSpec.Iterate | src/Main.java:183-202 | One turn keeps the number of nodes, marks the polled destination visited, and records it after the IDs already recorded. |
| PrimSpec.Run | src/Main.java:181-203 | The main loop, defined under the crossing-edges invariant and terminating on (unvisited nodes, heap size); it keeps the number of nodes (`RunCloses`, `RunRecords`, `RunRecordsExactly` give its meaning). |
| PrimSpec.Prims | src/Main.java:160-207 | `primsAlgorithm` as the seed scan followed by the main loop; it keeps the number of nodes (`PrimsFacts` gives its meaning). |
| PrimSpec.Record | src/Main.java:186-190 | The ID is in the result, the old list is a prefix of it, nothing else is added, and no duplicate is introduced. |
| PrimSpec.MarkVisited | src/Main.java:193 | Marking an unvisited node lowers the number of unvisited nodes by one. |
| PrimSpec.SeedHeap | src/Main.java:169-178 | The seed scan pushes exactly the crossing edges of the list. |
| PrimSpec.SeedRecords | src/Main.java:169-178 | The seed scan records an ID iff it is the source of a crossing edge. No ID is recorded twice, and every recorded node is visited. |
| PrimSpec.SeedInvariant | src/Main.java:169-178 | After the seed scan, every edge crossing from a visited to an unvisited node is in the heap, and the heap holds only list edges with a visited source. |
| PrimSpec.SeedWithoutCrossing | src/Main.java:169-178 | A seed scan that meets no crossing edge pushes nothing and records nothing. |
| PrimSpec.RescanKeeps | src/Main.java:196-202 | The re-scan only adds: every pending edge stays pending, and the old multiset of edges is contained in the new one. |
| PrimSpec.RescanGrows | src/Main.java:196-202 | The re-scan adds only crossing list edges. |
| PrimSpec.RescanCovers | src/Main.java:196-202 | After the re-scan, every crossing list edge is in the heap. |
| PrimSpec.RescanSettled | src/Main.java:196-202 | The re-scan adds nothing when every crossing edge is already pending. |
| PrimSpec.RescanSettledFrom | src/Main.java:196-202 | A stretch of the re-scan whose crossing edges are all pending when it starts adds nothing. |
| PrimSpec.IterateProgress | src/Main.java:181-203 | One turn keeps the crossing-edges invariant. It either marks a new node, or it polled a stale edge: then it adds nothing back and the heap shrinks by one. So (unvisited nodes, heap size) decreases lexicographically. |
| PrimSpec.RunCloses | src/Main.java:181-203 | The main loop ends with an empty heap and no edge crossing from visited to unvisited, and it never clears a `visited` flag. |
| PrimSpec.IterateRecords | src/Main.java:183-202 | One turn records exactly the polled destination. If that node was already visited, it was already recorded. Every pending edge still leads to an unvisited or recorded node. |
| PrimSpec.RunRecords | src/Main.java:181-203 | The recorded IDs only grow and never repeat. They all name visited nodes, and they include every node the loop marks. |
| PrimSpec.RunRecordsExactly | src/Main.java:181-203 | At the end of the main loop, an ID is recorded iff it was recorded before the loop or names a node the loop newly marked. |
| PrimSpec.RunEntersByEdges | src/Main.java:184-193 | Every node the loop marks is the destination of a list edge whose source ends up visited. |
| PrimSpec.ClosedPathStaysVisited | src/Main.java:196-202 | When no edge crosses the cut, every node along a source-to-destination path from a visited node is visited. |
| PrimSpec.PrimsFacts | src/Main.java:160-207 | For the whole algorithm: an ID is recorded iff it is the source of an initially crossing edge or a newly visited node; no duplicate IDs, recorded nodes visited, flags go only from false to true, newly visited nodes recorded and entered along a list edge, and no crossing edge left. |
| PrimSpec.PrimsReachesAll | src/Main.java:160-207 | Every node reachable along source-to-destination edges from an initially visited node ends up visited. |
| PrimSpec.PrimsWithoutCrossing | src/Main.java:169-181 | When no edge crosses at the start, nothing is recorded and nothing changes: a start node is recorded only as the source of a crossing edge. |
| Prim.Rescan | src/Main.java:196-202 | The loop over the list, with `containsEdge` and `add`, leaves exactly the heap `RescanUpTo` describes. |
| Prim.PrimsAlgorithm | src/Main.java:160-207 | The returned IDs, the final flags and the empty heap are those `Prims` computes. Also: the returned IDs are exactly the sources of the initially crossing edges and the newly visited nodes, with no duplicates; recorded nodes are visited, flags are only set, and no crossing edge is left. |
| HeapScenarios.Drain | src/Main.java:104-115 | Polling until the heap is empty yields one weight per stored edge (`DrainWeights` ties them to the edges `DrainEdges` lists). |
| HeapScenarios.DrainEdges | src/Main.java:104-115 | Polling until the heap is empty returns one edge per stored edge. |
| HeapScenarios.DrainEdgesPermutes | src/Main.java:104-115 | Draining the heap returns every stored edge exactly once: the returned edges form the same multiset as the stored ones. |
| HeapScenarios.DrainWeights | src/Main.java:104-115 | The i-th weight `Drain` lists is the weight of the i-th edge `DrainEdges` lists. |
| HeapScenarios.FiveAdds | src/Main.java:36-45 | Adding weights 5, 3, 8, 1, 4 leaves the list 1, 3, 8, 5, 4. |
| HeapScenarios.FivePolls | src/Main.java:104-115 | Polling that heap until it is empty returns 1, 3, 4, 5, 8. |
| HeapScenarios.SevenAdds | src/Main.java:36-45 | Adding weights 1, 5, 2, 6, 7, 3, 4 leaves the list in that order. |
| HeapScenarios.SevenPolls | src/Main.java:104-115 | Polling that heap until it is empty returns 1, 2, 3, 5, 4, 6, 7. |
| HeapScenarios.SevenPollsFirst | src/Main.java:104-115 | The first poll of that heap leaves weights 2, 3, 6, 7, 5, 4. |
| HeapScenarios.PollBreaksOrder | src/Main.java:108-113 | That heap is ordered, but one `poll` (shift, then sift-down) leaves 6 as the parent of 4. |
| PrimScenarios.MainOrder | src/Main.java:209-238 | On the example graph from node 0, every node ends up visited and the IDs are recorded as 0, 1, 2, 4, 3, 5, 6. |
| PrimScenarios.MainTurn1 | src/Main.java:181-203 | After node 1 joins, the heap is (0,2,4), (0,3,4), (1,2,5), (1,4,4): three weight-4 edges pending, with (0,2,4) at index 0. |
| PrimScenarios.PrunedOrder | src/Main.java:223-235 | Without edge 5 -> 6, node 6 stays unvisited and the IDs are recorded as 0, 1, 2, 4, 3, 5. |
| PrimScenarios.EmptyEdgeList | src/Main.java:169-181 | With an empty edge list nothing is recorded (the output is `[]`) and no flag changes. |

Three behaviours of the code shape these results:

- `poll` takes index 0 out with `remove(0)` (src/Main.java:110), which
  shifts every later edge one place left; it does not move the last edge
  into the root. The comments at src/Main.java:86 and :103 say that the
  lightest edge ends up at the root. But the shift can leave the list out
  of heap order (`PollBreaksOrder`), and a later `poll` can then return an
  edge that is not the lightest one pending (`SevenPolls` returns 5 while
  4 is pending).
- On the example graph of `main`, after turn 1 the heap holds three
  weight-4 edges, with (0,2,4) at index 0 (`MainTurn1`). So node 2 is
  recorded third, and the recorded order is `[0, 1, 2, 4, 3, 5, 6]`
  (`MainOrder`).
- A start node is recorded only as the source of a crossing edge
  (src/Main.java:170-175). So an empty edge list records nothing and the
  result is `[]` (`EmptyEdgeList`).

## Left out

- Printing the recorded IDs (src/Main.java:206). `PrimsAlgorithm` returns them instead.
- The branching factor is fixed at 2, the only value the constructor sets (src/Main.java:16). For a larger factor, `minChild`'s `kthChild(ind, k++)` (src/Main.java:56) would recompute the child it just compared instead of the next one. That case is not modelled.
- `HeapSpec.Parent`, `HeapSpec.KthChild`: indices and weights are unbounded integers. Java's 32-bit overflow of `2 * i + k` and of the list size is not modelled. Weights are only compared, never added.
- `Node` objects and their identity: a node is its ID, used as an index into the `visited` array. Two distinct `Node` objects with the same ID are not modelled.
- `Node`'s constructor and `setVisited` (src/Main.java:128-136) are the initial contents of the `visited` array.
- `main` (src/Main.java:209-239) appears only as the concrete runs in `PrimScenarios`.
- `PriorityQueue.MinHeap.HeapifyUp`, `PriorityQueue.MinHeap.HeapifyDown`: both require an index inside the list. Called with an index outside the list, the public `heapifyUp` (src/Main.java:72-74) would throw `IndexOutOfBoundsException`, and that call is not modelled. Its only caller in the program, `add`, passes the last index of a non-empty list, and the private `heapifyDown` is called only by `poll` on a non-empty list.
- The underflow exception of `poll` becomes the `Underflow` outcome. The driver never polls an empty heap.
- No claim that the result is a minimum spanning tree, or that each poll returns a lightest pending edge. `PollBreaksOrder` shows that `poll` can leave the heap out of order, and traversal follows edge direction only.
- Aliasing of the backing `ArrayList`: the heap list is a value that the methods reassign, so no other reference to it is modelled.
