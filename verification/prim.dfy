/**
 * `primsAlgorithm`: the driver that grows the visited set from the
 * pre-visited nodes by repeatedly polling the edge heap.
 *
 * Nodes are the indices of `visited`; the flag array is updated in
 * place as the source updates each `Node.visited`. Instead of printing
 * the recorded IDs, the method returns them.
 */
module Prim {
  import opened Edges
  import opened HeapSpec
  import opened PriorityQueue
  import opened PrimSpec

  /**
   * The re-scan inside the main loop: push every edge that leaves a
   * visited node for an unvisited one and is not already pending.
   */
  method Rescan(edgeList: seq<Edge>, visited: array<bool>, mH: MinHeap)
    requires EdgesWithin(edgeList, visited.Length)
    modifies mH
    ensures mH.heap == RescanUpTo(edgeList, visited[..], old(mH.heap), |edgeList|)
  {
    for idx := 0 to |edgeList|
      invariant mH.heap == RescanUpTo(edgeList, visited[..], old(mH.heap), idx)
    {
      var edge := edgeList[idx];
      assert Crossing(visited[..], edge) == (visited[edge.src] && !visited[edge.dst]);
      if visited[edge.src] && !visited[edge.dst] {
        var present := mH.ContainsEdge(edge.src, edge.dst, edge.weight);
        if !present {
          mH.Add(edge.src, edge.dst, edge.weight);
        }
      }
    }
  }

  method PrimsAlgorithm(edgeList: seq<Edge>, visited: array<bool>) returns (visitedNodes: seq<nat>)
    requires EdgesWithin(edgeList, visited.Length)
    modifies visited
    ensures Prims(edgeList, old(visited[..])) == State(visited[..], visitedNodes, [])
    ensures NoDup(visitedNodes)
    ensures forall id :: id in visitedNodes ==> id < visited.Length && visited[id]
    ensures forall i :: 0 <= i < visited.Length && old(visited[i]) ==> visited[i]
    ensures forall i :: 0 <= i < visited.Length && visited[i] && !old(visited[i]) ==> i in visitedNodes
    ensures Closed(edgeList, visited[..])
    ensures forall id: nat :: id in visitedNodes <==>
      (exists j :: 0 <= j < |edgeList| && Crossing(old(visited[..]), edgeList[j]) && edgeList[j].src == id) ||
      (id < visited.Length && visited[id] && !old(visited[id]))
  {
    var mH := new MinHeap();
    visitedNodes := [];

    // Seed: push every edge leaving a visited node for an unvisited one.
    for idx := 0 to |edgeList|
      invariant visited[..] == old(visited[..])
      invariant State(visited[..], visitedNodes, mH.heap) == SeedUpTo(edgeList, visited[..], idx)
    {
      var edge := edgeList[idx];
      if visited[edge.src] && !visited[edge.dst] {
        if edge.src !in visitedNodes {
          visitedNodes := visitedNodes + [edge.src];
        }
        mH.Add(edge.src, edge.dst, edge.weight);
      }
    }
    ghost var seeded := State(visited[..], visitedNodes, mH.heap);
    SeedInvariant(edgeList, visited[..]);

    while !mH.IsEmpty()
      invariant Invariant(edgeList, State(visited[..], visitedNodes, mH.heap))
      invariant Run(edgeList, State(visited[..], visitedNodes, mH.heap)) == Run(edgeList, seeded)
      decreases Unvisited(visited[..]), |mH.heap|
    {
      ghost var before := State(visited[..], visitedNodes, mH.heap);
      IterateProgress(edgeList, before);

      var polled := mH.Poll();
      var currentEdge := polled.edge;
      if currentEdge.dst !in visitedNodes {
        visitedNodes := visitedNodes + [currentEdge.dst];
      }
      visited[currentEdge.dst] := true;

      ghost var rest := mH.heap;
      Rescan(edgeList, visited, mH);
      assert State(visited[..], visitedNodes, mH.heap) == Iterate(edgeList, before);
    }
    PrimsFacts(edgeList, old(visited[..]));
  }
}
