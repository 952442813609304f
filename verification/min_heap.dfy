/**
 * The array-list-backed binary min-heap of edges, ordered by weight.
 *
 * `heap` is the backing list; each method reassigns it the way the
 * source updates its list in place, and is proved to leave exactly the
 * list that the corresponding `HeapSpec` function describes.
 */
module PriorityQueue {
  import opened Edges
  import opened HeapSpec

  /** What `poll` yields: the removed edge, or the underflow error. */
  datatype PollResult = Polled(edge: Edge) | Underflow

  class MinHeap {
    /** The backing list, laid out as a complete binary tree. */
    var heap: seq<Edge>

    /** The only constructor: an empty heap with branching factor 2. */
    constructor ()
      ensures heap == []
    {
      heap := [];
    }

    /** True iff no edge is stored. */
    function IsEmpty(): (empty: bool)
      reads this
      ensures empty <==> heap == []
    {
      |heap| == 0
    }

    /** Append a new edge and sift it up. */
    method Add(src: nat, dst: nat, weight: int)
      modifies this
      ensures heap == Added(old(heap), Edge(src, dst, weight))
      ensures multiset(heap) == multiset(old(heap)) + multiset{Edge(src, dst, weight)}
      ensures HeapOrdered(old(heap)) ==> HeapOrdered(heap)
    {
      AddedContents(heap, Edge(src, dst, weight));
      if HeapOrdered(heap) {
        AddedKeepsOrder(heap, Edge(src, dst, weight));
      }
      heap := heap + [Edge(src, dst, weight)];
      if |heap| > 1 {
        HeapifyUp(|heap| - 1);
      }
    }

    /**
     * Index of the lighter child of `ind`; the first child wins ties. The
     * loop runs at most once: the source's counter starts at 2 and is
     * post-incremented while the index of the second child is recomputed.
     */
    method MinChild(ind: nat) returns (minChildIndex: nat)
      requires KthChild(ind, 1) < |heap|
      ensures minChildIndex == MinChildIndex(heap, ind)
    {
      minChildIndex := KthChild(ind, 1);
      var k := 2;
      var kthChild := KthChild(ind, k);
      while k <= Arity && kthChild < |heap|
        invariant 2 <= k <= Arity + 1
        invariant kthChild == KthChild(ind, 2)
        invariant k == 2 ==> minChildIndex == KthChild(ind, 1)
        invariant k > 2 ==> minChildIndex == MinChildIndex(heap, ind)
        decreases Arity + 1 - k
      {
        if heap[kthChild].weight < heap[minChildIndex].weight {
          minChildIndex := kthChild;
        }
        kthChild := KthChild(ind, k);
        k := k + 1;
      }
    }

    /** True iff an edge with the same endpoints and weight is stored. */
    method ContainsEdge(src: nat, dst: nat, weight: int) returns (found: bool)
      ensures found <==> Edge(src, dst, weight) in heap
    {
      var i := 0;
      while i < |heap|
        invariant 0 <= i <= |heap|
        invariant forall j :: 0 <= j < i ==> heap[j] != Edge(src, dst, weight)
      {
        var edge := heap[i];
        if edge.src == src && edge.dst == dst && edge.weight == weight {
          return true;
        }
        i := i + 1;
      }
      return false;
    }

    /**
     * Walk from `childInd` to the root, swapping the current index with its
     * parent whenever the edge first found at `childInd` is lighter than
     * that parent.
     */
    method HeapifyUp(childInd: nat)
      requires childInd < |heap|
      modifies this
      ensures heap == SiftUpFrom(old(heap), childInd, old(heap)[childInd])
      ensures multiset(heap) == multiset(old(heap))
      ensures OrderedExcept(old(heap), childInd) && GrandparentBound(old(heap), childInd) ==> HeapOrdered(heap)
    {
      SiftUpPermutes(heap, childInd, heap[childInd]);
      if OrderedExcept(heap, childInd) && GrandparentBound(heap, childInd) {
        SiftUpRestores(heap, childInd);
      }
      var c: nat := childInd;
      var tmp := heap[c];
      while c > 0
        invariant c < |heap|
        invariant SiftUpFrom(heap, c, tmp) == SiftUpFrom(old(heap), childInd, tmp)
        decreases c
      {
        if tmp.weight < heap[Parent(c)].weight {
          heap := Swap(heap, c, Parent(c));
        }
        c := Parent(c);
      }
    }

    /**
     * Move the edge at `ind` down past every strictly lighter minimum
     * child, then store the saved edge at the index reached.
     */
    method HeapifyDown(ind: nat)
      requires ind < |heap|
      modifies this
      ensures heap == SiftDownFrom(old(heap), ind, old(heap)[ind])
      ensures multiset(heap) == multiset(old(heap))
      ensures OrderedBelowExcept(old(heap), ind) && GrandparentBound(old(heap), ind) ==> HeapOrdered(heap)
    {
      SiftDownPermutes(heap, ind, heap[ind]);
      if OrderedBelowExcept(heap, ind) && GrandparentBound(heap, ind) {
        SiftDownRestores(heap, ind);
      }
      var i: nat := ind;
      var tempElement := heap[i];
      while KthChild(i, 1) < |heap|
        invariant i < |heap|
        invariant SiftDownFrom(heap, i, tempElement) == SiftDownFrom(old(heap), ind, tempElement)
        decreases |heap| - i
      {
        var childIndex := MinChild(i);
        if heap[childIndex].weight < tempElement.weight {
          heap := Swap(heap, i, childIndex);
        } else {
          break;
        }
        i := childIndex;
      }
      heap := heap[i := tempElement];
    }

    /**
     * Remove and return the edge at index 0, or report underflow on an
     * empty heap. The removal shifts the rest of the list left by one.
     */
    method Poll() returns (r: PollResult)
      modifies this
      ensures old(heap) == [] ==> r == Underflow && heap == old(heap)
      ensures old(heap) != [] ==> r == Polled(old(heap)[0]) && heap == Removed(old(heap))
      ensures old(heap) != [] ==> multiset(heap) == multiset(old(heap)) - multiset{old(heap)[0]}
    {
      if IsEmpty() {
        return Underflow;
      }
      RemovedContents(heap);
      var rootOfHeap := 0;
      var returnThisEdge := heap[rootOfHeap];
      heap := heap[1..];
      if |heap| >= 1 {
        HeapifyDown(rootOfHeap);
      }
      return Polled(returnThisEdge);
    }
  }
}
