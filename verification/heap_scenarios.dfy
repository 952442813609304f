/**
 * Concrete runs of the heap, worked out from the definitions: the order in
 * which `poll` hands edges back after a series of `add`s, and an ordered
 * heap that a single `poll` leaves out of order. Every edge here runs from
 * node 0 to a distinct node, so only the weights matter.
 */
module HeapScenarios {
  import opened Edges
  import opened HeapSpec

  /** The weights `poll` returns, one call after the other, until the heap is empty. */
  function Drain(s: seq<Edge>): (weights: seq<int>)
    ensures |weights| == |s|
    decreases |s|
  {
    if s == [] then [] else [s[0].weight] + Drain(Removed(s))
  }

  /** The edges `poll` returns, one call after the other, until the heap is empty. */
  function DrainEdges(s: seq<Edge>): (edges: seq<Edge>)
    ensures |edges| == |s|
    decreases |s|
  {
    if s == [] then [] else [s[0]] + DrainEdges(Removed(s))
  }

  /** Draining the heap hands back every stored edge exactly once. */
  lemma {:induction false} DrainEdgesPermutes(s: seq<Edge>)
    ensures multiset(DrainEdges(s)) == multiset(s)
    decreases |s|
  {
    if s != [] {
      RemovedContents(s);
      DrainEdgesPermutes(Removed(s));
      assert s[0] in multiset(s);
    }
  }

  /** The weights `Drain` lists are those of the edges `DrainEdges` lists, in the same order. */
  lemma {:induction false} DrainWeights(s: seq<Edge>)
    ensures forall i :: 0 <= i < |s| ==> Drain(s)[i] == DrainEdges(s)[i].weight
    decreases |s|
  {
    if s != [] {
      DrainWeights(Removed(s));
      forall i | 0 <= i < |s|
        ensures Drain(s)[i] == DrainEdges(s)[i].weight
      {
        if i > 0 {
          assert Drain(s)[i] == Drain(Removed(s))[i - 1];
          assert DrainEdges(s)[i] == DrainEdges(Removed(s))[i - 1];
        }
      }
    }
  }

  /** Adding weights 5, 3, 8, 1, 4 to an empty heap: the 3 and then the 1 sift up to the root. */
  lemma FiveAdds()
    ensures AddedAll([], [Edge(0, 0, 5), Edge(0, 1, 3), Edge(0, 2, 8), Edge(0, 3, 1), Edge(0, 4, 4)])
         == [Edge(0, 3, 1), Edge(0, 1, 3), Edge(0, 2, 8), Edge(0, 0, 5), Edge(0, 4, 4)]
  {
  }

  /** Polling that heap until it is empty hands back the weights in ascending order. */
  lemma FivePolls()
    ensures Drain([Edge(0, 3, 1), Edge(0, 1, 3), Edge(0, 2, 8), Edge(0, 0, 5), Edge(0, 4, 4)]) == [1, 3, 4, 5, 8]
  {
  }

  /** Adding weights 1, 5, 2, 6, 7, 3, 4 to an empty heap: every add leaves the list as it is. */
  lemma SevenAdds()
    ensures AddedAll([], [Edge(0, 0, 1), Edge(0, 1, 5), Edge(0, 2, 2), Edge(0, 3, 6), Edge(0, 4, 7), Edge(0, 5, 3), Edge(0, 6, 4)])
         == [Edge(0, 0, 1), Edge(0, 1, 5), Edge(0, 2, 2), Edge(0, 3, 6), Edge(0, 4, 7), Edge(0, 5, 3), Edge(0, 6, 4)]
  {
  }

  /**
   * Polling that heap until it is empty hands back 1, 2, 3, 5, 4, 6, 7: the
   * shift in the first poll leaves 4 below 6, so 5 comes out before 4.
   */
  lemma SevenPolls()
    ensures Drain([Edge(0, 0, 1), Edge(0, 1, 5), Edge(0, 2, 2), Edge(0, 3, 6), Edge(0, 4, 7), Edge(0, 5, 3), Edge(0, 6, 4)]) == [1, 2, 3, 5, 4, 6, 7]
  {
    SevenPollsFirst();
    SevenPollsLastSix();
  }

  /**
   * The first poll of `SevenPolls`: after the shift the sift-down brings
   * 2 to the root and leaves 4 below 6.
   */
  lemma SevenPollsFirst()
    ensures Removed([Edge(0, 0, 1), Edge(0, 1, 5), Edge(0, 2, 2), Edge(0, 3, 6), Edge(0, 4, 7), Edge(0, 5, 3), Edge(0, 6, 4)]) == [Edge(0, 2, 2), Edge(0, 5, 3), Edge(0, 3, 6), Edge(0, 4, 7), Edge(0, 1, 5), Edge(0, 6, 4)]
  {
    assert Removed([Edge(0, 0, 1), Edge(0, 1, 5), Edge(0, 2, 2), Edge(0, 3, 6), Edge(0, 4, 7), Edge(0, 5, 3), Edge(0, 6, 4)]) == [Edge(0, 2, 2), Edge(0, 5, 3), Edge(0, 3, 6), Edge(0, 4, 7), Edge(0, 1, 5), Edge(0, 6, 4)];
  }

  /** The last six polls of `SevenPolls`. */
  lemma SevenPollsLastSix()
    ensures Drain([Edge(0, 2, 2), Edge(0, 5, 3), Edge(0, 3, 6), Edge(0, 4, 7), Edge(0, 1, 5), Edge(0, 6, 4)]) == [2, 3, 5, 4, 6, 7]
  {
    assert Removed([Edge(0, 2, 2), Edge(0, 5, 3), Edge(0, 3, 6), Edge(0, 4, 7), Edge(0, 1, 5), Edge(0, 6, 4)]) == [Edge(0, 5, 3), Edge(0, 3, 6), Edge(0, 4, 7), Edge(0, 1, 5), Edge(0, 6, 4)];
    SevenPollsLastFive();
  }

  /** The last five polls of `SevenPolls`. */
  lemma SevenPollsLastFive()
    ensures Drain([Edge(0, 5, 3), Edge(0, 3, 6), Edge(0, 4, 7), Edge(0, 1, 5), Edge(0, 6, 4)]) == [3, 5, 4, 6, 7]
  {
    assert Removed([Edge(0, 5, 3), Edge(0, 3, 6), Edge(0, 4, 7), Edge(0, 1, 5), Edge(0, 6, 4)]) == [Edge(0, 1, 5), Edge(0, 4, 7), Edge(0, 3, 6), Edge(0, 6, 4)];
    SevenPollsLastFour();
  }

  /** The last four polls of `SevenPolls`. */
  lemma SevenPollsLastFour()
    ensures Drain([Edge(0, 1, 5), Edge(0, 4, 7), Edge(0, 3, 6), Edge(0, 6, 4)]) == [5, 4, 6, 7]
  {
  }

  /**
   * The seven-edge heap is ordered, but the first poll, which shifts the
   * list left before sifting down, leaves 6 as the parent of 4.
   */
  lemma PollBreaksOrder()
    ensures HeapOrdered([Edge(0, 0, 1), Edge(0, 1, 5), Edge(0, 2, 2), Edge(0, 3, 6), Edge(0, 4, 7), Edge(0, 5, 3), Edge(0, 6, 4)])
    ensures Removed([Edge(0, 0, 1), Edge(0, 1, 5), Edge(0, 2, 2), Edge(0, 3, 6), Edge(0, 4, 7), Edge(0, 5, 3), Edge(0, 6, 4)]) == [Edge(0, 2, 2), Edge(0, 5, 3), Edge(0, 3, 6), Edge(0, 4, 7), Edge(0, 1, 5), Edge(0, 6, 4)]
    ensures !HeapOrdered([Edge(0, 2, 2), Edge(0, 5, 3), Edge(0, 3, 6), Edge(0, 4, 7), Edge(0, 1, 5), Edge(0, 6, 4)])
  {
    SevenPollsFirst();
    assert [Edge(0, 2, 2), Edge(0, 5, 3), Edge(0, 3, 6), Edge(0, 4, 7), Edge(0, 1, 5), Edge(0, 6, 4)][Parent(5)].weight > [Edge(0, 2, 2), Edge(0, 5, 3), Edge(0, 3, 6), Edge(0, 4, 7), Edge(0, 1, 5), Edge(0, 6, 4)][5].weight;
  }
}
