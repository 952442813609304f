/**
 * Concrete runs of `primsAlgorithm`, worked out from the definitions:
 * the example graph of the program's `main` (seven nodes, eleven edges,
 * node 0 visited at the start), the same graph without its last edge
 * `5 -> 6`, and an empty edge list.
 *
 * Each run is split into one lemma per turn of the main loop: `...Rescan<k>`
 * fixes the heap the re-scan of turn k leaves, `...Turn<k>` the whole
 * state after turn k, and `...RunFrom<k>` the final state reached from the
 * state before turn k. Stretches of the edge list that add nothing to the
 * heap are covered by `RescanSettled` and `RescanSettledFrom` (in a
 * `...Rescan<k>Prefix` lemma when the stretch starts the list), and each
 * push in between is stated on its own.
 */
module PrimScenarios {
  import opened Edges
  import opened HeapSpec
  import opened PrimSpec

  /** The edges of the example graph, in the order the program adds them. */
  const MainGraph: seq<Edge> := [Edge(0, 1, 3), Edge(0, 2, 4), Edge(0, 3, 4), Edge(1, 2, 5), Edge(1, 4, 4), Edge(2, 3, 6), Edge(2, 4, 2), Edge(2, 5, 7), Edge(3, 5, 8), Edge(4, 5, 9), Edge(5, 6, 10)]

  /** The example graph without the edge `5 -> 6`. */
  const PrunedGraph: seq<Edge> := [Edge(0, 1, 3), Edge(0, 2, 4), Edge(0, 3, 4), Edge(1, 2, 5), Edge(1, 4, 4), Edge(2, 3, 6), Edge(2, 4, 2), Edge(2, 5, 7), Edge(3, 5, 8), Edge(4, 5, 9)]

  /** Seven nodes; only node 0 is visited, as the program marks its start node. */
  const StartAtZero: seq<bool> := [true, false, false, false, false, false, false]

  /**
   * On the example graph every node ends up visited and the IDs are
   * recorded as 0, 1, 2, 4, 3, 5, 6.
   */
  lemma MainOrder()
    ensures Prims(MainGraph, StartAtZero) == State([true, true, true, true, true, true, true], [0, 1, 2, 4, 3, 5, 6], [])
  {
    SeedInvariant(MainGraph, StartAtZero);
    MainSeed();
    MainRunFrom1();
  }

  /** Without the edge `5 -> 6`, node 6 is never reached and 0, 1, 2, 4, 3, 5 are recorded. */
  lemma PrunedOrder()
    ensures Prims(PrunedGraph, StartAtZero) == State([true, true, true, true, true, true, false], [0, 1, 2, 4, 3, 5], [])
  {
    SeedInvariant(PrunedGraph, StartAtZero);
    PrunedSeed();
    PrunedRunFrom1();
  }

  /** With no edges nothing is pushed, so not even the start node is recorded. */
  lemma EmptyEdgeList(visited: seq<bool>)
    ensures Prims([], visited) == State(visited, [], [])
  {
    PrimsWithoutCrossing([], visited);
  }

  // ---------------------------------------------------------------------
  // The example graph, turn by turn.

  /** The seed scan of `MainGraph`: the edges leaving node 0 are pushed and 0 is recorded. */
  lemma MainSeed()
    ensures SeedUpTo(MainGraph, StartAtZero, 11) == State([true, false, false, false, false, false, false], [0], [Edge(0, 1, 3), Edge(0, 2, 4), Edge(0, 3, 4)])
  {
    assert SeedUpTo(MainGraph, StartAtZero, 3) == State([true, false, false, false, false, false, false], [0], [Edge(0, 1, 3), Edge(0, 2, 4), Edge(0, 3, 4)]);
  }

  /** Turn 1: the re-scan once node 1 is visited. */
  lemma MainRescan1()
    ensures RescanUpTo(MainGraph, [true, true, false, false, false, false, false], [Edge(0, 2, 4), Edge(0, 3, 4)], 11) == [Edge(0, 2, 4), Edge(0, 3, 4), Edge(1, 2, 5), Edge(1, 4, 4)]
  {
    MainRescan1Prefix();
    assert RescanUpTo(MainGraph, [true, true, false, false, false, false, false], [Edge(0, 2, 4), Edge(0, 3, 4)], 4) == [Edge(0, 2, 4), Edge(0, 3, 4), Edge(1, 2, 5)];
    assert RescanUpTo(MainGraph, [true, true, false, false, false, false, false], [Edge(0, 2, 4), Edge(0, 3, 4)], 5) == [Edge(0, 2, 4), Edge(0, 3, 4), Edge(1, 2, 5), Edge(1, 4, 4)];
    RescanSettledFrom(MainGraph, [true, true, false, false, false, false, false], [Edge(0, 2, 4), Edge(0, 3, 4)], 5, 11);
  }

  /** In the re-scan of turn 1, edges 0 to 2 add nothing. */
  lemma MainRescan1Prefix()
    ensures RescanUpTo(MainGraph, [true, true, false, false, false, false, false], [Edge(0, 2, 4), Edge(0, 3, 4)], 3) == [Edge(0, 2, 4), Edge(0, 3, 4)]
  {
    RescanSettled(MainGraph, [true, true, false, false, false, false, false], [Edge(0, 2, 4), Edge(0, 3, 4)], 3);
  }

  /**
   * Turn 1 polls (0, 1, 3) and records node 1. Afterwards three weight-4
   * edges are pending, (0, 2, 4), (0, 3, 4) and (1, 4, 4), with (0, 2, 4)
   * at index 0, so node 2 is entered before node 4.
   */
  lemma MainTurn1()
    ensures Iterate(MainGraph, State([true, false, false, false, false, false, false], [0], [Edge(0, 1, 3), Edge(0, 2, 4), Edge(0, 3, 4)]))
         == State([true, true, false, false, false, false, false], [0, 1], [Edge(0, 2, 4), Edge(0, 3, 4), Edge(1, 2, 5), Edge(1, 4, 4)])
  {
    assert Removed([Edge(0, 1, 3), Edge(0, 2, 4), Edge(0, 3, 4)]) == [Edge(0, 2, 4), Edge(0, 3, 4)];
    assert [true, false, false, false, false, false, false][1 := true] == [true, true, false, false, false, false, false];
    assert Record([0], 1) == [0, 1];
    MainRescan1();
  }

  /** The main loop from the state before turn 1. */
  lemma MainRunFrom1()
    requires Invariant(MainGraph, State([true, false, false, false, false, false, false], [0], [Edge(0, 1, 3), Edge(0, 2, 4), Edge(0, 3, 4)]))
    ensures Run(MainGraph, State([true, false, false, false, false, false, false], [0], [Edge(0, 1, 3), Edge(0, 2, 4), Edge(0, 3, 4)])) == State([true, true, true, true, true, true, true], [0, 1, 2, 4, 3, 5, 6], [])
  {
    IterateProgress(MainGraph, State([true, false, false, false, false, false, false], [0], [Edge(0, 1, 3), Edge(0, 2, 4), Edge(0, 3, 4)]));
    MainTurn1();
    MainRunFrom2();
  }

  /** Turn 2: the re-scan once node 2 is visited. */
  lemma MainRescan2()
    ensures RescanUpTo(MainGraph, [true, true, true, false, false, false, false], [Edge(0, 3, 4), Edge(1, 2, 5), Edge(1, 4, 4)], 11) == [Edge(2, 4, 2), Edge(0, 3, 4), Edge(1, 4, 4), Edge(2, 3, 6), Edge(1, 2, 5), Edge(2, 5, 7)]
  {
    MainRescan2Prefix();
    assert RescanUpTo(MainGraph, [true, true, true, false, false, false, false], [Edge(0, 3, 4), Edge(1, 2, 5), Edge(1, 4, 4)], 6) == [Edge(0, 3, 4), Edge(1, 2, 5), Edge(1, 4, 4), Edge(2, 3, 6)];
    assert RescanUpTo(MainGraph, [true, true, true, false, false, false, false], [Edge(0, 3, 4), Edge(1, 2, 5), Edge(1, 4, 4)], 7) == [Edge(2, 4, 2), Edge(0, 3, 4), Edge(1, 4, 4), Edge(2, 3, 6), Edge(1, 2, 5)];
    assert RescanUpTo(MainGraph, [true, true, true, false, false, false, false], [Edge(0, 3, 4), Edge(1, 2, 5), Edge(1, 4, 4)], 8) == [Edge(2, 4, 2), Edge(0, 3, 4), Edge(1, 4, 4), Edge(2, 3, 6), Edge(1, 2, 5), Edge(2, 5, 7)];
    RescanSettledFrom(MainGraph, [true, true, true, false, false, false, false], [Edge(0, 3, 4), Edge(1, 2, 5), Edge(1, 4, 4)], 8, 11);
  }

  /** In the re-scan of turn 2, edges 0 to 4 add nothing. */
  lemma MainRescan2Prefix()
    ensures RescanUpTo(MainGraph, [true, true, true, false, false, false, false], [Edge(0, 3, 4), Edge(1, 2, 5), Edge(1, 4, 4)], 5) == [Edge(0, 3, 4), Edge(1, 2, 5), Edge(1, 4, 4)]
  {
    RescanSettled(MainGraph, [true, true, true, false, false, false, false], [Edge(0, 3, 4), Edge(1, 2, 5), Edge(1, 4, 4)], 5);
  }

  /** Turn 2 polls (0, 2, 4) and records node 2. */
  lemma MainTurn2()
    ensures Iterate(MainGraph, State([true, true, false, false, false, false, false], [0, 1], [Edge(0, 2, 4), Edge(0, 3, 4), Edge(1, 2, 5), Edge(1, 4, 4)]))
         == State([true, true, true, false, false, false, false], [0, 1, 2], [Edge(2, 4, 2), Edge(0, 3, 4), Edge(1, 4, 4), Edge(2, 3, 6), Edge(1, 2, 5), Edge(2, 5, 7)])
  {
    assert Removed([Edge(0, 2, 4), Edge(0, 3, 4), Edge(1, 2, 5), Edge(1, 4, 4)]) == [Edge(0, 3, 4), Edge(1, 2, 5), Edge(1, 4, 4)];
    assert [true, true, false, false, false, false, false][2 := true] == [true, true, true, false, false, false, false];
    assert Record([0, 1], 2) == [0, 1, 2];
    MainRescan2();
  }

  /** The main loop from the state before turn 2. */
  lemma MainRunFrom2()
    requires Invariant(MainGraph, State([true, true, false, false, false, false, false], [0, 1], [Edge(0, 2, 4), Edge(0, 3, 4), Edge(1, 2, 5), Edge(1, 4, 4)]))
    ensures Run(MainGraph, State([true, true, false, false, false, false, false], [0, 1], [Edge(0, 2, 4), Edge(0, 3, 4), Edge(1, 2, 5), Edge(1, 4, 4)])) == State([true, true, true, true, true, true, true], [0, 1, 2, 4, 3, 5, 6], [])
  {
    IterateProgress(MainGraph, State([true, true, false, false, false, false, false], [0, 1], [Edge(0, 2, 4), Edge(0, 3, 4), Edge(1, 2, 5), Edge(1, 4, 4)]));
    MainTurn2();
    MainRunFrom3();
  }

  /** Turn 3: the re-scan once node 4 is visited. */
  lemma MainRescan3()
    ensures RescanUpTo(MainGraph, [true, true, true, false, true, false, false], [Edge(0, 3, 4), Edge(1, 4, 4), Edge(2, 3, 6), Edge(1, 2, 5), Edge(2, 5, 7)], 11) == [Edge(0, 3, 4), Edge(1, 4, 4), Edge(2, 3, 6), Edge(1, 2, 5), Edge(2, 5, 7), Edge(4, 5, 9)]
  {
    MainRescan3Prefix();
    assert RescanUpTo(MainGraph, [true, true, true, false, true, false, false], [Edge(0, 3, 4), Edge(1, 4, 4), Edge(2, 3, 6), Edge(1, 2, 5), Edge(2, 5, 7)], 10) == [Edge(0, 3, 4), Edge(1, 4, 4), Edge(2, 3, 6), Edge(1, 2, 5), Edge(2, 5, 7), Edge(4, 5, 9)];
    RescanSettledFrom(MainGraph, [true, true, true, false, true, false, false], [Edge(0, 3, 4), Edge(1, 4, 4), Edge(2, 3, 6), Edge(1, 2, 5), Edge(2, 5, 7)], 10, 11);
  }

  /** In the re-scan of turn 3, edges 0 to 8 add nothing. */
  lemma MainRescan3Prefix()
    ensures RescanUpTo(MainGraph, [true, true, true, false, true, false, false], [Edge(0, 3, 4), Edge(1, 4, 4), Edge(2, 3, 6), Edge(1, 2, 5), Edge(2, 5, 7)], 9) == [Edge(0, 3, 4), Edge(1, 4, 4), Edge(2, 3, 6), Edge(1, 2, 5), Edge(2, 5, 7)]
  {
    RescanSettled(MainGraph, [true, true, true, false, true, false, false], [Edge(0, 3, 4), Edge(1, 4, 4), Edge(2, 3, 6), Edge(1, 2, 5), Edge(2, 5, 7)], 9);
  }

  /** Turn 3 polls (2, 4, 2) and records node 4. */
  lemma MainTurn3()
    ensures Iterate(MainGraph, State([true, true, true, false, false, false, false], [0, 1, 2], [Edge(2, 4, 2), Edge(0, 3, 4), Edge(1, 4, 4), Edge(2, 3, 6), Edge(1, 2, 5), Edge(2, 5, 7)]))
         == State([true, true, true, false, true, false, false], [0, 1, 2, 4], [Edge(0, 3, 4), Edge(1, 4, 4), Edge(2, 3, 6), Edge(1, 2, 5), Edge(2, 5, 7), Edge(4, 5, 9)])
  {
    assert Removed([Edge(2, 4, 2), Edge(0, 3, 4), Edge(1, 4, 4), Edge(2, 3, 6), Edge(1, 2, 5), Edge(2, 5, 7)]) == [Edge(0, 3, 4), Edge(1, 4, 4), Edge(2, 3, 6), Edge(1, 2, 5), Edge(2, 5, 7)];
    assert [true, true, true, false, false, false, false][4 := true] == [true, true, true, false, true, false, false];
    assert Record([0, 1, 2], 4) == [0, 1, 2, 4];
    MainRescan3();
  }

  /** The main loop from the state before turn 3. */
  lemma MainRunFrom3()
    requires Invariant(MainGraph, State([true, true, true, false, false, false, false], [0, 1, 2], [Edge(2, 4, 2), Edge(0, 3, 4), Edge(1, 4, 4), Edge(2, 3, 6), Edge(1, 2, 5), Edge(2, 5, 7)]))
    ensures Run(MainGraph, State([true, true, true, false, false, false, false], [0, 1, 2], [Edge(2, 4, 2), Edge(0, 3, 4), Edge(1, 4, 4), Edge(2, 3, 6), Edge(1, 2, 5), Edge(2, 5, 7)])) == State([true, true, true, true, true, true, true], [0, 1, 2, 4, 3, 5, 6], [])
  {
    IterateProgress(MainGraph, State([true, true, true, false, false, false, false], [0, 1, 2], [Edge(2, 4, 2), Edge(0, 3, 4), Edge(1, 4, 4), Edge(2, 3, 6), Edge(1, 2, 5), Edge(2, 5, 7)]));
    MainTurn3();
    MainRunFrom4();
  }

  /** Turn 4: the re-scan once node 3 is visited. */
  lemma MainRescan4()
    ensures RescanUpTo(MainGraph, [true, true, true, true, true, false, false], [Edge(1, 4, 4), Edge(2, 3, 6), Edge(1, 2, 5), Edge(2, 5, 7), Edge(4, 5, 9)], 11) == [Edge(1, 4, 4), Edge(2, 3, 6), Edge(1, 2, 5), Edge(2, 5, 7), Edge(4, 5, 9), Edge(3, 5, 8)]
  {
    MainRescan4Prefix();
    assert RescanUpTo(MainGraph, [true, true, true, true, true, false, false], [Edge(1, 4, 4), Edge(2, 3, 6), Edge(1, 2, 5), Edge(2, 5, 7), Edge(4, 5, 9)], 9) == [Edge(1, 4, 4), Edge(2, 3, 6), Edge(1, 2, 5), Edge(2, 5, 7), Edge(4, 5, 9), Edge(3, 5, 8)];
    RescanSettledFrom(MainGraph, [true, true, true, true, true, false, false], [Edge(1, 4, 4), Edge(2, 3, 6), Edge(1, 2, 5), Edge(2, 5, 7), Edge(4, 5, 9)], 9, 11);
  }

  /** In the re-scan of turn 4, edges 0 to 7 add nothing. */
  lemma MainRescan4Prefix()
    ensures RescanUpTo(MainGraph, [true, true, true, true, true, false, false], [Edge(1, 4, 4), Edge(2, 3, 6), Edge(1, 2, 5), Edge(2, 5, 7), Edge(4, 5, 9)], 8) == [Edge(1, 4, 4), Edge(2, 3, 6), Edge(1, 2, 5), Edge(2, 5, 7), Edge(4, 5, 9)]
  {
    RescanSettled(MainGraph, [true, true, true, true, true, false, false], [Edge(1, 4, 4), Edge(2, 3, 6), Edge(1, 2, 5), Edge(2, 5, 7), Edge(4, 5, 9)], 8);
  }

  /** Turn 4 polls (0, 3, 4) and records node 3. */
  lemma MainTurn4()
    ensures Iterate(MainGraph, State([true, true, true, false, true, false, false], [0, 1, 2, 4], [Edge(0, 3, 4), Edge(1, 4, 4), Edge(2, 3, 6), Edge(1, 2, 5), Edge(2, 5, 7), Edge(4, 5, 9)]))
         == State([true, true, true, true, true, false, false], [0, 1, 2, 4, 3], [Edge(1, 4, 4), Edge(2, 3, 6), Edge(1, 2, 5), Edge(2, 5, 7), Edge(4, 5, 9), Edge(3, 5, 8)])
  {
    assert Removed([Edge(0, 3, 4), Edge(1, 4, 4), Edge(2, 3, 6), Edge(1, 2, 5), Edge(2, 5, 7), Edge(4, 5, 9)]) == [Edge(1, 4, 4), Edge(2, 3, 6), Edge(1, 2, 5), Edge(2, 5, 7), Edge(4, 5, 9)];
    assert [true, true, true, false, true, false, false][3 := true] == [true, true, true, true, true, false, false];
    assert Record([0, 1, 2, 4], 3) == [0, 1, 2, 4, 3];
    MainRescan4();
  }

  /** The main loop from the state before turn 4. */
  lemma MainRunFrom4()
    requires Invariant(MainGraph, State([true, true, true, false, true, false, false], [0, 1, 2, 4], [Edge(0, 3, 4), Edge(1, 4, 4), Edge(2, 3, 6), Edge(1, 2, 5), Edge(2, 5, 7), Edge(4, 5, 9)]))
    ensures Run(MainGraph, State([true, true, true, false, true, false, false], [0, 1, 2, 4], [Edge(0, 3, 4), Edge(1, 4, 4), Edge(2, 3, 6), Edge(1, 2, 5), Edge(2, 5, 7), Edge(4, 5, 9)])) == State([true, true, true, true, true, true, true], [0, 1, 2, 4, 3, 5, 6], [])
  {
    IterateProgress(MainGraph, State([true, true, true, false, true, false, false], [0, 1, 2, 4], [Edge(0, 3, 4), Edge(1, 4, 4), Edge(2, 3, 6), Edge(1, 2, 5), Edge(2, 5, 7), Edge(4, 5, 9)]));
    MainTurn4();
    MainRunFrom5();
  }

  /** Turn 5: the re-scan once node 4 is visited. */
  lemma MainRescan5()
    ensures RescanUpTo(MainGraph, [true, true, true, true, true, false, false], [Edge(1, 2, 5), Edge(2, 3, 6), Edge(2, 5, 7), Edge(4, 5, 9), Edge(3, 5, 8)], 11) == [Edge(1, 2, 5), Edge(2, 3, 6), Edge(2, 5, 7), Edge(4, 5, 9), Edge(3, 5, 8)]
  {
    RescanSettled(MainGraph, [true, true, true, true, true, false, false], [Edge(1, 2, 5), Edge(2, 3, 6), Edge(2, 5, 7), Edge(4, 5, 9), Edge(3, 5, 8)], 11);
  }

  /** Turn 5 polls the stale edge (1, 4, 4). */
  lemma MainTurn5()
    ensures Iterate(MainGraph, State([true, true, true, true, true, false, false], [0, 1, 2, 4, 3], [Edge(1, 4, 4), Edge(2, 3, 6), Edge(1, 2, 5), Edge(2, 5, 7), Edge(4, 5, 9), Edge(3, 5, 8)]))
         == State([true, true, true, true, true, false, false], [0, 1, 2, 4, 3], [Edge(1, 2, 5), Edge(2, 3, 6), Edge(2, 5, 7), Edge(4, 5, 9), Edge(3, 5, 8)])
  {
    assert Removed([Edge(1, 4, 4), Edge(2, 3, 6), Edge(1, 2, 5), Edge(2, 5, 7), Edge(4, 5, 9), Edge(3, 5, 8)]) == [Edge(1, 2, 5), Edge(2, 3, 6), Edge(2, 5, 7), Edge(4, 5, 9), Edge(3, 5, 8)];
    assert [true, true, true, true, true, false, false][4 := true] == [true, true, true, true, true, false, false];
    assert Record([0, 1, 2, 4, 3], 4) == [0, 1, 2, 4, 3];
    MainRescan5();
  }

  /** The main loop from the state before turn 5. */
  lemma MainRunFrom5()
    requires Invariant(MainGraph, State([true, true, true, true, true, false, false], [0, 1, 2, 4, 3], [Edge(1, 4, 4), Edge(2, 3, 6), Edge(1, 2, 5), Edge(2, 5, 7), Edge(4, 5, 9), Edge(3, 5, 8)]))
    ensures Run(MainGraph, State([true, true, true, true, true, false, false], [0, 1, 2, 4, 3], [Edge(1, 4, 4), Edge(2, 3, 6), Edge(1, 2, 5), Edge(2, 5, 7), Edge(4, 5, 9), Edge(3, 5, 8)])) == State([true, true, true, true, true, true, true], [0, 1, 2, 4, 3, 5, 6], [])
  {
    IterateProgress(MainGraph, State([true, true, true, true, true, false, false], [0, 1, 2, 4, 3], [Edge(1, 4, 4), Edge(2, 3, 6), Edge(1, 2, 5), Edge(2, 5, 7), Edge(4, 5, 9), Edge(3, 5, 8)]));
    MainTurn5();
    MainRunFrom6();
  }

  /** Turn 6: the re-scan once node 2 is visited. */
  lemma MainRescan6()
    ensures RescanUpTo(MainGraph, [true, true, true, true, true, false, false], [Edge(2, 3, 6), Edge(2, 5, 7), Edge(4, 5, 9), Edge(3, 5, 8)], 11) == [Edge(2, 3, 6), Edge(2, 5, 7), Edge(4, 5, 9), Edge(3, 5, 8)]
  {
    RescanSettled(MainGraph, [true, true, true, true, true, false, false], [Edge(2, 3, 6), Edge(2, 5, 7), Edge(4, 5, 9), Edge(3, 5, 8)], 11);
  }

  /** Turn 6 polls the stale edge (1, 2, 5). */
  lemma MainTurn6()
    ensures Iterate(MainGraph, State([true, true, true, true, true, false, false], [0, 1, 2, 4, 3], [Edge(1, 2, 5), Edge(2, 3, 6), Edge(2, 5, 7), Edge(4, 5, 9), Edge(3, 5, 8)]))
         == State([true, true, true, true, true, false, false], [0, 1, 2, 4, 3], [Edge(2, 3, 6), Edge(2, 5, 7), Edge(4, 5, 9), Edge(3, 5, 8)])
  {
    assert Removed([Edge(1, 2, 5), Edge(2, 3, 6), Edge(2, 5, 7), Edge(4, 5, 9), Edge(3, 5, 8)]) == [Edge(2, 3, 6), Edge(2, 5, 7), Edge(4, 5, 9), Edge(3, 5, 8)];
    assert [true, true, true, true, true, false, false][2 := true] == [true, true, true, true, true, false, false];
    assert Record([0, 1, 2, 4, 3], 2) == [0, 1, 2, 4, 3];
    MainRescan6();
  }

  /** The main loop from the state before turn 6. */
  lemma MainRunFrom6()
    requires Invariant(MainGraph, State([true, true, true, true, true, false, false], [0, 1, 2, 4, 3], [Edge(1, 2, 5), Edge(2, 3, 6), Edge(2, 5, 7), Edge(4, 5, 9), Edge(3, 5, 8)]))
    ensures Run(MainGraph, State([true, true, true, true, true, false, false], [0, 1, 2, 4, 3], [Edge(1, 2, 5), Edge(2, 3, 6), Edge(2, 5, 7), Edge(4, 5, 9), Edge(3, 5, 8)])) == State([true, true, true, true, true, true, true], [0, 1, 2, 4, 3, 5, 6], [])
  {
    IterateProgress(MainGraph, State([true, true, true, true, true, false, false], [0, 1, 2, 4, 3], [Edge(1, 2, 5), Edge(2, 3, 6), Edge(2, 5, 7), Edge(4, 5, 9), Edge(3, 5, 8)]));
    MainTurn6();
    MainRunFrom7();
  }

  /** Turn 7: the re-scan once node 3 is visited. */
  lemma MainRescan7()
    ensures RescanUpTo(MainGraph, [true, true, true, true, true, false, false], [Edge(2, 5, 7), Edge(4, 5, 9), Edge(3, 5, 8)], 11) == [Edge(2, 5, 7), Edge(4, 5, 9), Edge(3, 5, 8)]
  {
    RescanSettled(MainGraph, [true, true, true, true, true, false, false], [Edge(2, 5, 7), Edge(4, 5, 9), Edge(3, 5, 8)], 11);
  }

  /** Turn 7 polls the stale edge (2, 3, 6). */
  lemma MainTurn7()
    ensures Iterate(MainGraph, State([true, true, true, true, true, false, false], [0, 1, 2, 4, 3], [Edge(2, 3, 6), Edge(2, 5, 7), Edge(4, 5, 9), Edge(3, 5, 8)]))
         == State([true, true, true, true, true, false, false], [0, 1, 2, 4, 3], [Edge(2, 5, 7), Edge(4, 5, 9), Edge(3, 5, 8)])
  {
    assert Removed([Edge(2, 3, 6), Edge(2, 5, 7), Edge(4, 5, 9), Edge(3, 5, 8)]) == [Edge(2, 5, 7), Edge(4, 5, 9), Edge(3, 5, 8)];
    assert [true, true, true, true, true, false, false][3 := true] == [true, true, true, true, true, false, false];
    assert Record([0, 1, 2, 4, 3], 3) == [0, 1, 2, 4, 3];
    MainRescan7();
  }

  /** The main loop from the state before turn 7. */
  lemma MainRunFrom7()
    requires Invariant(MainGraph, State([true, true, true, true, true, false, false], [0, 1, 2, 4, 3], [Edge(2, 3, 6), Edge(2, 5, 7), Edge(4, 5, 9), Edge(3, 5, 8)]))
    ensures Run(MainGraph, State([true, true, true, true, true, false, false], [0, 1, 2, 4, 3], [Edge(2, 3, 6), Edge(2, 5, 7), Edge(4, 5, 9), Edge(3, 5, 8)])) == State([true, true, true, true, true, true, true], [0, 1, 2, 4, 3, 5, 6], [])
  {
    IterateProgress(MainGraph, State([true, true, true, true, true, false, false], [0, 1, 2, 4, 3], [Edge(2, 3, 6), Edge(2, 5, 7), Edge(4, 5, 9), Edge(3, 5, 8)]));
    MainTurn7();
    MainRunFrom8();
  }

  /** Turn 8: the re-scan once node 5 is visited. */
  lemma MainRescan8()
    ensures RescanUpTo(MainGraph, [true, true, true, true, true, true, false], [Edge(3, 5, 8), Edge(4, 5, 9)], 11) == [Edge(3, 5, 8), Edge(4, 5, 9), Edge(5, 6, 10)]
  {
    RescanSettled(MainGraph, [true, true, true, true, true, true, false], [Edge(3, 5, 8), Edge(4, 5, 9)], 10);
  }

  /** Turn 8 polls (2, 5, 7) and records node 5. */
  lemma MainTurn8()
    ensures Iterate(MainGraph, State([true, true, true, true, true, false, false], [0, 1, 2, 4, 3], [Edge(2, 5, 7), Edge(4, 5, 9), Edge(3, 5, 8)]))
         == State([true, true, true, true, true, true, false], [0, 1, 2, 4, 3, 5], [Edge(3, 5, 8), Edge(4, 5, 9), Edge(5, 6, 10)])
  {
    assert Removed([Edge(2, 5, 7), Edge(4, 5, 9), Edge(3, 5, 8)]) == [Edge(3, 5, 8), Edge(4, 5, 9)];
    assert [true, true, true, true, true, false, false][5 := true] == [true, true, true, true, true, true, false];
    assert Record([0, 1, 2, 4, 3], 5) == [0, 1, 2, 4, 3, 5];
    MainRescan8();
  }

  /** The main loop from the state before turn 8. */
  lemma MainRunFrom8()
    requires Invariant(MainGraph, State([true, true, true, true, true, false, false], [0, 1, 2, 4, 3], [Edge(2, 5, 7), Edge(4, 5, 9), Edge(3, 5, 8)]))
    ensures Run(MainGraph, State([true, true, true, true, true, false, false], [0, 1, 2, 4, 3], [Edge(2, 5, 7), Edge(4, 5, 9), Edge(3, 5, 8)])) == State([true, true, true, true, true, true, true], [0, 1, 2, 4, 3, 5, 6], [])
  {
    IterateProgress(MainGraph, State([true, true, true, true, true, false, false], [0, 1, 2, 4, 3], [Edge(2, 5, 7), Edge(4, 5, 9), Edge(3, 5, 8)]));
    MainTurn8();
    MainRunFrom9();
  }

  /** Turn 9: the re-scan once node 5 is visited. */
  lemma MainRescan9()
    ensures RescanUpTo(MainGraph, [true, true, true, true, true, true, false], [Edge(4, 5, 9), Edge(5, 6, 10)], 11) == [Edge(4, 5, 9), Edge(5, 6, 10)]
  {
    RescanSettled(MainGraph, [true, true, true, true, true, true, false], [Edge(4, 5, 9), Edge(5, 6, 10)], 11);
  }

  /** Turn 9 polls the stale edge (3, 5, 8). */
  lemma MainTurn9()
    ensures Iterate(MainGraph, State([true, true, true, true, true, true, false], [0, 1, 2, 4, 3, 5], [Edge(3, 5, 8), Edge(4, 5, 9), Edge(5, 6, 10)]))
         == State([true, true, true, true, true, true, false], [0, 1, 2, 4, 3, 5], [Edge(4, 5, 9), Edge(5, 6, 10)])
  {
    assert Removed([Edge(3, 5, 8), Edge(4, 5, 9), Edge(5, 6, 10)]) == [Edge(4, 5, 9), Edge(5, 6, 10)];
    assert [true, true, true, true, true, true, false][5 := true] == [true, true, true, true, true, true, false];
    assert Record([0, 1, 2, 4, 3, 5], 5) == [0, 1, 2, 4, 3, 5];
    MainRescan9();
  }

  /** The main loop from the state before turn 9. */
  lemma MainRunFrom9()
    requires Invariant(MainGraph, State([true, true, true, true, true, true, false], [0, 1, 2, 4, 3, 5], [Edge(3, 5, 8), Edge(4, 5, 9), Edge(5, 6, 10)]))
    ensures Run(MainGraph, State([true, true, true, true, true, true, false], [0, 1, 2, 4, 3, 5], [Edge(3, 5, 8), Edge(4, 5, 9), Edge(5, 6, 10)])) == State([true, true, true, true, true, true, true], [0, 1, 2, 4, 3, 5, 6], [])
  {
    IterateProgress(MainGraph, State([true, true, true, true, true, true, false], [0, 1, 2, 4, 3, 5], [Edge(3, 5, 8), Edge(4, 5, 9), Edge(5, 6, 10)]));
    MainTurn9();
    MainRunFrom10();
  }

  /** Turn 10: the re-scan once node 5 is visited. */
  lemma MainRescan10()
    ensures RescanUpTo(MainGraph, [true, true, true, true, true, true, false], [Edge(5, 6, 10)], 11) == [Edge(5, 6, 10)]
  {
    RescanSettled(MainGraph, [true, true, true, true, true, true, false], [Edge(5, 6, 10)], 11);
  }

  /** Turn 10 polls the stale edge (4, 5, 9). */
  lemma MainTurn10()
    ensures Iterate(MainGraph, State([true, true, true, true, true, true, false], [0, 1, 2, 4, 3, 5], [Edge(4, 5, 9), Edge(5, 6, 10)]))
         == State([true, true, true, true, true, true, false], [0, 1, 2, 4, 3, 5], [Edge(5, 6, 10)])
  {
    assert Removed([Edge(4, 5, 9), Edge(5, 6, 10)]) == [Edge(5, 6, 10)];
    assert [true, true, true, true, true, true, false][5 := true] == [true, true, true, true, true, true, false];
    assert Record([0, 1, 2, 4, 3, 5], 5) == [0, 1, 2, 4, 3, 5];
    MainRescan10();
  }

  /** The main loop from the state before turn 10. */
  lemma MainRunFrom10()
    requires Invariant(MainGraph, State([true, true, true, true, true, true, false], [0, 1, 2, 4, 3, 5], [Edge(4, 5, 9), Edge(5, 6, 10)]))
    ensures Run(MainGraph, State([true, true, true, true, true, true, false], [0, 1, 2, 4, 3, 5], [Edge(4, 5, 9), Edge(5, 6, 10)])) == State([true, true, true, true, true, true, true], [0, 1, 2, 4, 3, 5, 6], [])
  {
    IterateProgress(MainGraph, State([true, true, true, true, true, true, false], [0, 1, 2, 4, 3, 5], [Edge(4, 5, 9), Edge(5, 6, 10)]));
    MainTurn10();
    MainRunFrom11();
  }

  /** Turn 11: the re-scan once node 6 is visited. */
  lemma MainRescan11()
    ensures RescanUpTo(MainGraph, [true, true, true, true, true, true, true], [], 11) == []
  {
    RescanSettled(MainGraph, [true, true, true, true, true, true, true], [], 11);
  }

  /** Turn 11 polls (5, 6, 10) and records node 6. */
  lemma MainTurn11()
    ensures Iterate(MainGraph, State([true, true, true, true, true, true, false], [0, 1, 2, 4, 3, 5], [Edge(5, 6, 10)]))
         == State([true, true, true, true, true, true, true], [0, 1, 2, 4, 3, 5, 6], [])
  {
    assert Removed([Edge(5, 6, 10)]) == [];
    assert [true, true, true, true, true, true, false][6 := true] == [true, true, true, true, true, true, true];
    assert Record([0, 1, 2, 4, 3, 5], 6) == [0, 1, 2, 4, 3, 5, 6];
    MainRescan11();
  }

  /** The main loop from the state before turn 11. */
  lemma MainRunFrom11()
    requires Invariant(MainGraph, State([true, true, true, true, true, true, false], [0, 1, 2, 4, 3, 5], [Edge(5, 6, 10)]))
    ensures Run(MainGraph, State([true, true, true, true, true, true, false], [0, 1, 2, 4, 3, 5], [Edge(5, 6, 10)])) == State([true, true, true, true, true, true, true], [0, 1, 2, 4, 3, 5, 6], [])
  {
    IterateProgress(MainGraph, State([true, true, true, true, true, true, false], [0, 1, 2, 4, 3, 5], [Edge(5, 6, 10)]));
    MainTurn11();
    MainRunFrom12();
  }

  /** After turn 11 the heap is empty and the loop stops. */
  lemma MainRunFrom12()
    requires Invariant(MainGraph, State([true, true, true, true, true, true, true], [0, 1, 2, 4, 3, 5, 6], []))
    ensures Run(MainGraph, State([true, true, true, true, true, true, true], [0, 1, 2, 4, 3, 5, 6], [])) == State([true, true, true, true, true, true, true], [0, 1, 2, 4, 3, 5, 6], [])
  {
  }

  // ---------------------------------------------------------------------
  // The example graph without `5 -> 6`, turn by turn.

  /** The seed scan of `PrunedGraph`: the edges leaving node 0 are pushed and 0 is recorded. */
  lemma PrunedSeed()
    ensures SeedUpTo(PrunedGraph, StartAtZero, 10) == State([true, false, false, false, false, false, false], [0], [Edge(0, 1, 3), Edge(0, 2, 4), Edge(0, 3, 4)])
  {
    assert SeedUpTo(PrunedGraph, StartAtZero, 3) == State([true, false, false, false, false, false, false], [0], [Edge(0, 1, 3), Edge(0, 2, 4), Edge(0, 3, 4)]);
  }

  /** Turn 1: the re-scan once node 1 is visited. */
  lemma PrunedRescan1()
    ensures RescanUpTo(PrunedGraph, [true, true, false, false, false, false, false], [Edge(0, 2, 4), Edge(0, 3, 4)], 10) == [Edge(0, 2, 4), Edge(0, 3, 4), Edge(1, 2, 5), Edge(1, 4, 4)]
  {
    PrunedRescan1Prefix();
    assert RescanUpTo(PrunedGraph, [true, true, false, false, false, false, false], [Edge(0, 2, 4), Edge(0, 3, 4)], 4) == [Edge(0, 2, 4), Edge(0, 3, 4), Edge(1, 2, 5)];
    assert RescanUpTo(PrunedGraph, [true, true, false, false, false, false, false], [Edge(0, 2, 4), Edge(0, 3, 4)], 5) == [Edge(0, 2, 4), Edge(0, 3, 4), Edge(1, 2, 5), Edge(1, 4, 4)];
    RescanSettledFrom(PrunedGraph, [true, true, false, false, false, false, false], [Edge(0, 2, 4), Edge(0, 3, 4)], 5, 10);
  }

  /** In the re-scan of turn 1, edges 0 to 2 add nothing. */
  lemma PrunedRescan1Prefix()
    ensures RescanUpTo(PrunedGraph, [true, true, false, false, false, false, false], [Edge(0, 2, 4), Edge(0, 3, 4)], 3) == [Edge(0, 2, 4), Edge(0, 3, 4)]
  {
    RescanSettled(PrunedGraph, [true, true, false, false, false, false, false], [Edge(0, 2, 4), Edge(0, 3, 4)], 3);
  }

  /** Turn 1 polls (0, 1, 3) and records node 1. */
  lemma PrunedTurn1()
    ensures Iterate(PrunedGraph, State([true, false, false, false, false, false, false], [0], [Edge(0, 1, 3), Edge(0, 2, 4), Edge(0, 3, 4)]))
         == State([true, true, false, false, false, false, false], [0, 1], [Edge(0, 2, 4), Edge(0, 3, 4), Edge(1, 2, 5), Edge(1, 4, 4)])
  {
    assert Removed([Edge(0, 1, 3), Edge(0, 2, 4), Edge(0, 3, 4)]) == [Edge(0, 2, 4), Edge(0, 3, 4)];
    assert [true, false, false, false, false, false, false][1 := true] == [true, true, false, false, false, false, false];
    assert Record([0], 1) == [0, 1];
    PrunedRescan1();
  }

  /** The main loop from the state before turn 1. */
  lemma PrunedRunFrom1()
    requires Invariant(PrunedGraph, State([true, false, false, false, false, false, false], [0], [Edge(0, 1, 3), Edge(0, 2, 4), Edge(0, 3, 4)]))
    ensures Run(PrunedGraph, State([true, false, false, false, false, false, false], [0], [Edge(0, 1, 3), Edge(0, 2, 4), Edge(0, 3, 4)])) == State([true, true, true, true, true, true, false], [0, 1, 2, 4, 3, 5], [])
  {
    IterateProgress(PrunedGraph, State([true, false, false, false, false, false, false], [0], [Edge(0, 1, 3), Edge(0, 2, 4), Edge(0, 3, 4)]));
    PrunedTurn1();
    PrunedRunFrom2();
  }

  /** Turn 2: the re-scan once node 2 is visited. */
  lemma PrunedRescan2()
    ensures RescanUpTo(PrunedGraph, [true, true, true, false, false, false, false], [Edge(0, 3, 4), Edge(1, 2, 5), Edge(1, 4, 4)], 10) == [Edge(2, 4, 2), Edge(0, 3, 4), Edge(1, 4, 4), Edge(2, 3, 6), Edge(1, 2, 5), Edge(2, 5, 7)]
  {
    PrunedRescan2Prefix();
    assert RescanUpTo(PrunedGraph, [true, true, true, false, false, false, false], [Edge(0, 3, 4), Edge(1, 2, 5), Edge(1, 4, 4)], 6) == [Edge(0, 3, 4), Edge(1, 2, 5), Edge(1, 4, 4), Edge(2, 3, 6)];
    assert RescanUpTo(PrunedGraph, [true, true, true, false, false, false, false], [Edge(0, 3, 4), Edge(1, 2, 5), Edge(1, 4, 4)], 7) == [Edge(2, 4, 2), Edge(0, 3, 4), Edge(1, 4, 4), Edge(2, 3, 6), Edge(1, 2, 5)];
    assert RescanUpTo(PrunedGraph, [true, true, true, false, false, false, false], [Edge(0, 3, 4), Edge(1, 2, 5), Edge(1, 4, 4)], 8) == [Edge(2, 4, 2), Edge(0, 3, 4), Edge(1, 4, 4), Edge(2, 3, 6), Edge(1, 2, 5), Edge(2, 5, 7)];
    RescanSettledFrom(PrunedGraph, [true, true, true, false, false, false, false], [Edge(0, 3, 4), Edge(1, 2, 5), Edge(1, 4, 4)], 8, 10);
  }

  /** In the re-scan of turn 2, edges 0 to 4 add nothing. */
  lemma PrunedRescan2Prefix()
    ensures RescanUpTo(PrunedGraph, [true, true, true, false, false, false, false], [Edge(0, 3, 4), Edge(1, 2, 5), Edge(1, 4, 4)], 5) == [Edge(0, 3, 4), Edge(1, 2, 5), Edge(1, 4, 4)]
  {
    RescanSettled(PrunedGraph, [true, true, true, false, false, false, false], [Edge(0, 3, 4), Edge(1, 2, 5), Edge(1, 4, 4)], 5);
  }

  /** Turn 2 polls (0, 2, 4) and records node 2. */
  lemma PrunedTurn2()
    ensures Iterate(PrunedGraph, State([true, true, false, false, false, false, false], [0, 1], [Edge(0, 2, 4), Edge(0, 3, 4), Edge(1, 2, 5), Edge(1, 4, 4)]))
         == State([true, true, true, false, false, false, false], [0, 1, 2], [Edge(2, 4, 2), Edge(0, 3, 4), Edge(1, 4, 4), Edge(2, 3, 6), Edge(1, 2, 5), Edge(2, 5, 7)])
  {
    assert Removed([Edge(0, 2, 4), Edge(0, 3, 4), Edge(1, 2, 5), Edge(1, 4, 4)]) == [Edge(0, 3, 4), Edge(1, 2, 5), Edge(1, 4, 4)];
    assert [true, true, false, false, false, false, false][2 := true] == [true, true, true, false, false, false, false];
    assert Record([0, 1], 2) == [0, 1, 2];
    PrunedRescan2();
  }

  /** The main loop from the state before turn 2. */
  lemma PrunedRunFrom2()
    requires Invariant(PrunedGraph, State([true, true, false, false, false, false, false], [0, 1], [Edge(0, 2, 4), Edge(0, 3, 4), Edge(1, 2, 5), Edge(1, 4, 4)]))
    ensures Run(PrunedGraph, State([true, true, false, false, false, false, false], [0, 1], [Edge(0, 2, 4), Edge(0, 3, 4), Edge(1, 2, 5), Edge(1, 4, 4)])) == State([true, true, true, true, true, true, false], [0, 1, 2, 4, 3, 5], [])
  {
    IterateProgress(PrunedGraph, State([true, true, false, false, false, false, false], [0, 1], [Edge(0, 2, 4), Edge(0, 3, 4), Edge(1, 2, 5), Edge(1, 4, 4)]));
    PrunedTurn2();
    PrunedRunFrom3();
  }

  /** Turn 3: the re-scan once node 4 is visited. */
  lemma PrunedRescan3()
    ensures RescanUpTo(PrunedGraph, [true, true, true, false, true, false, false], [Edge(0, 3, 4), Edge(1, 4, 4), Edge(2, 3, 6), Edge(1, 2, 5), Edge(2, 5, 7)], 10) == [Edge(0, 3, 4), Edge(1, 4, 4), Edge(2, 3, 6), Edge(1, 2, 5), Edge(2, 5, 7), Edge(4, 5, 9)]
  {
    PrunedRescan3Prefix();
  }

  /** In the re-scan of turn 3, edges 0 to 8 add nothing. */
  lemma PrunedRescan3Prefix()
    ensures RescanUpTo(PrunedGraph, [true, true, true, false, true, false, false], [Edge(0, 3, 4), Edge(1, 4, 4), Edge(2, 3, 6), Edge(1, 2, 5), Edge(2, 5, 7)], 9) == [Edge(0, 3, 4), Edge(1, 4, 4), Edge(2, 3, 6), Edge(1, 2, 5), Edge(2, 5, 7)]
  {
    RescanSettled(PrunedGraph, [true, true, true, false, true, false, false], [Edge(0, 3, 4), Edge(1, 4, 4), Edge(2, 3, 6), Edge(1, 2, 5), Edge(2, 5, 7)], 9);
  }

  /** Turn 3 polls (2, 4, 2) and records node 4. */
  lemma PrunedTurn3()
    ensures Iterate(PrunedGraph, State([true, true, true, false, false, false, false], [0, 1, 2], [Edge(2, 4, 2), Edge(0, 3, 4), Edge(1, 4, 4), Edge(2, 3, 6), Edge(1, 2, 5), Edge(2, 5, 7)]))
         == State([true, true, true, false, true, false, false], [0, 1, 2, 4], [Edge(0, 3, 4), Edge(1, 4, 4), Edge(2, 3, 6), Edge(1, 2, 5), Edge(2, 5, 7), Edge(4, 5, 9)])
  {
    assert Removed([Edge(2, 4, 2), Edge(0, 3, 4), Edge(1, 4, 4), Edge(2, 3, 6), Edge(1, 2, 5), Edge(2, 5, 7)]) == [Edge(0, 3, 4), Edge(1, 4, 4), Edge(2, 3, 6), Edge(1, 2, 5), Edge(2, 5, 7)];
    assert [true, true, true, false, false, false, false][4 := true] == [true, true, true, false, true, false, false];
    assert Record([0, 1, 2], 4) == [0, 1, 2, 4];
    PrunedRescan3();
  }

  /** The main loop from the state before turn 3. */
  lemma PrunedRunFrom3()
    requires Invariant(PrunedGraph, State([true, true, true, false, false, false, false], [0, 1, 2], [Edge(2, 4, 2), Edge(0, 3, 4), Edge(1, 4, 4), Edge(2, 3, 6), Edge(1, 2, 5), Edge(2, 5, 7)]))
    ensures Run(PrunedGraph, State([true, true, true, false, false, false, false], [0, 1, 2], [Edge(2, 4, 2), Edge(0, 3, 4), Edge(1, 4, 4), Edge(2, 3, 6), Edge(1, 2, 5), Edge(2, 5, 7)])) == State([true, true, true, true, true, true, false], [0, 1, 2, 4, 3, 5], [])
  {
    IterateProgress(PrunedGraph, State([true, true, true, false, false, false, false], [0, 1, 2], [Edge(2, 4, 2), Edge(0, 3, 4), Edge(1, 4, 4), Edge(2, 3, 6), Edge(1, 2, 5), Edge(2, 5, 7)]));
    PrunedTurn3();
    PrunedRunFrom4();
  }

  /** Turn 4: the re-scan once node 3 is visited. */
  lemma PrunedRescan4()
    ensures RescanUpTo(PrunedGraph, [true, true, true, true, true, false, false], [Edge(1, 4, 4), Edge(2, 3, 6), Edge(1, 2, 5), Edge(2, 5, 7), Edge(4, 5, 9)], 10) == [Edge(1, 4, 4), Edge(2, 3, 6), Edge(1, 2, 5), Edge(2, 5, 7), Edge(4, 5, 9), Edge(3, 5, 8)]
  {
    PrunedRescan4Prefix();
    assert RescanUpTo(PrunedGraph, [true, true, true, true, true, false, false], [Edge(1, 4, 4), Edge(2, 3, 6), Edge(1, 2, 5), Edge(2, 5, 7), Edge(4, 5, 9)], 9) == [Edge(1, 4, 4), Edge(2, 3, 6), Edge(1, 2, 5), Edge(2, 5, 7), Edge(4, 5, 9), Edge(3, 5, 8)];
    RescanSettledFrom(PrunedGraph, [true, true, true, true, true, false, false], [Edge(1, 4, 4), Edge(2, 3, 6), Edge(1, 2, 5), Edge(2, 5, 7), Edge(4, 5, 9)], 9, 10);
  }

  /** In the re-scan of turn 4, edges 0 to 7 add nothing. */
  lemma PrunedRescan4Prefix()
    ensures RescanUpTo(PrunedGraph, [true, true, true, true, true, false, false], [Edge(1, 4, 4), Edge(2, 3, 6), Edge(1, 2, 5), Edge(2, 5, 7), Edge(4, 5, 9)], 8) == [Edge(1, 4, 4), Edge(2, 3, 6), Edge(1, 2, 5), Edge(2, 5, 7), Edge(4, 5, 9)]
  {
    RescanSettled(PrunedGraph, [true, true, true, true, true, false, false], [Edge(1, 4, 4), Edge(2, 3, 6), Edge(1, 2, 5), Edge(2, 5, 7), Edge(4, 5, 9)], 8);
  }

  /** Turn 4 polls (0, 3, 4) and records node 3. */
  lemma PrunedTurn4()
    ensures Iterate(PrunedGraph, State([true, true, true, false, true, false, false], [0, 1, 2, 4], [Edge(0, 3, 4), Edge(1, 4, 4), Edge(2, 3, 6), Edge(1, 2, 5), Edge(2, 5, 7), Edge(4, 5, 9)]))
         == State([true, true, true, true, true, false, false], [0, 1, 2, 4, 3], [Edge(1, 4, 4), Edge(2, 3, 6), Edge(1, 2, 5), Edge(2, 5, 7), Edge(4, 5, 9), Edge(3, 5, 8)])
  {
    assert Removed([Edge(0, 3, 4), Edge(1, 4, 4), Edge(2, 3, 6), Edge(1, 2, 5), Edge(2, 5, 7), Edge(4, 5, 9)]) == [Edge(1, 4, 4), Edge(2, 3, 6), Edge(1, 2, 5), Edge(2, 5, 7), Edge(4, 5, 9)];
    assert [true, true, true, false, true, false, false][3 := true] == [true, true, true, true, true, false, false];
    assert Record([0, 1, 2, 4], 3) == [0, 1, 2, 4, 3];
    PrunedRescan4();
  }

  /** The main loop from the state before turn 4. */
  lemma PrunedRunFrom4()
    requires Invariant(PrunedGraph, State([true, true, true, false, true, false, false], [0, 1, 2, 4], [Edge(0, 3, 4), Edge(1, 4, 4), Edge(2, 3, 6), Edge(1, 2, 5), Edge(2, 5, 7), Edge(4, 5, 9)]))
    ensures Run(PrunedGraph, State([true, true, true, false, true, false, false], [0, 1, 2, 4], [Edge(0, 3, 4), Edge(1, 4, 4), Edge(2, 3, 6), Edge(1, 2, 5), Edge(2, 5, 7), Edge(4, 5, 9)])) == State([true, true, true, true, true, true, false], [0, 1, 2, 4, 3, 5], [])
  {
    IterateProgress(PrunedGraph, State([true, true, true, false, true, false, false], [0, 1, 2, 4], [Edge(0, 3, 4), Edge(1, 4, 4), Edge(2, 3, 6), Edge(1, 2, 5), Edge(2, 5, 7), Edge(4, 5, 9)]));
    PrunedTurn4();
    PrunedRunFrom5();
  }

  /** Turn 5: the re-scan once node 4 is visited. */
  lemma PrunedRescan5()
    ensures RescanUpTo(PrunedGraph, [true, true, true, true, true, false, false], [Edge(1, 2, 5), Edge(2, 3, 6), Edge(2, 5, 7), Edge(4, 5, 9), Edge(3, 5, 8)], 10) == [Edge(1, 2, 5), Edge(2, 3, 6), Edge(2, 5, 7), Edge(4, 5, 9), Edge(3, 5, 8)]
  {
    RescanSettled(PrunedGraph, [true, true, true, true, true, false, false], [Edge(1, 2, 5), Edge(2, 3, 6), Edge(2, 5, 7), Edge(4, 5, 9), Edge(3, 5, 8)], 10);
  }

  /** Turn 5 polls the stale edge (1, 4, 4). */
  lemma PrunedTurn5()
    ensures Iterate(PrunedGraph, State([true, true, true, true, true, false, false], [0, 1, 2, 4, 3], [Edge(1, 4, 4), Edge(2, 3, 6), Edge(1, 2, 5), Edge(2, 5, 7), Edge(4, 5, 9), Edge(3, 5, 8)]))
         == State([true, true, true, true, true, false, false], [0, 1, 2, 4, 3], [Edge(1, 2, 5), Edge(2, 3, 6), Edge(2, 5, 7), Edge(4, 5, 9), Edge(3, 5, 8)])
  {
    assert Removed([Edge(1, 4, 4), Edge(2, 3, 6), Edge(1, 2, 5), Edge(2, 5, 7), Edge(4, 5, 9), Edge(3, 5, 8)]) == [Edge(1, 2, 5), Edge(2, 3, 6), Edge(2, 5, 7), Edge(4, 5, 9), Edge(3, 5, 8)];
    assert [true, true, true, true, true, false, false][4 := true] == [true, true, true, true, true, false, false];
    assert Record([0, 1, 2, 4, 3], 4) == [0, 1, 2, 4, 3];
    PrunedRescan5();
  }

  /** The main loop from the state before turn 5. */
  lemma PrunedRunFrom5()
    requires Invariant(PrunedGraph, State([true, true, true, true, true, false, false], [0, 1, 2, 4, 3], [Edge(1, 4, 4), Edge(2, 3, 6), Edge(1, 2, 5), Edge(2, 5, 7), Edge(4, 5, 9), Edge(3, 5, 8)]))
    ensures Run(PrunedGraph, State([true, true, true, true, true, false, false], [0, 1, 2, 4, 3], [Edge(1, 4, 4), Edge(2, 3, 6), Edge(1, 2, 5), Edge(2, 5, 7), Edge(4, 5, 9), Edge(3, 5, 8)])) == State([true, true, true, true, true, true, false], [0, 1, 2, 4, 3, 5], [])
  {
    IterateProgress(PrunedGraph, State([true, true, true, true, true, false, false], [0, 1, 2, 4, 3], [Edge(1, 4, 4), Edge(2, 3, 6), Edge(1, 2, 5), Edge(2, 5, 7), Edge(4, 5, 9), Edge(3, 5, 8)]));
    PrunedTurn5();
    PrunedRunFrom6();
  }

  /** Turn 6: the re-scan once node 2 is visited. */
  lemma PrunedRescan6()
    ensures RescanUpTo(PrunedGraph, [true, true, true, true, true, false, false], [Edge(2, 3, 6), Edge(2, 5, 7), Edge(4, 5, 9), Edge(3, 5, 8)], 10) == [Edge(2, 3, 6), Edge(2, 5, 7), Edge(4, 5, 9), Edge(3, 5, 8)]
  {
    RescanSettled(PrunedGraph, [true, true, true, true, true, false, false], [Edge(2, 3, 6), Edge(2, 5, 7), Edge(4, 5, 9), Edge(3, 5, 8)], 10);
  }

  /** Turn 6 polls the stale edge (1, 2, 5). */
  lemma PrunedTurn6()
    ensures Iterate(PrunedGraph, State([true, true, true, true, true, false, false], [0, 1, 2, 4, 3], [Edge(1, 2, 5), Edge(2, 3, 6), Edge(2, 5, 7), Edge(4, 5, 9), Edge(3, 5, 8)]))
         == State([true, true, true, true, true, false, false], [0, 1, 2, 4, 3], [Edge(2, 3, 6), Edge(2, 5, 7), Edge(4, 5, 9), Edge(3, 5, 8)])
  {
    assert Removed([Edge(1, 2, 5), Edge(2, 3, 6), Edge(2, 5, 7), Edge(4, 5, 9), Edge(3, 5, 8)]) == [Edge(2, 3, 6), Edge(2, 5, 7), Edge(4, 5, 9), Edge(3, 5, 8)];
    assert [true, true, true, true, true, false, false][2 := true] == [true, true, true, true, true, false, false];
    assert Record([0, 1, 2, 4, 3], 2) == [0, 1, 2, 4, 3];
    PrunedRescan6();
  }

  /** The main loop from the state before turn 6. */
  lemma PrunedRunFrom6()
    requires Invariant(PrunedGraph, State([true, true, true, true, true, false, false], [0, 1, 2, 4, 3], [Edge(1, 2, 5), Edge(2, 3, 6), Edge(2, 5, 7), Edge(4, 5, 9), Edge(3, 5, 8)]))
    ensures Run(PrunedGraph, State([true, true, true, true, true, false, false], [0, 1, 2, 4, 3], [Edge(1, 2, 5), Edge(2, 3, 6), Edge(2, 5, 7), Edge(4, 5, 9), Edge(3, 5, 8)])) == State([true, true, true, true, true, true, false], [0, 1, 2, 4, 3, 5], [])
  {
    IterateProgress(PrunedGraph, State([true, true, true, true, true, false, false], [0, 1, 2, 4, 3], [Edge(1, 2, 5), Edge(2, 3, 6), Edge(2, 5, 7), Edge(4, 5, 9), Edge(3, 5, 8)]));
    PrunedTurn6();
    PrunedRunFrom7();
  }

  /** Turn 7: the re-scan once node 3 is visited. */
  lemma PrunedRescan7()
    ensures RescanUpTo(PrunedGraph, [true, true, true, true, true, false, false], [Edge(2, 5, 7), Edge(4, 5, 9), Edge(3, 5, 8)], 10) == [Edge(2, 5, 7), Edge(4, 5, 9), Edge(3, 5, 8)]
  {
    RescanSettled(PrunedGraph, [true, true, true, true, true, false, false], [Edge(2, 5, 7), Edge(4, 5, 9), Edge(3, 5, 8)], 10);
  }

  /** Turn 7 polls the stale edge (2, 3, 6). */
  lemma PrunedTurn7()
    ensures Iterate(PrunedGraph, State([true, true, true, true, true, false, false], [0, 1, 2, 4, 3], [Edge(2, 3, 6), Edge(2, 5, 7), Edge(4, 5, 9), Edge(3, 5, 8)]))
         == State([true, true, true, true, true, false, false], [0, 1, 2, 4, 3], [Edge(2, 5, 7), Edge(4, 5, 9), Edge(3, 5, 8)])
  {
    assert Removed([Edge(2, 3, 6), Edge(2, 5, 7), Edge(4, 5, 9), Edge(3, 5, 8)]) == [Edge(2, 5, 7), Edge(4, 5, 9), Edge(3, 5, 8)];
    assert [true, true, true, true, true, false, false][3 := true] == [true, true, true, true, true, false, false];
    assert Record([0, 1, 2, 4, 3], 3) == [0, 1, 2, 4, 3];
    PrunedRescan7();
  }

  /** The main loop from the state before turn 7. */
  lemma PrunedRunFrom7()
    requires Invariant(PrunedGraph, State([true, true, true, true, true, false, false], [0, 1, 2, 4, 3], [Edge(2, 3, 6), Edge(2, 5, 7), Edge(4, 5, 9), Edge(3, 5, 8)]))
    ensures Run(PrunedGraph, State([true, true, true, true, true, false, false], [0, 1, 2, 4, 3], [Edge(2, 3, 6), Edge(2, 5, 7), Edge(4, 5, 9), Edge(3, 5, 8)])) == State([true, true, true, true, true, true, false], [0, 1, 2, 4, 3, 5], [])
  {
    IterateProgress(PrunedGraph, State([true, true, true, true, true, false, false], [0, 1, 2, 4, 3], [Edge(2, 3, 6), Edge(2, 5, 7), Edge(4, 5, 9), Edge(3, 5, 8)]));
    PrunedTurn7();
    PrunedRunFrom8();
  }

  /** Turn 8: the re-scan once node 5 is visited. */
  lemma PrunedRescan8()
    ensures RescanUpTo(PrunedGraph, [true, true, true, true, true, true, false], [Edge(3, 5, 8), Edge(4, 5, 9)], 10) == [Edge(3, 5, 8), Edge(4, 5, 9)]
  {
    RescanSettled(PrunedGraph, [true, true, true, true, true, true, false], [Edge(3, 5, 8), Edge(4, 5, 9)], 10);
  }

  /** Turn 8 polls (2, 5, 7) and records node 5. */
  lemma PrunedTurn8()
    ensures Iterate(PrunedGraph, State([true, true, true, true, true, false, false], [0, 1, 2, 4, 3], [Edge(2, 5, 7), Edge(4, 5, 9), Edge(3, 5, 8)]))
         == State([true, true, true, true, true, true, false], [0, 1, 2, 4, 3, 5], [Edge(3, 5, 8), Edge(4, 5, 9)])
  {
    assert Removed([Edge(2, 5, 7), Edge(4, 5, 9), Edge(3, 5, 8)]) == [Edge(3, 5, 8), Edge(4, 5, 9)];
    assert [true, true, true, true, true, false, false][5 := true] == [true, true, true, true, true, true, false];
    assert Record([0, 1, 2, 4, 3], 5) == [0, 1, 2, 4, 3, 5];
    PrunedRescan8();
  }

  /** The main loop from the state before turn 8. */
  lemma PrunedRunFrom8()
    requires Invariant(PrunedGraph, State([true, true, true, true, true, false, false], [0, 1, 2, 4, 3], [Edge(2, 5, 7), Edge(4, 5, 9), Edge(3, 5, 8)]))
    ensures Run(PrunedGraph, State([true, true, true, true, true, false, false], [0, 1, 2, 4, 3], [Edge(2, 5, 7), Edge(4, 5, 9), Edge(3, 5, 8)])) == State([true, true, true, true, true, true, false], [0, 1, 2, 4, 3, 5], [])
  {
    IterateProgress(PrunedGraph, State([true, true, true, true, true, false, false], [0, 1, 2, 4, 3], [Edge(2, 5, 7), Edge(4, 5, 9), Edge(3, 5, 8)]));
    PrunedTurn8();
    PrunedRunFrom9();
  }

  /** Turn 9: the re-scan once node 5 is visited. */
  lemma PrunedRescan9()
    ensures RescanUpTo(PrunedGraph, [true, true, true, true, true, true, false], [Edge(4, 5, 9)], 10) == [Edge(4, 5, 9)]
  {
    RescanSettled(PrunedGraph, [true, true, true, true, true, true, false], [Edge(4, 5, 9)], 10);
  }

  /** Turn 9 polls the stale edge (3, 5, 8). */
  lemma PrunedTurn9()
    ensures Iterate(PrunedGraph, State([true, true, true, true, true, true, false], [0, 1, 2, 4, 3, 5], [Edge(3, 5, 8), Edge(4, 5, 9)]))
         == State([true, true, true, true, true, true, false], [0, 1, 2, 4, 3, 5], [Edge(4, 5, 9)])
  {
    assert Removed([Edge(3, 5, 8), Edge(4, 5, 9)]) == [Edge(4, 5, 9)];
    assert [true, true, true, true, true, true, false][5 := true] == [true, true, true, true, true, true, false];
    assert Record([0, 1, 2, 4, 3, 5], 5) == [0, 1, 2, 4, 3, 5];
    PrunedRescan9();
  }

  /** The main loop from the state before turn 9. */
  lemma PrunedRunFrom9()
    requires Invariant(PrunedGraph, State([true, true, true, true, true, true, false], [0, 1, 2, 4, 3, 5], [Edge(3, 5, 8), Edge(4, 5, 9)]))
    ensures Run(PrunedGraph, State([true, true, true, true, true, true, false], [0, 1, 2, 4, 3, 5], [Edge(3, 5, 8), Edge(4, 5, 9)])) == State([true, true, true, true, true, true, false], [0, 1, 2, 4, 3, 5], [])
  {
    IterateProgress(PrunedGraph, State([true, true, true, true, true, true, false], [0, 1, 2, 4, 3, 5], [Edge(3, 5, 8), Edge(4, 5, 9)]));
    PrunedTurn9();
    PrunedRunFrom10();
  }

  /** Turn 10: the re-scan once node 5 is visited. */
  lemma PrunedRescan10()
    ensures RescanUpTo(PrunedGraph, [true, true, true, true, true, true, false], [], 10) == []
  {
    RescanSettled(PrunedGraph, [true, true, true, true, true, true, false], [], 10);
  }

  /** Turn 10 polls the stale edge (4, 5, 9). */
  lemma PrunedTurn10()
    ensures Iterate(PrunedGraph, State([true, true, true, true, true, true, false], [0, 1, 2, 4, 3, 5], [Edge(4, 5, 9)]))
         == State([true, true, true, true, true, true, false], [0, 1, 2, 4, 3, 5], [])
  {
    assert Removed([Edge(4, 5, 9)]) == [];
    assert [true, true, true, true, true, true, false][5 := true] == [true, true, true, true, true, true, false];
    assert Record([0, 1, 2, 4, 3, 5], 5) == [0, 1, 2, 4, 3, 5];
    PrunedRescan10();
  }

  /** The main loop from the state before turn 10. */
  lemma PrunedRunFrom10()
    requires Invariant(PrunedGraph, State([true, true, true, true, true, true, false], [0, 1, 2, 4, 3, 5], [Edge(4, 5, 9)]))
    ensures Run(PrunedGraph, State([true, true, true, true, true, true, false], [0, 1, 2, 4, 3, 5], [Edge(4, 5, 9)])) == State([true, true, true, true, true, true, false], [0, 1, 2, 4, 3, 5], [])
  {
    IterateProgress(PrunedGraph, State([true, true, true, true, true, true, false], [0, 1, 2, 4, 3, 5], [Edge(4, 5, 9)]));
    PrunedTurn10();
    PrunedRunFrom11();
  }

  /** After turn 10 the heap is empty and the loop stops. */
  lemma PrunedRunFrom11()
    requires Invariant(PrunedGraph, State([true, true, true, true, true, true, false], [0, 1, 2, 4, 3, 5], []))
    ensures Run(PrunedGraph, State([true, true, true, true, true, true, false], [0, 1, 2, 4, 3, 5], [])) == State([true, true, true, true, true, true, false], [0, 1, 2, 4, 3, 5], [])
  {
  }
}
