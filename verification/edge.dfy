/**
 * The graph entities of the Prim program.
 *
 * A node is identified by its integer ID; the model uses that ID as an
 * index into the array of `visited` flags, so an `Edge` refers to its
 * endpoints by ID instead of by object reference. Two edges are equal
 * exactly when their source IDs, destination IDs and weights are equal,
 * which is the comparison `containsEdge` performs.
 */
module Edges {

  /** An immutable directed, weighted edge `src -> dst`. */
  datatype Edge = Edge(src: nat, dst: nat, weight: int)

  /** Every endpoint of every edge names one of the `n` nodes. */
  ghost predicate EdgesWithin(edges: seq<Edge>, n: nat)
  {
    forall j :: 0 <= j < |edges| ==> edges[j].src < n && edges[j].dst < n
  }
}
