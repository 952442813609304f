/**
 * Value-level specification of the binary min-heap of edges.
 *
 * The heap is an array list of edges laid out as a complete binary tree:
 * the children of index `i` are `2i+1` and `2i+2`, its parent is
 * `(i-1)/2`. The functions below compute exactly what the `MinHeap`
 * methods do to that list (sift-up with a fixed probe, sift-down with a
 * saved element, removal of index 0 by shifting), so the methods are
 * proved equal to them and the heap's properties are proved here once.
 */
module HeapSpec {
  import opened Edges

  /** The branching factor; the only constructor of the heap fixes it to 2. */
  const Arity: nat := 2

  /**
   * Index of the parent of `i`. The source computes `(i - 1) / 2` with
   * integer division truncating toward zero, so index 0 is its own parent.
   */
  function Parent(i: nat): (p: nat)
    ensures i == 0 ==> p == 0
    ensures i > 0 ==> p < i && (i == Arity * p + 1 || i == Arity * p + 2)
  {
    if i == 0 then 0 else (i - 1) / Arity
  }

  /** Index of the `j`-th child (counting from 1) of index `i`. */
  function KthChild(i: nat, j: nat): (c: nat)
    ensures 1 <= j <= Arity ==> i < c && Parent(c) == i
  {
    Arity * i + j
  }

  /** Exchange the elements at `i` and `j` (`Collections.swap`). */
  function Swap(s: seq<Edge>, i: nat, j: nat): (r: seq<Edge>)
    requires i < |s| && j < |s|
    ensures |r| == |s|
  {
    s[i := s[j]][j := s[i]]
  }

  /** The heap property: no element is lighter than its parent. */
  ghost predicate HeapOrdered(s: seq<Edge>)
  {
    forall i :: 0 < i < |s| ==> s[Parent(i)].weight <= s[i].weight
  }

  /** The heap property, except possibly between `c` and its parent. */
  ghost predicate OrderedExcept(s: seq<Edge>, c: nat)
  {
    forall i :: 0 < i < |s| && i != c ==> s[Parent(i)].weight <= s[i].weight
  }

  /** The heap property for every edge except those leaving `c` downward. */
  ghost predicate OrderedBelowExcept(s: seq<Edge>, c: nat)
  {
    forall i :: 0 < i < |s| && Parent(i) != c ==> s[Parent(i)].weight <= s[i].weight
  }

  /** The children of `c` are no lighter than the parent of `c`. */
  ghost predicate GrandparentBound(s: seq<Edge>, c: nat)
  {
    forall i :: 0 < i < |s| && Parent(i) == c && 0 < c ==> s[Parent(c)].weight <= s[i].weight
  }

  /**
   * The loop of `heapifyUp`: `tmp` is the edge that was at the start index.
   * At every ancestor index it compares `tmp` (not the element currently at
   * `c`) with the parent and swaps `c` with its parent when `tmp` is
   * strictly lighter; it never stops before reaching the root.
   */
  function SiftUpFrom(s: seq<Edge>, c: nat, tmp: Edge): (r: seq<Edge>)
    requires c < |s|
    ensures |r| == |s|
    decreases c
  {
    if c == 0 then s
    else
      var p := Parent(c);
      SiftUpFrom(if tmp.weight < s[p].weight then Swap(s, c, p) else s, p, tmp)
  }

  /**
   * The index `minChild` returns: the first child, unless a second child
   * exists and is strictly lighter.
   */
  function MinChildIndex(s: seq<Edge>, i: nat): (m: nat)
    requires KthChild(i, 1) < |s|
    ensures m < |s| && Parent(m) == i && i < m
    ensures m == KthChild(i, 1) || m == KthChild(i, 2)
    ensures s[m].weight <= s[KthChild(i, 1)].weight
    ensures KthChild(i, 2) < |s| ==> s[m].weight <= s[KthChild(i, 2)].weight
    ensures m == KthChild(i, 2) ==> s[m].weight < s[KthChild(i, 1)].weight
  {
    var first, second := KthChild(i, 1), KthChild(i, 2);
    if second < |s| && s[second].weight < s[first].weight then second else first
  }

  /**
   * The loop of `heapifyDown` followed by its final `set`: `tmp` is the
   * edge saved from the start index. While `i` has a child and the
   * lighter child is strictly lighter than `tmp`, swap them and continue
   * from that child; finally store `tmp` at the index reached.
   */
  function SiftDownFrom(s: seq<Edge>, i: nat, tmp: Edge): (r: seq<Edge>)
    requires i < |s|
    ensures |r| == |s|
    decreases |s| - i
  {
    if KthChild(i, 1) < |s| then
      var c := MinChildIndex(s, i);
      if s[c].weight < tmp.weight then SiftDownFrom(Swap(s, i, c), c, tmp)
      else s[i := tmp]
    else s[i := tmp]
  }

  /** `add`: append the edge, then sift it up when there is more than one. */
  function Added(s: seq<Edge>, e: Edge): (r: seq<Edge>)
    ensures |r| == |s| + 1
  {
    var t := s + [e];
    if |t| > 1 then SiftUpFrom(t, |t| - 1, t[|t| - 1]) else t
  }

  /**
   * What `poll` leaves behind: index 0 is removed by shifting every later
   * element one place left (`ArrayList.remove(0)`), then, if anything is
   * left, the new index 0 is sifted down.
   */
  function Removed(s: seq<Edge>): (r: seq<Edge>)
    requires |s| > 0
    ensures |r| == |s| - 1
  {
    var rest := s[1..];
    if |rest| >= 1 then SiftDownFrom(rest, 0, rest[0]) else rest
  }

  /** The heap obtained by adding `es`, first to last, to the heap `h`. */
  function AddedAll(h: seq<Edge>, es: seq<Edge>): (r: seq<Edge>)
    ensures |r| == |h| + |es|
    decreases |es|
  {
    if es == [] then h else AddedAll(Added(h, es[0]), es[1..])
  }

  // ---------------------------------------------------------------------
  // Contents: every operation only moves edges around.

  /** An exchange keeps the multiset of edges. */
  lemma SwapPermutes(s: seq<Edge>, i: nat, j: nat)
    requires i < |s| && j < |s|
    ensures multiset(Swap(s, i, j)) == multiset(s)
  {
  }

  /** Sift-up only swaps, so it keeps the multiset of edges. */
  lemma {:induction false} SiftUpPermutes(s: seq<Edge>, c: nat, tmp: Edge)
    requires c < |s|
    ensures multiset(SiftUpFrom(s, c, tmp)) == multiset(s)
    decreases c
  {
    if c > 0 {
      var p := Parent(c);
      SwapPermutes(s, c, p);
      SiftUpPermutes(if tmp.weight < s[p].weight then Swap(s, c, p) else s, p, tmp);
    }
  }

  /**
   * Sift-down only swaps and finally re-stores the saved edge where it
   * already is, so it keeps the multiset of edges.
   */
  lemma {:induction false} SiftDownPermutes(s: seq<Edge>, i: nat, tmp: Edge)
    requires i < |s| && s[i] == tmp
    ensures multiset(SiftDownFrom(s, i, tmp)) == multiset(s)
    decreases |s| - i
  {
    if KthChild(i, 1) < |s| {
      var c := MinChildIndex(s, i);
      if s[c].weight < tmp.weight {
        SwapPermutes(s, i, c);
        SiftDownPermutes(Swap(s, i, c), c, tmp);
      } else {
        assert s[i := tmp] == s;
      }
    } else {
      assert s[i := tmp] == s;
    }
  }

  /** `add` stores exactly one more edge, the given one. */
  lemma AddedContents(s: seq<Edge>, e: Edge)
    ensures |Added(s, e)| == |s| + 1
    ensures multiset(Added(s, e)) == multiset(s) + multiset{e}
  {
    var t := s + [e];
    assert multiset(t) == multiset(s) + multiset{e};
    if |t| > 1 {
      SiftUpPermutes(t, |t| - 1, t[|t| - 1]);
    }
  }

  /** `poll` leaves exactly the old edges minus one copy of the old root. */
  lemma RemovedContents(s: seq<Edge>)
    requires |s| > 0
    ensures |Removed(s)| == |s| - 1
    ensures multiset(Removed(s)) == multiset(s) - multiset{s[0]}
  {
    var rest := s[1..];
    assert s == [s[0]] + rest;
    assert multiset(s) == multiset{s[0]} + multiset(rest);
    if |rest| >= 1 {
      SiftDownPermutes(rest, 0, rest[0]);
    }
  }

  /** An edge is in the heap after `add` iff it was before or is the new one. */
  lemma AddedMembers(s: seq<Edge>, e: Edge)
    ensures forall x :: x in Added(s, e) <==> x in s || x == e
  {
    AddedContents(s, e);
    forall x
      ensures x in Added(s, e) <==> x in s || x == e
    {
      assert x in Added(s, e) <==> x in multiset(Added(s, e));
      assert x in s <==> x in multiset(s);
    }
  }

  /** After `poll` the heap holds old edges only, and every old edge but the root. */
  lemma RemovedMembers(s: seq<Edge>)
    requires |s| > 0
    ensures forall x :: x in Removed(s) ==> x in s
    ensures forall x :: x in s && x != s[0] ==> x in Removed(s)
  {
    RemovedContents(s);
    forall x
      ensures x in Removed(s) <==> x in multiset(Removed(s))
      ensures x in s <==> x in multiset(s)
    {
    }
  }

  // ---------------------------------------------------------------------
  // Order.

  /** In a heap-ordered list the root is a lightest edge. */
  lemma {:induction false} RootIsLightest(s: seq<Edge>, i: nat)
    requires HeapOrdered(s) && i < |s|
    ensures s[0].weight <= s[i].weight
    decreases i
  {
    if i > 0 {
      RootIsLightest(s, Parent(i));
    }
  }

  /**
   * Once the list is ordered and `tmp` is no lighter than the element at
   * `c` (so no lighter than any ancestor of `c`), the rest of the sift-up
   * loop swaps nothing.
   */
  lemma {:induction false} SiftUpSettled(s: seq<Edge>, c: nat, tmp: Edge)
    requires c < |s| && HeapOrdered(s) && s[c].weight <= tmp.weight
    ensures SiftUpFrom(s, c, tmp) == s
    decreases c
  {
    if c > 0 {
      SiftUpSettled(s, Parent(c), tmp);
    }
  }

  /** One swap of sift-up moves the single disorder from `c` to its parent. */
  lemma SiftUpStep(s: seq<Edge>, c: nat)
    requires 0 < c < |s|
    requires OrderedExcept(s, c) && GrandparentBound(s, c)
    requires s[c].weight < s[Parent(c)].weight
    ensures var p := Parent(c); var t := Swap(s, c, p);
      t[p] == s[c] && OrderedExcept(t, p) && GrandparentBound(t, p)
  {
    var p := Parent(c);
    var t := Swap(s, c, p);
    forall i | 0 < i < |t| && i != p
      ensures t[Parent(i)].weight <= t[i].weight
    {
      if i == c {
      } else if Parent(i) == c {
        assert t[i] == s[i] && t[c] == s[p];
      } else if Parent(i) == p {
        assert t[i] == s[i] && t[p] == s[c];
        assert s[p].weight <= s[i].weight;
      } else {
        assert t[i] == s[i] && t[Parent(i)] == s[Parent(i)];
      }
    }
    forall i | 0 < i < |t| && Parent(i) == p && 0 < p
      ensures t[Parent(p)].weight <= t[i].weight
    {
      assert Parent(p) < p < c;
      assert t[Parent(p)] == s[Parent(p)];
      assert s[Parent(p)].weight <= s[p].weight;
      if i != c {
        assert t[i] == s[i];
        assert s[p].weight <= s[i].weight;
      }
    }
  }

  /**
   * Sift-up restores the heap property when the only disorder is between
   * the probe's index and its parent (as after appending to an ordered heap).
   */
  lemma {:induction false} SiftUpRestores(s: seq<Edge>, c: nat)
    requires c < |s|
    requires OrderedExcept(s, c) && GrandparentBound(s, c)
    ensures HeapOrdered(SiftUpFrom(s, c, s[c]))
    decreases c
  {
    if c > 0 {
      var p := Parent(c);
      if s[c].weight < s[p].weight {
        SiftUpStep(s, c);
        var t := Swap(s, c, p);
        SiftUpRestores(t, p);
      } else {
        assert HeapOrdered(s);
        SiftUpSettled(s, p, s[c]);
      }
    }
  }

  /** `add` keeps an ordered heap ordered. */
  lemma AddedKeepsOrder(s: seq<Edge>, e: Edge)
    requires HeapOrdered(s)
    ensures HeapOrdered(Added(s, e))
  {
    var t := s + [e];
    var c := |t| - 1;
    if |t| > 1 {
      assert OrderedExcept(t, c) by {
        forall i | 0 < i < |t| && i != c
          ensures t[Parent(i)].weight <= t[i].weight
        {
          assert t[i] == s[i] && t[Parent(i)] == s[Parent(i)];
        }
      }
      assert GrandparentBound(t, c) by {
        forall i | 0 < i < |t| && Parent(i) == c
          ensures false
        {
        }
      }
      SiftUpRestores(t, c);
    }
  }

  /** A sequence of `add`s keeps an ordered heap ordered and stores exactly the added edges. */
  lemma {:induction false} AddedAllKeepsHeap(h: seq<Edge>, es: seq<Edge>)
    requires HeapOrdered(h)
    ensures HeapOrdered(AddedAll(h, es))
    ensures multiset(AddedAll(h, es)) == multiset(h) + multiset(es)
    decreases |es|
  {
    if es != [] {
      AddedKeepsOrder(h, es[0]);
      AddedContents(h, es[0]);
      AddedAllKeepsHeap(Added(h, es[0]), es[1..]);
      assert es == [es[0]] + es[1..];
    }
  }

  /**
   * A heap built only by `add`s from empty is ordered, holds exactly the
   * added edges, and its root is a lightest of them.
   */
  lemma BuiltByAdds(es: seq<Edge>)
    ensures HeapOrdered(AddedAll([], es))
    ensures multiset(AddedAll([], es)) == multiset(es)
    ensures forall j :: 0 <= j < |es| ==> AddedAll([], es)[0].weight <= es[j].weight
  {
    AddedAllKeepsHeap([], es);
    var h := AddedAll([], es);
    forall j | 0 <= j < |es|
      ensures h[0].weight <= es[j].weight
    {
      assert es[j] in multiset(h);
      var k :| 0 <= k < |h| && h[k] == es[j];
      RootIsLightest(h, k);
    }
  }

  /** One swap of sift-down moves the single disorder from `i` to a child. */
  lemma SiftDownStep(s: seq<Edge>, i: nat)
    requires KthChild(i, 1) < |s|
    requires OrderedBelowExcept(s, i) && GrandparentBound(s, i)
    requires s[MinChildIndex(s, i)].weight < s[i].weight
    ensures var c := MinChildIndex(s, i); var t := Swap(s, i, c);
      t[c] == s[i] && OrderedBelowExcept(t, c) && GrandparentBound(t, c)
  {
    var c := MinChildIndex(s, i);
    var t := Swap(s, i, c);
    forall j | 0 < j < |t| && Parent(j) != c
      ensures t[Parent(j)].weight <= t[j].weight
    {
      if j == i {
        assert t[Parent(i)] == s[Parent(i)] && t[i] == s[c];
      } else if j == c {
      } else if Parent(j) == i {
        assert t[j] == s[j] && t[i] == s[c];
        assert j == KthChild(i, 1) || j == KthChild(i, 2);
      } else {
        assert t[j] == s[j] && t[Parent(j)] == s[Parent(j)];
      }
    }
    forall j | 0 < j < |t| && Parent(j) == c && 0 < c
      ensures t[Parent(c)].weight <= t[j].weight
    {
      assert t[j] == s[j] && t[i] == s[c];
    }
  }

  /**
   * Sift-down restores the heap property when the only disorder is
   * between index `i` and its children. (This is what `heapifyDown`
   * promises; `poll` does not establish this precondition.)
   */
  lemma {:induction false} SiftDownRestores(s: seq<Edge>, i: nat)
    requires i < |s|
    requires OrderedBelowExcept(s, i) && GrandparentBound(s, i)
    ensures HeapOrdered(SiftDownFrom(s, i, s[i]))
    decreases |s| - i
  {
    if KthChild(i, 1) < |s| {
      var c := MinChildIndex(s, i);
      if s[c].weight < s[i].weight {
        SiftDownStep(s, i);
        SiftDownRestores(Swap(s, i, c), c);
      } else {
        assert s[i := s[i]] == s;
        forall j | 0 < j < |s| && Parent(j) == i
          ensures s[i].weight <= s[j].weight
        {
          assert j == KthChild(i, 1) || j == KthChild(i, 2);
        }
      }
    } else {
      assert s[i := s[i]] == s;
    }
  }
}
