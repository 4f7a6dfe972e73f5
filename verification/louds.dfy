/**
 * Tree navigation over the LOUDS bit string using only rank and select
 * (ai.js `find_children_index`, `find_children_node`, `next_white_node`).
 * Node `w`'s child edges are the run of 1-bits that starts just after the
 * w-th 0-bit; the child behind edge position `e` is node `rank_1(e)`.
 */
module Louds {
  import opened RankSelect

  /** The `while` loop of `find_children_index`: the maximal run of 1-bits from `p`. */
  function RunOfOnes(bits: seq<int>, p: nat): (run: seq<int>)
    requires p <= |bits|
    ensures p + |run| <= |bits|
    ensures forall i | 0 <= i < |run| :: run[i] == p + i
    ensures forall q | p <= q < p + |run| :: bits[q] == 1
    ensures p + |run| == |bits| || bits[p + |run|] != 1
    decreases |bits| - p
  {
    if p < |bits| && bits[p] == 1 then
      var rest := RunOfOnes(bits, p + 1);
      assert forall i | 0 < i <= |rest| :: ([p] + rest)[i] == rest[i - 1];
      [p] + rest
    else
      []
  }

  /**
   * `find_children_index(bits, w)`: the edge positions of node `w`. Empty
   * when select_0 fails, lands at or past the end, or lands on a 0-bit;
   * otherwise the consecutive positions from `select_0(w)` on that hold 1,
   * stopping at a non-1 bit or the end of the string.
   */
  function ChildEdges(bits: seq<int>, w: int): (edges: seq<int>)
    ensures var s := Select(bits, 0, w);
            edges == [] <==> (s == -1 || s >= |bits| || bits[s] != 1)
    ensures var s := Select(bits, 0, w);
            edges != [] ==>
              && s + |edges| <= |bits|
              && (forall i | 0 <= i < |edges| :: edges[i] == s + i && bits[s + i] == 1)
              && (s + |edges| == |bits| || bits[s + |edges|] != 1)
  {
    var s := Select(bits, 0, w);
    if s == -1 || s >= |bits| then []
    else if bits[s] == 0 then []
    else RunOfOnes(bits, s)
  }

  /** `find_children_node(bits, edges)`: the node id behind each edge is rank_1 of the edge. */
  function ChildIds(bits: seq<int>, edges: seq<int>): (ids: seq<int>)
  {
    if |edges| == 0 then []
    else seq(|edges|, i requires 0 <= i < |edges| => Rank(bits, 1, edges[i]))
  }

  /** Inside a run of 1-bits the 1-count grows by one per position. */
  lemma {:induction false} OccAcrossOnes(bits: seq<int>, s: nat, i: nat)
    requires s + i <= |bits|
    requires forall j | s <= j < s + i :: bits[j] == 1
    ensures Occ(bits, 1, s + i) == Occ(bits, 1, s) + i
    decreases i
  {
    if i > 0 {
      OccAcrossOnes(bits, s, i - 1);
    }
  }

  /**
   * The children of `w` have as many ids as edges, each the rank_1 of its
   * edge; the ids are consecutive, so strictly increasing, and the first is
   * one more than the number of 1-bits before `select_0(w)`.
   */
  lemma ChildIdsConsecutive(bits: seq<int>, w: int)
    ensures var edges := ChildEdges(bits, w);
            var ids := ChildIds(bits, edges);
            && |ids| == |edges|
            && (forall i | 0 <= i < |ids| :: ids[i] == Rank(bits, 1, edges[i]))
            && (forall i | 0 <= i < |ids| :: ids[i] == ids[0] + i)
            && (forall i, j | 0 <= i < j < |ids| :: ids[i] < ids[j])
            && (|ids| > 0 ==> ids[0] == Occ(bits, 1, Select(bits, 0, w)) + 1)
  {
    var edges := ChildEdges(bits, w);
    var ids := ChildIds(bits, edges);
    if edges != [] {
      var s := Select(bits, 0, w);
      forall i | 0 <= i < |ids|
        ensures ids[i] == Occ(bits, 1, s) + 1 + i
      {
        forall j | s <= j < s + i + 1
          ensures bits[j] == 1
        {
          assert edges[j - s] == j;
        }
        OccAcrossOnes(bits, s, i + 1);
      }
    }
  }

  /**
   * `next_white_node(bits, b)`: rank_1 of select_0(b), or -1 when select_0
   * fails, which is exactly when b <= 0 or the string has fewer than b 0-bits.
   */
  function NextWhiteNode(bits: seq<int>, b: int): (r: int)
    ensures r == -1 <==> b <= 0 || Occ(bits, 0, |bits|) < b
  {
    var s := Select(bits, 0, b);
    if s == -1 then -1 else Rank(bits, 1, s)
  }

  /** When `b` has a child, the next node is its first child. */
  lemma NextWhiteIsFirstChild(bits: seq<int>, b: int)
    requires ChildEdges(bits, b) != []
    ensures NextWhiteNode(bits, b) == ChildIds(bits, ChildEdges(bits, b))[0]
  {
  }
}
