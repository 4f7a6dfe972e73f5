/**
 * The scripted opponent's move oracle (ai.js `find_black_node` and
 * `onigiri_move`). The node-to-cell table and the current node are
 * parameters instead of the source's module-level variables, so a call
 * can neither change the table nor the current node.
 */
module Oracle {
  import opened RankSelect
  import opened Louds

  /** What `onigiri_move` answers: the cell (cy, cx) to play and the node reached. */
  datatype Reply = Reply(cy: int, cx: int, next: int)

  /** Every failure of the oracle folds into this one answer. */
  const NoData := Reply(-1, -1, -1)

  /** The table slot of node `id` (index id - 2) exists and holds `value`. */
  predicate SlotIs(table: seq<int>, id: int, value: int) {
    0 <= id - 2 < |table| && table[id - 2] == value
  }

  /**
   * `find_black_node`: the first child, in order, whose in-bounds slot
   * equals `place`, or -1 when none does.
   */
  function FindBlackNode(table: seq<int>, ids: seq<int>, place: int): (r: int)
    ensures r == -1 <==> forall i | 0 <= i < |ids| :: !SlotIs(table, ids[i], place)
    ensures r != -1 ==>
              exists i | 0 <= i < |ids| ::
                && ids[i] == r
                && SlotIs(table, r, place)
                && forall j | 0 <= j < i :: !SlotIs(table, ids[j], place)
  {
    if |ids| == 0 then -1
    else if SlotIs(table, ids[0], place) then ids[0]
    else
      var r := FindBlackNode(table, ids[1..], place);
      assert forall i | 1 <= i < |ids| :: ids[i] == ids[1..][i - 1];
      r
  }

  /**
   * The branch `onigiri_move` follows among children `ids`: the first child
   * when its slot is the wildcard -1, otherwise the first child whose slot
   * is `place`; -1 when there is none.
   */
  function ChooseBranch(table: seq<int>, ids: seq<int>, place: int): (black: int)
    requires |ids| > 0
  {
    if SlotIs(table, ids[0], -1) then ids[0] else FindBlackNode(table, ids, place)
  }

  /**
   * The tail of `onigiri_move` once branch node `black` is chosen: descend
   * to the next node and decode its table slot as (cy, cx). A failed
   * select, a slot outside the table or a slot outside [0,16) is NoData.
   */
  function Descend(bits: seq<int>, table: seq<int>, black: int): (r: Reply)
    ensures r == NoData || (r.next == NextWhiteNode(bits, black) && SlotIs(table, r.next, 4 * r.cy + r.cx))
    ensures r != NoData ==> 0 <= r.cy < 4 && 0 <= r.cx < 4 && r.next >= 2
    ensures r == NoData <==> forall c | 0 <= c < 16 :: !SlotIs(table, NextWhiteNode(bits, black), c)
    ensures forall c | 0 <= c < 16 && SlotIs(table, NextWhiteNode(bits, black), c) ::
              r == Reply(c / 4, c % 4, NextWhiteNode(bits, black))
  {
    var next := NextWhiteNode(bits, black);
    if next == -1 then NoData
    else if !(|table| > next - 2 && next - 2 >= 0) then NoData
    else
      var target := table[next - 2];
      if target < 0 || target >= 16 then NoData
      else Reply(target / 4, target % 4, next)
  }

  /**
   * `onigiri_move(white, place)`: either exactly NoData, or a cell (cy, cx)
   * on the 4x4 board and a node `next` >= 2 whose table slot encodes that
   * cell as 4 * cy + cx. A node without children always answers NoData.
   */
  function Decide(bits: seq<int>, table: seq<int>, white: int, place: int): (r: Reply)
    ensures r == NoData || (0 <= r.cy < 4 && 0 <= r.cx < 4 && r.next >= 2 && SlotIs(table, r.next, 4 * r.cy + r.cx))
    ensures ChildEdges(bits, white) == [] ==> r == NoData
  {
    var ids := ChildIds(bits, ChildEdges(bits, white));
    if |ids| == 0 then NoData
    else
      var black := ChooseBranch(table, ids, place);
      if black == -1 then NoData
      else Descend(bits, table, black)
  }

  /**
   * Wildcard case: when the first child's slot is -1 the first child is
   * followed whatever `place` is: the answer is the descent from that child.
   */
  lemma WildcardIgnoresPlace(bits: seq<int>, table: seq<int>, white: int, place: int, other: int)
    requires var ids := ChildIds(bits, ChildEdges(bits, white));
             |ids| > 0 && SlotIs(table, ids[0], -1)
    ensures Decide(bits, table, white, place) == Decide(bits, table, white, other)
    ensures var ids := ChildIds(bits, ChildEdges(bits, white));
            var r := Decide(bits, table, white, place);
            r == NoData || r.next == NextWhiteNode(bits, ids[0])
    ensures var ids := ChildIds(bits, ChildEdges(bits, white));
            Decide(bits, table, white, place) == Descend(bits, table, ids[0])
  {
  }

  /**
   * Matching case: when the first child is no wildcard, the answer is the
   * descent from the first child whose slot is `place`, and when no child's
   * slot is `place` the answer is NoData.
   */
  lemma MatchSelectsFirstChild(bits: seq<int>, table: seq<int>, white: int, place: int)
    requires var ids := ChildIds(bits, ChildEdges(bits, white));
             |ids| > 0 && !SlotIs(table, ids[0], -1)
    ensures var ids := ChildIds(bits, ChildEdges(bits, white));
            (forall i | 0 <= i < |ids| :: !SlotIs(table, ids[i], place)) ==> Decide(bits, table, white, place) == NoData
    ensures var ids := ChildIds(bits, ChildEdges(bits, white));
            var r := Decide(bits, table, white, place);
            r != NoData ==>
              exists i | 0 <= i < |ids| ::
                && SlotIs(table, ids[i], place)
                && (forall j | 0 <= j < i :: !SlotIs(table, ids[j], place))
                && r.next == NextWhiteNode(bits, ids[i])
    ensures var ids := ChildIds(bits, ChildEdges(bits, white));
            forall i | 0 <= i < |ids| && SlotIs(table, ids[i], place) && (forall j | 0 <= j < i :: !SlotIs(table, ids[j], place)) ::
              Decide(bits, table, white, place) == Descend(bits, table, ids[i])
  {
  }
}
