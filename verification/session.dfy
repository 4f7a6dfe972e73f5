/**
 * The oracle's per-game state (ai.js:2-3, `resetAIState`, `getAIState`,
 * `setAIState`, `applyNodeTransformation`, `updateWhiteNode`): the
 * node-to-cell table `changed_node` and the current node `white_node`,
 * held in an immutable record that each operation returns anew.
 */
module Session {
  import opened Wrappers
  import opened TreeData
  import opened Symmetry

  /** `changed_node` and `white_node`. */
  datatype AiState = AiState(table: seq<int>, whiteNode: int)

  /** The `{changed_node, white_node}` object that `getAIState` hands out. */
  datatype Snapshot = Snapshot(table: seq<int>, whiteNode: int)

  /** Every entry is a wildcard or a canonical bucket value, as in the template. */
  predicate Canonical(table: seq<int>) {
    forall i | 0 <= i < |table| :: table[i] == -1 || InBucket(table[i])
  }

  /** Every entry is a wildcard or a cell index of the real board. */
  predicate Resolved(table: seq<int>) {
    forall i | 0 <= i < |table| :: table[i] == -1 || 0 <= table[i] < 16
  }

  /** The shipped template holds 60 entries, each a wildcard or a bucket value. */
  lemma TemplateCanonical()
    ensures |NodeTemplate| == 60
    ensures Canonical(NodeTemplate)
  {
    assert Canonical([19, 27, 1, 8, 26, 11, 11, 25, 26, 26, 0, 8, 16, 24, 25]);
    assert Canonical([25, 11, 11, 11, 11, -1, -1, 24, 24, 1, 2, 3, 1, 3, 8]);
    assert Canonical([1, 2, 16, 24, 24, 2, 0, 8, 3, -1, -1, -1, 1, 3, -1]);
    assert Canonical([1, 0, 8, 0, 24, 2, 1, -1, -1, -1, -1, 3, 8, 8, 8]);
  }

  /**
   * `resetAIState`: a fresh copy of the template and the root node 1; the
   * table is then canonical and not yet fixed to the board's orientation.
   */
  function Reset(): (s: AiState)
    ensures s.whiteNode == 1 && s.table == NodeTemplate
    ensures |s.table| == 60 && Canonical(s.table)
  {
    TemplateCanonical();
    AiState(NodeTemplate, 1)
  }

  /** `getAIState`: a copy of both parts of the state. */
  function GetState(s: AiState): (snap: Snapshot) {
    Snapshot(s.table, s.whiteNode)
  }

  /** `setAIState`: both parts of the state from a snapshot. */
  function SetState(snap: Snapshot): (s: AiState) {
    AiState(snap.table, snap.whiteNode)
  }

  /** Restoring a snapshot just taken gives the same state back. */
  lemma RestoreSnapshot(s: AiState)
    ensures SetState(GetState(s)) == s
  {
  }

  /** Taking a snapshot of a restored state gives the same snapshot back. */
  lemma SnapshotRestored(snap: Snapshot)
    ensures GetState(SetState(snap)) == snap
  {
  }

  /**
   * `updateWhiteNode`: -1 (the oracle's NoData node) changes nothing; any
   * other value becomes the current node and the table stays as it was.
   */
  function UpdateWhiteNode(s: AiState, next: int): (r: AiState)
    ensures next == -1 ==> r == s
    ensures next != -1 ==> r.whiteNode == next && r.table == s.table
  {
    if next != -1 then s.(whiteNode := next) else s
  }

  /**
   * `applyNodeTransformation(move)`: a no-op unless the oracle is at the
   * root and `move` is one of the four trigger cells; otherwise the
   * trigger's formula set rewrites every entry. The current node and the
   * table length never change, wildcards and non-bucket values are kept,
   * and a canonical table comes out resolved to cells of the real board.
   */
  function ApplyNodeTransformation(s: AiState, move: int): (r: AiState)
    ensures r.whiteNode == s.whiteNode && |r.table| == |s.table|
    ensures (s.whiteNode != 1 || move !in {1, 4, 11, 14}) ==> r == s
    ensures s.whiteNode == 1 && move in {1, 4, 11, 14} ==>
              forall i | 0 <= i < |s.table| :: r.table[i] == MapEntry(TriggerOf(move).value, s.table[i])
    ensures forall i | 0 <= i < |s.table| :: !InBucket(s.table[i]) ==> r.table[i] == s.table[i]
    ensures Canonical(s.table) && s.whiteNode == 1 && move in {1, 4, 11, 14} ==> Resolved(r.table)
  {
    if s.whiteNode == 1 then
      match TriggerOf(move)
      case Some(sym) => s.(table := TransformTable(sym, s.table))
      case None => s
    else s
  }

  /** The first fix after a reset leaves every entry a wildcard or a real cell. */
  lemma OpeningFixResolvesTemplate(move: int)
    requires move in {1, 4, 11, 14}
    ensures Resolved(ApplyNodeTransformation(Reset(), move).table)
  {
  }

  /** Once the oracle has left the root, a second candidate trigger changes nothing. */
  lemma NoSecondFix(s: AiState, first: int, next: int, second: int)
    requires s.whiteNode == 1 && next != 1 && next != -1
    ensures var t := UpdateWhiteNode(ApplyNodeTransformation(s, first), next);
            ApplyNodeTransformation(t, second) == t
  {
  }
}
