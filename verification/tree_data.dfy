/**
 * The two constants the move oracle replays (ai.js:1 and ai.js:5-6).
 * Both are written as concatenated rows; the values and their order are
 * those of the source.
 */
module TreeData {
  import RankSelect

  /**
   * The LOUDS bit string of the precomputed game tree: the source keeps it
   * as a character string and maps each character through `parseInt`.
   */
  const LoudsBits: seq<int> :=
    [1, 0, 1, 0, 1, 0, 1, 1, 1, 0, 1, 0, 1, 0, 1, 0]
    + [1, 0, 1, 0, 1, 1, 1, 1, 0, 1, 0, 1, 0, 1, 0, 1]
    + [0, 1, 0, 1, 0, 1, 0, 1, 0, 1, 0, 1, 0, 1, 1, 1]
    + [0, 1, 1, 0, 1, 0, 1, 0, 1, 0, 1, 0, 1, 0, 1, 0]
    + [1, 0, 1, 0, 1, 0, 0, 0, 1, 0, 1, 0, 1, 0, 1, 0]
    + [1, 0, 1, 0, 1, 0, 1, 0, 1, 0, 1, 0, 1, 0, 1, 0]
    + [1, 0, 1, 0, 0, 1, 0, 0, 1, 0, 1, 0, 1, 0, 0, 1]
    + [0, 1, 0, 1, 0, 1, 0, 0, 0, 0, 0]

  /**
   * The template node-to-cell table `node`: entry `id - 2` belongs to tree
   * node `id`. -1 marks a wildcard branch; every other entry is a cell of
   * the canonical orientation, not yet fixed to the real board.
   */
  const NodeTemplate: seq<int> :=
    [19, 27, 1, 8, 26, 11, 11, 25, 26, 26, 0, 8, 16, 24, 25]
    + [25, 11, 11, 11, 11, -1, -1, 24, 24, 1, 2, 3, 1, 3, 8]
    + [1, 2, 16, 24, 24, 2, 0, 8, 3, -1, -1, -1, 1, 3, -1]
    + [1, 0, 8, 0, 24, 2, 1, -1, -1, -1, -1, 3, 8, 8, 8]

  /** Shape of the shipped bit string: 123 positions, each a 0 or a 1. */
  lemma LoudsShape()
    ensures |LoudsBits| == 123
    ensures RankSelect.IsBinary(LoudsBits)
  {
    assert RankSelect.IsBinary([1, 0, 1, 0, 1, 0, 1, 1, 1, 0, 1, 0, 1, 0, 1, 0]);
    assert RankSelect.IsBinary([1, 0, 1, 0, 1, 1, 1, 1, 0, 1, 0, 1, 0, 1, 0, 1]);
    assert RankSelect.IsBinary([0, 1, 0, 1, 0, 1, 0, 1, 0, 1, 0, 1, 0, 1, 1, 1]);
    assert RankSelect.IsBinary([0, 1, 1, 0, 1, 0, 1, 0, 1, 0, 1, 0, 1, 0, 1, 0]);
    assert RankSelect.IsBinary([1, 0, 1, 0, 1, 0, 0, 0, 1, 0, 1, 0, 1, 0, 1, 0]);
    assert RankSelect.IsBinary([1, 0, 1, 0, 1, 0, 1, 0, 1, 0, 1, 0, 1, 0, 1, 0]);
    assert RankSelect.IsBinary([1, 0, 1, 0, 0, 1, 0, 0, 1, 0, 1, 0, 1, 0, 0, 1]);
    assert RankSelect.IsBinary([0, 1, 0, 1, 0, 1, 0, 0, 0, 0, 0]);
  }
}
