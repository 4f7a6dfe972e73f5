# Onigiri Othello: a Dafny model of the move oracle and the 4x4 rules

The game is Othello on a 4x4 board. The human plays colour 1 and moves
first. The opponent ("onigiri", colour 2) does not search: it replays a
precomputed game tree. The tree is stored as a LOUDS bit string
(level-order unary degree sequence) in `ai.js`. A node-to-cell table names
the cell each tree node plays.

At the first move the table is rewritten once, so that the canonical
opening in the tree matches the orientation the human chose. After that,
each reply:

1. walks from the current node to the branch for the human's last cell, or
   to the wildcard branch;
2. descends to the next node;
3. decodes that node's table entry into a cell.

This project models that oracle and the board rules of `game.js` it relies
on, and proves properties of both. Everything is pure functions and heap-free
methods over immutable values. The module-level variables of the source become
parameters and return values:

- `changed_node` and `white_node` become the `Session.AiState` record.
- `board` becomes a `seq<seq<int>>` indexed `b[y][x]`.
- `moveHistory` and `gameNotation` become sequences.

Modules, following the source:

- `RankSelect`: `rank_0/1` and `select_0/1`, with the bit value as a
  parameter. `Occ` is the reference count they are specified against.
- `TreeData`: the two shipped constants, `node` and `louds_data`.
- `Louds`: `find_children_index`, `find_children_node` and
  `next_white_node`.
- `Oracle`: `find_black_node` and `onigiri_move`. Every failure is the one
  sentinel `NoData = (-1, -1, -1)`.
- `Symmetry`: the per-entry arithmetic of `applyNodeTransformation`. Each of
  its four formula sets is shown to be a symmetry of the square (identity,
  transpose, half-turn, anti-transpose), and is named after it. The
  inverse, `Unmap`, is defined independently.
- `Session`: reset, snapshot and restore, `applyNodeTransformation` and
  `updateWhiteNode` on the state record.
- `Rules`: `flipPieces`, `isValidMove` and `getValidMoves`. A
  reference rule, `Flanked`, says which squares a move turns; the code's
  direction-by-direction scan is proved equal to it.
- `Scoring`: the final score of `endGame`.
- `Notation`: `positionToNotation` and a reading function that inverts it.
- `Undo`: the history-popping loop of `undoMove`.
- `Opening`: the start position. It connects the rules to the oracle: the
  cells that trigger the table rewrite are exactly the legal first moves,
  and the oracle's first reply is always a legal move.

The bit string in `ai.js:5` has 123 characters: 61 ones and 62 zeros. The
model uses the string as shipped (`TreeData.LoudsShape`).

## Model

| member | source | states |
|---|---|---|
| RankSelect.Rank | ai.js:49-67 | rank_v(k) is 0 for k < 0. Otherwise it is the number of positions 0..min(k, len-1) holding v: the loop's `i < length` test caps k at the end of the string |
| RankSelect.RankMonotone | ai.js:49-67 | rank never decreases as k grows |
| RankSelect.RankComplement | ai.js:49-67 | on a 0/1 string, rank_0(k) + rank_1(k) = min(k+1, len) for k >= 0 |
| RankSelect.SelectFrom | ai.js:25-47 | the select loop resumed at `pos`: -1 exactly when n <= 0 or fewer than n matches remain after pos; otherwise the position p (1-based) of the n-th match after pos |
| RankSelect.Select | ai.js:25-47 | select_v(n) is -1 iff n <= 0 or the string holds fewer than n v's. Otherwise it is p in [1, len] with bit p-1 equal to v and rank_v(p-1) = n |
| RankSelect.SelectOfRank | ai.js:25-67 | select inverts rank: for a position p holding v, select_v(rank_v(p)) = p + 1 |
| TreeData.LoudsShape | ai.js:5-6 | the parsed bit string has 123 entries, each 0 or 1 |
| Louds.RunOfOnes | ai.js:81-85 | the `while` loop collects consecutive positions from p, each holding 1, and stops at a non-1 bit or the end |
| Louds.ChildEdges | ai.js:69-88 | empty exactly when select_0(w) fails, lands at or past the end, or lands on a non-1 bit; otherwise the maximal run of 1-positions starting at select_0(w) |
| Louds.ChildIdsConsecutive | ai.js:90-100 | one id per edge, each rank_1 of its edge. The ids are consecutive, strictly increasing, and start one past the number of 1s before the run |
| Louds.NextWhiteNode | ai.js:113-119 | -1 exactly when select_0(b) fails, that is, b <= 0 or b exceeds the number of 0s |
| Louds.NextWhiteIsFirstChild | ai.js:113-119 | for a node with children, next_white_node is its first child id |
| Oracle.FindBlackNode | ai.js:102-111 | -1 iff no child's in-bounds slot equals `place`; otherwise the first child, in order, whose slot equals `place` |
| Oracle.Descend | ai.js:144-169 | NoData exactly when next = next_white_node(black) has no slot in the table holding a value in [0,16). Otherwise the answer is (c / 4, c % 4, next) for the slot's value c, with next >= 2 |
| Oracle.Decide | ai.js:121-174 | onigiri_move answers exactly NoData or a cell on the board together with a node >= 2 whose slot encodes that cell. A node without children answers NoData |
| Oracle.WildcardIgnoresPlace | ai.js:130-136 | when the first child's slot is -1, the answer does not depend on `place`: it is exactly the descent from the first child |
| Oracle.MatchSelectsFirstChild | ai.js:136-142 | otherwise, no matching child gives NoData, and the answer is exactly the descent from the first child whose slot matches `place` |
| Symmetry.TriggerOf | ai.js:176-224 | a formula set is chosen exactly for moves 11, 14, 4 and 1 |
| Symmetry.MapEntry | ai.js:178-223 | one entry through one formula set: values outside [0,3], [8,11], [16,19], [24,27] (such as -1) are unchanged, and bucket values land in [0,16) |
| Symmetry.MapEntryIsSymmetry | ai.js:178-223 | the four formula sets send canonical cell (row, col), stored as 8*row + col, to the real board's index 4*row' + col'. The image is (row, col), (col, row), (3-row, 3-col) or (3-col, 3-row) |
| Symmetry.BucketRoundTrip | ai.js:178-223 | the independently defined inverse undoes each formula set on bucket values |
| Symmetry.CellRoundTrip | ai.js:178-223 | every cell index in [0,16) is reached: the formula set applied to its inverse image gives it back |
| Symmetry.MapEntryInjective | ai.js:178-223 | each formula set is one-to-one on the 16 bucket values, hence a bijection onto [0,16) |
| Session.TemplateCanonical | ai.js:1 | the template has 60 entries, each -1 or a bucket value |
| Session.Reset | ai.js:8-11 | the table is a copy of the template and the current node is 1; that table is canonical |
| Session.RestoreSnapshot | ai.js:13-23 | setAIState(getAIState()) leaves the state unchanged |
| Session.SnapshotRestored | ai.js:13-23 | a snapshot of a restored state is the snapshot restored |
| Session.UpdateWhiteNode | ai.js:228-232 | -1 changes nothing; any other value becomes the current node and the table is kept |
| Session.ApplyNodeTransformation | ai.js:176-226 | a no-op unless the node is 1 and the move is a trigger. Node and length are always kept, and so are non-bucket entries. When it fires, every entry goes through the trigger's formula set, and a canonical table comes out with every entry -1 or a cell in [0,16) |
| Session.OpeningFixResolvesTemplate | ai.js:1-11 | after a reset, any trigger leaves every table entry a wildcard or a real cell |
| Session.NoSecondFix | ai.js:176-232 | once the current node has left the root, a later transformation call changes nothing |
| Rules.Scan | game.js:785-796 | the inner `while` loop: when it closes, the line walked is the consecutive squares along d, each of the other colour, followed by a square of colour c |
| Rules.ScanComplete | game.js:785-796 | whenever a square of colour c closes a line of the other colour, the scan finds it at exactly that distance |
| Rules.RaySound | game.js:781-797 | each square flipped along one direction is that many steps from the origin, and the line is bracketed |
| Rules.RayComplete | game.js:781-797 | every square bracketed along a direction is among that direction's flips |
| Rules.RaysDisjoint | game.js:781-797 | no square is flipped along two different directions |
| Rules.FlipRaysMembers | game.js:783-797 | the `for` loop's list holds a square iff one of the remaining directions flips it |
| Rules.FlipRaysNoDup | game.js:783-797 | the loop's list never names a square twice |
| Rules.FlipListSound | game.js:780-797 | every listed square is flanked, on the board, of the other colour and not the origin |
| Rules.FlipListComplete | game.js:780-797 | every flanked square is listed |
| Rules.Paint | game.js:799-801 | exactly the listed squares take colour c, and every other square keeps its value |
| Rules.FlipPieces | game.js:780-805 | the returned list is exactly the flanked squares, each once, each of the other colour, never the origin. A dry run leaves the board unchanged. Otherwise exactly the listed squares, and no other (the origin included), become c |
| Rules.IsValidMove | game.js:775-778 | a move is valid iff its square is empty and it flanks at least one square |
| Rules.GetValidMoves | game.js:807-817 | the list holds exactly the squares where the move is valid, in strictly increasing row-major order, hence without repeats |
| Scoring.TallyPartition | game.js:864-870 | each square counts exactly once, as player, AI or empty |
| Scoring.Count | game.js:862-870 | the nested loops count 1-squares, 2-squares and all others, and the three counts add up to 16 |
| Scoring.Settle | game.js:872-880 | the strict leader takes every empty square, and a tie gives the player floor(empty / 2) and the AI ceil(empty / 2). The total is preserved and the trailing side keeps its count. On a full 16-square count the outcome is unchanged and a tie ends 8 to 8 |
| Scoring.FinalScores | game.js:862-880 | the final scores add up to 16, the side with more discs wins, and equal disc counts end 8 to 8 |
| Notation.PositionToNotation | game.js:1277-1281 | two characters: a column letter a-d, then a row digit 1-4 |
| Notation.NotationToPosition | game.js:1277-1281 | the inverse reading: defined exactly on two-character strings of column letter and row digit, and it names an on-board square |
| Notation.ReadWritten | game.js:1277-1281 | reading the notation of a square gives the square back |
| Notation.WriteRead | game.js:1277-1281 | writing the square a valid string names gives the string back |
| Notation.NotationInjective | game.js:1277-1281 | distinct squares have distinct notations |
| Undo.PopUntilTurn | game.js:1223-1237 | the history left is a prefix of the old one, and the removed entries are the rest |
| Undo.PopUntilTurnStops | game.js:1223-1237 | a non-empty history loses at least one entry. The oldest entry removed is of the side to move unless the history ran out, and every later removed entry is of the other side |
| Undo.PopUntilTurnNotation | game.js:1223-1237 | the notation loses one entry from its end per removed non-pass move, as long as it has entries |
| Undo.StopsAtLastOfSide | game.js:1223-1237 | when the last entry of the side to move is at index k, the history is cut back to exactly its first k entries |
| Undo.EmptiesWithoutSide | game.js:1223-1237 | with no entry of the side to move, the history is emptied |
| Opening.StartCells | game.js:245-248 | the start position holds colour 2 on (1,1) and (2,2), colour 1 on (2,1) and (1,2), and 0 elsewhere |
| Opening.OpeningMovesAreTriggers | game.js:245-248 | from the start position, a square is a legal first move for colour 1 iff its row-major index is one of the trigger moves 1, 4, 11, 14 of ai.js:176-226. So the table rewrite fires on every first move |
| Opening.FirstReply | ai.js:121-174 | after a reset and the rewrite for first move m, the oracle at the root replies (3,3) for m = 11 or 14 and (0,0) for m = 4 or 1, reaching node 3 |
| Opening.Play | game.js:406-426 | a move places colour c on its square, then every square flanked on the board with the disc placed turns to c; all other squares keep their values |
| Opening.FirstReplyIsLegal | game.js:531-535 | after any legal first move (placed at game.js:407, flips at game.js:426), the oracle's reply from the root after a reset is a cell on the board and a legal move for colour 2: both tests at game.js:533-536 pass, taking the node passed at game.js:531 to be ai.js's current node |

## Left out

- Rendering, animation, sound and the DOM: all of ui.js and audio.js, and the Three.js code in game.js. None of it affects the oracle or the rules.
- The rest of the orchestration in game.js (`makeMove`, `checkGameEnd` and the timers). It is callback-driven. Only its place-then-flip order (game.js:407, game.js:426) is modelled, as `Opening.Play`.
- `makeAIMove` (game.js:531, game.js:553), `initializeGame` (game.js:229), `replayBoard` (game.js:270-334), `startNewGame` (game.js:1055) and `restartGameFromModal` (game.js:1140). They call `getWhiteNode`, `setWhiteNode` and `resetAI`, none of which is defined in ai.js, game.js, ui.js or audio.js. The model assumes these are ai.js's `getCurrentWhiteNode`, `updateWhiteNode` and `resetAIState` (`Session.UpdateWhiteNode`, `Session.Reset`), and `Opening.FirstReplyIsLegal` relies on that reading.
- `getCurrentWhiteNode` and `getChangedNode` (ai.js:234-240). These are plain reads of the state record's fields.
- The `try/catch` of `onigiri_move`. Array reads outside the table are explicit bounds checks that answer NoData, so nothing is left to catch.
- Parsing the bit string from characters (ai.js:5-6). `TreeData.LoudsBits` is the parsed sequence.
- Notation.PositionToNotation: requires an on-board square. The source reads `columns[x]` without a check, and off the board it would produce the text "undefined".
- Louds.NextWhiteNode: its contract only states when the result is -1. For a node without children, rank_1 of select_0 is a node id that is not a child of it, and the model leaves that case as computed.
- Opening.FirstReplyIsLegal: covers only the first reply. Later replies depend on the whole tree and are not proved legal.
- Rules.GetValidMoves: the row-major order is stated as the index 4*y + x increasing, which is the visiting order of the source's loops.
