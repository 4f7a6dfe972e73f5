/**
 * The end-of-game score of game.js `endGame`: count the discs of each
 * colour, then hand the empty squares to the leader, or split them on a
 * tie.
 */
module Scoring {
  import opened Rules

  /** The square at row-major position `i` of a 4x4 board. */
  function CellAt(i: int): (p: Pos)
    requires 0 <= i < 16
    ensures OnBoard(p) && RowMajor(p) == i
  {
    Pos(i % 4, i / 4)
  }

  /** Reference count: how many of the first `n` squares in row-major order hold `v`. */
  function Tally(b: Board, v: int, n: nat): (c: nat)
    requires IsBoard(b) && n <= 16
    ensures c <= n
  {
    if n == 0 then 0 else Tally(b, v, n - 1) + (if At(b, CellAt(n - 1)) == v then 1 else 0)
  }

  /** Reference count of squares holding neither colour among the first `n`. */
  function TallyEmpty(b: Board, n: nat): (c: nat)
    requires IsBoard(b) && n <= 16
    ensures c <= n
  {
    if n == 0 then 0
    else TallyEmpty(b, n - 1) + (var s := At(b, CellAt(n - 1)); if s != 1 && s != 2 then 1 else 0)
  }

  /** Every square falls in exactly one of the three counts. */
  lemma {:induction false} TallyPartition(b: Board, n: nat)
    requires IsBoard(b) && n <= 16
    ensures Tally(b, 1, n) + Tally(b, 2, n) + TallyEmpty(b, n) == n
  {
    if n > 0 {
      TallyPartition(b, n - 1);
    }
  }

  /** Visiting the square (x, y), row-major position 4y + x, adds it to exactly the count of what it holds. */
  lemma CountStep(b: Board, x: int, y: int)
    requires IsBoard(b) && 0 <= x < 4 && 0 <= y < 4
    ensures var s := b[y][x];
            && Tally(b, 1, 4 * y + (x + 1)) == Tally(b, 1, 4 * y + x) + (if s == 1 then 1 else 0)
            && Tally(b, 2, 4 * y + (x + 1)) == Tally(b, 2, 4 * y + x) + (if s == 2 then 1 else 0)
            && TallyEmpty(b, 4 * y + (x + 1)) == TallyEmpty(b, 4 * y + x) + (if s != 1 && s != 2 then 1 else 0)
  {
    assert CellAt(4 * y + x) == Pos(x, y);
  }

  /**
   * The counting loop of `endGame`: a square holding 1 counts for the
   * player, else one holding 2 for the AI, else it counts as empty.
   */
  method Count(b: Board) returns (player: int, ai: int, empty: int)
    requires IsBoard(b)
    ensures player == Tally(b, 1, 16) && ai == Tally(b, 2, 16) && empty == TallyEmpty(b, 16)
    ensures player + ai + empty == 16
  {
    player, ai, empty := 0, 0, 0;
    var y := 0;
    while y < 4
      invariant 0 <= y <= 4
      invariant player == Tally(b, 1, 4 * y) && ai == Tally(b, 2, 4 * y) && empty == TallyEmpty(b, 4 * y)
    {
      var x := 0;
      while x < 4
        invariant 0 <= x <= 4
        invariant player == Tally(b, 1, 4 * y + x) && ai == Tally(b, 2, 4 * y + x)
        invariant empty == TallyEmpty(b, 4 * y + x)
      {
        CountStep(b, x, y);
        if b[y][x] == 1 {
          player := player + 1;
        } else if b[y][x] == 2 {
          ai := ai + 1;
        } else {
          empty := empty + 1;
        }
        x := x + 1;
      }
      y := y + 1;
    }
    TallyPartition(b, 16);
  }

  /** The two final scores. */
  datatype Final = Final(player: int, ai: int)

  /**
   * The adjustment of `endGame`: the strict leader takes every empty
   * square; on a tie the player gets floor(empty / 2) and the AI
   * ceil(empty / 2). No square is lost or gained, the trailing side keeps
   * its count, and when the three counts cover the 16 squares the
   * outcome (player ahead, AI ahead, tie) is unchanged and a tie ends 8 to 8.
   */
  function Settle(player: int, ai: int, empty: nat): (r: Final)
    ensures r.player + r.ai == player + ai + empty
    ensures player > ai ==> r.ai == ai
    ensures ai > player ==> r.player == player
    ensures player == ai ==> r.player <= r.ai <= r.player + 1
    ensures player + ai + empty == 16 ==>
              && (r.player > r.ai <==> player > ai)
              && (r.ai > r.player <==> ai > player)
              && (player == ai ==> r.player == 8 && r.ai == 8)
  {
    if player > ai then Final(player + empty, ai)
    else if ai > player then Final(player, ai + empty)
    else Final(player + empty / 2, ai + (empty + 1) / 2)
  }

  /**
   * The score `endGame` shows: the two finals always add up to the 16
   * squares, the side with more discs on the board wins, and a board with
   * equal counts ends 8 to 8.
   */
  method FinalScores(b: Board) returns (r: Final)
    requires IsBoard(b)
    ensures r.player + r.ai == 16
    ensures r.player > r.ai <==> Tally(b, 1, 16) > Tally(b, 2, 16)
    ensures r.ai > r.player <==> Tally(b, 2, 16) > Tally(b, 1, 16)
    ensures Tally(b, 1, 16) == Tally(b, 2, 16) ==> r == Final(8, 8)
  {
    var player, ai, empty := Count(b);
    r := Settle(player, ai, empty);
  }
}
