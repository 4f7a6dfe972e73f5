/**
 * The opening: the start position of game.js, the human's first move and
 * the oracle's first reply. These facts tie the board rules to the move
 * oracle: the moves that trigger the symmetry fix are exactly the legal
 * first moves, and the fixed table answers each of them with a legal move.
 */
module Opening {
  import opened Rules
  import opened RankSelect
  import opened Louds
  import opened TreeData
  import Symmetry
  import opened Oracle
  import opened Session

  /** The start position: discs of colour 2 on (1,1) and (2,2), of colour 1 on (2,1) and (1,2). */
  const StartBoard: Board := [[0, 0, 0, 0], [0, 2, 1, 0], [0, 1, 2, 0], [0, 0, 0, 0]]

  /** What the start position holds on square `p`. */
  function StartValue(p: Pos): int {
    if p == Pos(1, 1) || p == Pos(2, 2) then 2
    else if p == Pos(2, 1) || p == Pos(1, 2) then 1
    else 0
  }

  ghost predicate StartLike(b: Board)
    requires IsBoard(b)
  {
    forall p | OnBoard(p) :: At(b, p) == StartValue(p)
  }

  lemma StartCells()
    ensures IsBoard(StartBoard) && StartLike(StartBoard)
  {
    assert IsBoard(StartBoard);
    forall p | OnBoard(p) ensures At(StartBoard, p) == StartValue(p) {
      assert p.y == 0 || p.y == 1 || p.y == 2 || p.y == 3;
    }
  }

  /** In a start-like position the discs colour 1 walks over are the two colour-2 discs, and it closes on its own two. */
  lemma StartRoles(b: Board, p: Pos)
    requires IsBoard(b) && StartLike(b)
    ensures Opposing(b, p, 1) ==> p == Pos(1, 1) || p == Pos(2, 2)
    ensures Closing(b, p, 1) ==> p == Pos(2, 1) || p == Pos(1, 2)
  {
  }

  /** Two colour-2 discs in a row from `p` along `d` are followed by an empty square. */
  lemma NoThirdStep(b: Board, p: Pos, d: Delta)
    requires IsBoard(b) && StartLike(b) && IsDir(d)
    ensures var q, r := Pos(p.x + d.x, p.y + d.y), Pos(p.x + 2 * d.x, p.y + 2 * d.y);
            Opposing(b, p, 1) && Opposing(b, q, 1) ==> !Opposing(b, r, 1) && !Closing(b, r, 1)
  {
    var q, r := Pos(p.x + d.x, p.y + d.y), Pos(p.x + 2 * d.x, p.y + 2 * d.y);
    if Opposing(b, p, 1) && Opposing(b, q, 1) {
      assert r == Pos(0, 0) || r == Pos(3, 3) by {
        StartRoles(b, p);
        StartRoles(b, q);
      }
      assert At(b, r) == StartValue(r);
    }
  }

  /**
   * In the start position a line that colour 1 closes is one colour-2 disc
   * followed by a colour-1 disc, and its origin is one of the four cells
   * 1, 4, 11, 14 in row-major order.
   */
  lemma BracketOnlyFromTriggers(b: Board, o: Pos, d: Delta, m: int)
    requires IsBoard(b) && StartLike(b) && IsDir(d) && Brackets(b, o, d, 1, m) && 2 <= m
    ensures m == 2 && RowMajor(o) in {1, 4, 11, 14}
  {
    var p1, p2 := Along(o, d, 1), Along(o, d, 2);
    assert p1 == Pos(o.x + d.x, o.y + d.y) && p2 == Pos(p1.x + d.x, p1.y + d.y);
    assert Along(o, d, 3) == Pos(p1.x + 2 * d.x, p1.y + 2 * d.y);
    NoThirdStep(b, p1, d);
    assert Opposing(b, p1, 1);
    assert m == 2;
    StartRoles(b, p1);
    StartRoles(b, p2);
    assert d == Delta(p2.x - p1.x, p2.y - p1.y);
  }

  /** A witness line: from `o` along direction number `di` one opposing disc, then a closing one. */
  lemma FlankedByTwo(b: Board, o: Pos, di: int, c: int)
    requires IsBoard(b) && 0 <= di < 8
    requires Opposing(b, Along(o, Dir(di), 1), c) && Closing(b, Along(o, Dir(di), 2), c)
    ensures Flanked(b, o, c, Along(o, Dir(di), 1))
  {
    assert Brackets(b, o, Dir(di), c, 2);
  }

  /**
   * The human (colour 1) moves first. From the start position a square is
   * a legal first move exactly when its row-major number is one the
   * oracle's symmetry fix reacts to (1, 4, 11 or 14).
   */
  lemma OpeningMovesAreTriggers(b: Board, x: int, y: int)
    requires IsBoard(b) && StartLike(b) && OnBoard(Pos(x, y))
    ensures IsValidMove(b, x, y, 1) <==> Symmetry.TriggerOf(4 * y + x).Some?
  {
    if IsValidMove(b, x, y, 1) {
      LegalOpeningIsTrigger(b, x, y);
    }
    if 4 * y + x in {1, 4, 11, 14} {
      TriggerIsLegalOpening(b, x, y);
    }
  }

  lemma LegalOpeningIsTrigger(b: Board, x: int, y: int)
    requires IsBoard(b) && StartLike(b) && OnBoard(Pos(x, y)) && IsValidMove(b, x, y, 1)
    ensures 4 * y + x in {1, 4, 11, 14}
  {
    var o := Pos(x, y);
    var q :| Flanked(b, o, 1, q);
    var di, k, m :| 0 <= di < 8 && 1 <= k < m && q == Along(o, Dir(di), k) && Brackets(b, o, Dir(di), 1, m);
    BracketOnlyFromTriggers(b, o, Dir(di), m);
  }

  lemma TriggerIsLegalOpening(b: Board, x: int, y: int)
    requires IsBoard(b) && StartLike(b) && OnBoard(Pos(x, y)) && 4 * y + x in {1, 4, 11, 14}
    ensures IsValidMove(b, x, y, 1)
  {
    var o := Pos(x, y);
    if 4 * y + x == 1 {
      OpensInCornerCase(b, o, 4, Pos(0, 0), 7);
    } else if 4 * y + x == 4 {
      OpensInCornerCase(b, o, 6, Pos(0, 0), 7);
    } else if 4 * y + x == 11 {
      OpensInCornerCase(b, o, 1, Pos(3, 3), 0);
    } else {
      OpensInCornerCase(b, o, 3, Pos(3, 3), 0);
    }
  }

  /** The first move of each corner case is legal from a start-like position. */
  lemma OpensInCornerCase(b: Board, o: Pos, di: int, t: Pos, dt: int)
    requires IsBoard(b) && StartLike(b) && CornerCase(o, di, t, dt)
    ensures IsValidMove(b, o.x, o.y, 1)
  {
    CornerGeometry(o, di, t, dt);
    CornerStartValues(o, t, Along(o, Dir(di), 1), Along(o, Dir(di), 2), Along(t, Dir(dt), 2));
    OpensAlong(b, o, di);
  }

  /** An empty start square with a colour-2 disc and then a colour-1 disc along direction `di` is a legal first move. */
  lemma OpensAlong(b: Board, o: Pos, di: int)
    requires IsBoard(b) && StartLike(b) && OnBoard(o) && 0 <= di < 8 && StartValue(o) == 0
    requires OnBoard(Along(o, Dir(di), 1)) && StartValue(Along(o, Dir(di), 1)) == 2
    requires OnBoard(Along(o, Dir(di), 2)) && StartValue(Along(o, Dir(di), 2)) == 1
    ensures IsValidMove(b, o.x, o.y, 1)
  {
    assert At(b, o) == 0;
    assert Opposing(b, Along(o, Dir(di), 1), 1);
    assert Closing(b, Along(o, Dir(di), 2), 1);
    FlankedByTwo(b, o, di, 1);
    ValidWhenFlanked(b, o, 1, Along(o, Dir(di), 1));
  }

  /** An empty square with one flanked disc is a legal move. */
  lemma ValidWhenFlanked(b: Board, o: Pos, c: int, q: Pos)
    requires IsBoard(b) && OnBoard(o) && At(b, o) == 0 && Flanked(b, o, c, q)
    ensures IsValidMove(b, o.x, o.y, c)
  {
  }

  /** The first steps through the tree from the root node 1. */
  lemma RootSteps()
    ensures Select(LoudsBits, 0, 1) == 2 && Select(LoudsBits, 0, 2) == 4
    ensures ChildEdges(LoudsBits, 1) == [2]
    ensures ChildIds(LoudsBits, [2]) == [2]
    ensures NextWhiteNode(LoudsBits, 2) == 3
  {
    LoudsShape();
    var b := LoudsBits;
    assert b[0] == 1 && b[1] == 0 && b[2] == 1 && b[3] == 0 && b[4] == 1;
    assert SelectFrom(b, 0, 1, 0) == SelectFrom(b, 0, 1, 1) == 2;
    assert SelectFrom(b, 0, 2, 0) == SelectFrom(b, 0, 2, 1) == SelectFrom(b, 0, 1, 2) == SelectFrom(b, 0, 1, 3) == 4;
    assert RunOfOnes(b, 2) == [2] + RunOfOnes(b, 3) == [2];
    assert Rank(b, 1, 2) == 2;
    assert Rank(b, 1, 4) == 3;
  }

  /**
   * The oracle's first reply. After a reset and the fix for the human's
   * first move, the root's only child matches the move and the reply is
   * the corner (3,3) for moves 11 and 14 and the corner (0,0) for moves 4
   * and 1, reaching node 3.
   */
  lemma FirstReply(move: int)
    requires move in {1, 4, 11, 14}
    ensures Decide(LoudsBits, ApplyNodeTransformation(Reset(), move).table, 1, move)
            == (if move == 11 || move == 14 then Reply(3, 3, 3) else Reply(0, 0, 3))
  {
    RootSteps();
    ReplyFromRoot(LoudsBits, move);
  }

  /**
   * The first reply on any tree whose root has the single child 2 with
   * next node 3, as the shipped tree has: it depends only on the fixed
   * table's first two entries.
   */
  lemma ReplyFromRoot(bits: seq<int>, move: int)
    requires move in {1, 4, 11, 14}
    requires ChildEdges(bits, 1) == [2] && ChildIds(bits, [2]) == [2] && NextWhiteNode(bits, 2) == 3
    ensures Decide(bits, ApplyNodeTransformation(Reset(), move).table, 1, move)
            == (if move == 11 || move == 14 then Reply(3, 3, 3) else Reply(0, 0, 3))
  {
    var t := ApplyNodeTransformation(Reset(), move).table;
    assert NodeTemplate[0] == 19 && NodeTemplate[1] == 27;
    assert t[0] == move;
    assert t[1] == if move == 11 || move == 14 then 15 else 0;
  }

  /**
   * A human move as game.js makes it: the disc is placed, then the discs it
   * flanks on the board with the disc placed turn. The square played holds
   * `c`, and every other square either turned or kept its old value.
   */
  function Play(b: Board, x: int, y: int, c: int): (r: Board)
    requires IsBoard(b) && OnBoard(Pos(x, y))
    ensures IsBoard(r)
    ensures At(r, Pos(x, y)) == c
    ensures forall q | OnBoard(q) && q != Pos(x, y) ::
              At(r, q) == if Flanked(b[y := b[y][x := c]], Pos(x, y), c, q) then c else At(b, q)
  {
    var placed := b[y := b[y][x := c]];
    FlipPieces(placed, x, y, c, false).board
  }

  /**
   * A start-like board with a disc of colour `c` placed on the empty square
   * (x, y): that square holds `c` and the four start discs are unchanged.
   */
  lemma PlacedCells(b: Board, x: int, y: int, c: int)
    requires IsBoard(b) && StartLike(b) && OnBoard(Pos(x, y)) && StartValue(Pos(x, y)) == 0
    ensures var placed := b[y := b[y][x := c]];
            && IsBoard(placed) && At(placed, Pos(x, y)) == c
            && forall q | OnBoard(q) && StartValue(q) != 0 :: At(placed, q) == StartValue(q)
  {
  }

  /** A first move and the colour-2 disc behind the disc it flips, seen from the corner. */
  predicate BehindPair(o: Pos, q: Pos) {
    || (o == Pos(3, 2) && q == Pos(1, 1)) || (o == Pos(2, 3) && q == Pos(1, 1))
    || (o == Pos(0, 1) && q == Pos(2, 2)) || (o == Pos(1, 0) && q == Pos(2, 2))
  }

  /**
   * For each first move `o`, the AI disc `q` behind the disc it flips lies
   * on no straight line from `o`, so the move cannot turn it.
   */
  lemma BehindIsOffLine(b: Board, o: Pos, c: int, q: Pos)
    requires IsBoard(b)
    requires BehindPair(o, q)
    ensures !Flanked(b, o, c, q)
  {
    forall di, k | 0 <= di < 8 && 1 <= k ensures Along(o, Dir(di), k) != q {
      var d := Dir(di);
      assert IsDir(d);
    }
  }

  /** An empty square with an opposing disc and then a closing disc along one direction is legal. */
  lemma LegalByTwo(b: Board, t: Pos, dt: int, c: int)
    requires IsBoard(b) && OnBoard(t) && 0 <= dt < 8 && At(b, t) == 0
    requires Opposing(b, Along(t, Dir(dt), 1), c) && Closing(b, Along(t, Dir(dt), 2), c)
    ensures IsValidMove(b, t.x, t.y, c)
  {
    FlankedByTwo(b, t, dt, c);
    ValidWhenFlanked(b, t, c, Along(t, Dir(dt), 1));
  }

  /**
   * One move of colour 1 from `o` that flips the disc next to the empty
   * square `t` and leaves the colour-2 disc behind it alone makes `t`
   * legal for colour 2.
   */
  lemma CornerAfterFlip(b: Board, o: Pos, di: int, t: Pos, dt: int)
    requires IsBoard(b) && OnBoard(o) && OnBoard(t) && 0 <= di < 8 && 0 <= dt < 8
    requires At(b, t) == 0 && Along(t, Dir(dt), 1) == Along(o, Dir(di), 1)
    requires Opposing(b, Along(o, Dir(di), 1), 1) && Closing(b, Along(o, Dir(di), 2), 1)
    requires OnBoard(Along(t, Dir(dt), 2)) && At(b, Along(t, Dir(dt), 2)) == 2
    requires !Flanked(b, o, 1, Along(t, Dir(dt), 2))
    ensures IsValidMove(FlipPieces(b, o.x, o.y, 1, false).board, t.x, t.y, 2)
  {
    var after := FlipPieces(b, o.x, o.y, 1, false);
    FlankedByTwo(b, o, di, 1);
    assert !Opposing(b, t, 1);
    LegalByTwo(after.board, t, dt, 2);
  }

  /** The four first moves, each with the direction of its flip, the corner and the direction back from it. */
  predicate CornerCase(o: Pos, di: int, t: Pos, dt: int) {
    || (o == Pos(1, 0) && di == 4 && t == Pos(0, 0) && dt == 7)
    || (o == Pos(0, 1) && di == 6 && t == Pos(0, 0) && dt == 7)
    || (o == Pos(3, 2) && di == 1 && t == Pos(3, 3) && dt == 0)
    || (o == Pos(2, 3) && di == 3 && t == Pos(3, 3) && dt == 0)
  }

  /**
   * The squares of each corner case: the first move `o`, the corner `t`,
   * the disc `flip` between them, the disc `closer` beyond it from `o` and
   * the disc `behind` it from `t`.
   */
  predicate CornerCells(o: Pos, t: Pos, flip: Pos, closer: Pos, behind: Pos) {
    || (o == Pos(1, 0) && t == Pos(0, 0) && flip == Pos(1, 1) && closer == Pos(1, 2) && behind == Pos(2, 2))
    || (o == Pos(0, 1) && t == Pos(0, 0) && flip == Pos(1, 1) && closer == Pos(2, 1) && behind == Pos(2, 2))
    || (o == Pos(3, 2) && t == Pos(3, 3) && flip == Pos(2, 2) && closer == Pos(1, 2) && behind == Pos(1, 1))
    || (o == Pos(2, 3) && t == Pos(3, 3) && flip == Pos(2, 2) && closer == Pos(2, 1) && behind == Pos(1, 1))
  }

  /** What the start position holds on the squares of each corner case. */
  lemma CornerStartValues(o: Pos, t: Pos, flip: Pos, closer: Pos, behind: Pos)
    requires CornerCells(o, t, flip, closer, behind)
    ensures OnBoard(o) && OnBoard(t) && OnBoard(flip) && OnBoard(closer) && OnBoard(behind)
    ensures StartValue(o) == 0 && StartValue(t) == 0
    ensures StartValue(flip) == 2 && StartValue(closer) == 1 && StartValue(behind) == 2
  {
  }

  /** Where the squares of each corner case lie along its two directions. */
  lemma CornerGeometry(o: Pos, di: int, t: Pos, dt: int)
    requires CornerCase(o, di, t, dt)
    ensures 0 <= di < 8 && 0 <= dt < 8 && Along(t, Dir(dt), 1) == Along(o, Dir(di), 1)
    ensures CornerCells(o, t, Along(o, Dir(di), 1), Along(o, Dir(di), 2), Along(t, Dir(dt), 2))
  {
    if o == Pos(1, 0) {
      CornerCellsTop();
    } else if o == Pos(0, 1) {
      CornerCellsLeft();
    } else if o == Pos(3, 2) {
      CornerCellsRight();
    } else {
      CornerCellsBottom();
    }
  }

  /** The squares around the corner for the first move (1,0) on the top edge. */
  lemma CornerCellsTop()
    ensures Along(Pos(1, 0), Dir(4), 1) == Pos(1, 1) && Along(Pos(1, 0), Dir(4), 2) == Pos(1, 2)
    ensures Along(Pos(0, 0), Dir(7), 1) == Pos(1, 1) && Along(Pos(0, 0), Dir(7), 2) == Pos(2, 2)
  {
  }

  /** The squares around the corner for the first move (0,1) on the left edge. */
  lemma CornerCellsLeft()
    ensures Along(Pos(0, 1), Dir(6), 1) == Pos(1, 1) && Along(Pos(0, 1), Dir(6), 2) == Pos(2, 1)
    ensures Along(Pos(0, 0), Dir(7), 1) == Pos(1, 1) && Along(Pos(0, 0), Dir(7), 2) == Pos(2, 2)
  {
  }

  /** The squares around the corner for the first move (3,2) on the right edge. */
  lemma CornerCellsRight()
    ensures Along(Pos(3, 2), Dir(1), 1) == Pos(2, 2) && Along(Pos(3, 2), Dir(1), 2) == Pos(1, 2)
    ensures Along(Pos(3, 3), Dir(0), 1) == Pos(2, 2) && Along(Pos(3, 3), Dir(0), 2) == Pos(1, 1)
  {
  }

  /** The squares around the corner for the first move (2,3) on the bottom edge. */
  lemma CornerCellsBottom()
    ensures Along(Pos(2, 3), Dir(3), 1) == Pos(2, 2) && Along(Pos(2, 3), Dir(3), 2) == Pos(2, 1)
    ensures Along(Pos(3, 3), Dir(0), 1) == Pos(2, 2) && Along(Pos(3, 3), Dir(0), 2) == Pos(1, 1)
  {
  }

  /**
   * The cells around the corner `t` once the disc of a first move `o` is
   * placed: `t` is empty, the disc next to it is the one `o` flips, and the
   * colour-2 disc behind that lies on no line from `o`.
   */
  lemma CornerSetup(b: Board, o: Pos, t: Pos, flip: Pos, closer: Pos, behind: Pos)
    requires IsBoard(b) && StartLike(b) && CornerCells(o, t, flip, closer, behind)
    ensures var placed := b[o.y := b[o.y][o.x := 1]];
            && IsBoard(placed) && OnBoard(o) && OnBoard(t) && At(placed, t) == 0
            && Opposing(placed, flip, 1) && Closing(placed, closer, 1)
            && OnBoard(behind) && At(placed, behind) == 2
            && !Flanked(placed, o, 1, behind)
  {
    PlacedCells(b, o.x, o.y, 1);
    var placed := b[o.y := b[o.y][o.x := 1]];
    assert At(b, t) == 0;
    assert At(placed, t) == 0;
    BehindIsOffLine(placed, o, 1, behind);
  }

  /**
   * The board a first move `o` leaves behind has, seen from the corner `t`
   * along direction number `dt`, a flipped colour-1 disc and then an
   * unflipped colour-2 disc: `t` is legal for colour 2.
   */
  lemma CornerLegalAfter(b: Board, o: Pos, di: int, t: Pos, dt: int)
    requires IsBoard(b) && StartLike(b) && CornerCase(o, di, t, dt)
    ensures IsValidMove(Play(b, o.x, o.y, 1), t.x, t.y, 2)
  {
    CornerGeometry(o, di, t, dt);
    CornerSetup(b, o, t, Along(o, Dir(di), 1), Along(o, Dir(di), 2), Along(t, Dir(dt), 2));
    CornerAfterFlip(b[o.y := b[o.y][o.x := 1]], o, di, t, dt);
  }

  /**
   * The corner the oracle answers with, (3,3) after moves 11 and 14 and
   * (0,0) after moves 4 and 1, is a legal move for colour 2 once the
   * human's first move has been played.
   */
  lemma ReplyCornerLegal(b: Board, x: int, y: int)
    requires IsBoard(b) && StartLike(b) && OnBoard(Pos(x, y)) && 4 * y + x in {1, 4, 11, 14}
    ensures var k := if 4 * y + x == 11 || 4 * y + x == 14 then 3 else 0;
            IsValidMove(Play(b, x, y, 1), k, k, 2)
  {
    var o := Pos(x, y);
    if 4 * y + x == 1 {
      CornerLegalAfter(b, o, 4, Pos(0, 0), 7);
    } else if 4 * y + x == 4 {
      CornerLegalAfter(b, o, 6, Pos(0, 0), 7);
    } else if 4 * y + x == 11 {
      CornerLegalAfter(b, o, 1, Pos(3, 3), 0);
    } else {
      CornerLegalAfter(b, o, 3, Pos(3, 3), 0);
    }
  }

  /**
   * After any legal first move of the human, the oracle (reset, then fixed
   * for that move) answers with a cell, and that cell is a legal move for
   * the AI (colour 2) on the board the human's move leaves behind.
   */
  lemma FirstReplyIsLegal(b: Board, x: int, y: int)
    requires IsBoard(b) && StartLike(b) && OnBoard(Pos(x, y)) && IsValidMove(b, x, y, 1)
    ensures var r := Decide(LoudsBits, ApplyNodeTransformation(Reset(), 4 * y + x).table, 1, 4 * y + x);
            r != NoData && IsValidMove(Play(b, x, y, 1), r.cx, r.cy, 2)
  {
    var move := 4 * y + x;
    assert move in {1, 4, 11, 14} by {
      LegalOpeningIsTrigger(b, x, y);
    }
    FirstReply(move);
    ReplyCornerLegal(b, x, y);
  }
}
