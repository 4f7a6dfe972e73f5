/**
 * The disc-flipping rules of the 4x4 game (game.js `flipPieces`,
 * `isValidMove`, `getValidMoves`). The board is a parameter: a 4x4 grid
 * indexed `board[y][x]` holding 0 for an empty square, 1 for the human's
 * discs and 2 for the opponent's.
 */
module Rules {
  import opened Wrappers

  type Board = seq<seq<int>>

  /** Four rows of four squares. */
  predicate IsBoard(b: Board) {
    |b| == 4 && forall y | 0 <= y < 4 :: |b[y]| == 4
  }

  /** A square by column `x` and row `y`. */
  datatype Pos = Pos(x: int, y: int)

  /** A direction of the scan: the change (x, y) of column and row per step. */
  datatype Delta = Delta(x: int, y: int)

  predicate OnBoard(p: Pos) {
    0 <= p.x < 4 && 0 <= p.y < 4
  }

  function At(b: Board, p: Pos): int
    requires IsBoard(b) && OnBoard(p)
  {
    b[p.y][p.x]
  }

  /** The eight directions of `flipPieces`, as (dx, dy), in the source's order. */
  const Directions: seq<Delta> :=
    [Delta(-1, -1), Delta(-1, 0), Delta(-1, 1), Delta(0, -1), Delta(0, 1), Delta(1, -1), Delta(1, 0), Delta(1, 1)]

  predicate IsDir(d: Delta) {
    -1 <= d.x <= 1 && -1 <= d.y <= 1 && (d.x != 0 || d.y != 0)
  }

  /** `k` steps of a direction component `s` in {-1, 0, 1}, that is, k * s. */
  function Steps(k: int, s: int): int {
    if s == 0 then 0 else if s > 0 then k else -k
  }

  /** The square `k` steps from `o` in direction `d`. */
  function Along(o: Pos, d: Delta, k: int): Pos {
    Pos(o.x + Steps(k, d.x), o.y + Steps(k, d.y))
  }

  /** A square the scan for colour `c` walks over: on the board and holding the other colour. */
  predicate Opposing(b: Board, p: Pos, c: int)
    requires IsBoard(b)
  {
    OnBoard(p) && At(b, p) != 0 && At(b, p) != c
  }

  /** A square that ends the scan for colour `c` with a flip: on the board and holding `c`. */
  predicate Closing(b: Board, p: Pos, c: int)
    requires IsBoard(b)
  {
    OnBoard(p) && At(b, p) != 0 && At(b, p) == c
  }

  /** Steps left before the scan from `p` along `d` must leave the board. */
  function Remaining(p: Pos, d: Delta): int {
    if d.x > 0 then 4 - p.x
    else if d.x < 0 then p.x + 1
    else if d.y > 0 then 4 - p.y
    else p.y + 1
  }

  /**
   * The inner `while` loop of `flipPieces`, from square `p` on: it walks
   * over discs of the other colour and answers the line walked once it
   * reaches a disc of colour `c`, or None when it leaves the board or meets
   * an empty square first.
   */
  function Scan(b: Board, p: Pos, d: Delta, c: int): (run: Option<seq<Pos>>)
    requires IsBoard(b) && IsDir(d)
    ensures run.Some? ==>
              && (forall i | 0 <= i < |run.value| :: run.value[i] == Along(p, d, i) && Opposing(b, run.value[i], c))
              && Closing(b, Along(p, d, |run.value|), c)
    decreases Remaining(p, d)
  {
    if !OnBoard(p) || At(b, p) == 0 then None
    else if At(b, p) == c then Some([])
    else
      var next := Pos(p.x + d.x, p.y + d.y);
      match Scan(b, next, d, c)
      case None => None
      case Some(rest) =>
        ExtendRun(b, p, d, c, rest);
        Some([p] + rest)
  }

  /** One step further along `d` is the same as starting one square later. */
  lemma AlongShift(p: Pos, d: Delta, i: int)
    requires IsDir(d)
    ensures Along(Pos(p.x + d.x, p.y + d.y), d, i) == Along(p, d, i + 1)
  {
  }

  /** A run that closes from the next square, preceded by an opposing square `p`, closes from `p`. */
  lemma ExtendRun(b: Board, p: Pos, d: Delta, c: int, rest: seq<Pos>)
    requires IsBoard(b) && IsDir(d) && Opposing(b, p, c)
    requires var next := Pos(p.x + d.x, p.y + d.y);
             && (forall i | 0 <= i < |rest| :: rest[i] == Along(next, d, i) && Opposing(b, rest[i], c))
             && Closing(b, Along(next, d, |rest|), c)
    ensures var line := [p] + rest;
            && (forall i | 0 <= i < |line| :: line[i] == Along(p, d, i) && Opposing(b, line[i], c))
            && Closing(b, Along(p, d, |line|), c)
  {
    var line := [p] + rest;
    forall i | 0 <= i < |line|
      ensures line[i] == Along(p, d, i) && Opposing(b, line[i], c)
    {
      if i > 0 {
        AlongShift(p, d, i - 1);
      }
    }
    AlongShift(p, d, |rest|);
  }

  /** From `p` along `d`, squares 0..m-1 are opposing and square m closes. */
  predicate ClosesAt(b: Board, p: Pos, d: Delta, c: int, m: int)
    requires IsBoard(b)
  {
    && 0 <= m
    && Closing(b, Along(p, d, m), c)
    && forall j | 0 <= j < m :: Opposing(b, Along(p, d, j), c)
  }

  /** A line that closes `m` squares from `p` closes `m - 1` squares from the next square. */
  lemma ClosesFromNext(b: Board, p: Pos, d: Delta, c: int, m: int)
    requires IsBoard(b) && IsDir(d) && ClosesAt(b, p, d, c, m) && 0 < m
    ensures ClosesAt(b, Pos(p.x + d.x, p.y + d.y), d, c, m - 1)
  {
    var next := Pos(p.x + d.x, p.y + d.y);
    forall j | 0 <= j < m - 1
      ensures Opposing(b, Along(next, d, j), c)
    {
      AlongShift(p, d, j);
      assert Opposing(b, Along(p, d, j + 1), c);
    }
    AlongShift(p, d, m - 1);
  }

  /** Whenever some square closes the line from `p`, the scan finds it and answers the squares before it. */
  lemma {:induction false} ScanComplete(b: Board, p: Pos, d: Delta, c: int, m: int)
    requires IsBoard(b) && IsDir(d) && ClosesAt(b, p, d, c, m)
    ensures Scan(b, p, d, c).Some? && |Scan(b, p, d, c).value| == m
    decreases m
  {
    assert Along(p, d, 0) == p;
    if m == 0 {
      assert Closing(b, p, c);
    } else {
      assert Opposing(b, p, c);
      var next := Pos(p.x + d.x, p.y + d.y);
      ClosesFromNext(b, p, d, c, m);
      ScanComplete(b, next, d, c, m - 1);
      ScanStep(b, p, d, c);
    }
  }

  /** Over an opposing square the scan answers that square followed by the line from the next one. */
  lemma ScanStep(b: Board, p: Pos, d: Delta, c: int)
    requires IsBoard(b) && IsDir(d) && Opposing(b, p, c) && Scan(b, Pos(p.x + d.x, p.y + d.y), d, c).Some?
    ensures Scan(b, p, d, c) == Some([p] + Scan(b, Pos(p.x + d.x, p.y + d.y), d, c).value)
  {
  }

  /**
   * The flips of one direction of `flipPieces`: the scan starts one step
   * from the origin and its line counts only if a disc of colour `c` closes it.
   */
  function Ray(b: Board, o: Pos, d: Delta, c: int): seq<Pos>
    requires IsBoard(b) && IsDir(d)
  {
    Scan(b, Pos(o.x + d.x, o.y + d.y), d, c).GetOr([])
  }

  /**
   * Reference rule: seen from origin `o`, square m along `d` holds `c` and
   * squares 1..m-1 hold the other colour.
   */
  predicate Brackets(b: Board, o: Pos, d: Delta, c: int, m: int)
    requires IsBoard(b)
  {
    && 1 <= m
    && Closing(b, Along(o, d, m), c)
    && forall j | 1 <= j < m :: Opposing(b, Along(o, d, j), c)
  }

  /**
   * Reference rule: placing `c` at `o` flips `q` when `q` lies k >= 1 steps
   * from `o` along one of the eight directions, strictly before a square
   * that brackets the line.
   */
  ghost predicate Flanked(b: Board, o: Pos, c: int, q: Pos)
    requires IsBoard(b)
  {
    exists di, k, m | 0 <= di < 8 && 1 <= k < m ::
      q == Along(o, Dir(di), k) && Brackets(b, o, Dir(di), c, m)
  }

  /** Every square one direction flips is bracketed along it, at the step its index says. */
  lemma RaySound(b: Board, o: Pos, d: Delta, c: int, i: int)
    requires IsBoard(b) && IsDir(d) && 0 <= i < |Ray(b, o, d, c)|
    ensures Ray(b, o, d, c)[i] == Along(o, d, i + 1)
    ensures Brackets(b, o, d, c, |Ray(b, o, d, c)| + 1)
  {
    var p := Pos(o.x + d.x, o.y + d.y);
    var line := Scan(b, p, d, c).value;
    forall j | 1 <= j < |line| + 1
      ensures Opposing(b, Along(o, d, j), c)
    {
      AlongShift(o, d, j - 1);
      assert Along(p, d, j - 1) == line[j - 1];
    }
    AlongShift(o, d, i);
    AlongShift(o, d, |line|);
  }

  /** A bracket seen from the origin is a closing line seen from the square after it. */
  lemma BracketsFromNext(b: Board, o: Pos, d: Delta, c: int, m: int)
    requires IsBoard(b) && IsDir(d) && Brackets(b, o, d, c, m)
    ensures ClosesAt(b, Pos(o.x + d.x, o.y + d.y), d, c, m - 1)
  {
    var p := Pos(o.x + d.x, o.y + d.y);
    forall j | 0 <= j < m - 1
      ensures Opposing(b, Along(p, d, j), c)
    {
      AlongShift(o, d, j);
      assert Opposing(b, Along(o, d, j + 1), c);
    }
    AlongShift(o, d, m - 1);
  }

  /** A line bracketed `m` squares out is scanned in full: the direction flips `m - 1` squares. */
  lemma RayLength(b: Board, o: Pos, d: Delta, c: int, m: int)
    requires IsBoard(b) && IsDir(d) && Brackets(b, o, d, c, m)
    ensures |Ray(b, o, d, c)| == m - 1
  {
    var p := Pos(o.x + d.x, o.y + d.y);
    BracketsFromNext(b, o, d, c, m);
    ScanComplete(b, p, d, c, m - 1);
    assert Ray(b, o, d, c) == Scan(b, p, d, c).value;
  }

  /** Every square bracketed along a direction is among that direction's flips. */
  lemma RayComplete(b: Board, o: Pos, d: Delta, c: int, k: int, m: int)
    requires IsBoard(b) && IsDir(d) && 1 <= k < m && Brackets(b, o, d, c, m)
    ensures Along(o, d, k) in Ray(b, o, d, c)
  {
    RayLength(b, o, d, c, m);
    RaySound(b, o, d, c, k - 1);
  }

  /** The i-th of the eight directions of `flipPieces`, as (dx, dy), in the source's order. */
  function Dir(i: int): (d: Delta)
    requires 0 <= i < 8
    ensures IsDir(d)
  {
    Directions[i]
  }

  /** The eight directions are distinct. */
  lemma DirInjective(i: int, j: int)
    requires 0 <= i < 8 && 0 <= j < 8 && Dir(i) == Dir(j)
    ensures i == j
  {
  }

  /** The flips of each of the eight directions, by direction number. */
  function Rays(b: Board, o: Pos, c: int): (rs: seq<seq<Pos>>)
    requires IsBoard(b)
    ensures |rs| == 8 && forall i | 0 <= i < 8 :: rs[i] == Ray(b, o, Dir(i), c)
  {
    seq(8, i requires 0 <= i < 8 => Ray(b, o, Dir(i), c))
  }

  /** The lists of `rs` from index `i` on, appended in order. */
  function ConcatFrom<T>(rs: seq<seq<T>>, i: nat): seq<T>
    requires i <= |rs|
    decreases |rs| - i
  {
    if i == |rs| then [] else rs[i] + ConcatFrom(rs, i + 1)
  }

  /** An element of the appended lists comes from one of them. */
  lemma {:induction false} ConcatSource<T>(rs: seq<seq<T>>, i: nat, q: T) returns (k: int)
    requires i <= |rs| && q in ConcatFrom(rs, i)
    ensures i <= k < |rs| && q in rs[k]
    decreases |rs| - i
  {
    if q in rs[i] {
      k := i;
    } else {
      k := ConcatSource(rs, i + 1, q);
    }
  }

  /** An element of one of the lists from index `i` on is in the appended lists. */
  lemma {:induction false} ConcatCover<T>(rs: seq<seq<T>>, i: nat, k: int, q: T)
    requires i <= k < |rs| && q in rs[k]
    ensures q in ConcatFrom(rs, i)
    decreases |rs| - i
  {
    if i < k {
      ConcatCover(rs, i + 1, k, q);
    }
  }

  /** Lists without repeats that share no element append to a list without repeats. */
  lemma {:induction false} ConcatNoDup<T>(rs: seq<seq<T>>, i: nat)
    requires i <= |rs|
    requires forall k | 0 <= k < |rs| :: NoDup(rs[k])
    requires forall k, l, q | 0 <= k < l < |rs| && q in rs[k] :: q !in rs[l]
    ensures NoDup(ConcatFrom(rs, i))
    decreases |rs| - i
  {
    if i < |rs| {
      var rest := ConcatFrom(rs, i + 1);
      ConcatNoDup(rs, i + 1);
      forall a, e | 0 <= a < |rs[i]| && 0 <= e < |rest|
        ensures rs[i][a] != rest[e]
      {
        var l := ConcatSource(rs, i + 1, rest[e]);
        assert rs[i][a] in rs[i];
      }
      AppendNoDup(rs[i], rest);
    }
  }

  /** The `for` loop of `flipPieces` from direction `i` on: each direction's closed line, appended in order. */
  function FlipRays(b: Board, o: Pos, c: int, i: nat): seq<Pos>
    requires IsBoard(b) && i <= 8
  {
    ConcatFrom(Rays(b, o, c), i)
  }

  /** A square is in the loop's output from direction `i` on exactly when one of those directions flips it. */
  lemma FlipRaysMembers(b: Board, o: Pos, c: int, i: nat, q: Pos)
    requires IsBoard(b) && i <= 8
    ensures q in FlipRays(b, o, c, i) <==> exists di | i <= di < 8 :: q in Ray(b, o, Dir(di), c)
  {
    var rs := Rays(b, o, c);
    if q in FlipRays(b, o, c, i) {
      var di := ConcatSource(rs, i, q);
      assert q in Ray(b, o, Dir(di), c);
    }
    if exists di | i <= di < 8 :: q in Ray(b, o, Dir(di), c) {
      var di :| i <= di < 8 && q in Ray(b, o, Dir(di), c);
      ConcatCover(rs, i, di, q);
    }
  }

  /** Different step counts along one direction are different squares. */
  lemma AlongInjective(o: Pos, d: Delta, k1: int, k2: int)
    requires IsDir(d) && Along(o, d, k1) == Along(o, d, k2)
    ensures k1 == k2
  {
  }

  /** A nonzero number of steps never comes back to the origin. */
  lemma AlongLeavesOrigin(o: Pos, d: Delta, k: int)
    requires IsDir(d) && k != 0
    ensures Along(o, d, k) != o
  {
  }

  /** Squares at least one step out along two directions coincide only when the directions do. */
  lemma AlongSeparatesDirections(o: Pos, d1: Delta, d2: Delta, k1: int, k2: int)
    requires IsDir(d1) && IsDir(d2) && 1 <= k1 && 1 <= k2
    requires Along(o, d1, k1) == Along(o, d2, k2)
    ensures d1 == d2
  {
  }

  /** No element occurs twice. */
  predicate NoDup<T(==)>(s: seq<T>) {
    forall i, j | 0 <= i < j < |s| :: s[i] != s[j]
  }

  /** Two lists without repeats and without common elements concatenate to a list without repeats. */
  lemma AppendNoDup<T>(s: seq<T>, u: seq<T>)
    requires NoDup(s) && NoDup(u)
    requires forall a, e | 0 <= a < |s| && 0 <= e < |u| :: s[a] != u[e]
    ensures NoDup(s + u)
  {
    var all := s + u;
    forall x, y | 0 <= x < y < |all|
      ensures all[x] != all[y]
    {
      if y < |s| {
      } else if x >= |s| {
        assert all[x] == u[x - |s|] && all[y] == u[y - |s|];
      } else {
        assert all[y] == u[y - |s|];
      }
    }
  }

  /** One direction's flips list no square twice. */
  lemma RayNoDup(b: Board, o: Pos, d: Delta, c: int)
    requires IsBoard(b) && IsDir(d)
    ensures NoDup(Ray(b, o, d, c))
  {
    var ray := Ray(b, o, d, c);
    forall a, a' | 0 <= a < a' < |ray|
      ensures ray[a] != ray[a']
    {
      RaySound(b, o, d, c, a);
      RaySound(b, o, d, c, a');
      if ray[a] == ray[a'] {
        AlongInjective(o, d, a + 1, a' + 1);
      }
    }
  }

  /** Where a square one direction flips lies: its index in the flips, one more than its step count. */
  lemma RayIndex(b: Board, o: Pos, d: Delta, c: int, q: Pos) returns (a: int)
    requires IsBoard(b) && IsDir(d) && q in Ray(b, o, d, c)
    ensures 0 <= a < |Ray(b, o, d, c)| && q == Along(o, d, a + 1)
  {
    a :| 0 <= a < |Ray(b, o, d, c)| && Ray(b, o, d, c)[a] == q;
    RaySound(b, o, d, c, a);
  }

  /** No square is flipped along two different directions. */
  lemma RaysDisjoint(b: Board, o: Pos, c: int, i: int, j: int, q: Pos)
    requires IsBoard(b) && 0 <= i < 8 && 0 <= j < 8
    requires q in Ray(b, o, Dir(i), c) && q in Ray(b, o, Dir(j), c)
    ensures i == j
  {
    var a := RayIndex(b, o, Dir(i), c, q);
    var e := RayIndex(b, o, Dir(j), c, q);
    AlongSeparatesDirections(o, Dir(i), Dir(j), a + 1, e + 1);
    DirInjective(i, j);
  }

  /** The loop's output from direction `i` on lists no square twice. */
  lemma FlipRaysNoDup(b: Board, o: Pos, c: int, i: nat)
    requires IsBoard(b) && i <= 8
    ensures NoDup(FlipRays(b, o, c, i))
  {
    var rs := Rays(b, o, c);
    forall k | 0 <= k < 8
      ensures NoDup(rs[k])
    {
      RayNoDup(b, o, Dir(k), c);
    }
    forall k, l, q | 0 <= k < l < 8 && q in rs[k]
      ensures q !in rs[l]
    {
      if q in rs[l] {
        RaysDisjoint(b, o, c, k, l, q);
      }
    }
    ConcatNoDup(rs, i);
  }

  /** `flipPieces`'s list as returned: the closed lines of the eight directions, in order. */
  function FlipList(b: Board, x: int, y: int, c: int): seq<Pos>
    requires IsBoard(b)
  {
    FlipRays(b, Pos(x, y), c, 0)
  }

  /** A square one direction flips is flanked, of the other colour, and not the origin. */
  lemma RayFlanked(b: Board, o: Pos, di: int, c: int, a: int)
    requires IsBoard(b) && 0 <= di < 8 && 0 <= a < |Ray(b, o, Dir(di), c)|
    ensures Flanked(b, o, c, Ray(b, o, Dir(di), c)[a])
    ensures Opposing(b, Ray(b, o, Dir(di), c)[a], c)
    ensures Ray(b, o, Dir(di), c)[a] != o
  {
    var d := Dir(di);
    var ray := Ray(b, o, d, c);
    RaySound(b, o, d, c, a);
    AlongLeavesOrigin(o, d, a + 1);
    assert 1 <= a + 1 < |ray| + 1;
  }

  /** Every listed square is flanked, on the board, of the other colour, and not the origin. */
  lemma FlipListSound(b: Board, x: int, y: int, c: int, q: Pos)
    requires IsBoard(b) && q in FlipList(b, x, y, c)
    ensures Flanked(b, Pos(x, y), c, q)
    ensures Opposing(b, q, c) && q != Pos(x, y)
  {
    var o := Pos(x, y);
    var di := ConcatSource(Rays(b, o, c), 0, q);
    var a :| 0 <= a < |Ray(b, o, Dir(di), c)| && Ray(b, o, Dir(di), c)[a] == q;
    RayFlanked(b, o, di, c, a);
  }

  /** Every flanked square is listed. */
  lemma FlipListComplete(b: Board, x: int, y: int, c: int, q: Pos)
    requires IsBoard(b) && Flanked(b, Pos(x, y), c, q)
    ensures q in FlipList(b, x, y, c)
  {
    var o := Pos(x, y);
    var di, k, m :| 0 <= di < 8 && 1 <= k < m && q == Along(o, Dir(di), k) && Brackets(b, o, Dir(di), c, m);
    RayComplete(b, o, Dir(di), c, k, m);
    ConcatCover(Rays(b, o, c), 0, di, q);
  }

  /**
   * The `forEach` that paints each listed square with `c`, first to last:
   * afterwards the listed squares hold `c` and every other square is as before.
   */
  function Paint(b: Board, cells: seq<Pos>, c: int): (r: Board)
    requires IsBoard(b) && forall q | q in cells :: OnBoard(q)
    ensures IsBoard(r)
    ensures forall q | OnBoard(q) :: At(r, q) == if q in cells then c else At(b, q)
    decreases |cells|
  {
    if cells == [] then b
    else
      var q := cells[0];
      assert q in cells && OnBoard(q);
      Paint(b[q.y := b[q.y][q.x := c]], cells[1..], c)
  }

  /** What `flipPieces` leaves behind: the board afterwards and the list it returns. */
  datatype FlipOutcome = FlipOutcome(board: Board, flipped: seq<Pos>)

  /**
   * `flipPieces(x, y, c, dryRun)`: the list holds exactly the flanked
   * squares, once each, never the origin. A dry run leaves the board alone;
   * otherwise exactly the listed squares turn to `c`.
   */
  function FlipPieces(b: Board, x: int, y: int, c: int, dryRun: bool): (r: FlipOutcome)
    requires IsBoard(b)
    ensures forall q :: q in r.flipped <==> Flanked(b, Pos(x, y), c, q)
    ensures NoDup(r.flipped)
    ensures forall q | q in r.flipped :: Opposing(b, q, c)
    ensures Pos(x, y) !in r.flipped
    ensures dryRun ==> r.board == b
    ensures IsBoard(r.board)
    ensures forall q | OnBoard(q) :: At(r.board, q) == if !dryRun && q in r.flipped then c else At(b, q)
  {
    var flipped := FlipList(b, x, y, c);
    FlipRaysNoDup(b, Pos(x, y), c, 0);
    forall q
      ensures q in flipped <==> Flanked(b, Pos(x, y), c, q)
      ensures q in flipped ==> Opposing(b, q, c) && q != Pos(x, y)
    {
      if q in flipped {
        FlipListSound(b, x, y, c, q);
      }
      if Flanked(b, Pos(x, y), c, q) {
        FlipListComplete(b, x, y, c, q);
      }
    }
    if !dryRun then FlipOutcome(Paint(b, flipped, c), flipped) else FlipOutcome(b, flipped)
  }

  /**
   * `isValidMove(x, y, c)`: the square is empty and placing `c` there
   * flanks at least one square.
   */
  function IsValidMove(b: Board, x: int, y: int, c: int): (ok: bool)
    requires IsBoard(b) && OnBoard(Pos(x, y))
    ensures ok <==> At(b, Pos(x, y)) == 0 && exists q :: Flanked(b, Pos(x, y), c, q)
  {
    if b[y][x] != 0 then false
    else
      var flipped := FlipPieces(b, x, y, c, true).flipped;
      assert flipped != [] ==> flipped[0] in flipped;
      |flipped| > 0
  }

  /** `c` may move at square `q`. */
  predicate ValidAt(b: Board, q: Pos, c: int)
    requires IsBoard(b)
  {
    OnBoard(q) && IsValidMove(b, q.x, q.y, c)
  }

  /** Row-major position of a square: the order `getValidMoves` visits squares in. */
  function RowMajor(p: Pos): int {
    4 * p.y + p.x
  }

  /**
   * `moves` lists, in increasing row-major order, exactly the squares
   * before row-major position `n` that satisfy `ok`.
   */
  ghost predicate Collected(ok: Pos -> bool, moves: seq<Pos>, n: int) {
    && (forall q :: q in moves <==> OnBoard(q) && ok(q) && RowMajor(q) < n)
    && (forall i, j | 0 <= i < j < |moves| :: RowMajor(moves[i]) < RowMajor(moves[j]))
    && (forall i | 0 <= i < |moves| :: RowMajor(moves[i]) < n)
  }

  /** Visiting square (x, y) next, and keeping it when `ok` holds there, extends the collection by one position. */
  lemma CollectStep(ok: Pos -> bool, moves: seq<Pos>, x: int, y: int)
    requires OnBoard(Pos(x, y)) && Collected(ok, moves, 4 * y + x)
    ensures Collected(ok, if ok(Pos(x, y)) then moves + [Pos(x, y)] else moves, 4 * y + x + 1)
  {
    var next := if ok(Pos(x, y)) then moves + [Pos(x, y)] else moves;
    forall q
      ensures q in next <==> OnBoard(q) && ok(q) && RowMajor(q) < 4 * y + x + 1
    {
      if OnBoard(q) && RowMajor(q) == 4 * y + x {
        assert q == Pos(x, y);
      }
    }
  }

  /**
   * `getValidMoves(c)`: every square where `c` may move, each once, in
   * row-major order, and nothing else.
   */
  method GetValidMoves(b: Board, c: int) returns (moves: seq<Pos>)
    requires IsBoard(b)
    ensures forall q :: q in moves <==> ValidAt(b, q, c)
    ensures forall i, j | 0 <= i < j < |moves| :: RowMajor(moves[i]) < RowMajor(moves[j])
  {
    moves := [];
    var y := 0;
    while y < 4
      invariant 0 <= y <= 4
      invariant Collected(q => ValidAt(b, q, c), moves, 4 * y)
    {
      var x := 0;
      while x < 4
        invariant 0 <= x <= 4
        invariant Collected(q => ValidAt(b, q, c), moves, 4 * y + x)
      {
        CollectStep(q => ValidAt(b, q, c), moves, x, y);
        if IsValidMove(b, x, y, c) {
          moves := moves + [Pos(x, y)];
        }
        x := x + 1;
      }
      y := y + 1;
    }
    forall q | ValidAt(b, q, c)
      ensures q in moves
    {
      assert RowMajor(q) < 16;
    }
  }
}
