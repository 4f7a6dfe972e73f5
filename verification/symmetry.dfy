/**
 * The orientation fix of `applyNodeTransformation` (ai.js:176-226), one
 * table entry at a time. The template table speaks of a canonical board:
 * a cell (row, col) of it is stored as 8 * row + col, so the stored cells
 * fall in four buckets [0,3], [8,11], [16,19], [24,27], one per row. Each
 * of the four formula sets re-expresses such a value as the linear index
 * 4 * row' + col' of the real board, for one symmetry of the square.
 */
module Symmetry {
  import opened Wrappers

  /**
   * The four formula sets, named after the symmetry of the board each one
   * realises (see Image): Identity only subtracts a per-bucket offset,
   * Transpose multiplies by 4, HalfTurn subtracts from a constant and
   * AntiTranspose does both.
   */
  datatype Symmetry = Identity | Transpose | HalfTurn | AntiTranspose

  /** A square of the 4x4 board by row and column. */
  datatype Square = Square(row: int, col: int)

  /** The human's first move that selects each formula set, or None for any other cell. */
  function TriggerOf(move: int): (sym: Option<Symmetry>)
    ensures sym.Some? <==> move in {1, 4, 11, 14}
  {
    if move == 11 then Some(Identity)
    else if move == 14 then Some(Transpose)
    else if move == 4 then Some(HalfTurn)
    else if move == 1 then Some(AntiTranspose)
    else None
  }

  /** The stored values the formulas act on: 8 * row + col for row, col in [0,4). */
  predicate InBucket(v: int) {
    0 <= v < 4 || 8 <= v < 12 || 16 <= v < 20 || 24 <= v < 28
  }

  /**
   * One loop iteration of `applyNodeTransformation`: the bucket tests and
   * the formulas of the source, in its order. Identity has no clause for
   * [0,3]. Values outside the buckets, -1 among them, are left alone, and
   * every bucket value lands on a cell index in [0,16).
   */
  function MapEntry(sym: Symmetry, v: int): (r: int)
    ensures !InBucket(v) ==> r == v
    ensures InBucket(v) ==> 0 <= r < 16
  {
    match sym
    case Identity =>
      if 7 < v && v < 12 then v - 4
      else if 15 < v && v < 20 then v - 8
      else if 23 < v && v < 28 then v - 12
      else v
    case Transpose =>
      if -1 < v && v < 4 then 4 * v
      else if 7 < v && v < 12 then 4 * v - 31
      else if 15 < v && v < 20 then 4 * v - 62
      else if 23 < v && v < 28 then 4 * v - 93
      else v
    case HalfTurn =>
      if -1 < v && v < 4 then 15 - v
      else if 7 < v && v < 12 then 19 - v
      else if 15 < v && v < 20 then 23 - v
      else if 23 < v && v < 28 then 27 - v
      else v
    case AntiTranspose =>
      if -1 < v && v < 4 then 15 - 4 * v
      else if 7 < v && v < 12 then 46 - 4 * v
      else if 15 < v && v < 20 then 77 - 4 * v
      else if 23 < v && v < 28 then 108 - 4 * v
      else v
  }

  /**
   * Reference geometry: the square each formula set sends canonical square
   * `q` to: the identity, the transpose, the half-turn and the
   * anti-transpose of the 4x4 board.
   */
  function Image(sym: Symmetry, q: Square): (r: Square)
    ensures 0 <= q.row < 4 && 0 <= q.col < 4 ==> 0 <= r.row < 4 && 0 <= r.col < 4
  {
    match sym
    case Identity => q
    case Transpose => Square(q.col, q.row)
    case HalfTurn => Square(3 - q.row, 3 - q.col)
    case AntiTranspose => Square(3 - q.col, 3 - q.row)
  }

  /** Each of the four symmetries is its own inverse. */
  lemma ImageInvolution(sym: Symmetry, q: Square)
    ensures Image(sym, Image(sym, q)) == q
  {
  }

  /** Each formula set is its symmetry: bucket value 8 * row + col goes to the image square's index. */
  lemma MapEntryIsSymmetry(sym: Symmetry, q: Square)
    requires 0 <= q.row < 4 && 0 <= q.col < 4
    ensures MapEntry(sym, 8 * q.row + q.col) == 4 * Image(sym, q).row + Image(sym, q).col
  {
  }

  /** The bucket value a cell index came from: every one of the four symmetries undoes itself. */
  function Unmap(sym: Symmetry, c: int): (v: int)
    requires 0 <= c < 16
    ensures InBucket(v)
  {
    var q := Image(sym, Square(c / 4, c % 4));
    8 * q.row + q.col
  }

  /** The canonical square a bucket value stands for. */
  function BucketSquare(v: int): (q: Square)
    requires InBucket(v)
    ensures 0 <= q.row < 4 && 0 <= q.col < 4 && v == 8 * q.row + q.col
  {
    if v < 4 then Square(0, v)
    else if v < 12 then Square(1, v - 8)
    else if v < 20 then Square(2, v - 16)
    else Square(3, v - 24)
  }

  /** Reading a linear cell index back as a square. */
  lemma IndexOfSquare(q: Square)
    requires 0 <= q.row < 4 && 0 <= q.col < 4
    ensures (4 * q.row + q.col) / 4 == q.row && (4 * q.row + q.col) % 4 == q.col
  {
  }

  /** Undoing the remapping of a bucket value gives the value back. */
  lemma BucketRoundTrip(sym: Symmetry, v: int)
    requires InBucket(v)
    ensures Unmap(sym, MapEntry(sym, v)) == v
  {
    var q := BucketSquare(v);
    var p := Image(sym, q);
    MapEntryIsSymmetry(sym, q);
    var c := MapEntry(sym, v);
    assert c == 4 * p.row + p.col;
    IndexOfSquare(p);
    assert Square(c / 4, c % 4) == p;
    ImageInvolution(sym, q);
  }

  /** Every cell index in [0,16) is the image of exactly the bucket value Unmap names. */
  lemma CellRoundTrip(sym: Symmetry, c: int)
    requires 0 <= c < 16
    ensures MapEntry(sym, Unmap(sym, c)) == c
  {
    var q := Image(sym, Square(c / 4, c % 4));
    MapEntryIsSymmetry(sym, q);
  }

  /**
   * Hence each formula set is a bijection from the 16 bucket values onto
   * [0,16): distinct bucket values never collide.
   */
  lemma MapEntryInjective(sym: Symmetry, v: int, w: int)
    requires InBucket(v) && InBucket(w) && MapEntry(sym, v) == MapEntry(sym, w)
    ensures v == w
  {
    BucketRoundTrip(sym, v);
    BucketRoundTrip(sym, w);
  }

  /** The whole-table pass: every entry goes through the same formula set. */
  function TransformTable(sym: Symmetry, table: seq<int>): (r: seq<int>)
    ensures |r| == |table|
  {
    seq(|table|, i requires 0 <= i < |table| => MapEntry(sym, table[i]))
  }
}
