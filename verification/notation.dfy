/**
 * Move notation of game.js `positionToNotation`: a column letter a-d for
 * x followed by a row digit 1-4 for y.
 */
module Notation {
  import opened Wrappers

  const Columns: seq<char> := ['a', 'b', 'c', 'd']
  const Rows: seq<char> := ['1', '2', '3', '4']

  /**
   * `positionToNotation(x, y)`: the two characters naming the square. The
   * source indexes its tables without a check, so the square must be on
   * the board.
   */
  function PositionToNotation(x: int, y: int): (s: string)
    requires 0 <= x < 4 && 0 <= y < 4
    ensures |s| == 2 && s[0] in Columns && s[1] in Rows
  {
    [Columns[x]] + [Rows[y]]
  }

  /** Where `c` sits in `table`, or None when it is absent. */
  function IndexIn(table: seq<char>, c: char): (i: Option<int>)
    ensures i.Some? <==> c in table
    ensures i.Some? ==> 0 <= i.value < |table| && table[i.value] == c
    ensures i.Some? ==> forall j | 0 <= j < i.value :: table[j] != c
  {
    if |table| == 0 then None
    else if table[0] == c then Some(0)
    else
      match IndexIn(table[1..], c)
      case None => None
      case Some(k) => Some(k + 1)
  }

  /** The reading of a notation string: the square it names, or None when it names none. */
  function NotationToPosition(s: string): (r: Option<(int, int)>)
    ensures r.Some? <==> |s| == 2 && s[0] in Columns && s[1] in Rows
    ensures r.Some? ==> 0 <= r.value.0 < 4 && 0 <= r.value.1 < 4
  {
    if |s| != 2 then None
    else
      match (IndexIn(Columns, s[0]), IndexIn(Rows, s[1]))
      case (Some(x), Some(y)) => Some((x, y))
      case _ => None
  }

  /** Reading the notation of a square gives the square back. */
  lemma ReadWritten(x: int, y: int)
    requires 0 <= x < 4 && 0 <= y < 4
    ensures NotationToPosition(PositionToNotation(x, y)) == Some((x, y))
  {
  }

  /** Writing the square a well-formed string names gives the string back. */
  lemma WriteRead(s: string)
    requires NotationToPosition(s).Some?
    ensures var (x, y) := NotationToPosition(s).value;
            PositionToNotation(x, y) == s
  {
  }

  /** Distinct squares get distinct names. */
  lemma NotationInjective(x: int, y: int, x': int, y': int)
    requires 0 <= x < 4 && 0 <= y < 4 && 0 <= x' < 4 && 0 <= y' < 4
    requires PositionToNotation(x, y) == PositionToNotation(x', y')
    ensures x == x' && y == y'
  {
    ReadWritten(x, y);
    ReadWritten(x', y');
  }
}
