/**
 * The history-popping loop of game.js `undoMove`: moves are taken off the
 * end of the history until one of the side whose turn it is has been
 * removed, and the notation list loses one entry per removed real move.
 */
module Undo {

  /** One history entry: a move of colour `color` on (x, y); x == -1 marks a pass. */
  datatype HistoryEntry = HistoryEntry(x: int, y: int, color: int)

  predicate IsPass(e: HistoryEntry) {
    e.x == -1
  }

  /** The side an entry belongs to, in the numbering of `currentPlayer`: 0 for colour 1, 1 otherwise. */
  function Side(e: HistoryEntry): (t: int)
    ensures t == 0 <==> e.color == 1
    ensures t == 0 || t == 1
  {
    if e.color == 1 then 0 else 1
  }

  /** How many entries of `entries` are real moves, not passes. */
  function RealMoves(entries: seq<HistoryEntry>): (n: nat)
    ensures n <= |entries|
  {
    if |entries| == 0 then 0
    else RealMoves(entries[..|entries| - 1]) + (if IsPass(entries[|entries| - 1]) then 0 else 1)
  }

  /** What the loop leaves: the shortened history and notation, and the entries removed, oldest first. */
  datatype Undone = Undone(history: seq<HistoryEntry>, notation: seq<string>, removed: seq<HistoryEntry>)

  /** The number of notation entries kept when at most `k` are taken off the end. */
  function Kept(notation: seq<string>, k: nat): nat {
    if |notation| >= k then |notation| - k else 0
  }

  /**
   * The `while` loop of `undoMove` with `myTurn` the side to move: remove
   * the newest entry, drop one notation entry for it when it is a real
   * move and there is one, and stop after an entry of side `myTurn` or
   * when the history is empty. What is left is a prefix of the history.
   */
  function PopUntilTurn(history: seq<HistoryEntry>, notation: seq<string>, myTurn: int): (r: Undone)
    ensures r.history + r.removed == history
    decreases |history|
  {
    if |history| == 0 then Undone(history, notation, [])
    else
      var last := history[|history| - 1];
      var rest := history[..|history| - 1];
      var notation' := if !IsPass(last) && |notation| > 0 then notation[..|notation| - 1] else notation;
      assert rest + [last] == history;
      if Side(last) == myTurn then
        Undone(rest, notation', [last])
      else
        var r := PopUntilTurn(rest, notation', myTurn);
        assert r.history + (r.removed + [last]) == rest + [last];
        Undone(r.history, r.notation, r.removed + [last])
  }

  /**
   * Where the loop stops: it removes at least one entry from a non-empty
   * history; the oldest entry removed is of side `myTurn` unless the
   * history ran out, and every later one is of the other side.
   */
  lemma {:induction false} PopUntilTurnStops(history: seq<HistoryEntry>, notation: seq<string>, myTurn: int)
    ensures var r := PopUntilTurn(history, notation, myTurn);
            && (|history| > 0 ==> |r.removed| > 0)
            && (|r.removed| > 0 && |r.history| > 0 ==> Side(r.removed[0]) == myTurn)
            && (forall i | 1 <= i < |r.removed| :: Side(r.removed[i]) != myTurn)
    decreases |history|
  {
    if |history| > 0 {
      var last := history[|history| - 1];
      var rest := history[..|history| - 1];
      var notation' := if !IsPass(last) && |notation| > 0 then notation[..|notation| - 1] else notation;
      if Side(last) != myTurn {
        PopUntilTurnStops(rest, notation', myTurn);
        var r := PopUntilTurn(rest, notation', myTurn);
        var removed := r.removed + [last];
        assert |r.removed| > 0 ==> removed[0] == r.removed[0];
      }
    }
  }

  /** The notation loses one entry per removed real move, as long as it has one. */
  lemma {:induction false} PopUntilTurnNotation(history: seq<HistoryEntry>, notation: seq<string>, myTurn: int)
    ensures var r := PopUntilTurn(history, notation, myTurn);
            r.notation == notation[..Kept(notation, RealMoves(r.removed))]
    decreases |history|
  {
    if |history| > 0 {
      var last := history[|history| - 1];
      var rest := history[..|history| - 1];
      var notation' := if !IsPass(last) && |notation| > 0 then notation[..|notation| - 1] else notation;
      if Side(last) == myTurn {
        assert [last][..0] == [];
      } else {
        PopUntilTurnNotation(rest, notation', myTurn);
        var r := PopUntilTurn(rest, notation', myTurn);
        RealMovesAppend(r.removed, last);
        NotationStep(notation, last, r.removed);
      }
    }
  }

  /** Counting real moves after appending one entry. */
  lemma RealMovesAppend(s: seq<HistoryEntry>, e: HistoryEntry)
    ensures RealMoves(s + [e]) == RealMoves(s) + (if IsPass(e) then 0 else 1)
  {
    assert (s + [e])[..|s|] == s;
  }

  /** Popping for `e` first and then for `earlier` keeps what popping for all of them at once keeps. */
  lemma NotationStep(notation: seq<string>, e: HistoryEntry, earlier: seq<HistoryEntry>)
    requires RealMoves(earlier + [e]) == RealMoves(earlier) + (if IsPass(e) then 0 else 1)
    ensures var notation' := if !IsPass(e) && |notation| > 0 then notation[..|notation| - 1] else notation;
            notation'[..Kept(notation', RealMoves(earlier))] == notation[..Kept(notation, RealMoves(earlier + [e]))]
  {
  }

  /**
   * The stop point as its own definition: when the history holds an entry
   * of side `myTurn` at `k` and none after it, the loop keeps exactly the
   * entries before `k`.
   */
  lemma {:induction false} StopsAtLastOfSide(history: seq<HistoryEntry>, notation: seq<string>, myTurn: int, k: int)
    requires 0 <= k < |history| && Side(history[k]) == myTurn
    requires forall j | k < j < |history| :: Side(history[j]) != myTurn
    ensures PopUntilTurn(history, notation, myTurn).history == history[..k]
    decreases |history|
  {
    var last := history[|history| - 1];
    var rest := history[..|history| - 1];
    var notation' := if !IsPass(last) && |notation| > 0 then notation[..|notation| - 1] else notation;
    if k < |history| - 1 {
      assert Side(last) != myTurn;
      StopsAtLastOfSide(rest, notation', myTurn, k);
      assert rest[..k] == history[..k];
    }
  }

  /** When the history holds no entry of side `myTurn`, the loop empties it. */
  lemma EmptiesWithoutSide(history: seq<HistoryEntry>, notation: seq<string>, myTurn: int)
    requires forall j | 0 <= j < |history| :: Side(history[j]) != myTurn
    ensures PopUntilTurn(history, notation, myTurn).history == []
  {
    PopUntilTurnStops(history, notation, myTurn);
  }
}
