/**
 * Rank and select over a LOUDS bit string (ai.js `rank_0`, `rank_1`,
 * `select_0`, `select_1`). The source has one copy of each loop per bit
 * value; here the bit value `v` is a parameter, so `Rank(bits, 0, k)` is
 * `rank_0(bits, k)` and `Select(bits, 1, n)` is `select_1(bits, n)`.
 */
module RankSelect {

  /** Reference count: how many of the first `n` positions of `bits` hold `v`. */
  function Occ(bits: seq<int>, v: int, n: nat): (c: nat)
    requires n <= |bits|
    ensures c <= n
  {
    if n == 0 then 0 else Occ(bits, v, n - 1) + (if bits[n - 1] == v then 1 else 0)
  }

  /** Counting more positions never counts fewer matches. */
  lemma {:induction false} OccMonotone(bits: seq<int>, v: int, i: nat, j: nat)
    requires i <= j <= |bits|
    ensures Occ(bits, v, i) <= Occ(bits, v, j)
    decreases j
  {
    if i < j {
      OccMonotone(bits, v, i, j - 1);
    }
  }

  /** A position holding `v` strictly raises the count. */
  lemma OccStrict(bits: seq<int>, v: int, i: nat, j: nat)
    requires i < j <= |bits| && bits[i] == v
    ensures Occ(bits, v, i) < Occ(bits, v, j)
  {
    OccMonotone(bits, v, i + 1, j);
  }

  /**
   * `rank_v(bits, k)`: the source loops from `k` down to 0 and counts the
   * positions that are inside the string and hold `v`. The result is the
   * number of matches at positions 0..min(k, |bits| - 1), and 0 for k < 0.
   */
  function Rank(bits: seq<int>, v: int, k: int): (r: nat)
    ensures k < 0 ==> r == 0
    ensures 0 <= k < |bits| ==> r == Occ(bits, v, k + 1)
    ensures k >= |bits| ==> r == Occ(bits, v, |bits|)
    decreases k + 1
  {
    if k < 0 then 0
    else (if k < |bits| && bits[k] == v then 1 else 0) + Rank(bits, v, k - 1)
  }

  /** Rank never decreases as the position grows. */
  lemma RankMonotone(bits: seq<int>, v: int, j: int, k: int)
    requires j <= k
    ensures Rank(bits, v, j) <= Rank(bits, v, k)
  {
    if 0 <= j {
      var a := if j < |bits| then j + 1 else |bits|;
      var b := if k < |bits| then k + 1 else |bits|;
      OccMonotone(bits, v, a, b);
    }
  }

  /**
   * The `select_v` loop from position `pos` on, with `n` matches still to
   * skip: each match decrements `n` and the one that brings it to exactly 0
   * answers one past its index; running off the end answers -1.
   */
  function SelectFrom(bits: seq<int>, v: int, n: int, pos: nat): (r: int)
    requires pos <= |bits|
    ensures r == -1 <==> n <= 0 || Occ(bits, v, |bits|) - Occ(bits, v, pos) < n
    ensures r != -1 ==>
              && pos < r <= |bits|
              && bits[r - 1] == v
              && Occ(bits, v, r) - Occ(bits, v, pos) == n
    decreases |bits| - pos
  {
    if pos == |bits| then -1
    else if bits[pos] == v then
      if n - 1 == 0 then
        OccMonotone(bits, v, pos + 1, |bits|);
        pos + 1
      else
        SelectFrom(bits, v, n - 1, pos + 1)
    else
      SelectFrom(bits, v, n, pos + 1)
  }

  /**
   * `select_v(bits, n)`: -1 exactly when n <= 0 or fewer than n positions
   * hold `v`; otherwise the position p in [1, |bits|] whose index p - 1 is
   * the n-th match, so that `rank_v(p - 1)` is n.
   */
  function Select(bits: seq<int>, v: int, n: int): (r: int)
    ensures r == -1 <==> n <= 0 || Occ(bits, v, |bits|) < n
    ensures r != -1 ==> 1 <= r <= |bits| && bits[r - 1] == v && Rank(bits, v, r - 1) == n
  {
    SelectFrom(bits, v, n, 0)
  }

  /** Select inverts rank at every matching position. */
  lemma SelectOfRank(bits: seq<int>, v: int, p: int)
    requires 0 <= p < |bits| && bits[p] == v
    ensures Select(bits, v, Rank(bits, v, p)) == p + 1
  {
    var n := Rank(bits, v, p);
    assert n == Occ(bits, v, p + 1) >= 1;
    OccMonotone(bits, v, p + 1, |bits|);
    var r := Select(bits, v, n);
    assert Occ(bits, v, r) == n;
    if r - 1 < p {
      OccStrict(bits, v, r - 1, p);
    } else if r - 1 > p {
      OccStrict(bits, v, p, r - 1);
    }
  }

  /** Every position is a 0 or a 1. */
  predicate IsBinary(bits: seq<int>) {
    forall i | 0 <= i < |bits| :: bits[i] == 0 || bits[i] == 1
  }

  /** Over a binary string, the 0-count and the 1-count split every prefix. */
  lemma {:induction false} OccComplement(bits: seq<int>, n: nat)
    requires IsBinary(bits) && n <= |bits|
    ensures Occ(bits, 0, n) + Occ(bits, 1, n) == n
  {
    if n > 0 {
      OccComplement(bits, n - 1);
    }
  }

  /** rank_0(k) + rank_1(k) is the number of in-range positions in 0..k. */
  lemma RankComplement(bits: seq<int>, k: int)
    requires IsBinary(bits) && 0 <= k
    ensures Rank(bits, 0, k) + Rank(bits, 1, k) == if k < |bits| then k + 1 else |bits|
  {
    OccComplement(bits, if k < |bits| then k + 1 else |bits|);
  }
}
