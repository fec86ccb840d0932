/** Stepping an index around a cycle of `n` positions, as the image carousel
    of the advertisement page and the rotating headline word do with `%`. The
    operands are never negative there, so JavaScript's truncating `%` and
    Dafny's agree. */
module Cycle {

  /** `(i + 1) % n`. */
  function Succ(i: int, n: int): (r: int)
    requires 0 <= i < n
    ensures 0 <= r < n
    ensures r == if i == n - 1 then 0 else i + 1
  {
    (i + 1) % n
  }

  /** `(i - 1 + n) % n`. */
  function Pred(i: int, n: int): (r: int)
    requires 0 <= i < n
    ensures 0 <= r < n
    ensures r == if i == 0 then n - 1 else i - 1
  {
    (i - 1 + n) % n
  }

  /** Stepping back undoes stepping forward, and the other way round. */
  lemma PredSuccInverse(i: int, n: int)
    requires 0 <= i < n
    ensures Pred(Succ(i, n), n) == i
    ensures Succ(Pred(i, n), n) == i
  {
  }

  /** `k` forward steps from `i`. */
  function Iterate(i: int, n: int, k: nat): (r: int)
    requires 0 <= i < n
    ensures 0 <= r < n
  {
    if k == 0 then i else Succ(Iterate(i, n, k - 1), n)
  }

  /** Within one turn, `k` steps forward from `i` land on `i + k`, wrapped
      once past the end: that is, on `(i + k) % n`. */
  lemma {:induction false} IterateIsShift(i: int, n: int, k: nat)
    requires 0 <= i < n && k <= n
    ensures Iterate(i, n, k) == if i + k < n then i + k else i + k - n
  {
    if k > 0 {
      IterateIsShift(i, n, k - 1);
    }
  }

  /** `n` steps bring the index back to where it started. */
  lemma FullTurn(i: int, n: int)
    requires 0 <= i < n
    ensures Iterate(i, n, n) == i
  {
    IterateIsShift(i, n, n);
  }

  /** Within one turn every position is reached, each by exactly one number of
      steps. */
  lemma VisitsAll(i: int, n: int, j: int)
    requires 0 <= i < n && 0 <= j < n
    ensures exists k: nat :: k < n && Iterate(i, n, k) == j
    ensures forall k: nat, m: nat :: k < m < n ==> Iterate(i, n, k) != Iterate(i, n, m)
  {
    var k: nat := if j >= i then j - i else j - i + n;
    IterateIsShift(i, n, k);
    forall k: nat, m: nat | k < m < n
      ensures Iterate(i, n, k) != Iterate(i, n, m)
    {
      IterateIsShift(i, n, k);
      IterateIsShift(i, n, m);
    }
  }
}
