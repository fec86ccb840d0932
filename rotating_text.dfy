/** `RotatingText`: the headline word that changes every three seconds. The
    interval's firing is an explicit `Tick`. */
module RotatingText {
  import opened Cycle

  const Words: seq<string> := ["lokalnie", "wygodnie", "sprawnie", "korzystnie", "bezpiecznie"]

  class Rotator {
    var index: int

    ghost predicate Valid()
      reads this
    {
      0 <= index < |Words|
    }

    constructor ()
      ensures Valid() && index == 0
    {
      index := 0;
    }

    /** The word on screen. */
    function Shown(): string
      reads this
      requires Valid()
    {
      Words[index]
    }

    /** One firing of the interval. */
    method Tick()
      modifies this
      requires Valid()
      ensures Valid() && index == Succ(old(index), |Words|)
    {
      index := (index + 1) % |Words|;
    }
  }

  /** Five ticks from any word come back to it, and on the way every one of
      the five words is shown exactly once. */
  lemma FiveTicksShowEveryWord(start: int, w: int)
    requires 0 <= start < |Words| && 0 <= w < |Words|
    ensures |Words| == 5
    ensures Iterate(start, |Words|, 5) == start
    ensures exists k: nat :: k < 5 && Words[Iterate(start, |Words|, k)] == Words[w]
    ensures forall k: nat, m: nat :: k < m < 5 ==>
      Words[Iterate(start, |Words|, k)] != Words[Iterate(start, |Words|, m)]
  {
    FullTurn(start, |Words|);
    VisitsAll(start, |Words|, w);
    forall k: nat, m: nat | k < m < 5
      ensures Words[Iterate(start, |Words|, k)] != Words[Iterate(start, |Words|, m)]
    {
      var i, j := Iterate(start, |Words|, k), Iterate(start, |Words|, m);
      assert i != j;
      assert forall a, b :: 0 <= a < b < 5 ==> Words[a] != Words[b];
    }
  }
}
