/** The five blink patterns and the circular order in which the button
    steps through them. */
module Patterns {

  /** The closed set of patterns the board can show. */
  datatype LedPattern = Hammer | Circle | Zigzag | CrissCross | Cross

  /** Position of a pattern in the listed order; an independent reference
      for the successor relation. */
  function Index(p: LedPattern): (i: nat)
    ensures i < 5
  {
    match p
    case Hammer => 0
    case Circle => 1
    case Zigzag => 2
    case CrissCross => 3
    case Cross => 4
  }

  lemma IndexInjective(p: LedPattern, q: LedPattern)
    requires Index(p) == Index(q)
    ensures p == q
  {
  }

  /** The pattern the button switches to: the next one in the listed order,
      wrapping from the last back to the first. */
  function Succ(p: LedPattern): (r: LedPattern)
    ensures Index(r) == (Index(p) + 1) % 5
    ensures r != p
  {
    match p
    case Hammer => Circle
    case Circle => Zigzag
    case Zigzag => CrissCross
    case CrissCross => Cross
    case Cross => Hammer
  }

  /** The pattern reached from p after n accepted presses. */
  function Iterate(p: LedPattern, n: nat): (r: LedPattern)
    decreases n
  {
    if n == 0 then p else Iterate(Succ(p), n - 1)
  }

  lemma {:induction false} IterateIndex(p: LedPattern, n: nat)
    ensures Index(Iterate(p, n)) == (Index(p) + n) % 5
    decreases n
  {
    if n > 0 {
      IterateIndex(Succ(p), n - 1);
      var i := Index(p);
      assert Index(Succ(p)) == (i + 1) % 5;
      assert ((i + 1) % 5 + (n - 1)) % 5 == (i + n) % 5 by {
        if i + 1 == 5 {
          assert (i + 1) % 5 == 0;
        } else {
          assert (i + 1) % 5 == i + 1;
        }
      }
    }
  }

  /** The successor is a cycle of period exactly five. */
  lemma SuccPeriodFive(p: LedPattern)
    ensures Iterate(p, 5) == p
    ensures forall k :: 0 < k < 5 ==> Iterate(p, k) != p
  {
    IterateIndex(p, 5);
    IndexInjective(Iterate(p, 5), p);
    forall k | 0 < k < 5
      ensures Iterate(p, k) != p
    {
      IterateIndex(p, k);
    }
  }

  /** The successor is a permutation: four further steps undo one step, in
      both orders, so it is one-to-one and onto. */
  lemma SuccBijective(p: LedPattern)
    ensures Iterate(Succ(p), 4) == p
    ensures Succ(Iterate(p, 4)) == p
  {
    IterateIndex(Succ(p), 4);
    IndexInjective(Iterate(Succ(p), 4), p);
    IterateIndex(p, 4);
    IndexInjective(Succ(Iterate(p, 4)), p);
  }
}
