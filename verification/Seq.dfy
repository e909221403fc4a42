// Wrapping 16-bit sequence numbers, and how they stand for unbounded ones.

module Seq {

  const SPAN := 0x1_0000
  const HALF := 0x8000

  type Seq16 = n: int | 0 <= n < 0x1_0000

  function Next(s: Seq16): Seq16 {
    (s + 1) % SPAN
  }

  // `s` is not `other` and lies fewer than HALF steps after it.
  predicate IsNewerThan(s: Seq16, other: Seq16) {
    var forward := (s - other) % SPAN;
    forward != 0 && forward < HALF
  }

  // The wrapped difference read as a signed 16-bit number.
  function DistanceFrom(s: Seq16, other: Seq16): int {
    var forward := (s - other) % SPAN;
    if forward < HALF then forward else forward - SPAN
  }

  /** What an unbounded counter looks like on the wire. */
  function Wrap(n: int): Seq16 {
    n % SPAN
  }

  /** The first counter at or after `base` that looks like `s` on the wire. */
  function Ahead(s: Seq16, base: int): int {
    base + (s - base) % SPAN
  }

  // Less than half the space apart, the modular order is the order of the
  // counters and the modular distance is their difference.
  lemma ModularOrder(a: int, b: int)
    requires -HALF < a - b < HALF
    ensures IsNewerThan(Wrap(a), Wrap(b)) <==> a > b
    ensures DistanceFrom(Wrap(a), Wrap(b)) == a - b
  {
    var d := (Wrap(a) - Wrap(b)) % SPAN;
    assert d == (a - b) % SPAN;
  }

  lemma WrapInjective(a: int, b: int)
    requires -SPAN < a - b < SPAN
    ensures Wrap(a) == Wrap(b) <==> a == b
  {
  }

  lemma NextIsSuccessor(a: int)
    ensures Next(Wrap(a)) == Wrap(a + 1)
  {
  }

  lemma AheadOfWrap(i: int, base: int)
    requires base <= i < base + SPAN
    ensures Ahead(Wrap(i), base) == i
  {
  }

  lemma WrapOfAhead(s: Seq16, base: int)
    ensures base <= Ahead(s, base) < base + SPAN
    ensures Wrap(Ahead(s, base)) == s
  {
  }

  // Half the space apart the order says nothing either way.
  lemma AntipodeIsUnordered(a: int)
    ensures !IsNewerThan(Wrap(a), Wrap(a + HALF)) && !IsNewerThan(Wrap(a + HALF), Wrap(a))
  {
  }
}
