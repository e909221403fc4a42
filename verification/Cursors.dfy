// Ring cursors that count in a machine word and wrap with it.
//
// A ring's capacity is a power of two that divides the word, so masking a
// wrapped cursor picks the slot the unbounded count would pick.

module Cursors {
  import opened Basics

  function Pow2(k: nat): (p: nat)
    ensures p >= 1
  {
    if k == 0 then 1 else 2 * Pow2(k - 1)
  }

  // The smallest power of two at or above `n`, searched upwards from `Pow2(k)`.
  function LogAtLeast(n: nat, k: nat): (j: nat)
    requires k == 0 || Pow2(k - 1) < n
    ensures n <= Pow2(j) && k <= j && (j == 0 || Pow2(j - 1) < n)
    decreases n - Pow2(k)
  {
    if n <= Pow2(k) then k else LogAtLeast(n, k + 1)
  }

  /** The slots a ring asked to hold `capacity` gets. */
  function RingCapacity(capacity: nat): nat {
    Pow2(LogAtLeast(Max(capacity, 2), 0))
  }

  lemma {:induction false} Pow2Product(a: nat, b: nat)
    ensures Pow2(a + b) == Pow2(a) * Pow2(b)
  {
    if a > 0 {
      Pow2Product(a - 1, b);
      Associate(2, Pow2(a - 1), Pow2(b));
    }
  }

  lemma Associate(x: int, y: int, z: int)
    ensures x * (y * z) == (x * y) * z
  {
  }

  // The capacity is a power of two no larger than needed, and it divides any
  // wider word at least twice.
  lemma CapacityDividesTheWord(capacity: nat, bits: nat)
    requires bits >= 2 && capacity <= Pow2(bits - 1)
    ensures var c := RingCapacity(capacity);
            && 2 <= c && capacity <= c && (capacity > 2 ==> c < 2 * capacity)
            && exists laps: nat :: laps >= 2 && Pow2(bits) == c * laps
  {
    var n := Max(capacity, 2);
    var k := LogAtLeast(n, 0);
    assert Pow2(1) == 2;
    Pow2Monotone(1, bits - 1);
    if k >= bits {
      Pow2Monotone(bits - 1, k - 1);
      assert false;
    }
    Pow2Product(k, bits - k);
    Pow2Monotone(1, bits - k);
    assert Pow2(bits) == RingCapacity(capacity) * Pow2(bits - k);
  }

  lemma {:induction false} Pow2Monotone(a: nat, b: nat)
    requires a <= b
    ensures Pow2(a) <= Pow2(b)
  {
    if a < b {
      Pow2Monotone(a, b - 1);
    }
  }

  // ---- remainders ------------------------------------------------------------

  lemma Grows(d: int, x: int)
    requires d > 0
    ensures x >= 1 ==> d * x >= d
    ensures x <= -1 ==> d * x <= -d
  {
    if x >= 1 {
      assert d * x == d * (x - 1) + d;
    } else if x <= -1 {
      assert d * x == d * (x + 1) - d;
    }
  }

  lemma OnlyZeroIsSmall(d: int, x: int)
    requires d > 0 && -d < d * x < d
    ensures x == 0
  {
    Grows(d, x);
  }

  lemma Distribute(d: int, x: int, y: int)
    ensures d * (x - y) == d * x - d * y
    ensures d * (x + y) == d * x + d * y
  {
  }

  lemma RemainderIs(n: int, d: int, q: int, r: int)
    requires 0 <= r < d && n == d * q + r
    ensures n % d == r && n / d == q
  {
    Distribute(d, n / d, q);
    assert n == d * (n / d) + n % d;
    OnlyZeroIsSmall(d, n / d - q);
  }

  // A cursor wrapped by the word still names its slot.
  lemma SlotSurvivesTheWord(n: nat, capacity: nat, laps: nat)
    requires capacity > 0 && laps > 0
    ensures capacity * laps > 0
    ensures (n % (capacity * laps)) % capacity == n % capacity
  {
    var word := capacity * laps;
    var r := n % word;
    var k := n / word;
    assert n == word * k + r;
    Associate(capacity, laps, k);
    var j := r / capacity;
    assert n == capacity * (laps * k + j) + r % capacity;
    RemainderIs(n, capacity, laps * k + j, r % capacity);
  }

  // Fewer than a ring apart and not the same, two counts name different slots.
  lemma SlotsDiffer(i: nat, j: nat, capacity: nat)
    requires i < j < i + capacity
    ensures i % capacity != j % capacity
  {
    Distribute(capacity, j / capacity, i / capacity);
    if i % capacity == j % capacity {
      OnlyZeroIsSmall(capacity, j / capacity - i / capacity);
    }
  }

  // The wrapped difference of two cursors less than a word apart is the distance.
  lemma WrappedDifference(hi: nat, lo: nat, word: nat)
    requires lo <= hi < lo + word
    ensures (hi % word - lo % word) % word == hi - lo
  {
    var a, b := hi / word, lo / word;
    assert hi % word - lo % word == word * (b - a) + (hi - lo);
    RemainderIs(hi % word - lo % word, word, b - a, hi - lo);
  }

  lemma AdvanceWrapped(n: nat, step: nat, word: nat)
    requires word > 0
    ensures (n % word + step) % word == (n + step) % word
  {
    var q := n / word;
    var q', r' := (n + step) / word, (n + step) % word;
    assert n % word + step == word * (q' - q) + r';
    RemainderIs(n % word + step, word, q' - q, r');
  }
}
