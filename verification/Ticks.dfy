/** 32-bit wrapping tick arithmetic, as in `(int32_t)(a - b) < 0`. */
module Ticks {

  const WORD := 0x1_0000_0000
  const HALF := 0x8000_0000

  /** Sleeps and overdue times are assumed to stay below this many ticks. */
  const BOUND := 0x4000_0000

  /** The value of a difference after conversion to a 32-bit signed integer. */
  function Signed(x: int): (d: int)
    ensures -HALF <= d < HALF
    ensures exists k: int :: x == d + k * WORD
  {
    var w := x % WORD;
    assert x == w + (x / WORD) * WORD;
    if w < HALF then w
    else
      assert x == (w - WORD) + (x / WORD + 1) * WORD;
      w - WORD
  }

  /** `(int32_t)(a - b) < 0`: the tick a lies before the tick b. */
  predicate Before(a: int, b: int) {
    Signed(a - b) < 0
  }

  /** Tick addition in uint32_t. */
  function Plus(tick: int, n: int): (r: int)
    ensures 0 <= r < WORD
  {
    (tick + n) % WORD
  }

  /** A difference below 2^31 in magnitude is recovered exactly, whatever multiple of 2^32 was lost. */
  lemma {:induction false} SignedUnique(x: int, d: int, k: int)
    requires -HALF <= d < HALF
    requires x == d + k * WORD
    ensures Signed(x) == d
  {
    var e := Signed(x);
    var j: int :| x == e + j * WORD;
    assert d - e == (j - k) * WORD;
    assert j == k;
  }

  /** Within the bound, differences of wrapping ticks behave like differences of integers. */
  lemma {:induction false} SignedDifference(a: int, b: int, now: int)
    requires -BOUND <= Signed(a - now) < BOUND
    requires -BOUND <= Signed(b - now) < BOUND
    ensures Signed(a - b) == Signed(a - now) - Signed(b - now)
  {
    var j: int :| a - now == Signed(a - now) + j * WORD;
    var k: int :| b - now == Signed(b - now) + k * WORD;
    assert a - b == (Signed(a - now) - Signed(b - now)) + (j - k) * WORD;
    SignedUnique(a - b, Signed(a - now) - Signed(b - now), j - k);
  }

  /** One tick brings every deadline one tick nearer, across wrap-around. */
  lemma {:induction false} SignedAdvance(a: int, now: int)
    requires -HALF < Signed(a - now)
    ensures Signed(a - Plus(now, 1)) == Signed(a - now) - 1
  {
    var j: int :| a - now == Signed(a - now) + j * WORD;
    var q := (now + 1) / WORD;
    assert Plus(now, 1) == now + 1 - q * WORD;
    assert a - Plus(now, 1) == (Signed(a - now) - 1) + (j + q) * WORD;
    SignedUnique(a - Plus(now, 1), Signed(a - now) - 1, j + q);
  }

  /** A deadline set n ticks ahead is n ticks away. */
  lemma {:induction false} SignedAhead(now: int, n: int)
    requires -HALF <= n < HALF
    ensures Signed(Plus(now, n) - now) == n
  {
    var q := (now + n) / WORD;
    assert Plus(now, n) - now == n + (-q) * WORD;
    SignedUnique(Plus(now, n) - now, n, -q);
  }
}
