/** The round-robin cursor as the source declares it: a 32-bit `int` advanced
    by an atomic increment that wraps, reduced with C#'s `%`, whose remainder
    takes the sign of the dividend. */
module CursorOverflow {
  import RoundRobin

  const IntMin: int := -0x8000_0000
  const IntMax: int := 0x7FFF_FFFF

  predicate IsInt32(x: int) {
    IntMin <= x <= IntMax
  }

  /** The value an atomic 32-bit increment returns: one more, wrapping from the
      largest value to the smallest. */
  function Increment32(c: int): (r: int)
    requires IsInt32(c)
    ensures IsInt32(r)
    ensures c < IntMax ==> r == c + 1
    ensures c == IntMax ==> r == IntMin
  {
    if c == IntMax then IntMin else c + 1
  }

  /** C#'s `%` on a positive divisor: truncating division, so the remainder of
      a negative dividend is zero or negative. */
  function TruncatedRemainder(a: int, n: nat): (r: int)
    requires n > 0
    ensures a >= 0 ==> r == a % n
    ensures a < 0 ==> -(n as int) < r <= 0
    // the remainder differs from the dividend by a multiple of the divisor
    ensures (a - r) % n == 0
  {
    if a >= 0 then
      RemainderDifference(a, n);
      a % n
    else
      NegatedRemainderDifference(a, n);
      -((-a) % n)
  }

  /** A non-negative dividend lies a multiple of `n` away from its remainder. */
  lemma RemainderDifference(a: int, n: nat)
    requires a >= 0 && n > 0
    ensures (a - a % n) % n == 0
  {
    var q := a / n;
    assert a == q * n + a % n;
    RoundRobin.ModOfMultiplePlus(a - a % n, q, n, 0);
  }

  /** For a negative dividend, the negated remainder of its magnitude lies a
      multiple of `n` away from it. */
  lemma NegatedRemainderDifference(a: int, n: nat)
    requires a < 0 && n > 0
    ensures var r := -((-a) % n); (a - r) % n == 0
  {
    var q := (-a) / n;
    var r := -((-a) % n);
    assert -a == q * n + (-a) % n;
    assert a - r == (-q) * n;
    RoundRobin.ModOfMultiplePlus(a - r, -q, n, 0);
  }

  /** The candidate index the source computes from its 32-bit cursor. */
  function CandidateIndex32(counter: int, n: nat): (index: int)
    requires IsInt32(counter) && n > 0
    ensures -(n as int) < index < n
  {
    TruncatedRemainder(Increment32(counter), n)
  }

  /** Below the wrap point the 32-bit computation agrees with the unbounded
      cursor of the model. */
  lemma AgreesBeforeWrap(counter: int, n: nat)
    requires 0 <= counter < IntMax && n > 0
    ensures CandidateIndex32(counter, n) == RoundRobin.CandidateIndex(counter + 1, n)
  {
  }

  /** The probe after `int.MaxValue` increments, with three backends, computes
      index -2, which is outside the list. */
  lemma WrappedCursorIndexIsNegative()
    ensures CandidateIndex32(IntMax, 3) == -2
  {
  }
}
