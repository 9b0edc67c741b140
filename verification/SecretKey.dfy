/** The secret key that client and server advance in lock-step. */
module SecretKey {

  const MODULUS: int := 2147483647

  const MULTIPLIER: int := 16807

  /** One step as the source computes it: through uint64_t, wrapping for a negative int. */
  function NextKey(key: int): int {
    ((key % 0x1_0000_0000_0000_0000) * MULTIPLIER % 0x1_0000_0000_0000_0000) % MODULUS
  }

  /** The keys the generator cycles through. */
  predicate InCycle(key: int) { 1 <= key < MODULUS }

  function Power(n: nat): nat { if n == 0 then 1 else MULTIPLIER * Power(n - 1) }

  /** The key after `n` renewals. */
  function KeyAfter(key: int, n: nat): int {
    if n == 0 then key else NextKey(KeyAfter(key, n - 1))
  }

  lemma ModUnique(x: int, q: int, r: int)
    requires 0 <= r < MODULUS && x == q * MODULUS + r
    ensures x % MODULUS == r
  {
  }

  lemma ModMul(a: int, b: int)
    ensures (a % MODULUS) * b % MODULUS == a * b % MODULUS
  {
    var q, r := a / MODULUS, a % MODULUS;
    var rb := r * b;
    assert a * b == (q * b) * MODULUS + rb by {
      assert a == q * MODULUS + r;
      assert (q * MODULUS) * b == (q * b) * MODULUS;
    }
    ModUnique(a * b, q * b + rb / MODULUS, rb % MODULUS);
  }

  lemma NoWrap(key: int)
    requires 0 <= key <= MODULUS
    ensures NextKey(key) == key * MULTIPLIER % MODULUS
  {
  }

  /** Multiplying by the inverse of the multiplier undoes a step, so no key of the cycle is lost:
      16807 * 1407677000 == 11017 * 2147483647 + 1. */
  lemma StepIsInvertible(key: int)
    requires 0 <= key < MODULUS
    ensures NextKey(key) * 1407677000 % MODULUS == key
  {
    NoWrap(key);
    ModMul(key * MULTIPLIER, 1407677000);
    ModUnique(key * MULTIPLIER * 1407677000, key * 11017, key);
  }

  /** The generator fits an int and never reaches 0 from the cycle; from the two values outside
      it that the server's int distribution can also draw, 0 and 2^31 - 1, it never leaves 0. */
  lemma StepStaysInCycle(key: int)
    requires 0 <= key <= MODULUS
    ensures 0 <= NextKey(key) < MODULUS
    ensures InCycle(NextKey(key)) <==> InCycle(key)
  {
    if key < MODULUS { StepIsInvertible(key); }
  }

  /** The two keys outside the cycle. */
  lemma BothLeadToZero()
    ensures NextKey(0) == 0 && NextKey(MODULUS) == 0
  {
  }

  /** They are the only ones from which the keys become 0, and then they stay so. */
  lemma {:induction false} DiesOut(key: int, n: nat)
    requires 0 <= key <= MODULUS && n > 0
    ensures 0 <= KeyAfter(key, n) < MODULUS && (InCycle(KeyAfter(key, n)) <==> InCycle(key))
    ensures KeyAfter(key, n) == 0 <==> key == 0 || key == MODULUS
  {
    if n > 1 { DiesOut(key, n - 1); }
    StepStaysInCycle(KeyAfter(key, n - 1));
  }

  lemma {:induction false} KeyAfterIsPower(key: int, n: nat)
    requires InCycle(key)
    ensures InCycle(KeyAfter(key, n))
    ensures KeyAfter(key, n) == key * Power(n) % MODULUS
  {
    if n > 0 {
      KeyAfterIsPower(key, n - 1);
      PowerStep(key, n, KeyAfter(key, n - 1));
    }
  }

  lemma PowerStep(key: int, n: nat, previous: int)
    requires n > 0 && InCycle(previous) && previous == key * Power(n - 1) % MODULUS
    ensures InCycle(NextKey(previous))
    ensures NextKey(previous) == key * Power(n) % MODULUS
  {
    StepStaysInCycle(previous);
    NoWrap(previous);
    var p := Power(n - 1);
    ModMul(key * p, MULTIPLIER);
    assert key * p * MULTIPLIER == key * (MULTIPLIER * p);
  }

  /** Distinct keys stay distinct: two sides out of step never fall back into step by one renewal
      on each. */
  lemma StepIsInjective(a: int, b: int)
    requires 0 <= a < MODULUS && 0 <= b < MODULUS
    ensures NextKey(a) == NextKey(b) <==> a == b
  {
    StepIsInvertible(a);
    StepIsInvertible(b);
  }

  /** A renewal changes every key of the cycle: 16806 * 827891619 == 6479 * 2147483647 + 1. */
  lemma StepMoves(key: int)
    requires 0 <= key < MODULUS
    ensures NextKey(key) == key <==> key == 0
  {
    NoWrap(key);
    if NextKey(key) == key {
      var q := key * MULTIPLIER / MODULUS;
      assert key * 16806 == q * MODULUS;
      assert key == (q * 827891619 - key * 6479) * MODULUS;
    }
  }
}
