/** How long a failed attempt waits: doubling from one second up to a ceiling, in nanoseconds of an int64. */
module Backoff {
  import opened Domain

  const MILLISECOND: int := 1_000_000
  const SECOND: int := 1_000_000_000
  const MIN_INT64: int := -0x8000_0000_0000_0000

  function Power2(n: nat): (r: nat)
    ensures r >= 1
  {
    if n == 0 then 1 else 2 * Power2(n - 1)
  }

  function Ceiling(max: int): int { if max <= 0 then 30 * SECOND else max }

  /** The wait without jitter: the smaller of the ceiling and 2^attempt seconds. */
  function Wait(attempt: int, max: int): (r: int)
    ensures 0 < r <= Ceiling(max)
    ensures r == Ceiling(max) || r >= SECOND
  {
    var seconds := Power2(if attempt < 0 then 0 else attempt) * SECOND;
    if seconds < Ceiling(max) then seconds else Ceiling(max)
  }

  /** Without a ceiling of its own the wait has one of thirty seconds: 1, 2, 4, 8, 16 and then always 30. */
  lemma DefaultWaits(max: int)
    requires max <= 0
    ensures forall attempt :: 0 <= attempt < 5 ==> Wait(attempt, max) == Power2(attempt) * SECOND
    ensures Power2(0) == 1 && Power2(1) == 2 && Power2(2) == 4 && Power2(3) == 8 && Power2(4) == 16
    ensures forall attempt :: attempt >= 5 ==> Wait(attempt, max) == 30 * SECOND
  {
    assert Power2(4) == 16 && Power2(5) == 32;
    forall attempt | attempt >= 5 ensures Wait(attempt, max) == 30 * SECOND { Power2Grows(5, attempt); }
    forall attempt | 0 <= attempt < 5 ensures Wait(attempt, max) == Power2(attempt) * SECOND { Power2Grows(attempt, 4); }
  }

  /** Negation and remainder as int64 does them: the minimum is its own negative, and the sign follows the dividend. */
  function Negated(v: int): int { if v == MIN_INT64 then MIN_INT64 else -v }

  function Remainder(v: int, n: int): int
    requires n > 0
  {
    if v >= 0 then v % n else -((-v) % n)
  }

  lemma {:induction false} Power2Grows(a: nat, b: nat)
    requires a <= b
    ensures Power2(a) <= Power2(b)
  {
    if a < b { Power2Grows(a, b - 1); }
  }

  /** No doubling leaves int64, and the wait is never zero. `random` is what the jitter source returns, if there is
      one. The result lies between zero and the wait unless that source returns the one int64 without a positive
      counterpart. */
  method NextBackoff(attempt: int, max: int, random: Option<int>) returns (d: int)
    requires MIN_INT64 <= max <= MAX_INT64
    requires random.Some? ==> MIN_INT64 <= random.value <= MAX_INT64 && Wait(attempt, max) < MAX_INT64
    ensures random.None? ==> d == Wait(attempt, max)
    ensures random.Some? && random.value != MIN_INT64 ==>
              0 <= d <= Wait(attempt, max) &&
              d == (if random.value < 0 then -random.value else random.value) % (Wait(attempt, max) + 1)
    ensures d < 0 <==> random == Some(MIN_INT64) && Power63() % (Wait(attempt, max) + 1) != 0
  {
    var ceiling, tries := max, attempt;
    if ceiling <= 0 { ceiling := 30 * SECOND; }
    if tries < 0 { tries := 0; }
    var wait := SECOND;
    var i := 0;
    while i < tries && wait < ceiling
      invariant 0 <= i <= tries
      invariant 0 < wait <= MAX_INT64
      invariant wait == Power2(i) * SECOND || (wait == ceiling && Power2(i) * SECOND >= ceiling)
      invariant wait < ceiling ==> wait == Power2(i) * SECOND
    {
      if wait > ceiling / 2 {
        wait := ceiling;
        Power2Grows(i + 1, tries);
        assert Power2(tries) * SECOND >= ceiling;
        break;
      }
      wait := wait * 2;
      i := i + 1;
    }
    Power2Grows(i, tries);
    assert Power2(i) * SECOND <= Power2(tries) * SECOND;
    if wait > ceiling { wait := ceiling; }
    assert wait == Wait(attempt, max);
    if random.None? {
      return wait;
    }
    d := Jitter(random.value, wait);
  }

  /** Folds what the source returned into the wait. */
  method Jitter(random: int, wait: int) returns (d: int)
    requires 0 < wait && MIN_INT64 <= random <= MAX_INT64
    ensures random != MIN_INT64 ==> 0 <= d <= wait && d == (if random < 0 then -random else random) % (wait + 1)
    ensures d < 0 <==> random == MIN_INT64 && Power63() % (wait + 1) != 0
  {
    var value := random;
    if value < 0 { value := Negated(value); }
    d := Remainder(value, wait + 1);
  }

  function Power63(): int { 0x8000_0000_0000_0000 }

  /** What is stored is whole milliseconds; with a ceiling of at least one, an attempt is never due again at once. */
  function WaitMillis(attempt: int, maxMillis: int): (r: int)
    ensures maxMillis >= 1 ==> r >= 1
  {
    Wait(attempt, maxMillis * MILLISECOND) / MILLISECOND
  }
}
