/**
 Sorted-set scores are IEEE 754 doubles, so a nanosecond timestamp is stored rounded to a 53-bit
 significand. Score is that rounding, to nearest with ties to even, on every integer.
 */
module Doubles {

  const EXACT_BELOW := 0x20_0000_0000_0000  // 2^53

  /**
   Shifts m right until it fits the significand, then rounds. half is the last bit shifted out,
   sticky tells whether any bit before it was set.
   */
  function Rounded(m: nat, half: bool, sticky: bool): (r: nat) {
    if m >= EXACT_BELOW then 2 * Rounded(m / 2, m % 2 == 1, half || sticky)
    else if half && (sticky || m % 2 == 1) then m + 1
    else m
  }

  function Score(t: int): int {
    if t >= 0 then Rounded(t, false, false) else 0 - Rounded(-t, false, false)
  }

  /** The rank of the bits shifted out: nothing, below a half, a half, above a half. */
  function Rank(half: bool, sticky: bool): int {
    (if half then 2 else 0) + (if sticky then 1 else 0)
  }

  lemma {:induction false} RoundedAtLeast(m: nat, half: bool, sticky: bool)
    ensures m >= EXACT_BELOW ==> Rounded(m, half, sticky) >= EXACT_BELOW
    ensures m < EXACT_BELOW ==> Rounded(m, half, sticky) >= m
  {
    if m >= EXACT_BELOW { RoundedAtLeast(m / 2, m % 2 == 1, half || sticky); }
  }

  lemma {:induction false} RoundedMonotone(m: nat, half: bool, sticky: bool, n: nat, half': bool, sticky': bool)
    requires m < n || (m == n && Rank(half, sticky) <= Rank(half', sticky'))
    ensures Rounded(m, half, sticky) <= Rounded(n, half', sticky')
  {
    if m >= EXACT_BELOW {
      RoundedMonotone(m / 2, m % 2 == 1, half || sticky, n / 2, n % 2 == 1, half' || sticky');
    } else {
      RoundedAtLeast(n, half', sticky');
    }
  }

  /** Rounding keeps the order, so an entry at or below the cutoff is always pruned. */
  lemma ScoreMonotone(t: int, u: int)
    requires t <= u
    ensures Score(t) <= Score(u)
  {
    if t >= 0 {
      RoundedMonotone(t, false, false, u, false, false);
    } else if u < 0 {
      RoundedMonotone(-u, false, false, -t, false, false);
    }
  }

  /**
   m, half and sticky are what is left of t after bits worth unit were shifted out: rest of them, with
   half telling whether they reach a half and sticky whether they are neither nothing nor a half.
   */
  predicate Shifted(t: nat, m: nat, half: bool, sticky: bool, unit: nat, rest: nat) {
    && t == m * unit + rest && rest < unit
    && (half <==> unit <= 2 * rest) && (sticky <==> rest != 0 && 2 * rest != unit)
  }

  lemma ShiftOnce(t: nat, m: nat, half: bool, sticky: bool, unit: nat, rest: nat)
    requires Shifted(t, m, half, sticky, unit, rest)
    ensures Shifted(t, m / 2, m % 2 == 1, half || sticky, 2 * unit, (if m % 2 == 1 then unit else 0) + rest)
  {
    assert m == 2 * (m / 2) + m % 2;
    Regroup(m / 2, unit);
    assert m * unit == (2 * (m / 2)) * unit + (m % 2) * unit;
  }

  lemma Regroup(a: nat, unit: nat)
    ensures (2 * a) * unit == a * (2 * unit)
  {
  }

  lemma TimesAtLeast(a: nat, b: nat, unit: nat)
    requires a >= b
    ensures a * unit >= b * unit
  {
    assert a * unit == b * unit + (a - b) * unit;
  }

  /** span is unit, or unit doubled some number of times. */
  predicate Spans(unit: nat, span: nat)
    decreases span - unit
  {
    unit == span || (1 <= unit && 2 * unit <= span && Spans(2 * unit, span))
  }

  /** The last shift rounds to the nearest: at most half of what one unit is worth is lost. */
  lemma LastRounding(t: nat, m: nat, half: bool, sticky: bool, unit: nat, rest: nat)
    requires Shifted(t, m, half, sticky, unit, rest) && m < EXACT_BELOW
    ensures -(unit as int) <= 2 * (Rounded(m, half, sticky) * unit - t) <= unit
  {
    assert (m + 1) * unit == m * unit + unit;
  }

  lemma {:induction false} RoundedNear(t: nat, m: nat, half: bool, sticky: bool, unit: nat, rest: nat, span: nat)
    requires Shifted(t, m, half, sticky, unit, rest) && Spans(unit, span) && t < EXACT_BELOW * span
    ensures -(span as int) <= 2 * (Rounded(m, half, sticky) * unit - t) <= span
    decreases m
  {
    if m < EXACT_BELOW {
      LastRounding(t, m, half, sticky, unit, rest);
    } else {
      var r := Rounded(m / 2, m % 2 == 1, half || sticky);
      var shifted := (if m % 2 == 1 then unit else 0) + rest;
      ShiftOnce(t, m, half, sticky, unit, rest);
      TimesAtLeast(m, EXACT_BELOW, unit);
      RoundedNear(t, m / 2, m % 2 == 1, half || sticky, 2 * unit, shifted, span);
      Regroup(r, unit);
    }
  }

  const INT64_BOUND := 0x8000_0000_0000_0000

  /** A Unix time in nanoseconds, from 1970 to the end of the signed 64-bit range in 2262. */
  type Nanos = t: int | 0 <= t < INT64_BOUND

  /** Timestamps further apart than this never compare in the wrong order, or as equal. */
  const TOLERANCE := 1024

  lemma ScoreNear(t: int)
    requires -INT64_BOUND < t < INT64_BOUND
    ensures -512 <= Score(t) - t <= 512
  {
    var m := if t >= 0 then t else -t;
    assert Spans(32, 1024) && Spans(1, 1024);
    RoundedNear(m, m, false, false, 1, 0, 1024);
  }

  lemma ScoreOrder(t: int, u: int)
    requires -INT64_BOUND < t < INT64_BOUND && -INT64_BOUND < u < INT64_BOUND
    requires t > u + TOLERANCE
    ensures Score(t) > Score(u)
  {
    ScoreNear(t);
    ScoreNear(u);
  }

  /** An instant in 2116 whose double has neighbours 1024 on either side. */
  const COARSE := 0x4000_0000_0000_0800

  lemma TimesEight(m: nat)
    requires m >= EXACT_BELOW
    ensures Rounded(8 * m, false, false) == 8 * Rounded(m, false, false)
  {
    assert Rounded(8 * m, false, false) == 2 * Rounded(4 * m, false, false);
    assert Rounded(4 * m, false, false) == 2 * Rounded(2 * m, false, false);
  }

  lemma TimesFiveTwelve(m: nat)
    requires m >= EXACT_BELOW
    ensures Rounded(512 * m, false, false) == 512 * Rounded(m, false, false)
  {
    TimesEight(m);
    TimesEight(8 * m);
    TimesEight(64 * m);
  }

  /** No smaller tolerance would do: two timestamps that far apart can have the same score. */
  lemma ToleranceIsExact()
    ensures Score(COARSE + 512) == Score(COARSE + 512 - TOLERANCE) == COARSE
  {
    TimesFiveTwelve(EXACT_BELOW + 5);
    TimesFiveTwelve(EXACT_BELOW + 3);
    assert Rounded(EXACT_BELOW + 5, false, false) == Rounded(EXACT_BELOW + 3, false, false) == EXACT_BELOW + 4;
  }
}
