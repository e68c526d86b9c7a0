/** Rounding integers to tens, hundreds and so on, half away from zero, for 8-, 16- and 64-bit columns. */
module Rounding {

  const MIN8: int := -0x80
  const MAX8: int := 0x7F
  const MIN16: int := -0x8000
  const MAX16: int := 0x7FFF
  const MIN64: int := -0x8000_0000_0000_0000
  const MAX64: int := 0x7FFF_FFFF_FFFF_FFFF
  const TWO64: int := 0x1_0000_0000_0000_0000

  function Pow10(k: nat): (p: int)
    ensures p >= 1 && (k >= 1 ==> p % 10 == 0)
  {
    if k == 0 then 1 else 10 * Pow10(k - 1)
  }

  function Abs(x: int): int {
    if x < 0 then -x else x
  }

  // ---------- what rounding means ----------

  /** `k * p` is the multiple of `p` nearest to `n`; of two equally near, the one further from zero. */
  predicate Nearest(n: int, p: int, k: int) {
    2 * Abs(n - k * p) <= p && (2 * Abs(n - k * p) == p ==> Abs(k * p) > Abs(n))
  }

  /** How many times `p` the rounded value is. */
  function Quotient(n: int, p: int): int
    requires p > 0
  {
    if n >= 0 then (2 * n + p) / (2 * p) else -((-2 * n + p) / (2 * p))
  }

  function HalfAway(n: int, p: int): int
    requires p > 0
  {
    Quotient(n, p) * p
  }

  lemma {:induction false} Gap(k: int, l: int, p: int)
    requires p > 0 && k > l
    ensures k * p >= l * p + p
    decreases k - l
  {
    assert k * p == (k - 1) * p + p;
    if k - 1 > l {
      Gap(k - 1, l, p);
    }
  }

  /** The formula rounds. */
  lemma HalfAwayRounds(n: int, p: int)
    requires p > 0
    ensures Nearest(n, p, Quotient(n, p))
  {
    var a, k := Abs(n), Quotient(Abs(n), p);
    var s := (2 * a + p) % (2 * p);
    assert 2 * a + p == 2 * (k * p) + s by {
      assert 2 * a + p == k * (2 * p) + s;
      assert k * (2 * p) == 2 * (k * p);
    }
    assert Quotient(n, p) * p == if n >= 0 then k * p else -(k * p);
  }

  /** And nothing else does. */
  lemma NearestUnique(n: int, p: int, k: int, l: int)
    requires p > 0 && Nearest(n, p, k) && Nearest(n, p, l) && k >= l
    ensures k == l
  {
    if k > l {
      Gap(k, l, p);
      Sign(k, p);
      Sign(l, p);
    }
  }

  lemma Sign(k: int, p: int)
    requires p > 0
    ensures if k > 0 then k * p >= p else if k < 0 then k * p <= -p else k * p == 0
  {
    if k > 0 {
      Gap(k, 0, p);
    } else if k < 0 {
      Gap(0, k, p);
    }
  }

  /** Rounding keeps the order. */
  lemma HalfAwayMonotone(m: int, n: int, p: int)
    requires p > 0 && m <= n
    ensures HalfAway(m, p) <= HalfAway(n, p)
  {
    hide Quotient;
    var k, l := Quotient(m, p), Quotient(n, p);
    HalfAwayRounds(m, p);
    HalfAwayRounds(n, p);
    if k > l {
      Gap(k, l, p);
      if m == n {
        NearestUnique(m, p, k, l);
      } else {
        Order(m, n, p, k * p, l * p);
      }
    } else if k < l {
      Gap(l, k, p);
    }
  }

  lemma Order(m: int, n: int, p: int, x: int, y: int)
    requires m < n && 2 * Abs(m - x) <= p && 2 * Abs(n - y) <= p
    ensures x < y + p
  {
  }

  lemma HalfAwayFixed(k: int, p: int)
    requires p > 0
    ensures HalfAway(k * p, p) == k * p
  {
    HalfAwayIs(k * p, p, k);
  }

  lemma HalfAwayIs(n: int, p: int, k: int)
    requires p > 0 && Nearest(n, p, k)
    ensures HalfAway(n, p) == k * p
  {
    HalfAwayRounds(n, p);
    if k >= Quotient(n, p) {
      NearestUnique(n, p, k, Quotient(n, p));
    } else {
      NearestUnique(n, p, Quotient(n, p), k);
    }
  }

  /** Values below half the power round to zero. */
  lemma HalfAwayZero(n: int, p: int)
    requires p > 0 && 2 * Abs(n) < p
    ensures HalfAway(n, p) == 0
  {
    HalfAwayIs(n, p, 0);
  }

  // ---------- the code ----------

  /** Division and remainder of C: towards zero. */
  function CDiv(a: int, b: int): int
    requires b > 0
  {
    if a >= 0 then a / b else -((-a) / b)
  }

  function CMod(a: int, b: int): int
    requires b > 0
  {
    a - CDiv(a, b) * b
  }

  /** The common middle part: truncate, and go one power further from zero if the rest is half or more. */
  function Shifted(num: int, power: int): int
    requires power > 0
  {
    var base := CDiv(num, power) * power;
    if Abs(CMod(num, power)) >= power / 2 then base + (if num < 0 then -power else power) else base
  }

  lemma ShiftedRounds(num: int, power: int)
    requires power > 0 && power % 2 == 0
    ensures Shifted(num, power) == HalfAway(num, power)
  {
    hide HalfAway, Nearest;
    var q, rest := Truncated(num, power);
    var c := if rest >= power / 2 then q + 1 else q;
    var k := if num < 0 then -c else c;
    NegatedProduct(c, power);
    assert (q + 1) * power == q * power + power;
    ShiftedNearest(num, power, q, rest, c, k);
    HalfAwayIs(num, power, k);
  }

  lemma ShiftedNearest(num: int, power: int, q: int, rest: int, c: int, k: int)
    requires power > 0 && power % 2 == 0 && Abs(num) == q * power + rest && 0 <= q && 0 <= rest < power
    requires c * power == (if rest >= power / 2 then q * power + power else q * power) && k * power == if num < 0
      then -(c * power) else c * power
    ensures Nearest(num, power, k)
  {
    assert q * power >= 0;
  }

  lemma Truncated(num: int, power: int) returns (q: int, rest: int)
    requires power > 0
    ensures Abs(num) == q * power + rest && 0 <= rest < power && 0 <= q
    ensures CDiv(num, power) * power == (if num < 0 then -(q * power) else q * power) && CMod(num, power) == if num < 0
      then -rest else rest
  {
    q, rest := Abs(num) / power, Abs(num) % power;
    DivMod(Abs(num), power);
    NegatedProduct(q, power);
  }

  lemma DivMod(a: int, b: int)
    requires b > 0 && a >= 0
    ensures a == (a / b) * b + a % b && 0 <= a % b < b && 0 <= a / b
  {
  }

  lemma NegatedProduct(a: int, b: int)
    ensures (-a) * b == -(a * b)
  {
  }

  function Clamp(x: int, lo: int, hi: int): int {
    if x > hi then hi else if x < lo then lo else x
  }

  function RoundOperatorInt16(num: int, decimals: int): int {
    if decimals >= 0 then num
    else if decimals < -4 then 0
    else Clamp(Shifted(num, Pow10(-decimals)), MIN16, MAX16)
  }

  function RoundOperatorInt8(num: int, decimals: int): int {
    if decimals >= 0 then num
    else if decimals < -2 then 0
    else Clamp(Shifted(num, Pow10(-decimals)), MIN8, MAX8)
  }

  /** A 64-bit word, as a signed number. */
  function Wrap64(x: int): int {
    var m := x % TWO64;
    if m > MAX64 then m - TWO64 else m
  }

  const OVER_MAX: int := -8446744073709551616
  const OVER_MIN: int := 8446744073709551616
  const MEDIAN: int := 5000000000000000000

  function RoundOperator(num: int, decimals: int): int {
    if decimals >= 0 then num
    else if decimals < -19 then 0
    else if decimals == -19 then
      if num < -MEDIAN then OVER_MIN else if num > MEDIAN then OVER_MAX else 0
    else Wrap64(Shifted(num, Pow10(-decimals)))
  }

  // ---------- the code rounds ----------

  /** Rounding to `decimals` places: nothing to do for integers unless it is negative. */
  function Spec(num: int, decimals: int): int {
    if decimals >= 0 then num else HalfAway(num, Pow10(-decimals))
  }

  lemma {:induction false} Pow10Grows(a: nat, b: nat)
    requires a <= b
    ensures Pow10(a) <= Pow10(b)
    decreases b - a
  {
    if a < b {
      Pow10Grows(a, b - 1);
    }
  }

  /** Every input and every number of places: the clamped rounding, the early zero included. */
  lemma Int16Rounds(num: int, decimals: int)
    requires MIN16 <= num <= MAX16
    ensures RoundOperatorInt16(num, decimals) == Clamp(Spec(num, decimals), MIN16, MAX16)
  {
    if decimals < -4 {
      Pow10Grows(5, -decimals);
      assert Pow10(5) == 100000;
      HalfAwayZero(num, Pow10(-decimals));
    } else if decimals < 0 {
      ShiftedRounds(num, Pow10(-decimals));
    }
  }

  lemma Int8Rounds(num: int, decimals: int)
    requires MIN8 <= num <= MAX8
    ensures RoundOperatorInt8(num, decimals) == Clamp(Spec(num, decimals), MIN8, MAX8)
  {
    if decimals < -2 {
      Pow10Grows(3, -decimals);
      assert Pow10(3) == 1000;
      HalfAwayZero(num, Pow10(-decimals));
    } else if decimals < 0 {
      ShiftedRounds(num, Pow10(-decimals));
    }
  }

  /** Clamped rounding keeps the order and does nothing the second time. */
  lemma ClampedMonotone(m: int, n: int, decimals: int, lo: int, hi: int)
    requires lo <= m <= n <= hi
    ensures Clamp(Spec(m, decimals), lo, hi) <= Clamp(Spec(n, decimals), lo, hi)
  {
    if decimals < 0 {
      HalfAwayMonotone(m, n, Pow10(-decimals));
    }
  }

  lemma ClampedIdempotent(n: int, decimals: int, lo: int, hi: int)
    requires lo <= n <= hi
    ensures var r := Clamp(Spec(n, decimals), lo, hi); Clamp(Spec(r, decimals), lo, hi) == r
  {
    if decimals < 0 {
      var p := Pow10(-decimals);
      var r := HalfAway(n, p);
      HalfAwayRounds(n, p);
      if r > hi {
        HalfAwayMonotone(n, hi, p);
      } else if r < lo {
        HalfAwayMonotone(lo, n, p);
      } else {
        HalfAwayFixed(Quotient(n, p), p);
      }
    }
  }

  lemma Int16MonotoneIdempotent(m: int, n: int, decimals: int)
    requires MIN16 <= m <= n <= MAX16
    ensures RoundOperatorInt16(m, decimals) <= RoundOperatorInt16(n, decimals)
    ensures RoundOperatorInt16(RoundOperatorInt16(n, decimals), decimals) == RoundOperatorInt16(n, decimals)
  {
    Int16Rounds(m, decimals);
    Int16Rounds(n, decimals);
    Int16Rounds(RoundOperatorInt16(n, decimals), decimals);
    ClampedMonotone(m, n, decimals, MIN16, MAX16);
    ClampedIdempotent(n, decimals, MIN16, MAX16);
  }

  lemma Int8MonotoneIdempotent(m: int, n: int, decimals: int)
    requires MIN8 <= m <= n <= MAX8
    ensures RoundOperatorInt8(m, decimals) <= RoundOperatorInt8(n, decimals)
    ensures RoundOperatorInt8(RoundOperatorInt8(n, decimals), decimals) == RoundOperatorInt8(n, decimals)
  {
    Int8Rounds(m, decimals);
    Int8Rounds(n, decimals);
    Int8Rounds(RoundOperatorInt8(n, decimals), decimals);
    ClampedMonotone(m, n, decimals, MIN8, MAX8);
    ClampedIdempotent(n, decimals, MIN8, MAX8);
  }

  lemma WrapFits(x: int)
    ensures MIN64 <= Wrap64(x) <= MAX64 && (Wrap64(x) - x) % TWO64 == 0
    ensures Wrap64(x) == x <==> MIN64 <= x <= MAX64
  {
    var q := x / TWO64;
    assert x == q * TWO64 + x % TWO64;
    assert Wrap64(x) - x == -q * TWO64 || Wrap64(x) - x == (-q - 1) * TWO64;
  }

  /** The 64-bit form is exact if and only if the rounded value fits, for every number of places but minus 19. */
  lemma Int64Rounds(num: int, decimals: int)
    requires MIN64 <= num <= MAX64 && decimals != -19
    ensures RoundOperator(num, decimals) == Spec(num, decimals) <==> MIN64 <= Spec(num, decimals) <= MAX64
  {
    if decimals < -19 {
      Pow10Grows(20, -decimals);
      Pow10Twenty();
      HalfAwayZero(num, Pow10(-decimals));
    } else if decimals < 0 {
      ShiftedRounds(num, Pow10(-decimals));
      WrapFits(Shifted(num, Pow10(-decimals)));
    }
  }

  lemma Pow10Twenty()
    ensures Pow10(19) == 10000000000000000000 && Pow10(20) == 100000000000000000000
  {
    assert Pow10(5) == 100000;
    assert Pow10(10) == 10000000000;
    assert Pow10(15) == 1000000000000000;
    assert Pow10(19) == 10000000000000000000;
  }

  /** At minus 19 places the result is right modulo 2^64, except at the two exact ties, where it is zero. */
  lemma Int64RoundsAt19(num: int)
    requires MIN64 <= num <= MAX64
    ensures (RoundOperator(num, -19) - Spec(num, -19)) % TWO64 == 0 <==> num != MEDIAN && num != -MEDIAN
    ensures num == MEDIAN || num == -MEDIAN ==> RoundOperator(num, -19) == 0 && Abs(Spec(num, -19)) == Pow10(19)
  {
    Pow10Twenty();
    var p := Pow10(19);
    HalfAwayIs(num, p, if num <= -MEDIAN then -1 else if num >= MEDIAN then 1 else 0);
  }
}
