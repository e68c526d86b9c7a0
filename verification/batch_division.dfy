/** Integer division: batch MOD goes through doubles, row MOD does not. */
module BatchDivision {
  import opened SqlValues

  const TWO_53: nat := 0x20_0000_0000_0000

  // ---------- rounding to a double ----------

  /** The distance of the doubles around x: 1 up to 2^53, then doubling with every further bit. */
  function Unit(x: nat): (u: nat)
    ensures u > 0
  {
    if x < TWO_53 then 1 else 2 * Unit(x / 2)
  }

  lemma {:induction false} UnitSpan(x: nat)
    ensures x < TWO_53 * Unit(x)
    ensures x >= TWO_53 ==> TWO_53 / 2 * Unit(x) <= x && Unit(x) % 2 == 0 && x / Unit(x) >= TWO_53 / 2
  {
    if x >= TWO_53 {
      UnitSpan(x / 2);
      QuotientAtLeast(x, Unit(x), TWO_53 / 2);
    }
  }

  lemma TimesOrdered(a: int, b: int, u: nat)
    requires a <= b
    ensures a * u <= b * u
  {
  }

  lemma Cancelled(a: int, b: int, u: nat)
    requires a * u < b * u
    ensures a < b
  {
    if b <= a {
      TimesOrdered(b, a, u);
    }
  }

  lemma QuotientAtLeast(x: nat, u: nat, m: nat)
    requires u > 0 && m * u <= x
    ensures x / u >= m
  {
    assert x < (x / u + 1) * u;
    Cancelled(m, x / u + 1, u);
  }

  /** The double nearest to x, of two equally near the one with an even significand. */
  function Rounded(x: nat): (r: nat)
    ensures x > 0 ==> r > 0
  {
    UnitSpan(x);
    var u := Unit(x);
    var q, r := x / u, x % u;
    if 2 * r < u || (2 * r == u && q % 2 == 0) then q * u else (q + 1) * u
  }

  /** A magnitude that some double has: at most 53 bits and a power of two. */
  ghost predicate IsDouble(x: nat) {
    exists m: nat, k: nat :: Scaled(x, m, k)
  }

  predicate Scaled(x: nat, m: nat, k: nat) {
    m <= TWO_53 && x == m * Pow2(k)
  }

  function Pow2(k: nat): (r: nat)
    ensures r > 0
  {
    if k == 0 then 1 else 2 * Pow2(k - 1)
  }

  function Abs(x: int): nat {
    if x < 0 then -x else x
  }

  function AsDouble(x: int): (r: int)
    ensures x != 0 ==> r != 0
  {
    if x < 0 then 0 - Rounded(-x) else Rounded(x)
  }

  // ---------- the two remainders ----------

  /** The remainder with the sign of the dividend, as `%` and fmod have it. */
  function Remainder(a: int, b: int): int
    requires b != 0
  {
    if a < 0 then -((-a) % Abs(b)) else a % Abs(b)
  }

  function FloatRemainder(a: int, b: int): int
    requires b != 0
  {
    Remainder(AsDouble(a), AsDouble(b))
  }

  /** The rounding errors cancel: what rounding adds to the dividend, less what it adds to the quotient's multiple
      of the divisor, is a multiple of the rounded divisor, and the remainder is still below that. */
  predicate RemainderKept(a: int, b: int)
    requires b != 0
  {
    var x, y := Abs(a), Abs(b);
    x % y < Rounded(y) && (Rounded(x) - x - x / y * (Rounded(y) - y)) % Rounded(y) == 0
  }

  /** The kernels the batch back end calls. */
  function BatchKernels(k: Kernels): Kernels {
    k.(arith := (op, t, a, b) => if op == MOD && b != 0 then (FloatRemainder(a, b), false) else k.arith(op, t, a, b))
  }

  /** A division by anything but zero has a result. */
  ghost predicate DivisionOk(k: Kernels) {
    forall op, t, a, b | (op == DIV || op == MOD) && b != 0 :: !k.arith(op, t, a, b).1
  }

  /** The row kernel of MOD. */
  ghost predicate ModulusOk(k: Kernels) {
    forall t, a, b | b != 0 :: k.arith(MOD, t, a, b) == (Remainder(a, b), false)
  }

  lemma BatchDivisionOk(k: Kernels)
    requires DivisionOk(k)
    ensures DivisionOk(BatchKernels(k))
  {
  }

  // ---------- the nearest double ----------

  /** A remainder is determined by being below the divisor and a multiple away. */
  lemma Residue(k: int, v: nat, r: nat)
    requires r < v
    ensures (k * v + r) % v == r
  {
    var x := k * v + r;
    var d := k - x / v;
    assert d * v == x % v - r;
    Cancelled(d, 1, v);
    Cancelled(-1, d, v);
  }

  lemma {:induction false} UnitIsPower(x: nat) returns (s: nat)
    ensures Unit(x) == Pow2(s)
  {
    if x < TWO_53 {
      s := 0;
    } else {
      s := UnitIsPower(x / 2);
      s := s + 1;
    }
  }

  /** Rounding yields a double. */
  lemma RoundedIsDouble(x: nat)
    ensures IsDouble(Rounded(x))
  {
    var s := UnitIsPower(x);
    UnitSpan(x);
    var q := x / Unit(x);
    QuotientBelow(x, Unit(x), TWO_53);
    assert Scaled(q * Unit(x), q, s) && Scaled((q + 1) * Unit(x), q + 1, s);
  }

  lemma QuotientBelow(x: nat, u: nat, m: nat)
    requires u > 0 && x < m * u
    ensures x / u < m
  {
    assert x / u * u <= x;
    Cancelled(x / u, m, u);
  }

  lemma {:induction false} PowerSum(i: nat, j: nat)
    ensures Pow2(i + j) == Pow2(i) * Pow2(j)
  {
    if i > 0 {
      PowerSum(i - 1, j);
    }
  }

  /** A double above 2^52 units is a whole number of units. */
  lemma DoubleOnGrid(y: nat, s: nat)
    requires IsDouble(y) && y > TWO_53 / 2 * Pow2(s)
    ensures y % Pow2(s) == 0
  {
    var m: nat, k: nat :| Scaled(y, m, k);
    if k >= s {
      PowerSum(k - s, s);
      MultipleOf(m, Pow2(k - s), Pow2(s));
    } else {
      BelowGrid(m, k, s);
    }
  }

  lemma MultipleOf(m: nat, p: nat, u: nat)
    requires u > 0
    ensures m * (p * u) % u == 0
  {
    assert m * (p * u) == m * p * u + 0;
    Residue(m * p, u, 0);
  }

  lemma BelowGrid(m: nat, k: nat, s: nat)
    requires m <= TWO_53 && k < s
    ensures m * Pow2(k) <= TWO_53 / 2 * Pow2(s)
  {
    PowerSum(s - k - 1, k + 1);
    TimesOrdered(1, Pow2(s - k - 1), Pow2(k + 1));
    TimesOrdered(m, TWO_53, Pow2(k));
  }

  /** Of the points of a grid the nearest, and so of any set that meets the cell of `x` in grid points only. */
  lemma GridNearest(x: nat, u: nat, y: nat)
    requires u > 0 && (x / u * u < y ==> y % u == 0)
    ensures var q, r := x / u, x % u;
      Abs((if 2 * r < u || (2 * r == u && q % 2 == 0) then q * u else (q + 1) * u) - x) <= Abs(y - x)
  {
    var q, p := x / u, y / u;
    assert x == q * u + x % u;
    if q * u < y {
      assert y == p * u;
      Cancelled(q, p, u);
      TimesOrdered(q + 1, p, u);
    }
  }

  /** No double is nearer. */
  lemma RoundedNearest(x: nat, y: nat)
    requires IsDouble(y)
    ensures Abs(Rounded(x) - x) <= Abs(y - x)
  {
    hide Unit, IsDouble;
    UnitSpan(x);
    var s := UnitIsPower(x);
    var u := Unit(x);
    if x >= TWO_53 {
      GridNearest(x, u, y) by {
        if y > TWO_53 / 2 * u {
          DoubleOnGrid(y, s);
        }
      }
    } else {
      SmallUnit(x);
    }
  }

  lemma SmallUnit(x: nat)
    requires x < TWO_53
    ensures Unit(x) == 1
  {
  }

  /** A double is rounded to itself. */
  lemma DoubleKept(x: nat)
    requires IsDouble(x)
    ensures Rounded(x) == x
  {
    RoundedNearest(x, x);
  }

  lemma SmallIsDouble(x: nat)
    requires x <= TWO_53
    ensures IsDouble(x)
  {
    assert Scaled(x, x, 0);
  }

  // ---------- when the remainders agree ----------

  /** The two kernels agree exactly when the rounding errors cancel. */
  lemma RemaindersAgree(a: int, b: int)
    requires b != 0
    ensures FloatRemainder(a, b) == Remainder(a, b) <==> RemainderKept(a, b)
  {
    hide Rounded;
    SameResidue(Abs(a), Abs(b), Rounded(Abs(a)), Rounded(Abs(b)));
  }

  lemma SameResidue(x: nat, y: nat, u: nat, v: nat)
    requires y > 0 && v > 0
    ensures u % v == x % y <==> x % y < v && (u - x - x / y * (v - y)) % v == 0
  {
    var q, r := x / y, x % y;
    assert x == q * y + r;
    assert u - x - q * (v - y) == u - r - q * v;
    Shifted(u - r, q, v);
    if r < v && (u - r) % v == 0 {
      assert u == (u - r) / v * v + r;
      Residue((u - r) / v, v, r);
    }
    if u % v == r {
      assert u - r == u / v * v + 0;
      Residue(u / v, v, 0);
    }
  }

  lemma Shifted(x: int, q: int, v: nat)
    requires v > 0
    ensures (x - q * v) % v == 0 <==> x % v == 0
  {
    if x % v == 0 {
      assert x - q * v == (x / v - q) * v + 0;
      Residue(x / v - q, v, 0);
    }
    if (x - q * v) % v == 0 {
      assert x == ((x - q * v) / v + q) * v + 0;
      Residue((x - q * v) / v + q, v, 0);
    }
  }

  /** Where the divisor is a double, exactly when it divides the rounding error of the dividend. */
  lemma ExactDivisor(a: int, b: int)
    requires b != 0 && IsDouble(Abs(b))
    ensures RemainderKept(a, b) <==> (Rounded(Abs(a)) - Abs(a)) % Abs(b) == 0
  {
    hide Rounded, IsDouble;
    DoubleKept(Abs(b));
  }

  /** Always where both operands are doubles. */
  lemma DoublesKept(a: int, b: int)
    requires b != 0 && IsDouble(Abs(a)) && IsDouble(Abs(b))
    ensures RemainderKept(a, b)
  {
    hide Rounded, IsDouble, RemainderKept;
    DoubleKept(Abs(a));
    ExactDivisor(a, b);
  }

  /** So up to 2^53, and for all 32-bit integers. */
  lemma SmallKept(a: int, b: int)
    requires b != 0 && Abs(a) <= TWO_53 && Abs(b) <= TWO_53
    ensures RemainderKept(a, b)
  {
    hide IsDouble, RemainderKept;
    SmallIsDouble(Abs(a));
    SmallIsDouble(Abs(b));
    DoublesKept(a, b);
  }

  /** Not at 2^53 + 1 and 2. */
  lemma RemaindersDiffer()
    ensures Remainder(TWO_53 + 1, 2) == 1 && FloatRemainder(TWO_53 + 1, 2) == 0
  {
    assert Unit(TWO_53 / 2) == 1;
    assert (TWO_53 + 1) / 2 == TWO_53 / 2;
    assert Unit(TWO_53 + 1) == 2;
    assert (TWO_53 / 2) % 2 == 0;
    assert Rounded(TWO_53 + 1) == TWO_53;
    assert Rounded(2) == 2;
  }
}
