/**
 Fixed-point money. A decimal column is modelled by its integer coefficient: a
 four-place column counts ten-thousandths, a two-place column counts cents.

 `HalfUp` is roundTiesToAway and `HalfEven` is roundTiesToEven, both of
 section 4.3.1 of IEEE 754-2008. `Quotient28` is decimal division in the
 default 28-digit context. The main result, `DoubleRoundingIsExact`, says that
 rounding a quotient to 28 digits half-even and then to four places half-up
 gives what rounding the exact rational half-up would have given.
 */
module Rounding {

  function Abs(x: int): nat {
    if x < 0 then -x else x
  }

  function Pow10(k: nat): (p: nat)
    ensures p >= 1
  {
    if k == 0 then 1 else 10 * Pow10(k - 1)
  }

  /** `q` is the integer nearest to `n / d`, and the one further from zero on a tie. */
  ghost predicate IsHalfUp(q: int, n: int, d: int) {
    && 2 * Abs(q * d - n) <= d
    && (2 * Abs(q * d - n) == d ==> Abs(q) * d > Abs(n))
  }

  /** `q` is an integer nearest to `n / d`, and the even one on a tie. */
  ghost predicate IsHalfEven(q: int, n: int, d: int) {
    && 2 * Abs(q * d - n) <= d
    && (2 * Abs(q * d - n) == d ==> q % 2 == 0)
  }

  /** The coefficient `quantize(..., ROUND_HALF_UP)` produces for `n / d`. */
  function HalfUp(n: int, d: int): int
    requires d > 0
  {
    if n >= 0 then (2 * n + d) / (2 * d) else -((-2 * n + d) / (2 * d))
  }

  lemma HalfUpIsNearest(n: int, d: int)
    requires d > 0
    ensures IsHalfUp(HalfUp(n, d), n, d)
    ensures n >= 0 ==> HalfUp(n, d) >= 0
  {
    if n >= 0 {
      HalfUpOfNat(n, d, HalfUp(n, d));
    } else {
      HalfUpOfNat(-n, d, -HalfUp(n, d));
      Distribute(0, -HalfUp(n, d), d);
    }
  }

  lemma HalfUpOfNat(n: nat, d: int, q: int)
    requires d > 0 && q == (2 * n + d) / (2 * d)
    ensures q >= 0 && IsHalfUp(q, n, d)
  {
    var r := (2 * n + d) % (2 * d);
    EuclideanDivision(2 * n + d, 2 * d);
    assert q * (2 * d) == 2 * (q * d);
  }

  /** Half-even rounding of a non-negative rational, as the division context does it. */
  function HalfEven(n: nat, d: int): (q: nat)
    requires d > 0
    ensures IsHalfEven(q, n, d)
  {
    var f, r := n / d, n % d;
    EuclideanDivision(n, d);
    Distribute(f, -1, d);
    if 2 * r < d || (2 * r == d && f % 2 == 0) then f else f + 1
  }

  lemma EuclideanDivision(m: nat, d: int)
    requires d > 0
    ensures m == (m / d) * d + m % d && 0 <= m % d < d && m / d >= 0
  {
  }

  lemma Distribute(a: int, b: int, d: int)
    ensures (a - b) * d == a * d - b * d
  {
  }

  lemma ProductIsNonNegative(a: int, b: int)
    requires a >= 0 && b >= 0
    ensures a * b >= 0
  {
  }

  lemma ProductIsMonotone(a: int, b: int, d: int)
    requires a <= b && d >= 0
    ensures a * d <= b * d
  {
    ProductIsNonNegative(b - a, d);
    Distribute(b, a, d);
  }

  lemma AbsOfProduct(k: int, d: int)
    requires d > 0
    ensures Abs(k) * d == Abs(k * d)
  {
    if k < 0 {
      Distribute(0, k, d);
      ProductIsNonNegative(-k, d);
    } else {
      ProductIsNonNegative(k, d);
    }
  }

  /** The half-up specification has one solution, so `HalfUp` is the only one. */
  lemma HalfUpUnique(q: int, n: int, d: int)
    requires d > 0 && IsHalfUp(q, n, d)
    ensures q == HalfUp(n, d)
  {
    var h := HalfUp(n, d);
    HalfUpIsNearest(n, d);
    if q < h {
      NotBothNearest(q, h, n, d);
    } else if h < q {
      NotBothNearest(h, q, n, d);
    }
  }

  lemma NotBothNearest(q: int, h: int, n: int, d: int)
    requires d > 0 && q < h
    ensures !(IsHalfUp(q, n, d) && IsHalfUp(h, n, d))
  {
    ProductIsMonotone(1, h - q, d);
    Distribute(h, q, d);
    AbsOfProduct(q, d);
    AbsOfProduct(h, d);
    if q < 0 {
      ProductIsMonotone(q, -1, d);
    } else {
      ProductIsNonNegative(q, d);
    }
    if h > 0 {
      ProductIsMonotone(1, h, d);
    } else {
      ProductIsNonNegative(-h, d);
      Distribute(0, h, d);
    }
    OneTieWins(q * d, h * d, n, d);
  }

  /** Multiples at least `d` apart cannot both lie within `d / 2` of `n` and beyond it from zero. */
  lemma OneTieWins(a: int, b: int, n: int, d: int)
    requires d > 0 && a <= b - d && (a <= -d || a >= 0) && (b >= d || b <= 0)
    ensures !(2 * Abs(a - n) <= d && 2 * Abs(b - n) <= d
              && (2 * Abs(a - n) == d ==> Abs(a) > Abs(n)) && (2 * Abs(b - n) == d ==> Abs(b) > Abs(n)))
  {
  }

  /** A decimal value `coefficient / 10^places`. */
  datatype Decimal = Decimal(coefficient: int, places: nat)

  const TEN_TO_23 := 100_000_000_000_000_000_000_000
  const TEN_TO_27 := 1_000_000_000_000_000_000_000_000_000

  /** How many places a 28-digit context keeps of `n / d`: enough for a 28-digit coefficient. */
  function PlacesKept(n: nat, d: int): (s: nat)
    requires n > 0 && d > 0
    ensures n * Pow10(s) >= TEN_TO_27 * d
    ensures s > 0 ==> n * Pow10(s) < 10 * TEN_TO_27 * d
    decreases TEN_TO_27 * d - n
  {
    if n >= TEN_TO_27 * d then
      0
    else
      var s := PlacesKept(10 * n, d);
      assert n * Pow10(s + 1) == 10 * n * Pow10(s);
      s + 1
  }

  /** Decimal division `n / d` in the default context: 28 digits, half-even, sign kept apart. */
  function Quotient28(n: int, d: int): Decimal
    requires d > 0
  {
    if n == 0 then
      Decimal(0, 0)
    else
      var s := PlacesKept(Abs(n), d);
      ProductIsNonNegative(Abs(n), Pow10(s));
      var c := HalfEven(Abs(n) * Pow10(s), d);
      Decimal(if n < 0 then -(c as int) else c, s)
  }

  /** `value.quantize(Decimal("0.0001"), ROUND_HALF_UP)` as a count of ten-thousandths. */
  function Unit(value: Decimal): int {
    HalfUp(10_000 * value.coefficient, Pow10(value.places))
  }

  /** Half-up rounding is odd, so the two theorems below need only look at `n >= 0`. */
  lemma HalfUpIsOdd(n: int, d: int)
    requires d > 0
    ensures HalfUp(-n, d) == -HalfUp(n, d)
  {
    var q := HalfUp(n, d);
    HalfUpIsNearest(n, d);
    Distribute(0, q, d);
    HalfUpUnique(-q, -n, d);
  }

  lemma PowerPastTenThousand(s: nat)
    requires Pow10(s) > 10_000
    ensures s >= 5 && Pow10(s) == 20_000 * (5 * Pow10(s - 5))
  {
    assert Pow10(1) == 10 && Pow10(2) == 100 && Pow10(3) == 1_000 && Pow10(4) == 10_000;
    if s >= 5 {
      assert Pow10(s - 3) == 100 * Pow10(s - 5);
      assert Pow10(s - 1) == 100 * Pow10(s - 3);
    }
  }

  /**
   A quotient that is not a tie at four places stays on its side of the tie when it is first
   rounded to `s` places, provided those places are finer than `1 / (10_000 * d)`.
   */
  lemma NotATie(n: nat, d: int, t: int, c: nat, k: nat)
    requires d > 0 && t > 10_000 * d
    requires 2 * Abs(c * d - n * t) <= d
    requires 2 * Abs(k * d - 10_000 * n) <= d - 1
    ensures 2 * Abs(k * t - 10_000 * c) < t
  {
    var gap := k * t - 10_000 * c;
    GapIdentity(n, d, t, c, k);
    ScaledBound(k * d - 10_000 * n, d - 1, t);
    Distribute(d, 1, t);
    Smaller(gap, d, t, (k * d - 10_000 * n) * t, c * d - n * t);
  }

  lemma Smaller(gap: int, d: int, t: int, near: int, slip: int)
    requires d > 0 && t > 10_000 * d
    requires gap * d == near - 10_000 * slip
    requires 2 * Abs(slip) <= d && 2 * Abs(near) <= d * t - t
    ensures 2 * Abs(gap) < t
  {
    AbsOfProduct(gap, d);
    assert (2 * Abs(gap)) * d == 2 * (Abs(gap) * d);
    if 2 * Abs(gap) >= t {
      ProductIsMonotone(t, 2 * Abs(gap), d);
    }
  }

  lemma GapIdentity(n: int, d: int, t: int, c: int, k: int)
    ensures (k * t - 10_000 * c) * d == (k * d - 10_000 * n) * t - 10_000 * (c * d - n * t)
  {
    Distribute(k * t, 10_000 * c, d);
    Distribute(k * d, 10_000 * n, t);
    assert (k * t) * d == (k * d) * t;
    assert (10_000 * c) * d == 10_000 * (c * d);
    assert (10_000 * n) * t == 10_000 * (n * t);
  }

  lemma ScaledBound(x: int, bound: int, t: int)
    requires t > 0 && 2 * Abs(x) <= bound
    ensures 2 * Abs(x * t) <= bound * t
  {
    AbsOfProduct(x, t);
    ProductIsMonotone(2 * Abs(x), bound, t);
  }

  /** A quotient that is a tie at four places is held exactly, so the tie survives. */
  lemma ATie(n: nat, d: int, t: int, m: nat, c: nat, k: nat)
    requires d > 0 && t == 20_000 * m && m > 0
    requires 2 * Abs(c * d - n * t) <= d
    requires 2 * (k * d - 10_000 * n) == d
    ensures 2 * (k * t - 10_000 * c) == t
  {
    var exact := (2 * k - 1) * m;
    assert n * t == exact * d by {
      assert n * t == 2 * m * (10_000 * n);
      assert 2 * (10_000 * n) == (2 * k - 1) * d;
      assert m * ((2 * k - 1) * d) == exact * d;
    }
    Distribute(c, exact, d);
    if c != exact {
      AbsOfProduct(c - exact, d);
      ProductIsMonotone(1, Abs(c - exact), d);
    }
    assert 20_000 * c == (2 * k - 1) * t;
  }

  /**
   Rounding `n / d` to 28 digits half-even and then to four places half-up is the same as
   rounding the exact rational half-up. The bound is far outside the money columns: a cost of
   twelve digits plus adders of twelve digits is below 10^15 ten-thousandths.
   */
  lemma DoubleRoundingIsExact(n: int, d: int)
    requires d > 0 && Abs(n) < TEN_TO_23
    ensures Unit(Quotient28(n, d)) == HalfUp(10_000 * n, d)
  {
    if n > 0 {
      DoubleRoundingOfPositive(n, d);
    } else if n < 0 {
      DoubleRoundingOfPositive(-n, d);
      QuotientIsOdd(n, d);
      UnitIsOdd(Quotient28(-n, d));
      HalfUpIsOdd(10_000 * -n, d);
    } else {
      HalfUpOfZero(d);
      HalfUpOfZero(Pow10(0));
    }
  }

  lemma HalfUpOfZero(d: int)
    requires d > 0
    ensures HalfUp(0, d) == 0
  {
    HalfUpUnique(0, 0, d);
  }

  lemma UnitIsOdd(value: Decimal)
    ensures Unit(Decimal(-value.coefficient, value.places)) == -Unit(value)
  {
    HalfUpIsOdd(10_000 * value.coefficient, Pow10(value.places));
  }

  lemma QuotientIsOdd(n: int, d: int)
    requires d > 0 && n < 0
    ensures Quotient28(n, d) == Decimal(-Quotient28(-n, d).coefficient, Quotient28(-n, d).places)
  {
  }

  lemma DoubleRoundingOfPositive(n: nat, d: int)
    requires d > 0 && 0 < n < TEN_TO_23
    ensures Unit(Quotient28(n, d)) == HalfUp(10_000 * n, d)
  {
    var s := PlacesKept(n, d);
    var t := Pow10(s);
    var c := Quotient28(n, d).coefficient;
    var k := HalfUp(10_000 * n, d);
    HalfUpIsNearest(10_000 * n, d);
    FineEnough(n, d, t);
    if 2 * Abs(k * d - 10_000 * n) < d {
      NotATie(n, d, t, c, k);
    } else {
      PowerPastTenThousand(s);
      AbsOfProduct(k, d);
      ATie(n, d, t, 5 * Pow10(s - 5), c, k);
    }
    AbsOfProduct(k, t);
    HalfUpUnique(k, 10_000 * c, t);
  }

  lemma FineEnough(n: nat, d: int, t: int)
    requires d > 0 && 0 < n < TEN_TO_23 && n * t >= TEN_TO_27 * d && t > 0
    ensures t > 10_000 * d
  {
    if t <= 10_000 * d {
      ProductIsMonotone(t, 10_000 * d, n);
      ProductIsMonotone(n, TEN_TO_23 - 1, 10_000 * d);
    }
  }
}
