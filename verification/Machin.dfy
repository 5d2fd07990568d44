/** How near the words of `pi_words` come to Machin's series over the reals, which they truncate. */
module Machin {
  import opened Limbs
  import opened Arctangent
  import opened PiWords

  /** The k-th term of the arctangent series of 1/x. */
  function Fall(x: nat, k: nat): real
    requires x > 0
  {
    1.0 / ((2 * k + 1) * Power(x, 2 * k + 1)) as real
  }

  /** The alternating sum of the first `m` terms. */
  function Series(x: nat, m: nat): real
    requires x > 0
  {
    if m == 0 then 0.0
    else if m % 2 == 1 then Series(x, m - 1) + Fall(x, m - 1)
    else Series(x, m - 1) - Fall(x, m - 1)
  }

  /** The fraction of 16 atan(1/5) - 4 atan(1/239), summed to `m` terms. */
  function Exact(m: nat): real {
    16.0 * Series(5, m) - 4.0 * Series(239, m) - 3.0
  }

  /** `r` in the fixed point of `n` limbs. */
  function Units(n: nat, r: real): real
    requires n >= 2
  {
    Unit(n) as real * r
  }

  // ----- every floor loses less than one -----

  lemma Floored(a: nat, d: nat)
    requires d > 0
    ensures (a / d) as real <= a as real * (1.0 / d as real) < (a / d) as real + 1.0
  {
    var q, r, e := (a / d) as real, (a % d) as real, 1.0 / d as real;
    assert a == (a / d) * d + a % d;
    assert a as real == q * d as real + r;
    assert (q * d as real + r) * e == q * (d as real * e) + r * e;
    assert 0.0 <= r * e;
    assert r * e < d as real * e;
  }

  lemma SummandNear(x: nat, n: nat, k: nat)
    requires x > 0 && n >= 2
    ensures Summand(x, n, k) as real <= Units(n, Fall(x, k)) < Summand(x, n, k) as real + 1.0
  {
    hide Power;
    MultipleMonotone(1, 2 * k + 1, Power(x, 2 * k + 1));
    Floored(Unit(n), (2 * k + 1) * Power(x, 2 * k + 1));
  }

  lemma UnitsLinear(n: nat, a: real, b: real)
    requires n >= 2
    ensures Units(n, a + b) == Units(n, a) + Units(n, b) && Units(n, a - b) == Units(n, a) - Units(n, b)
    ensures 0.0 <= a <= b ==> 0.0 <= Units(n, a) <= Units(n, b)
  {
    Products(Unit(n) as real, a, b);
  }

  lemma Products(u: real, a: real, b: real)
    ensures u * (a + b) == u * a + u * b && u * (a - b) == u * a - u * b
    ensures 0.0 <= u && 0.0 <= a <= b ==> 0.0 <= u * a <= u * b
  {
  }

  lemma {:induction false} SumNear(x: nat, n: nat, m: nat)
    requires x > 0 && n >= 2
    ensures -(m as real) <= Units(n, Series(x, m)) - AtanSum(x, n, m) as real <= m as real
    decreases m
  {
    hide Units, Summand, Fall;
    if m > 0 {
      SumNear(x, n, m - 1);
      SummandNear(x, n, m - 1);
      UnitsLinear(n, Series(x, m - 1), Fall(x, m - 1));
    } else {
      UnitsLinear(n, 0.0, 0.0);
    }
  }

  // ----- what the omitted terms could add -----

  lemma FallFalls(x: nat, k: nat)
    requires x > 0
    ensures 0.0 < Fall(x, k + 1) <= Fall(x, k)
  {
    hide Power;
    PowerStep(x, k);
    var p := Power(x, 2 * k + 1);
    MultipleMonotone(1, x, x);
    MultipleMonotone(1, x * x, p);
    MultipleMonotone(2 * k + 1, 2 * k + 3, p);
    MultipleMonotone(p, p * (x * x), 2 * k + 3);
    Inverse((2 * k + 1) * p, (2 * k + 3) * (p * (x * x)));
  }

  lemma Inverse(a: nat, b: nat)
    requires 0 < a <= b
    ensures 0.0 < 1.0 / b as real <= 1.0 / a as real
  {
  }

  /** After an even number of terms, the rest of the series lies between zero and its first term. */
  lemma {:induction false} Rest(x: nat, m: nat, k: nat)
    requires x > 0 && m % 2 == 0 && m <= k
    ensures 0.0 <= Series(x, k) - Series(x, m) <= Fall(x, m)
    ensures k % 2 == 1 ==> Fall(x, k - 1) <= Series(x, k) - Series(x, m)
    ensures k > m && k % 2 == 0 ==> Series(x, k) - Series(x, m) + Fall(x, k - 1) <= Fall(x, m)
    decreases k
  {
    hide Fall;
    FallFalls(x, m);
    if m < k {
      Rest(x, m, k - 1);
      FallFalls(x, k - 1);
      if m + 1 < k { FallFalls(x, k - 2); }
    }
  }

  lemma LastSmall(x: nat, n: nat)
    requires x >= 2 && n >= 2
    ensures Units(n, Fall(x, Length(n))) < 1.0
  {
    hide Units, Fall, Summand, Term, Length;
    var l := Length(n);
    LastTerm(x, n);
    SummandsVanish(x, n, l, l);
    SummandNear(x, n, l);
  }

  /** The fixed-point arctangent against every longer partial sum of the series. */
  lemma AtanNear(x: nat, n: nat, m: nat)
    requires x >= 2 && n >= 2 && m >= Length(n)
    ensures -(Length(n) as real) <= Units(n, Series(x, m)) - Atan(x, n) as real <= Length(n) as real + 1.0
  {
    hide Units, Fall, Series, AtanSum;
    var l := Length(n);
    SumNear(x, n, l);
    Rest(x, l, m);
    LastSmall(x, n);
    UnitsLinear(n, Series(x, m) - Series(x, l), Fall(x, l));
    UnitsLinear(n, Series(x, m), Series(x, l));
  }

  // ----- the words -----

  lemma FractionNear(n: nat, m: nat)
    requires n >= 3 && m >= Length(n)
    ensures -(20 * Length(n) + 4) as real <= Units(n, Exact(m)) - Fraction(n) as real
    ensures Units(n, Exact(m)) - Fraction(n) as real <= (20 * Length(n) + 16) as real
  {
    hide Units, Unit, Series, Atan;
    AtanNear(5, n, m);
    AtanNear(239, n, m);
    UnitsCombine(n, Series(5, m), Series(239, m));
  }

  lemma UnitsCombine(n: nat, a: real, b: real)
    requires n >= 2
    ensures Units(n, 16.0 * a - 4.0 * b - 3.0) == 16.0 * Units(n, a) - 4.0 * Units(n, b) - 3.0 * Unit(n) as real
  {
    hide Unit;
    Combine(Unit(n) as real, a, b);
  }

  lemma Combine(u: real, a: real, b: real)
    ensures u * (16.0 * a - 4.0 * b - 3.0) == 16.0 * (u * a) - 4.0 * (u * b) - 3.0 * u
  {
  }

  /**
   * The two guard limbs absorb all the flooring: the number the words spell is less than two units of
   * the last word below, and less than one above, every longer partial sum of Machin's series.
   */
  lemma WordsNear(n: nat, m: nat)
    requires n >= 4 && 32 * (n - 2) < BASE && m >= Length(n)
    ensures var words := (Fraction(n) / (BASE * BASE)) as real;
      var exact := Power(BASE, n - 4) as real * Exact(m);
      exact - 2.0 < words < exact + 1.0
  {
    hide Unit, Fraction, Exact, Power, Length, Units;
    assert 20 * Length(n) + 16 <= 11 * BASE by { GuardRoom(n); }
    FractionNear(n, m);
    FractionBounds(n);
    UnitsShift(n, Exact(m), Fraction(n));
  }

  lemma GuardRoom(n: nat)
    requires n >= 4 && 32 * (n - 2) < BASE
    ensures 20 * Length(n) + 16 <= 11 * BASE
  {
  }

  lemma UnitsShift(n: nat, exact: real, fraction: nat)
    requires n >= 4 && -(11 * BASE) as real <= Units(n, exact) - fraction as real <= (11 * BASE) as real
    ensures var cut := Power(BASE, n - 4) as real * exact;
      cut - 2.0 < (fraction / (BASE * BASE)) as real < cut + 1.0
  {
    hide Unit, Power;
    UnitCut(n);
    Shift(Power(BASE, n - 4), exact, Unit(n), fraction);
  }

  lemma UnitCut(n: nat)
    requires n >= 4
    ensures Unit(n) == BASE * BASE * Power(BASE, n - 4)
  {
    PowerUp(n - 4);
    PowerUp(n - 3);
  }

  /** Cutting off the guard limbs divides by their range. */
  lemma Shift(p: nat, exact: real, unit: nat, fraction: nat)
    requires unit == BASE * BASE * p
    requires -(11 * BASE) as real <= unit as real * exact - fraction as real <= (11 * BASE) as real
    ensures p as real * exact - 2.0 < (fraction / (BASE * BASE)) as real < p as real * exact + 1.0
  {
    var words := fraction / (BASE * BASE);
    assert BASE * BASE * words <= fraction < BASE * BASE * words + BASE * BASE;
    assert unit as real == 18446744073709551616.0 * p as real;
    assert unit as real * exact == 18446744073709551616.0 * (p as real * exact);
  }
}
