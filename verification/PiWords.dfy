/** `pi_words` of src/bcrypt.rs: the Blowfish constants by Machin's formula. */
module PiWords {
  import opened Limbs
  import opened Arctangent

  const NLIMB: nat := 1046

  // ----- multiplication by a small factor -----

  lemma MulStep(v: nat, w: nat, p: nat, m: nat, carry: nat, limb: nat, digit: nat, carry': nat)
    requires v + carry * p == w * m && limb * m + carry == digit + BASE * carry'
    ensures (v + p * digit) + carry' * (BASE * p) == (w + p * limb) * m
  {
    assert p * (limb * m + carry) == p * (digit + BASE * carry');
    assert p * (limb * m + carry) == (p * limb) * m + carry * p;
    assert p * (digit + BASE * carry') == p * digit + carry' * (BASE * p);
    assert (w + p * limb) * m == w * m + (p * limb) * m;
  }

  /** The low limb of a 64-bit product and the rest. */
  method SplitWord(cur: nat) returns (digit: u32, carry: nat)
    requires cur < BASE * BASE
    ensures cur == digit as nat + BASE * carry && carry < BASE
  {
    digit, carry := (cur % BASE) as u32, cur / BASE;
  }

  lemma ProductBound(limb: nat, m: nat, carry: nat)
    requires limb < BASE && m < BASE && carry < BASE
    ensures limb * m + carry < BASE * BASE
  {
    MultipleMonotone(limb, BASE - 1, m);
  }

  /** The first `i` limbs are multiplied, with `carry` to enter limb `i`; the rest is untouched. */
  ghost predicate Multiplied(now: seq<u32>, was: seq<u32>, m: nat, i: nat, carry: nat) {
    && i <= |now| == |was| && now[i..] == was[i..]
    && Value(now[..i]) + carry * Power(BASE, i) == Value(was[..i]) * m
  }

  lemma MultipliedStart(was: seq<u32>, m: nat)
    ensures Multiplied(was, was, m, 0, 0)
  {
    NothingYet(was);
  }

  lemma MultipliedStep(now: seq<u32>, was: seq<u32>, m: nat, i: nat, carry: nat, digit: u32, next: nat)
    requires Multiplied(now, was, m, i, carry) && i < |now|
    requires now[i] as nat * m + carry == digit as nat + BASE * next
    ensures Multiplied(now[i := digit], was, m, i + 1, next)
  {
    hide Value;
    var after := now[i := digit];
    assert now[i] == was[i] by { assert now[i] == now[i..][0] && was[i] == was[i..][0]; }
    MulStep(Value(now[..i]), Value(was[..i]), Power(BASE, i), m, carry, was[i] as nat, digit as nat, next);
    ValueSnoc(was, i);
    ValueSnoc(after, i);
    PowerUp(i);
    assert after[..i] == now[..i] && after[i + 1..] == now[i..][1..] && was[i + 1..] == was[i..][1..];
  }

  lemma MultipliedWhole(now: seq<u32>, was: seq<u32>, m: nat, carry: nat)
    requires Multiplied(now, was, m, |now|, carry)
    ensures Value(now) == (Value(was) * m) % Power(BASE, |now|)
  {
    hide Value, Power;
    assert now[..|now|] == now && was[..|was|] == was;
    ValueBound(now);
    Overflow(Value(was) * m, carry, |now|, Value(now));
  }

  /** Multiply in place; a carry that runs off the top is lost. */
  method MulSmall(b: array<u32>, m: nat)
    requires m < BASE
    modifies b
    ensures Value(b[..]) == (Value(old(b[..])) * m) % Power(BASE, b.Length)
  {
    hide Value, Power, Multiplied;
    ghost var was := b[..];
    var carry: nat := 0;
    MultipliedStart(was, m);
    for i := 0 to b.Length
      invariant carry < BASE && Multiplied(b[..], was, m, i, carry)
    {
      ProductBound(b[i] as nat, m, carry);
      var digit, next := SplitWord(b[i] as nat * m + carry);
      MultipliedStep(b[..], was, m, i, carry, digit, next);
      ghost var now := b[..][i := digit];
      b[i] := digit;
      assert b[..] == now;
      carry := next;
    }
    MultipliedWhole(b[..], was, m, carry);
  }

  lemma PowerUp(i: nat)
    ensures Power(BASE, i + 1) == BASE * Power(BASE, i)
  {
  }

  lemma Overflow(a: nat, carry: nat, n: nat, r: nat)
    requires r + carry * Power(BASE, n) == a && r < Power(BASE, n)
    ensures a % Power(BASE, n) == r
  {
    Remainder(a, carry, n, r);
  }

  // ----- the bounds that keep every step exact -----

  lemma {:induction false} FirstTwo(x: nat, n: nat, m: nat)
    requires x > 0 && n >= 2 && m >= 2
    ensures AtanSum(x, n, m) >= Summand(x, n, 0) - Summand(x, n, 1) + if m % 2 == 1 then Summand(x, n, m - 1) else 0
    decreases m
  {
    hide Summand;
    if m > 2 {
      FirstTwo(x, n, m - 1);
      SummandsFall(x, n, m - 2);
    } else {
      assert AtanSum(x, n, 1) == AtanSum(x, n, 0) + Summand(x, n, 0);
    }
  }

  /** 2^BITS, the fixed point's one. */
  function Unit(n: nat): nat
    requires n >= 2
  {
    Power(BASE, n - 2)
  }

  lemma SummandQuotients(n: nat)
    requires n >= 3
    ensures Summand(5, n, 0) == Unit(n) / 5 && Summand(5, n, 1) == Unit(n) / 375 && Summand(239, n, 0) == Unit(n) / 239
  {
    assert Power(5, 1) == 5 * Power(5, 0) == 5;
    assert Power(5, 3) == 5 * Power(5, 2) && Power(5, 2) == 5 * Power(5, 1);
    assert Power(239, 1) == 239 * Power(239, 0) == 239;
  }

  /** 16 atan(1/5) - 4 atan(1/239) - 3 in fixed point. */
  function Fraction(n: nat): int
    requires n >= 3
  {
    16 * Atan(5, n) - 4 * Atan(239, n) - 3 * Unit(n)
  }

  /** Machin's combination lies between 3 and 4. */
  lemma FractionBounds(n: nat)
    requires n >= 3
    ensures 0 <= Atan(5, n) <= Unit(n) / 5 && 0 <= Atan(239, n) <= Unit(n) / 239
    ensures 0 <= Fraction(n) < Unit(n)
  {
    hide AtanSum, Summand;
    PartialSums(5, n, Length(n));
    PartialSums(239, n, Length(n));
    FirstTwo(5, n, Length(n));
    SummandQuotients(n);
    UnitLarge(n);
  }

  lemma UnitLarge(n: nat)
    requires n >= 3
    ensures Unit(n) >= BASE && Power(BASE, n) == BASE * BASE * Unit(n)
  {
    var p := Power(BASE, n - 3);
    assert Power(BASE, n - 2) == BASE * p;
    MultipleMonotone(1, p, BASE);
    PowerUp(n - 1);
    PowerUp(n - 2);
  }

  // ----- the computation -----

  function Reversed(s: seq<u32>): (r: seq<u32>)
    ensures |r| == |s| && forall i :: 0 <= i < |s| ==> r[i] == s[|s| - 1 - i]
  {
    seq(|s|, i requires 0 <= i < |s| => s[|s| - 1 - i])
  }

  lemma Small(a: int, n: nat)
    requires 0 <= a < Power(BASE, n)
    ensures a % Power(BASE, n) == a
  {
    hide Power;
    assert Pending(0, n) == 0;
    Remainder(a, 0, n, a);
  }

  /** A multiple of at most four units fits the array. */
  lemma Fits(a: int, n: nat)
    requires n >= 3 && 0 <= a < 4 * Unit(n)
    ensures a % Power(BASE, n) == a
  {
    hide Unit, Power;
    UnitLarge(n);
    Small(a, n);
  }

  /** `atan_inv(x) * factor`. */
  method Scaled(x: nat, factor: nat, n: nat) returns (b: array<u32>)
    requires 2 <= x <= 1000 && factor < BASE && n >= 3 && 32 * (n - 2) < BASE
    ensures fresh(b) && b.Length == n
    ensures Value(b[..]) == (Atan(x, n) * factor) % Power(BASE, n)
  {
    hide Value, Power, Atan;
    MultipleMonotone(x, 1000, x);
    b := AtanInv(x, n);
    MulSmall(b, factor);
  }

  method Subtract(b: array<u32>, o: array<u32>)
    requires b.Length == o.Length > 0 && b != o
    modifies b
    ensures Value(b[..]) == (Value(old(b[..])) - Value(o[..])) % Power(BASE, b.Length)
  {
    SubAssignUpto(b, o, b.Length - 1);
    assert o[..b.Length - 1 + 1] == o[..];
  }

  /** The fraction in an array, integer part removed; no step wraps around. */
  method Digits(n: nat) returns (pi: array<u32>)
    requires n >= 3 && 32 * (n - 2) < BASE
    ensures pi.Length == n && Value(pi[..]) == Fraction(n)
  {
    hide Value, Power, Atan, Unit;
    pi := Scaled(5, 16, n);
    var other := Scaled(239, 4, n);
    FractionBounds(n);
    Fits(Atan(5, n) * 16, n);
    Fits(Atan(239, n) * 4, n);
    Subtract(pi, other);
    Fits(Atan(5, n) * 16 - Atan(239, n) * 4, n);
    var three := PowerOfTwo(n);
    MulSmall(three, 3);
    UnitLarge(n);
    OneUnit(n);
    Fits(Unit(n) * 3, n);
    Subtract(pi, three);
    Fits(Fraction(n), n);
  }

  lemma OneUnit(n: nat)
    requires n >= 2
    ensures Unit(n) == Power(BASE, n - 2)
  {
  }

  /** The words, most significant first, are the fraction with its two guard limbs cut off. */
  method Words(n: nat) returns (out: seq<u32>)
    requires n >= 4 && 32 * (n - 2) < BASE
    ensures |out| == n - 4 && 0 <= Fraction(n)
    ensures Value(Reversed(out)) == Fraction(n) / (BASE * BASE)
  {
    hide Value, Power, Atan, Unit, Fraction;
    var pi := Digits(n);
    out := [];
    for i := 0 to n - 4
      invariant |out| == i && forall k :: 0 <= k < i ==> out[k] == pi[n - 3 - k]
    {
      out := out + [pi[n - 3 - i]];
    }
    assert Reversed(out) == pi[2..n - 2];
    FractionBounds(n);
    Middle(pi[..], n);
    assert pi[..][2..n - 2] == pi[2..n - 2];
  }

  /** `pi_words`: 1042 words from 1046 limbs. */
  method BlowfishWords() returns (out: seq<u32>)
    ensures |out| == 1042 && 0 <= Fraction(NLIMB)
    ensures Value(Reversed(out)) == Fraction(NLIMB) / (BASE * BASE)
  {
    hide Value, Fraction;
    out := Words(NLIMB);
  }

  /** A number below the unit, without its two lowest limbs. */
  lemma Middle(s: seq<u32>, n: nat)
    requires |s| == n >= 4 && Value(s) < Unit(n)
    ensures Value(s[2..n - 2]) == Value(s) / (BASE * BASE)
  {
    hide Value;
    ValueSplit(s, n - 2);
    ValueSplit(s[..n - 2], 2);
    assert s[..n - 2][..2] == s[..2] && s[..n - 2][2..] == s[2..n - 2];
    ValueBound(s[..2]);
    PowerUp(0);
    PowerUp(1);
    TopZero(Value(s[..n - 2]), Value(s[n - 2..]), Power(BASE, n - 2));
    Cut(Value(s), Value(s[2..n - 2]), Value(s[..2]));
  }

  lemma TopZero(low: nat, high: nat, unit: nat)
    requires low + unit * high < unit
    ensures high == 0
  {
    if high > 0 { MultipleMonotone(1, high, unit); }
  }

  lemma Cut(a: nat, q: nat, r: nat)
    requires a == r + BASE * BASE * q && r < BASE * BASE
    ensures a / (BASE * BASE) == q
  {
    QuotientUnique(a, q, BASE * BASE, r);
  }
}
