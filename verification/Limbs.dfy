/** The fixed-point limb arithmetic of src/bcrypt.rs: little-endian arrays of 32-bit limbs. */
module Limbs {

  const BASE: nat := 0x1_0000_0000

  newtype u32 = x: int | 0 <= x < 0x1_0000_0000

  // ----- values of limb sequences -----

  function Value(s: seq<u32>): nat {
    if s == [] then 0 else s[0] as nat + BASE * Value(s[1..])
  }

  function Power(b: nat, e: nat): (p: nat)
    ensures b > 0 ==> p > 0
  {
    if e == 0 then 1 else b * Power(b, e - 1)
  }

  /** Limbs below `i` and limbs from `i` on contribute separately. */
  lemma {:induction false} ValueSplit(s: seq<u32>, i: nat)
    requires i <= |s|
    ensures Value(s) == Value(s[..i]) + Power(BASE, i) * Value(s[i..])
    decreases i
  {
    hide Value;
    if i == 0 {
      assert s[..0] == [] && s[0..] == s;
      ValueZeros([]);
    } else {
      ValueSplit(s[1..], i - 1);
      assert s == [s[0]] + s[1..] && s[..i] == [s[0]] + s[1..][..i - 1] && s[1..][i - 1..] == s[i..];
      ValueCons(s[0], s[1..]);
      ValueCons(s[0], s[1..][..i - 1]);
      var p, t := Power(BASE, i - 1), Value(s[i..]);
      assert BASE * (p * t) == (BASE * p) * t;
    }
  }

  lemma ValueSnoc(s: seq<u32>, i: nat)
    requires i < |s|
    ensures Value(s[..i + 1]) == Value(s[..i]) + Power(BASE, i) * s[i] as nat
  {
    ValueSplit(s[..i + 1], i);
    assert s[..i + 1][..i] == s[..i] && s[..i + 1][i..] == [s[i]];
    assert Value([s[i]]) == s[i] as nat by { assert [s[i]][1..] == []; }
  }

  lemma {:induction false} ValueBound(s: seq<u32>)
    ensures Value(s) < Power(BASE, |s|)
    decreases |s|
  {
    if s != [] { ValueBound(s[1..]); }
  }

  lemma {:induction false} ValueZeros(s: seq<u32>)
    requires forall i :: 0 <= i < |s| ==> s[i] == 0
    ensures Value(s) == 0
    decreases |s|
  {
    if s != [] { ValueZeros(s[1..]); }
  }

  lemma {:induction false} ZeroValue(s: seq<u32>)
    requires Value(s) == 0
    ensures forall i :: 0 <= i < |s| ==> s[i] == 0
    decreases |s|
  {
    if s != [] { ZeroValue(s[1..]); }
  }

  // ----- division from the top limb down -----

  /** One limb of schoolbook division. */
  lemma DivStep(high: nat, done: nat, rem: nat, limb: nat, d: nat, cur: nat, q: nat, r: nat)
    requires 0 < d <= BASE && high == done * d + rem && rem < d && limb < BASE
    requires cur == rem * BASE + limb == q * d + r && r < d
    ensures cur < 0x1_0000_0000_0000_0000 && q < BASE
    ensures limb + BASE * high == (q + BASE * done) * d + r
  {
    assert BASE * (done * d) == (BASE * done) * d;
    assert q * d < BASE * d;
    if q >= BASE { MultipleMonotone(BASE, q, d); }
  }

  lemma MultipleMonotone(a: nat, b: nat, d: nat)
    requires a <= b
    ensures a * d <= b * d
  {
  }

  lemma MultipleAtLeast(k: int, d: nat)
    requires k >= 1
    ensures k * d >= d
  {
  }

  lemma QuotientUnique(a: int, q: int, d: nat, r: nat)
    requires d > 0 && a == q * d + r && r < d
    ensures a / d == q
  {
    var e, m := a / d, a % d;
    assert a == e * d + m;
    assert (q - e) * d == m - r && (e - q) * d == r - m;
    if q > e { MultipleAtLeast(q - e, d); }
    if e > q { MultipleAtLeast(e - q, d); }
  }

  lemma ValueCons(x: u32, s: seq<u32>)
    ensures Value([x] + s) == x as nat + BASE * Value(s)
  {
    assert ([x] + s)[1..] == s;
  }

  /** One limb and the remainder from above, as a 64-bit dividend. */
  method DivLimb(rem: nat, limb: u32, d: nat, ghost high: nat, ghost done: nat) returns (q: u32, rem': nat)
    requires 0 < d <= BASE && rem < d && high == done * d + rem
    ensures rem' < d && limb as nat + BASE * high == (q as nat + BASE * done) * d + rem'
  {
    var cur := rem * BASE + limb as nat;
    var quotient := cur / d;
    rem' := cur % d;
    DivStep(high, done, rem, limb as nat, d, cur, quotient, rem');
    assert cur < 0x1_0000_0000_0000_0000;
    q := quotient as u32;
  }

  /** Divide limbs `0..=hi` in place; the 64-bit intermediate never overflows. */
  method DivSmallUpto(b: array<u32>, d: nat, hi: nat)
    requires hi < b.Length && 0 < d <= BASE
    modifies b
    ensures Value(b[..hi + 1]) == Value(old(b[..hi + 1])) / d
    ensures b[hi + 1..] == old(b[hi + 1..])
  {
    hide Value;
    ghost var was := b[..];
    var rem: nat := 0;
    ghost var done: seq<u32> := [];
    assert was[hi + 1..hi + 1] == [];
    ValueZeros([]);
    var i := hi + 1;
    while i > 0
      invariant 0 <= i <= hi + 1 && rem < d
      invariant b[..i] == was[..i] && b[i..hi + 1] == done && b[hi + 1..] == was[hi + 1..]
      invariant Value(was[i..hi + 1]) == Value(done) * d + rem
    {
      i := i - 1;
      assert b[i] == was[..i + 1][i];
      assert was[i..hi + 1] == [was[i]] + was[i + 1..hi + 1];
      ValueCons(was[i], was[i + 1..hi + 1]);
      var q;
      q, rem := DivLimb(rem, b[i], d, Value(was[i + 1..hi + 1]), Value(done));
      b[i] := q;
      ValueCons(b[i], done);
      done := [b[i]] + done;
    }
    assert b[..hi + 1] == done && was[..hi + 1] == was[0..hi + 1];
    QuotientUnique(Value(was[..hi + 1]), Value(done), d, rem);
  }

  // ----- addition and subtraction from the bottom limb up -----

  /** A carry (negative: a borrow) waiting to enter limb `i`. */
  ghost function Pending(carry: int, i: nat): int {
    carry * Power(BASE, i)
  }

  /**
   * The first `i` limbs are settled: `now` is `was` plus `o` up to a pending carry,
   * and the limbs from `i` on are untouched.
   */
  ghost predicate Settled(now: seq<u32>, was: seq<u32>, o: int, i: nat, carry: int) {
    && i <= |now| == |was| && now[i..] == was[i..]
    && Value(now[..i]) + Pending(carry, i) == Value(was[..i]) + o
  }

  lemma SettledStart(was: seq<u32>)
    ensures Settled(was, was, 0, 0, 0)
  {
  }

  /** One limb: `was[i]` plus `b` plus the carry is the new limb plus the next carry. */
  lemma SettledStep(now: seq<u32>, was: seq<u32>, o: int, i: nat, carry: int, b: int, x: u32, carry': int)
    requires Settled(now, was, o, i, carry) && i < |now|
    requires was[i] as int + b + carry == x as int + BASE * carry'
    ensures Settled(now[i := x], was, o + Power(BASE, i) * b, i + 1, carry')
  {
    hide Value;
    var p := Power(BASE, i);
    ValueSnoc(now[i := x], i);
    assert now[i := x][..i] == now[..i];
    ValueSnoc(was, i);
    assert now[i := x][i + 1..] == now[i..][1..] && was[i + 1..] == was[i..][1..];
    CarryStep(carry, p, was[i] as int, b, x as int, carry');
  }

  lemma CarryStep(carry: int, p: nat, a: int, b: int, digit: int, carry': int)
    requires a + b + carry == digit + BASE * carry'
    ensures p * digit + carry' * (BASE * p) == p * a + p * b + carry * p
  {
    assert p * (a + b + carry) == p * (digit + BASE * carry');
    assert p * (digit + BASE * carry') == p * digit + carry' * (BASE * p);
    assert p * (a + b + carry) == p * a + p * b + carry * p;
  }

  /** After the last limb, or once nothing is pending, the number is the result modulo its size. */
  lemma SettledWhole(now: seq<u32>, was: seq<u32>, o: int, i: nat, carry: int)
    requires Settled(now, was, o, i, carry) && (carry == 0 || i == |now|)
    ensures Value(now) == (Value(was) + o) % Power(BASE, |now|)
  {
    hide Value, Power;
    if carry == 0 {
      ValueSplit(now, i);
      ValueSplit(was, i);
      assert Pending(0, |now|) == 0 == Pending(0, i);
    } else {
      assert now[..i] == now && was[..i] == was;
    }
    assert Value(was) + o == Pending(carry, |now|) + Value(now);
    ValueBound(now);
    Remainder(Value(was) + o, carry, |now|, Value(now));
  }

  lemma Remainder(a: int, q: int, n: nat, r: nat)
    requires a == Pending(q, n) + r && r < Power(BASE, n)
    ensures a % Power(BASE, n) == r
  {
    QuotientUnique(a, q, Power(BASE, n), r);
  }

  /** Add `o`'s limbs `0..=hi`; a carry that runs off the top is lost. */
  method AddAssignUpto(b: array<u32>, o: array<u32>, hi: nat)
    requires hi < b.Length == o.Length && b != o
    modifies b
    ensures Value(b[..]) == (Value(old(b[..])) + Value(o[..hi + 1])) % Power(BASE, b.Length)
  {
    hide Value, Settled, Power;
    ghost var was := b[..];
    var carry: nat := 0;
    var i := 0;
    SettledStart(was);
    NothingYet(o[..]);
    while i <= hi
      invariant 0 <= i <= hi + 1 && carry <= 1
      invariant Settled(b[..], was, Value(o[..i]), i, carry)
    {
      Untouched(b[..], was, Value(o[..i]), i, carry);
      var s := b[i] as nat + o[i] as nat + carry;
      SettledStep(b[..], was, Value(o[..i]), i, carry, o[i] as int, (s % BASE) as u32, s / BASE);
      ValueSnoc(o[..], i);
      ghost var next := b[..][i := (s % BASE) as u32];
      b[i] := (s % BASE) as u32;
      assert b[..] == next && o[..][..i + 1] == o[..i + 1];
      carry := s / BASE;
      i := i + 1;
    }
    while carry != 0 && i < b.Length
      invariant 0 <= i <= b.Length && carry <= 1
      invariant Settled(b[..], was, Value(o[..hi + 1]), i, carry)
    {
      Untouched(b[..], was, Value(o[..hi + 1]), i, carry);
      var s := b[i] as nat + carry;
      SettledStep(b[..], was, Value(o[..hi + 1]), i, carry, 0, (s % BASE) as u32, s / BASE);
      ghost var next := b[..][i := (s % BASE) as u32];
      b[i] := (s % BASE) as u32;
      assert b[..] == next;
      carry := s / BASE;
      i := i + 1;
    }
    SettledWhole(b[..], was, Value(o[..hi + 1]), i, carry);
  }

  /** Subtract `o`'s limbs `0..=hi`; a borrow that runs off the top wraps around. */
  method SubAssignUpto(b: array<u32>, o: array<u32>, hi: nat)
    requires hi < b.Length == o.Length && b != o
    modifies b
    ensures Value(b[..]) == (Value(old(b[..])) - Value(o[..hi + 1])) % Power(BASE, b.Length)
  {
    hide Value, Settled, Power;
    ghost var was := b[..];
    var borrow := 0;
    var i := 0;
    SettledStart(was);
    NothingYet(o[..]);
    while i <= hi
      invariant 0 <= i <= hi + 1 && 0 <= borrow <= 1
      invariant Settled(b[..], was, 0 - Value(o[..i]), i, -borrow)
    {
      Untouched(b[..], was, 0 - Value(o[..i]), i, -borrow);
      var digit, next := Borrow(b[i] as nat, o[i] as nat, borrow);
      SettledStep(b[..], was, 0 - Value(o[..i]), i, -borrow, -(o[i] as int), digit, -next);
      ValueSnoc(o[..], i);
      ghost var whole := b[..][i := digit];
      b[i] := digit;
      assert b[..] == whole && o[..][..i + 1] == o[..i + 1];
      borrow := next;
      i := i + 1;
    }
    while borrow != 0 && i < b.Length
      invariant 0 <= i <= b.Length && 0 <= borrow <= 1
      invariant Settled(b[..], was, 0 - Value(o[..hi + 1]), i, -borrow)
    {
      Untouched(b[..], was, 0 - Value(o[..hi + 1]), i, -borrow);
      var digit, next := Borrow(b[i] as nat, 0, borrow);
      SettledStep(b[..], was, 0 - Value(o[..hi + 1]), i, -borrow, 0, digit, -next);
      ghost var whole := b[..][i := digit];
      b[i] := digit;
      assert b[..] == whole;
      borrow := next;
      i := i + 1;
    }
    SettledWhole(b[..], was, 0 - Value(o[..hi + 1]), i, -borrow);
  }

  /** One limb difference with the incoming borrow taken off. */
  method Borrow(a: nat, b: nat, borrow: int) returns (digit: u32, borrow': int)
    requires a < BASE && b < BASE && 0 <= borrow <= 1
    ensures a - b - borrow == digit as int - BASE * borrow' && 0 <= borrow' <= 1
  {
    var d := a - b - borrow;
    if d < 0 {
      digit, borrow' := (d + BASE) as u32, 1;
    } else {
      digit, borrow' := d as u32, 0;
    }
  }

  lemma NothingYet(s: seq<u32>)
    ensures Value(s[..0]) == 0
  {
  }

  lemma Untouched(now: seq<u32>, was: seq<u32>, o: int, i: nat, carry: int)
    requires Settled(now, was, o, i, carry) && i < |now|
    ensures |now| == |was| && now[i] == was[i]
  {
    assert now[i] == now[i..][0] && was[i] == was[i..][0];
  }
}
