/** `atan_inv` of src/bcrypt.rs: the Gregory series in fixed point, on limbs that shrink as it goes. */
module Arctangent {
  import opened Limbs

  // With n limbs the fixed point has n - 2 of them below the binary point: BITS is 32 * (n - 2).

  /** floor(2^BITS / x^(2k+1)): what the running term holds. */
  function Term(x: nat, n: nat, k: nat): nat
    requires x > 0 && n >= 2
  {
    Power(BASE, n - 2) / Power(x, 2 * k + 1)
  }

  /** floor(2^BITS / ((2k+1) x^(2k+1))): the k-th summand of the series. */
  function Summand(x: nat, n: nat, k: nat): nat
    requires x > 0 && n >= 2
  {
    Power(BASE, n - 2) / ((2 * k + 1) * Power(x, 2 * k + 1))
  }

  /** The alternating sum of the first `m` summands. */
  function AtanSum(x: nat, n: nat, m: nat): int
    requires x > 0 && n >= 2
  {
    if m == 0 then 0
    else if m % 2 == 1 then AtanSum(x, n, m - 1) + Summand(x, n, m - 1)
    else AtanSum(x, n, m - 1) - Summand(x, n, m - 1)
  }

  // ----- division facts -----

  /** Dividing in two stages floors no differently from dividing once. */
  lemma DivDiv(a: nat, b: nat, c: nat)
    requires b > 0 && c > 0
    ensures b * c > 0 && (a / b) / c == a / (b * c)
  {
    MultipleMonotone(1, b, c);
    DivDivParts(a, b, c, a / b, a % b, (a / b) / c, (a / b) % c);
  }

  lemma DivDivParts(a: nat, b: nat, c: nat, p: nat, r1: nat, q: nat, r2: nat)
    requires b * c > 0 && a == p * b + r1 && r1 < b && p == q * c + r2 && r2 < c
    ensures a / (b * c) == q
  {
    MultipleRegroup(q, c, b, r2);
    MultipleMonotone(r2 + 1, c, b);
    QuotientUnique(a, q, b * c, r2 * b + r1);
  }

  lemma MultipleRegroup(q: nat, c: nat, b: nat, r: nat)
    ensures (q * c + r) * b == q * (b * c) + r * b
  {
  }

  lemma DivMonotone(a: nat, b: nat, c: nat)
    requires 0 < b <= c
    ensures a / c <= a / b
  {
    var q, p := a / c, a / b;
    MultipleMonotone(b, c, q);
    assert q * c <= a;
    assert q * b <= a;
    if q > p { MultipleMonotone(p + 1, q, b); }
  }

  lemma DivPositive(a: nat, b: nat)
    requires b > 0 && a / b > 0
    ensures b <= a
  {
    MultipleMonotone(1, a / b, b);
  }

  // ----- the series: summands fall, so every partial sum stays between zero and the first -----

  lemma PowerStep(x: nat, k: nat)
    ensures Power(x, 2 * (k + 1) + 1) == Power(x, 2 * k + 1) * (x * x)
  {
    var p := Power(x, 2 * k + 1);
    assert Power(x, 2 * k + 3) == x * Power(x, 2 * k + 2);
    assert Power(x, 2 * k + 2) == x * p;
    assert x * (x * p) == p * (x * x);
  }

  lemma TermNext(x: nat, n: nat, k: nat)
    requires x > 0 && n >= 2
    ensures x * x > 0 && Term(x, n, k + 1) == Term(x, n, k) / (x * x)
  {
    hide Power;
    MultipleMonotone(1, x, x);
    PowerStep(x, k);
    DivDiv(Power(BASE, n - 2), Power(x, 2 * k + 1), x * x);
  }

  lemma SummandOfTerm(x: nat, n: nat, k: nat)
    requires x > 0 && n >= 2
    ensures Summand(x, n, k) == Term(x, n, k) / (2 * k + 1)
  {
    hide Power;
    DivDiv(Power(BASE, n - 2), Power(x, 2 * k + 1), 2 * k + 1);
    assert Power(x, 2 * k + 1) * (2 * k + 1) == (2 * k + 1) * Power(x, 2 * k + 1);
  }

  lemma SummandsFall(x: nat, n: nat, k: nat)
    requires x > 0 && n >= 2
    ensures Summand(x, n, k + 1) <= Summand(x, n, k)
  {
    hide Power;
    PowerStep(x, k);
    var p := Power(x, 2 * k + 1);
    MultipleMonotone(1, x, x);
    MultipleMonotone(1, x * x, p);
    assert p <= p * (x * x);
    MultipleMonotone(2 * k + 1, 2 * k + 3, p);
    MultipleMonotone(p, p * (x * x), 2 * k + 3);
    DivMonotone(Power(BASE, n - 2), (2 * k + 1) * p, (2 * k + 3) * (p * (x * x)));
  }

  lemma {:induction false} PartialSums(x: nat, n: nat, m: nat)
    requires x > 0 && n >= 2
    ensures 0 <= AtanSum(x, n, m) <= Summand(x, n, 0)
    ensures m % 2 == 1 ==> Summand(x, n, m - 1) <= AtanSum(x, n, m)
    ensures m > 0 && m % 2 == 0 ==> AtanSum(x, n, m) + Summand(x, n, m - 1) <= Summand(x, n, 0)
    decreases m
  {
    hide Summand;
    if m > 0 {
      PartialSums(x, n, m - 1);
      if m > 1 { SummandsFall(x, n, m - 2); }
    }
  }

  // ----- how many terms there are -----

  lemma {:induction false} PowerAdd(b: nat, e: nat, f: nat)
    ensures Power(b, e + f) == Power(b, e) * Power(b, f)
    decreases e
  {
    if e > 0 {
      PowerAdd(b, e - 1, f);
      assert b * (Power(b, e - 1) * Power(b, f)) == (b * Power(b, e - 1)) * Power(b, f);
    }
  }

  lemma {:induction false} PowerGrows(b: nat, c: nat, e: nat)
    requires b <= c
    ensures Power(b, e) <= Power(c, e)
    decreases e
  {
    if e > 0 {
      PowerGrows(b, c, e - 1);
      MultipleMonotone(b, c, Power(b, e - 1));
      MultipleMonotone(Power(b, e - 1), Power(c, e - 1), c);
    }
  }

  lemma {:induction false} PowerTwoGrows(e: nat, f: nat)
    requires e < f
    ensures Power(2, e) < Power(2, f)
    decreases f
  {
    if e < f - 1 { PowerTwoGrows(e, f - 1); }
  }

  lemma TwoTo32()
    ensures Power(2, 32) == BASE
  {
    assert Power(2, 4) == 16;
    PowerAdd(2, 4, 4);
    PowerAdd(2, 8, 8);
    PowerAdd(2, 16, 16);
  }

  lemma {:induction false} BasePower(j: nat)
    ensures Power(BASE, j) == Power(2, 32 * j)
    decreases j
  {
    if j > 0 {
      BasePower(j - 1);
      PowerAdd(2, 32, 32 * (j - 1));
      TwoTo32();
    }
  }

  /** While the term is not yet zero, the odd divisor is far below a limb. */
  lemma DivisorBound(x: nat, n: nat, k: nat)
    requires x >= 2 && n >= 2 && Term(x, n, k) > 0
    ensures 2 * k + 1 <= 32 * (n - 2)
  {
    hide Power;
    DivPositive(Power(BASE, n - 2), Power(x, 2 * k + 1));
    PowerGrows(2, x, 2 * k + 1);
    BasePower(n - 2);
    if 2 * k + 1 > 32 * (n - 2) { PowerTwoGrows(32 * (n - 2), 2 * k + 1); }
  }

  lemma {:induction false} SummandsVanish(x: nat, n: nat, m: nat, k: nat)
    requires x > 0 && n >= 2 && Term(x, n, m) == 0 && m <= k
    ensures Term(x, n, k) == 0 && Summand(x, n, k) == 0
    decreases k
  {
    hide Term, Summand;
    if m < k {
      SummandsVanish(x, n, m, k - 1);
      TermNext(x, n, k - 1);
    }
    SummandOfTerm(x, n, k);
  }

  /** Once a term is zero the series is complete: further summands change nothing. */
  lemma {:induction false} SeriesComplete(x: nat, n: nat, m: nat, k: nat)
    requires x > 0 && n >= 2 && Term(x, n, m) == 0 && m <= k
    ensures AtanSum(x, n, k) == AtanSum(x, n, m)
    decreases k
  {
    hide Term, Summand;
    if m < k {
      SeriesComplete(x, n, m, k - 1);
      SummandsVanish(x, n, m, k - 1);
    }
  }

  /** The whole series: with this many summands none is missing. */
  function Atan(x: nat, n: nat): int
    requires x > 0 && n >= 2
  {
    AtanSum(x, n, Length(n))
  }

  /** One summand for every two bits of the fixed point. */
  function Length(n: nat): nat
    requires n >= 2
  {
    16 * (n - 2)
  }

  lemma LastTerm(x: nat, n: nat)
    requires x >= 2 && n >= 2
    ensures Term(x, n, Length(n)) == 0
  {
    hide Term;
    if Term(x, n, Length(n)) > 0 { DivisorBound(x, n, Length(n)); }
  }

  /** Summing to any zero term is summing everything. */
  lemma AtanWhole(x: nat, n: nat, m: nat)
    requires x >= 2 && n >= 2 && Term(x, n, m) == 0
    ensures AtanSum(x, n, m) == Atan(x, n)
  {
    hide Term, AtanSum;
    LastTerm(x, n);
    if m <= Length(n) {
      SeriesComplete(x, n, m, Length(n));
    } else {
      SeriesComplete(x, n, Length(n), m);
    }
  }

  // ----- the loop -----

  /** The term's limbs above `hi` are zero, so the low limbs are its whole value. */
  ghost predicate Within(limbs: seq<u32>, hi: nat) {
    hi < |limbs| && forall i :: hi < i < |limbs| ==> limbs[i] == 0
  }

  lemma WithinValue(limbs: seq<u32>, hi: nat)
    requires Within(limbs, hi)
    ensures Value(limbs) == Value(limbs[..hi + 1])
  {
    ValueSplit(limbs, hi + 1);
    ValueZeros(limbs[hi + 1..]);
  }

  /** Lower `hi` past the term's leading zero limbs. */
  method Shrink(term: array<u32>, hi: nat) returns (hi': nat)
    requires Within(term[..], hi)
    ensures hi' <= hi && Within(term[..], hi')
    ensures hi' == 0 || term[hi'] != 0
  {
    hi' := hi;
    while hi' > 0 && term[hi'] == 0
      invariant hi' <= hi && Within(term[..], hi')
    {
      hi' := hi' - 1;
    }
  }

  /** Copy the still-significant limbs; higher limbs of `c` keep stale values. */
  method CopyLow(c: array<u32>, term: array<u32>, hi: nat)
    requires c != term && hi < c.Length == term.Length
    modifies c
    ensures c[..hi + 1] == term[..hi + 1]
  {
    for i := 0 to hi + 1
      invariant c[..i] == term[..i]
    {
      c[i] := term[i];
    }
  }

  lemma InRange(v: nat, p: nat)
    requires v < p
    ensures v % p == v
  {
    QuotientUnique(v, 0, p, v);
  }

  /** A partial sum always fits the number. */
  lemma SumFits(x: nat, n: nat, m: nat)
    requires x > 0 && n >= 2
    ensures 0 <= AtanSum(x, n, m) < Power(BASE, n)
    ensures AtanSum(x, n, m) % Power(BASE, n) == AtanSum(x, n, m)
  {
    hide AtanSum;
    PartialSums(x, n, m);
    var p := Power(BASE, n - 2);
    assert Summand(x, n, 0) <= p by {
      MultipleMonotone(1, 1, Power(x, 1));
      DivMonotone(p, 1, 1 * Power(x, 1));
    }
    assert Power(BASE, n) == BASE * (BASE * p) by { assert Power(BASE, n - 1) == BASE * p; }
    InRange(AtanSum(x, n, m), Power(BASE, n));
  }

  /** Add or subtract the k-th summand; no borrow leaves the limbs because the summands fall. */
  method Accumulate(sum: array<u32>, c: array<u32>, hi: nat, x: nat, n: nat, k: nat)
    requires x > 0 && n >= 2 && hi < sum.Length == c.Length == n && sum != c
    requires Value(sum[..]) == AtanSum(x, n, k) && Value(c[..hi + 1]) == Summand(x, n, k)
    modifies sum
    ensures Value(sum[..]) == AtanSum(x, n, k + 1)
  {
    hide Value, Power, Summand;
    SumFits(x, n, k + 1);
    if k % 2 == 0 {
      AddAssignUpto(sum, c, hi);
    } else {
      SubAssignUpto(sum, c, hi);
    }
  }

  /** Divide the significant limbs of the term. */
  method DivideTerm(term: array<u32>, d: nat, hi: nat)
    requires Within(term[..], hi) && 0 < d <= BASE
    modifies term
    ensures Within(term[..], hi) && Value(term[..]) == old(Value(term[..])) / d
  {
    hide Value;
    ghost var was := term[..];
    WithinValue(was, hi);
    DivSmallUpto(term, d, hi);
    forall i | hi < i < term.Length ensures term[i] == 0 {
      assert term[i] == term[hi + 1..][i - (hi + 1)] && was[i] == was[hi + 1..][i - (hi + 1)];
    }
    WithinValue(term[..], hi);
    assert was[..hi + 1] == old(term[..hi + 1]);
  }

  /** 2^BITS: a single one in limb n - 2. */
  method PowerOfTwo(n: nat) returns (b: array<u32>)
    requires n >= 2
    ensures fresh(b) && b.Length == n && Value(b[..]) == Power(BASE, n - 2)
  {
    b := new u32[n](_ => 0);
    b[n - 2] := 1;
    ValueSplit(b[..], n - 2);
    ValueZeros(b[..][..n - 2]);
    assert b[..][n - 2..] == [1, 0];
    assert Value([1, 0]) == 1 by {
      assert [1 as u32, 0][1..] == [0];
      ValueZeros([0]);
    }
  }

  /**
   * The fixed-point arctangent of 1/x: exactly the alternating sum of all the summands, computed on
   * limbs `0..=hi` only.
   */
  method AtanInv(x: nat, n: nat) returns (sum: array<u32>)
    requires x >= 2 && x * x < BASE && n >= 3 && 32 * (n - 2) < BASE
    ensures fresh(sum) && sum.Length == n
    ensures Value(sum[..]) == Atan(x, n)
  {
    hide Value, Power, Summand, Within, Term, AtanSum, Atan;
    MultipleMonotone(2, x, x);
    var term := FirstTerm(x, n);
    sum := new u32[n](_ => 0);
    var c := new u32[n](_ => 0);
    ValueZeros(sum[..]);
    SumStart(x, n);
    var k: nat := 0;
    var hi: nat := n - 1;
    while true
      invariant hi < n == term.Length && Within(term[..], hi)
      invariant Value(term[..]) == Term(x, n, k) > 0
      invariant Value(sum[..]) == AtanSum(x, n, k)
      invariant fresh(term) && fresh(c) && fresh(sum)
      decreases Term(x, n, k)
    {
      AddSummand(term, sum, c, hi, x, n, k);
      TermNext(x, n, k);
      TermFalls(x, n, k);
      DivideTerm(term, x * x, hi);
      hi := Shrink(term, hi);
      if hi == 0 && term[0] == 0 {
        AllZero(term[..]);
        AtanWhole(x, n, k + 1);
        return;
      }
      NotZero(term[..], hi);
      k := k + 1;
    }
  }

  /** The running term to start from: 2^BITS / x. */
  method FirstTerm(x: nat, n: nat) returns (term: array<u32>)
    requires 2 <= x < BASE && n >= 3
    ensures fresh(term) && term.Length == n && Within(term[..], n - 1)
    ensures Value(term[..]) == Term(x, n, 0) > 0
  {
    hide Value;
    term := PowerOfTwo(n);
    DivideTerm(term, x, n - 1);
    TermStart(x, n);
  }

  /** One summand: copy the term's low limbs, divide by the odd number, accumulate. */
  method AddSummand(term: array<u32>, sum: array<u32>, c: array<u32>, hi: nat, x: nat, n: nat, k: nat)
    requires x >= 2 && n >= 3 && 32 * (n - 2) < BASE
    requires sum.Length == c.Length == term.Length == n && sum != c && c != term && sum != term
    requires Within(term[..], hi) && Value(term[..]) == Term(x, n, k) > 0
    requires Value(sum[..]) == AtanSum(x, n, k)
    modifies sum, c
    ensures Value(sum[..]) == AtanSum(x, n, k + 1)
  {
    hide Value, Power, Summand, Term, AtanSum;
    DivisorBound(x, n, k);
    WithinValue(term[..], hi);
    assert term[..][..hi + 1] == term[..hi + 1];
    CopyLow(c, term, hi);
    DivSmallUpto(c, 2 * k + 1, hi);
    SummandOfTerm(x, n, k);
    Accumulate(sum, c, hi, x, n, k);
  }

  lemma SumStart(x: nat, n: nat)
    requires x > 0 && n >= 2
    ensures AtanSum(x, n, 0) == 0
  {
  }

  lemma TermStart(x: nat, n: nat)
    requires 2 <= x < BASE && n >= 3
    ensures Term(x, n, 0) == Power(BASE, n - 2) / x > 0
  {
    assert Power(x, 1) == x * Power(x, 0) == x;
    assert Power(BASE, n - 2) == BASE * Power(BASE, n - 3);
    var p := Power(BASE, n - 3);
    MultipleMonotone(1, p, BASE);
    DivAtLeastOne(Power(BASE, n - 2), x);
  }

  lemma DivAtLeastOne(a: nat, b: nat)
    requires 0 < b <= a
    ensures a / b > 0
  {
  }

  lemma TermFalls(x: nat, n: nat, k: nat)
    requires x >= 2 && n >= 2 && Term(x, n, k) > 0
    ensures Term(x, n, k + 1) < Term(x, n, k)
  {
    hide Term;
    TermNext(x, n, k);
    MultipleMonotone(2, x, x);
    var t := Term(x, n, k);
    DivMonotone(t, 2, x * x);
  }

  lemma AllZero(limbs: seq<u32>)
    requires Within(limbs, 0) && limbs[0] == 0
    ensures Value(limbs) == 0
  {
    ValueZeros(limbs);
  }

  lemma NotZero(limbs: seq<u32>, hi: nat)
    requires hi < |limbs| && limbs[hi] != 0
    ensures Value(limbs) > 0
  {
    if Value(limbs) == 0 { ZeroValue(limbs); }
  }
}
