/** How much work the compiler of src/regex.rs does: linear in pattern times program, unless a repeat emits nothing. */
module RegexWork {
  import opened Wrappers
  import opened RegexAst
  import opened RegexSyntax
  import opened RegexCode

  /** The nodes of a pattern; a counted repeat, which is rebuilt as stars or optionals, counts twice. */
  function Nodes(a: Ast): (r: nat)
    ensures r >= 1
    decreases a, 0
  {
    match a
    case Concat(v) => 1 + NodesAll(v)
    case Alt(v) => 1 + NodesAll(v)
    case Star(b) => 1 + Nodes(b)
    case Plus(b) => 1 + Nodes(b)
    case Quest(b) => 1 + Nodes(b)
    case Repeat(b, _, _) => 2 + Nodes(b)
    case _ => 1
  }

  function NodesAll(v: seq<Ast>): nat
    decreases v, 0
  {
    if v == [] then 0 else Nodes(v[0]) + NodesAll(v[1..])
  }

  /** No counted repeat of a body that emits no code. */
  predicate Thrifty(a: Ast) {
    match a
    case Concat(v) => forall k :: 0 <= k < |v| ==> Thrifty(v[k])
    case Alt(v) => forall k :: 0 <= k < |v| ==> Thrifty(v[k])
    case Star(b) => Thrifty(b)
    case Plus(b) => Thrifty(b)
    case Quest(b) => Thrifty(b)
    case Repeat(b, _, _) => Thrifty(b) && Size(b) > 0
    case _ => true
  }

  /** Twice the nodes for every instruction, and once over for none. */
  function Budget(nodes: nat, size: nat): nat {
    2 * nodes * (if size == 0 then 1 else size)
  }

  lemma BudgetUp(n: nat, s: nat, t: nat)
    requires s <= t
    ensures Budget(n, s) + 2 <= Budget(n + 1, t)
  {
    var w, x := if s == 0 then 1 else s, if t == 0 then 1 else t;
    ProductUp(2 * n, w, x);
    assert 2 * (n + 1) * x == 2 * n * x + 2 * x;
  }

  lemma ProductUp(a: nat, b: nat, c: nat)
    requires b <= c
    ensures a * b <= a * c
  {
  }

  lemma BudgetSum(m: nat, n: nat, s: nat, t: nat)
    ensures Budget(m, s) + Budget(n, t) <= Budget(m + n, s + t)
  {
    var w, x, y := if s == 0 then 1 else s, if t == 0 then 1 else t, if s + t == 0 then 1 else s + t;
    ProductUp(2 * m, w, y);
    ProductUp(2 * n, x, y);
    assert 2 * (m + n) * y == 2 * m * y + 2 * n * y;
  }

  lemma OneMore(k: nat, x: nat)
    requires k > 0
    ensures k * x == (k - 1) * x + x
  {
  }

  lemma {:induction false} CopiesLinear(b: Ast, k: nat, extra: nat)
    ensures StepsCopies(b, k, extra) == k * (Steps(b) + extra)
    decreases k
  {
    hide Steps, StepsCopies;
    CopiesSteps(b, k, extra);
    if k > 0 {
      CopiesLinear(b, k - 1, extra);
      OneMore(k, Steps(b) + extra);
    }
  }

  lemma SizesUnfold(b: Ast, k: nat)
    ensures SizeCopies(b, k) == if k == 0 then 0 else Size(b) + SizeCopies(b, k - 1)
    ensures SizeQuests(b, k) == if k == 0 then 0 else Size(b) + 1 + SizeQuests(b, k - 1)
  {
  }

  lemma {:induction false} SizesLinear(b: Ast, k: nat)
    ensures SizeCopies(b, k) == k * Size(b) && SizeQuests(b, k) == k * Size(b) + k
    decreases k
  {
    hide Size, SizeCopies, SizeQuests;
    SizesUnfold(b, k);
    if k > 0 {
      SizesLinear(b, k - 1);
      OneMore(k, Size(b));
    }
  }

  /** `k` copies of a body that emits code cost their share. */
  lemma CopiesBudget(k: nat, steps: nat, nodes: nat, size: nat)
    requires size > 0 && steps <= Budget(nodes, size)
    ensures k * steps <= 2 * nodes * (k * size)
  {
    var unit := 2 * nodes * size;
    ProductUp(k, steps, unit);
    assert k * unit == 2 * nodes * (k * size);
  }

  /** A pattern without such repeats is compiled in at most twice its nodes times its program. */
  lemma {:induction false} ThriftySteps(a: Ast)
    requires Thrifty(a) && WellFormed(a)
    ensures Steps(a) <= Budget(Nodes(a), Size(a))
    decreases a, 0
  {
    hide Budget, Steps, Size, Nodes;
    match a {
      case Concat(v) => ThriftyAll(v); ConcatBudget(v);
      case Alt(v) => ThriftyAll(v); AltBudget(v);
      case Star(b) => ThriftySteps(b); UnderBudget(b);
      case Plus(b) => ThriftySteps(b); UnderBudget(b);
      case Quest(b) => ThriftySteps(b); UnderBudget(b);
      case Repeat(b, lo, hi) =>
        ThriftySteps(b);
        ThriftyRepeat(b, lo, hi);
        RepeatNodes(b, lo, hi);
        BudgetUp(Nodes(b) + 1, Size(a), Size(a));
      case _ => LeafBudget(a);
    }
  }

  lemma LeafBudget(a: Ast)
    requires a.Empty? || a.Char? || a.Any? || a.Class? || a.Start? || a.End?
    ensures Steps(a) <= Budget(Nodes(a), Size(a))
  {
  }

  lemma ConcatBudget(v: seq<Ast>)
    requires StepsAll(v) <= Budget(NodesAll(v), SizeAll(v))
    ensures Steps(Concat(v)) <= Budget(Nodes(Concat(v)), Size(Concat(v)))
  {
    hide Budget, StepsAll, NodesAll, SizeAll;
    BudgetUp(NodesAll(v), SizeAll(v), SizeAll(v));
  }

  lemma AltBudget(v: seq<Ast>)
    requires StepsAll(v) <= Budget(NodesAll(v), SizeAll(v))
    ensures Steps(Alt(v)) <= Budget(Nodes(Alt(v)), Size(Alt(v)))
  {
    hide Budget, StepsAll, NodesAll, SizeAll, SizeAlt;
    AltSize(v);
    BudgetUp(NodesAll(v), SizeAll(v), SizeAlt(v));
  }

  lemma UnderBudget(b: Ast)
    requires Steps(b) <= Budget(Nodes(b), Size(b))
    ensures forall a :: a == Star(b) || a == Plus(b) || a == Quest(b) ==> Steps(a) <= Budget(Nodes(a), Size(a))
  {
    hide Budget;
    BudgetUp(Nodes(b), Size(b), Size(b) + 1);
    BudgetUp(Nodes(b), Size(b), Size(b) + 2);
  }

  lemma RepeatNodes(b: Ast, lo: nat, hi: Option<nat>)
    ensures Nodes(Repeat(b, lo, hi)) == Nodes(b) + 2
  {
  }

  lemma {:induction false} ThriftyAll(v: seq<Ast>)
    requires forall k :: 0 <= k < |v| ==> Thrifty(v[k]) && WellFormed(v[k])
    ensures StepsAll(v) <= Budget(NodesAll(v), SizeAll(v))
    decreases v, 0
  {
    hide Budget;
    if v != [] {
      ThriftySteps(v[0]);
      ThriftyAll(v[1..]);
      BudgetSum(Nodes(v[0]), NodesAll(v[1..]), Size(v[0]), SizeAll(v[1..]));
    }
  }

  lemma {:induction false} AltSize(v: seq<Ast>)
    ensures SizeAll(v) <= SizeAlt(v)
    decreases |v|
  {
    if |v| > 1 {
      AltSize(v[1..]);
    } else if |v| == 1 {
      assert SizeAll(v[1..]) == 0;
    }
  }

  lemma ThriftyRepeat(b: Ast, lo: nat, hi: Option<nat>)
    requires Size(b) > 0 && Steps(b) <= Budget(Nodes(b), Size(b)) && (hi.Some? ==> lo <= hi.value)
    ensures Steps(Repeat(b, lo, hi)) <= Budget(Nodes(b) + 1, Size(Repeat(b, lo, hi)))
  {
    hide Budget, Steps, Size, Nodes;
    if hi.None? {
      ThriftyOpen(b, lo);
    } else {
      ThriftyClosed(b, lo, hi.value - lo);
      assert Some(lo + (hi.value - lo)) == hi;
    }
  }

  lemma ThriftyOpen(b: Ast, lo: nat)
    requires Size(b) > 0 && Steps(b) <= Budget(Nodes(b), Size(b))
    ensures Steps(Repeat(b, lo, None)) <= Budget(Nodes(b) + 1, Size(Repeat(b, lo, None)))
  {
    hide Budget, Steps, Size, StepsCopies, SizeCopies, SizeQuests, Nodes;
    var n, s, t := Nodes(b), Size(b), Steps(b);
    RepeatSteps(b, lo, None);
    RepeatSize(b, lo, None);
    CopiesLinear(b, lo, 0);
    SizesLinear(b, lo);
    CopiesBudget(lo, t, n, s);
    CopiesBudget(1, t, n, s);
    OpenSum(n, lo * s, s);
  }

  lemma ThriftyClosed(b: Ast, lo: nat, k: nat)
    requires Size(b) > 0 && Steps(b) <= Budget(Nodes(b), Size(b))
    ensures Steps(Repeat(b, lo, Some(lo + k))) <= Budget(Nodes(b) + 1, Size(Repeat(b, lo, Some(lo + k))))
  {
    hide Budget, Steps, Size, StepsCopies, SizeCopies, SizeQuests, Nodes;
    var n, s, t := Nodes(b), Size(b), Steps(b);
    assert Steps(Repeat(b, lo, Some(lo + k))) == 1 + lo * t + (k * t + k) by {
      RepeatSteps(b, lo, Some(lo + k));
      CopiesLinear(b, lo, 0);
      CopiesLinear(b, k, 1);
      assert k * (t + 1) == k * t + k;
    }
    assert Size(Repeat(b, lo, Some(lo + k))) == lo * s + (k * s + k) by {
      RepeatSize(b, lo, Some(lo + k));
      SizesLinear(b, lo);
      SizesLinear(b, k);
    }
    ClosedCopies(lo, k, t, n, s);
  }

  lemma ClosedCopies(lo: nat, k: nat, t: nat, n: nat, s: nat)
    requires s > 0 && t <= Budget(n, s)
    ensures 1 + lo * t + (k * t + k) <= Budget(n + 1, lo * s + (k * s + k))
  {
    hide Budget;
    CopiesBudget(lo, t, n, s);
    CopiesBudget(k, t, n, s);
    ProductUp(k, 1, s);
    ClosedSum(n, lo * s, k * s, k);
  }

  lemma OpenSum(n: nat, x: nat, y: nat)
    ensures 2 + 2 * n * x + 2 * n * y <= Budget(n + 1, x + (y + 2))
  {
    Spread(n, x, y, 2);
  }

  lemma ClosedSum(n: nat, x: nat, y: nat, k: nat)
    requires k <= y
    ensures 1 + 2 * n * x + (2 * n * y + k) <= Budget(n + 1, x + (y + k))
  {
    Spread(n, x, y, k);
  }

  lemma Spread(n: nat, x: nat, y: nat, k: nat)
    ensures 2 * (n + 1) * (x + (y + k)) == 2 * n * x + 2 * n * y + 2 * n * k + 2 * x + 2 * y + 2 * k
  {
  }

  // ----- what may be spent while `grown` instructions are emitted -----

  function Spend(nodes: nat, grown: nat): nat {
    2 * nodes * (1 + grown)
  }

  lemma SpendUp(n: nat, m: nat, g: nat, h: nat)
    requires n <= m && g <= h
    ensures Spend(n, g) <= Spend(m, h) && (n < m ==> Spend(n, g) + 2 <= Spend(m, h))
  {
    ProductUp(2 * n, 1 + g, 1 + h);
    assert 2 * m * (1 + h) == 2 * n * (1 + h) + 2 * (m - n) * (1 + h);
    if n < m { ProductUp(1 + h, 1, m - n); }
  }

  lemma SpendSum(p: nat, n: nat, g: nat, h: nat)
    ensures Spend(p, g) + Spend(n, h) <= Spend(p + n, g + h)
  {
    SpendUp(p, p, g, g + h);
    SpendUp(n, n, h, g + h);
    assert 2 * (p + n) * (1 + (g + h)) == 2 * p * (1 + (g + h)) + 2 * n * (1 + (g + h));
  }

  /** A pattern that fits is within what its own code allows. */
  lemma FitsSpend(a: Ast)
    requires Thrifty(a) && WellFormed(a)
    ensures Steps(a) <= Spend(Nodes(a), Size(a))
  {
    ThriftySteps(a);
    ProductUp(2 * Nodes(a), if Size(a) == 0 then 1 else Size(a), 1 + Size(a));
  }

  /** What copies that emit code spend: nothing beyond their instructions. */
  function Paid(nodes: nat, grown: nat): nat {
    2 * nodes * grown
  }

  lemma PaidNothing(nodes: nat)
    ensures Paid(nodes, 0) == 0
  {
  }

  lemma PaidCopy(nodes: nat, grown: nat, steps: nat, size: nat)
    requires size > 0 && steps <= Budget(nodes, size)
    ensures Paid(nodes, grown) + steps <= Paid(nodes, grown + size)
    ensures Paid(nodes + 1, grown) + (steps + 1) <= Paid(nodes + 1, grown + (size + 1))
  {
    assert 2 * nodes * (grown + size) == 2 * nodes * grown + 2 * nodes * size;
    var n := nodes + 1;
    assert 2 * n * (grown + (size + 1)) == 2 * n * grown + 2 * n * (size + 1);
    assert 2 * n * (size + 1) == 2 * nodes * size + 2 * nodes + 2 * size + 2;
  }

  /** Copies done and one more refused or accepted. */
  lemma PaidAndMore(nodes: nat, grown: nat, g: nat)
    ensures Paid(nodes, grown) + Spend(nodes, g) <= Spend(nodes, grown + g)
    ensures Paid(nodes, grown) <= Spend(nodes, grown)
  {
    assert 2 * nodes * (1 + (grown + g)) == 2 * nodes * grown + 2 * nodes * (1 + g);
    ProductUp(2 * nodes, grown, 1 + grown);
  }

  // ----- the condition is exact -----

  ghost predicate WithinBudget(a: Ast) {
    Steps(a) <= Budget(Nodes(a), Size(a))
  }

  /**
   * Every repeat of `b` that the parser lets through stays within the budget iff `b` emits code, or
   * has so many nodes for the calls it takes that even the largest count stays within it.
   */
  lemma RepeatExact(b: Ast)
    requires Thrifty(b) && WellFormed(b)
    ensures (forall lo: nat, hi :: Bounded(lo, hi) ==> WithinBudget(Repeat(b, lo, hi))) <==>
      Size(b) > 0 || 1 + MAX_REPEAT * Steps(b) <= 2 * (Nodes(b) + 2)
  {
    hide Steps, Size, Budget, Nodes;
    ThriftySteps(b);
    if Size(b) > 0 {
      forall lo: nat, hi | Bounded(lo, hi) ensures WithinBudget(Repeat(b, lo, hi)) {
        ThriftyRepeat(b, lo, hi);
        RepeatNodes(b, lo, hi);
        BudgetUp(Nodes(b) + 1, Size(Repeat(b, lo, hi)), Size(Repeat(b, lo, hi)));
      }
    } else if 1 + MAX_REPEAT * Steps(b) <= 2 * (Nodes(b) + 2) {
      forall lo: nat, hi | Bounded(lo, hi) ensures WithinBudget(Repeat(b, lo, hi)) {
        CheapRepeat(b, lo, hi);
      }
    } else {
      Overrun(b);
      assert Bounded(MAX_REPEAT, Some(MAX_REPEAT));
    }
  }

  /** Copies of a body that emits nothing, when the nodes outweigh the largest count. */
  lemma CheapRepeat(b: Ast, lo: nat, hi: Option<nat>)
    requires Size(b) == 0 && Bounded(lo, hi) && 1 + MAX_REPEAT * Steps(b) <= 2 * (Nodes(b) + 2)
    ensures WithinBudget(Repeat(b, lo, hi))
  {
    hide Budget, Steps, Size, StepsCopies, SizeCopies, SizeQuests, Nodes;
    var t, k := Steps(b), if hi.None? then 0 else hi.value - lo;
    RepeatNodes(b, lo, hi);
    RepeatSteps(b, lo, hi);
    RepeatSize(b, lo, hi);
    CopiesLinear(b, lo, 0);
    CopiesLinear(b, k, 1);
    SizesLinear(b, lo);
    SizesLinear(b, k);
    ProductUp(t, lo + k, MAX_REPEAT);
    CheapSum(t, lo, k, Nodes(b) + 2, hi.None?);
  }

  lemma CheapSum(t: nat, lo: nat, k: nat, n: nat, open: bool)
    requires t >= 1 && t * (lo + k) <= t * MAX_REPEAT && 1 + MAX_REPEAT * t <= 2 * n
    ensures open && k == 0 ==> 2 + lo * t + t <= Budget(n, 2)
    ensures 1 + lo * t + k * (t + 1) <= Budget(n, k)
  {
    assert t * (lo + k) == lo * t + k * t && k * (t + 1) == k * t + k;
    if k > 0 {
      OneMore(k, 2 * n);
      ProductUp(k - 1, 2, 2 * n);
    }
  }

  function Counted(b: Ast, n: nat): Ast {
    Repeat(b, n, Some(n))
  }

  lemma CountedSize(b: Ast, n: nat)
    ensures Size(Counted(b, n)) == n * Size(b) && Steps(Counted(b, n)) == 1 + n * Steps(b)
  {
    hide Size, Steps, SizeCopies, SizeQuests, StepsCopies;
    RepeatSize(b, n, Some(n));
    RepeatSteps(b, n, Some(n));
    CopiesLinear(b, n, 0);
    CopiesSteps(b, 0, 1);
    SizesLinear(b, n);
    SizesLinear(b, 0);
  }

  lemma Overrun(b: Ast)
    requires Size(b) == 0 && 1 + MAX_REPEAT * Steps(b) > 2 * (Nodes(b) + 2)
    ensures !WithinBudget(Counted(b, MAX_REPEAT))
  {
    hide Steps, Size;
    CountedSize(b, MAX_REPEAT);
  }

  /** `(((){1000}){1000})...`: no code at all, and a thousandfold more work with every pair of parentheses. */
  function Nest(d: nat): Ast {
    if d == 0 then Empty else Counted(Nest(d - 1), MAX_REPEAT)
  }

  function Power(b: nat, e: nat): nat {
    if e == 0 then 1 else b * Power(b, e - 1)
  }

  lemma {:induction false} EmptyNest(d: nat)
    ensures Size(Nest(d)) == 0 && Nodes(Nest(d)) == 2 * d + 1 && Steps(Nest(d)) >= Power(1000, d)
    decreases d
  {
    hide Steps, Size;
    if d == 0 {
      EmptySize();
    } else {
      EmptyNest(d - 1);
      CountedSize(Nest(d - 1), MAX_REPEAT);
      ProductUp(1000, Power(1000, d - 1), Steps(Nest(d - 1)));
    }
  }

  lemma EmptySize()
    ensures Size(Empty) == 0
  {
  }
}
