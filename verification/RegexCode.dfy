/** The Split/Jmp code of src/regex.rs that a pattern stands for, and what compiling it takes. */
module RegexCode {
  import opened Wrappers
  import opened RegexAst

  datatype Inst =
    | IChar(c: char)
    | IAny
    | IClass(items: seq<ClassItem>, negated: bool)
    | Split(x: nat, y: nat)
    | Jmp(x: nat)
    | IStart
    | IEnd
    | Match
    | MatchN(id: nat)

  const MAX_PROG: nat := 200_000

  // ----- the code a pattern stands for, as a function of the address it is placed at -----

  function Size(a: Ast): nat
    decreases a, 0
  {
    match a
    case Empty => 0
    case Concat(v) => SizeAll(v)
    case Alt(v) => SizeAlt(v)
    case Star(b) => Size(b) + 2
    case Plus(b) => Size(b) + 1
    case Quest(b) => Size(b) + 1
    case Repeat(b, lo, hi) =>
      SizeCopies(b, lo) +
      if hi.None? then Size(b) + 2 else SizeQuests(b, hi.value - lo)
    case _ => 1
  }

  function SizeAll(v: seq<Ast>): nat
    decreases v, 0
  {
    if v == [] then 0 else Size(v[0]) + SizeAll(v[1..])
  }

  function SizeAlt(v: seq<Ast>): nat
    decreases v, 0
  {
    if v == [] then 0 else if |v| == 1 then Size(v[0]) else Size(v[0]) + 2 + SizeAlt(v[1..])
  }

  function SizeCopies(b: Ast, k: nat): nat
    decreases b, 1 + k
  {
    if k == 0 then 0 else Size(b) + SizeCopies(b, k - 1)
  }

  function SizeQuests(b: Ast, k: int): nat
    decreases b, 1 + if k < 0 then 0 else k
  {
    if k <= 0 then 0 else Size(b) + 1 + SizeQuests(b, k - 1)
  }

  function Emit(a: Ast, base: nat): (code: seq<Inst>)
    ensures |code| == Size(a)
    decreases a, 0
  {
    match a
    case Empty => []
    case Char(c) => [IChar(c)]
    case Any => [IAny]
    case Class(items, negated) => [IClass(items, negated)]
    case Start => [IStart]
    case End => [IEnd]
    case Concat(v) => EmitAll(v, base)
    case Alt(v) => EmitAlt(v, base)
    case Star(b) => EmitStar(b, base)
    case Plus(b) => EmitPlus(b, base)
    case Quest(b) => EmitQuest(b, base)
    case Repeat(b, lo, hi) => EmitRepeat(b, lo, hi, base)
  }

  function EmitPlus(b: Ast, base: nat): (code: seq<Inst>)
    ensures |code| == Size(b) + 1
    decreases b, 1
  {
    Emit(b, base) + [Split(base, base + Size(b) + 1)]
  }

  /** The mandatory copies, then a star or the optional copies. */
  function EmitRepeat(b: Ast, lo: nat, hi: Option<nat>, base: nat): (code: seq<Inst>)
    ensures |code| == Size(Repeat(b, lo, hi))
    decreases b, 3 + lo + if hi.Some? then hi.value else 0
  {
    var mid := base + SizeCopies(b, lo);
    EmitCopies(b, lo, base) + if hi.None? then EmitStar(b, mid) else EmitQuests(b, hi.value - lo, mid)
  }

  function EmitStar(b: Ast, base: nat): (code: seq<Inst>)
    ensures |code| == Size(b) + 2
    decreases b, 1
  {
    [Split(base + 1, base + Size(b) + 2)] + (Emit(b, base + 1) + [Jmp(base)])
  }

  function EmitQuest(b: Ast, base: nat): (code: seq<Inst>)
    ensures |code| == Size(b) + 1
    decreases b, 1
  {
    [Split(base + 1, base + Size(b) + 1)] + Emit(b, base + 1)
  }

  function EmitAll(v: seq<Ast>, base: nat): (code: seq<Inst>)
    ensures |code| == SizeAll(v)
    decreases v, 0
  {
    if v == [] then [] else Emit(v[0], base) + EmitAll(v[1..], base + Size(v[0]))
  }

  function EmitAlt(v: seq<Ast>, base: nat): (code: seq<Inst>)
    ensures |code| == SizeAlt(v)
    decreases v, 0
  {
    if v == [] then []
    else if |v| == 1 then Emit(v[0], base)
    else
      (BranchHead(v[0], base) + [Jmp(base + SizeAlt(v))]) + EmitAlt(v[1..], base + Size(v[0]) + 2)
  }

  /** A branch that is not the last, up to the jump that leaves the alternation. */
  function BranchHead(a: Ast, base: nat): (head: seq<Inst>)
    ensures |head| == Size(a) + 1
    decreases a, 1
  {
    [Split(base + 1, base + Size(a) + 2)] + Emit(a, base + 1)
  }

  function EmitCopies(b: Ast, k: nat, base: nat): (code: seq<Inst>)
    ensures |code| == SizeCopies(b, k)
    decreases b, 1 + k
  {
    if k == 0 then [] else Emit(b, base) + EmitCopies(b, k - 1, base + Size(b))
  }

  function EmitQuests(b: Ast, k: int, base: nat): (code: seq<Inst>)
    ensures |code| == SizeQuests(b, k)
    decreases b, 2 + if k < 0 then 0 else k
  {
    if k <= 0 then [] else EmitQuest(b, base) + EmitQuests(b, k - 1, base + Size(b) + 1)
  }

  // ----- every jump target stays inside the fragment or at its end -----

  predicate TargetsWithin(inst: Inst, lo: nat, hi: nat) {
    match inst
    case Split(x, y) => lo <= x <= hi && lo <= y <= hi
    case Jmp(x) => lo <= x <= hi
    case _ => true
  }

  ghost predicate Closed(code: seq<Inst>, lo: nat, hi: nat) {
    forall t :: 0 <= t < |code| ==> TargetsWithin(code[t], lo, hi) && !code[t].Match? && !code[t].MatchN?
  }

  /** Neighbouring closed fragments make one closed fragment. */
  lemma ClosedJoin(c: seq<Inst>, d: seq<Inst>, lo: nat, m1: nat, m2: nat, hi: nat)
    requires Closed(c, lo, m1) && Closed(d, m2, hi)
    requires m1 <= hi && lo <= m2
    ensures Closed(c + d, lo, hi)
  {
  }

  lemma {:induction false} EmitClosed(a: Ast, base: nat)
    ensures Closed(Emit(a, base), base, base + Size(a))
    decreases a, 0
  {
    hide Closed;
    match a
    case Concat(v) => EmitAllClosed(v, base);
    case Alt(v) => EmitAltClosed(v, base);
    case Star(b) => EmitStarClosed(b, base);
    case Plus(b) => EmitPlusClosed(b, base);
    case Quest(b) => EmitQuestClosed(b, base);
    case Repeat(b, lo, hi) => EmitRepeatClosed(b, lo, hi, base);
    case _ => LeafClosed(a, base);
  }

  lemma LeafClosed(a: Ast, base: nat)
    requires a.Empty? || a.Char? || a.Any? || a.Class? || a.Start? || a.End?
    ensures Closed(Emit(a, base), base, base + Size(a))
  {
  }

  lemma {:induction false} EmitRepeatClosed(b: Ast, lo: nat, hi: Option<nat>, base: nat)
    ensures Closed(EmitRepeat(b, lo, hi, base), base, base + Size(Repeat(b, lo, hi)))
    decreases b, 3 + lo + if hi.Some? then hi.value else 0
  {
    hide Closed, Emit, EmitCopies, EmitStar, EmitQuests, SizeCopies, SizeQuests, Size;
    RepeatSize(b, lo, hi);
    var mid := base + SizeCopies(b, lo);
    EmitCopiesClosed(b, lo, base);
    if hi.None? {
      EmitStarClosed(b, mid);
      ClosedJoin(EmitCopies(b, lo, base), EmitStar(b, mid), base, mid, mid, mid + Size(b) + 2);
    } else {
      EmitQuestsClosed(b, hi.value - lo, mid);
      ClosedJoin(EmitCopies(b, lo, base), EmitQuests(b, hi.value - lo, mid), base, mid, mid,
                 mid + SizeQuests(b, hi.value - lo));
    }
  }

  lemma {:induction false} EmitPlusClosed(b: Ast, base: nat)
    ensures Closed(EmitPlus(b, base), base, base + Size(b) + 1)
    decreases b, 1
  {
    hide Emit, Size;
    EmitClosed(b, base);
  }

  lemma {:induction false} EmitStarClosed(b: Ast, base: nat)
    ensures Closed(EmitStar(b, base), base, base + Size(b) + 2)
    decreases b, 1
  {
    hide Emit, Size;
    EmitClosed(b, base + 1);
  }

  lemma {:induction false} EmitQuestClosed(b: Ast, base: nat)
    ensures Closed(EmitQuest(b, base), base, base + Size(b) + 1)
    decreases b, 1
  {
    hide Emit, Size;
    EmitClosed(b, base + 1);
  }

  lemma {:induction false} EmitAllClosed(v: seq<Ast>, base: nat)
    ensures Closed(EmitAll(v, base), base, base + SizeAll(v))
    decreases v, 0
  {
    if v != [] {
      var mid := base + Size(v[0]);
      EmitClosed(v[0], base);
      EmitAllClosed(v[1..], mid);
      ClosedJoin(Emit(v[0], base), EmitAll(v[1..], mid), base, mid, mid, base + SizeAll(v));
    }
  }

  lemma EmitAltCons(v: seq<Ast>, base: nat, next: nat)
    requires |v| > 1 && next == base + Size(v[0]) + 2
    ensures base + SizeAlt(v) == next + SizeAlt(v[1..])
    ensures EmitAlt(v, base) == (BranchHead(v[0], base) + [Jmp(base + SizeAlt(v))]) + EmitAlt(v[1..], next)
  {
  }

  lemma {:induction false} EmitAltClosed(v: seq<Ast>, base: nat)
    ensures Closed(EmitAlt(v, base), base, base + SizeAlt(v))
    decreases v, 0
  {
    hide Emit, Size;
    if |v| == 1 {
      EmitClosed(v[0], base);
    } else if |v| > 1 {
      var next, end := base + Size(v[0]) + 2, base + SizeAlt(v);
      var branch := BranchHead(v[0], base) + [Jmp(end)];
      assert Closed(branch, base, end) by { EmitClosed(v[0], base + 1); }
      EmitAltClosed(v[1..], next);
      EmitAltCons(v, base, next);
      ClosedJoin(branch, EmitAlt(v[1..], next), base, end, next, end);
    }
  }

  lemma {:induction false} EmitCopiesClosed(b: Ast, k: nat, base: nat)
    ensures Closed(EmitCopies(b, k, base), base, base + SizeCopies(b, k))
    decreases b, 1 + k
  {
    if k > 0 {
      var mid := base + Size(b);
      EmitClosed(b, base);
      EmitCopiesClosed(b, k - 1, mid);
      ClosedJoin(Emit(b, base), EmitCopies(b, k - 1, mid), base, mid, mid, base + SizeCopies(b, k));
    }
  }

  lemma {:induction false} EmitQuestsClosed(b: Ast, k: int, base: nat)
    ensures Closed(EmitQuests(b, k, base), base, base + SizeQuests(b, k))
    decreases b, 2 + if k < 0 then 0 else k
  {
    if k > 0 {
      var mid := base + Size(b) + 1;
      EmitQuestClosed(b, base);
      EmitQuestsClosed(b, k - 1, mid);
      ClosedJoin(EmitQuest(b, base), EmitQuests(b, k - 1, mid), base, mid, mid, base + SizeQuests(b, k));
    }
  }

  // ----- the compiler itself: placeholders pushed first, patched once the target is known -----

  /** Bounds the recursion of `Compile`, which rebuilds a repeat as stars and optionals. */
  function Height(a: Ast): nat
    decreases a, 0
  {
    match a
    case Concat(v) => 1 + HeightAll(v)
    case Alt(v) => 1 + HeightAll(v)
    case Star(b) => 1 + Height(b)
    case Plus(b) => 1 + Height(b)
    case Quest(b) => 1 + Height(b)
    case Repeat(b, _, _) => 2 + Height(b)
    case _ => 0
  }

  function HeightAll(v: seq<Ast>): nat
    decreases v, 0
  {
    if v == [] then 0
    else
      var h, t := Height(v[0]), HeightAll(v[1..]);
      if h > t then h else t
  }

  lemma {:induction false} HeightAt(v: seq<Ast>, k: nat)
    requires k < |v|
    ensures Height(v[k]) <= HeightAll(v)
    decreases v
  {
    if k > 0 { HeightAt(v[1..], k - 1); }
  }

  // ----- how much work compiling is -----

  /** The calls of `compile` a pattern takes when it fits. */
  function Steps(a: Ast): (r: nat)
    ensures r >= 1
    decreases a, 0
  {
    match a
    case Concat(v) => 1 + StepsAll(v)
    case Alt(v) => 1 + StepsAll(v)
    case Star(b) => 1 + Steps(b)
    case Plus(b) => 1 + Steps(b)
    case Quest(b) => 1 + Steps(b)
    case Repeat(b, lo, hi) =>
      1 + StepsCopies(b, lo, 0) + if hi.None? then 1 + Steps(b) else StepsCopies(b, hi.value - lo, 1)
    case _ => 1
  }

  function StepsAll(v: seq<Ast>): nat
    decreases v, 0
  {
    if v == [] then 0 else Steps(v[0]) + StepsAll(v[1..])
  }

  /** `k` copies, each under `extra` more nodes. */
  function StepsCopies(b: Ast, k: int, extra: nat): nat
    decreases b, 1 + if k < 0 then 0 else k
  {
    if k <= 0 then 0 else Steps(b) + extra + StepsCopies(b, k - 1, extra)
  }

  lemma RepeatSteps(b: Ast, lo: nat, hi: Option<nat>)
    ensures Steps(Repeat(b, lo, hi)) ==
      1 + StepsCopies(b, lo, 0) + if hi.None? then 1 + Steps(b) else StepsCopies(b, hi.value - lo, 1)
  {
  }

  lemma CopiesSteps(b: Ast, k: int, extra: nat)
    ensures StepsCopies(b, k, extra) == if k <= 0 then 0 else Steps(b) + extra + StepsCopies(b, k - 1, extra)
  {
  }

  lemma NodeSteps(b: Ast)
    ensures Steps(Star(b)) == 1 + Steps(b) && Steps(Quest(b)) == 1 + Steps(b)
  {
  }

  predicate Below(jmps: seq<nat>, n: nat) {
    forall k :: 0 <= k < |jmps| ==> jmps[k] < n
  }

  /** The program after every jump recorded in `jmps` is aimed at `end`. */
  function Patched(prog: seq<Inst>, jmps: seq<nat>, end: nat): (r: seq<Inst>)
    ensures |r| == |prog|
    ensures forall t :: 0 <= t < |r| ==> r[t] == if t in jmps then Jmp(end) else prog[t]
  {
    seq(|prog|, t requires 0 <= t < |prog| => if t in jmps then Jmp(end) else prog[t])
  }

  lemma PatchedAppend(prog: seq<Inst>, tail: seq<Inst>, jmps: seq<nat>, end: nat)
    requires Below(jmps, |prog|)
    ensures Patched(prog + tail, jmps, end) == Patched(prog, jmps, end) + tail
  {
  }

  /** A branch pushed with an unaimed jump is, once patched, the branch with its jump aimed. */
  lemma PatchedBranch(before: seq<Inst>, head: seq<Inst>, tail: seq<Inst>, jmps: seq<nat>, end: nat)
    requires Below(jmps, |before|)
    ensures Patched(before + (head + [Jmp(0)]), jmps + [|before| + |head|], end) + tail
         == Patched(before, jmps, end) + ((head + [Jmp(end)]) + tail)
  {
  }

  /** Patching a placeholder pushed right after `was` leaves the rest of the code in place. */
  lemma PatchAfter(was: seq<Inst>, hole: Inst, code: seq<Inst>, inst: Inst)
    ensures (was + [hole] + code)[|was| := inst] == was + ([inst] + code)
  {
  }

  /** One optional copy, then the rest. */
  lemma QuestsEmit(b: Ast, k: int, base: nat)
    ensures k <= 0 ==> EmitQuests(b, k, base) == []
    ensures k > 0 ==> EmitQuests(b, k, base) == EmitQuest(b, base) + EmitQuests(b, k - 1, base + |EmitQuest(b, base)|)
    ensures k > 0 ==> Size(b) + 1 <= SizeQuests(b, k)
  {
    hide Emit, EmitQuest, Size;
  }

  lemma CopiesEmit(b: Ast, k: nat, base: nat)
    ensures k == 0 ==> EmitCopies(b, k, base) == []
    ensures k > 0 ==> EmitCopies(b, k, base) == Emit(b, base) + EmitCopies(b, k - 1, base + Size(b))
    ensures k > 0 ==> Size(b) <= SizeCopies(b, k)
  {
    hide Emit, Size;
  }

  lemma NodeEmit(b: Ast, base: nat)
    ensures Emit(Quest(b), base) == EmitQuest(b, base) && Size(Quest(b)) == Size(b) + 1
    ensures Emit(Star(b), base) == EmitStar(b, base) && Size(Star(b)) == Size(b) + 2
  {
    hide EmitQuest, EmitStar;
  }

  lemma RepeatSize(b: Ast, lo: nat, hi: Option<nat>)
    ensures Size(Repeat(b, lo, hi)) ==
      SizeCopies(b, lo) + if hi.None? then Size(b) + 2 else SizeQuests(b, hi.value - lo)
  {
    hide SizeCopies, SizeQuests;
  }

  lemma JoinCode(was: seq<Inst>, c: seq<Inst>, d: seq<Inst>)
    ensures (was + c) + d == was + (c + d)
  {
  }
}
