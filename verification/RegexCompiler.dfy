/** The back-patching compiler of src/regex.rs, from a pattern to Split/Jmp code. */
module RegexCompiler {
  import opened Wrappers
  import opened RegexAst
  import opened RegexCode
  import opened RegexWork

  class Compiler {
    var prog: seq<Inst>
    ghost var calls: nat

    constructor (prefix: seq<Inst>)
      ensures prog == prefix && calls == 0
    {
      prog, calls := prefix, 0;
    }

    /** The calls since then: at most `steps`, and exactly that many if nothing was refused. */
    twostate predicate Took(steps: nat, ok: bool)
      reads this
    {
      |old(prog)| <= |prog| && old(calls) <= calls <= old(calls) + steps && (ok ==> calls == old(calls) + steps)
    }

    /** Refused or not, the program hardly passes the cap. */
    twostate predicate Capped(ok: bool)
      reads this
    {
      |old(prog)| <= MAX_PROG + 1 ==> |prog| <= MAX_PROG + 2 && (ok ==> |prog| <= MAX_PROG + 1)
    }

    /** Fitting or refused, the calls since then are paid for by nodes times emitted instructions. */
    twostate predicate Frugal(nodes: nat)
      reads this
    {
      |old(prog)| <= |prog| && calls <= old(calls) + Spend(nodes, |prog| - |old(prog)|)
    }

    /** Succeeds exactly when the emitted code fits, and then appends that code. */
    method Compile(ast: Ast) returns (ok: bool)
      modifies this
      ensures ok <==> |old(prog)| + Size(ast) <= MAX_PROG
      ensures ok ==> prog == old(prog) + Emit(ast, |old(prog)|)
      ensures Took(Steps(ast), ok)
      ensures Thrifty(ast) && WellFormed(ast) ==> Frugal(Nodes(ast))
      ensures |prog| <= MAX_PROG + 2 || prog == old(prog)
      decreases Height(ast), 2
    {
      hide Spend, Emit, Size, Steps, Nodes, Thrifty, WellFormed;
      if Thrifty(ast) && WellFormed(ast) { FitsSpend(ast); }
      calls := calls + 1;
      if |prog| > MAX_PROG {
        SpendUp(0, Nodes(ast), 0, 0);
        return false;
      }
      ok := CompileNode(ast);
      if !ok {
        SpendUp(Nodes(ast) - 1, Nodes(ast), |prog| - |old(prog)|, |prog| - |old(prog)|);
        return;
      }
      ok := |prog| <= MAX_PROG;
    }

    /** The code of one node, its parts compiled in turn. */
    method CompileNode(ast: Ast) returns (ok: bool)
      modifies this
      ensures ok ==> prog == old(prog) + Emit(ast, |old(prog)|)
      ensures !ok ==> |old(prog)| + Size(ast) > MAX_PROG
      ensures Took(Steps(ast) - 1, ok)
      ensures !ok && Thrifty(ast) && WellFormed(ast) ==> Frugal(Nodes(ast) - 1)
      ensures |old(prog)| <= MAX_PROG ==> |prog| <= MAX_PROG + 2
      decreases Height(ast), 1
    {
      hide Spend, Emit, Size, Steps, Nodes, Thrifty, WellFormed, Height;
      Unfolded(ast, |prog|);
      ok := true;
      match ast {
      case Empty => assert prog == prog + [];
      case Char(c) => prog := prog + [IChar(c)];
      case Any => prog := prog + [IAny];
      case Class(items, negated) => prog := prog + [IClass(items, negated)];
      case Start => prog := prog + [IStart];
      case End => prog := prog + [IEnd];
      case Concat(v) => ok := CompileConcat(v);
      case Alt(v) => ok := CompileAlt(v);
      case Star(b) => ok := CompileStar(b);
      case Plus(b) => ok := CompilePlus(b);
      case Quest(b) => ok := CompileQuest(b);
      case Repeat(b, lo, hi) => ok := CompileRepeat(b, lo, hi);
      }
    }

    method CompileStar(b: Ast) returns (ok: bool)
      modifies this
      ensures ok ==> prog == old(prog) + EmitStar(b, |old(prog)|)
      ensures !ok ==> |old(prog)| + 1 + Size(b) > MAX_PROG
      ensures Took(Steps(b), ok)
      ensures Thrifty(b) && WellFormed(b) ==> Frugal(Nodes(b))
      ensures Capped(ok)
      decreases Height(b), 3
    {
      hide Emit, Size, Steps, Spend, Thrifty, WellFormed, Nodes;
      ghost var was := prog;
      var l1 := |prog|;
      prog := prog + [Split(0, 0)];
      var body := |prog|;
      ok := Compile(b);
      SpendUp(Nodes(b), Nodes(b), |prog| - body, |prog| - l1);
      if !ok { return; }
      SpendUp(Nodes(b), Nodes(b), |prog| - body, |prog| + 1 - l1);
      prog := prog + [Jmp(l1)];
      var l3 := |prog|;
      assert prog == was + [Split(0, 0)] + (Emit(b, body) + [Jmp(l1)]);
      PatchAfter(was, Split(0, 0), Emit(b, body) + [Jmp(l1)], Split(body, l3));
      prog := prog[l1 := Split(body, l3)];
    }

    method CompilePlus(b: Ast) returns (ok: bool)
      modifies this
      ensures ok ==> prog == old(prog) + EmitPlus(b, |old(prog)|)
      ensures !ok ==> |old(prog)| + Size(b) > MAX_PROG
      ensures Took(Steps(b), ok)
      ensures Thrifty(b) && WellFormed(b) ==> Frugal(Nodes(b))
      ensures Capped(ok)
      decreases Height(b), 3
    {
      hide Emit, Size, Steps, Spend, Thrifty, WellFormed, Nodes;
      ghost var was := prog;
      var l1 := |prog|;
      ok := Compile(b);
      if !ok { return; }
      SpendUp(Nodes(b), Nodes(b), |prog| - l1, |prog| + 1 - l1);
      var split := |prog|;
      prog := prog + [Split(0, 0)];
      var l3 := |prog|;
      prog := prog[split := Split(l1, l3)];
      assert prog == was + (Emit(b, l1) + [Split(l1, l3)]);
    }

    method CompileQuest(b: Ast) returns (ok: bool)
      modifies this
      ensures ok ==> prog == old(prog) + EmitQuest(b, |old(prog)|)
      ensures !ok ==> |old(prog)| + 1 + Size(b) > MAX_PROG
      ensures Took(Steps(b), ok)
      ensures Thrifty(b) && WellFormed(b) ==> Frugal(Nodes(b))
      ensures Capped(ok)
      decreases Height(b), 3
    {
      hide Emit, Size, Steps, Spend, Thrifty, WellFormed, Nodes;
      ghost var was := prog;
      var split := |prog|;
      prog := prog + [Split(0, 0)];
      var l1 := |prog|;
      ok := Compile(b);
      SpendUp(Nodes(b), Nodes(b), |prog| - l1, |prog| - split);
      if !ok { return; }
      var l2 := |prog|;
      PatchAfter(was, Split(0, 0), Emit(b, l1), Split(l1, l2));
      prog := prog[split := Split(l1, l2)];
    }

    method CompileRepeat(b: Ast, lo: nat, hi: Option<nat>) returns (ok: bool)
      modifies this
      ensures ok ==> prog == old(prog) + EmitRepeat(b, lo, hi, |old(prog)|)
      ensures !ok ==> |old(prog)| + Size(Repeat(b, lo, hi)) > MAX_PROG
      ensures Took(Steps(Repeat(b, lo, hi)) - 1, ok)
      ensures Thrifty(Repeat(b, lo, hi)) && WellFormed(Repeat(b, lo, hi)) ==> Frugal(Nodes(b) + 1)
      ensures Capped(ok)
      decreases Height(b) + 1, 4
    {
      hide EmitCopies, EmitQuests, EmitStar, Emit, Size, SizeCopies, SizeQuests, Steps, StepsCopies, Spend, Thrifty,
        WellFormed, Nodes, Budget;
      ghost var was := prog;
      RepeatThrifty(b, lo, hi);
      ghost var thrifty := Thrifty(Repeat(b, lo, hi)) && WellFormed(Repeat(b, lo, hi));
      RepeatSize(b, lo, hi);
      RepeatSteps(b, lo, hi);
      NodeSteps(b);
      ok := CompileCopies(b, lo);
      if !ok {
        SpendUp(Nodes(b), Nodes(b) + 1, |prog| - |was|, |prog| - |was|);
        return;
      }
      ghost var mid, spent := prog, calls;
      if hi.None? {
        NodeEmit(b, |mid|);
        ok := Compile(Star(b));
        if thrifty { AfterCopies(b, lo, |prog| - |mid|, calls - spent); }
        JoinCode(was, EmitCopies(b, lo, |was|), EmitStar(b, |mid|));
      } else {
        ok := CompileQuests(b, lo, hi.value);
        if thrifty { AfterCopies(b, lo, |prog| - |mid|, calls - spent); }
        JoinCode(was, EmitCopies(b, lo, |was|), EmitQuests(b, hi.value - lo, |mid|));
      }
    }

    method CompileConcat(v: seq<Ast>) returns (ok: bool)
      modifies this
      ensures ok ==> prog == old(prog) + EmitAll(v, |old(prog)|)
      ensures !ok ==> |old(prog)| + SizeAll(v) > MAX_PROG
      ensures Took(StepsAll(v), ok)
      ensures AllThrifty(v) ==> Frugal(NodesAll(v))
      ensures Capped(ok)
      decreases HeightAll(v) + 1, 0
    {
      hide Emit, Size, Height, Steps, Spend, Thrifty, WellFormed, Nodes, NodesAll, StepsAll, AllThrifty;
      NothingSpent(|prog|);
      NodesFirst(v);
      ghost var target := prog + EmitAll(v, |prog|);
      for k := 0 to |v|
        invariant prog + EmitAll(v[k..], |prog|) == target && |old(prog)| <= |prog|
        invariant |old(prog)| <= MAX_PROG + 1 ==> |prog| <= MAX_PROG + 1
        invariant old(calls) <= calls && calls + StepsAll(v[k..]) == old(calls) + StepsAll(v)
        invariant NodesAll(v[k..]) <= NodesAll(v)
        invariant AllThrifty(v) ==> Frugal(NodesAll(v) - NodesAll(v[k..]))
      {
        HeightAt(v, k);
        ghost var before, spent := prog, calls;
        ghost var done := NodesAll(v) - NodesAll(v[k..]);
        assert v[k..][0] == v[k] && v[k..][1..] == v[k + 1..];
        PartsAt(v, k);
        ok := Compile(v[k]);
        if AllThrifty(v) {
          PaidStep(old(calls), spent, calls, done, Nodes(v[k]), NodesAll(v), |before| - |old(prog)|, |prog| - |before|);
        }
        if !ok { return; }
        JoinCode(before, Emit(v[k], |before|), EmitAll(v[k + 1..], |prog|));
      }
      ok := true;
      assert prog == target by { assert v[|v|..] == []; }
    }

    method CompileAlt(v: seq<Ast>) returns (ok: bool)
      modifies this
      ensures ok ==> prog == old(prog) + EmitAlt(v, |old(prog)|)
      ensures !ok ==> |old(prog)| + SizeAlt(v) > MAX_PROG
      ensures Took(StepsAll(v), ok)
      ensures AllThrifty(v) ==> Frugal(NodesAll(v))
      ensures Capped(ok)
      decreases HeightAll(v) + 1, 0
    {
      hide Spend, Thrifty, WellFormed, Nodes, Size, Emit, Steps, Height, NodesAll, StepsAll, AllThrifty, EmitAlt,
        SizeAlt, Patched, Below;
      NothingSpent(|prog|);
      NodesFirst(v);
      NothingPatched(prog, |prog| + SizeAlt(v));
      var jmps: seq<nat> := [];
      ghost var finish := |prog| + SizeAlt(v);
      ghost var target := prog + EmitAlt(v, |prog|);
      for k := 0 to |v|
        invariant Below(jmps, |prog|)
        invariant |prog| + SizeAlt(v[k..]) == finish
        invariant |old(prog)| <= MAX_PROG + 1 ==> |prog| <= MAX_PROG + 1
        invariant old(calls) <= calls && calls + StepsAll(v[k..]) == old(calls) + StepsAll(v)
        invariant |old(prog)| <= |prog| && NodesAll(v[k..]) <= NodesAll(v)
        invariant AllThrifty(v) ==> Frugal(NodesAll(v) - NodesAll(v[k..]))
        invariant Patched(prog, jmps, finish) + EmitAlt(v[k..], |prog|) == target
      {
        HeightAt(v, k);
        ghost var before, spent := prog, calls;
        ghost var done := NodesAll(v) - NodesAll(v[k..]);
        assert v[k..][0] == v[k] && v[k..][1..] == v[k + 1..];
        PartsAt(v, k);
        ok, jmps := CompileAlternative(v[k..], jmps, finish);
        if AllThrifty(v) {
          PaidStep(old(calls), spent, calls, done, Nodes(v[k]), NodesAll(v), |before| - |old(prog)|, |prog| - |before|);
        }
        if !ok { return; }
      }
      NoBranches(|prog|);
      AimJumps(jmps, |prog|);
      ok := true;
    }

    /** The first of the alternatives still to come. */
    method CompileAlternative(rest: seq<Ast>, jmps: seq<nat>, ghost finish: nat)
      returns (ok: bool, out: seq<nat>)
      requires rest != [] && Below(jmps, |prog|) && |prog| + SizeAlt(rest) == finish
      modifies this
      ensures !ok ==> finish > MAX_PROG
      ensures ok ==> Below(out, |prog|) && |prog| + SizeAlt(rest[1..]) == finish
      ensures ok ==>
        Patched(prog, out, finish) + EmitAlt(rest[1..], |prog|) ==
        old(Patched(prog, jmps, finish) + EmitAlt(rest, |prog|))
      ensures Took(Steps(rest[0]), ok)
      ensures Thrifty(rest[0]) && WellFormed(rest[0]) ==> Frugal(Nodes(rest[0]))
      ensures Capped(ok)
      decreases Height(rest[0]), 4
    {
      hide Emit, BranchHead, Size, Steps, Spend, Thrifty, WellFormed, Nodes, Patched;
      ghost var before := prog;
      if |rest| > 1 {
        ok := CompileBranch(rest[0]);
        if !ok { out := []; return; }
        EmitAltCons(rest, |before|, |prog|);
        PatchedBranch(before, BranchHead(rest[0], |before|), EmitAlt(rest[1..], |prog|), jmps, finish);
        out := jmps + [|prog| - 1];
      } else {
        out := jmps;
        ok := Compile(rest[0]);
        if !ok { return; }
        PatchedAppend(before, Emit(rest[0], |before|), jmps, finish);
        assert EmitAlt(rest[1..], |prog|) == [];
      }
    }

    method AimJumps(jmps: seq<nat>, end: nat)
      requires Below(jmps, |prog|)
      modifies `prog
      ensures prog == Patched(old(prog), jmps, end)
    {
      ghost var target := Patched(prog, jmps, end);
      for i := 0 to |jmps|
        invariant |prog| == |target|
        invariant Patched(prog, jmps[i..], end) == target
      {
        assert jmps[i..] == [jmps[i]] + jmps[i + 1..];
        prog := prog[jmps[i] := Jmp(end)];
      }
    }

    /** A branch that is not the last: its split is patched at once, its jump left for later. */
    method CompileBranch(a: Ast) returns (ok: bool)
      modifies this
      ensures ok ==> prog == old(prog) + (BranchHead(a, |old(prog)|) + [Jmp(0)])
      ensures !ok ==> |old(prog)| + 1 + Size(a) > MAX_PROG
      ensures Took(Steps(a), ok)
      ensures Thrifty(a) && WellFormed(a) ==> Frugal(Nodes(a))
      ensures Capped(ok)
      decreases Height(a), 3
    {
      hide Emit, Size, Steps, Spend, Thrifty, WellFormed, Nodes;
      ghost var was := prog;
      var split := |prog|;
      prog := prog + [Split(0, 0)];
      var l1 := |prog|;
      ok := Compile(a);
      SpendUp(Nodes(a), Nodes(a), |prog| - l1, |prog| - split);
      if !ok { return; }
      SpendUp(Nodes(a), Nodes(a), |prog| - l1, |prog| + 1 - split);
      prog := prog + [Jmp(0)];
      var l2 := |prog|;
      assert prog == was + [Split(0, 0)] + (Emit(a, l1) + [Jmp(0)]);
      PatchAfter(was, Split(0, 0), Emit(a, l1) + [Jmp(0)], Split(l1, l2));
      prog := prog[split := Split(l1, l2)];
      JoinCode([Split(l1, l2)], Emit(a, l1), [Jmp(0)]);
    }

    method CompileCopies(b: Ast, count: nat) returns (ok: bool)
      modifies this
      ensures ok ==> prog == old(prog) + EmitCopies(b, count, |old(prog)|)
      ensures !ok ==> |old(prog)| + SizeCopies(b, count) > MAX_PROG
      ensures Took(StepsCopies(b, count, 0), ok)
      ensures Thrifty(b) && WellFormed(b) && Size(b) > 0 ==> Frugal(Nodes(b))
      ensures Capped(ok)
      decreases Height(b) + 1, 0
    {
      hide Emit, Size, EmitCopies, SizeCopies, Steps, StepsCopies, Spend, Thrifty, WellFormed, Nodes, CopiesLeft,
        Afford;
      ghost var was := Progress(prog, calls);
      CopiesStart(b, count, was);
      for k := 0 to count
        invariant CopiesLeft(b, count, count - k, was, Progress(prog, calls))
        invariant Afford(b, 0, was, Progress(prog, calls))
      {
        ghost var before := Progress(prog, calls);
        ok := Compile(b);
        if !ok {
          CopyRefused(b, count, count - k, was, before, Progress(prog, calls));
          return;
        }
        CopyDone(b, count, count - k, was, before, Progress(prog, calls));
      }
      CopiesEnd(b, count, was, Progress(prog, calls));
      ok := true;
    }

    method CompileQuests(b: Ast, lo: nat, hi: nat) returns (ok: bool)
      modifies this
      ensures ok ==> prog == old(prog) + EmitQuests(b, hi - lo, |old(prog)|)
      ensures !ok ==> |old(prog)| + SizeQuests(b, hi - lo) > MAX_PROG
      ensures Took(StepsCopies(b, hi - lo, 1), ok)
      ensures Thrifty(b) && WellFormed(b) && Size(b) > 0 ==> Frugal(Nodes(b) + 1)
      ensures Capped(ok)
      decreases Height(b) + 1, 3
    {
      hide EmitQuests, EmitQuest, Emit, SizeQuests, Size, Steps, StepsCopies, Spend, Thrifty, WellFormed, Nodes,
        QuestsLeft, Afford;
      ghost var was, count := Progress(prog, calls), hi - lo;
      QuestsStart(b, count, was);
      QuestThrifty(b);
      NodeSteps(b);
      var k := lo;
      while k < hi
        invariant lo <= k <= hi || k == lo >= hi
        invariant QuestsLeft(b, count, hi - k, was, Progress(prog, calls))
        invariant Afford(b, 1, was, Progress(prog, calls))
      {
        ghost var before := Progress(prog, calls);
        NodeEmit(b, |prog|);
        ok := Compile(Quest(b));
        if !ok {
          QuestRefused(b, count, hi - k, was, before, Progress(prog, calls));
          return;
        }
        QuestDone(b, count, hi - k, was, before, Progress(prog, calls));
        k := k + 1;
      }
      QuestsEnd(b, count, hi - k, was, Progress(prog, calls));
      ok := true;
    }
  }

  // ----- copy after copy -----

  /** A program so far and the calls it took. */
  datatype Progress = Progress(prog: seq<Inst>, calls: nat)

  /** With `left` more copies the program and the calls are those of `count` copies. */
  predicate CopiesLeft(b: Ast, count: nat, left: nat, was: Progress, now: Progress) {
    && now.prog + EmitCopies(b, left, |now.prog|) == was.prog + EmitCopies(b, count, |was.prog|)
    && was.calls <= now.calls && now.calls + StepsCopies(b, left, 0) == was.calls + StepsCopies(b, count, 0)
  }

  predicate QuestsLeft(b: Ast, count: int, left: int, was: Progress, now: Progress) {
    && now.prog + EmitQuests(b, left, |now.prog|) == was.prog + EmitQuests(b, count, |was.prog|)
    && was.calls <= now.calls && now.calls + StepsCopies(b, left, 1) == was.calls + StepsCopies(b, count, 1)
  }

  /** Copies that emit code have paid for themselves, and the cap is hardly passed. */
  predicate Afford(b: Ast, more: nat, was: Progress, now: Progress) {
    && |was.prog| <= |now.prog| && (|was.prog| <= MAX_PROG + 1 ==> |now.prog| <= MAX_PROG + 1)
    && (Thrifty(b) && WellFormed(b) && Size(b) > 0 ==>
          now.calls <= was.calls + Paid(Nodes(b) + more, |now.prog| - |was.prog|))
  }

  lemma CopiesStart(b: Ast, count: nat, was: Progress)
    ensures CopiesLeft(b, count, count, was, was) && Afford(b, 0, was, was)
  {
    hide EmitCopies, StepsCopies, Thrifty, WellFormed, Nodes, Size;
    PaidNothing(Nodes(b));
  }

  lemma QuestsStart(b: Ast, count: int, was: Progress)
    ensures QuestsLeft(b, count, count, was, was) && Afford(b, 1, was, was)
  {
    hide EmitQuests, StepsCopies, Thrifty, WellFormed, Nodes, Size;
    PaidNothing(Nodes(b) + 1);
  }

  /** One more copy accepted: its code and its calls come on top. */
  lemma AffordNext(b: Ast, more: nat, was: Progress, before: Progress, now: Progress)
    requires Afford(b, more, was, before) && more <= 1
    requires |now.prog| == |before.prog| + Size(b) + more <= MAX_PROG && now.calls == before.calls + Steps(b) + more
    ensures Afford(b, more, was, now)
  {
    hide Thrifty, WellFormed, Nodes, Size, Steps, Paid, Budget;
    if Thrifty(b) && WellFormed(b) && Size(b) > 0 {
      ThriftySteps(b);
      PaidCopy(Nodes(b), |before.prog| - |was.prog|, Steps(b), Size(b));
    }
  }

  lemma CopyDone(b: Ast, count: nat, left: nat, was: Progress, before: Progress, now: Progress)
    requires left > 0 && CopiesLeft(b, count, left, was, before) && Afford(b, 0, was, before)
    requires now.prog == before.prog + Emit(b, |before.prog|) && |before.prog| + Size(b) <= MAX_PROG
    requires now.calls == before.calls + Steps(b)
    ensures CopiesLeft(b, count, left - 1, was, now) && Afford(b, 0, was, now)
  {
    hide Afford, Emit, EmitCopies, Steps, StepsCopies, Size, SizeCopies;
    CopiesEmit(b, left, |before.prog|);
    CopiesSteps(b, left, 0);
    JoinCode(before.prog, Emit(b, |before.prog|), EmitCopies(b, left - 1, |now.prog|));
    AffordNext(b, 0, was, before, now);
  }

  lemma QuestDone(b: Ast, count: int, left: int, was: Progress, before: Progress, now: Progress)
    requires left > 0 && QuestsLeft(b, count, left, was, before) && Afford(b, 1, was, before)
    requires now.prog == before.prog + EmitQuest(b, |before.prog|) && |before.prog| + Size(b) + 1 <= MAX_PROG
    requires now.calls == before.calls + 1 + Steps(b)
    ensures QuestsLeft(b, count, left - 1, was, now) && Afford(b, 1, was, now)
  {
    hide Afford, Emit, EmitQuest, EmitQuests, Steps, StepsCopies, Size, SizeQuests;
    QuestsEmit(b, left, |before.prog|);
    CopiesSteps(b, left, 1);
    JoinCode(before.prog, EmitQuest(b, |before.prog|), EmitQuests(b, left - 1, |now.prog|));
    AffordNext(b, 1, was, before, now);
  }

  /** What a refusal leaves: too much code, no more calls than all copies take, and all of them paid for. */
  predicate Refused(b: Ast, more: nat, total: nat, steps: nat, was: Progress, now: Progress) {
    && |was.prog| + total > MAX_PROG && |was.prog| <= |now.prog|
    && was.calls <= now.calls <= was.calls + steps
    && (Thrifty(b) && WellFormed(b) && Size(b) > 0 ==>
          now.calls <= was.calls + Spend(Nodes(b) + more, |now.prog| - |was.prog|))
    && (|was.prog| <= MAX_PROG + 1 ==> |now.prog| <= MAX_PROG + 2)
  }

  lemma AffordRefused(b: Ast, more: nat, was: Progress, before: Progress, now: Progress)
    requires Afford(b, more, was, before) && |before.prog| <= |now.prog|
    requires Thrifty(b) && WellFormed(b) ==>
      now.calls <= before.calls + Spend(Nodes(b) + more, |now.prog| - |before.prog|)
    requires |now.prog| <= MAX_PROG + 2 || now.prog == before.prog
    ensures Thrifty(b) && WellFormed(b) && Size(b) > 0 ==>
      now.calls <= was.calls + Spend(Nodes(b) + more, |now.prog| - |was.prog|)
    ensures |was.prog| <= |now.prog| && (|was.prog| <= MAX_PROG + 1 ==> |now.prog| <= MAX_PROG + 2)
  {
    hide Thrifty, WellFormed, Nodes, Size, Paid, Spend;
    PaidAndMore(Nodes(b) + more, |before.prog| - |was.prog|, |now.prog| - |before.prog|);
  }

  lemma CopyRefused(b: Ast, count: nat, left: nat, was: Progress, before: Progress, now: Progress)
    requires left > 0 && CopiesLeft(b, count, left, was, before) && Afford(b, 0, was, before)
    requires |before.prog| <= |now.prog| && before.calls <= now.calls <= before.calls + Steps(b)
    requires Thrifty(b) && WellFormed(b) ==> now.calls <= before.calls + Spend(Nodes(b), |now.prog| - |before.prog|)
    requires |now.prog| <= MAX_PROG + 2 || now.prog == before.prog
    requires |before.prog| + Size(b) > MAX_PROG
    ensures Refused(b, 0, SizeCopies(b, count), StepsCopies(b, count, 0), was, now)
  {
    hide Afford, Emit, EmitCopies, Steps, StepsCopies, Size, SizeCopies, Spend, Nodes, Thrifty, WellFormed;
    CopiesEmit(b, left, |before.prog|);
    CopiesSteps(b, left, 0);
    AffordRefused(b, 0, was, before, now);
    Longer(before.prog, EmitCopies(b, left, |before.prog|), was.prog, EmitCopies(b, count, |was.prog|));
  }

  lemma Longer(a: seq<Inst>, c: seq<Inst>, d: seq<Inst>, e: seq<Inst>)
    requires a + c == d + e
    ensures |a| + |c| == |d| + |e|
  {
    assert |a + c| == |d + e|;
  }

  lemma QuestRefused(b: Ast, count: int, left: int, was: Progress, before: Progress, now: Progress)
    requires left > 0 && QuestsLeft(b, count, left, was, before) && Afford(b, 1, was, before)
    requires |before.prog| <= |now.prog| && before.calls <= now.calls <= before.calls + 1 + Steps(b)
    requires Thrifty(b) && WellFormed(b) ==>
      now.calls <= before.calls + Spend(Nodes(b) + 1, |now.prog| - |before.prog|)
    requires |now.prog| <= MAX_PROG + 2 || now.prog == before.prog
    requires |before.prog| + Size(b) + 1 > MAX_PROG
    ensures Refused(b, 1, SizeQuests(b, count), StepsCopies(b, count, 1), was, now)
  {
    hide Afford, Emit, EmitQuest, EmitQuests, Steps, StepsCopies, Size, SizeQuests, Spend, Nodes, Thrifty, WellFormed;
    QuestsEmit(b, left, |before.prog|);
    CopiesSteps(b, left, 1);
    AffordRefused(b, 1, was, before, now);
    Longer(before.prog, EmitQuests(b, left, |before.prog|), was.prog, EmitQuests(b, count, |was.prog|));
  }

  /** What all copies leave. */
  predicate Accepted(b: Ast, more: nat, code: seq<Inst>, steps: nat, was: Progress, now: Progress) {
    && now.prog == was.prog + code && now.calls == was.calls + steps
    && (Thrifty(b) && WellFormed(b) && Size(b) > 0 ==>
          now.calls <= was.calls + Spend(Nodes(b) + more, |now.prog| - |was.prog|))
    && (|was.prog| <= MAX_PROG + 1 ==> |now.prog| <= MAX_PROG + 1)
  }

  lemma AffordEnd(b: Ast, more: nat, was: Progress, now: Progress)
    requires Afford(b, more, was, now)
    ensures Thrifty(b) && WellFormed(b) && Size(b) > 0 ==>
      now.calls <= was.calls + Spend(Nodes(b) + more, |now.prog| - |was.prog|)
    ensures |was.prog| <= MAX_PROG + 1 ==> |now.prog| <= MAX_PROG + 1
  {
    hide Thrifty, WellFormed, Nodes, Size, Paid, Spend;
    PaidAndMore(Nodes(b) + more, |now.prog| - |was.prog|, 0);
  }

  lemma CopiesEnd(b: Ast, count: nat, was: Progress, now: Progress)
    requires CopiesLeft(b, count, 0, was, now) && Afford(b, 0, was, now)
    ensures Accepted(b, 0, EmitCopies(b, count, |was.prog|), StepsCopies(b, count, 0), was, now)
  {
    hide Afford, EmitCopies, StepsCopies, Spend, Nodes, Thrifty, WellFormed, Size;
    CopiesEmit(b, 0, |now.prog|);
    CopiesSteps(b, 0, 0);
    AffordEnd(b, 0, was, now);
  }

  lemma QuestsEnd(b: Ast, count: int, left: int, was: Progress, now: Progress)
    requires left <= 0 && QuestsLeft(b, count, left, was, now) && Afford(b, 1, was, now)
    ensures Accepted(b, 1, EmitQuests(b, count, |was.prog|), StepsCopies(b, count, 1), was, now)
  {
    hide Afford, EmitQuests, StepsCopies, Spend, Nodes, Thrifty, WellFormed, Size;
    QuestsEmit(b, left, |now.prog|);
    CopiesSteps(b, left, 1);
    AffordEnd(b, 1, was, now);
  }

  // ----- one node at a time -----

  predicate AllThrifty(v: seq<Ast>) {
    forall k :: 0 <= k < |v| ==> Thrifty(v[k]) && WellFormed(v[k])
  }

  /** What the parts of a node have to do with the node. */
  lemma Unfolded(a: Ast, base: nat)
    ensures CodeParts(a, base) && HeightParts(a) && NodeParts(a)
  {
    hide SizeAll, SizeAlt, StepsAll, StepsCopies, SizeCopies, SizeQuests;
  }

  predicate CodeParts(a: Ast, base: nat) {
    match a
    case Empty => Size(a) == 0 && Emit(a, base) == [] && Steps(a) == 1
    case Char(c) => Emit(a, base) == [IChar(c)] && Size(a) == 1 && Steps(a) == 1
    case Any => Emit(a, base) == [IAny] && Size(a) == 1 && Steps(a) == 1
    case Class(items, negated) => Emit(a, base) == [IClass(items, negated)] && Size(a) == 1 && Steps(a) == 1
    case Start => Emit(a, base) == [IStart] && Size(a) == 1 && Steps(a) == 1
    case End => Emit(a, base) == [IEnd] && Size(a) == 1 && Steps(a) == 1
    case Concat(v) => Emit(a, base) == EmitAll(v, base) && Size(a) == SizeAll(v) && Steps(a) == 1 + StepsAll(v)
    case Alt(v) => Emit(a, base) == EmitAlt(v, base) && Size(a) == SizeAlt(v) && Steps(a) == 1 + StepsAll(v)
    case Star(b) => Emit(a, base) == EmitStar(b, base) && Size(a) == Size(b) + 2 && Steps(a) == 1 + Steps(b)
    case Plus(b) => Emit(a, base) == EmitPlus(b, base) && Size(a) == Size(b) + 1 && Steps(a) == 1 + Steps(b)
    case Quest(b) => Emit(a, base) == EmitQuest(b, base) && Size(a) == Size(b) + 1 && Steps(a) == 1 + Steps(b)
    case Repeat(b, lo, hi) => Emit(a, base) == EmitRepeat(b, lo, hi, base) && Steps(a) >= 1
  }

  predicate HeightParts(a: Ast) {
    match a
    case Concat(v) => Height(a) == HeightAll(v) + 1
    case Alt(v) => Height(a) == HeightAll(v) + 1
    case Star(b) => Height(a) == Height(b) + 1
    case Plus(b) => Height(a) == Height(b) + 1
    case Quest(b) => Height(a) == Height(b) + 1
    case Repeat(b, _, _) => Height(a) == Height(b) + 2
    case _ => true
  }

  predicate NodeParts(a: Ast) {
    match a
    case Concat(v) => Nodes(a) == NodesAll(v) + 1 && (Thrifty(a) && WellFormed(a) ==> AllThrifty(v))
    case Alt(v) => Nodes(a) == NodesAll(v) + 1 && (Thrifty(a) && WellFormed(a) ==> AllThrifty(v))
    case Star(b) => Nodes(a) == Nodes(b) + 1 && (Thrifty(a) && WellFormed(a) ==> Thrifty(b) && WellFormed(b))
    case Plus(b) => Nodes(a) == Nodes(b) + 1 && (Thrifty(a) && WellFormed(a) ==> Thrifty(b) && WellFormed(b))
    case Quest(b) => Nodes(a) == Nodes(b) + 1 && (Thrifty(a) && WellFormed(a) ==> Thrifty(b) && WellFormed(b))
    case Repeat(b, _, _) => Nodes(a) == Nodes(b) + 2
    case _ => Nodes(a) >= 1
  }

  lemma NothingPatched(prog: seq<Inst>, end: nat)
    ensures Patched(prog, [], end) == prog && Below([], |prog|)
  {
  }

  lemma NoBranches(base: nat)
    ensures EmitAlt([], base) == [] && SizeAlt([]) == 0
  {
  }

  lemma NodesFirst(v: seq<Ast>)
    ensures v[0..] == v && v[|v|..] == [] && NodesAll([]) == 0 && StepsAll([]) == 0
  {
  }

  lemma PartsAt(v: seq<Ast>, k: nat)
    requires k < |v|
    ensures NodesAll(v[k..]) == Nodes(v[k]) + NodesAll(v[k + 1..])
    ensures StepsAll(v[k..]) == Steps(v[k]) + StepsAll(v[k + 1..])
    ensures AllThrifty(v) ==> Thrifty(v[k]) && WellFormed(v[k])
  {
    hide Nodes, Steps, Thrifty, WellFormed;
    assert v[k..][0] == v[k] && v[k..][1..] == v[k + 1..];
  }

  /** One part after the others: together still within what their nodes may spend. */
  lemma PaidStep(c0: nat, c1: nat, c2: nat, p: nat, n: nat, total: nat, g: nat, h: nat)
    requires c1 <= c0 + Spend(p, g) && c2 <= c1 + Spend(n, h) && p + n <= total
    ensures c2 <= c0 + Spend(p + n, g + h) && c2 <= c0 + Spend(total, g + h)
  {
    hide Spend;
    SpendSum(p, n, g, h);
    SpendUp(p + n, total, g + h, g + h);
  }

  lemma NothingSpent(n: nat)
    ensures Spend(0, n - n) == 0
  {
  }

  lemma QuestThrifty(b: Ast)
    ensures Nodes(Quest(b)) == Nodes(b) + 1 && Thrifty(Quest(b)) == Thrifty(b) && WellFormed(Quest(b)) == WellFormed(b)
  {
  }

  lemma RepeatThrifty(b: Ast, lo: nat, hi: Option<nat>)
    ensures Nodes(Star(b)) == Nodes(b) + 1 && Thrifty(Star(b)) == Thrifty(b) && WellFormed(Star(b)) == WellFormed(b)
    ensures Thrifty(Repeat(b, lo, hi)) && WellFormed(Repeat(b, lo, hi)) ==>
      Thrifty(b) && WellFormed(b) && Size(b) > 0
  {
  }

  /** What follows the required copies. */
  lemma AfterCopies(b: Ast, lo: nat, g: nat, spent: nat)
    requires Thrifty(b) && WellFormed(b) && Size(b) > 0 && spent <= Spend(Nodes(b) + 1, g)
    ensures StepsCopies(b, lo, 0) + spent <= Spend(Nodes(b) + 1, SizeCopies(b, lo) + g)
  {
    hide Spend, Budget, Steps, Size, StepsCopies, SizeCopies, Nodes, Thrifty, WellFormed;
    ThriftySteps(b);
    CopiesLinear(b, lo, 0);
    SizesLinear(b, lo);
    var n, s := Nodes(b), Size(b);
    SpendCopies(n, lo * s, g, lo * Steps(b), spent, lo, Steps(b), s);
  }

  lemma SpendCopies(n: nat, x: nat, g: nat, done: nat, spent: nat, lo: nat, t: nat, s: nat)
    requires s > 0 && t <= Budget(n, s) && done == lo * t && x == lo * s && spent <= Spend(n + 1, g)
    ensures done + spent <= Spend(n + 1, x + g)
  {
    CopiesBudget(lo, t, n, s);
    assert 2 * (n + 1) * (1 + (x + g)) == 2 * (n + 1) * (1 + g) + 2 * n * x + 2 * x;
  }
}
