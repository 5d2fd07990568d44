/** `Regex::new` and `Regex::is_match` of src/regex.rs: the compiled search decides the pattern. */
module Regex {
  import opened Wrappers
  import opened RegexAst
  import opened RegexCode
  import opened RegexWork
  import opened RegexCompiler
  import opened RegexMachine
  import opened RegexMatcher

  // ----- the program of a search -----

  /** `.*` in front lets a match begin later; `.` refuses a newline. */
  function ProgramOf(ast: Ast): (prog: seq<Inst>)
    ensures |prog| == Size(ast) + 4
  {
    EmitStar(Any, 0) + Emit(ast, 3) + [Match]
  }

  lemma ProgramSafe(ast: Ast)
    ensures Safe(ProgramOf(ast))
  {
    EmitClosed(ast, 3);
    var prog, body := ProgramOf(ast), Emit(ast, 3);
    forall pc | 0 <= pc < |prog| ensures SafeAt(prog, pc) {
      if 3 <= pc < |prog| - 1 {
        assert prog[pc] == body[pc - 3];
        assert TargetsWithin(body[pc - 3], 3, 3 + Size(ast));
      }
    }
  }

  /** Compile a parsed pattern behind the search prefix, or report that it is too large. */
  method NewRegex(ast: Ast) returns (r: Option<seq<Inst>>, ghost calls: nat)
    ensures r.Some? <==> Size(ast) + 3 <= MAX_PROG
    ensures r.Some? ==> r.value == ProgramOf(ast) && Safe(r.value)
    ensures r.Some? ==> calls == Steps(ast)
    ensures Thrifty(ast) && WellFormed(ast) ==> calls <= Spend(Nodes(ast), MAX_PROG)
  {
    var c := new Compiler([Split(1, 3), IAny, Jmp(0)]);
    assert c.prog == EmitStar(Any, 0);
    var ok := c.Compile(ast);
    calls := c.calls;
    SpendUp(Nodes(ast), Nodes(ast), |c.prog| - 3, MAX_PROG);
    if !ok { return None, calls; }
    ProgramSafe(ast);
    r := Some(c.prog + [Match]);
  }

  // ----- what the search means -----

  ghost predicate FoundAt(ast: Ast, s: string, i: nat, j: nat) {
    i <= j <= |s| && '\n' !in s[..i] && Matches(ast, s, i, j)
  }

  /** Some span of the text matches, and no newline precedes it. */
  ghost predicate Found(ast: Ast, s: string) {
    exists i: nat, j: nat :: FoundAt(ast, s, i, j)
  }

  /** A run of `.` is a stretch of text without newlines. */
  lemma {:induction false} DotsAreLine(dot: Ast, n: nat, s: string, h: nat, i: nat)
    requires dot == Any && h <= |s| && Copies(dot, n, s, h, i)
    ensures i == h + n && i <= |s| && '\n' !in s[h..i]
    decreases n
  {
    if n > 0 {
      var m: nat :| Matches(dot, s, h, m) && Copies(dot, n - 1, s, m, i);
      DotsAreLine(dot, n - 1, s, m, i);
      assert s[h..i] == [s[h]] + s[m..i];
    }
  }

  lemma {:induction false} LineIsDots(s: string, h: nat, i: nat)
    requires h <= i <= |s| && '\n' !in s[h..i]
    ensures Copies(Any, i - h, s, h, i)
    decreases i - h
  {
    if h < i {
      assert s[h..i] == [s[h]] + s[h + 1..i];
      LineIsDots(s, h + 1, i);
      assert Matches(Any, s, h, h + 1);
    }
  }

  lemma ProgramLayout(ast: Ast)
    ensures var prog := ProgramOf(ast);
      && CodeAt(prog, 0, EmitStar(Any, 0)) && CodeAt(prog, 3, Emit(ast, 3))
      && prog[3 + Size(ast)] == Match
  {
    var prog := ProgramOf(ast);
    assert prog == EmitStar(Any, 0) + (Emit(ast, 3) + [Match]);
    assert prog[0..|prog|] == prog;
    CodeAtParts(prog, 0, EmitStar(Any, 0), Emit(ast, 3) + [Match]);
    CodeAtParts(prog, 3, Emit(ast, 3), [Match]);
  }

  /** The compiled program accepts exactly the texts in which the pattern is found. */
  lemma AcceptsExactlyFound(ast: Ast, s: string)
    requires WellFormed(ast)
    ensures Acc(ProgramOf(ast), s, 0, 0) <==> Found(ast, s)
  {
    hide Emit, EmitStar, Matches, Copies, CodeAt, Size;
    var prog := ProgramOf(ast);
    ProgramLayout(ast);
    if Acc(prog, s, 0, 0) {
      var k: nat :| Accepts(prog, s, k, 0, 0);
      var i, left, n := SoundStar(prog, s, Any, 0, k, 0);
      var j, _ := Sound(prog, s, ast, 3, left, i);
      DotsAreLine(Any, n, s, 0, i);
      MatchSpan(ast, s, i, j);
      assert FoundAt(ast, s, i, j);
    }
    if Found(ast, s) {
      var i: nat, j: nat :| FoundAt(ast, s, i, j);
      assert Accepts(prog, s, 0, 3 + Size(ast), j);
      var k := Complete(prog, s, ast, 3, i, j, 0);
      LineIsDots(s, 0, i);
      k := CompleteStar(prog, s, Any, i, 0, 0, i, k);
    }
  }

  // ----- the simulation -----

  ghost function Marked(seen: array<nat>, gen: nat): set<nat>
    reads seen
  {
    set p: nat | p < seen.Length && seen[p] == gen
  }

  /** No stamp is newer than the current generation. */
  ghost predicate Stamped(seen: array<nat>, gen: nat)
    reads seen
  {
    forall p :: 0 <= p < seen.Length ==> seen[p] <= gen
  }

  /** `add_thread`: the iterative closure, against the recursive one; each visit pushes at most twice. */
  method AddThread(prog: seq<Inst>, list: seq<nat>, seen: array<nat>, gen: nat, start: nat, pos: nat, n: nat)
    returns (out: seq<nat>, ghost pops: nat)
    requires Safe(prog) && seen.Length == |prog| && start < |prog| && Stamped(seen, gen)
    modifies seen
    ensures Marked(seen, gen) <= Pcs(prog) && old(Marked(seen, gen)) <= Pcs(prog)
    ensures Threads(Marked(seen, gen), out)
         == Closure(prog, [start], Threads(old(Marked(seen, gen)), list), pos == 0, pos == n)
    ensures Stamped(seen, gen)
    ensures pops + 2 * |old(Marked(seen, gen))| <= 1 + 2 * |Marked(seen, gen)|
  {
    hide Closure, Safe, Pcs;
    out, pops := list, 0;
    var stack := [start];
    ghost var was, now := Marked(seen, gen), Marked(seen, gen);
    ghost var goal := Closure(prog, stack, Threads(was, list), pos == 0, pos == n);
    while stack != []
      invariant Below(stack, |prog|) && now == Marked(seen, gen) <= Pcs(prog)
      invariant Closure(prog, stack, Threads(now, out), pos == 0, pos == n) == goal
      invariant Stamped(seen, gen)
      invariant pops + |stack| + 2 * |was| <= 1 + 2 * |now|
      decreases |Pcs(prog) - now|, |stack|
    {
      var pc := stack[|stack| - 1];
      assert stack == stack[..|stack| - 1] + [pc];
      stack := stack[..|stack| - 1];
      pops := pops + 1;
      if seen[pc] == gen {
        ClosureSkip(prog, stack, pc, Threads(now, out), pos == 0, pos == n);
      } else {
        stack, out := VisitNew(prog, stack, pc, out, seen, gen, pos, n);
        now := Marked(seen, gen);
      }
    }
    ClosureDone(prog, Threads(now, out), pos == 0, pos == n);
  }

  /** Stamp a counter not yet seen in this generation and follow it. */
  method VisitNew(
    prog: seq<Inst>, stack: seq<nat>, pc: nat, list: seq<nat>, seen: array<nat>, gen: nat, pos: nat, n: nat)
    returns (stack': seq<nat>, list': seq<nat>)
    requires Safe(prog) && seen.Length == |prog| && Below(stack, |prog|) && pc < |prog| && seen[pc] != gen
    requires Marked(seen, gen) <= Pcs(prog) && Stamped(seen, gen)
    modifies seen
    ensures Stamped(seen, gen)
    ensures Marked(seen, gen) <= Pcs(prog) && |Marked(seen, gen)| == |old(Marked(seen, gen))| + 1
    ensures |Pcs(prog) - Marked(seen, gen)| < |Pcs(prog) - old(Marked(seen, gen))|
    ensures Below(stack', |prog|) && |stack'| <= |stack| + 2
    ensures Closure(prog, stack', Threads(Marked(seen, gen), list'), pos == 0, pos == n) ==
            Closure(prog, stack + [pc], Threads(old(Marked(seen, gen)), list), pos == 0, pos == n)
  {
    ghost var t := Threads(Marked(seen, gen), list);
    seen[pc] := gen;
    MarkedOneMore(t.seen, Marked(seen, gen), prog, pc);
    ClosurePop(prog, stack, pc, t, pos == 0, pos == n);
    stack', list' := Visit(prog, pc, stack, list, pos, n);
  }

  lemma MarkedOneMore(was: set<nat>, now: set<nat>, prog: seq<Inst>, pc: nat)
    requires was <= Pcs(prog) && pc < |prog| && pc !in was
    requires forall p :: p in now <==> p in was || p == pc
    ensures now == was + {pc} && now <= Pcs(prog) && |now| == |was| + 1
    ensures |Pcs(prog) - now| < |Pcs(prog) - was|
  {
    assert pc in Pcs(prog) - was;
    CardinalityDrops(Pcs(prog) - now, Pcs(prog) - was);
  }

  /** One visited instruction: push its enabled successors, or list it as a thread. */
  method Visit(prog: seq<Inst>, pc: nat, stack: seq<nat>, list: seq<nat>, pos: nat, n: nat)
    returns (stack': seq<nat>, list': seq<nat>)
    requires Safe(prog) && pc < |prog| && Below(stack, |prog|)
    ensures stack' == stack + Pushes(prog, pc, pos == 0, pos == n) && Below(stack', |prog|)
    ensures list' == if IsEpsilon(prog[pc]) then list else list + [pc]
  {
    stack', list' := stack, list;
    assert SafeAt(prog, pc);
    match prog[pc]
    case Jmp(x) => stack' := stack' + [x];
    case Split(x, y) =>
      stack' := stack' + [y];
      stack' := stack' + [x];
    case IStart => if pos == 0 { stack' := stack' + [pc + 1]; }
    case IEnd => if pos == n { stack' := stack' + [pc + 1]; }
    case _ => list' := list' + [pc];
  }

  /** One text position: report an accepting thread, else build the next position's list. */
  method Advance(prog: seq<Inst>, chars: string, clist: seq<nat>, seen: array<nat>, gen: nat, pos: nat)
    returns (found: bool, nlist: seq<nat>, ghost pops: nat)
    requires Safe(prog) && Below(clist, |prog|) && seen.Length == |prog|
    requires Stamped(seen, gen) && Marked(seen, gen) == {} && pos <= |chars|
    modifies seen
    ensures Stamped(seen, gen) && found == HasMatch(prog, clist)
    ensures !found && pos < |chars| ==>
      nlist == AddAll(prog, Next(prog, clist, chars[pos]), NoThreads, false, pos + 1 == |chars|).list
    ensures pops <= |clist| + 2 * |prog| && (pos == |chars| ==> pops == 0)
  {
    hide Closure, Safe, Consumes, Next;
    found, nlist, pops := false, [], 0;
    ghost var now: set<nat> := {};
    for i := 0 to |clist|
      invariant Stamped(seen, gen) && now == Marked(seen, gen) <= Pcs(prog)
      invariant forall k :: 0 <= k < i ==> !prog[clist[k]].Match?
      invariant pos < |chars| ==>
        AddAll(prog, Next(prog, clist[i..], chars[pos]), Threads(now, nlist), false, pos + 1 == |chars|).list ==
        AddAll(prog, Next(prog, clist, chars[pos]), NoThreads, false, pos + 1 == |chars|).list
      invariant pops <= i + 2 * |now| && (pos == |chars| ==> pops == 0)
    {
      var pc := clist[i];
      if prog[pc].Match? {
        found := true;
        SubsetBound(now, prog);
        return;
      }
      if pos < |chars| {
        NextCons(prog, clist[i..], chars[pos]);
        assert clist[i..][1..] == clist[i + 1..];
        if Consumes(prog[pc], chars[pos]) {
          ghost var p: nat;
          ghost var t := Threads(now, nlist);
          nlist, p := AddThread(prog, nlist, seen, gen, pc + 1, pos + 1, |chars|);
          now := Marked(seen, gen);
          AddAllCons(prog, pc + 1, Next(prog, clist[i + 1..], chars[pos]), t, false, pos + 1 == |chars|);
          pops := pops + p;
        }
      }
    }
    SubsetBound(now, prog);
    if pos < |chars| {
      assert clist[|clist|..] == [];
      NextNil(prog, chars[pos]);
    }
  }

  lemma SubsetBound(now: set<nat>, prog: seq<Inst>)
    requires now <= Pcs(prog)
    ensures |now| <= |prog|
  {
    if now != Pcs(prog) { CardinalityDrops(now, Pcs(prog)); }
  }

  lemma NextNil(prog: seq<Inst>, c: char)
    ensures Next(prog, [], c) == []
  {
  }

  lemma NextCons(prog: seq<Inst>, list: seq<nat>, c: char)
    requires Safe(prog) && Below(list, |prog|) && list != []
    ensures Consumes(prog[list[0]], c) ==> list[0] + 1 < |prog|
    ensures Next(prog, list, c) ==
            if Consumes(prog[list[0]], c) then [list[0] + 1] + Next(prog, list[1..], c)
            else Next(prog, list[1..], c)
  {
    assert SafeAt(prog, list[0]);
    assert [] + Next(prog, list[1..], c) == Next(prog, list[1..], c);
  }

  lemma AddAllNil(prog: seq<Inst>, t: Threads, first: bool, last: bool)
    requires Safe(prog) && t.seen <= Pcs(prog)
    ensures AddAll(prog, [], t, first, last) == t
  {
  }

  lemma AddAllCons(prog: seq<Inst>, pc: nat, rest: seq<nat>, t: Threads, first: bool, last: bool)
    requires Safe(prog) && pc < |prog| && Below(rest, |prog|) && t.seen <= Pcs(prog)
    ensures Below([pc] + rest, |prog|) && Closure(prog, [pc], t, first, last).seen <= Pcs(prog)
    ensures AddAll(prog, [pc] + rest, t, first, last) ==
            AddAll(prog, rest, Closure(prog, [pc], t, first, last), first, last)
  {
    ClosureGrows(prog, [pc], t, first, last);
    assert ([pc] + rest)[1..] == rest;
  }

  /** The list at the next position, and what remains to be found there. */
  lemma ThreadStep(prog: seq<Inst>, starts: seq<nat>, text: string, pos: nat)
    requires Safe(prog) && Below(starts, |prog|) && pos <= |text|
    ensures var list := ThreadList(prog, starts, text, pos);
      && |list| <= |prog|
      && (Finds(prog, starts, text, pos) <==> HasMatch(prog, list) || Finds(prog, starts, text, pos + 1))
      && (pos < |text| ==>
            ThreadList(prog, starts, text, pos + 1) ==
            AddAll(prog, Next(prog, list, text[pos]), NoThreads, false, pos + 1 == |text|).list)
  {
    ThreadListGood(prog, starts, text, pos);
  }

  /** Three pops per instruction and position. */
  ghost function Work(p: nat, k: nat): nat {
    3 * p * k
  }

  lemma WorkGrows(p: nat, pos: nat, n: nat, pops: nat, more: nat)
    requires pos <= n && pops <= Work(p, pos + 1) && more <= 3 * p && (pos == n ==> more == 0)
    ensures pops + more <= Work(p, if pos < n then pos + 2 else n + 1) <= Work(p, n + 1)
  {
    if pos < n { assert p * (pos + 2) <= p * (n + 1); }
  }

  /** `is_match`: the search answers exactly, within a linear number of work-stack pops. */
  method IsMatch(prog: seq<Inst>, text: string) returns (found: bool, ghost pops: nat)
    requires Safe(prog) && |prog| > 0
    ensures found == Finds(prog, [0], text, 0)
    ensures pops <= Work(|prog|, |text| + 1)
  {
    hide Closure, Safe, Next, Finds, ThreadList, Work, AddAll, HasMatch, Pcs;
    var n := |text|;
    var seen, clist;
    seen, clist, pops := FirstList(prog, text);
    var gen := 1;
    for pos := 0 to n + 1
      invariant gen == pos + 1 && Stamped(seen, gen) && fresh(seen)
      invariant pos <= n ==> clist == ThreadList(prog, [0], text, pos)
      invariant Finds(prog, [0], text, 0) == Finds(prog, [0], text, pos)
      invariant pops <= Work(|prog|, if pos <= n then pos + 1 else n + 1)
    {
      gen := gen + 1;
      ThreadStep(prog, [0], text, pos);
      var nlist: seq<nat>;
      ghost var p: nat;
      found, nlist, p := Advance(prog, text, clist, seen, gen, pos);
      WorkGrows(|prog|, pos, n, pops, p);
      pops := pops + p;
      if found { return; }
      clist := nlist;
    }
    PastTheEnd(prog, [0], text);
    found := false;
  }

  /** The scratch buffers and the thread list before any character is read. */
  method FirstList(prog: seq<Inst>, text: string) returns (seen: array<nat>, clist: seq<nat>, ghost pops: nat)
    requires Safe(prog) && |prog| > 0
    ensures fresh(seen) && seen.Length == |prog| && Stamped(seen, 1)
    ensures clist == ThreadList(prog, [0], text, 0) && pops <= Work(|prog|, 1)
  {
    hide Closure, Safe, Next, ThreadList;
    seen := new nat[|prog|](_ => 0);
    assert Marked(seen, 1) == {};
    FirstThreads(prog, [0], text);
    AddAllCons(prog, 0, [], NoThreads, true, 0 == |text|);
    assert [0] + [] == [0];
    clist, pops := AddThread(prog, [], seen, 1, 0, 0, |text|);
    SubsetBound(Marked(seen, 1), prog);
  }

  lemma FirstThreads(prog: seq<Inst>, starts: seq<nat>, text: string)
    requires Safe(prog) && Below(starts, |prog|)
    ensures ThreadList(prog, starts, text, 0) == AddAll(prog, starts, NoThreads, true, 0 == |text|).list
  {
  }

  lemma PastTheEnd(prog: seq<Inst>, starts: seq<nat>, text: string)
    requires Safe(prog) && Below(starts, |prog|)
    ensures !Finds(prog, starts, text, |text| + 1)
  {
  }

  /** What a search over a compiled pattern answers: is the pattern found in the text? */
  lemma SearchExact(ast: Ast, s: string)
    requires WellFormed(ast)
    ensures Safe(ProgramOf(ast))
    ensures Finds(ProgramOf(ast), [0], s, 0) <==> Found(ast, s)
  {
    ProgramSafe(ast);
    SimulationExact(ProgramOf(ast), s);
    AcceptsExactlyFound(ast, s);
  }
}
