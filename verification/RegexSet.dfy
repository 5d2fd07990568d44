/** Many patterns in one program (`RegexSet` of src/regex.rs): one pass answers for each of them. */
module RegexSet {
  import opened Wrappers
  import opened RegexAst
  import opened RegexCode
  import opened RegexMachine
  import opened RegexMatcher
  import opened Regex

  /** Targets shift with the pattern; its accept becomes the pattern's number. */
  function Relocate(inst: Inst, base: nat, id: nat): Inst {
    match inst
    case Split(x, y) => Split(x + base, y + base)
    case Jmp(x) => Jmp(x + base)
    case Match => MatchN(id)
    case MatchN(_) => MatchN(id)
    case _ => inst
  }

  function RelocateAll(code: seq<Inst>, base: nat, id: nat): (r: seq<Inst>)
    ensures |r| == |code|
    ensures forall t :: 0 <= t < |r| ==> r[t] == Relocate(code[t], base, id)
  {
    seq(|code|, t requires 0 <= t < |code| => Relocate(code[t], base, id))
  }

  // ----- one pattern inside the combined program -----

  /** The instructions `base ..` of `whole` are `part` relocated, and no jump crosses its borders. */
  ghost predicate Placed(whole: seq<Inst>, part: seq<Inst>, base: nat, id: nat) {
    && Safe(whole) && Safe(part)
    && base + |part| <= |whole|
    && (forall pc :: 0 <= pc < |part| ==>
          whole[base + pc] == Relocate(part[pc], base, id) && !part[pc].MatchN?)
    && (forall pc :: 0 <= pc < |whole| && !Inside(pc, base, |part|) ==> Avoids(whole, pc, base, |part|))
  }

  /** No successor of `pc` lies in the pattern at `base`. */
  predicate Avoids(whole: seq<Inst>, pc: nat, base: nat, size: nat)
    requires pc < |whole|
  {
    match whole[pc]
    case Split(x, y) => !Inside(x, base, size) && !Inside(y, base, size)
    case Jmp(x) => !Inside(x, base, size)
    case Match => true
    case MatchN(_) => true
    case _ => !Inside(pc + 1, base, size)
  }

  predicate Inside(pc: nat, base: nat, size: nat) {
    base <= pc < base + size
  }

  /** The counters of `list` that belong to the pattern, in its own numbering. */
  function Own(list: seq<nat>, base: nat, size: nat): (r: seq<nat>)
    ensures Below(r, size)
  {
    if list == [] then []
    else (if Inside(list[0], base, size) then [list[0] - base] else []) + Own(list[1..], base, size)
  }

  ghost function OwnSet(seen: set<nat>, base: nat, size: nat): (r: set<nat>) {
    set p | p in seen && Inside(p, base, size) :: p - base
  }

  lemma {:induction false} OwnAppend(a: seq<nat>, b: seq<nat>, base: nat, size: nat)
    ensures Own(a + b, base, size) == Own(a, base, size) + Own(b, base, size)
    decreases |a|
  {
    if a == [] {
      assert a + b == b;
    } else {
      assert (a + b)[1..] == a[1..] + b;
      OwnAppend(a[1..], b, base, size);
    }
  }

  ghost function OwnThreads(t: Threads, base: nat, size: nat): Threads {
    Threads(OwnSet(t.seen, base, size), Own(t.list, base, size))
  }

  lemma OwnSetFacts(seen: set<nat>, base: nat, size: nat, pc: nat)
    ensures !Inside(pc, base, size) ==> OwnSet(seen + {pc}, base, size) == OwnSet(seen, base, size)
    ensures Inside(pc, base, size) ==>
      && OwnSet(seen + {pc}, base, size) == OwnSet(seen, base, size) + {pc - base}
      && (pc in seen <==> pc - base in OwnSet(seen, base, size))
  {
  }

  lemma OwnSetWithin(whole: seq<Inst>, part: seq<Inst>, base: nat, seen: set<nat>)
    requires base + |part| <= |whole| && seen <= Pcs(whole)
    ensures OwnSet(seen, base, |part|) <= Pcs(part)
  {
  }

  lemma OwnOne(pc: nat, base: nat, size: nat)
    ensures Own([pc], base, size) == if Inside(pc, base, size) then [pc - base] else []
  {
    assert [pc][1..] == [];
  }

  /** Following an instruction and following its relocated copy push the same counters. */
  lemma PushesOwn(whole: seq<Inst>, part: seq<Inst>, base: nat, id: nat, pc: nat, first: bool, last: bool)
    requires Placed(whole, part, base, id) && pc < |whole|
    ensures !Inside(pc, base, |part|) ==> Own(Pushes(whole, pc, first, last), base, |part|) == []
    ensures Inside(pc, base, |part|) ==>
      && Own(Pushes(whole, pc, first, last), base, |part|) == Pushes(part, pc - base, first, last)
      && IsEpsilon(whole[pc]) == IsEpsilon(part[pc - base])
  {
    hide Own;
    OwnUpToTwo(Pushes(whole, pc, first, last), base, |part|);
    if Inside(pc, base, |part|) {
      assert SafeAt(part, pc - base);
      assert whole[base + (pc - base)] == Relocate(part[pc - base], base, id);
    } else {
      assert Avoids(whole, pc, base, |part|);
    }
  }

  lemma OwnUpToTwo(out: seq<nat>, base: nat, size: nat)
    requires |out| <= 2
    ensures |out| == 0 ==> Own(out, base, size) == []
    ensures |out| == 1 ==> Own(out, base, size) == if Inside(out[0], base, size) then [out[0] - base] else []
    ensures |out| == 2 ==> Own(out, base, size) == Own([out[0]], base, size) + Own([out[1]], base, size)
    ensures forall k :: 0 <= k < |out| ==>
      Own([out[k]], base, size) == if Inside(out[k], base, size) then [out[k] - base] else []
  {
    if |out| == 1 {
      OwnOne(out[0], base, size);
      assert out == [out[0]];
    } else if |out| == 2 {
      assert out == [out[0]] + [out[1]];
      OwnAppend([out[0]], [out[1]], base, size);
      OwnOne(out[0], base, size);
      OwnOne(out[1], base, size);
    }
  }

  /** Seen from one pattern, the shared closure is that pattern's own closure. */
  lemma {:induction false} ClosureOwn(
    whole: seq<Inst>, part: seq<Inst>, base: nat, id: nat, stack: seq<nat>, t: Threads, first: bool, last: bool)
    requires Placed(whole, part, base, id) && Below(stack, |whole|) && t.seen <= Pcs(whole)
    ensures OwnSet(t.seen, base, |part|) <= Pcs(part)
    ensures OwnThreads(Closure(whole, stack, t, first, last), base, |part|) ==
            Closure(part, Own(stack, base, |part|), OwnThreads(t, base, |part|), first, last)
    decreases |Pcs(whole) - t.seen|, |stack|
  {
    hide Placed, Pushes, Safe, Own, OwnSet, Inside, Avoids, Closure;
    var m := |part|;
    var u := OwnThreads(t, base, m);
    PlacedSafe(whole, part, base, id);
    OwnSetWithin(whole, part, base, t.seen);
    if stack == [] {
      ClosureDone(whole, t, first, last);
      ClosureDone(part, u, first, last);
      assert Own([], base, m) == [] by { OwnNil(base, m); }
    } else {
      var pc, rest := stack[|stack| - 1], stack[..|stack| - 1];
      assert stack == rest + [pc];
      if pc in t.seen {
        ClosureSkip(whole, rest, pc, t, first, last);
        ClosureOwn(whole, part, base, id, rest, t, first, last);
        ClosureOwnSkip(part, base, rest, pc, t, first, last);
      } else {
        ClosureOwnVisit(whole, part, base, id, rest, pc, t, first, last);
        PopDecreases(whole, pc, t);
        var out := Pushes(whole, pc, first, last);
        var t' := Threads(t.seen + {pc}, if IsEpsilon(whole[pc]) then t.list else t.list + [pc]);
        ClosurePop(whole, rest, pc, t, first, last);
        ClosureOwn(whole, part, base, id, rest + out, t', first, last);
      }
    }
  }

  lemma ClosureOwnSkip(part: seq<Inst>, base: nat, rest: seq<nat>, pc: nat, t: Threads, first: bool, last: bool)
    requires Safe(part) && OwnSet(t.seen, base, |part|) <= Pcs(part) && pc in t.seen
    ensures Closure(part, Own(rest + [pc], base, |part|), OwnThreads(t, base, |part|), first, last) ==
            Closure(part, Own(rest, base, |part|), OwnThreads(t, base, |part|), first, last)
  {
    hide Safe, Own, OwnSet, Closure, Inside;
    var m := |part|;
    OwnAppend(rest, [pc], base, m);
    OwnOne(pc, base, m);
    OwnSetFacts(t.seen, base, m, pc);
    if Inside(pc, base, m) {
      ClosureSkip(part, Own(rest, base, m), pc - base, OwnThreads(t, base, m), first, last);
    } else {
      assert Own(rest, base, m) + [] == Own(rest, base, m);
    }
  }

  lemma OwnNil(base: nat, size: nat)
    ensures Own([], base, size) == [] && OwnThreads(NoThreads, base, size) == NoThreads
  {
  }

  lemma PlacedSafe(whole: seq<Inst>, part: seq<Inst>, base: nat, id: nat)
    requires Placed(whole, part, base, id)
    ensures Safe(whole) && Safe(part) && base + |part| <= |whole|
  {
  }

  lemma PopDecreases(prog: seq<Inst>, pc: nat, t: Threads)
    requires t.seen <= Pcs(prog) && pc < |prog| && pc !in t.seen
    ensures t.seen + {pc} <= Pcs(prog) && |Pcs(prog) - (t.seen + {pc})| < |Pcs(prog) - t.seen|
  {
    assert pc in Pcs(prog) - t.seen;
    CardinalityDrops(Pcs(prog) - (t.seen + {pc}), Pcs(prog) - t.seen);
  }

  /** Visiting a counter changes a pattern's own closure exactly when the counter is its own. */
  lemma ClosureOwnVisit(
    whole: seq<Inst>, part: seq<Inst>, base: nat, id: nat, rest: seq<nat>, pc: nat, t: Threads, first: bool, last: bool)
    requires Placed(whole, part, base, id) && Below(rest, |whole|) && t.seen <= Pcs(whole)
    requires pc < |whole| && pc !in t.seen
    ensures OwnSet(t.seen, base, |part|) <= Pcs(part) && OwnSet(t.seen + {pc}, base, |part|) <= Pcs(part)
    ensures
      var t' := Threads(t.seen + {pc}, if IsEpsilon(whole[pc]) then t.list else t.list + [pc]);
      Closure(part, Own(rest + [pc], base, |part|), OwnThreads(t, base, |part|), first, last) ==
      Closure(part, Own(rest + Pushes(whole, pc, first, last), base, |part|), OwnThreads(t', base, |part|), first, last)
  {
    hide Placed, Pushes, Safe, Own, OwnSet, Inside, Avoids, Closure;
    var m := |part|;
    var out := Pushes(whole, pc, first, last);
    PlacedSafe(whole, part, base, id);
    OwnSetWithin(whole, part, base, t.seen);
    OwnSetWithin(whole, part, base, t.seen + {pc});
    OwnAppend(rest, [pc], base, m);
    OwnAppend(rest, out, base, m);
    OwnAppend(t.list, [pc], base, m);
    OwnOne(pc, base, m);
    OwnSetFacts(t.seen, base, m, pc);
    PushesOwn(whole, part, base, id, pc, first, last);
    if Inside(pc, base, m) {
      assert 0 <= pc - base < m by { InsideBounds(pc, base, m); }
      ClosurePop(part, Own(rest, base, m), pc - base, OwnThreads(t, base, m), first, last);
    } else {
      assert Own(t.list, base, m) + [] == Own(t.list, base, m);
    }
  }

  lemma InsideBounds(pc: nat, base: nat, size: nat)
    requires Inside(pc, base, size)
    ensures 0 <= pc - base < size
  {
  }

  lemma OwnSplit(list: seq<nat>, base: nat, size: nat)
    ensures Own(list, base, size) == if list == [] then [] else
      (if Inside(list[0], base, size) then [list[0] - base] else []) + Own(list[1..], base, size)
  {
  }

  lemma {:induction false} AddAllOwn(
    whole: seq<Inst>, part: seq<Inst>, base: nat, id: nat, starts: seq<nat>, t: Threads, first: bool, last: bool)
    requires Placed(whole, part, base, id) && Below(starts, |whole|) && t.seen <= Pcs(whole)
    ensures Safe(part) && OwnSet(t.seen, base, |part|) <= Pcs(part)
    ensures OwnThreads(AddAll(whole, starts, t, first, last), base, |part|) ==
            AddAll(part, Own(starts, base, |part|), OwnThreads(t, base, |part|), first, last)
    decreases |starts|
  {
    hide Placed, Safe, OwnSet, Closure, Own, AddAll;
    PlacedSafe(whole, part, base, id);
    OwnSetWithin(whole, part, base, t.seen);
    OwnSplit(starts, base, |part|);
    if starts != [] {
      var one := Closure(whole, [starts[0]], t, first, last);
      assert [starts[0]] + starts[1..] == starts;
      AddAllCons(whole, starts[0], starts[1..], t, first, last);
      ClosureGrows(whole, [starts[0]], t, first, last);
      ClosureOwn(whole, part, base, id, [starts[0]], t, first, last);
      OwnOne(starts[0], base, |part|);
      AddAllOwn(whole, part, base, id, starts[1..], one, first, last);
      var rest := Own(starts[1..], base, |part|);
      if Inside(starts[0], base, |part|) {
        AddAllCons(part, starts[0] - base, rest, OwnThreads(t, base, |part|), first, last);
      } else {
        ClosureDone(part, OwnThreads(t, base, |part|), first, last);
        assert [] + rest == rest;
      }
    } else {
      AddAllNil(whole, t, first, last);
      AddAllNil(part, OwnThreads(t, base, |part|), first, last);
    }
  }

  lemma {:induction false} NextOwn(whole: seq<Inst>, part: seq<Inst>, base: nat, id: nat, list: seq<nat>, c: char)
    requires Placed(whole, part, base, id) && Below(list, |whole|)
    ensures Own(Next(whole, list, c), base, |part|) == Next(part, Own(list, base, |part|), c)
    decreases |list|
  {
    hide Placed, Safe, Consumes, Own, Next;
    var m := |part|;
    PlacedSafe(whole, part, base, id);
    if list == [] {
      NextNil(whole, c);
      NextNil(part, c);
      OwnNil(base, m);
    } else {
      var pc, rest := list[0], list[1..];
      assert list == [pc] + rest;
      NextOwn(whole, part, base, id, rest, c);
      NextCons(whole, list, c);
      OwnAppend([pc], rest, base, m);
      OwnOne(pc, base, m);
      OwnAppend([pc + 1], Next(whole, rest, c), base, m);
      OwnOne(pc + 1, base, m);
      StepOwn(whole, part, base, id, pc, c);
      NextOwnHead(part, base, pc, Own(rest, base, m), c);
      assert [] + Next(part, Own(rest, base, m), c) == Next(part, Own(rest, base, m), c);
    }
  }

  lemma NextOwnHead(part: seq<Inst>, base: nat, pc: nat, rest: seq<nat>, c: char)
    requires Safe(part) && Below(rest, |part|)
    ensures Inside(pc, base, |part|) ==>
      Next(part, [pc - base] + rest, c) ==
      if Consumes(part[pc - base], c) then [pc - base + 1] + Next(part, rest, c) else Next(part, rest, c)
    ensures [] + rest == rest
  {
    if Inside(pc, base, |part|) {
      NextCons(part, [pc - base] + rest, c);
      assert ([pc - base] + rest)[1..] == rest;
    }
  }

  /** Consuming a character keeps a thread inside its pattern. */
  lemma StepOwn(whole: seq<Inst>, part: seq<Inst>, base: nat, id: nat, pc: nat, c: char)
    requires Placed(whole, part, base, id) && pc < |whole|
    ensures Inside(pc, base, |part|) ==> Consumes(whole[pc], c) == Consumes(part[pc - base], c)
    ensures Consumes(whole[pc], c) ==> Inside(pc + 1, base, |part|) == Inside(pc, base, |part|)
  {
    if Inside(pc, base, |part|) {
      assert SafeAt(part, pc - base);
      assert whole[base + (pc - base)] == Relocate(part[pc - base], base, id);
    } else {
      assert Avoids(whole, pc, base, |part|);
    }
  }

  /** At every position the shared list, restricted to one pattern, is that pattern's own list. */
  lemma {:induction false} ThreadListOwn(
    whole: seq<Inst>, part: seq<Inst>, base: nat, id: nat, starts: seq<nat>, s: string, pos: nat)
    requires Placed(whole, part, base, id) && Below(starts, |whole|) && pos <= |s|
    ensures Safe(whole) && Safe(part)
    ensures Own(ThreadList(whole, starts, s, pos), base, |part|) ==
            ThreadList(part, Own(starts, base, |part|), s, pos)
    decreases pos
  {
    hide Placed, Safe, Own, AddAll, Next, ThreadList, OwnSet;
    PlacedSafe(whole, part, base, id);
    OwnNil(base, |part|);
    if pos == 0 {
      FirstThreads(whole, starts, s);
      FirstThreads(part, Own(starts, base, |part|), s);
      AddAllOwn(whole, part, base, id, starts, NoThreads, true, 0 == |s|);
    } else {
      ThreadListOwn(whole, part, base, id, starts, s, pos - 1);
      ThreadStep(whole, starts, s, pos - 1);
      ThreadStep(part, Own(starts, base, |part|), s, pos - 1);
      var list := ThreadList(whole, starts, s, pos - 1);
      NextOwn(whole, part, base, id, list, s[pos - 1]);
      AddAllOwn(whole, part, base, id, Next(whole, list, s[pos - 1]), NoThreads, false, pos == |s|);
    }
  }
}
