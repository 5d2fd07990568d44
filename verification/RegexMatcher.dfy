/** The generation-stamped thread simulation of src/regex.rs and the search it performs. */
module RegexMatcher {
  import opened Wrappers
  import opened RegexAst
  import opened RegexCode
  import opened RegexMachine

  // ----- the thread lists, as functions of the program and the text -----

  predicate IsEpsilon(inst: Inst) {
    inst.Split? || inst.Jmp? || inst.IStart? || inst.IEnd?
  }

  /** Every instruction's successors are instructions of the program. */
  ghost predicate Safe(prog: seq<Inst>) {
    forall pc :: 0 <= pc < |prog| ==> SafeAt(prog, pc)
  }

  predicate SafeAt(prog: seq<Inst>, pc: nat)
    requires pc < |prog|
  {
    match prog[pc]
    case Split(x, y) => x < |prog| && y < |prog|
    case Jmp(x) => x < |prog|
    case Match => true
    case MatchN(_) => true
    case _ => pc + 1 < |prog|
  }

  /** What visiting an epsilon instruction pushes, in push order. */
  function Pushes(prog: seq<Inst>, pc: nat, first: bool, last: bool): (r: seq<nat>)
    requires pc < |prog|
    ensures SafeAt(prog, pc) ==> Below(r, |prog|)
    ensures |r| <= 2
  {
    match prog[pc]
    case Jmp(x) => [x]
    case Split(x, y) => [y, x]
    case IStart => if first then [pc + 1] else []
    case IEnd => if last then [pc + 1] else []
    case _ => []
  }

  ghost function Pcs(prog: seq<Inst>): (r: set<nat>)
    ensures forall p: int :: p in r <==> 0 <= p < |prog|
    ensures |r| == |prog|
  {
    if prog == [] then {}
    else
      var r := Pcs(prog[..|prog| - 1]);
      r + {|prog| - 1}
  }

  /** The counters visited in one generation, and the consuming ones in visit order. */
  datatype Threads = Threads(seen: set<nat>, list: seq<nat>)

  const NoThreads := Threads({}, [])

  /** The depth-first epsilon closure of the counters on `stack` (top last). */
  ghost function Closure(prog: seq<Inst>, stack: seq<nat>, t: Threads, first: bool, last: bool): Threads
    requires Safe(prog) && Below(stack, |prog|) && t.seen <= Pcs(prog)
    decreases |Pcs(prog) - t.seen|, |stack|
  {
    if stack == [] then t
    else
      var pc, rest := stack[|stack| - 1], stack[..|stack| - 1];
      if pc in t.seen then Closure(prog, rest, t, first, last)
      else
        var visited := t.seen + {pc};
        assert Pcs(prog) - visited < Pcs(prog) - t.seen by { assert pc in Pcs(prog) - t.seen; }
        CardinalityDrops(Pcs(prog) - visited, Pcs(prog) - t.seen);
        if IsEpsilon(prog[pc]) then
          Closure(prog, rest + Pushes(prog, pc, first, last), Threads(visited, t.list), first, last)
        else Closure(prog, rest, Threads(visited, t.list + [pc]), first, last)
  }

  /** Popping an unvisited counter marks it, and lists it or pushes its successors. */
  lemma ClosurePop(prog: seq<Inst>, rest: seq<nat>, pc: nat, t: Threads, first: bool, last: bool)
    requires Safe(prog) && Below(rest, |prog|) && pc < |prog| && t.seen <= Pcs(prog) && pc !in t.seen
    ensures Below(rest + Pushes(prog, pc, first, last), |prog|)
    ensures Closure(prog, rest + [pc], t, first, last) ==
            Closure(prog, rest + Pushes(prog, pc, first, last),
                    Threads(t.seen + {pc}, if IsEpsilon(prog[pc]) then t.list else t.list + [pc]), first, last)
  {
    assert SafeAt(prog, pc);
    assert (rest + [pc])[..|rest|] == rest && rest + [] == rest;
  }

  lemma ClosureDone(prog: seq<Inst>, t: Threads, first: bool, last: bool)
    requires Safe(prog) && t.seen <= Pcs(prog)
    ensures Closure(prog, [], t, first, last) == t
  {
  }

  lemma ClosureSkip(prog: seq<Inst>, rest: seq<nat>, pc: nat, t: Threads, first: bool, last: bool)
    requires Safe(prog) && Below(rest, |prog|) && t.seen <= Pcs(prog) && pc in t.seen
    ensures Closure(prog, rest + [pc], t, first, last) == Closure(prog, rest, t, first, last)
  {
    assert (rest + [pc])[..|rest|] == rest;
  }

  lemma CardinalityDrops(a: set<nat>, b: set<nat>)
    requires a < b
    ensures |a| < |b|
  {
    assert b == a + (b - a);
  }

  /** The closures of several starting counters, sharing one visited set. */
  ghost function AddAll(prog: seq<Inst>, starts: seq<nat>, t: Threads, first: bool, last: bool): (r: Threads)
    requires Safe(prog) && Below(starts, |prog|) && t.seen <= Pcs(prog)
    ensures r.seen <= Pcs(prog)
    decreases |starts|
  {
    if starts == [] then t
    else
      ClosureGrows(prog, [starts[0]], t, first, last);
      AddAll(prog, starts[1..], Closure(prog, [starts[0]], t, first, last), first, last)
  }

  /** The successors of the threads that consume `c`. */
  function Next(prog: seq<Inst>, list: seq<nat>, c: char): (r: seq<nat>)
    requires Below(list, |prog|)
    ensures Safe(prog) ==> Below(r, |prog|)
    decreases |list|
  {
    assert Safe(prog) && list != [] ==> SafeAt(prog, list[0]);
    if list == [] then []
    else (if Consumes(prog[list[0]], c) then [list[0] + 1] else []) + Next(prog, list[1..], c)
  }

  /** The thread list the simulation holds at text position `pos`. */
  ghost function ThreadList(prog: seq<Inst>, starts: seq<nat>, s: string, pos: nat): (r: seq<nat>)
    requires Safe(prog) && Below(starts, |prog|) && pos <= |s|
    ensures Below(r, |prog|)
    decreases pos
  {
    var from := if pos == 0 then starts
                else Next(prog, ThreadList(prog, starts, s, pos - 1), s[pos - 1]);
    AddAllGood(prog, from, NoThreads, pos == 0, pos == |s|);
    var r := AddAll(prog, from, NoThreads, pos == 0, pos == |s|).list;
    assert forall k :: 0 <= k < |r| ==> r[k] in r;
    r
  }

  // ----- what one generation keeps -----

  ghost predicate Distinct(list: seq<nat>) {
    forall j, k :: 0 <= j < k < |list| ==> list[j] != list[k]
  }

  /** The list holds exactly the consuming counters visited, each once, and visiting is saturated up to `stack`. */
  ghost predicate Good(prog: seq<Inst>, t: Threads, stack: seq<nat>, first: bool, last: bool) {
    && t.seen <= Pcs(prog)
    && Distinct(t.list)
    && (forall q :: q in t.list ==> q in t.seen && !IsEpsilon(prog[q]))
    && (forall p :: p in t.seen ==> GoodAt(prog, t, stack, first, last, p))
  }

  ghost predicate GoodAt(prog: seq<Inst>, t: Threads, stack: seq<nat>, first: bool, last: bool, p: nat)
    requires p < |prog|
  {
    if IsEpsilon(prog[p])
    then forall q :: q in Pushes(prog, p, first, last) ==> q in t.seen || q in stack
    else p in t.list
  }

  lemma {:induction false} ClosureGrows(prog: seq<Inst>, stack: seq<nat>, t: Threads, first: bool, last: bool)
    requires Safe(prog) && Below(stack, |prog|) && t.seen <= Pcs(prog)
    ensures var r := Closure(prog, stack, t, first, last);
      t.seen <= r.seen <= Pcs(prog) && forall p :: p in stack ==> p in r.seen
    decreases |Pcs(prog) - t.seen|, |stack|
  {
    if stack != [] {
      var pc, rest := stack[|stack| - 1], stack[..|stack| - 1];
      assert stack == rest + [pc];
      if pc in t.seen {
        ClosureGrows(prog, rest, t, first, last);
      } else {
        var visited := t.seen + {pc};
        assert Pcs(prog) - visited < Pcs(prog) - t.seen by { assert pc in Pcs(prog) - t.seen; }
        CardinalityDrops(Pcs(prog) - visited, Pcs(prog) - t.seen);
        if IsEpsilon(prog[pc]) {
          ClosureGrows(prog, rest + Pushes(prog, pc, first, last), Threads(visited, t.list), first, last);
        } else {
          ClosureGrows(prog, rest, Threads(visited, t.list + [pc]), first, last);
        }
      }
    }
  }

  lemma GoodEpsilon(prog: seq<Inst>, rest: seq<nat>, pc: nat, t: Threads, first: bool, last: bool)
    requires pc < |prog| && IsEpsilon(prog[pc]) && Good(prog, t, rest + [pc], first, last)
    ensures Good(prog, Threads(t.seen + {pc}, t.list), rest + Pushes(prog, pc, first, last), first, last)
  {
    var u, more := Threads(t.seen + {pc}, t.list), rest + Pushes(prog, pc, first, last);
    forall p | p in u.seen ensures GoodAt(prog, u, more, first, last, p) {
      if p != pc { assert GoodAt(prog, t, rest + [pc], first, last, p); }
    }
  }

  lemma GoodConsuming(prog: seq<Inst>, rest: seq<nat>, pc: nat, t: Threads, first: bool, last: bool)
    requires pc < |prog| && pc !in t.seen && !IsEpsilon(prog[pc]) && Good(prog, t, rest + [pc], first, last)
    ensures Good(prog, Threads(t.seen + {pc}, t.list + [pc]), rest, first, last)
  {
    var u := Threads(t.seen + {pc}, t.list + [pc]);
    forall p | p in u.seen ensures GoodAt(prog, u, rest, first, last, p) {
      if p != pc { assert GoodAt(prog, t, rest + [pc], first, last, p); }
    }
  }

  lemma GoodAlreadySeen(prog: seq<Inst>, rest: seq<nat>, pc: nat, t: Threads, first: bool, last: bool)
    requires pc in t.seen && Good(prog, t, rest + [pc], first, last)
    ensures Good(prog, t, rest, first, last)
  {
    forall p | p in t.seen ensures GoodAt(prog, t, rest, first, last, p) {
      assert GoodAt(prog, t, rest + [pc], first, last, p);
    }
  }

  lemma {:induction false} ClosureGood(prog: seq<Inst>, stack: seq<nat>, t: Threads, first: bool, last: bool)
    requires Safe(prog) && Below(stack, |prog|) && Good(prog, t, stack, first, last)
    ensures Good(prog, Closure(prog, stack, t, first, last), [], first, last)
    decreases |Pcs(prog) - t.seen|, |stack|
  {
    hide Good, Pushes;
    if stack != [] {
      var pc, rest := stack[|stack| - 1], stack[..|stack| - 1];
      assert stack == rest + [pc];
      if pc in t.seen {
        GoodAlreadySeen(prog, rest, pc, t, first, last);
        ClosureGood(prog, rest, t, first, last);
      } else {
        var visited := t.seen + {pc};
        assert Pcs(prog) - visited < Pcs(prog) - t.seen by { assert pc in Pcs(prog) - t.seen; }
        CardinalityDrops(Pcs(prog) - visited, Pcs(prog) - t.seen);
        if IsEpsilon(prog[pc]) {
          GoodEpsilon(prog, rest, pc, t, first, last);
          ClosureGood(prog, rest + Pushes(prog, pc, first, last), Threads(visited, t.list), first, last);
        } else {
          GoodConsuming(prog, rest, pc, t, first, last);
          ClosureGood(prog, rest, Threads(visited, t.list + [pc]), first, last);
        }
      }
    }
  }

  lemma {:induction false} AddAllGood(prog: seq<Inst>, starts: seq<nat>, t: Threads, first: bool, last: bool)
    requires Safe(prog) && Below(starts, |prog|) && Good(prog, t, [], first, last)
    ensures Good(prog, AddAll(prog, starts, t, first, last), [], first, last)
    decreases |starts|
  {
    if starts != [] {
      GoodWithMore(prog, t, starts[0], first, last);
      ClosureGood(prog, [starts[0]], t, first, last);
      ClosureGrows(prog, [starts[0]], t, first, last);
      AddAllGood(prog, starts[1..], Closure(prog, [starts[0]], t, first, last), first, last);
    }
  }

  lemma GoodWithMore(prog: seq<Inst>, t: Threads, pc: nat, first: bool, last: bool)
    requires Good(prog, t, [], first, last)
    ensures Good(prog, t, [pc], first, last)
  {
    forall p | p in t.seen ensures GoodAt(prog, t, [pc], first, last, p) {
      assert GoodAt(prog, t, [], first, last, p);
    }
  }

  /** A thread list is never longer than the program. */
  lemma {:induction false} ListBound(list: seq<nat>, n: nat)
    requires Distinct(list) && Below(list, n)
    ensures |list| <= n
    decreases n
  {
    if list != [] {
      assert list[0] < n;
      if n - 1 in list {
        var k :| 0 <= k < |list| && list[k] == n - 1;
        ListBound(list[..k] + list[k + 1..], n - 1);
      } else {
        ListBound(list, n - 1);
      }
    }
  }

  // ----- the thread lists decide acceptance -----

  ghost predicate Acc(prog: seq<Inst>, s: string, pc: nat, i: nat) {
    exists k: nat :: Accepts(prog, s, k, pc, i)
  }

  ghost predicate AnyAcc(prog: seq<Inst>, s: string, list: seq<nat>, i: nat) {
    exists q :: q in list && Acc(prog, s, q, i)
  }

  /** Visiting an epsilon instruction replaces it by what it pushes. */
  lemma EpsilonStep(prog: seq<Inst>, s: string, pc: nat, i: nat)
    requires pc < |prog| && IsEpsilon(prog[pc])
    ensures Acc(prog, s, pc, i) <==> AnyAcc(prog, s, Pushes(prog, pc, i == 0, i == |s|), i)
  {
    var out := Pushes(prog, pc, i == 0, i == |s|);
    if Acc(prog, s, pc, i) {
      var k: nat :| Accepts(prog, s, k, pc, i);
      var q := if prog[pc].Split? && !Accepts(prog, s, k - 1, prog[pc].x, i) then out[0] else out[|out| - 1];
      assert q in out && Accepts(prog, s, k - 1, q, i);
    }
    if AnyAcc(prog, s, out, i) {
      var q :| q in out && Acc(prog, s, q, i);
      var k: nat :| Accepts(prog, s, k, q, i);
      assert Accepts(prog, s, k + 1, pc, i);
    }
  }

  lemma {:induction false} ClosureSound(prog: seq<Inst>, s: string, i: nat, stack: seq<nat>, t: Threads)
    requires Safe(prog) && Below(stack, |prog|) && t.seen <= Pcs(prog)
    ensures AnyAcc(prog, s, Closure(prog, stack, t, i == 0, i == |s|).list, i) ==>
              AnyAcc(prog, s, t.list, i) || AnyAcc(prog, s, stack, i)
    decreases |Pcs(prog) - t.seen|, |stack|
  {
    hide Acc, Pushes;
    var first, last := i == 0, i == |s|;
    if stack != [] {
      var pc, rest := stack[|stack| - 1], stack[..|stack| - 1];
      assert stack == rest + [pc];
      if pc in t.seen {
        ClosureSound(prog, s, i, rest, t);
      } else {
        var visited := t.seen + {pc};
        assert Pcs(prog) - visited < Pcs(prog) - t.seen by { assert pc in Pcs(prog) - t.seen; }
        CardinalityDrops(Pcs(prog) - visited, Pcs(prog) - t.seen);
        if IsEpsilon(prog[pc]) {
          EpsilonStep(prog, s, pc, i);
          ClosureSound(prog, s, i, rest + Pushes(prog, pc, first, last), Threads(visited, t.list));
        } else {
          ClosureSound(prog, s, i, rest, Threads(visited, t.list + [pc]));
        }
      }
    }
  }

  /** A saturated visited set loses no accepting run. */
  lemma {:induction false} Saturated(prog: seq<Inst>, s: string, i: nat, t: Threads, k: nat, p: nat)
    requires Good(prog, t, [], i == 0, i == |s|) && p in t.seen && Accepts(prog, s, k, p, i)
    ensures AnyAcc(prog, s, t.list, i)
    decreases k
  {
    assert GoodAt(prog, t, [], i == 0, i == |s|, p);
    if IsEpsilon(prog[p]) {
      var q :| q in Pushes(prog, p, i == 0, i == |s|) && Accepts(prog, s, k - 1, q, i);
      Saturated(prog, s, i, t, k - 1, q);
    } else {
      assert Acc(prog, s, p, i);
    }
  }

  lemma {:induction false} AddAllAccepts(prog: seq<Inst>, s: string, i: nat, starts: seq<nat>, t: Threads)
    requires Safe(prog) && Below(starts, |prog|) && Good(prog, t, [], i == 0, i == |s|)
    ensures AnyAcc(prog, s, AddAll(prog, starts, t, i == 0, i == |s|).list, i) <==>
              AnyAcc(prog, s, t.list, i) || AnyAcc(prog, s, starts, i)
    decreases |starts|
  {
    if starts != [] {
      var first, last := i == 0, i == |s|;
      var one := Closure(prog, [starts[0]], t, first, last);
      GoodWithMore(prog, t, starts[0], first, last);
      ClosureGood(prog, [starts[0]], t, first, last);
      ClosureGrows(prog, [starts[0]], t, first, last);
      ClosureSound(prog, s, i, [starts[0]], t);
      OneClosureComplete(prog, s, i, starts[0], t, one);
      AddAllAccepts(prog, s, i, starts[1..], one);
      assert starts == [starts[0]] + starts[1..];
    }
  }

  lemma OneClosureComplete(prog: seq<Inst>, s: string, i: nat, start: nat, t: Threads, r: Threads)
    requires Good(prog, r, [], i == 0, i == |s|) && t.seen <= r.seen && start in r.seen
    requires forall q :: q in t.list ==> q in t.seen
    ensures AnyAcc(prog, s, t.list, i) || AnyAcc(prog, s, [start], i) ==> AnyAcc(prog, s, r.list, i)
  {
    if AnyAcc(prog, s, t.list, i) {
      var p :| p in t.list && Acc(prog, s, p, i);
      SaturatedAcc(prog, s, i, r, p);
    }
    if AnyAcc(prog, s, [start], i) {
      SaturatedAcc(prog, s, i, r, start);
    }
  }

  lemma SaturatedAcc(prog: seq<Inst>, s: string, i: nat, t: Threads, p: nat)
    requires Good(prog, t, [], i == 0, i == |s|) && p in t.seen && Acc(prog, s, p, i)
    ensures AnyAcc(prog, s, t.list, i)
  {
    var k: nat :| Accepts(prog, s, k, p, i);
    Saturated(prog, s, i, t, k, p);
  }

  predicate HasMatch(prog: seq<Inst>, list: seq<nat>)
    requires Below(list, |prog|)
  {
    exists k :: 0 <= k < |list| && prog[list[k]].Match?
  }

  /** One character: the threads accept now, or their consuming successors accept one further on. */
  lemma {:induction false} NextAccepts(prog: seq<Inst>, s: string, i: nat, list: seq<nat>)
    requires Below(list, |prog|) && i < |s|
    requires forall q :: q in list ==> !IsEpsilon(prog[q])
    ensures AnyAcc(prog, s, list, i) <==>
              HasMatch(prog, list) || AnyAcc(prog, s, Next(prog, list, s[i]), i + 1)
    decreases |list|
  {
    hide Acc, Accepts;
    if list != [] {
      NextAccepts(prog, s, i, list[1..]);
      ConsumeStep(prog, s, list[0], i);
      assert list == [list[0]] + list[1..];
      assert HasMatch(prog, list) <==> prog[list[0]].Match? || HasMatch(prog, list[1..]) by {
        if HasMatch(prog, list[1..]) {
          var k :| 0 <= k < |list[1..]| && prog[list[1..][k]].Match?;
          assert prog[list[k + 1]].Match?;
        }
      }
    }
  }

  lemma ConsumeStep(prog: seq<Inst>, s: string, pc: nat, i: nat)
    requires pc < |prog| && !IsEpsilon(prog[pc])
    ensures Acc(prog, s, pc, i) <==>
              prog[pc].Match? || (i < |s| && Consumes(prog[pc], s[i]) && Acc(prog, s, pc + 1, i + 1))
  {
    if prog[pc].Match? {
      assert Accepts(prog, s, 0, pc, i);
    } else if Acc(prog, s, pc, i) {
      var k: nat :| Accepts(prog, s, k, pc, i);
      assert Accepts(prog, s, k - 1, pc + 1, i + 1);
    } else if i < |s| && Consumes(prog[pc], s[i]) && Acc(prog, s, pc + 1, i + 1) {
      var k: nat :| Accepts(prog, s, k, pc + 1, i + 1);
      assert Accepts(prog, s, k + 1, pc, i);
    }
  }

  /** Some position's thread list holds an accepting instruction. */
  ghost predicate Finds(prog: seq<Inst>, starts: seq<nat>, s: string, pos: nat)
    requires Safe(prog) && Below(starts, |prog|)
    decreases |s| + 1 - pos
  {
    pos <= |s| && (HasMatch(prog, ThreadList(prog, starts, s, pos)) || Finds(prog, starts, s, pos + 1))
  }

  /** From any position on, the simulation finds a match exactly when a current thread accepts. */
  lemma {:induction false} FindsFrom(prog: seq<Inst>, starts: seq<nat>, s: string, pos: nat)
    requires Safe(prog) && Below(starts, |prog|) && pos <= |s|
    ensures Finds(prog, starts, s, pos) <==> AnyAcc(prog, s, ThreadList(prog, starts, s, pos), pos)
    decreases |s| - pos
  {
    hide Acc, Next, AddAll, Safe, Consumes;
    var list := ThreadList(prog, starts, s, pos);
    ThreadListGood(prog, starts, s, pos);
    if pos < |s| {
      FindsFrom(prog, starts, s, pos + 1);
      NextAccepts(prog, s, pos, list);
      AddAllAccepts(prog, s, pos + 1, Next(prog, list, s[pos]), NoThreads);
    } else {
      assert !Finds(prog, starts, s, pos + 1);
      forall q | q in list ensures Acc(prog, s, q, pos) <==> prog[q].Match? { ConsumeStep(prog, s, q, pos); }
      if HasMatch(prog, list) {
        var k :| 0 <= k < |list| && prog[list[k]].Match?;
        assert list[k] in list;
      }
    }
  }

  lemma ThreadListGood(prog: seq<Inst>, starts: seq<nat>, s: string, pos: nat)
    requires Safe(prog) && Below(starts, |prog|) && pos <= |s|
    ensures var list := ThreadList(prog, starts, s, pos);
      Distinct(list) && |list| <= |prog| && forall q :: q in list ==> !IsEpsilon(prog[q])
  {
    var from := if pos == 0 then starts else Next(prog, ThreadList(prog, starts, s, pos - 1), s[pos - 1]);
    AddAllGood(prog, from, NoThreads, pos == 0, pos == |s|);
    ListBound(ThreadList(prog, starts, s, pos), |prog|);
  }

  /** The simulation from one entry point decides acceptance of the whole text. */
  lemma SimulationExact(prog: seq<Inst>, s: string)
    requires Safe(prog) && |prog| > 0
    ensures Finds(prog, [0], s, 0) <==> Acc(prog, s, 0, 0)
  {
    FindsFrom(prog, [0], s, 0);
    AddAllAccepts(prog, s, 0, [0], NoThreads);
  }
}
