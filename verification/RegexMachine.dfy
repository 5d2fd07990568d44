/** What a compiled program accepts, and that compilation preserves the pattern's meaning. */
module RegexMachine {
  import opened Wrappers
  import opened RegexAst
  import opened RegexCode

  /** Whether a consuming instruction takes `c`. */
  predicate Consumes(inst: Inst, c: char) {
    match inst
    case IChar(d) => c == d
    case IAny => c != '\n'
    case IClass(items, negated) => ClassHit(items, negated, c)
    case _ => false
  }

  /** From `pc` at text position `i`, some run of at most `k` steps ends in `Match`. */
  ghost predicate Accepts(prog: seq<Inst>, s: string, k: nat, pc: nat, i: nat) {
    pc < |prog| &&
    match prog[pc]
    case Match => true
    case MatchN(_) => false
    case Jmp(x) => k > 0 && Accepts(prog, s, k - 1, x, i)
    case Split(x, y) => k > 0 && (Accepts(prog, s, k - 1, x, i) || Accepts(prog, s, k - 1, y, i))
    case IStart => k > 0 && i == 0 && Accepts(prog, s, k - 1, pc + 1, i)
    case IEnd => k > 0 && i == |s| && Accepts(prog, s, k - 1, pc + 1, i)
    case _ => k > 0 && i < |s| && Consumes(prog[pc], s[i]) && Accepts(prog, s, k - 1, pc + 1, i + 1)
  }

  ghost predicate CodeAt(prog: seq<Inst>, base: nat, code: seq<Inst>) {
    base + |code| <= |prog| && prog[base..base + |code|] == code
  }

  lemma CodeAtIndex(prog: seq<Inst>, base: nat, code: seq<Inst>, t: nat)
    requires CodeAt(prog, base, code) && t < |code|
    ensures prog[base + t] == code[t]
  {
    assert prog[base..base + |code|][t] == prog[base + t];
  }

  lemma CodeAtParts(prog: seq<Inst>, base: nat, c: seq<Inst>, d: seq<Inst>)
    requires CodeAt(prog, base, c + d)
    ensures CodeAt(prog, base, c) && CodeAt(prog, base + |c|, d)
  {
    assert prog[base..base + |c|] == (c + d)[..|c|];
    assert prog[base + |c|..base + |c| + |d|] == (c + d)[|c|..];
  }

  /** The code of each composite pattern, one level deep. */
  lemma NodeCode(a: Ast, base: nat)
    ensures a.Empty? ==> Size(a) == 0
    ensures a.Concat? ==> Emit(a, base) == EmitAll(a.parts, base) && Size(a) == SizeAll(a.parts)
    ensures a.Alt? ==> Emit(a, base) == EmitAlt(a.alternatives, base) && Size(a) == SizeAlt(a.alternatives)
    ensures a.Star? ==> Emit(a, base) == EmitStar(a.body, base) && Size(a) == Size(a.body) + 2
    ensures a.Plus? ==> Emit(a, base) == EmitPlus(a.body, base) && Size(a) == Size(a.body) + 1
    ensures a.Quest? ==> Emit(a, base) == EmitQuest(a.body, base) && Size(a) == Size(a.body) + 1
    ensures a.Repeat? ==> Emit(a, base) == EmitRepeat(a.body, a.min, a.max, base)
  {
  }

  /** The meaning of each composite pattern, one level deep. */
  lemma NodeMatch(a: Ast, s: string, i: nat, j: nat)
    ensures a.Empty? ==> (Matches(a, s, i, j) <==> i == j)
    ensures a.Concat? ==> (Matches(a, s, i, j) <==> MatchesAll(a.parts, s, i, j))
    ensures a.Alt? ==>
      (Matches(a, s, i, j) <==> exists t :: 0 <= t < |a.alternatives| && Matches(a.alternatives[t], s, i, j))
    ensures a.Quest? ==> (Matches(a, s, i, j) <==> i == j || Matches(a.body, s, i, j))
  {
  }

  lemma CopiesMatch(b: Ast, n: nat, s: string, i: nat, j: nat)
    requires Copies(b, n, s, i, j)
    ensures Matches(Star(b), s, i, j) && (n >= 1 ==> Matches(Plus(b), s, i, j))
  {
  }

  lemma MatchCopies(a: Ast, s: string, i: nat, j: nat) returns (n: nat)
    requires (a.Star? || a.Plus?) && Matches(a, s, i, j)
    ensures Copies(a.body, n, s, i, j) && (a.Plus? ==> n >= 1)
  {
    if a.Star? {
      n :| Copies(a.body, n, s, i, j);
    } else {
      n :| n >= 1 && Copies(a.body, n, s, i, j);
    }
  }

  // ----- soundness: an accepting run through the code of `a` matches `a` -----

  lemma {:induction false} Sound(prog: seq<Inst>, s: string, a: Ast, base: nat, k: nat, i: nat)
    returns (j: nat, left: nat)
    requires WellFormed(a) && CodeAt(prog, base, Emit(a, base))
    requires Accepts(prog, s, k, base, i)
    ensures left <= k && Matches(a, s, i, j)
    ensures Accepts(prog, s, left, base + Size(a), j)
    decreases a, 1
  {
    hide Accepts, CodeAt, Copies, MatchesAll, Emit, Size, Matches;
    NodeCode(a, base);
    match a {
    case Empty => j, left := i, k;
    case Concat(v) => j, left := SoundAll(prog, s, v, base, k, i);
    case Alt(v) =>
      ghost var t: nat;
      j, left, t := SoundAlt(prog, s, v, base, k, i);
    case Star(b) =>
      ghost var n: nat;
      j, left, n := SoundStar(prog, s, b, base, k, i);
      CopiesMatch(b, n, s, i, j);
    case Plus(b) =>
      ghost var n: nat;
      j, left, n := SoundPlus(prog, s, b, base, k, i);
      CopiesMatch(b, n, s, i, j);
    case Quest(b) => j, left := SoundQuest(prog, s, b, base, k, i);
    case Repeat(b, lo, hi) => j, left := SoundRepeat(prog, s, b, lo, hi, base, k, i);
    case _ => j, left := SoundLeaf(prog, s, a, base, k, i);
    }
    NodeMatch(a, s, i, j);
  }

  ghost predicate IsLeaf(a: Ast) {
    a.Char? || a.Any? || a.Class? || a.Start? || a.End?
  }

  lemma SoundLeaf(prog: seq<Inst>, s: string, a: Ast, base: nat, k: nat, i: nat) returns (j: nat, left: nat)
    requires IsLeaf(a) && CodeAt(prog, base, Emit(a, base)) && Accepts(prog, s, k, base, i)
    ensures left <= k && Matches(a, s, i, j)
    ensures Accepts(prog, s, left, base + Size(a), j)
  {
    CodeAtIndex(prog, base, Emit(a, base), 0);
    j, left := if a.Start? || a.End? then i else i + 1, k - 1;
  }

  lemma {:induction false} SoundAll(prog: seq<Inst>, s: string, v: seq<Ast>, base: nat, k: nat, i: nat)
    returns (j: nat, left: nat)
    requires (forall t :: 0 <= t < |v| ==> WellFormed(v[t])) && CodeAt(prog, base, EmitAll(v, base))
    requires Accepts(prog, s, k, base, i)
    ensures left <= k && MatchesAll(v, s, i, j)
    ensures Accepts(prog, s, left, base + SizeAll(v), j)
    decreases v, 0
  {
    hide Accepts, CodeAt, Emit, Matches;
    if v == [] {
      j, left := i, k;
    } else {
      CodeAtParts(prog, base, Emit(v[0], base), EmitAll(v[1..], base + Size(v[0])));
      var m, mid := Sound(prog, s, v[0], base, k, i);
      j, left := SoundAll(prog, s, v[1..], base + Size(v[0]), mid, m);
    }
  }

  lemma {:induction false} SoundAlt(prog: seq<Inst>, s: string, v: seq<Ast>, base: nat, k: nat, i: nat)
    returns (j: nat, left: nat, t: nat)
    requires v != [] && (forall t :: 0 <= t < |v| ==> WellFormed(v[t]))
    requires CodeAt(prog, base, EmitAlt(v, base))
    requires Accepts(prog, s, k, base, i)
    ensures left <= k && t < |v| && Matches(v[t], s, i, j)
    ensures Accepts(prog, s, left, base + SizeAlt(v), j)
    decreases v, 0
  {
    hide Emit, Matches, CodeAt;
    t := 0;
    if |v| == 1 {
      j, left := Sound(prog, s, v[0], base, k, i);
    } else {
      var next := base + Size(v[0]) + 2;
      AltCode(prog, v, base, next);
      if Accepts(prog, s, k - 1, base + 1, i) {
        var mid;
        j, mid := Sound(prog, s, v[0], base + 1, k - 1, i);
        left := mid - 1;
      } else {
        j, left, t := SoundAlt(prog, s, v[1..], next, k - 1, i);
        t := t + 1;
      }
    }
  }

  lemma BranchCode(prog: seq<Inst>, a: Ast, base: nat)
    requires CodeAt(prog, base, BranchHead(a, base))
    ensures base < |prog| && prog[base] == Split(base + 1, base + Size(a) + 2)
    ensures CodeAt(prog, base + 1, Emit(a, base + 1))
  {
    hide Emit, Size;
    var split := [Split(base + 1, base + Size(a) + 2)];
    CodeAtParts(prog, base, split, Emit(a, base + 1));
    CodeAtIndex(prog, base, split, 0);
  }

  /** The instructions of an alternation with more than one branch. */
  lemma AltCode(prog: seq<Inst>, v: seq<Ast>, base: nat, next: nat)
    requires |v| > 1 && next == base + Size(v[0]) + 2
    requires CodeAt(prog, base, EmitAlt(v, base))
    ensures base + SizeAlt(v) == next + SizeAlt(v[1..])
    ensures next <= |prog| && prog[base] == Split(base + 1, next) && prog[next - 1] == Jmp(base + SizeAlt(v))
    ensures CodeAt(prog, base + 1, Emit(v[0], base + 1))
    ensures CodeAt(prog, next, EmitAlt(v[1..], next))
  {
    EmitAltCons(v, base, next);
    var head, jump := BranchHead(v[0], base), [Jmp(base + SizeAlt(v))];
    CodeAtParts(prog, base, head + jump, EmitAlt(v[1..], next));
    CodeAtParts(prog, base, head, jump);
    CodeAtIndex(prog, next - 1, jump, 0);
    BranchCode(prog, v[0], base);
  }

  lemma StarCode(prog: seq<Inst>, b: Ast, base: nat)
    requires CodeAt(prog, base, EmitStar(b, base))
    ensures base + Size(b) + 2 <= |prog|
    ensures prog[base] == Split(base + 1, base + Size(b) + 2) && prog[base + Size(b) + 1] == Jmp(base)
    ensures CodeAt(prog, base + 1, Emit(b, base + 1))
  {
    hide Emit, Size;
    var split, body, jump := [Split(base + 1, base + Size(b) + 2)], Emit(b, base + 1), [Jmp(base)];
    CodeAtParts(prog, base, split, body + jump);
    CodeAtParts(prog, base + 1, body, jump);
    CodeAtIndex(prog, base, split, 0);
    CodeAtIndex(prog, base + Size(b) + 1, jump, 0);
  }

  lemma QuestCode(prog: seq<Inst>, b: Ast, base: nat)
    requires CodeAt(prog, base, EmitQuest(b, base))
    ensures base < |prog| && prog[base] == Split(base + 1, base + Size(b) + 1)
    ensures CodeAt(prog, base + 1, Emit(b, base + 1))
  {
    hide Emit, Size;
    var split := [Split(base + 1, base + Size(b) + 1)];
    CodeAtParts(prog, base, split, Emit(b, base + 1));
    CodeAtIndex(prog, base, split, 0);
  }

  lemma PlusCode(prog: seq<Inst>, b: Ast, base: nat)
    requires CodeAt(prog, base, EmitPlus(b, base))
    ensures base + Size(b) < |prog| && prog[base + Size(b)] == Split(base, base + Size(b) + 1)
    ensures CodeAt(prog, base, Emit(b, base))
  {
    hide Emit, Size;
    var split := [Split(base, base + Size(b) + 1)];
    CodeAtParts(prog, base, Emit(b, base), split);
    CodeAtIndex(prog, base + Size(b), split, 0);
  }

  lemma RepeatCode(prog: seq<Inst>, b: Ast, lo: nat, hi: Option<nat>, base: nat)
    requires CodeAt(prog, base, EmitRepeat(b, lo, hi, base))
    ensures CodeAt(prog, base, EmitCopies(b, lo, base))
    ensures hi.None? ==> CodeAt(prog, base + SizeCopies(b, lo), EmitStar(b, base + SizeCopies(b, lo)))
    ensures hi.Some? ==>
      CodeAt(prog, base + SizeCopies(b, lo), EmitQuests(b, hi.value - lo, base + SizeCopies(b, lo)))
  {
    var mid := base + SizeCopies(b, lo);
    CodeAtParts(prog, base, EmitCopies(b, lo, base),
                if hi.None? then EmitStar(b, mid) else EmitQuests(b, hi.value - lo, mid));
  }

  /** Each trip round the loop spends steps, so an accepting run leaves after finitely many copies. */
  lemma {:induction false} SoundStar(prog: seq<Inst>, s: string, b: Ast, base: nat, k: nat, i: nat)
    returns (j: nat, left: nat, n: nat)
    requires WellFormed(b) && CodeAt(prog, base, EmitStar(b, base))
    requires Accepts(prog, s, k, base, i)
    ensures left <= k && Copies(b, n, s, i, j)
    ensures Accepts(prog, s, left, base + Size(b) + 2, j)
    decreases b, 2 + k
  {
    StarCode(prog, b, base);
    if Accepts(prog, s, k - 1, base + 1, i) {
      var m, mid := Sound(prog, s, b, base + 1, k - 1, i);
      j, left, n := SoundStar(prog, s, b, base, mid - 1, m);
      assert Matches(b, s, i, m) && Copies(b, n, s, m, j);
      n := n + 1;
    } else {
      j, left, n := i, k - 1, 0;
    }
  }

  lemma {:induction false} SoundPlus(prog: seq<Inst>, s: string, b: Ast, base: nat, k: nat, i: nat)
    returns (j: nat, left: nat, n: nat)
    requires WellFormed(b) && CodeAt(prog, base, EmitPlus(b, base))
    requires Accepts(prog, s, k, base, i)
    ensures left <= k && n >= 1 && Copies(b, n, s, i, j)
    ensures Accepts(prog, s, left, base + Size(b) + 1, j)
    decreases b, 2 + k
  {
    PlusCode(prog, b, base);
    var m, mid := Sound(prog, s, b, base, k, i);
    if Accepts(prog, s, mid - 1, base, m) {
      j, left, n := SoundPlus(prog, s, b, base, mid - 1, m);
      assert Matches(b, s, i, m) && Copies(b, n, s, m, j);
      n := n + 1;
    } else {
      assert Matches(b, s, i, m) && Copies(b, 0, s, m, m);
      j, left, n := m, mid - 1, 1;
    }
  }

  lemma {:induction false} SoundQuest(prog: seq<Inst>, s: string, b: Ast, base: nat, k: nat, i: nat)
    returns (j: nat, left: nat)
    requires WellFormed(b) && CodeAt(prog, base, EmitQuest(b, base))
    requires Accepts(prog, s, k, base, i)
    ensures left <= k && (i == j || Matches(b, s, i, j))
    ensures Accepts(prog, s, left, base + Size(b) + 1, j)
    decreases b, 2
  {
    QuestCode(prog, b, base);
    if Accepts(prog, s, k - 1, base + 1, i) {
      j, left := Sound(prog, s, b, base + 1, k - 1, i);
    } else {
      j, left := i, k - 1;
    }
  }

  lemma {:induction false} SoundCopies(prog: seq<Inst>, s: string, b: Ast, count: nat, base: nat, k: nat, i: nat)
    returns (j: nat, left: nat)
    requires WellFormed(b) && CodeAt(prog, base, EmitCopies(b, count, base))
    requires Accepts(prog, s, k, base, i)
    ensures left <= k && Copies(b, count, s, i, j)
    ensures Accepts(prog, s, left, base + SizeCopies(b, count), j)
    decreases b, 1 + count
  {
    hide Accepts, CodeAt, Emit, Matches;
    if count == 0 {
      j, left := i, k;
    } else {
      CodeAtParts(prog, base, Emit(b, base), EmitCopies(b, count - 1, base + Size(b)));
      var m, mid := Sound(prog, s, b, base, k, i);
      j, left := SoundCopies(prog, s, b, count - 1, base + Size(b), mid, m);
      assert Matches(b, s, i, m) && Copies(b, count - 1, s, m, j);
    }
  }

  lemma {:induction false} SoundQuests(prog: seq<Inst>, s: string, b: Ast, count: nat, base: nat, k: nat, i: nat)
    returns (j: nat, left: nat, n: nat)
    requires WellFormed(b) && CodeAt(prog, base, EmitQuests(b, count, base))
    requires Accepts(prog, s, k, base, i)
    ensures left <= k && n <= count && Copies(b, n, s, i, j)
    ensures Accepts(prog, s, left, base + SizeQuests(b, count), j)
    decreases b, 2 + count
  {
    hide Accepts, CodeAt, Emit, Matches;
    if count == 0 {
      j, left, n := i, k, 0;
    } else {
      var next := base + Size(b) + 1;
      CodeAtParts(prog, base, EmitQuest(b, base), EmitQuests(b, count - 1, next));
      var m, mid := SoundQuest(prog, s, b, base, k, i);
      j, left, n := SoundQuests(prog, s, b, count - 1, next, mid, m);
      if i != m {
        assert Matches(b, s, i, m) && Copies(b, n, s, m, j);
        n := n + 1;
      }
    }
  }

  lemma {:induction false} SoundRepeat(
    prog: seq<Inst>, s: string, b: Ast, lo: nat, hi: Option<nat>, base: nat, k: nat, i: nat)
    returns (j: nat, left: nat)
    requires WellFormed(Repeat(b, lo, hi)) && CodeAt(prog, base, EmitRepeat(b, lo, hi, base))
    requires Accepts(prog, s, k, base, i)
    ensures left <= k && Matches(Repeat(b, lo, hi), s, i, j)
    ensures Accepts(prog, s, left, base + Size(Repeat(b, lo, hi)), j)
    decreases Repeat(b, lo, hi), 0
  {
    hide Accepts, CodeAt, Emit, Copies, EmitCopies, EmitStar, EmitQuests;
    var mid := base + SizeCopies(b, lo);
    RepeatCode(prog, b, lo, hi, base);
    var m, l := SoundCopies(prog, s, b, lo, base, k, i);
    var n: nat;
    if hi.None? {
      j, left, n := SoundStar(prog, s, b, mid, l, m);
    } else {
      j, left, n := SoundQuests(prog, s, b, hi.value - lo, mid, l, m);
    }
    CopiesJoin(b, lo, n, s, i, m, j);
  }

  /** One step back along a split or a jump. */
  lemma BranchBack(prog: seq<Inst>, s: string, k: nat, pc: nat, to: nat, i: nat)
    requires pc < |prog| && Accepts(prog, s, k, to, i)
    requires prog[pc] == Jmp(to) || (prog[pc].Split? && (prog[pc].x == to || prog[pc].y == to))
    ensures Accepts(prog, s, k + 1, pc, i)
  {
  }

  // ----- completeness: a match of `a` carries an accepting run back over its code -----

  lemma {:induction false} Complete(prog: seq<Inst>, s: string, a: Ast, base: nat, i: nat, j: nat, left: nat)
    returns (k: nat)
    requires WellFormed(a) && CodeAt(prog, base, Emit(a, base))
    requires Matches(a, s, i, j) && Accepts(prog, s, left, base + Size(a), j)
    ensures Accepts(prog, s, k, base, i)
    decreases a, 1
  {
    hide Accepts, CodeAt, Copies, MatchesAll, Emit, Size, Matches;
    NodeCode(a, base);
    NodeMatch(a, s, i, j);
    match a
    case Empty => k := left;
    case Concat(v) => k := CompleteAll(prog, s, v, base, i, j, left);
    case Alt(v) =>
      var t :| 0 <= t < |v| && Matches(v[t], s, i, j);
      k := CompleteAlt(prog, s, v, t, base, i, j, left);
    case Star(b) =>
      var n := MatchCopies(a, s, i, j);
      k := CompleteStar(prog, s, b, n, base, i, j, left);
    case Plus(b) =>
      var n := MatchCopies(a, s, i, j);
      k := CompletePlus(prog, s, b, n, base, i, j, left);
    case Quest(b) => k := CompleteQuest(prog, s, b, base, i, j, left);
    case Repeat(b, lo, hi) => k := CompleteRepeat(prog, s, b, lo, hi, base, i, j, left);
    case _ => k := CompleteLeaf(prog, s, a, base, i, j, left);
  }

  lemma CompleteLeaf(prog: seq<Inst>, s: string, a: Ast, base: nat, i: nat, j: nat, left: nat) returns (k: nat)
    requires IsLeaf(a) && CodeAt(prog, base, Emit(a, base))
    requires Matches(a, s, i, j) && Accepts(prog, s, left, base + Size(a), j)
    ensures Accepts(prog, s, k, base, i)
  {
    CodeAtIndex(prog, base, Emit(a, base), 0);
    k := left + 1;
  }

  lemma {:induction false} CompleteAll(prog: seq<Inst>, s: string, v: seq<Ast>, base: nat, i: nat, j: nat, left: nat)
    returns (k: nat)
    requires (forall t :: 0 <= t < |v| ==> WellFormed(v[t])) && CodeAt(prog, base, EmitAll(v, base))
    requires MatchesAll(v, s, i, j) && Accepts(prog, s, left, base + SizeAll(v), j)
    ensures Accepts(prog, s, k, base, i)
    decreases v, 0
  {
    hide Accepts, CodeAt, Emit, Matches;
    if v == [] {
      k := left;
    } else {
      CodeAtParts(prog, base, Emit(v[0], base), EmitAll(v[1..], base + Size(v[0])));
      var m: nat :| Matches(v[0], s, i, m) && MatchesAll(v[1..], s, m, j);
      k := CompleteAll(prog, s, v[1..], base + Size(v[0]), m, j, left);
      k := Complete(prog, s, v[0], base, i, m, k);
    }
  }

  lemma {:induction false} CompleteAlt(
    prog: seq<Inst>, s: string, v: seq<Ast>, t: nat, base: nat, i: nat, j: nat, left: nat)
    returns (k: nat)
    requires (forall t :: 0 <= t < |v| ==> WellFormed(v[t])) && CodeAt(prog, base, EmitAlt(v, base))
    requires t < |v| && Matches(v[t], s, i, j)
    requires Accepts(prog, s, left, base + SizeAlt(v), j)
    ensures Accepts(prog, s, k, base, i)
    decreases v, 0
  {
    hide CodeAt, Emit, Matches, Accepts, Size;
    if |v| == 1 {
      k := Complete(prog, s, v[0], base, i, j, left);
    } else {
      var next := base + Size(v[0]) + 2;
      AltCode(prog, v, base, next);
      if t == 0 {
        BranchBack(prog, s, left, next - 1, base + SizeAlt(v), j);
        k := Complete(prog, s, v[0], base + 1, i, j, left + 1);
        BranchBack(prog, s, k, base, base + 1, i);
      } else {
        assert v[1..][t - 1] == v[t];
        k := CompleteAlt(prog, s, v[1..], t - 1, next, i, j, left);
        BranchBack(prog, s, k, base, next, i);
      }
      k := k + 1;
    }
  }

  lemma {:induction false} CompleteStar(
    prog: seq<Inst>, s: string, b: Ast, n: nat, base: nat, i: nat, j: nat, left: nat) returns (k: nat)
    requires WellFormed(b) && CodeAt(prog, base, EmitStar(b, base))
    requires Copies(b, n, s, i, j) && Accepts(prog, s, left, base + Size(b) + 2, j)
    ensures Accepts(prog, s, k, base, i)
    decreases b, 1 + n
  {
    hide CodeAt, Emit, Matches, Accepts;
    StarCode(prog, b, base);
    if n == 0 {
      BranchBack(prog, s, left, base, base + Size(b) + 2, i);
      k := left + 1;
    } else {
      var m: nat :| Matches(b, s, i, m) && Copies(b, n - 1, s, m, j);
      k := CompleteStar(prog, s, b, n - 1, base, m, j, left);
      BranchBack(prog, s, k, base + Size(b) + 1, base, m);
      k := Complete(prog, s, b, base + 1, i, m, k + 1);
      BranchBack(prog, s, k, base, base + 1, i);
      k := k + 1;
    }
  }

  lemma {:induction false} CompletePlus(
    prog: seq<Inst>, s: string, b: Ast, n: nat, base: nat, i: nat, j: nat, left: nat) returns (k: nat)
    requires WellFormed(b) && CodeAt(prog, base, EmitPlus(b, base))
    requires n >= 1 && Copies(b, n, s, i, j) && Accepts(prog, s, left, base + Size(b) + 1, j)
    ensures Accepts(prog, s, k, base, i)
    decreases b, 1 + n
  {
    PlusCode(prog, b, base);
    var m: nat :| Matches(b, s, i, m) && Copies(b, n - 1, s, m, j);
    if n == 1 {
      k := left;
    } else {
      k := CompletePlus(prog, s, b, n - 1, base, m, j, left);
    }
    k := Complete(prog, s, b, base, i, m, k + 1);
  }

  lemma {:induction false} CompleteQuest(prog: seq<Inst>, s: string, b: Ast, base: nat, i: nat, j: nat, left: nat)
    returns (k: nat)
    requires WellFormed(b) && CodeAt(prog, base, EmitQuest(b, base))
    requires (i == j || Matches(b, s, i, j)) && Accepts(prog, s, left, base + Size(b) + 1, j)
    ensures Accepts(prog, s, k, base, i)
    decreases b, 2
  {
    QuestCode(prog, b, base);
    if Matches(b, s, i, j) {
      k := Complete(prog, s, b, base + 1, i, j, left);
    } else {
      k := left;
    }
    k := k + 1;
  }

  lemma {:induction false} CompleteCopies(
    prog: seq<Inst>, s: string, b: Ast, count: nat, base: nat, i: nat, j: nat, left: nat) returns (k: nat)
    requires WellFormed(b) && CodeAt(prog, base, EmitCopies(b, count, base))
    requires Copies(b, count, s, i, j) && Accepts(prog, s, left, base + SizeCopies(b, count), j)
    ensures Accepts(prog, s, k, base, i)
    decreases b, 1 + count
  {
    hide Accepts, CodeAt, Emit, Matches;
    if count == 0 {
      k := left;
    } else {
      CodeAtParts(prog, base, Emit(b, base), EmitCopies(b, count - 1, base + Size(b)));
      var m: nat :| Matches(b, s, i, m) && Copies(b, count - 1, s, m, j);
      k := CompleteCopies(prog, s, b, count - 1, base + Size(b), m, j, left);
      k := Complete(prog, s, b, base, i, m, k);
    }
  }

  lemma {:induction false} CompleteQuests(
    prog: seq<Inst>, s: string, b: Ast, count: nat, n: nat, base: nat, i: nat, j: nat, left: nat) returns (k: nat)
    requires WellFormed(b) && CodeAt(prog, base, EmitQuests(b, count, base))
    requires n <= count && Copies(b, n, s, i, j) && Accepts(prog, s, left, base + SizeQuests(b, count), j)
    ensures Accepts(prog, s, k, base, i)
    decreases b, 2 + count
  {
    hide Accepts, CodeAt, Emit, Matches;
    if count == 0 {
      k := left;
    } else {
      var next := base + Size(b) + 1;
      CodeAtParts(prog, base, EmitQuest(b, base), EmitQuests(b, count - 1, next));
      var m, rest := i, n;
      if n > 0 {
        m :| Matches(b, s, i, m) && Copies(b, n - 1, s, m, j);
        rest := n - 1;
      }
      k := CompleteQuests(prog, s, b, count - 1, rest, next, m, j, left);
      k := CompleteQuest(prog, s, b, base, i, m, k);
    }
  }

  lemma {:induction false} CompleteRepeat(
    prog: seq<Inst>, s: string, b: Ast, lo: nat, hi: Option<nat>, base: nat, i: nat, j: nat, left: nat)
    returns (k: nat)
    requires WellFormed(Repeat(b, lo, hi)) && CodeAt(prog, base, EmitRepeat(b, lo, hi, base))
    requires Matches(Repeat(b, lo, hi), s, i, j)
    requires Accepts(prog, s, left, base + Size(Repeat(b, lo, hi)), j)
    ensures Accepts(prog, s, k, base, i)
    decreases Repeat(b, lo, hi), 0
  {
    hide Accepts, CodeAt, Emit, Copies, EmitCopies, EmitStar, EmitQuests;
    var mid := base + SizeCopies(b, lo);
    var n: nat :| lo <= n && (hi.Some? ==> n <= hi.value) && Copies(b, n, s, i, j);
    var m := CopiesSplit(b, lo, n - lo, s, i, j);
    RepeatCode(prog, b, lo, hi, base);
    if hi.None? {
      k := CompleteStar(prog, s, b, n - lo, mid, m, j, left);
    } else {
      k := CompleteQuests(prog, s, b, hi.value - lo, n - lo, mid, m, j, left);
    }
    k := CompleteCopies(prog, s, b, lo, base, i, m, k);
  }
}
