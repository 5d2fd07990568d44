/** `RegexSet::new` and `RegexSet::matches` of src/regex.rs. */
module RegexSetSearch {
  import opened Wrappers
  import opened RegexAst
  import opened RegexCode
  import opened RegexMachine
  import opened RegexMatcher
  import opened Regex
  import opened RegexSet

  // ----- the combined program -----

  /** `prog` is the relocated programs of `parts` end to end, `starts` their addresses. */
  ghost predicate Assembled(prog: seq<Inst>, starts: seq<nat>, parts: seq<seq<Inst>>) {
    && |starts| == |parts|
    && (parts == [] ==> prog == [])
    && (parts != [] ==> starts[0] == 0 && starts[|starts| - 1] + |parts[|parts| - 1]| == |prog|)
    && (forall i :: 0 <= i < |parts| - 1 ==> starts[i] + |parts[i]| == starts[i + 1])
    && (forall i :: 0 <= i < |parts| ==> PlacedAt(prog, starts[i], parts[i], i))
  }

  ghost predicate PlacedAt(prog: seq<Inst>, base: nat, part: seq<Inst>, id: nat) {
    && part != [] && base + |part| <= |prog|
    && prog[base..base + |part|] == RelocateAll(part, base, id)
  }

  /** Each part is a pattern program: safe, and accepting with `Match`. */
  ghost predicate PartsSafe(parts: seq<seq<Inst>>) {
    forall i :: 0 <= i < |parts| ==> Safe(parts[i]) && forall pc :: 0 <= pc < |parts[i]| ==> !parts[i][pc].MatchN?
  }

  lemma {:induction false} StartsAscend(prog: seq<Inst>, starts: seq<nat>, parts: seq<seq<Inst>>, i: nat, j: nat)
    requires Assembled(prog, starts, parts) && i < j < |parts|
    ensures starts[i] + |parts[i]| <= starts[j]
    decreases j
  {
    if i + 1 < j {
      StartsAscend(prog, starts, parts, i, j - 1);
    }
    assert starts[j - 1] + |parts[j - 1]| == starts[j - 1 + 1];
  }

  /** Every instruction belongs to a part. */
  lemma {:induction false} Locate(prog: seq<Inst>, starts: seq<nat>, parts: seq<seq<Inst>>, pc: nat, n: nat)
    returns (i: nat)
    requires Assembled(prog, starts, parts) && pc < |prog|
    requires n < |parts| && pc < starts[n] + |parts[n]|
    ensures i < |parts| && Inside(pc, starts[i], |parts[i]|)
    decreases n
  {
    if starts[n] <= pc {
      i := n;
    } else {
      assert n > 0;
      assert starts[n - 1] + |parts[n - 1]| == starts[n - 1 + 1];
      i := Locate(prog, starts, parts, pc, n - 1);
    }
  }

  lemma InstAt(prog: seq<Inst>, base: nat, part: seq<Inst>, id: nat, pc: nat)
    requires PlacedAt(prog, base, part, id) && pc < |part|
    ensures prog[base + pc] == Relocate(part[pc], base, id)
  {
    assert prog[base..base + |part|][pc] == prog[base + pc];
  }

  /** An instruction's successors stay in its own part. */
  lemma SuccessorsStay(prog: seq<Inst>, starts: seq<nat>, parts: seq<seq<Inst>>, i: nat, k: nat, pc: nat)
    requires Assembled(prog, starts, parts) && PartsSafe(parts) && i < |parts| && k < |parts|
    requires Inside(pc, starts[k], |parts[k]|)
    ensures pc < |prog| && SafeAt(prog, pc)
    ensures i != k ==> Avoids(prog, pc, starts[i], |parts[i]|)
  {
    hide Assembled;
    assert PlacedAt(prog, starts[k], parts[k], k) by { PartPlaced(prog, starts, parts, k); }
    InstAt(prog, starts[k], parts[k], k, pc - starts[k]);
    assert SafeAt(parts[k], pc - starts[k]);
    if i < k {
      StartsAscend(prog, starts, parts, i, k);
    } else if k < i {
      StartsAscend(prog, starts, parts, k, i);
    }
  }

  lemma PartPlaced(prog: seq<Inst>, starts: seq<nat>, parts: seq<seq<Inst>>, i: nat)
    requires Assembled(prog, starts, parts) && i < |parts|
    ensures |starts| == |parts| && PlacedAt(prog, starts[i], parts[i], i)
  {
  }

  lemma AssembledPlaced(prog: seq<Inst>, starts: seq<nat>, parts: seq<seq<Inst>>, i: nat)
    requires Assembled(prog, starts, parts) && PartsSafe(parts) && i < |parts|
    ensures Placed(prog, parts[i], starts[i], i)
  {
    hide Safe, SafeAt, Avoids;
    AssembledSafe(prog, starts, parts);
    PartPlaced(prog, starts, parts, i);
    forall pc | 0 <= pc < |parts[i]| ensures prog[starts[i] + pc] == Relocate(parts[i][pc], starts[i], i) {
      InstAt(prog, starts[i], parts[i], i, pc);
    }
    forall pc | 0 <= pc < |prog| && !Inside(pc, starts[i], |parts[i]|)
      ensures Avoids(prog, pc, starts[i], |parts[i]|)
    {
      var k := Locate(prog, starts, parts, pc, |parts| - 1);
      SuccessorsStay(prog, starts, parts, i, k, pc);
    }
  }

  lemma AssembledSafe(prog: seq<Inst>, starts: seq<nat>, parts: seq<seq<Inst>>)
    requires Assembled(prog, starts, parts) && PartsSafe(parts)
    ensures Safe(prog) && Below(starts, |prog|)
  {
    hide SafeAt;
    forall pc | 0 <= pc < |prog| ensures SafeAt(prog, pc) {
      var k := Locate(prog, starts, parts, pc, |parts| - 1);
      SuccessorsStay(prog, starts, parts, k, k, pc);
    }
    forall i | 0 <= i < |starts| ensures starts[i] < |prog| { PartPlaced(prog, starts, parts, i); }
  }

  /** Of all the entry points, a pattern owns just its own, at its address 0. */
  lemma {:induction false} OwnStarts(prog: seq<Inst>, starts: seq<nat>, parts: seq<seq<Inst>>, i: nat, n: nat)
    requires Assembled(prog, starts, parts) && i < |parts| && n <= |parts|
    ensures Own(starts[..n], starts[i], |parts[i]|) == if i < n then [0] else []
    decreases n
  {
    hide Assembled, Own;
    PartPlaced(prog, starts, parts, i);
    if n == 0 {
      OwnNil(starts[i], |parts[i]|);
    } else {
      OwnStarts(prog, starts, parts, i, n - 1);
      assert starts[..n] == starts[..n - 1] + [starts[n - 1]];
      OwnAppend(starts[..n - 1], [starts[n - 1]], starts[i], |parts[i]|);
      OwnOne(starts[n - 1], starts[i], |parts[i]|);
      PartPlaced(prog, starts, parts, n - 1);
      if i < n - 1 {
        StartsAscend(prog, starts, parts, i, n - 1);
      } else if n - 1 < i {
        StartsAscend(prog, starts, parts, n - 1, i);
      }
    }
  }

  // ----- which patterns the shared pass reports -----

  predicate HitAt(prog: seq<Inst>, list: seq<nat>, id: nat)
    requires Below(list, |prog|)
  {
    exists k :: 0 <= k < |list| && prog[list[k]] == MatchN(id)
  }

  /** From position `pos` on, some shared list holds the accept of pattern `id`. */
  ghost predicate Hits(prog: seq<Inst>, starts: seq<nat>, s: string, id: nat, pos: nat)
    requires Safe(prog) && Below(starts, |prog|)
    decreases |s| + 1 - pos
  {
    pos <= |s| && (HitAt(prog, ThreadList(prog, starts, s, pos), id) || Hits(prog, starts, s, id, pos + 1))
  }

  lemma {:induction false} OwnMember(list: seq<nat>, base: nat, size: nat, q: nat)
    ensures q in Own(list, base, size) <==> q < size && q + base in list
    decreases |list|
  {
    if list != [] {
      OwnMember(list[1..], base, size, q);
      assert list == [list[0]] + list[1..];
    }
  }

  /** The shared list holds the accept of pattern `i` exactly when the pattern's own list accepts. */
  lemma HitAtOwn(prog: seq<Inst>, starts: seq<nat>, parts: seq<seq<Inst>>, i: nat, list: seq<nat>)
    requires Assembled(prog, starts, parts) && PartsSafe(parts) && i < |parts| && Below(list, |prog|)
    ensures HitAt(prog, list, i) <==> HasMatch(parts[i], Own(list, starts[i], |parts[i]|))
  {
    hide Safe, RelocateAll, Own, HitAt, HasMatch, PartsSafe, PlacedAt;
    if HitAt(prog, list, i) { HitIsOwn(prog, starts, parts, i, list); }
    if HasMatch(parts[i], Own(list, starts[i], |parts[i]|)) { OwnIsHit(prog, starts, parts, i, list); }
  }

  lemma HitIsOwn(prog: seq<Inst>, starts: seq<nat>, parts: seq<seq<Inst>>, i: nat, list: seq<nat>)
    requires Assembled(prog, starts, parts) && PartsSafe(parts) && i < |parts| && Below(list, |prog|)
    requires HitAt(prog, list, i)
    ensures HasMatch(parts[i], Own(list, starts[i], |parts[i]|))
  {
    hide Safe, RelocateAll, Own;
    var own := Own(list, starts[i], |parts[i]|);
    var k :| 0 <= k < |list| && prog[list[k]] == MatchN(i);
    var h := Locate(prog, starts, parts, list[k], |parts| - 1);
    PartPlaced(prog, starts, parts, h);
    InstAt(prog, starts[h], parts[h], h, list[k] - starts[h]);
    var q := list[k] - starts[i];
    assert list[k] in list;
    OwnMember(list, starts[i], |parts[i]|, q);
    var m :| 0 <= m < |own| && own[m] == q;
    assert parts[i][own[m]].Match?;
  }

  lemma OwnIsHit(prog: seq<Inst>, starts: seq<nat>, parts: seq<seq<Inst>>, i: nat, list: seq<nat>)
    requires Assembled(prog, starts, parts) && PartsSafe(parts) && i < |parts| && Below(list, |prog|)
    requires HasMatch(parts[i], Own(list, starts[i], |parts[i]|))
    ensures HitAt(prog, list, i)
  {
    hide Safe, RelocateAll, Own;
    var own := Own(list, starts[i], |parts[i]|);
    PartPlaced(prog, starts, parts, i);
    var m :| 0 <= m < |own| && parts[i][own[m]].Match?;
    assert own[m] in own;
    OwnMember(list, starts[i], |parts[i]|, own[m]);
    InstAt(prog, starts[i], parts[i], i, own[m]);
    var k :| 0 <= k < |list| && list[k] == own[m] + starts[i];
    assert prog[list[k]] == MatchN(i);
  }

  /** The shared pass reports a pattern exactly when that pattern alone would be found. */
  lemma {:induction false} HitsOwn(
    prog: seq<Inst>, starts: seq<nat>, parts: seq<seq<Inst>>, i: nat, s: string, pos: nat)
    requires Assembled(prog, starts, parts) && PartsSafe(parts) && i < |parts|
    ensures Safe(prog) && Below(starts, |prog|) && Safe(parts[i]) && Below([0], |parts[i]|)
    ensures Hits(prog, starts, s, i, pos) <==> Finds(parts[i], [0], s, pos)
    decreases |s| + 1 - pos
  {
    hide Assembled, PartsSafe, Safe, ThreadList, HitAt, HasMatch;
    AssembledSafe(prog, starts, parts);
    AssembledPlaced(prog, starts, parts, i);
    PartPlaced(prog, starts, parts, i);
    PlacedSafe(prog, parts[i], starts[i], i);
    if pos <= |s| {
      HitsOwn(prog, starts, parts, i, s, pos + 1);
      ThreadListOwn(prog, parts[i], starts[i], i, starts, s, pos);
      OwnStarts(prog, starts, parts, i, |parts|);
      assert starts[..|parts|] == starts;
      HitAtOwn(prog, starts, parts, i, ThreadList(prog, starts, s, pos));
    }
  }

  // ----- building the set -----

  ghost function ProgramsOf(asts: seq<Ast>): (parts: seq<seq<Inst>>)
    ensures |parts| == |asts| && forall i :: 0 <= i < |parts| ==> parts[i] == ProgramOf(asts[i])
  {
    seq(|asts|, i requires 0 <= i < |asts| => ProgramOf(asts[i]))
  }

  /** The size of the combined program of the first `n` patterns. */
  function TotalSize(asts: seq<Ast>, n: nat): nat
    requires n <= |asts|
  {
    if n == 0 then 0 else TotalSize(asts, n - 1) + Size(asts[n - 1]) + 4
  }

  lemma {:induction false} TotalGrows(asts: seq<Ast>, i: nat, n: nat)
    requires i <= n <= |asts|
    ensures TotalSize(asts, i) <= TotalSize(asts, n)
    decreases n
  {
    if i < n { TotalGrows(asts, i, n - 1); }
  }

  /** One more part at the end of the combined program. */
  lemma AssembledGrows(prog: seq<Inst>, starts: seq<nat>, parts: seq<seq<Inst>>, part: seq<Inst>)
    requires Assembled(prog, starts, parts) && part != []
    ensures Assembled(prog + RelocateAll(part, |prog|, |parts|), starts + [|prog|], parts + [part])
  {
    hide PlacedAt, RelocateAll;
    var code := RelocateAll(part, |prog|, |parts|);
    var prog', starts', parts' := prog + code, starts + [|prog|], parts + [part];
    forall i | 0 <= i < |parts'| ensures PlacedAt(prog', starts'[i], parts'[i], i) {
      if i < |parts| {
        assert PlacedAt(prog, starts[i], parts[i], i);
        PlacedBefore(prog, code, starts[i], parts[i], i);
      } else {
        PlacedLast(prog, part, |parts|);
      }
    }
  }

  lemma PlacedBefore(prog: seq<Inst>, more: seq<Inst>, base: nat, part: seq<Inst>, id: nat)
    requires PlacedAt(prog, base, part, id)
    ensures PlacedAt(prog + more, base, part, id)
  {
    assert (prog + more)[base..base + |part|] == prog[base..base + |part|];
  }

  lemma PlacedLast(prog: seq<Inst>, part: seq<Inst>, id: nat)
    requires part != []
    ensures PlacedAt(prog + RelocateAll(part, |prog|, id), |prog|, part, id)
  {
    var code := RelocateAll(part, |prog|, id);
    assert (prog + code)[|prog|..|prog| + |part|] == code;
  }

  method NewSet(asts: seq<Ast>) returns (r: Option<(seq<Inst>, seq<nat>)>)
    ensures r.Some? <==> TotalSize(asts, |asts|) <= MAX_PROG
    ensures r.Some? ==> Assembled(r.value.0, r.value.1, ProgramsOf(asts)) && PartsSafe(ProgramsOf(asts))
  {
    hide Assembled, Safe, ProgramOf, Size;
    var prog: seq<Inst>, starts: seq<nat> := [], [];
    ghost var parts := ProgramsOf(asts);
    NothingAssembled();
    for i := 0 to |asts|
      invariant Assembled(prog, starts, parts[..i]) && |prog| == TotalSize(asts, i) && |starts| == i
      invariant TotalSize(asts, i) <= MAX_PROG
    {
      TotalGrows(asts, i + 1, |asts|);
      ghost var calls;
      var re;
      re, calls := NewRegex(asts[i]);
      if re.None? { return None; }
      var base := |prog|;
      if base + |re.value| > MAX_PROG { return None; }
      AssembledGrows(prog, starts, parts[..i], re.value);
      assert parts[..i + 1] == parts[..i] + [re.value];
      starts := starts + [base];
      prog := PushRelocated(prog, re.value, i);
    }
    assert parts[..|asts|] == parts;
    ProgramsSafe(asts);
    r := Some((prog, starts));
  }

  lemma NothingAssembled()
    ensures Assembled([], [], [])
  {
  }

  lemma ProgramsSafe(asts: seq<Ast>)
    ensures PartsSafe(ProgramsOf(asts))
  {
    forall i | 0 <= i < |asts|
      ensures Safe(ProgramOf(asts[i]))
      ensures forall pc :: 0 <= pc < |ProgramOf(asts[i])| ==> !ProgramOf(asts[i])[pc].MatchN?
    {
      ProgramSafe(asts[i]);
      EmitClosed(asts[i], 3);
    }
  }

  method PushRelocated(prog: seq<Inst>, part: seq<Inst>, id: nat) returns (out: seq<Inst>)
    ensures out == prog + RelocateAll(part, |prog|, id)
  {
    var base := |prog|;
    out := prog;
    for t := 0 to |part|
      invariant out == prog + RelocateAll(part, base, id)[..t]
    {
      out := out + [Relocate(part[t], base, id)];
    }
  }

  // ----- the shared pass -----

  ghost function CountHits(hit: seq<bool>): (n: nat)
    ensures n <= |hit|
    ensures n == |hit| ==> forall i :: 0 <= i < |hit| ==> hit[i]
  {
    if hit == [] then 0
    else
      var n := CountHits(hit[..|hit| - 1]);
      if hit[|hit| - 1] then n + 1 else n
  }

  lemma {:induction false} CountOneMore(hit: seq<bool>, id: nat)
    requires id < |hit| && !hit[id]
    ensures CountHits(hit[id := true]) == CountHits(hit) + 1
    decreases |hit|
  {
    var last := |hit| - 1;
    if id < last {
      assert hit[id := true][..last] == hit[..last][id := true];
      CountOneMore(hit[..last], id);
    } else {
      assert hit[id := true][..last] == hit[..last];
    }
  }

  ghost predicate IdsBelow(prog: seq<Inst>, npat: nat) {
    forall pc :: 0 <= pc < |prog| && prog[pc].MatchN? ==> prog[pc].id < npat
  }

  /** Mark the pattern whose accept sits at `pc`, counting it if newly marked. */
  method MarkHit(prog: seq<Inst>, pc: nat, hit: array<bool>, nhit: nat) returns (nhit': nat)
    requires pc < |prog| && IdsBelow(prog, hit.Length) && nhit == CountHits(hit[..])
    modifies hit
    ensures nhit' == CountHits(hit[..])
    ensures forall id :: 0 <= id < hit.Length ==> (hit[id] <==> old(hit[id]) || prog[pc] == MatchN(id))
  {
    nhit' := nhit;
    if prog[pc].MatchN? && !hit[prog[pc].id] {
      CountOneMore(hit[..], prog[pc].id);
      ghost var was := hit[..];
      hit[prog[pc].id] := true;
      assert hit[..] == was[prog[pc].id := true];
      nhit' := nhit' + 1;
    }
  }

  /** One position of the shared pass. */
  method AdvanceSet(
    prog: seq<Inst>, chars: string, clist: seq<nat>, seen: array<nat>, gen: nat, pos: nat, hit: array<bool>, nhit: nat)
    returns (nlist: seq<nat>, nhit': nat)
    requires Safe(prog) && Below(clist, |prog|) && seen.Length == |prog|
    requires Stamped(seen, gen) && Marked(seen, gen) == {} && pos <= |chars|
    requires IdsBelow(prog, hit.Length) && nhit == CountHits(hit[..])
    modifies seen, hit
    ensures Stamped(seen, gen) && nhit' == CountHits(hit[..])
    ensures forall id :: 0 <= id < hit.Length ==> (hit[id] <==> old(hit[id]) || HitAt(prog, clist, id))
    ensures pos < |chars| ==>
      nlist == AddAll(prog, Next(prog, clist, chars[pos]), NoThreads, false, pos + 1 == |chars|).list
  {
    hide Closure, Safe, Consumes, Next, AddAll, IdsBelow, Pcs, CountHits;
    nlist, nhit' := [], nhit;
    ghost var now: set<nat> := {};
    assert clist[0..] == clist;
    for i := 0 to |clist|
      invariant Stamped(seen, gen) && now == Marked(seen, gen) <= Pcs(prog) && nhit' == CountHits(hit[..])
      invariant forall id :: 0 <= id < hit.Length ==> (hit[id] <==> old(hit[id]) || HitAt(prog, clist[..i], id))
      invariant pos < |chars| ==>
        AddAll(prog, Next(prog, clist[i..], chars[pos]), Threads(now, nlist), false, pos + 1 == |chars|).list ==
        AddAll(prog, Next(prog, clist, chars[pos]), NoThreads, false, pos + 1 == |chars|).list
    {
      var pc := clist[i];
      nhit' := MarkHit(prog, pc, hit, nhit');
      HitAtMore(prog, clist, i);
      if pos < |chars| {
        NextCons(prog, clist[i..], chars[pos]);
        assert clist[i..][1..] == clist[i + 1..];
        if Consumes(prog[pc], chars[pos]) {
          ghost var p: nat;
          ghost var t := Threads(now, nlist);
          nlist, p := AddThread(prog, nlist, seen, gen, pc + 1, pos + 1, |chars|);
          now := Marked(seen, gen);
          AddAllCons(prog, pc + 1, Next(prog, clist[i + 1..], chars[pos]), t, false, pos + 1 == |chars|);
        }
      }
    }
    assert clist[..|clist|] == clist;
    if pos < |chars| {
      assert clist[|clist|..] == [];
      NextNil(prog, chars[pos]);
      AddAllNil(prog, Threads(now, nlist), false, pos + 1 == |chars|);
    }
  }

  lemma HitAtMore(prog: seq<Inst>, list: seq<nat>, i: nat)
    requires i < |list| && Below(list, |prog|)
    ensures forall id :: HitAt(prog, list[..i + 1], id) <==> HitAt(prog, list[..i], id) || prog[list[i]] == MatchN(id)
  {
    assert list[..i + 1] == list[..i] + [list[i]];
    forall id: nat | prog[list[i]] == MatchN(id) ensures HitAt(prog, list[..i + 1], id) {
      assert prog[list[..i + 1][i]] == MatchN(id);
    }
    forall id: nat | HitAt(prog, list[..i], id) ensures HitAt(prog, list[..i + 1], id) {
      var k :| 0 <= k < i && prog[list[..i][k]] == MatchN(id);
      assert prog[list[..i + 1][k]] == MatchN(id);
    }
  }

  /** The scratch buffers and the shared list before any character is read. */
  method FirstSharedList(prog: seq<Inst>, starts: seq<nat>, text: string) returns (seen: array<nat>, clist: seq<nat>)
    requires Safe(prog) && Below(starts, |prog|)
    ensures fresh(seen) && seen.Length == |prog| && Stamped(seen, 1)
    ensures clist == ThreadList(prog, starts, text, 0)
  {
    hide Closure, Safe, Next, ThreadList, AddAll, Pcs;
    seen := new nat[|prog|](_ => 0);
    clist := [];
    FirstThreads(prog, starts, text);
    assert Marked(seen, 1) == {};
    assert starts[0..] == starts;
    ghost var now: set<nat> := {};
    for i := 0 to |starts|
      invariant fresh(seen) && Stamped(seen, 1) && now == Marked(seen, 1) <= Pcs(prog)
      invariant AddAll(prog, starts[i..], Threads(now, clist), true, 0 == |text|).list ==
                AddAll(prog, starts, NoThreads, true, 0 == |text|).list
    {
      assert starts[i..] == [starts[i]] + starts[i + 1..];
      AddAllCons(prog, starts[i], starts[i + 1..], Threads(now, clist), true, 0 == |text|);
      ghost var p: nat;
      clist, p := AddThread(prog, clist, seen, 1, starts[i], 0, |text|);
      now := Marked(seen, 1);
    }
    AddAllNil(prog, Threads(now, clist), true, 0 == |text|);
  }

  /** `matches`: the numbers of the reported patterns, ascending; a full house ends the pass early. */
  method MatchSet(prog: seq<Inst>, starts: seq<nat>, npat: nat, text: string) returns (out: seq<nat>)
    requires Safe(prog) && Below(starts, |prog|) && IdsBelow(prog, npat)
    ensures forall j, k :: 0 <= j < k < |out| ==> out[j] < out[k]
    ensures forall id: nat :: id in out <==> id < npat && Hits(prog, starts, text, id, 0)
  {
    hide Safe, Hits, HitAt, ThreadList, AddAll, IdsBelow, Next;
    if npat == 0 { return []; }
    var n := |text|;
    var seen, clist := FirstSharedList(prog, starts, text);
    var hit := new bool[npat](_ => false);
    var nhit, gen := 0, 1;
    NoHits(hit[..]);
    var pos := 0;
    while pos <= n
      invariant pos <= n + 1 && gen == pos + 1 && fresh(seen) && fresh(hit)
      invariant Stamped(seen, gen) && nhit == CountHits(hit[..])
      invariant pos <= n ==> clist == ThreadList(prog, starts, text, pos)
      invariant forall id :: 0 <= id < npat ==>
        (Hits(prog, starts, text, id, 0) <==> hit[id] || Hits(prog, starts, text, id, pos))
    {
      gen := gen + 1;
      HitsStep(prog, starts, text, pos);
      var nlist;
      nlist, nhit := AdvanceSet(prog, text, clist, seen, gen, pos, hit, nhit);
      pos := pos + 1;
      if nhit == npat { break; }
      clist := nlist;
    }
    HitsEnd(prog, starts, text, n + 1);
    out := Collect(hit);
  }

  lemma {:induction false} NoHits(hit: seq<bool>)
    requires forall i :: 0 <= i < |hit| ==> !hit[i]
    ensures CountHits(hit) == 0
    decreases |hit|
  {
    if hit != [] { NoHits(hit[..|hit| - 1]); }
  }

  lemma HitsStep(prog: seq<Inst>, starts: seq<nat>, text: string, pos: nat)
    requires Safe(prog) && Below(starts, |prog|) && pos <= |text|
    ensures var list := ThreadList(prog, starts, text, pos);
      && (forall id: nat :: Hits(prog, starts, text, id, pos) <==>
            HitAt(prog, list, id) || Hits(prog, starts, text, id, pos + 1))
      && (pos < |text| ==>
            ThreadList(prog, starts, text, pos + 1) ==
            AddAll(prog, Next(prog, list, text[pos]), NoThreads, false, pos + 1 == |text|).list)
  {
    ThreadStep(prog, starts, text, pos);
  }

  lemma HitsEnd(prog: seq<Inst>, starts: seq<nat>, text: string, past: nat)
    requires Safe(prog) && Below(starts, |prog|) && past == |text| + 1
    ensures forall id: nat :: !Hits(prog, starts, text, id, past)
  {
  }

  method Collect(hit: array<bool>) returns (out: seq<nat>)
    ensures forall j, k :: 0 <= j < k < |out| ==> out[j] < out[k]
    ensures forall id: nat :: id in out <==> id < hit.Length && hit[id]
  {
    out := [];
    for i := 0 to hit.Length
      invariant forall j :: 0 <= j < |out| ==> out[j] < i
      invariant forall j, k :: 0 <= j < k < |out| ==> out[j] < out[k]
      invariant forall id: nat :: id in out <==> id < i && hit[id]
    {
      if hit[i] { out := out + [i]; }
    }
  }

  /** The pass over a set reports, ascending, exactly the patterns found in the text. */
  method SearchAll(asts: seq<Ast>, text: string) returns (r: Option<seq<nat>>)
    requires forall i :: 0 <= i < |asts| ==> WellFormed(asts[i])
    ensures r.Some? <==> TotalSize(asts, |asts|) <= MAX_PROG
    ensures r.Some? ==> forall j, k :: 0 <= j < k < |r.value| ==> r.value[j] < r.value[k]
    ensures r.Some? ==> forall id: nat :: id in r.value <==> id < |asts| && Found(asts[id], text)
  {
    hide Assembled, PartsSafe, Safe, Hits, Found, IdsBelow, TotalSize, ProgramOf, WellFormed;
    var made := NewSet(asts);
    if made.None? { return None; }
    var (prog, starts) := made.value;
    ghost var parts := ProgramsOf(asts);
    AssembledSafe(prog, starts, parts);
    AssembledIds(prog, starts, parts);
    var out := MatchSet(prog, starts, |asts|, text);
    forall id: nat | id < |asts| ensures Hits(prog, starts, text, id, 0) <==> Found(asts[id], text) {
      HitsOwn(prog, starts, parts, id, text, 0);
      SearchExact(asts[id], text);
    }
    r := Some(out);
  }

  lemma AssembledIds(prog: seq<Inst>, starts: seq<nat>, parts: seq<seq<Inst>>)
    requires Assembled(prog, starts, parts) && PartsSafe(parts)
    ensures IdsBelow(prog, |parts|)
  {
    forall pc | 0 <= pc < |prog| && prog[pc].MatchN? ensures prog[pc].id < |parts| {
      var k := Locate(prog, starts, parts, pc, |parts| - 1);
      InstAt(prog, starts[k], parts[k], k, pc - starts[k]);
    }
  }
}
