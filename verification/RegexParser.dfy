/** The recursive-descent pattern parser of src/regex.rs: it finds the one reading of a text, if there is one. */
module RegexParser {
  import opened Wrappers
  import opened RegexAst
  import opened RegexCode
  import opened RegexMatcher
  import opened RegexSyntax
  import opened RegexWork
  import opened Regex
  import RegexSetSearch

  const MAX_DEPTH: nat := 200

  class Parser {
    const chars: string
    var pos: nat
    var depth: nat

    constructor (pattern: string)
      ensures chars == pattern && pos == 0 && depth == 0
    {
      chars, pos, depth := pattern, 0, 0;
    }

    function Peek(): Option<char>
      reads this
    {
      if pos < |chars| then Some(chars[pos]) else None
    }

    /** How many more groups may be opened. */
    ghost function Room(): nat
      requires depth <= MAX_DEPTH
      reads this
    {
      MAX_DEPTH - depth
    }

    method Eat(c: char) returns (ok: bool)
      modifies `pos
      ensures ok <==> old(Peek()) == Some(c)
      ensures pos == if ok then old(pos) + 1 else old(pos)
    {
      ok := pos < |chars| && chars[pos] == c;
      if ok {
        pos := pos + 1;
      }
    }

    /** Alternatives separated by `|`. */
    method ParseAlt() returns (r: Option<Ast>)
      requires pos <= |chars| && depth <= MAX_DEPTH
      modifies this
      ensures old(pos) <= pos <= |chars|
      ensures r.Some? ==> depth == old(depth) && AltAt(r.value, chars, old(pos), pos, old(Room()))
      ensures r.None? ==> !AltsFrom(chars, old(pos), old(Room()))
      decreases |chars| - pos, 3
    {
      hide AltsAt, ConcatAt, AltsLead, AltsFrom, ItemsFrom;
      var start := pos;
      ghost var room := Room();
      var alts := [];
      AltsLeadNone(chars, start, room);
      var more := true;
      while more
        invariant start <= pos <= |chars| && depth == old(depth)
        invariant if more then AltsLead(alts, chars, start, pos, room) else AltsAt(alts, chars, start, pos, room)
        decreases |chars| - pos, more
      {
        var at := pos;
        var next := ParseConcat();
        if next.None? {
          NoAlts(alts, chars, start, at, room);
          return None;
        }
        var end := pos;
        more := Eat('|');
        if more {
          AltsLeadOne(alts, next.value, chars, start, at, end, room);
        } else {
          LastAlt(alts, next.value, chars, start, at, end, room);
        }
        alts := alts + [next.value];
      }
      r := Some(Branched(alts));
    }

    /** Items up to `|`, `)` or the end. */
    method ParseConcat() returns (r: Option<Ast>)
      requires pos <= |chars| && depth <= MAX_DEPTH
      modifies this
      ensures old(pos) <= pos <= |chars|
      ensures r.Some? ==> depth == old(depth) && ConcatAt(r.value, chars, old(pos), pos, old(Room()))
      ensures r.None? ==> !ItemsFrom(chars, old(pos), old(Room()))
      decreases |chars| - pos, 2
    {
      hide RepeatAt, ItemsAt, ItemsLead, ItemsFrom, RepeatFrom;
      var start := pos;
      ghost var room := Room();
      var items := [];
      ItemsLeadNone(chars, start, room);
      while pos < |chars| && chars[pos] != '|' && chars[pos] != ')'
        invariant start <= pos <= |chars| && depth == old(depth)
        invariant ItemsLead(items, chars, start, pos, room)
        decreases |chars| - pos
      {
        var at := pos;
        var item := ParseRepeat();
        if item.None? {
          NoItems(items, chars, start, at, room);
          return None;
        }
        ItemsLeadOne(items, item.value, chars, start, at, pos, room);
        items := items + [item.value];
      }
      LastItem(items, chars, start, pos, room);
      r := Some(Joined(items));
    }

    /** An atom and its quantifier, if any. */
    method ParseRepeat() returns (r: Option<Ast>)
      requires !Stops(chars, pos) && depth <= MAX_DEPTH
      modifies this
      ensures old(pos) < pos <= |chars|
      ensures r.Some? ==> depth == old(depth) && RepeatAt(r.value, chars, old(pos), pos, old(Room()))
      ensures r.None? ==> !RepeatFrom(chars, old(pos), old(Room()))
      decreases |chars| - pos, 1
    {
      hide AtomAt, RepeatAt, MarkAt, MarkStarts, AtomFrom, RepeatFrom, BadMark;
      var start := pos;
      ghost var room := Room();
      var parsed := ParseAtom();
      if parsed.None? {
        NoAtom(chars, start, room);
        return None;
      }
      var atom, at := parsed.value, pos;
      var bad, node := ParseMark(atom);
      if bad {
        NoMark(atom, chars, start, at, room);
        return None;
      }
      if node.None? {
        PlainItem(atom, chars, start, at, room);
        return Some(atom);
      }
      var end := pos;
      var lazy := Eat('?');
      MarkedItem(node.value, atom, chars, start, at, end, room);
      r := node;
    }

    /** The quantifier at the cursor put on `atom`; nothing consumed when there is none. */
    method ParseMark(atom: Ast) returns (bad: bool, r: Option<Ast>)
      requires pos <= |chars|
      modifies `pos
      ensures old(pos) <= pos <= |chars|
      ensures bad ==> BadMark(chars, old(pos))
      ensures !bad && r.None? ==> pos == old(pos) && !MarkStarts(chars, pos)
      ensures !bad && r.Some? ==> Quantified(r.value) == Some(atom) && MarkAt(r.value, chars, old(pos), pos)
    {
      hide BoundAt, BadBound, BoundFrom;
      bad, r := false, None;
      if pos == |chars| { return; }
      if chars[pos] == '{' {
        ghost var at := pos;
        var b;
        bad, b := TryBound();
        if bad {
          BadBoundMark(chars, at);
        } else if b.Some? {
          r := Some(Repeat(atom, b.value.0, b.value.1));
        } else {
          NoBoundMark(chars, at);
        }
        return;
      }
      if chars[pos] == '*' {
        r := Some(Star(atom));
      } else if chars[pos] == '+' {
        r := Some(Plus(atom));
      } else if chars[pos] == '?' {
        r := Some(Quest(atom));
      } else {
        NoBoundHere(chars, pos);
        NoBoundMark(chars, pos);
        return;
      }
      pos := pos + 1;
    }

    /** A bound at the cursor, or nothing (and nothing consumed) when there is none; `bad` is a bound out of range. */
    method TryBound() returns (bad: bool, b: Option<(nat, Option<nat>)>)
      requires pos < |chars| && chars[pos] == '{'
      modifies `pos
      ensures old(pos) <= pos <= |chars|
      ensures bad ==> BadBound(chars, old(pos))
      ensures !bad && b.None? ==> pos == old(pos) && !BoundFrom(chars, pos)
      ensures !bad && b.Some? ==>
        Bounded(b.value.0, b.value.1) && BoundAt(b.value.0, b.value.1, chars, old(pos), pos)
    {
      hide IntOf, AllDigits, BoundAt, BoundFrom, BadBound;
      var start := pos;
      pos := pos + 1;
      var min := ParseInt();
      var lo, hi := 0, None;
      var comma := pos;
      if pos < |chars| && chars[pos] == '}' && min.Some? {
        pos := pos + 1;
        lo, hi := min.value, min;
        ExactBound(chars, start, pos, lo);
      } else if pos < |chars| && chars[pos] == ',' {
        pos := pos + 1;
        var max := ParseInt();
        var close := pos;
        var closed := Eat('}');
        if !closed {
          NoRangeBound(chars, start, comma, close);
          pos := start;
          return false, None;
        }
        lo, hi := if min.Some? then min.value else 0, max;
        RangeBound(chars, start, comma, pos, lo, hi);
      } else {
        NoExactBound(chars, start, comma);
        pos := start;
        return false, None;
      }
      if lo > MAX_REPEAT || (hi.Some? && hi.value > MAX_REPEAT) || (hi.Some? && hi.value < lo) {
        OutOfRange(chars, start, pos, lo, hi);
        return true, None;
      }
      bad, b := false, Some((lo, hi));
    }

    /** All the digits at the cursor. */
    method ParseInt() returns (v: Option<nat>)
      requires pos <= |chars|
      modifies `pos
      ensures old(pos) <= pos <= |chars| && AllDigits(chars[old(pos)..pos]) && v == IntOf(chars[old(pos)..pos])
      ensures pos < |chars| ==> !IsDigit(chars[pos])
    {
      var start := pos;
      while pos < |chars| && IsDigit(chars[pos])
        invariant start <= pos <= |chars| && AllDigits(chars[start..pos])
      {
        assert chars[start..pos + 1] == chars[start..pos] + [chars[pos]];
        pos := pos + 1;
      }
      v := IntOf(chars[start..pos]);
    }

    method ParseAtom() returns (r: Option<Ast>)
      requires !Stops(chars, pos) && depth <= MAX_DEPTH
      modifies this
      ensures old(pos) < pos <= |chars|
      ensures r.Some? ==> depth == old(depth) && AtomAt(r.value, chars, old(pos), pos, old(Room()))
      ensures r.None? ==> !AtomFrom(chars, old(pos), old(Room()))
      decreases |chars| - pos, 0
    {
      hide ClassAt, GroupAt, GroupFrom, ClassFrom;
      var start, c := pos, chars[pos];
      depth := depth + 1;
      pos := pos + 1;
      if depth > MAX_DEPTH { return None; }
      if c == '(' {
        r := ParseGroup();
      } else if c == '[' {
        r := ParseClass();
      } else if c == '\\' {
        if pos == |chars| { return None; }
        r := Some(EscapeAst(chars[pos]));
        pos := pos + 1;
      } else if c == '*' || c == '+' || c == '?' {
        return None;
      } else {
        r := Some(Single(c));
      }
      if r.None? {
        NoAtomHere(chars, start, old(Room()));
        return None;
      }
      depth := depth - 1;
    }

    /** The rest of a group after its parenthesis. */
    method ParseGroup() returns (r: Option<Ast>)
      requires 0 < pos <= |chars| && chars[pos - 1] == '(' && depth <= MAX_DEPTH
      modifies this
      ensures old(pos) <= pos <= |chars|
      ensures r.Some? ==> depth == old(depth) && GroupReads(r.value, chars, old(pos) - 1, pos, old(Room()) + 1)
      ensures r.None? ==> !GroupFrom(chars, old(pos) - 1, old(Room()) + 1)
      decreases |chars| - pos, 4
    {
      hide AltAt, AltsAt, AltsFrom, FlagsAt, GroupFrom, FlagsFrom;
      var start := pos;
      ghost var room := Room();
      SkipFlags();
      var body := pos;
      var inner := ParseAlt();
      var close := pos;
      var closed := false;
      if inner.Some? {
        closed := Eat(')');
      }
      if !closed {
        NoGroup(inner, chars, start, body, close, room);
        return None;
      }
      r := inner;
      OneGroup(inner.value, chars, start, body, close, room);
    }

    /** `[...]` after its bracket: members until a `]` that is not the first. */
    method ParseClass() returns (r: Option<Ast>)
      requires 0 < pos <= |chars| && chars[pos - 1] == '['
      modifies `pos
      ensures old(pos) <= pos <= |chars|
      ensures r.Some? ==> r.value.Class? && ClassAt(r.value.items, r.value.negated, chars, old(pos) - 1, pos)
      ensures r.None? ==> !ClassFrom(chars, old(pos) - 1)
    {
      hide MemberAt, MembersAt, MembersLead, MembersFrom, MemberFrom, ClassFrom;
      var start := pos;
      var negated := Eat('^');
      var from := pos;
      var items := [];
      MembersLeadNone(chars, from);
      while true
        invariant start <= from <= pos <= |chars| && MembersLead(items, chars, from, pos, items == [])
        decreases |chars| - pos
      {
        if pos == |chars| {
          NoClassEnd(items, chars, start - 1, from, pos);
          return None;
        }
        if chars[pos] == ']' && items != [] {
          LastMember(items, chars, from, pos);
          pos := pos + 1;
          return Some(Class(items, negated));
        }
        var at := pos;
        var item := ParseMember();
        if item.None? {
          NoClassMember(items, chars, start - 1, from, at);
          return None;
        }
        MembersLeadOne(items, item.value, chars, from, at, pos);
        items := items + [item.value];
      }
    }

    /** One class member: a shorthand, a letter or a range. */
    method ParseMember() returns (r: Option<ClassItem>)
      requires pos < |chars|
      modifies `pos
      ensures old(pos) < pos <= |chars|
      ensures r.Some? ==> MemberAt(r.value, chars, old(pos), pos)
      ensures r.None? ==> !MemberFrom(chars, old(pos))
    {
      if chars[pos] == '\\' && pos + 1 < |chars| && Shorthand(chars[pos + 1]).Some? {
        pos := pos + 2;
        return Shorthand(chars[pos - 1]);
      }
      var low := ReadLetter();
      if low.None? { return None; }
      var lo, dash := low.value, pos;
      if pos + 1 < |chars| && chars[pos] == '-' && chars[pos + 1] != ']' {
        pos := pos + 1;
        var high := ReadLetter();
        if high.None? || high.value < lo { return None; }
        r := Some(Range(lo, high.value));
      } else {
        r := Some(Range(lo, lo));
      }
    }

    /** A letter of a class, escaped or not. */
    method ReadLetter() returns (c: Option<char>)
      requires pos < |chars|
      modifies `pos
      ensures old(pos) < pos <= |chars|
      ensures c.Some? ==> LetterAt(c.value, chars, old(pos), pos)
      ensures c.None? ==> chars[old(pos)] == '\\' && old(pos) + 1 == |chars|
    {
      pos := pos + 1;
      if chars[pos - 1] != '\\' { return Some(chars[pos - 1]); }
      if pos == |chars| { return None; }
      pos := pos + 1;
      c := Some(Control(chars[pos - 1]));
    }

    /** `(?...:` or `(?...)`: skipped without looking; to the end of the text if nothing ends them. */
    method SkipFlags()
      requires pos <= |chars|
      modifies `pos
      ensures old(pos) <= pos <= |chars|
      ensures FlagsAt(chars, old(pos), pos) || (pos == |chars| && !FlagsFrom(chars, old(pos)))
    {
      if pos == |chars| || chars[pos] != '?' { return; }
      var start := pos;
      pos := pos + 1;
      while pos < |chars| && chars[pos] != ':' && chars[pos] != ')'
        invariant start < pos <= |chars| && forall k :: start < k < pos ==> !EndsFlags(chars[k])
      {
        pos := pos + 1;
      }
      if pos < |chars| {
        pos := pos + 1;
      }
    }
  }

  // ----- when there is no reading -----

  ghost predicate RepeatFrom(s: string, i: nat, room: nat) {
    exists a, j: nat :: RepeatAt(a, s, i, j, room)
  }

  ghost predicate AtomFrom(s: string, i: nat, room: nat) {
    exists a, j: nat :: AtomAt(a, s, i, j, room)
  }

  ghost predicate GroupFrom(s: string, i: nat, room: nat) {
    exists a, b: nat, j: nat :: GroupAt(a, s, i, b, j, room)
  }

  ghost predicate GroupReads(a: Ast, s: string, i: nat, j: nat, room: nat) {
    exists b: nat :: GroupAt(a, s, i, b, j, room)
  }

  ghost predicate ClassFrom(s: string, i: nat) {
    exists items, negated, j: nat :: ClassAt(items, negated, s, i, j)
  }

  ghost predicate MemberFrom(s: string, i: nat) {
    exists x, j: nat :: MemberAt(x, s, i, j)
  }

  ghost predicate FlagsFrom(s: string, i: nat) {
    exists j: nat :: FlagsAt(s, i, j)
  }

  ghost predicate BoundFrom(s: string, i: nat) {
    exists lo: nat, hi, j: nat :: BoundAt(lo, hi, s, i, j)
  }

  /** A bound whose counts are too large or out of order. */
  ghost predicate BadBound(s: string, i: nat) {
    exists lo: nat, hi, j: nat :: BoundAt(lo, hi, s, i, j) && !Bounded(lo, hi)
  }

  /** Something that must be read as a quantifier and cannot be. */
  ghost predicate BadMark(s: string, i: nat) {
    MarkStarts(s, i) && forall a, j: nat :: !MarkAt(a, s, i, j)
  }

  lemma NoAlts(v: seq<Ast>, s: string, i: nat, m: nat, room: nat)
    requires AltsLead(v, s, i, m, room) && !ItemsFrom(s, m, room)
    ensures !AltsFrom(s, i, room)
  {
    hide ItemsAt;
    if AltsFrom(s, m, room) {
      var w, j: nat :| AltsAt(w, s, m, j, room);
      SomeConcat(w, s, m, j, room);
    }
  }

  lemma SomeConcat(w: seq<Ast>, s: string, m: nat, j: nat, room: nat)
    requires AltsAt(w, s, m, j, room)
    ensures ItemsFrom(s, m, room)
  {
    hide ItemsAt;
    var k: nat := if |w| == 1 then j else
      var k: nat :| m <= k < j && s[k] == '|' && ConcatAt(w[0], s, m, k, room) && AltsAt(w[1..], s, k + 1, j, room); k;
    assert ConcatAt(w[0], s, m, k, room);
  }

  lemma LastAlt(v: seq<Ast>, a: Ast, s: string, i: nat, m: nat, n: nat, room: nat)
    requires AltsLead(v, s, i, m, room) && ConcatAt(a, s, m, n, room) && m <= n <= |s| && !(n < |s| && s[n] == '|')
    ensures AltsAt(v + [a], s, i, n, room)
  {
    hide ConcatAt;
    assert AltsAt([a], s, m, n, room);
  }

  lemma NoItems(v: seq<Ast>, s: string, i: nat, m: nat, room: nat)
    requires ItemsLead(v, s, i, m, room) && !Stops(s, m) && !RepeatFrom(s, m, room)
    ensures !ItemsFrom(s, i, room)
  {
    hide RepeatAt;
    forall w, j: nat ensures !ItemsAt(w, s, m, j, room) {}
  }

  lemma LastItem(v: seq<Ast>, s: string, i: nat, m: nat, room: nat)
    requires ItemsLead(v, s, i, m, room) && Stops(s, m) && m <= |s|
    ensures ItemsAt(v, s, i, m, room)
  {
    assert ItemsAt([], s, m, m, room);
    assert v + [] == v;
  }

  lemma NoAtom(s: string, i: nat, room: nat)
    requires !AtomFrom(s, i, room)
    ensures !RepeatFrom(s, i, room)
  {
    hide AtomAt, MarkAt, MarkStarts;
    if RepeatFrom(s, i, room) {
      var a, j: nat :| RepeatAt(a, s, i, j, room);
      if !(AtomAt(a, s, i, j, room) && !MarkStarts(s, j)) {
        var k: nat, m: nat :| i < k < m <= j && AtomAt(Quantified(a).value, s, i, k, room) && MarkAt(a, s, k, m);
      }
    }
  }

  /** No group or class where one would have to be. */
  lemma NoAtomHere(s: string, i: nat, room: nat)
    requires i < |s| && ((s[i] == '(' && !GroupFrom(s, i, room)) || (s[i] == '[' && !ClassFrom(s, i)))
    ensures !AtomFrom(s, i, room)
  {
    hide AltAt, ClassAt;
    if AtomFrom(s, i, room) {
      var a, j: nat :| AtomAt(a, s, i, j, room);
      if s[i] == '(' { SomeGroup(a, s, i, j, room); }
    }
  }

  lemma SomeGroup(a: Ast, s: string, i: nat, j: nat, room: nat)
    requires AtomAt(a, s, i, j, room) && s[i] == '('
    ensures GroupFrom(s, i, room)
  {
    hide AltAt, ClassAt;
    var b: nat :| GroupAt(a, s, i, b, j, room);
  }

  lemma NoMark(atom: Ast, s: string, i: nat, m: nat, room: nat)
    requires AtomAt(atom, s, i, m, room) && BadMark(s, m)
    ensures !RepeatFrom(s, i, room)
  {
    hide AtomAt, MarkAt, MarkStarts;
    forall a, j: nat ensures !RepeatAt(a, s, i, j, room) {
      if AtomAt(a, s, i, j, room) { UniqueAtom(s, i, atom, m, room, a, j, room); }
      if Quantified(a).Some? {
        forall k: nat, n: nat | AtomAt(Quantified(a).value, s, i, k, room) ensures !MarkAt(a, s, k, n) {
          UniqueAtom(s, i, atom, m, room, Quantified(a).value, k, room);
        }
      }
    }
  }

  lemma PlainItem(a: Ast, s: string, i: nat, j: nat, room: nat)
    requires AtomAt(a, s, i, j, room) && !MarkStarts(s, j)
    ensures RepeatAt(a, s, i, j, room)
  {
    hide AtomAt, MarkStarts, MarkAt;
  }

  lemma MarkedItem(a: Ast, atom: Ast, s: string, i: nat, k: nat, m: nat, room: nat)
    requires Quantified(a) == Some(atom) && AtomAt(atom, s, i, k, room) && MarkAt(a, s, k, m) && i < k
    ensures RepeatAt(a, s, i, AfterLazy(s, m), room)
  {
    hide AtomAt, MarkStarts, MarkAt;
    MarkMarks(a, s, k, m);
  }

  lemma BadBoundMark(s: string, i: nat)
    requires BadBound(s, i)
    ensures BadMark(s, i)
  {
    hide BoundAt;
    var lo: nat, hi, j: nat :| BoundAt(lo, hi, s, i, j) && !Bounded(lo, hi);
    BoundOpens(lo, hi, s, i, j);
    forall a, k: nat ensures !MarkAt(a, s, i, k) {
      if a.Repeat? && BoundAt(a.min, a.max, s, i, k) {
        UniqueBound(s, i, lo, hi, j, a.min, a.max, k);
      }
    }
  }

  lemma NoBoundMark(s: string, i: nat)
    requires !BoundFrom(s, i) && (i < |s| ==> s[i] != '*' && s[i] != '+' && s[i] != '?')
    ensures !MarkStarts(s, i)
  {
    hide BoundAt;
  }

  lemma NoBoundHere(s: string, i: nat)
    requires i < |s| && s[i] != '{'
    ensures !BoundFrom(s, i)
  {
    hide AllDigits, IntOf;
  }

  lemma ExactBound(s: string, i: nat, j: nat, n: nat)
    requires ExactAt(n, s, i, j)
    ensures BoundAt(n, Some(n), s, i, j)
  {
    hide ExactAt, RangeAt;
  }

  lemma RangeBound(s: string, i: nat, c: nat, j: nat, lo: nat, hi: Option<nat>)
    requires RangeAt(lo, hi, s, i, c, j)
    ensures BoundAt(lo, hi, s, i, j)
  {
    hide ExactAt, RangeAt;
  }

  lemma OutOfRange(s: string, i: nat, j: nat, lo: nat, hi: Option<nat>)
    requires BoundAt(lo, hi, s, i, j) && !Bounded(lo, hi)
    ensures BadBound(s, i)
  {
    hide BoundAt, Bounded;
  }

  /** All the digits from `a` on end at `b`. */
  ghost predicate RunsTo(s: string, a: nat, b: nat) {
    a <= b <= |s| && AllDigits(s[a..b]) && (b < |s| ==> !IsDigit(s[b]))
  }

  lemma RunEnds(s: string, a: nat, b: nat, k: nat)
    requires RunsTo(s, a, b) && a <= k < |s| && AllDigits(s[a..k]) && !IsDigit(s[k])
    ensures b == k
  {
    hide AllDigits;
    if b < |s| {
      UniqueEnd(s, a, b, k);
    } else {
      forall x | a <= x < b ensures IsDigit(s[x]) { DigitInside(s, a, b, x); }
    }
  }

  /** After the first number a bound goes on with `}` or `,`. */
  lemma BoundGoesOn(s: string, i: nat, c: nat, lo: nat, hi: Option<nat>, j: nat)
    requires BoundAt(lo, hi, s, i, j) && RunsTo(s, i + 1, c)
    ensures c < |s|
    ensures (s[c] == '}' && ExactAt(lo, s, i, c + 1)) || (s[c] == ',' && RangeAt(lo, hi, s, i, c, j))
  {
    hide AllDigits, IntOf, RunsTo;
    if ExactAt(lo, s, i, j) && hi == Some(lo) {
      RunEnds(s, i + 1, c, j - 1);
    } else {
      var d: nat :| RangeAt(lo, hi, s, i, d, j);
      RunEnds(s, i + 1, c, d);
    }
  }

  lemma NoExactBound(s: string, i: nat, c: nat)
    requires i < |s| && RunsTo(s, i + 1, c)
    requires c == |s| || (s[c] != '}' && s[c] != ',') || (s[c] == '}' && IntOf(s[i + 1..c]).None?)
    ensures !BoundFrom(s, i)
  {
    hide AllDigits, IntOf, RunsTo, BoundAt;
    forall lo: nat, hi, j: nat ensures !BoundAt(lo, hi, s, i, j) {
      if BoundAt(lo, hi, s, i, j) { BoundGoesOn(s, i, c, lo, hi, j); }
    }
  }

  lemma NoRangeBound(s: string, i: nat, c: nat, d: nat)
    requires i < c < |s| && s[c] == ',' && RunsTo(s, i + 1, c) && RunsTo(s, c + 1, d) && !(d < |s| && s[d] == '}')
    ensures !BoundFrom(s, i)
  {
    hide AllDigits, IntOf, RunsTo, BoundAt;
    forall lo: nat, hi, j: nat ensures !BoundAt(lo, hi, s, i, j) {
      if BoundAt(lo, hi, s, i, j) {
        BoundGoesOn(s, i, c, lo, hi, j);
        RunEnds(s, c + 1, d, j - 1);
      }
    }
  }

  lemma OneGroup(a: Ast, s: string, i: nat, b: nat, c: nat, room: nat)
    requires 0 < i <= b <= c < |s| && s[i - 1] == '(' && s[c] == ')' && AltAt(a, s, b, c, room)
    requires FlagsAt(s, i, b)
    ensures GroupReads(a, s, i - 1, c + 1, room + 1)
  {
    hide AltAt, FlagsAt;
    assert GroupAt(a, s, i - 1, b, c + 1, room + 1);
  }

  lemma NoGroup(inner: Option<Ast>, s: string, i: nat, b: nat, c: nat, room: nat)
    requires 0 < i <= b <= c <= |s| && (FlagsAt(s, i, b) || !FlagsFrom(s, i))
    requires inner.Some? ==> AltAt(inner.value, s, b, c, room) && !(c < |s| && s[c] == ')')
    requires inner.None? ==> !AltsFrom(s, b, room)
    ensures !GroupFrom(s, i - 1, room + 1)
  {
    hide AltAt, FlagsAt;
    if GroupFrom(s, i - 1, room + 1) {
      var a, b': nat, j: nat :| GroupAt(a, s, i - 1, b', j, room + 1);
      assert FlagsFrom(s, i) by { assert FlagsAt(s, i, b'); }
      UniqueFlags(s, i, b, b');
      if inner.Some? {
        UniqueAlt(s, b, inner.value, c, room, a, j - 1, room);
      } else {
        SomeAlts(a, s, b, j - 1, room);
      }
    }
  }

  lemma SomeAlts(a: Ast, s: string, i: nat, j: nat, room: nat)
    requires AltAt(a, s, i, j, room)
    ensures AltsFrom(s, i, room)
  {
    hide AltsAt;
  }

  lemma LastMember(v: seq<ClassItem>, s: string, i: nat, m: nat)
    requires MembersLead(v, s, i, m, v == []) && v != [] && m < |s| && s[m] == ']'
    ensures MembersAt(v, s, i, m, true)
  {
    assert MembersAt([], s, m, m, false);
    assert v + [] == v;
  }

  /** Where the members of the class opened at `i` begin. */
  ghost predicate Opened(s: string, i: nat, from: nat) {
    i < |s| && s[i] == '[' && from == if i + 1 < |s| && s[i + 1] == '^' then i + 2 else i + 1
  }

  lemma NoClass(s: string, i: nat, from: nat)
    requires Opened(s, i, from) && !MembersFrom(s, from, true)
    ensures !ClassFrom(s, i)
  {
    hide MembersAt;
  }

  lemma NoClassEnd(v: seq<ClassItem>, s: string, i: nat, from: nat, m: nat)
    requires Opened(s, i, from) && MembersLead(v, s, from, m, v == []) && m == |s|
    ensures !ClassFrom(s, i)
  {
    NoClass(s, i, from);
  }

  lemma NoClassMember(v: seq<ClassItem>, s: string, i: nat, from: nat, m: nat)
    requires Opened(s, i, from) && MembersLead(v, s, from, m, v == []) && m < |s| && !MemberFrom(s, m)
    requires s[m] == ']' ==> v == []
    ensures !ClassFrom(s, i)
  {
    hide MemberAt;
    if MembersFrom(s, m, v == []) {
      var w, j: nat :| MembersAt(w, s, m, j, v == []);
      SomeMember(w, s, m, j, v == []);
    }
    NoClass(s, i, from);
  }

  lemma SomeMember(w: seq<ClassItem>, s: string, m: nat, j: nat, first: bool)
    requires MembersAt(w, s, m, j, first) && (s[m] == ']' ==> first)
    ensures MemberFrom(s, m)
  {
    hide MemberAt;
    var k: nat :| m < k <= j && MemberAt(w[0], s, m, k) && MembersAt(w[1..], s, k, j, false);
  }

  // ----- what a reading looks like -----

  lemma {:induction false} AllHeight(v: seq<Ast>, bound: nat)
    requires forall i :: 0 <= i < |v| ==> Height(v[i]) <= bound
    ensures HeightAll(v) <= bound
    decreases |v|
  {
    if v != [] { AllHeight(v[1..], bound); }
  }

  /** Well formed, and no higher than the nesting allows. */
  ghost predicate Shaped(a: Ast, bound: int) {
    WellFormed(a) && Height(a) <= bound
  }

  ghost predicate AllShaped(v: seq<Ast>, bound: int) {
    forall k :: 0 <= k < |v| ==> Shaped(v[k], bound)
  }

  lemma {:induction false} AtomShape(a: Ast, s: string, i: nat, j: nat, room: nat)
    requires AtomAt(a, s, i, j, room)
    ensures Shaped(a, 4 * room - 3)
    decreases j - i, 1
  {
    hide AltAt, ClassAt;
    if s[i] == '(' {
      var b: nat :| GroupAt(a, s, i, b, j, room);
      AltShape(a, s, b, j - 1, room - 1);
    }
  }

  lemma {:induction false} RepeatShape(a: Ast, s: string, i: nat, j: nat, room: nat)
    requires RepeatAt(a, s, i, j, room)
    ensures Shaped(a, 4 * room - 1)
    decreases j - i, 2
  {
    hide AtomAt, MarkStarts, BoundAt;
    if AtomAt(a, s, i, j, room) && !MarkStarts(s, j) {
      AtomShape(a, s, i, j, room);
    } else {
      var k: nat, m: nat :|
        i < k < m <= j && AtomAt(Quantified(a).value, s, i, k, room) && MarkAt(a, s, k, m) && j == AfterLazy(s, m);
      AtomShape(Quantified(a).value, s, i, k, room);
    }
  }

  lemma {:induction false} ItemsShape(v: seq<Ast>, s: string, i: nat, j: nat, room: nat)
    requires ItemsAt(v, s, i, j, room)
    ensures AllShaped(v, 4 * room - 1)
    decreases j - i, 3
  {
    hide RepeatAt, Shaped;
    if v != [] {
      var k: nat :| i < k <= j && RepeatAt(v[0], s, i, k, room) && ItemsAt(v[1..], s, k, j, room);
      RepeatShape(v[0], s, i, k, room);
      ItemsShape(v[1..], s, k, j, room);
      ShapedFirst(v, 4 * room - 1);
    }
  }

  lemma ShapedFirst(v: seq<Ast>, bound: int)
    requires v != [] && Shaped(v[0], bound) && AllShaped(v[1..], bound)
    ensures AllShaped(v, bound)
  {
    hide Shaped;
    forall k | 0 <= k < |v| ensures Shaped(v[k], bound) {
      if k > 0 { assert v[k] == v[1..][k - 1]; }
    }
  }

  lemma {:induction false} AltsShape(v: seq<Ast>, s: string, i: nat, j: nat, room: nat)
    requires AltsAt(v, s, i, j, room)
    ensures AllShaped(v, 4 * room)
    decreases j - i, 5
  {
    hide ItemsAt, Shaped;
    var m: nat := if |v| == 1 then j else
      var m: nat :| i <= m < j && s[m] == '|' && ConcatAt(v[0], s, i, m, room) && AltsAt(v[1..], s, m + 1, j, room); m;
    var w :| ItemsAt(w, s, i, m, room) && v[0] == Joined(w);
    ItemsShape(w, s, i, m, room);
    JoinedShape(w, room);
    if |v| > 1 { AltsShape(v[1..], s, m + 1, j, room); }
    ShapedFirst(v, 4 * room);
  }

  lemma JoinedShape(v: seq<Ast>, room: nat)
    requires AllShaped(v, 4 * room - 1)
    ensures Shaped(Joined(v), 4 * room)
  {
    if v != [] {
      assert Shaped(v[0], 4 * room - 1);
      AllHeight(v, 4 * room - 1);
    }
  }

  lemma {:induction false} AltShape(a: Ast, s: string, i: nat, j: nat, room: nat)
    requires AltAt(a, s, i, j, room)
    ensures Shaped(a, 4 * room + 1)
    decreases j - i, 6
  {
    hide AltsAt;
    var v :| AltsAt(v, s, i, j, room) && a == Branched(v);
    AltsShape(v, s, i, j, room);
    AltsSome(v, s, i, j, room);
    assert Shaped(v[0], 4 * room);
    AllHeight(v, 4 * room);
  }

  lemma AltsSome(v: seq<Ast>, s: string, i: nat, j: nat, room: nat)
    requires AltsAt(v, s, i, j, room)
    ensures v != []
  {
  }

  // ----- from text to program -----

  /** The text spells `a` within the nesting limit. */
  ghost predicate Reads(a: Ast, pattern: string) {
    Spells(a, pattern, MAX_DEPTH)
  }

  lemma ReadsOne(pattern: string, a: Ast, b: Ast)
    requires Reads(a, pattern) && Reads(b, pattern)
    ensures a == b
  {
    hide Spells;
    OneReading(pattern, a, MAX_DEPTH, b, MAX_DEPTH);
  }

  /** The pattern is accepted exactly when it spells something, and then read as what it spells. */
  method ParsePattern(pattern: string) returns (r: Option<Ast>)
    ensures forall a :: Reads(a, pattern) <==> r == Some(a)
    ensures r.Some? ==> WellFormed(r.value) && Height(r.value) <= 4 * MAX_DEPTH + 1
  {
    hide AltAt, AltsFrom, Height, WellFormed;
    var p := new Parser(pattern);
    var parsed := p.ParseAlt();
    if parsed.None? {
      NothingSpelled(pattern);
      return None;
    }
    forall a, j: nat | AltAt(a, pattern, 0, j, MAX_DEPTH) ensures a == parsed.value && j == p.pos {
      UniqueAlt(pattern, 0, a, j, MAX_DEPTH, parsed.value, p.pos, MAX_DEPTH);
    }
    if p.pos != |pattern| { return None; }
    AltShape(parsed.value, pattern, 0, |pattern|, MAX_DEPTH);
    r := parsed;
  }

  lemma NothingSpelled(pattern: string)
    requires !AltsFrom(pattern, 0, MAX_DEPTH)
    ensures forall a :: !Reads(a, pattern)
  {
    hide AltAt, AltsFrom;
    forall a ensures !Reads(a, pattern) {
      if Reads(a, pattern) { SomeAlts(a, pattern, 0, |pattern|, MAX_DEPTH); }
    }
  }

  /** `Regex::new`: refused exactly when the text spells nothing or its program is too large. */
  method NewPattern(pattern: string) returns (r: Option<seq<Inst>>, ghost calls: nat)
    ensures r.Some? <==> exists a :: Reads(a, pattern) && Size(a) + 3 <= 200_000
    ensures r.Some? ==> Safe(r.value) && forall a :: Reads(a, pattern) ==> r.value == ProgramOf(a) && calls == Steps(a)
    ensures forall a :: Reads(a, pattern) && Thrifty(a) ==> calls <= Spend(Nodes(a), MAX_PROG)
  {
    hide Reads, Height, WellFormed, Safe, ProgramOf, Thrifty, Spend, Nodes, Steps, Size;
    var parsed := ParsePattern(pattern);
    if parsed.None? { return None, 0; }
    r, calls := NewRegex(parsed.value);
  }

  /** End to end: an accepted pattern finds exactly what the pattern it spells means. */
  method Search(pattern: string, text: string) returns (r: Option<bool>)
    ensures r.Some? <==> exists a :: Reads(a, pattern) && Size(a) + 3 <= MAX_PROG
    ensures forall a :: r.Some? && Reads(a, pattern) ==> r.value == Found(a, text)
  {
    hide Spells, Height, Found, Finds, Safe, ProgramOf, WellFormed;
    ghost var calls, pops;
    var prog;
    prog, calls := NewPattern(pattern);
    if prog.None? { return None; }
    var found;
    found, pops := IsMatch(prog.value, text);
    forall a | Reads(a, pattern) ensures found == Found(a, text) {
      SpelledShape(a, pattern);
      SearchExact(a, text);
    }
    r := Some(found);
  }

  lemma SpelledShape(a: Ast, pattern: string)
    requires Reads(a, pattern)
    ensures WellFormed(a)
  {
    hide AltAt;
    AltShape(a, pattern, 0, |pattern|, MAX_DEPTH);
  }

  /** The patterns `asts` are what the texts spell, one by one. */
  ghost predicate AllRead(asts: seq<Ast>, patterns: seq<string>) {
    |asts| == |patterns| && forall i :: 0 <= i < |asts| ==> Reads(asts[i], patterns[i])
  }

  /**
   * A set of patterns, end to end: refused exactly when some text spells nothing or the programs are too large
   * together; else ascending, and exactly the patterns whose meaning is found.
   */
  method SearchSet(patterns: seq<string>, text: string) returns (r: Option<seq<nat>>)
    ensures r.Some? <==>
      exists asts :: AllRead(asts, patterns) && RegexSetSearch.TotalSize(asts, |asts|) <= MAX_PROG
    ensures r.Some? ==> forall j, k :: 0 <= j < k < |r.value| ==> r.value[j] < r.value[k]
    ensures forall asts :: r.Some? && AllRead(asts, patterns) ==>
      forall id: nat :: id in r.value <==> id < |asts| && Found(asts[id], text)
  {
    hide Reads, WellFormed, Found, Height, RegexSetSearch.TotalSize;
    var trees := [];
    for i := 0 to |patterns|
      invariant |trees| == i
      invariant forall k :: 0 <= k < i ==> Reads(trees[k], patterns[k]) && WellFormed(trees[k])
    {
      var parsed := ParsePattern(patterns[i]);
      if parsed.None? {
        forall asts ensures !AllRead(asts, patterns) {
          if |asts| == |patterns| { assert !Reads(asts[i], patterns[i]); }
        }
        return None;
      }
      trees := trees + [parsed.value];
    }
    forall asts | AllRead(asts, patterns) ensures asts == trees { SameTrees(asts, trees, patterns); }
    assert AllRead(trees, patterns);
    r := RegexSetSearch.SearchAll(trees, text);
  }

  lemma SameTrees(asts: seq<Ast>, trees: seq<Ast>, patterns: seq<string>)
    requires AllRead(asts, patterns) && AllRead(trees, patterns)
    ensures asts == trees
  {
    hide Reads;
    forall i | 0 <= i < |asts| ensures asts[i] == trees[i] { ReadsOne(patterns[i], asts[i], trees[i]); }
  }
}
