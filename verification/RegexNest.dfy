/** The pattern text behind `RegexWork.Nest`: how src/regex.rs reads nested repeats of nothing. */
module RegexNest {
  import opened Wrappers
  import opened RegexAst
  import opened RegexCode
  import opened RegexSyntax
  import opened RegexWork
  import opened RegexParser

  /** `((...(){1000}...){1000}){1000}` with `d` pairs of parentheses. */
  function NestText(d: nat): (t: string)
    ensures |t| == 8 * d
  {
    if d == 0 then "" else "(" + NestText(d - 1) + "){1000}"
  }

  /** `NestText(d)` stands at `i`. */
  predicate NestAt(d: nat, s: string, i: nat) {
    i + 8 * d <= |s| && s[i..i + 8 * d] == NestText(d)
  }

  lemma Stretch(s: string, t: string, i: nat, a: nat, b: nat)
    requires i + |t| <= |s| && s[i..i + |t|] == t && a <= b <= |t|
    ensures s[i + a..i + b] == t[a..b] && (a < |t| ==> s[i + a] == t[a])
  {
    assert a < |t| ==> s[i..i + |t|][a] == s[i + a];
    forall k | 0 <= k < b - a ensures s[i + a..i + b][k] == t[a..b][k] {
      assert s[i..i + |t|][a + k] == s[i + a + k];
    }
  }

  lemma TextParts(d: nat)
    requires d > 0
    ensures NestText(d)[0] == '(' && NestText(d)[1] != '?' && NestText(d)[8 * d - 7] == ')'
    ensures NestText(d)[1..8 * d - 7] == NestText(d - 1) && NestText(d)[8 * d - 6..8 * d] == "{1000}"
  {
    var t := NestText(d - 1);
    if d > 1 { assert t[0] == '('; }
  }

  lemma NestParts(d: nat, s: string, i: nat)
    requires d > 0 && NestAt(d, s, i)
    ensures i + 8 * d <= |s| && NestAt(d - 1, s, i + 1)
    ensures s[i] == '(' && s[i + 1] != '?' && s[i + 8 * d - 7] == ')' && s[i + 8 * d - 6..i + 8 * d] == "{1000}"
  {
    hide NestText;
    var t := NestText(d);
    TextParts(d);
    Stretch(s, t, i, 0, 0);
    Stretch(s, t, i, 1, 8 * d - 7);
    Stretch(s, t, i, 8 * d - 7, 8 * d - 7);
    Stretch(s, t, i, 8 * d - 6, 8 * d);
  }

  lemma Thousand(s: string, i: nat)
    requires i + 6 <= |s| && s[i..i + 6] == "{1000}"
    ensures ExactAt(MAX_REPEAT, s, i, i + 6)
  {
    Stretch(s, "{1000}", i, 0, 0);
    Stretch(s, "{1000}", i, 1, 5);
    Stretch(s, "{1000}", i, 5, 5);
    assert "{1000}"[1..5] == "1000";
    ThousandNumber();
  }

  lemma ThousandNumber()
    ensures AllDigits("1000") && IntOf("1000") == Some(MAX_REPEAT)
  {
    assert "1000"[..3] == "100" && "100"[..2] == "10" && "10"[..1] == "1" && "1"[..0] == "";
    assert Number("1") == 1 && Number("10") == 10 && Number("100") == 100;
  }

  /** One pair of parentheses and its bound are one item. */
  lemma NestItem(d: nat, s: string, i: nat, room: nat)
    requires d > 0 && room > 0 && NestAt(d, s, i) && AltAt(Nest(d - 1), s, i + 1, i + 8 * d - 7, room - 1)
    requires i + 8 * d < |s| ==> s[i + 8 * d] != '?'
    ensures RepeatAt(Nest(d), s, i, i + 8 * d, room)
  {
    hide AltAt, BoundAt, NestAt;
    var b, j := Nest(d - 1), i + 8 * d;
    NestParts(d, s, i);
    assert AtomAt(b, s, i, j - 6, room) by { assert GroupAt(b, s, i, i + 1, j - 6, room); }
    assert MarkAt(Nest(d), s, j - 6, j) by { ThousandBound(s, j - 6); }
    assert Quantified(Nest(d)) == Some(b) && AfterLazy(s, j) == j;
  }

  lemma ThousandBound(s: string, i: nat)
    requires i + 6 <= |s| && s[i..i + 6] == "{1000}"
    ensures BoundAt(MAX_REPEAT, Some(MAX_REPEAT), s, i, i + 6)
  {
    hide ExactAt, RangeAt;
    Thousand(s, i);
  }

  predicate Closed(s: string, j: nat) {
    j == |s| || (j < |s| && s[j] == ')')
  }

  /** A lone item, or none, is a whole alternation. */
  lemma Alone(v: seq<Ast>, s: string, i: nat, j: nat, room: nat)
    requires |v| <= 1 && i <= j && Closed(s, j) && (v == [] ==> i == j)
    requires v != [] ==> i < j && !Stops(s, i) && RepeatAt(v[0], s, i, j, room)
    ensures AltAt(Joined(v), s, i, j, room)
  {
    hide RepeatAt;
    if v != [] {
      assert v[1..] == [] && ItemsAt([], s, j, j, room);
    }
    assert ItemsAt(v, s, i, j, room);
    assert ConcatAt(Joined(v), s, i, j, room);
    assert AltsAt([Joined(v)], s, i, j, room);
  }

  lemma {:induction false} NestReading(d: nat, s: string, i: nat, room: nat)
    requires NestAt(d, s, i) && d <= room && Closed(s, i + 8 * d)
    ensures AltAt(Nest(d), s, i, i + 8 * d, room)
    decreases d
  {
    hide AltAt, RepeatAt, NestAt;
    if d == 0 {
      Alone([], s, i, i, room);
    } else {
      NestParts(d, s, i);
      NestReading(d - 1, s, i + 1, room - 1);
      NestItem(d, s, i, room);
      Alone([Nest(d)], s, i, i + 8 * d, room);
    }
  }

  // ----- one pair too many -----

  predicate Opens(s: string, i: nat) {
    i + 1 < |s| && s[i] == '(' && s[i + 1] != '?'
  }

  /** Whatever is read from an opening parenthesis starts with a group. */
  lemma OpensGroup(a: Ast, s: string, i: nat, j: nat, room: nat) returns (b: Ast, k: nat)
    requires AltAt(a, s, i, j, room) && Opens(s, i)
    ensures room > 0 && AltAt(b, s, i + 1, k, room - 1)
  {
    hide ConcatAt;
    var v :| AltsAt(v, s, i, j, room) && a == Branched(v);
    var m: nat := if |v| == 1 then j else
      var m: nat :| i <= m < j && s[m] == '|' && ConcatAt(v[0], s, i, m, room) && AltsAt(v[1..], s, m + 1, j, room); m;
    b, k := OpensItems(v[0], s, i, m, room);
  }

  lemma OpensItems(a: Ast, s: string, i: nat, j: nat, room: nat) returns (b: Ast, k: nat)
    requires ConcatAt(a, s, i, j, room) && Opens(s, i)
    ensures room > 0 && AltAt(b, s, i + 1, k, room - 1)
  {
    hide ItemsAt, AltAt;
    var v :| ItemsAt(v, s, i, j, room) && a == Joined(v);
    b, k := OpensFirst(v, s, i, j, room);
  }

  lemma OpensFirst(v: seq<Ast>, s: string, i: nat, j: nat, room: nat) returns (b: Ast, k: nat)
    requires ItemsAt(v, s, i, j, room) && Opens(s, i)
    ensures room > 0 && AltAt(b, s, i + 1, k, room - 1)
  {
    hide RepeatAt, AltAt;
    var m: nat :| i < m <= j && RepeatAt(v[0], s, i, m, room) && ItemsAt(v[1..], s, m, j, room);
    b, k := OpensAtom(v[0], s, i, m, room);
  }

  lemma OpensAtom(a: Ast, s: string, i: nat, j: nat, room: nat) returns (b: Ast, k: nat)
    requires RepeatAt(a, s, i, j, room) && Opens(s, i)
    ensures room > 0 && AltAt(b, s, i + 1, k, room - 1)
  {
    hide AltAt, MarkStarts, MarkAt, AtomAt;
    var m: nat;
    if AtomAt(a, s, i, j, room) {
      b, m := a, j;
    } else {
      b := Quantified(a).value;
      var e: nat :| AtomAt(b, s, i, e, room);
      m := e;
    }
    k := OpensBody(b, s, i, m, room);
  }

  lemma OpensBody(a: Ast, s: string, i: nat, j: nat, room: nat) returns (k: nat)
    requires AtomAt(a, s, i, j, room) && Opens(s, i)
    ensures room > 0 && AltAt(a, s, i + 1, k, room - 1)
  {
    hide AltAt;
    var b: nat :| GroupAt(a, s, i, b, j, room);
    k := j - 1;
  }

  lemma {:induction false} NestTooDeep(d: nat, s: string, i: nat, j: nat, room: nat, a: Ast)
    requires NestAt(d, s, i) && d > room
    ensures !AltAt(a, s, i, j, room)
    decreases d
  {
    hide AltAt, NestAt;
    if AltAt(a, s, i, j, room) {
      NestParts(d, s, i);
      var b, k := OpensGroup(a, s, i, j, room);
      NestTooDeep(d - 1, s, i + 1, k, room - 1, b);
    }
  }

  /** The text spells the nest exactly up to the nesting limit; past it, nothing. */
  lemma NestReads(d: nat, a: Ast)
    ensures Reads(a, NestText(d)) <==> d <= 200 && a == Nest(d)
  {
    hide AltAt;
    var t := NestText(d);
    assert NestAt(d, t, 0) by { assert t[0..8 * d] == t; }
    if d <= MAX_DEPTH {
      NestReading(d, t, 0, MAX_DEPTH);
      if Reads(a, t) { ReadsOne(t, a, Nest(d)); }
    } else {
      NestTooDeep(d, t, 0, |t|, MAX_DEPTH, a);
    }
  }

  /** Eight characters a level are accepted, and cost a thousandfold more compiling with every level. */
  lemma NestAccepted(d: nat)
    requires d <= 200
    ensures |NestText(d)| == 8 * d && Reads(Nest(d), NestText(d)) && Size(Nest(d)) + 3 <= MAX_PROG
    ensures Steps(Nest(d)) >= Power(MAX_REPEAT, d)
  {
    hide Reads, Nest, Size, Steps, NestText;
    NestReads(d, Nest(d));
    EmptyNest(d);
  }
}
