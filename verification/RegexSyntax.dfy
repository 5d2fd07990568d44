/**
 * The pattern text src/regex.rs accepts: which stretch of a text reads as which pattern. The grammar looks ahead where
 * the text alone would not decide, so that every text has at most one reading.
 */
module RegexSyntax {
  import opened Wrappers
  import opened RegexAst

  const MAX_REPEAT := 1000

  // ----- numbers and bounds -----

  predicate AllDigits(s: string) {
    forall i :: 0 <= i < |s| ==> IsDigit(s[i])
  }

  function Number(s: string): nat
    requires AllDigits(s)
  {
    if s == "" then 0 else Number(s[..|s| - 1]) * 10 + (s[|s| - 1] as int - '0' as int)
  }

  /** A run of digits as a `u32`; nothing when empty or too large. */
  function IntOf(s: string): Option<nat>
    requires AllDigits(s)
  {
    if s == "" || Number(s) >= 0x1_0000_0000 then None else Some(Number(s))
  }

  predicate Bounded(lo: nat, hi: Option<nat>) {
    lo <= MAX_REPEAT && (hi.Some? ==> lo <= hi.value <= MAX_REPEAT)
  }

  /** `{n}` in `s[i..j]`. */
  predicate ExactAt(n: nat, s: string, i: nat, j: nat) {
    && i + 1 < j <= |s| && s[i] == '{' && s[j - 1] == '}'
    && AllDigits(s[i + 1..j - 1]) && IntOf(s[i + 1..j - 1]) == Some(n)
  }

  /** `{n,}`, `{,m}` or `{n,m}` in `s[i..j]` with its comma at `c`; a missing or oversized minimum is 0. */
  predicate RangeAt(lo: nat, hi: Option<nat>, s: string, i: nat, c: nat, j: nat) {
    && i < c < j - 1 < |s| && s[i] == '{' && s[c] == ',' && s[j - 1] == '}'
    && AllDigits(s[i + 1..c]) && AllDigits(s[c + 1..j - 1]) && IntOf(s[c + 1..j - 1]) == hi
    && lo == if IntOf(s[i + 1..c]).Some? then IntOf(s[i + 1..c]).value else 0
  }

  /** A bound, in or out of range. */
  ghost predicate BoundAt(lo: nat, hi: Option<nat>, s: string, i: nat, j: nat) {
    || (ExactAt(lo, s, i, j) && hi == Some(lo))
    || exists c: nat :: RangeAt(lo, hi, s, i, c, j)
  }

  // ----- escapes and classes -----

  function Control(c: char): char {
    if c == 'n' then '\n' else if c == 't' then '\t' else if c == 'r' then '\r' else c
  }

  function Shorthand(c: char): Option<ClassItem> {
    if c == 'd' then Some(Digit) else if c == 'D' then Some(NotDigit)
    else if c == 'w' then Some(Word) else if c == 'W' then Some(NotWord)
    else if c == 's' then Some(Space) else if c == 'S' then Some(NotSpace) else None
  }

  function EscapeAst(c: char): Ast {
    if Shorthand(c).Some? then Class([Shorthand(c).value], false) else Char(Control(c))
  }

  /** What a backslash makes of the character after it. */
  lemma EscapeMeans(c: char)
    ensures c == 'n' ==> EscapeAst(c) == Char(10 as char)
    ensures c == 't' ==> EscapeAst(c) == Char(9 as char)
    ensures c == 'r' ==> EscapeAst(c) == Char(13 as char)
    ensures c == 'd' ==> EscapeAst(c) == Class([Digit], false)
    ensures c == 'D' ==> EscapeAst(c) == Class([NotDigit], false)
    ensures c == 'w' ==> EscapeAst(c) == Class([Word], false)
    ensures c == 'W' ==> EscapeAst(c) == Class([NotWord], false)
    ensures c == 's' ==> EscapeAst(c) == Class([Space], false)
    ensures c == 'S' ==> EscapeAst(c) == Class([NotSpace], false)
    ensures c !in {'n', 't', 'r', 'd', 'D', 'w', 'W', 's', 'S'} ==> EscapeAst(c) == Char(c)
    ensures Control(c) == if c == 'n' then 10 as char else if c == 't' then 9 as char
                          else if c == 'r' then 13 as char else c
  {
  }

  function Tens(k: nat): nat {
    if k == 0 then 1 else 10 * Tens(k - 1)
  }

  /** The value of a run of digits by their places. */
  function Places(s: string): nat
    requires AllDigits(s)
  {
    if s == "" then 0 else (s[0] as int - 48) * Tens(|s| - 1) + Places(s[1..])
  }

  lemma {:induction false} PlacesSnoc(s: string, c: char)
    requires AllDigits(s) && '0' <= c <= '9'
    ensures AllDigits(s + [c]) && Places(s + [c]) == Places(s) * 10 + (c as int - 48)
    decreases |s|
  {
    var t := s + [c];
    assert forall i :: 0 <= i < |t| ==> IsDigit(t[i]);
    if s == "" {
      assert t == [c] && t[1..] == "";
      assert Tens(0) == 1;
    } else {
      assert t[1..] == s[1..] + [c] && t[0] == s[0];
      PlacesSnoc(s[1..], c);
      var d, k := s[0] as int - 48, |s| - 1;
      assert Tens(k + 1) == 10 * Tens(k);
      assert d * (10 * Tens(k)) == 10 * (d * Tens(k));
    }
  }

  /** Bounds are read as decimal numbers. */
  lemma {:induction false} NumberMeans(s: string)
    requires AllDigits(s)
    ensures Number(s) == Places(s)
    decreases |s|
  {
    if s != "" {
      var front, c := s[..|s| - 1], s[|s| - 1];
      assert s == front + [c];
      NumberMeans(front);
      PlacesSnoc(front, c);
    }
  }

  /** A class letter, plain or escaped, in `s[i..j]`. */
  predicate LetterAt(c: char, s: string, i: nat, j: nat) {
    && i < j <= |s|
    && if s[i] == '\\' then j == i + 2 && c == Control(s[i + 1]) else j == i + 1 && c == s[i]
  }

  /** A `-` that makes a range: one not followed by the end of the class. */
  predicate DashAt(s: string, i: nat) {
    i + 1 < |s| && s[i] == '-' && s[i + 1] != ']'
  }

  /** One member of a class: a shorthand, a letter, or, wherever a dash allows it, an ordered range. */
  ghost predicate MemberAt(item: ClassItem, s: string, i: nat, j: nat) {
    if i + 1 < |s| && s[i] == '\\' && Shorthand(s[i + 1]).Some?
    then j == i + 2 && item == Shorthand(s[i + 1]).value
    else item.Range? && exists k: nat :: LetterAt(item.lo, s, i, k) && HighAt(item, s, k, j)
  }

  /** What follows the first letter of a member. */
  predicate HighAt(item: ClassItem, s: string, k: nat, j: nat)
    requires item.Range?
  {
    if DashAt(s, k) then LetterAt(item.hi, s, k + 1, j) && item.lo <= item.hi else j == k && item.hi == item.lo
  }

  /** Members up to the `]` at `j`; as the first member `]` is a letter. */
  ghost predicate MembersAt(items: seq<ClassItem>, s: string, i: nat, j: nat, first: bool)
    decreases j - i
  {
    && i <= j < |s|
    && if items == [] then i == j && s[j] == ']' && !first
       else (s[i] == ']' ==> first) &&
            exists k: nat :: i < k <= j && MemberAt(items[0], s, i, k) && MembersAt(items[1..], s, k, j, false)
  }

  ghost predicate ClassAt(items: seq<ClassItem>, negated: bool, s: string, i: nat, j: nat) {
    && i + 1 < j <= |s| && s[i] == '[' && (negated <==> s[i + 1] == '^')
    && MembersAt(items, s, if negated then i + 2 else i + 1, j - 1, true)
  }

  // ----- the grammar -----

  predicate Stops(s: string, i: nat) {
    i >= |s| || s[i] == '|' || s[i] == ')'
  }

  /** `s[i..j]` reads as the alternatives `v`; `room` is how many more groups may be opened. */
  ghost predicate AltsAt(v: seq<Ast>, s: string, i: nat, j: nat, room: nat)
    decreases j - i, 5
  {
    && v != [] && i <= j <= |s|
    && if |v| == 1 then ConcatAt(v[0], s, i, j, room) && !(j < |s| && s[j] == '|')
       else exists k: nat ::
              i <= k < j && s[k] == '|' && ConcatAt(v[0], s, i, k, room) && AltsAt(v[1..], s, k + 1, j, room)
  }

  function Joined(v: seq<Ast>): Ast {
    if v == [] then Empty else if |v| == 1 then v[0] else Concat(v)
  }

  function Branched(v: seq<Ast>): Ast {
    if |v| == 1 then v[0] else Alt(v)
  }

  ghost predicate AltAt(a: Ast, s: string, i: nat, j: nat, room: nat)
    decreases j - i, 6
  {
    exists v :: AltsAt(v, s, i, j, room) && a == Branched(v)
  }

  ghost predicate ConcatAt(a: Ast, s: string, i: nat, j: nat, room: nat)
    decreases j - i, 4
  {
    exists v :: ItemsAt(v, s, i, j, room) && a == Joined(v)
  }

  /** Items one after the other, up to a bar, a closing parenthesis or the end. */
  ghost predicate ItemsAt(v: seq<Ast>, s: string, i: nat, j: nat, room: nat)
    decreases j - i, 3
  {
    && i <= j <= |s|
    && if v == [] then i == j && Stops(s, i)
       else !Stops(s, i) &&
            exists k: nat :: i < k <= j && RepeatAt(v[0], s, i, k, room) && ItemsAt(v[1..], s, k, j, room)
  }

  function Quantified(a: Ast): Option<Ast> {
    match a
    case Star(b) => Some(b)
    case Plus(b) => Some(b)
    case Quest(b) => Some(b)
    case Repeat(b, _, _) => Some(b)
    case _ => None
  }

  /** The quantifier of `a` in `s[i..j]`. */
  ghost predicate MarkAt(a: Ast, s: string, i: nat, j: nat) {
    match a
    case Star(_) => j == i + 1 <= |s| && s[i] == '*'
    case Plus(_) => j == i + 1 <= |s| && s[i] == '+'
    case Quest(_) => j == i + 1 <= |s| && s[i] == '?'
    case Repeat(_, lo, hi) => Bounded(lo, hi) && BoundAt(lo, hi, s, i, j)
    case _ => false
  }

  /** Something at `i` that must be read as a quantifier, valid or not. */
  ghost predicate MarkStarts(s: string, i: nat) {
    i < |s| && (s[i] == '*' || s[i] == '+' || s[i] == '?' || exists lo: nat, hi, j: nat :: BoundAt(lo, hi, s, i, j))
  }

  /** Past the lazy mark, which is accepted and ignored. */
  function AfterLazy(s: string, i: nat): nat {
    if i < |s| && s[i] == '?' then i + 1 else i
  }

  /** An atom that nothing quantifies, or an atom with its quantifier. */
  ghost predicate RepeatAt(a: Ast, s: string, i: nat, j: nat, room: nat)
    decreases j - i, 2
  {
    || (AtomAt(a, s, i, j, room) && !MarkStarts(s, j))
    || (Quantified(a).Some? && exists k: nat, m: nat ::
          i < k < m <= j && AtomAt(Quantified(a).value, s, i, k, room) && MarkAt(a, s, k, m) && j == AfterLazy(s, m))
  }

  /** Flags between `(?` and the `:` or `)` that ends them; nothing when there is no `?`. */
  predicate FlagsAt(s: string, i: nat, j: nat) {
    if i < |s| && s[i] == '?'
    then i + 1 < j <= |s| && EndsFlags(s[j - 1]) && forall k :: i < k < j - 1 ==> !EndsFlags(s[k])
    else j == i
  }

  predicate EndsFlags(c: char) {
    c == ':' || c == ')'
  }

  function Single(c: char): Ast {
    if c == '.' then Any else if c == '^' then Start else if c == '$' then End else Char(c)
  }

  /** Bounds: a number below 2^32, then at most 1000 and not the wrong way round. */
  lemma BoundMeans(s: string, lo: nat, hi: Option<nat>)
    requires AllDigits(s)
    ensures IntOf(s) == if s == "" || Places(s) >= 4294967296 then None else Some(Places(s))
    ensures Bounded(lo, hi) <==> lo <= 1000 && (hi == None || (lo <= hi.value && hi.value <= 1000))
  {
    NumberMeans(s);
  }

  /** What a character alone stands for. */
  lemma SingleMeans(c: char)
    ensures c == '.' ==> Single(c) == Any
    ensures c == '^' ==> Single(c) == Start
    ensures c == '$' ==> Single(c) == End
    ensures c !in {'.', '^', '$'} ==> Single(c) == Char(c)
  {
  }

  /** A group whose body starts at `b`. */
  ghost predicate GroupAt(a: Ast, s: string, i: nat, b: nat, j: nat, room: nat)
    decreases j - i, 0
  {
    && i < b < j <= |s| && room > 0 && s[i] == '(' && FlagsAt(s, i + 1, b)
    && s[j - 1] == ')' && AltAt(a, s, b, j - 1, room - 1)
  }

  ghost predicate AtomAt(a: Ast, s: string, i: nat, j: nat, room: nat)
    decreases j - i, 1
  {
    && i < j <= |s| && room > 0
    && if s[i] == '(' then exists b: nat :: GroupAt(a, s, i, b, j, room)
       else if s[i] == '[' then a.Class? && ClassAt(a.items, a.negated, s, i, j)
       else if s[i] == '\\' then j == i + 2 && a == EscapeAst(s[i + 1])
       else j == i + 1 && s[i] !in "*+?|)" && a == Single(s[i])
  }

  /** The whole text reads as `a`, with at most `room` groups inside each other. */
  ghost predicate Spells(a: Ast, t: string, room: nat) {
    AltAt(a, t, 0, |t|, room)
  }

  // ----- every text has at most one reading -----

  lemma DigitInside(s: string, a: nat, b: nat, k: nat)
    requires a <= k < b <= |s| && AllDigits(s[a..b])
    ensures IsDigit(s[k])
  {
    assert s[a..b][k - a] == s[k];
  }

  /** A run of digits ends where the first other character is. */
  lemma UniqueEnd(s: string, a: nat, j: nat, k: nat)
    requires a <= j < |s| && a <= k < |s| && AllDigits(s[a..j]) && AllDigits(s[a..k])
    requires !IsDigit(s[j]) && !IsDigit(s[k])
    ensures j == k
  {
    hide AllDigits;
    forall x | a <= x < j ensures IsDigit(s[x]) { DigitInside(s, a, j, x); }
    forall x | a <= x < k ensures IsDigit(s[x]) { DigitInside(s, a, k, x); }
  }

  lemma UniqueBound(s: string, i: nat, lo: nat, hi: Option<nat>, j: nat, lo': nat, hi': Option<nat>, k: nat)
    requires BoundAt(lo, hi, s, i, j) && BoundAt(lo', hi', s, i, k)
    ensures lo == lo' && hi == hi' && j == k
  {
    hide AllDigits, IntOf;
    var c: nat := if ExactAt(lo, s, i, j) && hi == Some(lo) then j - 1 else
      var c: nat :| RangeAt(lo, hi, s, i, c, j); c;
    var d: nat := if ExactAt(lo', s, i, k) && hi' == Some(lo') then k - 1 else
      var d: nat :| RangeAt(lo', hi', s, i, d, k); d;
    UniqueEnd(s, i + 1, c, d);
    if s[c] == ',' {
      UniqueEnd(s, c + 1, j - 1, k - 1);
    }
  }

  lemma UniqueMember(s: string, i: nat, x: ClassItem, j: nat, y: ClassItem, k: nat)
    requires MemberAt(x, s, i, j) && MemberAt(y, s, i, k)
    ensures x == y && j == k
  {
  }

  lemma {:induction false} UniqueMembers(
    s: string, i: nat, v: seq<ClassItem>, j: nat, w: seq<ClassItem>, k: nat, first: bool)
    requires MembersAt(v, s, i, j, first) && MembersAt(w, s, i, k, first)
    ensures v == w && j == k
    decreases j - i
  {
    hide MemberAt;
    if v != [] && w != [] {
      var m: nat :| i < m <= j && MemberAt(v[0], s, i, m) && MembersAt(v[1..], s, m, j, false);
      var n: nat :| i < n <= k && MemberAt(w[0], s, i, n) && MembersAt(w[1..], s, n, k, false);
      UniqueMember(s, i, v[0], m, w[0], n);
      UniqueMembers(s, m, v[1..], j, w[1..], k, false);
      assert v == [v[0]] + v[1..] && w == [w[0]] + w[1..];
    }
  }

  lemma UniqueMark(s: string, i: nat, a: Ast, j: nat, b: Ast, k: nat)
    requires MarkAt(a, s, i, j) && MarkAt(b, s, i, k) && Quantified(a) == Quantified(b)
    ensures a == b && j == k
  {
    hide BoundAt;
    if a.Repeat? {
      assert s[i] == '{' by { BoundOpens(a.min, a.max, s, i, j); }
    }
    if b.Repeat? {
      assert s[i] == '{' by { BoundOpens(b.min, b.max, s, i, k); }
    }
    if a.Repeat? && b.Repeat? {
      UniqueBound(s, i, a.min, a.max, j, b.min, b.max, k);
    }
  }

  lemma BoundOpens(lo: nat, hi: Option<nat>, s: string, i: nat, j: nat)
    requires BoundAt(lo, hi, s, i, j)
    ensures i + 1 < j <= |s| && s[i] == '{' && s[j - 1] == '}'
  {
    hide IntOf, AllDigits;
  }

  lemma MarkMarks(a: Ast, s: string, i: nat, j: nat)
    requires MarkAt(a, s, i, j)
    ensures i < j <= |s| && MarkStarts(s, i)
  {
    hide BoundAt;
    if a.Repeat? { BoundOpens(a.min, a.max, s, i, j); }
  }

  lemma UniqueFlags(s: string, i: nat, j: nat, k: nat)
    requires FlagsAt(s, i, j) && FlagsAt(s, i, k)
    ensures j == k
  {
  }

  lemma {:induction false} UniqueAtom(s: string, i: nat, a: Ast, j: nat, p: nat, b: Ast, k: nat, q: nat)
    requires AtomAt(a, s, i, j, p) && AtomAt(b, s, i, k, q)
    ensures a == b && j == k
    decreases j - i, 1
  {
    hide FlagsAt, AltAt, MembersAt, EscapeAst, Single;
    if s[i] == '(' {
      var m: nat :| GroupAt(a, s, i, m, j, p);
      var n: nat :| GroupAt(b, s, i, n, k, q);
      UniqueFlags(s, i + 1, m, n);
      UniqueAlt(s, m, a, j - 1, p - 1, b, k - 1, q - 1);
    } else if s[i] == '[' {
      UniqueMembers(s, if a.negated then i + 2 else i + 1, a.items, j - 1, b.items, k - 1, true);
    }
  }

  /** One reading of an item: the atom is the same, and what follows it decides whether it is quantified. */
  lemma {:induction false} UniqueRepeat(s: string, i: nat, a: Ast, j: nat, p: nat, b: Ast, k: nat, q: nat)
    requires RepeatAt(a, s, i, j, p) && RepeatAt(b, s, i, k, q)
    ensures a == b && j == k
    decreases j - i, 2
  {
    hide AtomAt, MarkStarts, MarkAt;
    if AtomAt(a, s, i, j, p) && !MarkStarts(s, j) {
      if AtomAt(b, s, i, k, q) && !MarkStarts(s, k) {
        UniqueAtom(s, i, a, j, p, b, k, q);
      } else {
        var m: nat, n: nat :| i < m < n <= k && AtomAt(Quantified(b).value, s, i, m, q) && MarkAt(b, s, m, n);
        UniqueAtom(s, i, a, j, p, Quantified(b).value, m, q);
        MarkMarks(b, s, m, n);
      }
    } else {
      var m: nat, n: nat :|
        i < m < n <= j && AtomAt(Quantified(a).value, s, i, m, p) && MarkAt(a, s, m, n) && j == AfterLazy(s, n);
      if AtomAt(b, s, i, k, q) && !MarkStarts(s, k) {
        UniqueAtom(s, i, Quantified(a).value, m, p, b, k, q);
        MarkMarks(a, s, m, n);
      } else {
        var m': nat, n': nat :|
          i < m' < n' <= k && AtomAt(Quantified(b).value, s, i, m', q) && MarkAt(b, s, m', n') && k == AfterLazy(s, n');
        UniqueAtom(s, i, Quantified(a).value, m, p, Quantified(b).value, m', q);
        UniqueMark(s, m, a, n, b, n');
      }
    }
  }

  lemma {:induction false} UniqueItems(s: string, i: nat, v: seq<Ast>, j: nat, p: nat, w: seq<Ast>, k: nat, q: nat)
    requires ItemsAt(v, s, i, j, p) && ItemsAt(w, s, i, k, q)
    ensures v == w && j == k
    decreases j - i, 3
  {
    hide RepeatAt;
    if v != [] {
      var m: nat :| i < m <= j && RepeatAt(v[0], s, i, m, p) && ItemsAt(v[1..], s, m, j, p);
      var n: nat :| i < n <= k && RepeatAt(w[0], s, i, n, q) && ItemsAt(w[1..], s, n, k, q);
      UniqueRepeat(s, i, v[0], m, p, w[0], n, q);
      UniqueItems(s, m, v[1..], j, p, w[1..], k, q);
      assert v == [v[0]] + v[1..] && w == [w[0]] + w[1..];
    }
  }

  lemma {:induction false} UniqueConcat(s: string, i: nat, a: Ast, j: nat, p: nat, b: Ast, k: nat, q: nat)
    requires ConcatAt(a, s, i, j, p) && ConcatAt(b, s, i, k, q)
    ensures a == b && j == k
    decreases j - i, 4
  {
    hide ItemsAt;
    var v :| ItemsAt(v, s, i, j, p) && a == Joined(v);
    var w :| ItemsAt(w, s, i, k, q) && b == Joined(w);
    UniqueItems(s, i, v, j, p, w, k, q);
  }

  lemma {:induction false} UniqueAlts(s: string, i: nat, v: seq<Ast>, j: nat, p: nat, w: seq<Ast>, k: nat, q: nat)
    requires AltsAt(v, s, i, j, p) && AltsAt(w, s, i, k, q)
    ensures v == w && j == k
    decreases j - i, 5
  {
    hide ConcatAt;
    var m: nat := if |v| == 1 then j else
      var m: nat :| i <= m < j && s[m] == '|' && ConcatAt(v[0], s, i, m, p) && AltsAt(v[1..], s, m + 1, j, p); m;
    var n: nat := if |w| == 1 then k else
      var n: nat :| i <= n < k && s[n] == '|' && ConcatAt(w[0], s, i, n, q) && AltsAt(w[1..], s, n + 1, k, q); n;
    UniqueConcat(s, i, v[0], m, p, w[0], n, q);
    assert v == [v[0]] + v[1..] && w == [w[0]] + w[1..];
    if |v| > 1 && |w| > 1 {
      UniqueAlts(s, m + 1, v[1..], j, p, w[1..], k, q);
    }
  }

  lemma {:induction false} UniqueAlt(s: string, i: nat, a: Ast, j: nat, p: nat, b: Ast, k: nat, q: nat)
    requires AltAt(a, s, i, j, p) && AltAt(b, s, i, k, q)
    ensures a == b && j == k
    decreases j - i, 6
  {
    hide AltsAt;
    var v :| AltsAt(v, s, i, j, p) && a == Branched(v);
    var w :| AltsAt(w, s, i, k, q) && b == Branched(w);
    UniqueAlts(s, i, v, j, p, w, k, q);
  }

  /** A text spells at most one pattern, whatever nesting is allowed. */
  lemma OneReading(t: string, a: Ast, p: nat, b: Ast, q: nat)
    requires Spells(a, t, p) && Spells(b, t, q)
    ensures a == b
  {
    hide AltAt;
    UniqueAlt(t, 0, a, |t|, p, b, |t|, q);
  }

  // ----- reading on from a prefix -----

  ghost predicate MembersFrom(s: string, i: nat, first: bool) {
    exists v, j: nat :: MembersAt(v, s, i, j, first)
  }

  ghost predicate ItemsFrom(s: string, i: nat, room: nat) {
    exists v, j: nat :: ItemsAt(v, s, i, j, room)
  }

  ghost predicate AltsFrom(s: string, i: nat, room: nat) {
    exists v, j: nat :: AltsAt(v, s, i, j, room)
  }

  /** From `i` the members `v` lead to `m`: what reads on from there reads from `i`, and nothing else does. */
  ghost predicate MembersLead(v: seq<ClassItem>, s: string, i: nat, m: nat, first: bool) {
    && (forall w, j: nat :: MembersAt(w, s, m, j, first) ==> MembersAt(v + w, s, i, j, true))
    && (MembersFrom(s, i, true) ==> MembersFrom(s, m, first))
  }

  ghost predicate ItemsLead(v: seq<Ast>, s: string, i: nat, m: nat, room: nat) {
    && (forall w, j: nat :: ItemsAt(w, s, m, j, room) ==> ItemsAt(v + w, s, i, j, room))
    && (ItemsFrom(s, i, room) ==> ItemsFrom(s, m, room))
  }

  ghost predicate AltsLead(v: seq<Ast>, s: string, i: nat, m: nat, room: nat) {
    && (forall w, j: nat :: AltsAt(w, s, m, j, room) ==> AltsAt(v + w, s, i, j, room))
    && (AltsFrom(s, i, room) ==> AltsFrom(s, m, room))
  }

  lemma MembersLeadNone(s: string, i: nat)
    ensures MembersLead([], s, i, i, true)
  {
    forall w: seq<ClassItem> ensures [] + w == w {}
  }

  lemma MembersLeadOne(v: seq<ClassItem>, x: ClassItem, s: string, i: nat, m: nat, n: nat)
    requires MembersLead(v, s, i, m, v == []) && m < n && MemberAt(x, s, m, n)
    requires m < |s| && (s[m] == ']' ==> v == [])
    ensures MembersLead(v + [x], s, i, n, false)
  {
    hide MemberAt;
    forall w, j: nat | MembersAt(w, s, n, j, false) ensures MembersAt(v + [x] + w, s, i, j, true) {
      assert ([x] + w)[1..] == w;
      assert MembersAt([x] + w, s, m, j, v == []);
      assert v + ([x] + w) == v + [x] + w;
    }
    if MembersFrom(s, i, true) {
      var w, j: nat :| MembersAt(w, s, m, j, v == []);
      MembersNext(s, m, v == [], w, j, x, n);
    }
  }

  lemma MembersNext(s: string, m: nat, first: bool, w: seq<ClassItem>, j: nat, x: ClassItem, n: nat)
    requires MembersAt(w, s, m, j, first) && MemberAt(x, s, m, n) && (s[m] == ']' ==> first)
    ensures MembersFrom(s, n, false)
  {
    hide MemberAt;
    var k: nat :| m < k <= j && MemberAt(w[0], s, m, k) && MembersAt(w[1..], s, k, j, false);
    UniqueMember(s, m, x, n, w[0], k);
  }

  lemma ItemsLeadNone(s: string, i: nat, room: nat)
    ensures ItemsLead([], s, i, i, room)
  {
    hide ItemsAt;
    forall w: seq<Ast> ensures [] + w == w {}
  }

  lemma ItemsLeadOne(v: seq<Ast>, a: Ast, s: string, i: nat, m: nat, n: nat, room: nat)
    requires ItemsLead(v, s, i, m, room) && m < n && RepeatAt(a, s, m, n, room) && !Stops(s, m)
    ensures ItemsLead(v + [a], s, i, n, room)
  {
    hide RepeatAt;
    forall w, j: nat | ItemsAt(w, s, n, j, room) ensures ItemsAt(v + [a] + w, s, i, j, room) {
      assert ([a] + w)[1..] == w;
      assert ItemsAt([a] + w, s, m, j, room);
      assert v + ([a] + w) == v + [a] + w;
    }
    if ItemsFrom(s, i, room) {
      var w, j: nat :| ItemsAt(w, s, m, j, room);
      ItemsNext(s, m, w, j, a, n, room);
    }
  }

  lemma ItemsNext(s: string, m: nat, w: seq<Ast>, j: nat, a: Ast, n: nat, room: nat)
    requires ItemsAt(w, s, m, j, room) && RepeatAt(a, s, m, n, room) && !Stops(s, m)
    ensures ItemsFrom(s, n, room)
  {
    hide RepeatAt;
    var k: nat :| m < k <= j && RepeatAt(w[0], s, m, k, room) && ItemsAt(w[1..], s, k, j, room);
    UniqueRepeat(s, m, a, n, room, w[0], k, room);
  }

  lemma AltsLeadNone(s: string, i: nat, room: nat)
    ensures AltsLead([], s, i, i, room)
  {
    hide AltsAt;
    forall w: seq<Ast> ensures [] + w == w {}
  }

  lemma AltsLeadOne(v: seq<Ast>, a: Ast, s: string, i: nat, m: nat, n: nat, room: nat)
    requires AltsLead(v, s, i, m, room) && m <= n < |s| && s[n] == '|' && ConcatAt(a, s, m, n, room)
    ensures AltsLead(v + [a], s, i, n + 1, room)
  {
    hide ConcatAt;
    forall w, j: nat | AltsAt(w, s, n + 1, j, room) ensures AltsAt(v + [a] + w, s, i, j, room) {
      assert ([a] + w)[1..] == w;
      assert AltsAt([a] + w, s, m, j, room);
      assert v + ([a] + w) == v + [a] + w;
    }
    if AltsFrom(s, i, room) {
      var w, j: nat :| AltsAt(w, s, m, j, room);
      AltsNext(s, m, w, j, a, n, room);
    }
  }

  lemma AltsNext(s: string, m: nat, w: seq<Ast>, j: nat, a: Ast, n: nat, room: nat)
    requires AltsAt(w, s, m, j, room) && ConcatAt(a, s, m, n, room) && n < |s| && s[n] == '|'
    ensures AltsFrom(s, n + 1, room)
  {
    hide ConcatAt;
    var k: nat := if |w| == 1 then j else
      var k: nat :| m <= k < j && s[k] == '|' && ConcatAt(w[0], s, m, k, room) && AltsAt(w[1..], s, k + 1, j, room); k;
    UniqueConcat(s, m, a, n, room, w[0], k, room);
    assert AltsAt(w[1..], s, n + 1, j, room);
  }
}
