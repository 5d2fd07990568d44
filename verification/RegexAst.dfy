/** The pattern syntax of src/regex.rs and its positional meaning. */
module RegexAst {
  import opened Wrappers

  datatype ClassItem =
    | Range(lo: char, hi: char)
    | Digit
    | NotDigit
    | Word
    | NotWord
    | Space
    | NotSpace

  datatype Ast =
    | Empty
    | Char(c: char)
    | Any
    | Class(items: seq<ClassItem>, negated: bool)
    | Start
    | End
    | Concat(parts: seq<Ast>)
    | Alt(alternatives: seq<Ast>)
    | Star(body: Ast)
    | Plus(body: Ast)
    | Quest(body: Ast)
    | Repeat(body: Ast, min: nat, max: Option<nat>)

  predicate IsDigit(c: char) { '0' <= c <= '9' }

  predicate IsWordChar(c: char) {
    IsDigit(c) || 'a' <= c <= 'z' || 'A' <= c <= 'Z' || c == '_'
  }

  /** Rust's `is_ascii_whitespace`: space, tab, line feed, form feed, carriage return. */
  predicate IsSpaceChar(c: char) {
    c == ' ' || c == '\t' || c == '\n' || c == '\U{000C}' || c == '\r'
  }

  predicate ItemMatches(item: ClassItem, c: char) {
    match item
    case Range(lo, hi) => lo <= c <= hi
    case Digit => IsDigit(c)
    case NotDigit => !IsDigit(c)
    case Word => IsWordChar(c)
    case NotWord => !IsWordChar(c)
    case Space => IsSpaceChar(c)
    case NotSpace => !IsSpaceChar(c)
  }

  predicate ClassHit(items: seq<ClassItem>, negated: bool, c: char) {
    (exists k :: 0 <= k < |items| && ItemMatches(items[k], c)) != negated
  }

  /** The shape the parser yields: an alternation has a branch, a bounded repeat is ordered. */
  predicate WellFormed(a: Ast) {
    match a
    case Concat(v) => forall k :: 0 <= k < |v| ==> WellFormed(v[k])
    case Alt(v) => v != [] && forall k :: 0 <= k < |v| ==> WellFormed(v[k])
    case Star(b) => WellFormed(b)
    case Plus(b) => WellFormed(b)
    case Quest(b) => WellFormed(b)
    case Repeat(b, lo, hi) => WellFormed(b) && (hi.Some? ==> lo <= hi.value)
    case _ => true
  }

  // ----- meaning: which spans of the text a pattern matches -----

  /** `a` matches `s[i..j]`, with `^` and `$` seeing the true text position. */
  ghost predicate Matches(a: Ast, s: string, i: nat, j: nat)
    decreases a, 0
  {
    match a
    case Empty => i == j
    case Char(c) => i < |s| && s[i] == c && j == i + 1
    case Any => i < |s| && s[i] != '\n' && j == i + 1
    case Class(items, negated) => i < |s| && ClassHit(items, negated, s[i]) && j == i + 1
    case Start => i == 0 && i == j
    case End => i == |s| && i == j
    case Concat(v) => MatchesAll(v, s, i, j)
    case Alt(v) => exists k :: 0 <= k < |v| && Matches(v[k], s, i, j)
    case Star(b) => exists k: nat :: Copies(b, k, s, i, j)
    case Plus(b) => exists k: nat :: k >= 1 && Copies(b, k, s, i, j)
    case Quest(b) => i == j || Matches(b, s, i, j)
    case Repeat(b, lo, hi) =>
      exists k: nat :: lo <= k && (hi.Some? ==> k <= hi.value) && Copies(b, k, s, i, j)
  }

  /** The patterns of `v` match one after the other. */
  ghost predicate MatchesAll(v: seq<Ast>, s: string, i: nat, j: nat)
    decreases v, 0
  {
    if v == [] then i == j
    else exists m: nat :: Matches(v[0], s, i, m) && MatchesAll(v[1..], s, m, j)
  }

  /** `k` adjacent matches of `b`. */
  ghost predicate Copies(b: Ast, k: nat, s: string, i: nat, j: nat)
    decreases b, 1 + k
  {
    if k == 0 then i == j
    else exists m: nat :: Matches(b, s, i, m) && Copies(b, k - 1, s, m, j)
  }

  // ----- what classes mean, character by character -----

  const DIGITS: string := "0123456789"
  const CAPITALS: string := "ABCDEFGHIJKLMNOPQRSTUVWXYZ"
  const SMALLS: string := "abcdefghijklmnopqrstuvwxyz"

  lemma DigitChars(c: char)
    ensures '0' <= c <= '9' <==> c in DIGITS
  {
    forall k | 0 <= k < 10 ensures DIGITS[k] as int == 48 + k {}
    if '0' <= c <= '9' { assert DIGITS[c as int - 48] == c; }
  }

  lemma CapitalChars(c: char)
    ensures 'A' <= c <= 'Z' <==> c in CAPITALS
  {
    forall k | 0 <= k < 26 ensures CAPITALS[k] as int == 65 + k {}
    if 'A' <= c <= 'Z' { assert CAPITALS[c as int - 65] == c; }
  }

  lemma SmallChars(c: char)
    ensures 'a' <= c <= 'z' <==> c in SMALLS
  {
    forall k | 0 <= k < 26 ensures SMALLS[k] as int == 97 + k {}
    if 'a' <= c <= 'z' { assert SMALLS[c as int - 97] == c; }
  }

  /** Each class item, spelled out. */
  lemma ItemMeans(c: char, lo: char, hi: char)
    ensures ItemMatches(Digit, c) <==> c in DIGITS
    ensures ItemMatches(NotDigit, c) <==> c !in DIGITS
    ensures ItemMatches(Word, c) <==> c in DIGITS || c in CAPITALS || c in SMALLS || c == '_'
    ensures ItemMatches(NotWord, c) <==> c !in DIGITS && c !in CAPITALS && c !in SMALLS && c != '_'
    ensures ItemMatches(Space, c) <==> c as int in {9, 10, 12, 13, 32}
    ensures ItemMatches(NotSpace, c) <==> c as int !in {9, 10, 12, 13, 32}
    ensures ItemMatches(Range(lo, hi), c) <==> lo as int <= c as int <= hi as int
  {
    DigitChars(c);
    CapitalChars(c);
    SmallChars(c);
  }

  /** A class takes one character: one that some item matches, or, negated, one that none does. */
  lemma ClassMeans(items: seq<ClassItem>, s: string, i: nat, j: nat)
    ensures Matches(Class(items, false), s, i, j) <==>
      i < |s| && j == i + 1 && exists k :: 0 <= k < |items| && ItemMatches(items[k], s[i])
    ensures Matches(Class(items, true), s, i, j) <==>
      i < |s| && j == i + 1 && forall k :: 0 <= k < |items| ==> !ItemMatches(items[k], s[i])
  {
    hide ItemMatches;
  }

  /** A match never runs backwards or past the end of the text. */
  lemma {:induction false} MatchSpan(a: Ast, s: string, i: nat, j: nat)
    requires Matches(a, s, i, j) && i <= |s|
    ensures i <= j <= |s|
    decreases a, 0
  {
    match a
    case Concat(v) => MatchAllSpan(v, s, i, j);
    case Alt(v) =>
      var k :| 0 <= k < |v| && Matches(v[k], s, i, j);
      MatchSpan(v[k], s, i, j);
    case Star(b) =>
      var k: nat :| Copies(b, k, s, i, j);
      CopiesSpan(b, k, s, i, j);
    case Plus(b) =>
      var k: nat :| k >= 1 && Copies(b, k, s, i, j);
      CopiesSpan(b, k, s, i, j);
    case Quest(b) => if i != j { MatchSpan(b, s, i, j); }
    case Repeat(b, lo, hi) =>
      var k: nat :| lo <= k && (hi.Some? ==> k <= hi.value) && Copies(b, k, s, i, j);
      CopiesSpan(b, k, s, i, j);
    case _ =>
  }

  lemma {:induction false} MatchAllSpan(v: seq<Ast>, s: string, i: nat, j: nat)
    requires MatchesAll(v, s, i, j) && i <= |s|
    ensures i <= j <= |s|
    decreases v, 0
  {
    if v != [] {
      var m: nat :| Matches(v[0], s, i, m) && MatchesAll(v[1..], s, m, j);
      MatchSpan(v[0], s, i, m);
      MatchAllSpan(v[1..], s, m, j);
    }
  }

  lemma {:induction false} CopiesSpan(b: Ast, k: nat, s: string, i: nat, j: nat)
    requires Copies(b, k, s, i, j) && i <= |s|
    ensures i <= j <= |s|
    decreases b, 1 + k
  {
    if k > 0 {
      var m: nat :| Matches(b, s, i, m) && Copies(b, k - 1, s, m, j);
      MatchSpan(b, s, i, m);
      CopiesSpan(b, k - 1, s, m, j);
    }
  }

  /** Adjacent runs of copies join into one run. */
  lemma {:induction false} CopiesJoin(b: Ast, k: nat, l: nat, s: string, i: nat, m: nat, j: nat)
    requires Copies(b, k, s, i, m) && Copies(b, l, s, m, j)
    ensures Copies(b, k + l, s, i, j)
    decreases k
  {
    if k > 0 {
      var h: nat :| Matches(b, s, i, h) && Copies(b, k - 1, s, h, m);
      CopiesJoin(b, k - 1, l, s, h, m, j);
    }
  }

  /** A run of copies splits after any number of them. */
  lemma {:induction false} CopiesSplit(b: Ast, k: nat, l: nat, s: string, i: nat, j: nat) returns (m: nat)
    requires Copies(b, k + l, s, i, j)
    ensures Copies(b, k, s, i, m) && Copies(b, l, s, m, j)
    decreases k
  {
    if k == 0 {
      m := i;
    } else {
      var h: nat :| Matches(b, s, i, h) && Copies(b, k + l - 1, s, h, j);
      m := CopiesSplit(b, k - 1, l, s, h, j);
    }
  }
}
