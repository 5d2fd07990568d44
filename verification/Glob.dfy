/** The single-backtrack-point `*`/`?` matcher of src/channels.rs. */
module Glob {
  import opened Wrappers
  import opened Channels

  /** What a mask means: `*` is any run, `?` any one character, anything else itself; from p[i] and t[j] on. */
  predicate MatchFrom(p: string, t: string, i: nat, j: nat)
    requires i <= |p| && j <= |t|
    decreases |p| - i, |t| - j
  {
    if i == |p| then j == |t|
    else if p[i] == '*' then MatchFrom(p, t, i + 1, j) || (j < |t| && MatchFrom(p, t, i, j + 1))
    else j < |t| && (p[i] == '?' || p[i] == t[j]) && MatchFrom(p, t, i + 1, j + 1)
  }

  predicate Match(p: string, t: string) {
    MatchFrom(p, t, 0, 0)
  }

  /** The rest of the mask is stars. */
  predicate Trailing(p: string, i: nat)
    requires i <= |p|
  {
    forall k :: i <= k < |p| ==> p[k] == '*'
  }

  /** Where the last star was met, as an end position in the mask (0: none yet). */
  function After(star: Option<nat>): nat {
    match star case None => 0 case Some(s) => s + 1
  }

  predicate State(p: string, t: string, pi: nat, ti: nat, star: Option<nat>, mark: nat) {
    pi <= |p| && ti <= |t| && After(star) <= pi && mark <= ti && (star.Some? ==> p[star.value] == '*')
  }

  /** The matcher's own walk from a state of its loop. */
  predicate Greedy(p: string, t: string, pi: nat, ti: nat, star: Option<nat>, mark: nat)
    requires State(p, t, pi, ti, star, mark)
    decreases |p| - After(star), |t| - mark, |t| - ti
  {
    if ti == |t| then Trailing(p, pi)
    else if pi < |p| && (p[pi] == '?' || p[pi] == t[ti]) then Greedy(p, t, pi + 1, ti + 1, star, mark)
    else if pi < |p| && p[pi] == '*' then Greedy(p, t, pi + 1, ti, Some(pi), ti)
    else if star.Some? then Greedy(p, t, star.value + 1, mark + 1, star, mark + 1)
    else false
  }

  /** The greedy answer on given mask and text. */
  predicate Answer(p: string, t: string) {
    Greedy(p, t, 0, 0, None, 0)
  }

  // ----- the loops -----

  predicate SameLetter(a: char, b: char) {
    FoldChar(a) == FoldChar(b)
  }

  /** `glob_bytes`: case is folded letter by letter. */
  method GlobBytes(p: string, t: string) returns (r: bool)
    ensures r == Answer(Fold(p), Fold(t))
    ensures r ==> Match(Fold(p), Fold(t))
    ensures '*' !in t || '*' !in p ==> (r <==> Match(Fold(p), Fold(t)))
  {
    ghost var fp, ft := Fold(p), Fold(t);
    AnswerMeaning(fp, ft);
    StarsFold(p);
    StarsFold(t);
    var pi: nat, ti: nat := 0, 0;
    var star: Option<nat> := None;
    var mark: nat := 0;
    while ti < |t|
      invariant State(fp, ft, pi, ti, star, mark)
      invariant Greedy(fp, ft, pi, ti, star, mark) == Answer(fp, ft)
      decreases |p| - After(star), |t| - mark, |t| - ti
    {
      if pi < |p| && (p[pi] == '?' || SameLetter(p[pi], t[ti])) {
        pi, ti := pi + 1, ti + 1;
      } else if pi < |p| && p[pi] == '*' {
        star, mark := Some(pi), ti;
        pi := pi + 1;
      } else if star.Some? {
        mark := mark + 1;
        pi, ti := star.value + 1, mark;
      } else {
        return false;
      }
    }
    while pi < |p| && p[pi] == '*'
      invariant pi <= |p| && (Trailing(fp, pi) <==> Answer(fp, ft))
    {
      pi := pi + 1;
    }
    r := pi == |p|;
  }

  /** `glob_chars`: the same loop on text already lower-cased. */
  method GlobChars(p: string, t: string) returns (r: bool)
    ensures r == Answer(p, t)
    ensures r ==> Match(p, t)
    ensures '*' !in t || '*' !in p ==> (r <==> Match(p, t))
  {
    AnswerMeaning(p, t);
    var pi: nat, ti: nat := 0, 0;
    var star: Option<nat> := None;
    var mark: nat := 0;
    while ti < |t|
      invariant State(p, t, pi, ti, star, mark)
      invariant Greedy(p, t, pi, ti, star, mark) == Answer(p, t)
      decreases |p| - After(star), |t| - mark, |t| - ti
    {
      if pi < |p| && (p[pi] == '?' || p[pi] == t[ti]) {
        pi, ti := pi + 1, ti + 1;
      } else if pi < |p| && p[pi] == '*' {
        star, mark := Some(pi), ti;
        pi := pi + 1;
      } else if star.Some? {
        mark := mark + 1;
        pi, ti := star.value + 1, mark;
      } else {
        return false;
      }
    }
    while pi < |p| && p[pi] == '*'
      invariant pi <= |p| && (Trailing(p, pi) <==> Answer(p, t))
    {
      pi := pi + 1;
    }
    r := pi == |p|;
  }

  lemma StarsFold(s: string)
    ensures '*' in Fold(s) <==> '*' in s
    ensures forall i :: 0 <= i < |s| ==> (Fold(s)[i] == '*' <==> s[i] == '*') && (Fold(s)[i] == '?' <==> s[i] == '?')
  {
    if '*' in s {
      var i :| 0 <= i < |s| && s[i] == '*';
      assert Fold(s)[i] == '*';
    }
  }

  lemma AnswerMeaning(p: string, t: string)
    ensures Answer(p, t) ==> Match(p, t)
    ensures ('*' !in t || '*' !in p) && Match(p, t) ==> Answer(p, t)
  {
    Sound(p, t, 0, 0, None, 0);
    if '*' !in t || '*' !in p {
      Complete(p, t, 0, 0, None, 0);
    }
  }

  // ----- a true answer is a match -----

  lemma {:induction false} TrailingMatches(p: string, t: string, i: nat)
    requires i <= |p|
    ensures Trailing(p, i) <==> MatchFrom(p, t, i, |t|)
    decreases |p| - i
  {
    if i < |p| { TrailingMatches(p, t, i + 1); }
  }

  /** What remains possible: match on from here, or let the last star take more. */
  predicate Hope(p: string, t: string, pi: nat, ti: nat, star: Option<nat>, mark: nat)
    requires State(p, t, pi, ti, star, mark)
  {
    MatchFrom(p, t, pi, ti) || (star.Some? && mark < |t| && MatchFrom(p, t, star.value, mark + 1))
  }

  lemma {:induction false} Sound(p: string, t: string, pi: nat, ti: nat, star: Option<nat>, mark: nat)
    requires State(p, t, pi, ti, star, mark)
    ensures Greedy(p, t, pi, ti, star, mark) ==> Hope(p, t, pi, ti, star, mark)
    decreases |p| - After(star), |t| - mark, |t| - ti
  {
    if ti == |t| {
      TrailingMatches(p, t, pi);
    } else if pi < |p| && (p[pi] == '?' || p[pi] == t[ti]) {
      Sound(p, t, pi + 1, ti + 1, star, mark);
    } else if pi < |p| && p[pi] == '*' {
      Sound(p, t, pi + 1, ti, Some(pi), ti);
    } else if star.Some? {
      Sound(p, t, star.value + 1, mark + 1, star, mark + 1);
    }
  }

  // ----- a match is answered true, unless a star was taken for a letter -----

  /** Since the last star the walk has matched letters one for one. */
  predicate Segment(p: string, t: string, pi: nat, ti: nat, star: Option<nat>, mark: nat)
    requires State(p, t, pi, ti, star, mark)
  {
    star.Some? ==> pi - After(star) == ti - mark && forall k :: After(star) <= k < pi ==> p[k] != '*'
  }

  lemma {:induction false} Complete(p: string, t: string, pi: nat, ti: nat, star: Option<nat>, mark: nat)
    requires State(p, t, pi, ti, star, mark) && Segment(p, t, pi, ti, star, mark)
    requires '*' !in t || '*' !in p
    ensures Hope(p, t, pi, ti, star, mark) ==> Greedy(p, t, pi, ti, star, mark)
    decreases |p| - After(star), |t| - mark, |t| - ti
  {
    if ti == |t| {
      TrailingMatches(p, t, pi);
      if star.Some? && mark < |t| && MatchFrom(p, t, star.value, mark + 1) {
        var m := SkipStar(p, t, star.value, mark + 1, pi);
      }
    } else if pi < |p| && (p[pi] == '?' || p[pi] == t[ti]) {
      assert p[pi] in p && t[ti] in t;
      Complete(p, t, pi + 1, ti + 1, star, mark);
    } else if pi < |p| && p[pi] == '*' {
      Complete(p, t, pi + 1, ti, Some(pi), ti);
      if star.Some? && mark < |t| && MatchFrom(p, t, star.value, mark + 1) {
        var m := SkipStar(p, t, star.value, mark + 1, pi);
        Absorb(p, t, pi, ti, m);
      }
    } else if star.Some? {
      Complete(p, t, star.value + 1, mark + 1, star, mark + 1);
    }
  }

  /** Letters between stars take exactly as many characters. */
  lemma {:induction false} SkipLetters(p: string, t: string, i: nat, j: nat, pi: nat)
    requires i <= pi <= |p| && j <= |t| && MatchFrom(p, t, i, j) && forall k :: i <= k < pi ==> p[k] != '*'
    ensures j + (pi - i) <= |t| && MatchFrom(p, t, pi, j + (pi - i))
    decreases pi - i
  {
    if i < pi { SkipLetters(p, t, i + 1, j + 1, pi); }
  }

  lemma {:induction false} SkipStar(p: string, t: string, sp: nat, j: nat, pi: nat) returns (m: nat)
    requires sp < pi <= |p| && j <= |t| && p[sp] == '*' && MatchFrom(p, t, sp, j)
    requires forall k :: sp < k < pi ==> p[k] != '*'
    ensures j + (pi - sp - 1) <= m <= |t| && MatchFrom(p, t, pi, m)
    decreases |t| - j
  {
    if MatchFrom(p, t, sp + 1, j) {
      SkipLetters(p, t, sp + 1, j, pi);
      m := j + (pi - sp - 1);
    } else {
      m := SkipStar(p, t, sp, j + 1, pi);
    }
  }

  lemma {:induction false} Absorb(p: string, t: string, pi: nat, ti: nat, m: nat)
    requires pi < |p| && p[pi] == '*' && ti <= m <= |t| && MatchFrom(p, t, pi, m)
    ensures MatchFrom(p, t, pi, ti)
    decreases m - ti
  {
    if ti < m { Absorb(p, t, pi, ti + 1, m); }
  }

  // ----- exactly which texts are safe -----

  /** A mask that fails on a text with a `*` at `i`, though its star could match nothing and its `?`s the rest. */
  function Clash(t: string, i: nat): string
    requires i < |t|
  {
    seq(|t| + 1, k => if k == i then '*' else '?')
  }

  lemma {:induction false} ClashRefused(t: string, i: nat, k: nat)
    requires i < |t| && t[i] == '*' && k <= |t|
    ensures !Greedy(Clash(t, i), t, k, k, None, 0)
    decreases |t| - k
  {
    if k < |t| { ClashRefused(t, i, k + 1); } else { assert Clash(t, i)[k] == '?'; }
  }

  lemma {:induction false} ClashTail(t: string, i: nat, k: nat)
    requires i <= k <= |t| && i < |t|
    ensures MatchFrom(Clash(t, i), t, k + 1, k)
    decreases |t| - k
  {
    if k < |t| { ClashTail(t, i, k + 1); }
  }

  lemma {:induction false} ClashMatches(t: string, i: nat, k: nat)
    requires k <= i < |t|
    ensures MatchFrom(Clash(t, i), t, k, k)
    decreases i - k
  {
    if k < i { ClashMatches(t, i, k + 1); } else { ClashTail(t, i, i); }
  }

  /** The matcher answers every mask correctly on exactly the texts without a `*`. */
  lemma SafeTexts(t: string)
    ensures (forall p :: Answer(p, t) <==> Match(p, t)) <==> '*' !in t
  {
    if '*' in t {
      var i :| 0 <= i < |t| && t[i] == '*';
      ClashRefused(t, i, 0);
      ClashMatches(t, i, 0);
      assert Answer(Clash(t, i), t) != Match(Clash(t, i), t);
    } else {
      forall p ensures Answer(p, t) <==> Match(p, t) { AnswerMeaning(p, t); }
    }
  }

  predicate Ascii(s: string) {
    forall i :: 0 <= i < |s| ==> s[i] as int < 128
  }

  /** Lower-casing that agrees with ASCII folding on ASCII strings, as Unicode's does. */
  ghost predicate Lowers(lower: string -> string) {
    forall s :: Ascii(s) ==> lower(s) == Fold(s)
  }

  /** `glob_match`: the byte path and the lower-cased path give one answer. */
  method GlobMatch(pat: string, s: string, lower: string -> string) returns (r: bool)
    requires Lowers(lower)
    ensures r == Answer(lower(pat), lower(s))
    ensures r ==> Match(lower(pat), lower(s))
    ensures '*' !in lower(pat) || '*' !in lower(s) ==> (r <==> Match(lower(pat), lower(s)))
  {
    AnswerMeaning(lower(pat), lower(s));
    if Ascii(pat) && Ascii(s) {
      r := GlobBytes(pat, s);
    } else {
      r := GlobChars(lower(pat), lower(s));
    }
  }
}
