/** Channel records of src/channels.rs: members and their prefixes, modes, and their wire forms. */
module Channels {
  import opened Wrappers

  /** ASCII case folding, as `to_ascii_lowercase`. */
  function FoldChar(c: char): char {
    if 'A' <= c <= 'Z' then (c as int + 32) as char else c
  }

  function Fold(s: string): (r: string)
    ensures |r| == |s|
    ensures forall i :: 0 <= i < |s| ==> r[i] == FoldChar(s[i])
  {
    seq(|s|, i requires 0 <= i < |s| => FoldChar(s[i]))
  }

  const UPPER_CASE: string := "ABCDEFGHIJKLMNOPQRSTUVWXYZ"
  const LOWER_CASE: string := "abcdefghijklmnopqrstuvwxyz"

  /** Each capital becomes its small letter, and nothing else changes. */
  lemma FoldMeans(s: string, i: nat)
    requires i < |s|
    ensures s[i] !in UPPER_CASE ==> Fold(s)[i] == s[i]
    ensures forall k :: 0 <= k < 26 && s[i] == UPPER_CASE[k] ==> Fold(s)[i] == LOWER_CASE[k]
  {
    forall k | 0 <= k < 26 ensures UPPER_CASE[k] as int == 65 + k && LOWER_CASE[k] as int == 97 + k {}
    if 'A' <= s[i] <= 'Z' { assert s[i] == UPPER_CASE[s[i] as int - 65]; }
  }

  type Uid = nat

  // ----- prefixes -----

  datatype Prefix = Oper | Owner | Admin | Op | Halfop | Voice

  /** The mode letters the configuration gives to prefixes of its own; linked servers share them. */
  const CUSTOM_LETTERS: set<char>

  /** Configured letters, each once, none that a built-in prefix answers to. */
  predicate Customs(cs: seq<char>) {
    && (forall i :: 0 <= i < |cs| ==> cs[i] in CUSTOM_LETTERS && PrefixOf(cs[i]).None?)
    && forall i, j :: 0 <= i < j < |cs| ==> cs[i] != cs[j]
  }

  type CustomLetters = cs: seq<char> | Customs(cs)

  /** The built-in prefixes a member holds (a bit set in the source) and the configured ones, oldest first. */
  datatype Member = Member(prefixes: set<Prefix>, customs: CustomLetters)

  const PlainMember := Member({}, [])

  /** The channel-status prefixes q, a, o, h and v. */
  const STATUS: set<Prefix> := {Owner, Admin, Op, Halfop, Voice}

  function Status(m: Member): set<Prefix> {
    m.prefixes * STATUS
  }

  /** `clear_status`: the network-staff prefix and the configured ones survive. */
  function ClearStatus(m: Member): Member {
    m.(prefixes := m.prefixes - STATUS)
  }

  function PrefixOf(letter: char): Option<Prefix> {
    match letter
    case 'y' => Some(Oper)
    case 'q' => Some(Owner)
    case 'a' => Some(Admin)
    case 'o' => Some(Op)
    case 'h' => Some(Halfop)
    case 'v' => Some(Voice)
    case _ => None
  }

  /** A configured letter goes to the end, wherever it was. */
  function WithCustom(cs: CustomLetters, letter: char): CustomLetters
    requires letter in CUSTOM_LETTERS && PrefixOf(letter).None?
  {
    RetainedCustoms(cs, letter);
    Retained(cs, letter) + [letter]
  }

  function WithoutCustom(cs: CustomLetters, letter: char): CustomLetters
    requires letter in CUSTOM_LETTERS && PrefixOf(letter).None?
  {
    RetainedCustoms(cs, letter);
    var r := Retained(cs, letter);
    assert forall i :: 0 <= i < |r| ==> (r + [letter])[i] == r[i];
    r
  }

  /** `retain(|&c| c != letter)`. */
  function Retained(cs: seq<char>, letter: char): (r: seq<char>)
    ensures forall c :: c in r <==> c in cs && c != letter
    ensures letter !in cs ==> r == cs
  {
    if cs == [] then []
    else
      var front := Retained(cs[..|cs| - 1], letter);
      assert cs == cs[..|cs| - 1] + [cs[|cs| - 1]];
      if cs[|cs| - 1] == letter then front else front + [cs[|cs| - 1]]
  }

  lemma {:induction false} RetainedCustoms(cs: seq<char>, letter: char)
    requires Customs(cs) && letter in CUSTOM_LETTERS && PrefixOf(letter).None?
    ensures Customs(Retained(cs, letter) + [letter])
    decreases |cs|
  {
    hide PrefixOf;
    if cs != [] {
      var front, last := cs[..|cs| - 1], cs[|cs| - 1];
      RetainedCustoms(front, letter);
      var r := Retained(front, letter);
      assert last !in r;
      assert Customs(r) by { assert forall i :: 0 <= i < |r| ==> (r + [letter])[i] == r[i]; }
      forall i | 0 <= i < |r| ensures r[i] != last && r[i] != letter { assert r[i] in r; }
    }
  }

  /** `set_prefix`; a letter that names no prefix is ignored. */
  function Ranked(m: Member, letter: char, on: bool): Member {
    match PrefixOf(letter)
    case Some(p) => m.(prefixes := if on then m.prefixes + {p} else m.prefixes - {p})
    case None =>
      if letter !in CUSTOM_LETTERS then m
      else m.(customs := if on then WithCustom(m.customs, letter) else WithoutCustom(m.customs, letter))
  }

  function GrantLetter(m: Member, letter: char): Member {
    Ranked(m, letter, true)
  }

  function GrantLetters(m: Member, letters: string): Member
    decreases |letters|
  {
    if letters == "" then m else GrantLetters(GrantLetter(m, letters[0]), letters[1..])
  }

  function If(on: bool, letter: char): string {
    if on then [letter] else ""
  }

  /** `mode_letters`: the held prefixes as letters, highest first, then the configured ones. */
  function ModeLetters(m: Member): string {
    BuiltinLetters(m) + m.customs
  }

  function BuiltinLetters(m: Member): string {
    If(Oper in m.prefixes, 'y') + If(Owner in m.prefixes, 'q') + If(Admin in m.prefixes, 'a') +
    If(Op in m.prefixes, 'o') + If(Halfop in m.prefixes, 'h') + If(Voice in m.prefixes, 'v')
  }

  lemma {:induction false} GrantAppend(m: Member, a: string, b: string)
    ensures GrantLetters(m, a + b) == GrantLetters(GrantLetters(m, a), b)
    decreases |a|
  {
    if a == "" {
      assert a + b == b;
    } else {
      assert (a + b)[0] == a[0] && (a + b)[1..] == a[1..] + b;
      GrantAppend(GrantLetter(m, a[0]), a[1..], b);
    }
  }

  lemma GrantIf(m: Member, on: bool, letter: char, p: Prefix)
    requires PrefixOf(letter) == Some(p)
    ensures GrantLetters(m, If(on, letter)) == if on then m.(prefixes := m.prefixes + {p}) else m
  {
    if on { assert [letter][1..] == ""; }
  }

  /** Configured letters are granted in the order they were held. */
  lemma {:induction false} GrantCustoms(m: Member, cs: seq<char>)
    requires Customs(m.customs + cs)
    ensures GrantLetters(m, cs) == m.(customs := m.customs + cs)
    decreases |cs|
  {
    if cs == [] {
      assert m.customs + cs == m.customs;
    } else {
      var all, n := m.customs + cs, |m.customs|;
      assert all[n] == cs[0] && forall i :: 0 <= i < n ==> all[i] == m.customs[i];
      assert WithCustom(m.customs, cs[0]) == m.customs + [cs[0]];
      assert m.customs + [cs[0]] + cs[1..] == all;
      GrantCustoms(GrantLetter(m, cs[0]), cs[1..]);
    }
  }

  /** A member announced by its letters arrives with exactly its prefixes, the configured ones in order. */
  lemma LettersRoundTrip(m: Member)
    ensures GrantLetters(PlainMember, ModeLetters(m)) == m
  {
    hide GrantLetters, BuiltinLetters;
    var b := Member(m.prefixes, []);
    BuiltinRoundTrip(m);
    GrantAppend(PlainMember, BuiltinLetters(m), m.customs);
    assert b.customs + m.customs == m.customs;
    GrantCustoms(b, m.customs);
  }

  lemma BuiltinRoundTrip(m: Member)
    ensures GrantLetters(PlainMember, BuiltinLetters(m)) == Member(m.prefixes, [])
  {
    hide GrantLetters, If, PrefixOf;
    var y, q, a := If(Oper in m.prefixes, 'y'), If(Owner in m.prefixes, 'q'), If(Admin in m.prefixes, 'a');
    var o, h, v := If(Op in m.prefixes, 'o'), If(Halfop in m.prefixes, 'h'), If(Voice in m.prefixes, 'v');
    GrantAppend(PlainMember, y + q + a + o + h, v);
    GrantAppend(PlainMember, y + q + a + o, h);
    GrantAppend(PlainMember, y + q + a, o);
    GrantAppend(PlainMember, y + q, a);
    GrantAppend(PlainMember, y, q);
    PrefixLetters();
    var m1 := GrantLetters(PlainMember, y);
    GrantIf(PlainMember, Oper in m.prefixes, 'y', Oper);
    var m2 := GrantLetters(m1, q);
    GrantIf(m1, Owner in m.prefixes, 'q', Owner);
    var m3 := GrantLetters(m2, a);
    GrantIf(m2, Admin in m.prefixes, 'a', Admin);
    var m4 := GrantLetters(m3, o);
    GrantIf(m3, Op in m.prefixes, 'o', Op);
    var m5 := GrantLetters(m4, h);
    GrantIf(m4, Halfop in m.prefixes, 'h', Halfop);
    GrantIf(m5, Voice in m.prefixes, 'v', Voice);
    var r := GrantLetters(m5, v);
    forall p ensures p in r.prefixes <==> p in m.prefixes {
      match p
      case Oper =>
      case Owner =>
      case Admin =>
      case Op =>
      case Halfop =>
      case Voice =>
    }
  }

  lemma PrefixLetters()
    ensures PrefixOf('y') == Some(Oper) && PrefixOf('q') == Some(Owner) && PrefixOf('a') == Some(Admin)
    ensures PrefixOf('o') == Some(Op) && PrefixOf('h') == Some(Halfop) && PrefixOf('v') == Some(Voice)
  {
  }

  /** The letter of each built-in prefix. */
  function LetterOf(p: Prefix): char {
    match p
    case Oper => 'y'
    case Owner => 'q'
    case Admin => 'a'
    case Op => 'o'
    case Halfop => 'h'
    case Voice => 'v'
  }

  lemma LetterNames(c: char, p: Prefix)
    ensures PrefixOf(c) == Some(p) <==> c == LetterOf(p)
  {
  }

  /** Granting letters gives exactly the prefixes they stand for, on top of those held. */
  lemma {:induction false} GrantMeans(m: Member, letters: string, p: Prefix)
    ensures p in GrantLetters(m, letters).prefixes <==> p in m.prefixes || LetterOf(p) in letters
    decreases |letters|
  {
    hide PrefixOf, LetterOf;
    if letters != "" {
      LetterNames(letters[0], p);
      GrantMeans(GrantLetter(m, letters[0]), letters[1..], p);
      assert letters == [letters[0]] + letters[1..];
    }
  }

  /** And the config-defined ones among them that no built-in prefix answers to. */
  lemma {:induction false} GrantCustomMeans(m: Member, letters: string, c: char)
    ensures c in GrantLetters(m, letters).customs <==>
      c in m.customs || (c in letters && c in CUSTOM_LETTERS && forall p: Prefix :: c != LetterOf(p))
    decreases |letters|
  {
    hide PrefixOf, LetterOf;
    if letters != "" {
      forall p: Prefix ensures PrefixOf(letters[0]) == Some(p) <==> letters[0] == LetterOf(p) {
        LetterNames(letters[0], p);
      }
      GrantCustomMeans(GrantLetter(m, letters[0]), letters[1..], c);
      assert letters == [letters[0]] + letters[1..];
      if PrefixOf(letters[0]).Some? { assert letters[0] == LetterOf(PrefixOf(letters[0]).value); }
    }
  }

  /** A rank change turns its own prefix on or off and touches no other; a letter that is no prefix does nothing. */
  lemma RankedMeans(m: Member, letter: char, on: bool, p: Prefix, c: char)
    ensures p in Ranked(m, letter, on).prefixes <==> if letter == LetterOf(p) then on else p in m.prefixes
    ensures c in Ranked(m, letter, on).customs <==>
      if c == letter && c in CUSTOM_LETTERS && (forall q: Prefix :: c != LetterOf(q)) then on else c in m.customs
  {
    hide PrefixOf, LetterOf;
    forall q: Prefix ensures PrefixOf(letter) == Some(q) <==> letter == LetterOf(q) { LetterNames(letter, q); }
  }

  /** Status is every built-in prefix but the network-staff one; clearing it leaves that one and the configured ones. */
  lemma StatusMeans(m: Member, p: Prefix)
    ensures p in Status(m) <==> p in m.prefixes && p != Oper
    ensures p in ClearStatus(m).prefixes <==> p in m.prefixes && p == Oper
    ensures ClearStatus(m).customs == m.customs
  {
    assert p.Oper? || p in STATUS;
  }

  // ----- channel modes -----

  /** The no-parameter mode letters, in the order `render` writes them. */
  const FLAGS: string := "rimnstzpONCTcSRMGuPQAUDE"

  /** Flags, key, limit, and which other modes with a parameter are set. */
  datatype Modes = Modes(flags: set<char>, key: Option<string>, limit: Option<nat>, others: set<char>)

  const NoModes := Modes({}, None, None, {})

  /** `set_by_letter`: letters other than the flags are ignored. */
  function SetFlag(m: Modes, c: char, on: bool): Modes {
    if c !in FLAGS then m
    else if on then m.(flags := m.flags + {c})
    else m.(flags := m.flags - {c})
  }

  /** The `+ab-c` loop of an FJOIN's mode string. */
  function ApplyModeString(m: Modes, modes: string, sign: char): Modes
    decreases |modes|
  {
    if modes == "" then m
    else if modes[0] == '+' || modes[0] == '-' then ApplyModeString(m, modes[1..], modes[0])
    else ApplyModeString(SetFlag(m, modes[0], sign == '+'), modes[1..], sign)
  }

  /** The letters of `order` that are held, in that order. */
  function Held(order: string, held: set<char>): (r: string)
    ensures forall c :: c in r <==> c in order && c in held
  {
    if order == "" then "" else If(order[0] in held, order[0]) + Held(order[1..], held)
  }

  /** The letters of the other modes with a parameter, in the order `render` writes them. */
  const PARAMS: string := "fjFWLHBJdK"

  /** `render(false)`: `+`, the flags, then a letter for a key, a limit and every other parameter held. */
  function Render(m: Modes): (r: string)
    ensures r != "" && r[0] == '+'
  {
    "+" + (Held(FLAGS, m.flags) + If(m.key.Some?, 'k') + If(m.limit.Some?, 'l') + Held(PARAMS, m.others))
  }

  ghost predicate FlagsKnown(m: Modes) {
    forall c :: c in m.flags ==> c in FLAGS
  }

  /** A mode string of additions only sets the flags it names. */
  ghost predicate Additive(modes: string) {
    '-' !in modes
  }

  function FlagsNamed(modes: string): set<char> {
    set c | c in modes && c in FLAGS
  }

  lemma {:induction false} AdditiveModes(m: Modes, modes: string)
    requires Additive(modes)
    ensures ApplyModeString(m, modes, '+') == m.(flags := m.flags + FlagsNamed(modes))
    decreases |modes|
  {
    if modes == "" {
      assert m.flags + FlagsNamed(modes) == m.flags;
    } else {
      var rest := modes[1..];
      assert modes == [modes[0]] + rest;
      assert '+' !in FLAGS;
      var m' := if modes[0] == '+' then m else SetFlag(m, modes[0], true);
      AdditiveModes(m', rest);
      assert m'.flags + FlagsNamed(rest) == m.flags + FlagsNamed(modes);
    }
  }

  /** The flags, letter by letter. */
  lemma FlagLetters(c: char)
    ensures c in FLAGS <==>
      c in {'i', 'm', 'n', 's', 't', 'p'} || c in {'r', 'z', 'c', 'u', 'O', 'N'} ||
      c in {'C', 'T', 'S', 'R', 'M', 'G'} || c in {'P', 'Q', 'A', 'U', 'D', 'E'}
  {
    forall i | 0 <= i < |FLAGS| && FLAGS[i] == c
      ensures c in {'i', 'm', 'n', 's', 't', 'p'} || c in {'r', 'z', 'c', 'u', 'O', 'N'} ||
              c in {'C', 'T', 'S', 'R', 'M', 'G'} || c in {'P', 'Q', 'A', 'U', 'D', 'E'} {}
    assert FLAGS == "rimnst" + "zpONCT" + "cSRMGu" + "PQAUDE";
    assert forall d :: d in "rimnst" || d in "zpONCT" || d in "cSRMGu" || d in "PQAUDE" ==> d in FLAGS;
    FlagParts(c);
  }

  lemma FlagParts(c: char)
    ensures c in {'r', 'i', 'm', 'n', 's', 't'} ==> c in "rimnst"
    ensures c in {'z', 'p', 'O', 'N', 'C', 'T'} ==> c in "zpONCT"
    ensures c in {'c', 'S', 'R', 'M', 'G', 'u'} ==> c in "cSRMGu"
    ensures c in {'P', 'Q', 'A', 'U', 'D', 'E'} ==> c in "PQAUDE"
  {
    assert "rimnst"[0] == 'r' && "rimnst"[1] == 'i' && "rimnst"[2] == 'm';
    assert "rimnst"[3] == 'n' && "rimnst"[4] == 's' && "rimnst"[5] == 't';
    assert "zpONCT"[0] == 'z' && "zpONCT"[1] == 'p' && "zpONCT"[2] == 'O';
    assert "zpONCT"[3] == 'N' && "zpONCT"[4] == 'C' && "zpONCT"[5] == 'T';
    assert "cSRMGu"[0] == 'c' && "cSRMGu"[1] == 'S' && "cSRMGu"[2] == 'R';
    assert "cSRMGu"[3] == 'M' && "cSRMGu"[4] == 'G' && "cSRMGu"[5] == 'u';
    assert "PQAUDE"[0] == 'P' && "PQAUDE"[1] == 'Q' && "PQAUDE"[2] == 'A';
    assert "PQAUDE"[3] == 'U' && "PQAUDE"[4] == 'D' && "PQAUDE"[5] == 'E';
  }

  /** A known flag is on afterwards iff it was switched on; everything else stays. */
  lemma SetFlagMeans(m: Modes, c: char, on: bool, f: char)
    ensures f in SetFlag(m, c, on).flags <==> if f == c && c in FLAGS then on else f in m.flags
    ensures SetFlag(m, c, on) == m.(flags := SetFlag(m, c, on).flags)
  {
  }

  predicate IsSign(c: char) {
    c == '+' || c == '-'
  }

  /** The sign in force after a mode string: the last one in it, or `+`. */
  function SignAfter(modes: string): char {
    if modes == "" then '+'
    else if IsSign(modes[|modes| - 1]) then modes[|modes| - 1]
    else SignAfter(modes[..|modes| - 1])
  }

  /** Where `f` occurs last, the sign in force is `+`. */
  ghost predicate LastlyOn(modes: string, f: char) {
    exists i :: 0 <= i < |modes| && modes[i] == f && f !in modes[i + 1..] && SignAfter(modes[..i]) == '+'
  }

  function SignFrom(modes: string, sign: char): char {
    if modes == "" then sign else SignFrom(modes[1..], if IsSign(modes[0]) then modes[0] else sign)
  }

  lemma {:induction false} SignSnoc(modes: string, c: char, sign: char)
    ensures SignFrom(modes + [c], sign) == if IsSign(c) then c else SignFrom(modes, sign)
    decreases |modes|
  {
    if modes == "" {
      assert modes + [c] == [c];
      assert [c][1..] == "";
    } else {
      assert (modes + [c])[1..] == modes[1..] + [c];
      SignSnoc(modes[1..], c, if IsSign(modes[0]) then modes[0] else sign);
    }
  }

  lemma {:induction false} SignsAgree(modes: string)
    ensures SignFrom(modes, '+') == SignAfter(modes)
    decreases |modes|
  {
    if modes != "" {
      var front, c := modes[..|modes| - 1], modes[|modes| - 1];
      assert modes == front + [c];
      SignSnoc(front, c, '+');
      SignsAgree(front);
    }
  }

  lemma {:induction false} ApplySnoc(m: Modes, modes: string, c: char, sign: char)
    ensures var r := ApplyModeString(m, modes, sign);
      ApplyModeString(m, modes + [c], sign) ==
      if IsSign(c) then r else SetFlag(r, c, SignFrom(modes, sign) == '+')
    decreases |modes|
  {
    hide SetFlag;
    if modes == "" {
      assert modes + [c] == [c];
      assert [c][1..] == "";
    } else {
      assert (modes + [c])[1..] == modes[1..] + [c] && (modes + [c])[0] == modes[0];
      if IsSign(modes[0]) {
        ApplySnoc(m, modes[1..], c, modes[0]);
      } else {
        ApplySnoc(SetFlag(m, modes[0], sign == '+'), modes[1..], c, sign);
      }
    }
  }

  lemma LastlySnoc(front: string, c: char, f: char)
    ensures LastlyOn(front + [c], f) <==> if c == f then SignAfter(front) == '+' else LastlyOn(front, f)
  {
    hide SignAfter;
    var modes := front + [c];
    assert modes[..|front|] == front && modes[|front| + 1..] == "";
    forall i | 0 <= i < |front| ensures modes[..i] == front[..i] && modes[i + 1..] == front[i + 1..] + [c] {}
    if c == f && SignAfter(front) == '+' { assert modes[|front|] == f; }
  }

  /** Any mode string: a known flag is on afterwards iff its last occurrence stood under `+`, or it has none and was. */
  lemma {:induction false} ModeStringMeans(m: Modes, modes: string, f: char)
    ensures var r := ApplyModeString(m, modes, '+');
      && (f in r.flags <==> if f in FLAGS && f in modes then LastlyOn(modes, f) else f in m.flags)
      && r == m.(flags := r.flags)
    decreases |modes|
  {
    hide SetFlag, LastlyOn;
    if modes != "" {
      var front, c := modes[..|modes| - 1], modes[|modes| - 1];
      assert modes == front + [c];
      ModeStringMeans(m, front, f);
      ApplySnoc(m, front, c, '+');
      SignsAgree(front);
      SetFlagMeans(ApplyModeString(m, front, '+'), c, SignAfter(front) == '+', f);
      LastlySnoc(front, c, f);
      NotFlags();
    }
  }

  /** The letters a rendered mode string shows. */
  lemma RenderMeans(m: Modes, c: char)
    ensures c in Render(m) <==>
      || c == '+' || (c in FLAGS && c in m.flags) || (c in PARAMS && c in m.others)
      || (c == 'k' && m.key.Some?) || (c == 'l' && m.limit.Some?)
  {
    hide Held;
  }

  /** What a rendered mode string names is exactly the flags held, whatever parameters it shows. */
  lemma RenderNames(m: Modes)
    requires FlagsKnown(m)
    ensures Additive(Render(m)) && FlagsNamed(Render(m)) == m.flags
  {
    hide Held;
    var r := Render(m);
    NotFlags();
    forall c ensures c in r && c in FLAGS <==> c in m.flags {}
  }

  lemma NotFlags()
    ensures 'k' !in FLAGS && 'l' !in FLAGS && '+' !in FLAGS && '-' !in FLAGS && '-' !in PARAMS
    ensures forall c :: c in PARAMS ==> c !in FLAGS
  {
    NotFlag('k');
    NotFlag('l');
    NotFlag('+');
    NotFlag('-');
    forall i | 0 <= i < |PARAMS| ensures PARAMS[i] != '-' && PARAMS[i] !in FLAGS { NotFlag(PARAMS[i]); }
  }

  lemma NotFlag(c: char)
    requires c in "kl+-" || c in PARAMS
    ensures c !in FLAGS
  {
    forall i | 0 <= i < |FLAGS| ensures FLAGS[i] != c {}
  }

  // ----- channels -----

  /** A channel; lists hold masks only. */
  datatype Channel = Channel(
    name: string,
    created: nat,
    members: map<Uid, Member>,
    rmembers: map<string, Member>,
    modes: Modes,
    bans: seq<string>,
    excepts: seq<string>,
    invex: seq<string>)

  /** A fresh channel starts `+nt`. */
  function NewChannel(name: string, now: nat): Channel {
    Channel(name, now, map[], map[], NoModes.(flags := {'n', 't'}), [], [], [])
  }

  predicate IsEmpty(ch: Channel) {
    ch.members == map[] && ch.rmembers == map[]
  }

  /** Permanent (+P) and registered (+r) channels outlive their members. */
  predicate KeepAlive(ch: Channel) {
    !IsEmpty(ch) || 'P' in ch.modes.flags || 'r' in ch.modes.flags
  }

  /** `channels.retain(|_, c| c.keep_alive())`. */
  function Reap(channels: map<string, Channel>): map<string, Channel> {
    map k | k in channels && KeepAlive(channels[k]) :: channels[k]
  }

  /** Channel names: `#` first, and no space, comma or control character. */
  predicate ValidChan(name: string, maxlen: nat) {
    && 1 < |name| <= maxlen && name[0] == '#'
    && forall i :: 0 <= i < |name| ==> name[i] != ' ' && name[i] != ',' && name[i] as int >= 0x20
  }
}
