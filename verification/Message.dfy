/** The wire form of src/message.rs (the message format of section 2.3.1 of RFC 2812). */
module Message {
  import opened Wrappers
  import opened Text

  datatype Msg = Msg(source: Option<string>, command: string, params: seq<string>)

  function TrimStart(s: string): (r: string)
    ensures |r| <= |s| && (r == "" || r[0] != ' ')
  {
    if s != "" && s[0] == ' ' then TrimStart(s[1..]) else s
  }

  function Upper(s: string): (r: string)
    ensures |r| == |s|
  {
    seq(|s|, i requires 0 <= i < |s| => UpperChar(s[i]))
  }

  function UpperChar(c: char): char {
    if 'a' <= c <= 'z' then (c as int - 32) as char else c
  }

  // ----- what a line says -----

  function Params(rest: string): seq<string>
    decreases |rest|
  {
    if rest == "" then []
    else if rest[0] == ':' then [rest[1..]]
    else
      SplitOnceParts(rest, ' ');
      match SplitOnce(rest, ' ')
      case Some((p, r)) => [p] + Params(TrimStart(r))
      case None => [rest]
  }

  /** Command and parameters. */
  function Body(source: Option<string>, rest: string): Option<Msg> {
    var (cmd, args) := match SplitOnce(rest, ' ')
                       case Some((c, r)) => (c, TrimStart(r))
                       case None => (rest, "");
    if cmd == "" then None else Some(Msg(source, Upper(cmd), Params(args)))
  }

  function Sourced(rest: string): Option<Msg> {
    if rest != "" && rest[0] == ':' then
      match SplitOnce(rest[1..], ' ')
      case Some((src, r)) => Body(Some(src), TrimStart(r))
      case None => None
    else Body(None, rest)
  }

  predicate Tagged(line: string) {
    var rest := TrimStart(line);
    rest != "" && rest[0] == '@'
  }

  /** A whole line; a tag block is skipped. */
  function Parsed(line: string): Option<Msg> {
    var rest := TrimStart(line);
    if Tagged(line) then
      match SplitOnce(rest[1..], ' ')
      case Some((_, r)) => Sourced(TrimStart(r))
      case None => None
    else Sourced(rest)
  }

  /** Whether the last parameter needs its colon. */
  predicate NeedsColon(p: string) {
    p == "" || ' ' in p || p[0] == ':'
  }

  function WireParams(ps: seq<string>): string
    decreases |ps|, 1
  {
    if ps == [] then "" else " " + WireFrom(ps)
  }

  function WireFrom(ps: seq<string>): string
    requires ps != []
    decreases |ps|, 0
  {
    if |ps| == 1 then (if NeedsColon(ps[0]) then ":" + ps[0] else ps[0]) else ps[0] + WireParams(ps[1..])
  }

  function Wire(m: Msg): string {
    (if m.source.Some? then ":" + m.source.value + " " else "") + m.command + WireParams(m.params)
  }

  // ----- the loops -----

  /** `parse`: the rest of the line gets shorter, the parameters longer. */
  method Parse(line: string) returns (r: Option<Msg>)
    ensures r == Parsed(line)
  {
    hide Upper, TrimStart, SplitOnce, Params;
    var rest := TrimStart(line);
    if rest != "" && rest[0] == '@' {
      var split := SplitOnce(rest[1..], ' ');
      if split.None? { return None; }
      rest := TrimStart(split.value.1);
    }
    var source: Option<string> := None;
    if rest != "" && rest[0] == ':' {
      var split := SplitOnce(rest[1..], ' ');
      if split.None? { return None; }
      source := Some(split.value.0);
      rest := TrimStart(split.value.1);
    }
    var cmd := rest;
    var split := SplitOnce(rest, ' ');
    if split.Some? {
      cmd, rest := split.value.0, TrimStart(split.value.1);
    } else {
      rest := "";
    }
    if cmd == "" { return None; }
    ghost var args := rest;
    var params := [];
    assert [] + Params(rest) == Params(rest);
    while rest != ""
      invariant Params(args) == params + Params(rest)
      decreases |rest|
    {
      ParamsNext(rest);
      if rest[0] == ':' {
        params := params + [rest[1..]];
        rest := "";
      } else {
        SplitOnceParts(rest, ' ');
        match SplitOnce(rest, ' ')
        case Some((p, t)) =>
          params, rest := params + [p], TrimStart(t);
        case None =>
          params, rest := params + [rest], "";
      }
    }
    assert Params("") == [] by { ParamsNext(""); }
    assert params + [] == params;
    r := Some(Msg(source, Upper(cmd), params));
  }

  lemma ParamsNext(rest: string)
    ensures rest == "" ==> Params(rest) == []
    ensures rest != "" && rest[0] == ':' ==> Params(rest) == [rest[1..]] + Params("")
    ensures rest != "" && rest[0] != ':' && SplitOnce(rest, ' ').None? ==> Params(rest) == [rest] + Params("")
    ensures rest != "" && rest[0] != ':' && SplitOnce(rest, ' ').Some? ==>
      Params(rest) == [SplitOnce(rest, ' ').value.0] + Params(TrimStart(SplitOnce(rest, ' ').value.1))
  {
  }

  /** `to_wire`: the line grows parameter by parameter. */
  method ToWire(m: Msg) returns (out: string)
    ensures out == Wire(m)
  {
    out := "";
    if m.source.Some? {
      out := out + ":";
      out := out + m.source.value;
      out := out + " ";
    }
    out := out + m.command;
    var n := |m.params|;
    for i := 0 to n
      invariant out + WireParams(m.params[i..]) == Wire(m)
    {
      var p := m.params[i];
      assert m.params[i..][1..] == m.params[i + 1..];
      out := out + " ";
      if i + 1 == n && NeedsColon(p) {
        out := out + ":";
      }
      out := out + p;
    }
  }

  /** Each parameter with a space in front. */
  function Spaced(ps: seq<string>): string {
    if ps == [] then "" else " " + ps[0] + Spaced(ps[1..])
  }

  lemma {:induction false} WireSpaced(ps: seq<string>, p: string)
    ensures WireParams(ps + [p]) == Spaced(ps) + " " + (if p == "" || ' ' in p || p[0] == ':' then ":" else "") + p
    decreases |ps|
  {
    if ps != [] {
      WireSpaced(ps[1..], p);
      assert (ps + [p])[1..] == ps[1..] + [p];
    }
  }

  /** Spaces between, and a colon before the last parameter only where it would not read back without one. */
  lemma WireText(m: Msg, ps: seq<string>, p: string)
    ensures Wire(m.(params := ps + [p])) == (match m.source case None => "" case Some(s) => ":" + s + " ") + m.command +
      Spaced(ps) + " " + (if p == "" || ' ' in p || p[0] == ':' then ":" else "") + p
    ensures Wire(m.(params := [])) == (match m.source case None => "" case Some(s) => ":" + s + " ") + m.command
  {
    WireSpaced(ps, p);
  }

  // ----- well-formed messages -----

  predicate PlainParam(p: string) {
    p != "" && ' ' !in p && p[0] != ':'
  }

  predicate WellFormed(m: Msg) {
    && (m.source.Some? ==> ' ' !in m.source.value)
    && m.command != "" && ' ' !in m.command && Upper(m.command) == m.command
    && (m.source.None? ==> m.command[0] != '@' && m.command[0] != ':')
    && forall i :: 0 <= i < |m.params| - 1 ==> PlainParam(m.params[i])
  }

  lemma TrimNone(s: string)
    requires s == "" || s[0] != ' '
    ensures TrimStart(s) == s
  {
  }

  /** Written parameters read back. */
  lemma {:induction false} ParamsBack(ps: seq<string>)
    requires ps != [] && forall i :: 0 <= i < |ps| - 1 ==> PlainParam(ps[i])
    ensures Params(WireFrom(ps)) == ps
    decreases |ps|
  {
    var p := ps[0];
    if |ps| == 1 {
      if !NeedsColon(p) { SplitOnceNone(p, ' '); }
    } else {
      assert PlainParam(ps[0]);
      var r := WireFrom(ps[1..]);
      assert WireFrom(ps) == p + [' '] + r;
      SplitOnceAt(p, ' ', r);
      NoLeadingSpace(ps[1..]);
      TrimNone(r);
      ParamsBack(ps[1..]);
    }
  }

  lemma NoLeadingSpace(ps: seq<string>)
    requires ps != [] && forall i :: 0 <= i < |ps| - 1 ==> PlainParam(ps[i])
    ensures WireFrom(ps) == "" || WireFrom(ps)[0] != ' '
  {
    hide WireParams;
    if |ps| > 1 {
      assert PlainParam(ps[0]);
      assert WireFrom(ps)[0] == ps[0][0];
      assert ps[0][0] in ps[0];
    }
  }

  lemma BodyBack(source: Option<string>, command: string, ps: seq<string>)
    requires command != "" && ' ' !in command && Upper(command) == command
    requires forall i :: 0 <= i < |ps| - 1 ==> PlainParam(ps[i])
    ensures Body(source, command + WireParams(ps)) == Some(Msg(source, command, ps))
  {
    hide Upper;
    if ps == [] {
      assert command + WireParams(ps) == command;
      SplitOnceNone(command, ' ');
    } else {
      var r := WireFrom(ps);
      assert command + WireParams(ps) == command + [' '] + r;
      SplitOnceAt(command, ' ', r);
      NoLeadingSpace(ps);
      TrimNone(r);
      ParamsBack(ps);
    }
  }

  lemma WellFormedBack(m: Msg)
    requires WellFormed(m)
    ensures Parsed(Wire(m)) == Some(m)
  {
    hide Upper, Body, WireParams;
    var tail := m.command + WireParams(m.params);
    BodyBack(m.source, m.command, m.params);
    assert tail[0] == m.command[0];
    TrimNone(tail);
    if m.source.Some? {
      var src := m.source.value;
      assert Wire(m)[1..] == src + [' '] + tail;
      SplitOnceAt(src, ' ', tail);
      TrimNone(Wire(m));
      assert m.command[0] in m.command;
    } else {
      assert Wire(m) == tail;
      assert m.command[0] in m.command;
    }
  }

  // ----- what parsing yields -----

  /** Everything in `WellFormed` but a leading `@` in a command without a source. */
  predicate Shaped(m: Msg) {
    && (m.source.Some? ==> ' ' !in m.source.value)
    && m.command != "" && ' ' !in m.command && Upper(m.command) == m.command
    && (m.source.None? ==> m.command[0] != ':')
    && forall i :: 0 <= i < |m.params| - 1 ==> PlainParam(m.params[i])
  }

  lemma {:induction false} ParamsPlain(rest: string)
    requires rest == "" || rest[0] != ' '
    ensures forall i :: 0 <= i < |Params(rest)| - 1 ==> PlainParam(Params(rest)[i])
    decreases |rest|
  {
    if rest != "" && rest[0] != ':' {
      SplitOnceParts(rest, ' ');
      if SplitOnce(rest, ' ').Some? {
        ParamsPlain(TrimStart(SplitOnce(rest, ' ').value.1));
      }
    }
  }

  lemma UpperKeeps(s: string)
    ensures Upper(Upper(s)) == Upper(s)
    ensures ' ' !in s ==> ' ' !in Upper(s)
    ensures s != "" ==> (Upper(s)[0] == '@' <==> s[0] == '@') && (Upper(s)[0] == ':' <==> s[0] == ':')
  {
  }

  lemma BodyShape(source: Option<string>, rest: string)
    requires rest == "" || rest[0] != ' '
    ensures Body(source, rest).Some? ==> var m := Body(source, rest).value;
      && m.source == source && rest != ""
      && m.command != "" && ' ' !in m.command && Upper(m.command) == m.command
      && (m.command[0] == '@' <==> rest[0] == '@') && (m.command[0] == ':' <==> rest[0] == ':')
      && forall i :: 0 <= i < |m.params| - 1 ==> PlainParam(m.params[i])
  {
    hide Upper, Params;
    SplitOnceParts(rest, ' ');
    match SplitOnce(rest, ' ')
    case Some((c, r)) =>
      UpperKeeps(c);
      ParamsPlain(TrimStart(r));
    case None =>
      UpperKeeps(rest);
      ParamsPlain("");
  }

  lemma SourcedShape(rest: string)
    requires rest == "" || rest[0] != ' '
    ensures Sourced(rest).Some? ==> rest != "" && Shaped(Sourced(rest).value)
    ensures Sourced(rest).Some? && rest[0] != '@' ==> WellFormed(Sourced(rest).value)
  {
    hide Body, Upper, PlainParam;
    if rest != "" && rest[0] == ':' {
      SplitOnceParts(rest[1..], ' ');
      if SplitOnce(rest[1..], ' ').Some? {
        BodyShape(Some(SplitOnce(rest[1..], ' ').value.0), TrimStart(SplitOnce(rest[1..], ' ').value.1));
      }
    } else {
      BodyShape(None, rest);
    }
  }

  /** Every untagged line that parses yields a well-formed message. */
  lemma ParseShape(line: string)
    ensures Parsed(line).Some? ==> Shaped(Parsed(line).value)
    ensures Parsed(line).Some? && !Tagged(line) ==> WellFormed(Parsed(line).value)
  {
    hide Sourced, Shaped, WellFormed;
    var rest := TrimStart(line);
    if Tagged(line) {
      if SplitOnce(rest[1..], ' ').Some? { SourcedShape(TrimStart(SplitOnce(rest[1..], ' ').value.1)); }
    } else {
      SourcedShape(rest);
    }
  }

  // ----- every line that parses, with spaces wherever the parser skips them -----

  /** `k` spaces. */
  function Blank(k: nat): (r: string)
    ensures |r| == k
  {
    if k == 0 then "" else [' '] + Blank(k - 1)
  }

  /** The text lists the parameters, one or more spaces after each; a `:` makes the rest the last one. */
  ghost predicate Spells(rest: string, ps: seq<string>)
    decreases |ps|
  {
    if rest == "" then ps == []
    else if rest[0] == ':' then ps == [rest[1..]]
    else
      && ps != [] && PlainParam(ps[0])
      && (ps == [rest] || exists k, tail :: Follows(rest, ps[0], k, tail) && Spells(tail, ps[1..]))
  }

  /** `word`, then `k + 1` spaces, then what no longer begins with one. */
  ghost predicate Follows(rest: string, word: string, k: nat, tail: string) {
    rest == word + [' '] + (Blank(k) + tail) && (tail == "" || tail[0] != ' ')
  }

  lemma {:induction false} TrimBlank(k: nat, s: string)
    requires s == "" || s[0] != ' '
    ensures TrimStart(Blank(k) + s) == s
  {
    if k == 0 {
      assert Blank(k) + s == s;
    } else {
      TrimBlank(k - 1, s);
      assert (Blank(k) + s)[1..] == Blank(k - 1) + s;
    }
  }

  /** Trimming takes off leading spaces and no more. */
  lemma {:induction false} Trimmed(s: string) returns (k: nat)
    ensures s == Blank(k) + TrimStart(s)
    decreases |s|
  {
    if s != "" && s[0] == ' ' {
      var j := Trimmed(s[1..]);
      k := j + 1;
      assert s == [' '] + (Blank(j) + TrimStart(s[1..]));
    } else {
      k := 0;
    }
  }

  /** The parameters read are the ones the text spells. */
  lemma {:induction false} ParamsSpelt(rest: string)
    requires rest == "" || rest[0] != ' '
    ensures Spells(rest, Params(rest))
    decreases |rest|
  {
    if rest != "" && rest[0] != ':' {
      SplitOnceParts(rest, ' ');
      if SplitOnce(rest, ' ').Some? {
        var (p, r) := SplitOnce(rest, ' ').value;
        var tail, k := TrimStart(r), 0;
        k := Trimmed(r);
        ParamsSpelt(tail);
        assert Follows(rest, p, k, tail);
        assert Params(rest)[1..] == Params(tail);
      }
    }
  }

  lemma {:induction false} SpeltParams(rest: string, ps: seq<string>)
    requires Spells(rest, ps)
    ensures Params(rest) == ps
    decreases |ps|
  {
    if rest != "" && rest[0] != ':' {
      if ps == [rest] {
        SplitOnceNone(rest, ' ');
      } else {
        var k, tail :| Follows(rest, ps[0], k, tail) && Spells(tail, ps[1..]);
        SplitOnceAt(ps[0], ' ', Blank(k) + tail);
        TrimBlank(k, tail);
        SpeltParams(tail, ps[1..]);
      }
    }
  }

  /** How a line is laid out: blanks in front, a tag block, a source, a command, blanks and parameter text. */
  datatype Layout = Layout(
    pad: nat, tag: Option<(string, nat)>, source: Option<(string, nat)>, command: string, args: Option<(nat, string)>)

  function Lead(mark: char, part: Option<(string, nat)>, rest: string): string {
    match part
    case None => rest
    case Some((text, k)) => [mark] + (text + [' '] + (Blank(k) + rest))
  }

  function Said(command: string, args: Option<(nat, string)>): string {
    match args
    case None => command
    case Some((k, text)) => command + [' '] + (Blank(k) + text)
  }

  function Laid(l: Layout): string {
    Blank(l.pad) + Lead('@', l.tag, Lead(':', l.source, Said(l.command, l.args)))
  }

  predicate Proper(l: Layout) {
    && (l.tag.Some? ==> ' ' !in l.tag.value.0)
    && (l.source.Some? ==> ' ' !in l.source.value.0)
    && l.command != "" && ' ' !in l.command
    && (l.source.None? ==> l.command[0] != ':' && (l.tag.None? ==> l.command[0] != '@'))
    && (l.args.Some? ==> l.args.value.1 == "" || l.args.value.1[0] != ' ')
  }

  const SMALL := "abcdefghijklmnopqrstuvwxyz"
  const CAPITAL := "ABCDEFGHIJKLMNOPQRSTUVWXYZ"

  /** The second text is the first with every small letter made its capital. */
  ghost predicate Capitals(s: string, t: string) {
    && |t| == |s|
    && forall i :: 0 <= i < |s| ==>
         (forall j :: 0 <= j < 26 && SMALL[j] == s[i] ==> t[i] == CAPITAL[j]) && (s[i] !in SMALL ==> t[i] == s[i])
  }

  /** What a laid-out line says. */
  ghost predicate Says(l: Layout, m: Msg) {
    && (m.source == if l.source.Some? then Some(l.source.value.0) else None)
    && Capitals(l.command, m.command)
    && Spells(if l.args.Some? then l.args.value.1 else "", m.params)
  }

  lemma {:induction false} UpperCapitals(s: string, t: string)
    ensures Capitals(s, t) <==> t == Upper(s)
  {
    forall i | 0 <= i < |s| ensures forall j :: 0 <= j < 26 && SMALL[j] == s[i] ==> UpperChar(s[i]) == CAPITAL[j] {
      Letters();
    }
    forall i | 0 <= i < |s| && s[i] !in SMALL ensures UpperChar(s[i]) == s[i] {
      if 'a' <= s[i] <= 'z' { SmallLetter(s[i]); }
    }
    if Capitals(s, t) {
      forall i | 0 <= i < |s| ensures t[i] == UpperChar(s[i]) {
        if s[i] in SMALL { Letters(); }
      }
    }
  }

  lemma Letters()
    ensures forall j :: 0 <= j < 26 ==> UpperChar(SMALL[j]) == CAPITAL[j]
  {
  }

  lemma SmallLetter(c: char)
    requires 'a' <= c <= 'z'
    ensures c in SMALL
  {
    assert SMALL[c as int - 'a' as int] == c;
  }

  lemma SaidReads(source: Option<string>, command: string, args: Option<(nat, string)>)
    requires command != "" && ' ' !in command && (args.Some? ==> args.value.1 == "" || args.value.1[0] != ' ')
    ensures Body(source, Said(command, args)) ==
      Some(Msg(source, Upper(command), Params(if args.Some? then args.value.1 else "")))
  {
    hide Upper, Params;
    match args
    case None => SplitOnceNone(command, ' ');
    case Some((k, text)) =>
      SplitOnceAt(command, ' ', Blank(k) + text);
      TrimBlank(k, text);
  }

  lemma LeadReads(mark: char, text: string, k: nat, rest: string)
    requires ' ' !in text && (rest == "" || rest[0] != ' ')
    ensures var s := Lead(mark, Some((text, k)), rest);
      s[0] == mark && SplitOnce(s[1..], ' ') == Some((text, Blank(k) + rest)) && TrimStart(Blank(k) + rest) == rest
  {
    var s := Lead(mark, Some((text, k)), rest);
    assert s[1..] == text + [' '] + (Blank(k) + rest);
    SplitOnceAt(text, ' ', Blank(k) + rest);
    TrimBlank(k, rest);
  }

  lemma LaidSourced(l: Layout)
    requires Proper(l)
    ensures Sourced(Lead(':', l.source, Said(l.command, l.args))) ==
      Some(Msg(if l.source.Some? then Some(l.source.value.0) else None, Upper(l.command),
               Params(if l.args.Some? then l.args.value.1 else "")))
  {
    hide Upper, Params, Body, TrimStart, SplitOnce;
    var said := Said(l.command, l.args);
    assert said[0] == l.command[0] && l.command[0] in l.command;
    match l.source
    case None => SaidReads(None, l.command, l.args);
    case Some((text, k)) =>
      LeadReads(':', text, k, said);
      SaidReads(Some(text), l.command, l.args);
  }

  /** A line so laid out parses to what it says. */
  lemma LaidParses(l: Layout, m: Msg)
    requires Proper(l) && Says(l, m)
    ensures Parsed(Laid(l)) == Some(m)
  {
    hide Upper, Params, Sourced, Spells, Capitals, TrimStart, SplitOnce, Blank;
    var said := Lead(':', l.source, Said(l.command, l.args));
    assert l.command[0] in l.command;
    assert said[0] == if l.source.Some? then ':' else l.command[0];
    LaidSourced(l);
    UpperCapitals(l.command, m.command);
    SpeltParams(if l.args.Some? then l.args.value.1 else "", m.params);
    if l.tag.Some? { LeadReads('@', l.tag.value.0, l.tag.value.1, said); }
    TrimBlank(l.pad, Lead('@', l.tag, said));
  }

  lemma SaidParts(source: Option<string>, rest: string)
    returns (command: string, args: Option<(nat, string)>)
    requires Body(source, rest).Some?
    ensures rest == Said(command, args) && command != "" && ' ' !in command && command[0] == rest[0]
    ensures args.Some? ==> args.value.1 == "" || args.value.1[0] != ' '
  {
    hide Upper, Params;
    SplitOnceParts(rest, ' ');
    match SplitOnce(rest, ' ')
    case None => command, args := rest, None;
    case Some((c, r)) =>
      var k := Trimmed(r);
      command, args := c, Some((k, TrimStart(r)));
  }

  lemma LeadParts(mark: char, rest: string) returns (text: string, k: nat)
    requires rest != "" && rest[0] == mark && SplitOnce(rest[1..], ' ').Some?
    ensures var r := SplitOnce(rest[1..], ' ').value.1;
      rest == Lead(mark, Some((text, k)), TrimStart(r)) && ' ' !in text
  {
    SplitOnceParts(rest[1..], ' ');
    text := SplitOnce(rest[1..], ' ').value.0;
    k := Trimmed(SplitOnce(rest[1..], ' ').value.1);
    assert rest == [mark] + rest[1..];
  }

  lemma SourcedParts(rest: string)
    returns (source: Option<(string, nat)>, command: string, args: Option<(nat, string)>)
    requires Sourced(rest).Some?
    ensures rest == Lead(':', source, Said(command, args)) && (source.Some? ==> ' ' !in source.value.0)
    ensures command != "" && ' ' !in command && (source.None? ==> command[0] != ':' && command[0] == rest[0])
    ensures args.Some? ==> args.value.1 == "" || args.value.1[0] != ' '
  {
    hide Body, TrimStart, SplitOnce;
    if rest != "" && rest[0] == ':' {
      var text, k := LeadParts(':', rest);
      source := Some((text, k));
      var r := TrimStart(SplitOnce(rest[1..], ' ').value.1);
      command, args := SaidParts(Some(SplitOnce(rest[1..], ' ').value.0), r);
    } else {
      source := None;
      command, args := SaidParts(None, rest);
    }
  }

  /** Every line that parses is laid out so. */
  lemma LineParts(line: string) returns (l: Layout)
    requires Parsed(line).Some?
    ensures line == Laid(l) && Proper(l)
  {
    hide Sourced, TrimStart, SplitOnce, Blank;
    var rest, pad := TrimStart(line), 0;
    pad := Trimmed(line);
    if Tagged(line) {
      var text, k := LeadParts('@', rest);
      var source, command, args := SourcedParts(TrimStart(SplitOnce(rest[1..], ' ').value.1));
      l := Layout(pad, Some((text, k)), source, command, args);
    } else {
      var source, command, args := SourcedParts(rest);
      l := Layout(pad, None, source, command, args);
    }
  }

  lemma LaidSays(l: Layout)
    requires Proper(l)
    ensures var text := if l.args.Some? then l.args.value.1 else "";
      Says(l, Msg(if l.source.Some? then Some(l.source.value.0) else None, Upper(l.command), Params(text)))
  {
    hide Upper, Params, Spells, Capitals;
    UpperCapitals(l.command, Upper(l.command));
    ParamsSpelt(if l.args.Some? then l.args.value.1 else "");
  }

  /** A line parses to a message exactly when it has a layout that says it. */
  lemma ParsesExactly(line: string, m: Msg)
    ensures Parsed(line) == Some(m) <==> exists l :: Laid(l) == line && Proper(l) && Says(l, m)
  {
    hide Parsed, Laid, Proper, Says, Upper, Params;
    if Parsed(line) == Some(m) {
      var l := LineParts(line);
      LaidSays(l);
      var text := if l.args.Some? then l.args.value.1 else "";
      LaidParses(l, Msg(if l.source.Some? then Some(l.source.value.0) else None, Upper(l.command), Params(text)));
    }
    forall l | Laid(l) == line && Proper(l) && Says(l, m) ensures Parsed(line) == Some(m) { LaidParses(l, m); }
  }

  // ----- the round trip holds exactly for well-formed messages -----

  function ParamWeight(ps: seq<string>): nat {
    if ps == [] then 0 else 1 + |ps[0]| + ParamWeight(ps[1..])
  }

  lemma {:induction false} ParamsLight(rest: string)
    ensures ParamWeight(Params(rest)) <= |rest| + 1
    decreases |rest|
  {
    if rest != "" && rest[0] != ':' {
      SplitOnceParts(rest, ' ');
      if SplitOnce(rest, ' ').Some? {
        var (p, r) := SplitOnce(rest, ' ').value;
        ParamsLight(TrimStart(r));
        assert Params(rest)[1..] == Params(TrimStart(r));
      }
    }
  }

  lemma SourcedLight(rest: string)
    ensures Sourced(rest).Some? ==> |Sourced(rest).value.command| + ParamWeight(Sourced(rest).value.params) <= |rest|
  {
    hide Upper, Params, ParamWeight;
    if rest != "" && rest[0] == ':' {
      SplitOnceParts(rest[1..], ' ');
      if SplitOnce(rest[1..], ' ').Some? {
        BodyLight(Some(SplitOnce(rest[1..], ' ').value.0), TrimStart(SplitOnce(rest[1..], ' ').value.1));
      }
    } else {
      BodyLight(None, rest);
    }
  }

  lemma BodyLight(source: Option<string>, rest: string)
    ensures Body(source, rest).Some? ==>
      |Body(source, rest).value.command| + ParamWeight(Body(source, rest).value.params) <= |rest|
  {
    SplitOnceParts(rest, ' ');
    if SplitOnce(rest, ' ').Some? {
      ParamsLight(TrimStart(SplitOnce(rest, ' ').value.1));
    } else {
      assert ParamWeight(Params("")) == 0;
    }
  }

  lemma {:induction false} WireLight(ps: seq<string>)
    requires ps != []
    ensures |WireFrom(ps)| <= ParamWeight(ps)
    decreases |ps|
  {
    if |ps| > 1 { WireLight(ps[1..]); } else { assert ParamWeight(ps[1..]) == 0; }
  }

  /** A command that looks like a tag block is never read back. */
  lemma TagLost(m: Msg)
    requires Shaped(m) && m.source.None? && m.command[0] == '@'
    ensures Parsed(Wire(m)) != Some(m)
  {
    hide Upper, WireParams, WireFrom, ParamWeight, Sourced, PlainParam;
    var name := m.command[1..];
    TrimNone(Wire(m));
    if m.params == [] {
      assert WireParams([]) == "" by { NoParams(); }
      assert Wire(m)[1..] == name;
      SplitOnceNone(name, ' ');
    } else {
      var r := WireFrom(m.params);
      assert WireParams(m.params) == " " + r by { SomeParams(m.params); }
      assert Wire(m)[1..] == name + [' '] + r;
      SplitOnceAt(name, ' ', r);
      SourcedLight(TrimStart(r));
      WireLight(m.params);
    }
  }

  lemma NoParams()
    ensures WireParams([]) == ""
  {
  }

  lemma SomeParams(ps: seq<string>)
    requires ps != []
    ensures WireParams(ps) == " " + WireFrom(ps)
  {
  }

  lemma RoundTrip(m: Msg)
    ensures Parsed(Wire(m)) == Some(m) <==> WellFormed(m)
  {
    hide Parsed, Wire, PlainParam, Upper;
    if WellFormed(m) {
      WellFormedBack(m);
    } else if Parsed(Wire(m)) == Some(m) {
      ParseShape(Wire(m));
      TagLost(m);
    }
  }

  /** A tagged line can yield a message that does not survive being written and read again. */
  lemma TaggedLine()
    ensures Parsed("@a @b") == Some(Msg(None, "@B", [])) && !WellFormed(Msg(None, "@B", []))
  {
    SplitOnceAt("a", ' ', "@b");
    assert "@a @b"[1..] == "a" + [' '] + "@b";
    SplitOnceNone("@b", ' ');
    assert Upper("@b") == "@B";
  }
}
