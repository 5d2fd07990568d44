/** The tag block of src/message.rs: client-only tags are kept for relay, a label, a batch and a concat mark noted. */
module MessageTags {
  import opened Wrappers
  import opened Text
  import opened Message

  datatype Tags = Tags(ctags: string, mark: Option<string>, batch: Option<string>, concat: bool)

  const UNTAGGED := Tags("", None, None, false)

  predicate ClientOnly(x: string) {
    x != "" && x[0] == '+'
  }

  function WithTag(t: Tags, x: string): Tags {
    if ClientOnly(x) then t.(ctags := if t.ctags == "" then x else t.ctags + ";" + x)
    else if "label=" <= x then t.(mark := Some(x[6..]))
    else if "batch=" <= x then t.(batch := Some(x[6..]))
    else if x == "draft/multiline-concat" then t.(concat := true)
    else t
  }

  function WithTags(t: Tags, xs: seq<string>): Tags
    decreases |xs|
  {
    if xs == [] then t else WithTags(WithTag(t, xs[0]), xs[1..])
  }

  /** The tags of a line, in order; none when it has no tag block. */
  function Pieces(line: string): seq<string> {
    if !Tagged(line) then []
    else
      match SplitOnce(TrimStart(line)[1..], ' ')
      case Some((block, _)) => Split(block, ';')
      case None => []
  }

  function TagsOf(line: string): Tags {
    WithTags(UNTAGGED, Pieces(line))
  }

  /** All of `parse`: the tags first, and nothing at all unless a message follows them. */
  method ParseLine(line: string) returns (r: Option<(Msg, Tags)>)
    ensures r.Some? <==> Parsed(line).Some?
    ensures r.Some? ==> r.value == (Parsed(line).value, TagsOf(line))
  {
    hide WithTag, Parsed;
    var t := UNTAGGED;
    var xs := Pieces(line);
    for i := 0 to |xs|
      invariant WithTags(t, xs[i..]) == TagsOf(line)
    {
      assert xs[i..][0] == xs[i] && xs[i..][1..] == xs[i + 1..];
      t := WithTag(t, xs[i]);
    }
    assert xs[|xs|..] == [];
    var m := Parse(line);
    r := if m.Some? then Some((m.value, t)) else None;
  }

  // ----- what is kept -----

  function Semicolons(xs: seq<string>): string {
    if xs == [] then "" else if |xs| == 1 then xs[0] else xs[0] + ";" + Semicolons(xs[1..])
  }

  function ClientTags(xs: seq<string>): seq<string> {
    if xs == [] then [] else (if ClientOnly(xs[0]) then [xs[0]] else []) + ClientTags(xs[1..])
  }

  /** The value of the last tag with this name. */
  function LastValue(xs: seq<string>, name: string): Option<string> {
    if xs == [] then None
    else if name <= xs[|xs| - 1] && !ClientOnly(xs[|xs| - 1]) then Some(xs[|xs| - 1][|name|..])
    else LastValue(xs[..|xs| - 1], name)
  }

  lemma {:induction false} WithTagsAppend(t: Tags, xs: seq<string>, x: string)
    ensures WithTags(t, xs + [x]) == WithTag(WithTags(t, xs), x)
    decreases |xs|
  {
    hide WithTag;
    if xs == [] {
      assert xs + [x] == [x];
      assert WithTags(WithTag(t, x), []) == WithTag(t, x);
    } else {
      assert (xs + [x])[1..] == xs[1..] + [x];
      WithTagsAppend(WithTag(t, xs[0]), xs[1..], x);
    }
  }

  lemma {:induction false} ClientAppend(xs: seq<string>, x: string)
    ensures ClientTags(xs + [x]) == ClientTags(xs) + if ClientOnly(x) then [x] else []
    decreases |xs|
  {
    if xs == [] {
      assert ([x])[1..] == [];
    } else {
      assert (xs + [x])[1..] == xs[1..] + [x];
      ClientAppend(xs[1..], x);
    }
  }

  lemma {:induction false} SemicolonsAppend(xs: seq<string>, x: string)
    requires xs != []
    ensures Semicolons(xs + [x]) == Semicolons(xs) + ";" + x
    decreases |xs|
  {
    assert (xs + [x])[1..] == xs[1..] + [x];
    if |xs| > 1 { SemicolonsAppend(xs[1..], x); }
  }

  lemma {:induction false} AllClientOnly(xs: seq<string>)
    ensures forall i :: 0 <= i < |ClientTags(xs)| ==> ClientOnly(ClientTags(xs)[i]) && ClientTags(xs)[i] in xs
    decreases |xs|
  {
    if xs != [] {
      AllClientOnly(xs[1..]);
      assert xs[0] in xs && forall x :: x in xs[1..] ==> x in xs;
    }
  }

  /** The tags kept are those with a `+` in front. */
  lemma {:induction false} ClientMeans(xs: seq<string>, x: string)
    ensures x in ClientTags(xs) <==> x in xs && "+" <= x
    decreases |xs|
  {
    if xs != [] {
      ClientMeans(xs[1..], x);
      assert xs == [xs[0]] + xs[1..];
    }
  }

  lemma SomeText(xs: seq<string>)
    requires xs != [] && xs[0] != ""
    ensures Semicolons(xs) != ""
  {
  }

  /** The client-only tags in order, and of label and batch the last value. */
  lemma {:induction false} TagsMean(xs: seq<string>)
    ensures WithTags(UNTAGGED, xs) ==
      Tags(Semicolons(ClientTags(xs)), LastValue(xs, "label="), LastValue(xs, "batch="), "draft/multiline-concat" in xs)
    decreases |xs|
  {
    if xs != [] {
      var front, x := xs[..|xs| - 1], xs[|xs| - 1];
      assert xs == front + [x];
      TagsMean(front);
      WithTagsAppend(UNTAGGED, front, x);
      ClientAppend(front, x);
      AllClientOnly(front);
      TagStep(front, x);
    }
  }

  lemma TagStep(front: seq<string>, x: string)
    requires forall i :: 0 <= i < |ClientTags(front)| ==> ClientOnly(ClientTags(front)[i])
    requires ClientTags(front + [x]) == ClientTags(front) + if ClientOnly(x) then [x] else []
    ensures var t := Tags(Semicolons(ClientTags(front)), LastValue(front, "label="), LastValue(front, "batch="),
                          "draft/multiline-concat" in front);
      var xs := front + [x];
      WithTag(t, x) == Tags(Semicolons(ClientTags(xs)), LastValue(xs, "label="), LastValue(xs, "batch="),
                            "draft/multiline-concat" in xs)
  {
    hide ClientTags, Semicolons;
    var xs := front + [x];
    assert xs[..|xs| - 1] == front && xs[|xs| - 1] == x;
    NamesDiffer(x);
    var cs := ClientTags(front);
    if ClientOnly(x) {
      if cs == [] {
        assert cs + [x] == [x];
        OneTag(x);
        NoTag();
      } else {
        assert ClientOnly(cs[0]);
        SomeText(cs);
        SemicolonsAppend(cs, x);
      }
    } else {
      assert cs + [] == cs;
    }
  }

  lemma OneTag(x: string)
    ensures Semicolons([x]) == x
  {
  }

  lemma NoTag()
    ensures Semicolons([]) == ""
  {
  }

  lemma NamesDiffer(x: string)
    ensures !("label=" <= x && "batch=" <= x)
    ensures x == "draft/multiline-concat" ==> !ClientOnly(x) && !("label=" <= x) && !("batch=" <= x)
  {
    assert "label="[0] == 'l' && "batch="[0] == 'b' && "draft/multiline-concat"[0] == 'd';
  }

  // ----- relayed tags survive -----

  lemma {:induction false} SplitClean(s: string, c: char)
    ensures forall i :: 0 <= i < |Split(s, c)| ==> c !in Split(s, c)[i]
    ensures forall i, d :: 0 <= i < |Split(s, c)| && d in Split(s, c)[i] ==> d in s
    decreases |s|
  {
    if s != "" {
      SplitClean(s[1..], c);
      assert s == [s[0]] + s[1..];
    }
  }

  lemma {:induction false} SplitJoined(xs: seq<string>)
    requires xs != [] && forall i :: 0 <= i < |xs| ==> ';' !in xs[i]
    ensures Split(Semicolons(xs), ';') == xs
    decreases |xs|
  {
    if |xs| == 1 {
      SplitNone(xs[0], ';');
    } else {
      var rest := Semicolons(xs[1..]);
      SplitJoined(xs[1..]);
      assert Semicolons(xs) == xs[0] + [';'] + rest;
      SplitAt(xs[0], ';', rest);
      assert xs == [xs[0]] + xs[1..];
    }
  }

  lemma {:induction false} SemicolonsClean(xs: seq<string>)
    requires forall i :: 0 <= i < |xs| ==> ' ' !in xs[i]
    ensures ' ' !in Semicolons(xs)
    decreases |xs|
  {
    if |xs| > 1 { SemicolonsClean(xs[1..]); }
  }

  lemma {:induction false} ClientAgain(xs: seq<string>)
    requires forall i :: 0 <= i < |xs| ==> ClientOnly(xs[i])
    ensures ClientTags(xs) == xs && LastValue(xs, "label=") == None && LastValue(xs, "batch=") == None
    ensures "draft/multiline-concat" !in xs
    decreases |xs|
  {
    if xs != [] {
      var front, x := xs[..|xs| - 1], xs[|xs| - 1];
      assert xs == front + [x];
      ClientAgain(front);
      ClientAppend(front, x);
      assert ClientOnly(x);
    }
  }

  /** A line relayed with the client-only tags that were kept is read with exactly those. */
  lemma RelaySurvives(line: string, rest: string)
    requires TagsOf(line).ctags != ""
    ensures TagsOf("@" + TagsOf(line).ctags + " " + rest) == UNTAGGED.(ctags := TagsOf(line).ctags)
  {
    hide Semicolons, ClientTags, LastValue, WithTags, Split;
    var cs, c := ClientTags(Pieces(line)), TagsOf(line).ctags;
    TagsMean(Pieces(line));
    KeptClean(line);
    assert cs != [] by { NoTag(); }
    SplitJoined(cs);
    var relayed := "@" + c + " " + rest;
    TrimNone(relayed);
    assert relayed[1..] == c + [' '] + rest;
    SplitOnceAt(c, ' ', rest);
    assert Pieces(relayed) == cs;
    TagsMean(cs);
    ClientAgain(cs);
  }

  lemma KeptClean(line: string)
    ensures var cs := ClientTags(Pieces(line));
      && (forall i :: 0 <= i < |cs| ==> ClientOnly(cs[i]) && ';' !in cs[i])
      && ' ' !in Semicolons(cs)
  {
    hide ClientTags, Semicolons, Split;
    var xs, cs := Pieces(line), ClientTags(Pieces(line));
    AllClientOnly(xs);
    PiecesClean(line);
    SemicolonsClean(cs);
  }

  lemma PiecesClean(line: string)
    ensures forall x :: x in Pieces(line) ==> ';' !in x && ' ' !in x
  {
    hide Split;
    if Tagged(line) {
      var after := TrimStart(line)[1..];
      SplitOnceParts(after, ' ');
      if SplitOnce(after, ' ').Some? { SplitClean(SplitOnce(after, ' ').value.0, ';'); }
    }
  }
}
