/** FJOIN timestamp arbitration and the channel netburst of src/link.rs. */
module ChannelMerge {
  import opened Wrappers
  import opened Channels

  /** A bursted member: its status letters and its network id. */
  datatype Entry = Entry(letters: string, uuid: string)

  /** What an FJOIN says about a channel. */
  datatype Burst = Burst(ts: nat, modes: string, entries: seq<Entry>)

  datatype MaskList = Bans | Excepts | Invex

  /** One mode of an FMODE line; a burst sends only the first three. */
  datatype Change =
    | SetKey(key: string)
    | SetLimit(limit: nat)
    | AddMask(list: MaskList, mask: string)
    | ClearKey
    | ClearLimit
    | DropMask(list: MaskList, mask: string)
    | Toggle(letter: char, on: bool)
    | Rank(uuid: string, letter: char, on: bool)

  /** The channel lines of a netburst; each carries the sender's channel timestamp. */
  datatype Line = FJoin(burst: Burst) | FMode(ts: nat, change: Change)

  // ----- receiving -----

  function ClearAll<K>(members: map<K, Member>): map<K, Member> {
    map k | k in members :: ClearStatus(members[k])
  }

  /** The losing side drops its own modes, lists and member status. */
  function Surrender(ch: Channel): Channel {
    ch.(members := ClearAll(ch.members), rmembers := ClearAll(ch.rmembers),
        modes := NoModes, bans := [], excepts := [], invex := [])
  }

  /** Timestamp arbitration: the lower one wins, equal ones merge, a newer one changes nothing. */
  function Arbitrate(ch: Channel, ts: nat, modes: string): Channel {
    if ts > ch.created then ch
    else
      var c := if ts < ch.created then Surrender(ch) else ch;
      c.(created := ts, modes := ApplyModeString(c.modes, modes, '+'))
  }

  function Arriving(letters: string, keepStatus: bool): Member {
    if keepStatus then GrantLetters(PlainMember, letters) else PlainMember
  }

  /** The listed users this server knows as remote join, the last entry of a repeated one counting. */
  function Enter(rmembers: map<string, Member>, entries: seq<Entry>, known: set<string>, keep: bool)
    : map<string, Member>
    decreases |entries|
  {
    if entries == [] then rmembers
    else
      var e := entries[0];
      Enter(if e.uuid in known then rmembers[e.uuid := Arriving(e.letters, keep)] else rmembers, entries[1..], known,
            keep)
  }

  /** `link_fjoin_recv` on the channel, created first if absent. */
  function FjoinRecv(held: Option<Channel>, name: string, now: nat, b: Burst, known: set<string>): Channel {
    var keep := held.None? || b.ts <= held.value.created;
    var ch := if held.None? then FreshFrom(NewChannel(name, now), b.ts, b.modes)
              else Arbitrate(held.value, b.ts, b.modes);
    ch.(rmembers := Enter(ch.rmembers, b.entries, known, keep))
  }

  /** A channel first heard of takes the sender's timestamp and adds the sender's flags to its own. */
  function FreshFrom(ch: Channel, ts: nat, modes: string): Channel {
    ch.(created := ts, modes := ApplyModeString(ch.modes, modes, '+'))
  }

  function WithMask(masks: seq<string>, mask: string): seq<string> {
    if mask in masks then masks else masks + [mask]
  }

  function WithoutMask(masks: seq<string>, mask: string): (r: seq<string>)
    ensures forall m :: m in r <==> m in masks && m != mask
  {
    if masks == [] then []
    else
      assert masks == [masks[0]] + masks[1..];
      (if masks[0] == mask then [] else [masks[0]]) + WithoutMask(masks[1..], mask)
  }

  function MasksIn(ch: Channel, list: MaskList): seq<string> {
    match list
    case Bans => ch.bans
    case Excepts => ch.excepts
    case Invex => ch.invex
  }

  /** What one mode does to the channel; of members, to the remote one it names. */
  function Changed(ch: Channel, change: Change): Channel {
    match change
    case SetKey(k) => ch.(modes := ch.modes.(key := Some(k)))
    case SetLimit(l) => ch.(modes := ch.modes.(limit := Some(l)))
    case AddMask(Bans, m) => ch.(bans := WithMask(ch.bans, m))
    case AddMask(Excepts, m) => ch.(excepts := WithMask(ch.excepts, m))
    case AddMask(Invex, m) => ch.(invex := WithMask(ch.invex, m))
    case ClearKey => ch.(modes := ch.modes.(key := None))
    case ClearLimit => ch.(modes := ch.modes.(limit := None))
    case DropMask(Bans, m) => ch.(bans := WithoutMask(ch.bans, m))
    case DropMask(Excepts, m) => ch.(excepts := WithoutMask(ch.excepts, m))
    case DropMask(Invex, m) => ch.(invex := WithoutMask(ch.invex, m))
    case Toggle(c, on) => ch.(modes := SetFlag(ch.modes, c, on))
    case Rank(x, c, on) =>
      if x in ch.rmembers then ch.(rmembers := ch.rmembers[x := Ranked(ch.rmembers[x], c, on)]) else ch
  }

  /** One burst line; an FMODE stamped newer than the channel, or for no channel, is dropped. */
  function Receive(held: Option<Channel>, name: string, now: nat, known: set<string>, line: Line): Option<Channel> {
    match line
    case FJoin(b) => Some(FjoinRecv(held, name, now, b, known))
    case FMode(ts, change) =>
      if held.None? || ts > held.value.created then held else Some(Changed(held.value, change))
  }

  function ReceiveAll(held: Option<Channel>, name: string, now: nat, known: set<string>, lines: seq<Line>)
    : Option<Channel>
    decreases |lines|
  {
    if lines == [] then held
    else ReceiveAll(Receive(held, name, now, known, lines[0]), name, now, known, lines[1..])
  }

  // ----- what a list of entries does to the remote members -----

  ghost predicate Listed(entries: seq<Entry>, uuid: string) {
    exists k :: 0 <= k < |entries| && entries[k].uuid == uuid
  }

  ghost predicate DistinctIds(entries: seq<Entry>) {
    forall j, k :: 0 <= j < k < |entries| ==> entries[j].uuid != entries[k].uuid
  }

  lemma {:induction false} EnterOthers(
    rmembers: map<string, Member>, entries: seq<Entry>, known: set<string>, keep: bool, uuid: string)
    requires !Listed(entries, uuid)
    ensures uuid in Enter(rmembers, entries, known, keep) <==> uuid in rmembers
    ensures uuid in rmembers ==> Enter(rmembers, entries, known, keep)[uuid] == rmembers[uuid]
    decreases |entries|
  {
    if entries != [] {
      var e := entries[0];
      assert e.uuid != uuid by { assert entries[0].uuid == e.uuid; }
      var next := if e.uuid in known then rmembers[e.uuid := Arriving(e.letters, keep)] else rmembers;
      EnterOthers(next, entries[1..], known, keep, uuid);
    }
  }

  lemma {:induction false} EnterListed(
    rmembers: map<string, Member>, entries: seq<Entry>, known: set<string>, keep: bool, k: nat)
    requires DistinctIds(entries) && k < |entries| && entries[k].uuid in known
    ensures entries[k].uuid in Enter(rmembers, entries, known, keep)
    ensures Enter(rmembers, entries, known, keep)[entries[k].uuid] == Arriving(entries[k].letters, keep)
    decreases |entries|
  {
    var e := entries[0];
    var next := if e.uuid in known then rmembers[e.uuid := Arriving(e.letters, keep)] else rmembers;
    if k == 0 {
      EnterOthers(next, entries[1..], known, keep, e.uuid);
    } else {
      EnterListed(next, entries[1..], known, keep, k - 1);
    }
  }

  // ----- merging any number of bursts into one existing channel -----

  /** The FJOINs of `cs` in order. */
  function MergeAll(ch: Channel, cs: seq<Burst>, known: set<string>): Channel
    decreases |cs|
  {
    if cs == [] then ch else MergeAll(FjoinRecv(Some(ch), ch.name, 0, cs[0], known), cs[1..], known)
  }

  /** Additive mode strings; entries known, each user in one entry of one burst and not yet joined. */
  ghost predicate Mergeable(ch: Channel, cs: seq<Burst>, known: set<string>) {
    && (forall k :: 0 <= k < |cs| ==> Additive(cs[k].modes) && DistinctIds(cs[k].entries))
    && (forall k, e :: 0 <= k < |cs| && e in cs[k].entries ==> e.uuid in known && e.uuid !in ch.rmembers)
    && (forall j, k, e, f :: 0 <= j < k < |cs| && e in cs[j].entries && f in cs[k].entries ==> e.uuid != f.uuid)
  }

  ghost predicate IsLowest(ts: nat, ch: Channel, cs: seq<Burst>) {
    && ts <= ch.created && (forall c :: c in cs ==> ts <= c.ts)
    && (ts == ch.created || exists c :: c in cs && c.ts == ts)
  }

  /** Flags come from every contribution at the lowest timestamp, the channel's own included. */
  ghost predicate FlagsFrom(flags: set<char>, ts: nat, ch: Channel, cs: seq<Burst>) {
    forall f :: f in flags <==>
      (ch.created == ts && f in ch.modes.flags) || exists c :: c in cs && c.ts == ts && f in FlagsNamed(c.modes)
  }

  /** A bursted member keeps its status exactly when its burst carried the lowest timestamp. */
  ghost predicate StatusFrom(rmembers: map<string, Member>, ts: nat, cs: seq<Burst>) {
    forall c, e :: c in cs && e in c.entries ==>
      && e.uuid in rmembers
      && Status(rmembers[e.uuid]) == if c.ts == ts then Status(GrantLetters(PlainMember, e.letters)) else {}
  }

  /** The members there before keep theirs exactly when the channel itself had the lowest timestamp. */
  ghost predicate OldStatus<K>(was: map<K, Member>, now: map<K, Member>, kept: bool) {
    && was.Keys <= now.Keys
    && forall k :: k in was ==> Status(now[k]) == if kept then Status(was[k]) else {}
  }

  /** The outcome of a merge, in terms that do not mention the order of the bursts. */
  ghost predicate Merged(r: Channel, ch: Channel, cs: seq<Burst>) {
    && IsLowest(r.created, ch, cs)
    && FlagsFrom(r.modes.flags, r.created, ch, cs)
    && StatusFrom(r.rmembers, r.created, cs)
    && OldStatus(ch.rmembers, r.rmembers, ch.created == r.created)
    && OldStatus(ch.members, r.members, ch.created == r.created)
    && r.members.Keys == ch.members.Keys
    && (forall u :: u in r.rmembers <==> u in ch.rmembers || exists c :: c in cs && Listed(c.entries, u))
  }

  lemma StatusOfCleared(m: Member)
    ensures Status(ClearStatus(m)) == {} && Status(PlainMember) == {}
  {
  }

  /** One FJOIN on an existing channel, spelled out. */
  lemma OneMerge(ch: Channel, c: Burst, known: set<string>)
    requires Mergeable(ch, [c], known)
    ensures Merged(FjoinRecv(Some(ch), ch.name, 0, c, known), ch, [c])
  {
    assert c == [c][0];
    var r := FjoinRecv(Some(ch), ch.name, 0, c, known);
    var mid := Arbitrate(ch, c.ts, c.modes);
    OneMergeHeader(ch, c);
    assert IsLowest(r.created, ch, [c]);
    assert FlagsFrom(r.modes.flags, r.created, ch, [c]);
    forall e | e in c.entries
      ensures e.uuid in r.rmembers
      ensures Status(r.rmembers[e.uuid]) ==
              if c.ts == r.created then Status(GrantLetters(PlainMember, e.letters)) else {}
    {
      var k :| 0 <= k < |c.entries| && c.entries[k] == e;
      EnterListed(mid.rmembers, c.entries, known, c.ts <= ch.created, k);
    }
    forall u ensures u in r.rmembers <==> u in ch.rmembers || Listed(c.entries, u) {
      if Listed(c.entries, u) {
        var k :| 0 <= k < |c.entries| && c.entries[k].uuid == u;
        assert c.entries[k] in c.entries;
      } else {
        EnterOthers(mid.rmembers, c.entries, known, c.ts <= ch.created, u);
      }
    }
    forall u | u in ch.rmembers ensures u in r.rmembers && r.rmembers[u] == mid.rmembers[u] {
      EnterOthers(mid.rmembers, c.entries, known, c.ts <= ch.created, u);
    }
  }

  lemma OneMergeHeader(ch: Channel, c: Burst)
    requires Additive(c.modes)
    ensures var r := Arbitrate(ch, c.ts, c.modes);
      && r.created == (if c.ts < ch.created then c.ts else ch.created)
      && (forall f :: f in r.modes.flags <==>
            (ch.created == r.created && f in ch.modes.flags) || (c.ts == r.created && f in FlagsNamed(c.modes)))
      && OldStatus(ch.rmembers, r.rmembers, ch.created == r.created)
      && OldStatus(ch.members, r.members, ch.created == r.created)
      && r.members.Keys == ch.members.Keys && r.rmembers.Keys == ch.rmembers.Keys
  {
    AdditiveModes(NoModes, c.modes);
    AdditiveModes(ch.modes, c.modes);
    forall m: Member ensures Status(ClearStatus(m)) == {} { StatusOfCleared(m); }
  }

  // One burst, then the others merged on top: the parts of the outcome compose.

  lemma LowestStep(ch: Channel, mid: Channel, ts: nat, c: Burst, rest: seq<Burst>)
    requires IsLowest(mid.created, ch, [c]) && IsLowest(ts, mid, rest)
    ensures IsLowest(ts, ch, [c] + rest)
  {
    assert c in [c] && c in [c] + rest;
    assert forall d :: d in [c] + rest <==> d == c || d in rest;
  }

  lemma FlagsStep(ch: Channel, mid: Channel, flags: set<char>, ts: nat, c: Burst, rest: seq<Burst>)
    requires IsLowest(mid.created, ch, [c]) && FlagsFrom(mid.modes.flags, mid.created, ch, [c])
    requires IsLowest(ts, mid, rest) && FlagsFrom(flags, ts, mid, rest)
    ensures FlagsFrom(flags, ts, ch, [c] + rest)
  {
    assert c in [c] && c in [c] + rest;
    assert forall d :: d in [c] + rest <==> d == c || d in rest;
  }

  lemma StatusStep(ch: Channel, mid: Channel, r: Channel, c: Burst, rest: seq<Burst>)
    requires IsLowest(mid.created, ch, [c]) && StatusFrom(mid.rmembers, mid.created, [c])
    requires IsLowest(r.created, mid, rest) && StatusFrom(r.rmembers, r.created, rest)
    requires OldStatus(mid.rmembers, r.rmembers, mid.created == r.created)
    ensures StatusFrom(r.rmembers, r.created, [c] + rest)
  {
    assert c in [c];
    assert forall d :: d in [c] + rest <==> d == c || d in rest;
    forall e | e in c.entries
      ensures e.uuid in r.rmembers
      ensures Status(r.rmembers[e.uuid]) ==
              if c.ts == r.created then Status(GrantLetters(PlainMember, e.letters)) else {}
    {
    }
  }

  lemma OldStatusStep<K>(was: map<K, Member>, mid: map<K, Member>, now: map<K, Member>, k1: bool, k2: bool)
    requires OldStatus(was, mid, k1) && OldStatus(mid, now, k2)
    ensures OldStatus(was, now, k1 && k2)
  {
  }

  lemma MergeStep(ch: Channel, mid: Channel, r: Channel, c: Burst, rest: seq<Burst>)
    requires Merged(mid, ch, [c]) && Merged(r, mid, rest)
    ensures Merged(r, ch, [c] + rest)
  {
    hide FlagsFrom, StatusFrom, OldStatus, Listed;
    LowestStep(ch, mid, r.created, c, rest);
    FlagsStep(ch, mid, r.modes.flags, r.created, c, rest);
    StatusStep(ch, mid, r, c, rest);
    OldStatusStep(ch.rmembers, mid.rmembers, r.rmembers, ch.created == mid.created, mid.created == r.created);
    OldStatusStep(ch.members, mid.members, r.members, ch.created == mid.created, mid.created == r.created);
    assert c in [c] && c in [c] + rest;
    assert forall d :: d in [c] + rest <==> d == c || d in rest;
  }

  lemma MergeableRest(ch: Channel, mid: Channel, cs: seq<Burst>, known: set<string>)
    requires Mergeable(ch, cs, known) && cs != [] && Merged(mid, ch, [cs[0]])
    ensures Mergeable(mid, cs[1..], known)
  {
    var c := cs[0];
    forall k, e | 0 <= k < |cs[1..]| && e in cs[1..][k].entries ensures e.uuid in known && e.uuid !in mid.rmembers {
      assert e in cs[k + 1].entries;
    }
  }

  /** After any bursts in any order, the outcome is the one the timestamps dictate. */
  lemma {:induction false} MergeOutcome(ch: Channel, cs: seq<Burst>, known: set<string>)
    requires Mergeable(ch, cs, known)
    ensures Merged(MergeAll(ch, cs, known), ch, cs)
    decreases |cs|
  {
    hide Mergeable, Merged, FjoinRecv;
    if cs == [] {
      MergedNothing(ch);
    } else {
      var mid := FjoinRecv(Some(ch), ch.name, 0, cs[0], known);
      MergeableFirst(ch, cs, known);
      OneMerge(ch, cs[0], known);
      MergeableRest(ch, mid, cs, known);
      MergeOutcome(mid, cs[1..], known);
      MergeStep(ch, mid, MergeAll(ch, cs, known), cs[0], cs[1..]);
      assert [cs[0]] + cs[1..] == cs;
    }
  }

  lemma MergedNothing(ch: Channel)
    ensures Merged(ch, ch, [])
  {
  }

  lemma MergeableFirst(ch: Channel, cs: seq<Burst>, known: set<string>)
    requires Mergeable(ch, cs, known) && cs != []
    ensures Mergeable(ch, [cs[0]], known)
  {
  }

  // The outcome is determined by which bursts there were.

  lemma SameFlags(r: Channel, q: Channel, ch: Channel, cs: seq<Burst>, ds: seq<Burst>)
    requires IsLowest(r.created, ch, cs) && IsLowest(q.created, ch, ds)
    requires FlagsFrom(r.modes.flags, r.created, ch, cs) && FlagsFrom(q.modes.flags, q.created, ch, ds)
    requires forall c :: c in cs <==> c in ds
    ensures r.created == q.created && r.modes.flags == q.modes.flags
  {
    hide FlagsNamed;
    assert r.created == q.created;
    assert forall f :: f in r.modes.flags <==> f in q.modes.flags;
  }

  lemma SameStatus(r: Channel, q: Channel, ch: Channel, cs: seq<Burst>, ds: seq<Burst>, u: string)
    requires Merged(r, ch, cs) && Merged(q, ch, ds) && r.created == q.created
    requires forall c :: c in cs <==> c in ds
    ensures u in r.rmembers <==> u in q.rmembers
    ensures u in r.rmembers ==> Status(r.rmembers[u]) == Status(q.rmembers[u])
  {
    hide Status, GrantLetters, FlagsFrom, IsLowest;
    if u in r.rmembers && u !in ch.rmembers {
      var c :| c in cs && Listed(c.entries, u);
      var k :| 0 <= k < |c.entries| && c.entries[k].uuid == u;
      assert c.entries[k] in c.entries && c in ds;
    }
  }

  /** Equal timestamp, flags, members and member status. */
  ghost predicate SameOutcome(r: Channel, q: Channel) {
    && r.created == q.created && r.modes.flags == q.modes.flags
    && r.members.Keys == q.members.Keys && r.rmembers.Keys == q.rmembers.Keys
    && (forall u :: u in r.members ==> Status(r.members[u]) == Status(q.members[u]))
    && (forall u :: u in r.rmembers ==> Status(r.rmembers[u]) == Status(q.rmembers[u]))
  }

  lemma MergedSame(r: Channel, q: Channel, ch: Channel, cs: seq<Burst>, ds: seq<Burst>)
    requires Merged(r, ch, cs) && Merged(q, ch, ds)
    requires forall c :: c in cs <==> c in ds
    ensures SameOutcome(r, q)
  {
    hide FlagsFrom, StatusFrom, IsLowest, Status;
    SameFlags(r, q, ch, cs, ds);
    forall u ensures u in r.rmembers <==> u in q.rmembers
             ensures u in r.rmembers ==> Status(r.rmembers[u]) == Status(q.rmembers[u])
    {
      SameStatus(r, q, ch, cs, ds, u);
    }
    assert r.rmembers.Keys == q.rmembers.Keys;
  }

  /** Any two orders of the same bursts leave the same timestamp, flags, members and status. */
  lemma MergeOrderFree(ch: Channel, cs: seq<Burst>, ds: seq<Burst>, known: set<string>)
    requires Mergeable(ch, cs, known) && Mergeable(ch, ds, known)
    requires multiset(cs) == multiset(ds)
    ensures SameOutcome(MergeAll(ch, cs, known), MergeAll(ch, ds, known))
  {
    hide Mergeable, MergeAll, Merged, SameOutcome;
    MergeOutcome(ch, cs, known);
    MergeOutcome(ch, ds, known);
    forall c ensures c in cs <==> c in ds {
      assert c in cs <==> c in multiset(cs);
      assert c in ds <==> c in multiset(ds);
    }
    MergedSame(MergeAll(ch, cs, known), MergeAll(ch, ds, known), ch, cs, ds);
  }
}
