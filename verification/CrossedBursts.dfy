/** Two servers that both hold a channel link up: their crossed netbursts make them agree. */
module CrossedBursts {
  import opened Wrappers
  import opened Channels
  import opened ChannelMerge

  // ----- sending (`burst_channels`) -----

  /** `order` runs over the channel's local members, each once. */
  ghost predicate Order(order: seq<Uid>, ch: Channel) {
    && (forall u :: u in order <==> u in ch.members)
    && (forall j, k :: 0 <= j < k < |order| ==> order[j] != order[k])
  }

  function Entries(ch: Channel, ids: map<Uid, string>, order: seq<Uid>): (r: seq<Entry>)
    requires forall u :: u in order ==> u in ch.members && u in ids
    ensures |r| == |order|
    ensures forall k :: 0 <= k < |r| ==> r[k] == Entry(ModeLetters(ch.members[order[k]]), ids[order[k]])
  {
    seq(|order|, k requires 0 <= k < |order| => Entry(ModeLetters(ch.members[order[k]]), ids[order[k]]))
  }

  function MaskLines(ts: nat, list: MaskList, masks: seq<string>): seq<Line> {
    if masks == [] then [] else [FMode(ts, AddMask(list, masks[0]))] + MaskLines(ts, list, masks[1..])
  }

  /** One channel's burst: its FJOIN, then the key, the limit and the three mask lists as FMODEs. */
  function BurstLines(ch: Channel, entries: seq<Entry>): seq<Line> {
    [FJoin(Burst(ch.created, Render(ch.modes), entries))] + ModeLines(ch) + ListLines(ch)
  }

  function ModeLines(ch: Channel): seq<Line> {
    (if ch.modes.key.Some? then [FMode(ch.created, SetKey(ch.modes.key.value))] else []) +
    (if ch.modes.limit.Some? then [FMode(ch.created, SetLimit(ch.modes.limit.value))] else [])
  }

  function ListLines(ch: Channel): seq<Line> {
    MaskLines(ch.created, Bans, ch.bans) + MaskLines(ch.created, Excepts, ch.excepts) +
    MaskLines(ch.created, Invex, ch.invex)
  }

  // ----- what a whole burst does to the channel that receives it -----

  function AddMasks(masks: seq<string>, more: seq<string>): (r: seq<string>)
    ensures forall m :: m in r <==> m in masks || m in more
    decreases |more|
  {
    if more == [] then masks
    else
      assert more == [more[0]] + more[1..];
      AddMasks(WithMask(masks, more[0]), more[1..])
  }

  function Prefer(theirs: Option, ours: Option): Option {
    if theirs.Some? then theirs else ours
  }

  /** The receiver's channel after another server's burst of the same channel. */
  function AfterBurst(me: Channel, him: Channel, entries: seq<Entry>, known: set<string>): Channel {
    if him.created > me.created then me.(rmembers := Enter(me.rmembers, entries, known, false))
    else
      var base := if him.created < me.created then Surrender(me) else me;
      base.(created := him.created,
            modes := Modes(base.modes.flags + him.modes.flags, Prefer(him.modes.key, base.modes.key),
                           Prefer(him.modes.limit, base.modes.limit), base.modes.others),
            bans := AddMasks(base.bans, him.bans), excepts := AddMasks(base.excepts, him.excepts),
            invex := AddMasks(base.invex, him.invex),
            rmembers := Enter(base.rmembers, entries, known, true))
  }

  lemma {:induction false} ReceiveAppend(
    held: Option<Channel>, name: string, now: nat, known: set<string>, a: seq<Line>, b: seq<Line>)
    ensures ReceiveAll(held, name, now, known, a + b) ==
            ReceiveAll(ReceiveAll(held, name, now, known, a), name, now, known, b)
    decreases |a|
  {
    if a == [] {
      assert a + b == b;
    } else {
      assert (a + b)[1..] == a[1..] + b;
      ReceiveAppend(Receive(held, name, now, known, a[0]), name, now, known, a[1..], b);
    }
  }

  function WithMasks(ch: Channel, list: MaskList, masks: seq<string>): Channel {
    match list
    case Bans => ch.(bans := AddMasks(ch.bans, masks))
    case Excepts => ch.(excepts := AddMasks(ch.excepts, masks))
    case Invex => ch.(invex := AddMasks(ch.invex, masks))
  }

  lemma {:induction false} ReceiveMasks(
    ch: Channel, name: string, now: nat, known: set<string>, ts: nat, list: MaskList, masks: seq<string>)
    ensures ReceiveAll(Some(ch), name, now, known, MaskLines(ts, list, masks)) ==
            Some(if ts > ch.created then ch else WithMasks(ch, list, masks))
    decreases |masks|
  {
    if masks != [] {
      var line := FMode(ts, AddMask(list, masks[0]));
      assert MaskLines(ts, list, masks)[1..] == MaskLines(ts, list, masks[1..]);
      var next := Receive(Some(ch), name, now, known, line).value;
      ReceiveMasks(next, name, now, known, ts, list, masks[1..]);
    }
  }

  lemma ReceiveModes(ch: Channel, him: Channel, name: string, now: nat, known: set<string>)
    requires him.created <= ch.created
    ensures ReceiveAll(Some(ch), name, now, known, ModeLines(him)) ==
            Some(ch.(modes := ch.modes.(key := Prefer(him.modes.key, ch.modes.key),
                                        limit := Prefer(him.modes.limit, ch.modes.limit))))
  {
    var keyLine := if him.modes.key.Some? then [FMode(him.created, SetKey(him.modes.key.value))] else [];
    var limitLine := if him.modes.limit.Some? then [FMode(him.created, SetLimit(him.modes.limit.value))] else [];
    ReceiveAppend(Some(ch), name, now, known, keyLine, limitLine);
    ReceiveOne(Some(ch), name, now, known, keyLine);
    ReceiveOne(ReceiveAll(Some(ch), name, now, known, keyLine), name, now, known, limitLine);
  }

  lemma ReceiveOne(held: Option<Channel>, name: string, now: nat, known: set<string>, lines: seq<Line>)
    requires |lines| <= 1
    ensures ReceiveAll(held, name, now, known, lines) ==
            if lines == [] then held else Receive(held, name, now, known, lines[0])
  {
    if lines != [] { assert lines[1..] == []; }
  }

  lemma ReceiveStaleModes(ch: Channel, him: Channel, name: string, now: nat, known: set<string>)
    requires him.created > ch.created
    ensures ReceiveAll(Some(ch), name, now, known, ModeLines(him)) == Some(ch)
  {
    var keyLine := if him.modes.key.Some? then [FMode(him.created, SetKey(him.modes.key.value))] else [];
    var limitLine := if him.modes.limit.Some? then [FMode(him.created, SetLimit(him.modes.limit.value))] else [];
    ReceiveAppend(Some(ch), name, now, known, keyLine, limitLine);
    ReceiveOne(Some(ch), name, now, known, keyLine);
    ReceiveOne(ReceiveAll(Some(ch), name, now, known, keyLine), name, now, known, limitLine);
  }

  lemma ReceiveLists(ch: Channel, him: Channel, name: string, now: nat, known: set<string>)
    ensures ReceiveAll(Some(ch), name, now, known, ListLines(him)) ==
            Some(if him.created > ch.created then ch
                 else ch.(bans := AddMasks(ch.bans, him.bans), excepts := AddMasks(ch.excepts, him.excepts),
                          invex := AddMasks(ch.invex, him.invex)))
  {
    hide ReceiveAll, AddMasks, MaskLines;
    var ts := him.created;
    var b, e, i := MaskLines(ts, Bans, him.bans), MaskLines(ts, Excepts, him.excepts), MaskLines(ts, Invex, him.invex);
    ReceiveAppend(Some(ch), name, now, known, b + e, i);
    ReceiveAppend(Some(ch), name, now, known, b, e);
    ReceiveMasks(ch, name, now, known, ts, Bans, him.bans);
    var c1 := ReceiveAll(Some(ch), name, now, known, b).value;
    ReceiveMasks(c1, name, now, known, ts, Excepts, him.excepts);
    var c2 := ReceiveAll(Some(c1), name, now, known, e).value;
    ReceiveMasks(c2, name, now, known, ts, Invex, him.invex);
  }

  /** A burst line by line is the whole burst at once. */
  lemma BurstReceived(me: Channel, him: Channel, entries: seq<Entry>, name: string, now: nat, known: set<string>)
    requires FlagsKnown(him.modes)
    ensures ReceiveAll(Some(me), name, now, known, BurstLines(him, entries)) ==
            Some(AfterBurst(me, him, entries, known))
  {
    hide ReceiveAll, AddMasks, ModeLines, ListLines, Enter, Render, Surrender, ApplyModeString;
    var first := [FJoin(Burst(him.created, Render(him.modes), entries))];
    ReceiveAppend(Some(me), name, now, known, first + ModeLines(him), ListLines(him));
    ReceiveAppend(Some(me), name, now, known, first, ModeLines(him));
    ReceiveOne(Some(me), name, now, known, first);
    RenderNames(him.modes);
    var joined := FjoinRecv(Some(me), name, now, first[0].burst, known);
    if him.created > me.created {
      ReceiveStaleModes(joined, him, name, now, known);
      ReceiveLists(joined, him, name, now, known);
    } else {
      var base := if him.created < me.created then Surrender(me) else me;
      AdditiveModes(base.modes, Render(him.modes));
      ReceiveModes(joined, him, name, now, known);
      var c := ReceiveAll(Some(joined), name, now, known, ModeLines(him)).value;
      ReceiveLists(c, him, name, now, known);
    }
  }

  // ----- agreement -----

  /** One server's side of a channel at link time: no remote members yet. */
  datatype Side = Side(ch: Channel, ids: map<Uid, string>, order: seq<Uid>)

  ghost predicate Ready(s: Side) {
    && s.ch.members != map[] && s.ch.rmembers == map[] && FlagsKnown(s.ch.modes)
    && Order(s.order, s.ch)
    && (forall u :: u in s.ch.members ==> u in s.ids)
    && (forall u, v :: u in s.ch.members && v in s.ch.members && s.ids[u] == s.ids[v] ==> u == v)
  }

  function SideEntries(s: Side): seq<Entry>
    requires Ready(s)
  {
    Entries(s.ch, s.ids, s.order)
  }

  ghost predicate LocalId(s: Side, id: string) {
    exists u :: u in s.ch.members && u in s.ids && s.ids[u] == id
  }

  /** User `id` is on the channel, local or remote, with exactly the status `st`. */
  ghost predicate HasStatus(ch: Channel, ids: map<Uid, string>, id: string, st: set<Prefix>) {
    || (id in ch.rmembers && Status(ch.rmembers[id]) == st)
    || (exists u :: u in ch.members && u in ids && ids[u] == id && Status(ch.members[u]) == st)
  }

  ghost predicate SameUsers(a: Channel, aids: map<Uid, string>, b: Channel, bids: map<Uid, string>) {
    forall id, st :: HasStatus(a, aids, id, st) <==> HasStatus(b, bids, id, st)
  }

  predicate SameMasks(a: seq<string>, b: seq<string>) {
    && (forall k :: 0 <= k < |a| ==> a[k] in b)
    && (forall k :: 0 <= k < |b| ==> b[k] in a)
  }

  /** What each side knows of the other when the channel lines arrive. */
  ghost predicate Introduced(a: Side, b: Side, knownA: set<string>, knownB: set<string>) {
    && (forall id :: LocalId(b, id) ==> id in knownA) && (forall id :: LocalId(a, id) ==> id in knownB)
    && (forall id :: LocalId(a, id) ==> !LocalId(b, id))
  }

  /** The other side's members, as they arrive on a channel that had no remote members. */
  lemma Entered(s: Side, known: set<string>, keep: bool, id: string)
    requires Ready(s) && forall i :: LocalId(s, i) ==> i in known
    ensures id in Enter(map[], SideEntries(s), known, keep) <==> LocalId(s, id)
    ensures forall u :: u in s.ch.members && s.ids[u] == id ==>
      id in Enter(map[], SideEntries(s), known, keep) &&
      Enter(map[], SideEntries(s), known, keep)[id] == if keep then s.ch.members[u] else PlainMember
  {
    hide Enter, ModeLetters, FlagsKnown;
    var entries := SideEntries(s);
    if LocalId(s, id) {
      forall u | u in s.ch.members && s.ids[u] == id
        ensures id in Enter(map[], entries, known, keep)
        ensures Enter(map[], entries, known, keep)[id] == if keep then s.ch.members[u] else PlainMember
      {
        assert u in s.order;
        var k :| 0 <= k < |s.order| && s.order[k] == u;
        assert entries[k].uuid == id;
        EnterListed(map[], entries, known, keep, k);
        LettersRoundTrip(s.ch.members[u]);
      }
    } else {
      forall k | 0 <= k < |entries| ensures entries[k].uuid != id {
        assert s.order[k] in s.order;
      }
      EnterOthers(map[], entries, known, keep, id);
    }
  }

  /** A member of side `s`, with its status if its side had (or shared) the lower timestamp. */
  ghost predicate Brings(s: Side, id: string, st: set<Prefix>, keep: bool) {
    exists u :: u in s.ch.members && u in s.ids && s.ids[u] == id && st == if keep then Status(s.ch.members[u]) else {}
  }

  /** After the other side's burst a server sees the members of both, each judged by its own side. */
  lemma UsersAfter(me: Side, him: Side, known: set<string>, id: string, st: set<Prefix>)
    requires Ready(me) && Ready(him) && forall i :: LocalId(him, i) ==> i in known
    ensures HasStatus(AfterBurst(me.ch, him.ch, SideEntries(him), known), me.ids, id, st) <==>
            Brings(me, id, st, me.ch.created <= him.ch.created) || Brings(him, id, st, him.ch.created <= me.ch.created)
  {
    hide Enter, SideEntries, AddMasks, FlagsKnown, Order;
    var keep := him.ch.created <= me.ch.created;
    var r := AfterBurst(me.ch, him.ch, SideEntries(him), known);
    var rm := Enter(map[], SideEntries(him), known, keep);
    assert ClearAll(me.ch.rmembers) == map[];
    assert r.rmembers == rm;
    Entered(him, known, keep, id);
    forall m: Member ensures Status(ClearStatus(m)) == {} && Status(PlainMember) == {} { StatusOfCleared(m); }
    assert (id in rm && Status(rm[id]) == st) <==> Brings(him, id, st, keep) by {
      if id in rm {
        var u :| u in him.ch.members && u in him.ids && him.ids[u] == id;
        assert rm[id] == if keep then him.ch.members[u] else PlainMember;
      }
    }
    OwnUsersAfter(me, him, known, id, st);
  }

  lemma OwnUsersAfter(me: Side, him: Side, known: set<string>, id: string, st: set<Prefix>)
    requires Ready(me) && Ready(him)
    ensures var r := AfterBurst(me.ch, him.ch, SideEntries(him), known);
      (exists u :: u in r.members && u in me.ids && me.ids[u] == id && Status(r.members[u]) == st) <==>
      Brings(me, id, st, me.ch.created <= him.ch.created)
  {
    hide Enter, SideEntries, AddMasks, FlagsKnown, Order, Status;
    var r := AfterBurst(me.ch, him.ch, SideEntries(him), known);
    forall m: Member ensures Status(ClearStatus(m)) == {} { StatusOfCleared(m); }
    var kept := me.ch.created <= him.ch.created;
    assert forall u :: u in me.ch.members ==>
      u in r.members && Status(r.members[u]) == if kept then Status(me.ch.members[u]) else {};
  }

  /** A setting conflicts when both sides hold one and they differ. */
  predicate Conflict<T(==)>(a: Option<T>, b: Option<T>) {
    a.Some? && b.Some? && a != b
  }

  /** `r` has the modes (as far as a burst carries them) and the masks of `lo`. */
  ghost predicate SettingsOf(lo: Channel, r: Channel) {
    && r.modes == lo.modes.(others := r.modes.others) && SameMasks(r.bans, lo.bans)
    && SameMasks(r.excepts, lo.excepts) && SameMasks(r.invex, lo.invex)
  }

  /** `r` has the flags and the masks of both. */
  ghost predicate SettingsOfBoth(a: Channel, b: Channel, r: Channel) {
    && r.modes.flags == a.modes.flags + b.modes.flags && MasksOf(r.bans, a.bans, b.bans)
    && MasksOf(r.excepts, a.excepts, b.excepts) && MasksOf(r.invex, a.invex, b.invex)
  }

  ghost predicate MasksOf(r: seq<string>, a: seq<string>, b: seq<string>) {
    forall m :: m in r <==> m in a || m in b
  }

  /** The members of both sides, with status only from a side at the lower timestamp. */
  ghost predicate Everybody(a: Side, b: Side, r: Channel, ids: map<Uid, string>) {
    forall id, st :: HasStatus(r, ids, id, st) <==>
      Brings(a, id, st, a.ch.created <= b.ch.created) || Brings(b, id, st, b.ch.created <= a.ch.created)
  }

  /** No burst carries the other parameter modes: the lower side must have none, equal sides the same. */
  predicate OthersMeet(a: Channel, b: Channel) {
    if a.created < b.created then a.modes.others == {}
    else if b.created < a.created then b.modes.others == {}
    else a.modes.others == b.modes.others
  }

  /** The outcome of two crossed bursts: the lower timestamp's settings, and everybody's membership. */
  ghost predicate Agreed(a: Side, b: Side, a': Channel, b': Channel) {
    && a'.created == b'.created == (if a.ch.created <= b.ch.created then a.ch.created else b.ch.created)
    && a'.modes.flags == b'.modes.flags
    && SameMasks(a'.bans, b'.bans) && SameMasks(a'.excepts, b'.excepts) && SameMasks(a'.invex, b'.invex)
    && SameUsers(a', a.ids, b', b.ids) && Everybody(a, b, a', a.ids)
    && (a.ch.created < b.ch.created ==> SettingsOf(a.ch, a') && SettingsOf(a.ch, b'))
    && (b.ch.created < a.ch.created ==> SettingsOf(b.ch, a') && SettingsOf(b.ch, b'))
    && (a.ch.created == b.ch.created ==> SettingsOfBoth(a.ch, b.ch, a') && SettingsOfBoth(a.ch, b.ch, b'))
    && (a'.modes.key == b'.modes.key <==> a.ch.created != b.ch.created || !Conflict(a.ch.modes.key, b.ch.modes.key))
    && (a'.modes.limit == b'.modes.limit <==>
          a.ch.created != b.ch.created || !Conflict(a.ch.modes.limit, b.ch.modes.limit))
    && (a'.modes.others == b'.modes.others <==> OthersMeet(a.ch, b.ch))
  }

  lemma SettingsSwap(a: Channel, b: Channel, r: Channel)
    ensures SettingsOfBoth(b, a, r) ==> SettingsOfBoth(a, b, r)
  {
    assert a.modes.flags + b.modes.flags == b.modes.flags + a.modes.flags;
  }

  lemma SettingsAgree(a: Channel, b: Channel, ea: seq<Entry>, eb: seq<Entry>, knownA: set<string>, knownB: set<string>)
    ensures var a', b' := AfterBurst(a, b, eb, knownA), AfterBurst(b, a, ea, knownB);
      && a'.created == b'.created == (if a.created <= b.created then a.created else b.created)
      && a'.modes.flags == b'.modes.flags
      && SameMasks(a'.bans, b'.bans) && SameMasks(a'.excepts, b'.excepts) && SameMasks(a'.invex, b'.invex)
      && (a'.modes.key == b'.modes.key <==> a.created != b.created || !Conflict(a.modes.key, b.modes.key))
      && (a'.modes.limit == b'.modes.limit <==> a.created != b.created || !Conflict(a.modes.limit, b.modes.limit))
      && (a'.modes.others == b'.modes.others <==> OthersMeet(a, b))
  {
    hide Enter, AddMasks;
  }

  /** One side's settings after the other's burst. */
  lemma SettingsAfter(me: Channel, him: Channel, entries: seq<Entry>, known: set<string>)
    ensures var r := AfterBurst(me, him, entries, known);
      && (me.created < him.created ==> SettingsOf(me, r))
      && (him.created < me.created ==> SettingsOf(him, r))
      && (me.created == him.created ==> SettingsOfBoth(me, him, r))
  {
    hide Enter, AddMasks;
    var r := AfterBurst(me, him, entries, known);
    if him.created < me.created {
      assert NoModes.flags + him.modes.flags == him.modes.flags;
      assert r.modes == him.modes.(others := r.modes.others);
    }
  }

  /** Delivering both bursts of a channel that both servers hold makes the servers agree on it. */
  lemma CrossedBurstsAgree(a: Side, b: Side, knownA: set<string>, knownB: set<string>, name: string, now: nat)
    requires Ready(a) && Ready(b) && Introduced(a, b, knownA, knownB)
    ensures var a' := ReceiveAll(Some(a.ch), name, now, knownA, BurstLines(b.ch, SideEntries(b)));
      var b' := ReceiveAll(Some(b.ch), name, now, knownB, BurstLines(a.ch, SideEntries(a)));
      a'.Some? && b'.Some? && Agreed(a, b, a'.value, b'.value)
  {
    hide ReceiveAll, BurstLines, SideEntries, AfterBurst, HasStatus, Brings, SameMasks, SettingsOf, SettingsOfBoth;
    BurstReceived(a.ch, b.ch, SideEntries(b), name, now, knownA);
    BurstReceived(b.ch, a.ch, SideEntries(a), name, now, knownB);
    var a' := AfterBurst(a.ch, b.ch, SideEntries(b), knownA);
    var b' := AfterBurst(b.ch, a.ch, SideEntries(a), knownB);
    SettingsAgree(a.ch, b.ch, SideEntries(a), SideEntries(b), knownA, knownB);
    SettingsAfter(a.ch, b.ch, SideEntries(b), knownA);
    SettingsAfter(b.ch, a.ch, SideEntries(a), knownB);
    SettingsSwap(a.ch, b.ch, b');
    forall id, st ensures HasStatus(a', a.ids, id, st) <==> HasStatus(b', b.ids, id, st) {
      UsersAfter(a, b, knownA, id, st);
      UsersAfter(b, a, knownB, id, st);
    }
    assert Everybody(a, b, a', a.ids) by {
      forall id, st
        ensures HasStatus(a', a.ids, id, st) <==>
          Brings(a, id, st, a.ch.created <= b.ch.created) || Brings(b, id, st, b.ch.created <= a.ch.created)
      {
        UsersAfter(a, b, knownA, id, st);
      }
    }
  }

  /**
   * A channel only one side held: the other adopts its timestamp, key, limit, lists and members,
   * but keeps its own default flags, so the flags agree exactly when those were set already.
   */
  lemma OneSidedBurst(a: Side, known: set<string>, name: string, now: nat, ids: map<Uid, string>)
    requires Ready(a) && forall id :: LocalId(a, id) ==> id in known
    ensures var b' := ReceiveAll(None, name, now, known, BurstLines(a.ch, SideEntries(a)));
      && b'.Some? && b'.value.created == a.ch.created
      && b'.value.modes.key == a.ch.modes.key && b'.value.modes.limit == a.ch.modes.limit
      && (b'.value.modes.flags == a.ch.modes.flags <==> {'n', 't'} <= a.ch.modes.flags)
      && (b'.value.modes.others == a.ch.modes.others <==> a.ch.modes.others == {})
      && SameMasks(b'.value.bans, a.ch.bans) && SameMasks(b'.value.excepts, a.ch.excepts)
      && SameMasks(b'.value.invex, a.ch.invex) && SameUsers(a.ch, a.ids, b'.value, ids)
  {
    hide ReceiveAll, SideEntries, AddMasks, ModeLines, ListLines, Enter, Render, ApplyModeString, FlagsNamed, Order;
    var him := a.ch;
    var entries := SideEntries(a);
    var first := [FJoin(Burst(him.created, Render(him.modes), entries))];
    ReceiveAppend(None, name, now, known, first + ModeLines(him), ListLines(him));
    ReceiveAppend(None, name, now, known, first, ModeLines(him));
    ReceiveOne(None, name, now, known, first);
    RenderNames(him.modes);
    AdditiveModes(NewChannel(name, now).modes, Render(him.modes));
    var joined := FjoinRecv(None, name, now, first[0].burst, known);
    ReceiveModes(joined, him, name, now, known);
    var c := ReceiveAll(Some(joined), name, now, known, ModeLines(him)).value;
    ReceiveLists(c, him, name, now, known);
    OneSidedUsers(a, known, c, ids);
  }

  lemma OneSidedUsers(a: Side, known: set<string>, c: Channel, ids: map<Uid, string>)
    requires Ready(a) && forall id :: LocalId(a, id) ==> id in known
    requires c.members == map[] && c.rmembers == Enter(map[], SideEntries(a), known, true)
    ensures SameUsers(a.ch, a.ids, c, ids)
  {
    hide Enter, SideEntries, FlagsKnown, Order, Status;
    forall id, st ensures HasStatus(a.ch, a.ids, id, st) <==> HasStatus(c, ids, id, st) {
      Entered(a, known, true, id);
    }
  }

  /** The network-staff prefix and configured ones are not arbitrated: on the losing side they survive locally only. */
  lemma StaffPrefixSplits(a: Side, b: Side, knownA: set<string>, knownB: set<string>, u: Uid)
    requires Ready(a) && Ready(b) && Introduced(a, b, knownA, knownB)
    requires a.ch.created < b.ch.created && u in b.ch.members
    ensures var a' := AfterBurst(a.ch, b.ch, SideEntries(b), knownA);
      var b' := AfterBurst(b.ch, a.ch, SideEntries(a), knownB);
      && b.ids[u] in a'.rmembers && u in b'.members
      && (a'.rmembers[b.ids[u]].prefixes == b'.members[u].prefixes <==> Oper !in b.ch.members[u].prefixes)
      && (a'.rmembers[b.ids[u]] == b'.members[u] <==>
            Oper !in b.ch.members[u].prefixes && b.ch.members[u].customs == [])
  {
    hide Enter, SideEntries, AddMasks, FlagsKnown, Order;
    assert ClearAll(a.ch.rmembers) == map[];
    Entered(b, knownA, false, b.ids[u]);
    OnlyStaffLeft(b.ch.members[u].prefixes);
  }

  lemma OnlyStaffLeft(p: set<Prefix>)
    ensures p - STATUS == {} <==> Oper !in p
  {
    if Oper in p {
      assert Oper in p - STATUS;
    } else {
      forall x | x in p ensures x in STATUS {
        assert x.Owner? || x.Admin? || x.Op? || x.Halfop? || x.Voice?;
      }
    }
  }
}
