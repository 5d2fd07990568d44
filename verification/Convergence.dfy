/**
 * Two servers link and their users come and go, every line delivered before the next user acts: the servers agree on
 * every channel's timestamp and modes.
 */
module Convergence {
  import opened Wrappers
  import opened Channels
  import opened ChannelMerge
  import opened ServerState
  import opened MembershipInvariant
  import opened NickInvariant
  import opened ServerRuns
  import opened MembershipViews
  import opened LocalLines
  import opened CrossedBursts
  import opened Netburst
  import opened TwoServers

  // ----- what two servers agree on -----

  function At(s: Server, k: string): Option<Channel> {
    if k in s.channels then Some(s.channels[k]) else None
  }

  predicate SameLists(x: Channel, y: Channel) {
    SameMasks(x.bans, y.bans) && SameMasks(x.excepts, y.excepts) && SameMasks(x.invex, y.invex)
  }

  predicate SameSettings(x: Channel, y: Channel) {
    x.created == y.created && x.modes == y.modes && SameLists(x, y)
  }

  /** Both absent, or equal timestamp, flags, key, limit and masks, and the same other modes set. */
  predicate Alike(x: Option<Channel>, y: Option<Channel>) {
    x.Some? == y.Some? && (x.Some? ==> SameSettings(x.value, y.value))
  }

  ghost predicate Agree(a: Server, b: Server) {
    forall k :: Alike(At(a, k), At(b, k))
  }

  // ----- what has to hold when they link -----

  predicate Peopled(x: Option<Channel>) {
    x.Some? && x.value.members != map[]
  }

  predicate Within(mine: Option, theirs: Option) {
    mine.Some? ==> theirs.Some?
  }

  predicate MasksWithin(x: Channel, y: Channel) {
    && (forall m :: m in x.bans ==> m in y.bans) && (forall m :: m in x.excepts ==> m in y.excepts)
    && forall m :: m in x.invex ==> m in y.invex
  }

  /** A side without members follows this burst: it has no such channel, lost the time war, or adds nothing. */
  predicate Follows(ch: Channel, other: Option<Channel>) {
    if other.None? then {'n', 't'} <= ch.modes.flags && ch.modes.others == {}
    else
      var o := other.value;
      (ch.created < o.created && ch.modes.others == {}) ||
      (ch.created == o.created && o.modes.flags <= ch.modes.flags && o.modes.others == ch.modes.others &&
       MasksWithin(o, ch) && Within(o.modes.key, ch.modes.key) && Within(o.modes.limit, ch.modes.limit))
  }

  /** What the two sides of a channel must be at link time. Only a side with local members is bursted. */
  predicate Linkable(x: Option<Channel>, y: Option<Channel>) {
    if Peopled(x) && Peopled(y) then
      OthersMeet(x.value, y.value) &&
      (x.value.created != y.value.created ||
       (!Conflict(x.value.modes.key, y.value.modes.key) && !Conflict(x.value.modes.limit, y.value.modes.limit)))
    else if Peopled(x) then Follows(x.value, y)
    else if Peopled(y) then Follows(y.value, x)
    else Alike(x, y)
  }

  // ----- what bursts do to timestamp and modes -----

  lemma ReceiveAlike(
    x: Option<Channel>, y: Option<Channel>, n: string, m: string, t: nat, u: nat, p: set<string>, q: set<string>,
    l: Line)
    requires Alike(x, y)
    ensures Alike(Receive(x, n, t, p, l), Receive(y, m, u, q, l))
  {
    hide ApplyModeString, Enter, Changed;
    if l.FMode? && x.Some? { ChangedAlike(x.value, y.value, l.change); }
  }

  lemma MasksAlike(x: seq<string>, y: seq<string>, m: string)
    requires SameMasks(x, y)
    ensures SameMasks(WithMask(x, m), WithMask(y, m)) && SameMasks(WithoutMask(x, m), WithoutMask(y, m))
  {
    var p, q := WithoutMask(x, m), WithoutMask(y, m);
    forall k | 0 <= k < |p| ensures p[k] in q { assert p[k] in p; }
    forall k | 0 <= k < |q| ensures q[k] in p { assert q[k] in q; }
  }

  lemma ChangedAlike(x: Channel, y: Channel, c: Change)
    requires SameSettings(x, y)
    ensures SameSettings(Changed(x, c), Changed(y, c))
  {
    hide Ranked, SetFlag, SameMasks, WithMask, WithoutMask;
    if c.AddMask? || c.DropMask? {
      MasksAlike(x.bans, y.bans, c.mask);
      MasksAlike(x.excepts, y.excepts, c.mask);
      MasksAlike(x.invex, y.invex, c.mask);
    }
  }

  lemma {:induction false} ReceiveAllAlike(
    x: Option<Channel>, y: Option<Channel>, n: string, m: string, t: nat, u: nat, p: set<string>, q: set<string>,
    ls: seq<Line>)
    requires Alike(x, y)
    ensures Alike(ReceiveAll(x, n, t, p, ls), ReceiveAll(y, m, u, q, ls))
    decreases |ls|
  {
    hide Alike, Receive;
    if ls != [] {
      ReceiveAlike(x, y, n, m, t, u, p, q, ls[0]);
      ReceiveAllAlike(Receive(x, n, t, p, ls[0]), Receive(y, m, u, q, ls[0]), n, m, t, u, p, q, ls[1..]);
    }
  }

  /** The members a burst lists do not matter here. */
  lemma EntriesAlike(x: Option<Channel>, y: Option<Channel>, ch: Channel, e: seq<Entry>, n: string, m: string)
    requires Alike(x, y)
    ensures Alike(ReceiveAll(x, n, 0, {}, BurstLines(ch, e)), ReceiveAll(y, m, 0, {}, BurstLines(ch, [])))
  {
    hide ModeLines, ListLines, Render;
    var tail := ModeLines(ch) + ListLines(ch);
    var f, g := FJoin(Burst(ch.created, Render(ch.modes), e)), FJoin(Burst(ch.created, Render(ch.modes), []));
    assert BurstLines(ch, e) == [f] + tail && BurstLines(ch, []) == [g] + tail;
    assert Alike(Receive(x, n, 0, {}, f), Receive(y, m, 0, {}, g)) by { JoinsAlike(x, y, n, m, f.burst, g.burst); }
    assert ([f] + tail)[1..] == tail && ([g] + tail)[1..] == tail;
    ReceiveAllAlike(Receive(x, n, 0, {}, f), Receive(y, m, 0, {}, g), n, m, 0, 0, {}, {}, tail);
  }

  lemma JoinsAlike(x: Option<Channel>, y: Option<Channel>, n: string, m: string, f: Burst, g: Burst)
    requires Alike(x, y) && f.ts == g.ts && f.modes == g.modes
    ensures Alike(Some(FjoinRecv(x, n, 0, f, {})), Some(FjoinRecv(y, m, 0, g, {})))
  {
    hide ApplyModeString, Enter;
  }

  /** One side after the other's burst, if there is one. */
  function After(me: Option<Channel>, him: Option<Channel>): Option<Channel> {
    if Peopled(him) then ReceiveAll(me, "", 0, {}, BurstLines(him.value, [])) else me
  }

  ghost predicate KnownFlags(x: Option<Channel>) {
    x.Some? ==> FlagsKnown(x.value.modes)
  }

  lemma AfterHeld(me: Channel, him: Option<Channel>)
    requires Peopled(him) && KnownFlags(him)
    ensures After(Some(me), him) == Some(AfterBurst(me, him.value, [], {}))
  {
    hide ReceiveAll, AfterBurst, BurstLines;
    BurstReceived(me, him.value, [], "", 0, {});
  }

  /** A channel first heard of: the sender's time, key and limit, and its flags on top of n and t. */
  lemma AfterFresh(him: Option<Channel>)
    requires Peopled(him) && KnownFlags(him)
    ensures var r, ch := After(None, him), him.value;
      r.Some? && r.value.created == ch.created && SameLists(r.value, ch) &&
      r.value.modes == ch.modes.(flags := {'n', 't'} + ch.modes.flags, others := {})
  {
    hide ReceiveAll, ModeLines, ListLines, Enter, Render, ApplyModeString, FlagsNamed, AddMasks;
    var ch := him.value;
    var first := [FJoin(Burst(ch.created, Render(ch.modes), []))];
    ReceiveAppend(None, "", 0, {}, first + ModeLines(ch), ListLines(ch));
    ReceiveAppend(None, "", 0, {}, first, ModeLines(ch));
    ReceiveOne(None, "", 0, {}, first);
    RenderNames(ch.modes);
    AdditiveModes(NewChannel("", 0).modes, Render(ch.modes));
    var joined := FjoinRecv(None, "", 0, first[0].burst, {});
    ReceiveModes(joined, ch, "", 0, {});
    ReceiveLists(ReceiveAll(Some(joined), "", 0, {}, ModeLines(ch)).value, ch, "", 0, {});
  }

  /** The two sides are alike after both bursts exactly when they were linkable. */
  lemma LinkableExact(x: Option<Channel>, y: Option<Channel>)
    requires KnownFlags(x) && KnownFlags(y)
    ensures Alike(After(x, y), After(y, x)) <==> Linkable(x, y)
  {
    hide After, AfterBurst, FlagsKnown, Follows;
    if Peopled(x) && Peopled(y) {
      AfterHeld(x.value, y);
      AfterHeld(y.value, x);
      SettingsAgree(x.value, y.value, [], [], {}, {});
    } else if Peopled(x) {
      assert After(x, y) == x by { NotBursted(x, y); }
      OneSide(x, y);
    } else if Peopled(y) {
      assert After(y, x) == y by { NotBursted(y, x); }
      OneSide(y, x);
    } else {
      NotBursted(x, y);
      NotBursted(y, x);
    }
  }

  lemma NotBursted(x: Option<Channel>, y: Option<Channel>)
    requires !Peopled(y)
    ensures After(x, y) == x
  {
  }

  lemma OneSide(x: Option<Channel>, y: Option<Channel>)
    requires Peopled(x) && KnownFlags(x)
    ensures Alike(x, After(y, x)) <==> Follows(x.value, y)
  {
    hide After, FlagsKnown, Enter, AddMasks;
    if y.None? {
      AfterFresh(x);
      assert {'n', 't'} + x.value.modes.flags == x.value.modes.flags <==> {'n', 't'} <= x.value.modes.flags;
    } else {
      AfterHeld(y.value, x);
      var f, g := x.value.modes.flags, y.value.modes.flags;
      assert {} + f == f;
      assert g + f == f <==> g <= f;
    }
  }

  // ----- channel lines in flight -----

  /** The lines of a queue that concern one channel. */
  function ForKey(q: seq<Wire>, k: string): seq<Line> {
    if q == [] then []
    else (if q[0].ChanW? && Fold(q[0].chan) == k then [q[0].line] else []) + ForKey(q[1..], k)
  }

  /** A channel once the queue has been handled. */
  function Pending(x: Option<Channel>, q: seq<Wire>, k: string): Option<Channel> {
    ReceiveAll(x, "", 0, {}, ForKey(q, k))
  }

  lemma {:induction false} ForKeyAppend(p: seq<Wire>, q: seq<Wire>, k: string)
    ensures ForKey(p + q, k) == ForKey(p, k) + ForKey(q, k)
    decreases |p|
  {
    hide Fold;
    if p == [] {
      assert p + q == q;
    } else {
      assert (p + q)[1..] == p[1..] + q;
      ForKeyAppend(p[1..], q, k);
    }
  }

  lemma {:induction false} ForKeyNone(q: seq<Wire>, k: string)
    requires forall i :: 0 <= i < |q| ==> q[i].ChanW? ==> Fold(q[i].chan) != k
    ensures ForKey(q, k) == []
    decreases |q|
  {
    hide Fold;
    if q != [] { ForKeyNone(q[1..], k); }
  }

  lemma PendingAppend(x: Option<Channel>, p: seq<Wire>, q: seq<Wire>, k: string)
    ensures Pending(x, p + q, k) == Pending(Pending(x, p, k), q, k)
  {
    ForKeyAppend(p, q, k);
    ReceiveAppend(x, "", 0, {}, ForKey(p, k), ForKey(q, k));
  }

  lemma PendingAlike(x: Option<Channel>, y: Option<Channel>, q: seq<Wire>, k: string)
    requires Alike(x, y)
    ensures Alike(Pending(x, q, k), Pending(y, q, k))
  {
    ReceiveAllAlike(x, y, "", "", 0, 0, {}, {}, ForKey(q, k));
  }

  // ----- the burst, channel by channel -----

  lemma {:induction false} UserLinesQuiet(s: Server, us: seq<Uid>, k: string)
    requires forall u :: u in us ==> u in s.users
    ensures ForKey(UserLines(s, us), k) == []
    decreases |us|
  {
    if us != [] { UserLinesQuiet(s, us[1..], k); }
  }

  lemma {:induction false} SentFor(chan: string, ls: seq<Line>, k: string)
    ensures ForKey(Sent(chan, ls), k) == if Fold(chan) == k then ls else []
    decreases |ls|
  {
    hide Fold;
    if ls != [] {
      SentFor(chan, ls[1..], k);
      FirstFor(chan, ls[0], Sent(chan, ls[1..]), k);
      assert [ls[0]] + ls[1..] == ls;
    }
  }

  lemma ChannelBurstFor(s: Server, key: string, order: seq<Uid>, k: string)
    requires Meets(s, key, order) && ChanNamed(s.channels)
    ensures ForKey(ChannelBurst(s, key, order), k) ==
      if k == key && order != [] then BurstLines(s.channels[k], Entries(s.channels[k], Uuids(s), order)) else []
  {
    hide Fold, BurstLines, ModeLetters;
    if order != [] {
      var ch := s.channels[key];
      assert NamedAs(ch.name, key);
      SentFor(ch.name, BurstLines(ch, Entries(ch, Uuids(s), order)), k);
    }
  }

  lemma {:induction false} ChannelBurstsFor(s: Server, ks: seq<string>, members: map<string, seq<Uid>>, k: string)
    requires forall x :: x in ks ==> x in members && Meets(s, x, members[x])
    requires ChanNamed(s.channels) && Once(ks)
    ensures ForKey(ChannelBursts(s, ks, members), k) ==
      if k in ks then ForKey(ChannelBurst(s, k, members[k]), k) else []
    decreases |ks|
  {
    hide Meets, ChannelBurst, ChanNamed, ForKey;
    if ks != [] {
      var first, rest := ks[0], ks[1..];
      assert forall x :: x in ks <==> x == first || x in rest;
      assert first !in rest;
      ForKeyAppend(ChannelBurst(s, first, members[first]), ChannelBursts(s, rest, members), k);
      ChannelBurstsFor(s, rest, members, k);
      if k != first {
        ChannelBurstFor(s, first, members[first], k);
      }
    } else {
      assert ForKey([], k) == [] by { EmptyFor(k); }
    }
  }

  lemma EmptyFor(k: string)
    ensures ForKey([], k) == []
  {
  }

  /** On a channel alike to `x`, the whole netburst does what the burst of that channel does. */
  lemma BurstPending(s: Server, o: Walk, x: Option<Channel>, y: Option<Channel>, k: string)
    requires Walkable(s, o) && ChanNamed(s.channels) && Alike(x, y)
    ensures Alike(Pending(x, BurstOf(s, o), k), After(y, At(s, k)))
  {
    hide Meets, ChanNamed, Order, ForKey, BurstLines, Entries, Alike, ReceiveAll, Uuids, UserLines, ChannelBurst,
      ChannelBursts;
    var us, cs := UserLines(s, o.users), ChannelBursts(s, o.channels, o.members);
    ForKeyAppend(us, cs, k);
    UserLinesQuiet(s, o.users, k);
    ChannelBurstsFor(s, o.channels, o.members, k);
    assert ForKey(BurstOf(s, o), k) == ForKey(cs, k) by { assert [] + ForKey(cs, k) == ForKey(cs, k); }
    if k in s.channels {
      var order, ch := o.members[k], s.channels[k];
      WalkPeopled(order, ch);
      if order != [] {
        OneBurst(s, k, order, x, y);
      } else {
        ChannelBurstFor(s, k, order, k);
        NothingReceived(x);
      }
    } else {
      NothingReceived(x);
    }
  }

  lemma OneBurst(s: Server, k: string, order: seq<Uid>, x: Option<Channel>, y: Option<Channel>)
    requires Meets(s, k, order) && ChanNamed(s.channels) && order != [] && Alike(x, y)
    ensures Alike(ReceiveAll(x, "", 0, {}, ForKey(ChannelBurst(s, k, order), k)),
                  ReceiveAll(y, "", 0, {}, BurstLines(s.channels[k], [])))
  {
    hide ForKey, BurstLines, Alike, ReceiveAll, ChannelBurst, ChanNamed;
    var ch := s.channels[k];
    ChannelBurstFor(s, k, order, k);
    EntriesAlike(x, y, ch, Entries(ch, Uuids(s), order), "", "");
  }

  lemma NothingReceived(x: Option<Channel>)
    ensures ReceiveAll(x, "", 0, {}, []) == x
  {
  }

  lemma WalkPeopled(order: seq<Uid>, ch: Channel)
    requires Order(order, ch)
    ensures order != [] <==> ch.members != map[]
  {
    if order != [] { assert order[0] in ch.members; }
    if ch.members != map[] {
      var u :| u in ch.members;
      assert u in order;
    }
  }

  // ----- the handshake -----

  /** Lines of a handshake: no single user comes or goes. */
  ghost predicate Early(q: seq<Wire>) {
    forall i :: 0 <= i < |q| ==> !(q[i].IjoinW? || q[i].PartW? || q[i].QuitW?)
  }

  /** Once the queue is handled, every channel is what the peer's burst (if it was sent) made of it. */
  ghost predicate Inbound(was: Server, me: Server, q: seq<Wire>, peer: Server, bursted: bool) {
    && Early(q)
    && forall k :: Alike(Pending(At(me, k), q, k), if bursted then After(At(was, k), At(peer, k)) else At(was, k))
  }

  /** Between the first SERVER line and the last line of the bursts, seen from how the servers were. */
  ghost predicate Shaking(was: Net, n: Net) {
    && Inbound(was.a, n.a, n.ba, was.b, Up(n.b, n.lb)) && Inbound(was.b, n.b, n.ab, was.a, Up(n.a, n.la))
    && (!Up(n.a, n.la) ==> n.a.channels == was.a.channels) && (!Up(n.b, n.lb) ==> n.b.channels == was.b.channels)
  }

  lemma ShakingSwap(was: Net, n: Net)
    ensures Shaking(was, n) <==> Shaking(Swap(was), Swap(n))
  {
  }

  lemma GreetingShakes(n: Net)
    requires Greeting(n)
    ensures Shaking(n, n)
  {
    hide NodeOk, Fold;
    forall k ensures Pending(At(n.a, k), n.ba, k) == At(n.a, k) && Pending(At(n.b, k), n.ab, k) == At(n.b, k) {
      ForKeyNone(n.ba, k);
      ForKeyNone(n.ab, k);
      NothingReceived(At(n.a, k));
      NothingReceived(At(n.b, k));
    }
  }

  /** Lines that leave every channel alone. */
  predicate Silent(w: Wire) {
    w.ServerW? || w.UidW? || w.NickW? || w.SaveW?
  }

  lemma SilentKeeps(s: Server, link: Uid, peer: string, w: Wire, now: nat)
    requires w.UidW? || w.NickW? || w.SaveW?
    ensures Recv(s, link, peer, w, now).channels == s.channels
  {
    hide UidRecv, NickRecv, SaveRecv, OnlyNames;
    match w {
      case UidW(uuid, ts, nick, ident, ip) => UidChannels(s, link, peer, w, now);
      case NickW(uuid, nick, ts) =>
        NickRecvOnly(s, link, uuid, nick, ts, now);
        OnlyNamesChannels(s, NickRecv(s, link, uuid, nick, ts, now));
      case SaveW(uuid, ts) =>
        SaveRecvOnly(s, uuid, ts, now);
        OnlyNamesChannels(s, SaveRecv(s, uuid, ts, now));
    }
  }

  lemma SilentPending(x: Option<Channel>, w: Wire, q: seq<Wire>, k: string)
    requires Silent(w)
    ensures Pending(x, [w] + q, k) == Pending(x, q, k)
  {
    assert ([w] + q)[1..] == q;
    assert [] + ForKey(q, k) == ForKey(q, k);
  }

  /** Handling a channel line is what the line was pending for. */
  lemma ChanPending(s: Server, chan: string, line: Line, now: nat, q: seq<Wire>, k: string)
    ensures Alike(Pending(At(ChanRecv(s, chan, line, now), k), q, k), Pending(At(s, k), [ChanW(chan, line)] + q, k))
  {
    hide Fold, Receive, Enterable, Alike, ReceiveAll, ForKey, ChanRecv;
    var t := ChanRecv(s, chan, line, now);
    FirstFor(chan, line, q, k);
    ChanAt(s, chan, line, now, k);
    if k == Fold(chan) {
      AlikeSelf(At(s, k));
      ReceiveAlike(At(s, k), At(s, k), chan, "", now, 0, Enterable(s), {}, line);
      ReceiveFirst(At(s, k), line, ForKey(q, k));
      PendingAlike(At(t, k), Receive(At(s, k), "", 0, {}, line), q, k);
    } else {
      AlikeSelf(Pending(At(s, k), q, k));
    }
  }

  lemma FirstFor(chan: string, line: Line, q: seq<Wire>, k: string)
    ensures ForKey([ChanW(chan, line)] + q, k) == if Fold(chan) == k then [line] + ForKey(q, k) else ForKey(q, k)
  {
    hide Fold;
    assert ([ChanW(chan, line)] + q)[1..] == q;
    assert [] + ForKey(q, k) == ForKey(q, k);
  }

  lemma ChanAt(s: Server, chan: string, line: Line, now: nat, k: string)
    ensures At(ChanRecv(s, chan, line, now), k) ==
      if k == Fold(chan) then Receive(At(s, k), chan, now, Enterable(s), line) else At(s, k)
  {
    hide Fold, Receive, Enterable;
    ReceiveSome(At(s, k), chan, now, Enterable(s), line);
  }

  lemma AlikeSelf(x: Option<Channel>)
    ensures Alike(x, x)
  {
  }

  lemma ReceiveSome(x: Option<Channel>, name: string, now: nat, known: set<string>, line: Line)
    ensures x.Some? ==> Receive(x, name, now, known, line).Some?
  {
    hide FjoinRecv, Changed;
  }

  lemma ReceiveFirst(x: Option<Channel>, line: Line, ls: seq<Line>)
    ensures ReceiveAll(x, "", 0, {}, [line] + ls) == ReceiveAll(Receive(x, "", 0, {}, line), "", 0, {}, ls)
  {
    hide Receive;
    assert ([line] + ls)[1..] == ls;
  }

  /** Handling the first line of a queue brings no channel anywhere else. */
  lemma RecvPending(s: Server, link: Uid, peer: string, w: Wire, now: nat, q: seq<Wire>, k: string)
    requires Early([w]) && !w.ServerW?
    ensures Alike(Pending(At(Recv(s, link, peer, w, now), k), q, k), Pending(At(s, k), [w] + q, k))
  {
    hide Pending, Alike, ChanRecv, UidRecv, NickRecv, SaveRecv, IjoinRecv, PartRecv, QuitRecv;
    assert [w][0] == w;
    match w {
      case ChanW(chan, line) => ChanPending(s, chan, line, now, q, k);
      case _ =>
        SilentKeeps(s, link, peer, w, now);
        SilentPending(At(s, k), w, q, k);
        AlikeSelf(Pending(At(s, k), q, k));
    }
  }

  lemma {:induction false} RenamesPending(x: Option<Channel>, ws: seq<Wire>, k: string)
    requires forall i :: 0 <= i < |ws| ==> ws[i].NickW? || ws[i].SaveW?
    ensures Pending(x, ws, k) == x
  {
    ForKeyNone(ws, k);
  }

  lemma {:induction false} UserLinesEarly(s: Server, us: seq<Uid>)
    requires forall u :: u in us ==> u in s.users
    ensures Early(UserLines(s, us))
    decreases |us|
  {
    if us != [] { UserLinesEarly(s, us[1..]); }
  }

  lemma {:induction false} SentEarly(chan: string, ls: seq<Line>)
    ensures Early(Sent(chan, ls))
    decreases |ls|
  {
    if ls != [] { SentEarly(chan, ls[1..]); }
  }

  lemma {:induction false} ChannelBurstsEarly(s: Server, ks: seq<string>, members: map<string, seq<Uid>>)
    requires forall k :: k in ks ==> k in members && Meets(s, k, members[k])
    ensures Early(ChannelBursts(s, ks, members))
    decreases |ks|
  {
    hide BurstLines, ModeLetters;
    if ks != [] {
      var ch := s.channels[ks[0]];
      if members[ks[0]] != [] {
        SentEarly(ch.name, BurstLines(ch, Entries(ch, Uuids(s), members[ks[0]])));
      }
      ChannelBurstsEarly(s, ks[1..], members);
    }
  }

  lemma BurstEarly(s: Server, o: Walk)
    requires Walkable(s, o)
    ensures Early(BurstOf(s, o))
  {
    hide Meets, Order;
    UserLinesEarly(s, o.users);
    ChannelBurstsEarly(s, o.channels, o.members);
  }

  /** The receiver's end: one line less to handle. */
  lemma InboundHandled(was: Server, me: Server, q: seq<Wire>, peer: Server, bursted: bool, t: Server)
    requires Inbound(was, me, q, peer, bursted) && q != []
    requires forall k :: Alike(Pending(At(t, k), q[1..], k), Pending(At(me, k), q, k))
    ensures Inbound(was, t, q[1..], peer, bursted)
  {
    hide Pending, At, After;
  }

  /** The sender's end: more lines that change nothing here. */
  lemma InboundRenames(was: Server, me: Server, q: seq<Wire>, peer: Server, bursted: bool, ws: seq<Wire>)
    requires Inbound(was, me, q, peer, bursted) && forall i :: 0 <= i < |ws| ==> ws[i].NickW? || ws[i].SaveW?
    ensures Inbound(was, me, q + ws, peer, bursted)
  {
    hide Pending, At, After, Alike;
    forall k ensures Pending(At(me, k), q + ws, k) == Pending(At(me, k), q, k) {
      PendingAppend(At(me, k), q, ws, k);
      RenamesPending(Pending(At(me, k), q, k), ws, k);
    }
  }

  /** The burst goes out: from now on the channels become what it makes of them. */
  lemma InboundBurst(was: Server, me: Server, q: seq<Wire>, peer: Server, t: Server, o: Walk)
    requires Inbound(was, me, q, peer, false) && Walkable(t, o) && ChanNamed(t.channels) && t.channels == peer.channels
    ensures Inbound(was, me, q + BurstOf(t, o), peer, true)
  {
    hide Pending, After, Alike, BurstOf, Walkable, ChanNamed;
    BurstEarly(t, o);
    forall k ensures Alike(Pending(At(me, k), q + BurstOf(t, o), k), After(At(was, k), At(peer, k))) {
      PendingAppend(At(me, k), q, BurstOf(t, o), k);
      BurstPending(t, o, Pending(At(me, k), q, k), At(was, k), k);
      assert At(t, k) == At(peer, k);
    }
  }

  lemma ShakeOn(was: Net, n: Net, d: Delivery)
    requires NetOk(n) && Shaking(was, n) && Deliverable(n, d)
    ensures Shaking(was, DeliverToB(n, d))
  {
    hide NodeOk, Flow, Recv, BurstOf, Walkable, Inbound;
    if n.ab[0].ServerW? {
      ShakeGreeted(was, n, d);
    } else {
      ShakeHandled(was, n, d);
    }
  }

  lemma ShakeHandled(was: Net, n: Net, d: Delivery)
    requires NetOk(n) && Shaking(was, n) && Deliverable(n, d) && !n.ab[0].ServerW?
    ensures Shaking(was, DeliverToB(n, d))
  {
    hide NodeOk, Recv, BurstOf, Walkable, Pending, Alike, LocalView, RemoteView, ReplayAll, WellSent, At, After;
    var w, rest := n.ab[0], n.ab[1..];
    var t := Recv(n.b, n.lb, n.a.sid, w, d.now);
    assert Up(n.b, n.lb) && WellSent(w, n.a.sid);
    RecvKeepsNode(n.b, n.lb, n.a.sid, w, d.now);
    assert n.ab == [w] + rest && Early([w]);
    forall k ensures Alike(Pending(At(t, k), rest, k), Pending(At(n.b, k), n.ab, k)) {
      RecvPending(n.b, n.lb, n.a.sid, w, d.now, rest, k);
    }
    hide Inbound;
    InboundHandled(was.b, n.b, n.ab, was.a, Up(n.a, n.la), t);
    InboundRenames(was.a, n.a, n.ba, was.b, true, d.renames);
  }

  lemma ShakeGreeted(was: Net, n: Net, d: Delivery)
    requires NetOk(n) && Shaking(was, n) && Deliverable(n, d) && n.ab[0].ServerW?
    ensures Shaking(was, DeliverToB(n, d))
  {
    hide NodeOk, Recv, BurstOf, Walkable, Pending, Alike, LocalView, RemoteView, ReplayAll, WellSent, At, After,
      Inbound;
    var w, rest := n.ab[0], n.ab[1..];
    var t := Recv(n.b, n.lb, n.a.sid, w, d.now);
    assert !Up(n.b, n.lb) && WellSent(w, n.a.sid);
    LinkedUp(n.b, n.lb, n.a.sid, w, d.now);
    LinkedChannels(n.b, n.lb, n.a.sid, w, d.now);
    assert n.ab == [w] + rest;
    forall k ensures Alike(Pending(At(t, k), rest, k), Pending(At(n.b, k), n.ab, k)) {
      SameAt(n.b, t, k);
      SilentPending(At(n.b, k), w, rest, k);
      AlikeSelf(Pending(At(n.b, k), rest, k));
    }
    InboundHandled(was.b, n.b, n.ab, was.a, Up(n.a, n.la), t);
    NodeNamed(t, n.lb, n.a.sid);
    InboundBurst(was.a, n.a, n.ba, was.b, t, d.walk);
  }

  lemma SameAt(s: Server, t: Server, k: string)
    requires t.channels == s.channels
    ensures At(t, k) == At(s, k)
  {
  }

  lemma NodeNamed(s: Server, link: Uid, peer: string)
    requires NodeOk(s, link, peer)
    ensures ChanNamed(s.channels)
  {
  }

  lemma LinkedChannels(s: Server, link: Uid, peer: string, w: Wire, now: nat)
    requires NodeOk(s, link, peer) && !Up(s, link) && w.ServerW? && WellSent(w, peer)
    ensures Recv(s, link, peer, w, now).channels == s.channels
  {
    hide CloseLink, Tidy, OfPeer;
  }

  predicate Quiet(n: Net) {
    n.ab == [] && n.ba == []
  }

  lemma QuietUp(n: Net)
    requires NetOk(n) && Quiet(n)
    ensures Up(n.a, n.la) && Up(n.b, n.lb)
  {
    hide NodeOk, LocalView, RemoteView, ReplayAll, WellSent;
  }

  /** Nothing left in flight: each channel is alike at both ends iff it was linkable. */
  lemma ShakenExact(was: Net, n: Net, k: string)
    requires NetOk(n) && Shaking(was, n) && Quiet(n) && KnownFlags(At(was.a, k)) && KnownFlags(At(was.b, k))
    ensures Alike(At(n.a, k), At(n.b, k)) <==> Linkable(At(was.a, k), At(was.b, k))
  {
    hide NetOk, After, At, KnownFlags, Linkable;
    QuietUp(n);
    NothingReceived(At(n.a, k));
    NothingReceived(At(n.b, k));
    LinkableExact(At(was.a, k), At(was.b, k));
  }

  // ----- a user acts and the peer hears of it -----

  /** Channels may have been reaped, but those that are left kept their time and modes. */
  ghost predicate Reaped(c: map<string, Channel>, d: map<string, Channel>) {
    && (forall k :: k in d ==>
          k in c && SameSettings(d[k], c[k]) && KeepAlive(d[k]))
    && (forall k :: k in c && k !in d ==> 'P' !in c[k].modes.flags && 'r' !in c[k].modes.flags)
  }

  lemma ReapReaped(c: map<string, Channel>, m: map<string, Channel>)
    requires m.Keys == c.Keys && forall k :: k in c ==> SameSettings(m[k], c[k])
    ensures Reaped(c, Reap(m))
  {
    assert forall k :: k in m <==> k in m.Keys;
  }

  /** A channel with anybody on it is seen. */
  lemma Seen(s: Server, k: string)
    requires MemberInv(s) && LocalIds(s) && k in s.channels && !IsEmpty(s.channels[k])
    ensures exists x :: (k, x) in LocalView(s).on || (k, x) in RemoteView(s).on
  {
    var ch := s.channels[k];
    if ch.members != map[] {
      var u :| u in ch.members;
      assert Holds(s.channels, k, u);
      assert Lists(s.users, u, k);
      var x := s.users[u].uuid;
      assert Maps(s.uuidLocal, x, u);
      assert (k, x) in LocalView(s).on;
    } else {
      var x :| x in ch.rmembers;
      assert (k, x) in RemoteView(s).on;
    }
  }

  lemma ViewHeld(s: Server, k: string, x: string)
    ensures (k, x) in LocalView(s).on || (k, x) in RemoteView(s).on ==> k in s.channels
  {
  }

  /** Two servers that agreed and show each other's members reap the same channels. */
  lemma ReapedAlike(a: Server, b: Server, a': Server, b': Server, k: string)
    requires Agree(a, b) && Reaped(a.channels, a'.channels) && Reaped(b.channels, b'.channels)
    requires MemberInv(a') && LocalIds(a') && LocalView(a') == RemoteView(b') && RemoteView(a') == LocalView(b')
    ensures k in a'.channels ==> k in b'.channels && Alike(At(a', k), At(b', k))
  {
    hide MemberInv, LocalIds, LocalView, RemoteView, SameMasks;
    assert Alike(At(a, k), At(b, k));
    if k in a'.channels && k in b'.channels {
      SameListsThen(a'.channels[k], a.channels[k], b.channels[k]);
      SameListsThen(a'.channels[k], b.channels[k], b'.channels[k]);
    }
    if k in a'.channels && k !in b'.channels {
      Seen(a', k);
      var x :| (k, x) in LocalView(a').on || (k, x) in RemoteView(a').on;
      ViewHeld(b', k, x);
    }
  }

  lemma SameListsThen(x: Channel, y: Channel, z: Channel)
    requires SameLists(x, y) && (SameLists(y, z) || SameLists(z, y))
    ensures SameLists(x, z)
  {
  }

  lemma ReapedAgree(a: Server, b: Server, a': Server, b': Server)
    requires Agree(a, b) && Reaped(a.channels, a'.channels) && Reaped(b.channels, b'.channels)
    requires MemberInv(a') && LocalIds(a') && MemberInv(b') && LocalIds(b')
    requires LocalView(a') == RemoteView(b') && RemoteView(a') == LocalView(b')
    ensures Agree(a', b')
  {
    hide MemberInv, LocalIds, LocalView, RemoteView, Reaped;
    assert Agree(b, a);
    forall k ensures Alike(At(a', k), At(b', k)) {
      ReapedAlike(a, b, a', b', k);
      ReapedAlike(b, a, b', a', k);
    }
  }

  /** What the peer does with the lines `ws` sent by a step at A, if there are any. */
  ghost predicate Heard(a: Server, b: Server, lb: Uid, sid: string, ws: seq<Wire>) {
    && |ws| <= 1 && (ws == [] ==> Agree(a, b))
    && forall now: nat :: ws != [] ==> Agree(a, Recv(b, lb, sid, ws[0], now))
  }

  lemma SameChannelsAgree(a: Server, b: Server, a': Server, b': Server)
    requires Agree(a, b) && a'.channels == a.channels && b'.channels == b.channels
    ensures Agree(a', b')
  {
    forall k ensures Alike(At(a', k), At(b', k)) {
      SameAt(a, a', k);
      SameAt(b, b', k);
    }
  }

  lemma QuietStep(a: Server, b: Server, lb: Uid, e: Event)
    requires Agree(a, b) && (e.Connects? || e.Registers? || e.TakesNick?)
    ensures Heard(Step(a, e), b, lb, a.sid, Sends(a, e))
  {
    hide Agree, Recv, Fold;
    var t, ws := Step(a, e), Sends(a, e);
    assert t.channels == a.channels;
    SameChannelsAgree(a, b, t, b);
    forall now: nat | ws != [] ensures Agree(t, Recv(b, lb, a.sid, ws[0], now)) {
      SilentKeeps(b, lb, a.sid, ws[0], now);
      SameChannelsAgree(a, b, t, Recv(b, lb, a.sid, ws[0], now));
    }
  }

  /** A user removes a mask: no listed one differs from it in case only. */
  ghost predicate Spelled(s: Server, e: Event) {
    e.ModeChanged? && e.change.DropMask? && ModeApplies(s, e.uid, e.chan, e.change, e.allowed) ==>
      AsListed(MasksIn(s.channels[Fold(e.chan)], e.change.list), e.change.mask)
  }

  predicate AsListed(masks: seq<string>, mask: string) {
    forall k :: 0 <= k < |masks| && Fold(masks[k]) == Fold(mask) ==> masks[k] == mask
  }

  /** A mode change applies at both ends: the line carries the time they agree on, and only removals compare masks. */
  lemma ModeStep(a: Server, b: Server, lb: Uid, e: Event)
    requires Agree(a, b) && e.ModeChanged? && Spelled(a, e)
    ensures Heard(Step(a, e), b, lb, a.sid, Sends(a, e))
  {
    hide Fold, ChangedHere, ModeApplies, Changed, Alike, Recv, ChanRecv, Enterable, AsListed;
    if ModeApplies(a, e.uid, e.chan, e.change, e.allowed) {
      ModeSends(a, e);
      var key, t, w := Fold(e.chan), Step(a, e), Sends(a, e)[0];
      forall now: nat ensures Agree(t, Recv(b, lb, a.sid, w, now)) {
        var b' := ChanRecv(b, e.chan, w.line, now);
        RecvChan(b, lb, a.sid, w, now);
        forall k ensures Alike(At(t, k), At(b', k)) {
          assert Alike(At(a, k), At(b, k));
          ChanAt(b, e.chan, w.line, now, k);
          if k == key { ModeAlike(a, a.channels[key], At(b, key), e.change, e.chan, now, Enterable(b)); }
        }
      }
    }
  }

  /** So the peer agrees again iff a removed mask was spelled as it is listed. */
  lemma ModeExact(a: Server, b: Server, lb: Uid, e: Event)
    requires Agree(a, b) && e.ModeChanged?
    ensures Heard(Step(a, e), b, lb, a.sid, Sends(a, e)) <==> Spelled(a, e)
  {
    hide Fold, Recv, Agree, Step, Sends, ModeApplies, AsListed;
    if Spelled(a, e) {
      ModeStep(a, b, lb, e);
    } else {
      ModeSends(a, e);
      StillListed(a, b, lb, e);
    }
  }

  lemma StillListed(a: Server, b: Server, lb: Uid, e: Event)
    requires Agree(a, b) && e.ModeChanged? && !Spelled(a, e) && |Sends(a, e)| == 1
    ensures !Agree(Step(a, e), Recv(b, lb, a.sid, Sends(a, e)[0], 0))
  {
    hide Fold, Recv, Step, Sends, ChanRecv, ChangedHere, Enterable, Changed, SameFolded;
    ModeSends(a, e);
    var key, c, w := Fold(e.chan), e.change, Sends(a, e)[0];
    RecvChan(b, lb, a.sid, w, 0);
    ChanAt(b, e.chan, w.line, 0, key);
    var x := a.channels[key];
    assert Alike(At(a, key), At(b, key));
    DropDiffers(a, x, At(b, key).value, c);
    Disagree(Step(a, e), Recv(b, lb, a.sid, w, 0), key);
  }

  lemma DropDiffers(s: Server, x: Channel, y: Channel, c: Change)
    requires SameSettings(x, y) && c.DropMask? && !AsListed(MasksIn(x, c.list), c.mask)
    ensures !SameSettings(ChangedHere(s, x, c), Changed(y, c))
  {
    hide Fold;
    var masks := MasksIn(x, c.list);
    var k :| 0 <= k < |masks| && Fold(masks[k]) == Fold(c.mask) && masks[k] != c.mask;
    var m := masks[k];
    var p, q := MasksIn(ChangedHere(s, x, c), c.list), MasksIn(Changed(y, c), c.list);
    assert m in masks && m !in p && m in q;
  }

  lemma ModeSends(a: Server, e: Event)
    requires e.ModeChanged? && ModeApplies(a, e.uid, e.chan, e.change, e.allowed)
    ensures Fold(e.chan) in a.channels
    ensures Sends(a, e) == [ChanW(e.chan, FMode(a.channels[Fold(e.chan)].created, e.change))]
    ensures Step(a, e) ==
      a.(channels := a.channels[Fold(e.chan) := ChangedHere(a, a.channels[Fold(e.chan)], e.change)])
  {
    hide Fold, ChangedHere;
  }

  lemma RecvChan(b: Server, link: Uid, sid: string, w: Wire, now: nat)
    requires w.ChanW?
    ensures Recv(b, link, sid, w, now) == ChanRecv(b, w.chan, w.line, now)
  {
    hide ChanRecv;
  }

  lemma ModeAlike(a: Server, x: Channel, y: Option<Channel>, c: Change, name: string, now: nat, known: set<string>)
    requires Alike(Some(x), y) && (c.DropMask? ==> AsListed(MasksIn(x, c.list), c.mask))
    ensures Alike(Some(ChangedHere(a, x, c)), Receive(y, name, now, known, FMode(x.created, c)))
  {
    hide Ranked, SetFlag, SameMasks, WithMask, WithoutMask, WithoutFolded, AsListed;
    ChangedAlike(x, y.value, c);
    if c.DropMask? { FoldedAlike(MasksIn(x, c.list), MasksIn(y.value, c.list), c.mask); }
  }

  lemma FoldedAlike(x: seq<string>, y: seq<string>, m: string)
    requires SameMasks(x, y) && AsListed(x, m)
    ensures SameMasks(WithoutFolded(x, m), WithoutMask(y, m))
  {
    hide Fold;
    var p, q := WithoutFolded(x, m), WithoutMask(y, m);
    forall k | 0 <= k < |p| ensures p[k] in q { assert p[k] in p; }
    forall k | 0 <= k < |q| ensures q[k] in p {
      assert q[k] in q;
      assert q[k] in x && q[k] != m;
    }
  }

  /** The failing input: a ban with a capital, removed in lower case, stays at the other end. */
  lemma UnbanMissed(s: Server, x: Channel, y: Channel)
    requires x.bans == y.bans == ["*!*@Host"]
    ensures SameFolded(x.bans, "*!*@host")
    ensures ChangedHere(s, x, DropMask(Bans, "*!*@host")).bans == []
    ensures Changed(y, DropMask(Bans, "*!*@host")).bans == ["*!*@Host"]
  {
    var m, n := "*!*@Host", "*!*@host";
    assert m[4] != n[4];
    assert Fold(m) == Fold(n);
    assert x.bans[1..] == [] && WithoutFolded(x.bans[1..], n) == [] && WithoutMask(x.bans[1..], n) == [];
    assert Fold(x.bans[0]) == Fold(n) && x.bans[0] != n;
  }

  lemma JoinStep(a: Server, b: Server, lb: Uid, e: Event)
    requires Agree(a, b) && e.Joins? && ChanNamed(a.channels)
    ensures Heard(Step(a, e), b, lb, a.sid, Sends(a, e))
  {
    hide Agree, Recv, Fold, ValidChan, ModeLetters, Render, Sends;
    if Enters(a, e) {
      var key, t, ws := Fold(e.name), Step(a, e), Sends(a, e);
      JoinSends(a, e);
      forall now: nat ensures Agree(t, Recv(b, lb, a.sid, ws[0], now)) {
        if key in a.channels {
          JoinHeld(a, b, lb, e, now);
        } else {
          JoinNew(a, b, lb, e, now);
        }
      }
    } else {
      StaysOut(a, e);
    }
  }

  lemma StaysOut(a: Server, e: Event)
    requires e.Joins? && !Enters(a, e)
    ensures Step(a, e) == a && Sends(a, e) == []
  {
    hide Fold, ValidChan;
  }

  lemma JoinSends(a: Server, e: Event)
    requires e.Joins? && Enters(a, e)
    ensures var key, t, uuid := Fold(e.name), Step(a, e), a.users[e.uid].uuid;
      key in t.channels && e.uid in t.channels[key].members &&
      Sends(a, e) ==
        var ch, letters := t.channels[key], ModeLetters(t.channels[key].members[e.uid]);
        if key in a.channels then [IjoinW(uuid, ch.name, ch.created, letters)]
        else [ChanW(e.name, FJoin(Burst(e.now, Render(NewChannel(e.name, e.now).modes), [Entry(letters, uuid)])))]
  {
    hide Fold, ValidChan, ModeLetters, Render;
  }

  /** A join to a channel both hold touches no setting at either end. */
  lemma JoinHeld(a: Server, b: Server, lb: Uid, e: Event, now: nat)
    requires Agree(a, b) && e.Joins? && Enters(a, e) && Fold(e.name) in a.channels && ChanNamed(a.channels)
    requires |Sends(a, e)| == 1
    ensures Agree(Step(a, e), Recv(b, lb, a.sid, Sends(a, e)[0], now))
  {
    hide Fold, ValidChan, ModeLetters, Sends, IjoinRecv, Step, At;
    var key, t := Fold(e.name), Step(a, e);
    JoinSends(a, e);
    var w := Sends(a, e)[0];
    JoinedAlike(a, e, key);
    assert key in b.channels by {
      assert Alike(At(a, key), At(b, key));
      HeldAt(a, key);
      HeldAt(b, key);
    }
    assert Recv(b, lb, a.sid, w, now) == IjoinRecv(b, lb, w.uuid, w.chan, w.ts, w.letters);
    forall k ensures Alike(At(t, k), At(IjoinRecv(b, lb, w.uuid, w.chan, w.ts, w.letters), k)) {
      assert Alike(At(a, k), At(b, k));
      JoinedAlike(a, e, k);
      IjoinAlike(b, lb, w.uuid, w.chan, w.ts, w.letters, k);
    }
  }

  lemma HeldAt(s: Server, k: string)
    ensures At(s, k).Some? <==> k in s.channels
  {
  }

  lemma JoinedAlike(a: Server, e: Event, k: string)
    requires e.Joins? && Enters(a, e) && Fold(e.name) in a.channels && ChanNamed(a.channels)
    ensures var key, t := Fold(e.name), Step(a, e);
      Alike(At(t, k), At(a, k)) && key in t.channels && Fold(t.channels[key].name) == key
  {
    hide Fold, ValidChan;
    assert NamedAs(a.channels[Fold(e.name)].name, Fold(e.name));
  }

  lemma IjoinAlike(b: Server, lb: Uid, uuid: string, chan: string, ts: nat, letters: string, k: string)
    requires Fold(chan) in b.channels
    ensures Alike(At(IjoinRecv(b, lb, uuid, chan, ts, letters), k), At(b, k))
  {
    hide Fold, StatusToken, GrantLetters, SourcedVia, Alike;
    AlikeSelf(At(b, k));
    if k == Fold(chan) {
      var m := if StatusToken(letters) then GrantLetters(PlainMember, letters) else PlainMember;
      ShownAlike(b.channels[k], b.channels[k].rmembers[uuid := m]);
    }
  }

  lemma ShownAlike(ch: Channel, r: map<string, Member>)
    ensures Alike(Some(ch.(rmembers := r)), Some(ch))
  {
  }

  /** A join that creates a channel: the peer has none either, and creates it with the same time and modes. */
  lemma JoinNew(a: Server, b: Server, lb: Uid, e: Event, now: nat)
    requires Agree(a, b) && e.Joins? && Enters(a, e) && Fold(e.name) !in a.channels
    requires |Sends(a, e)| == 1
    ensures Agree(Step(a, e), Recv(b, lb, a.sid, Sends(a, e)[0], now))
  {
    hide Fold, ValidChan, ModeLetters, Sends, Render, Receive, ChanRecv, Enterable;
    var key, t := Fold(e.name), Step(a, e);
    JoinSends(a, e);
    var w := Sends(a, e)[0];
    var b' := Recv(b, lb, a.sid, w, now);
    assert b' == ChanRecv(b, e.name, w.line, now);
    forall k ensures Alike(At(t, k), At(b', k)) {
      assert Alike(At(a, k), At(b, k));
      ChanAt(b, e.name, w.line, now, k);
      if k == key {
        FreshJoin(e.name, now, w.line.burst, Enterable(b), e.now);
      }
    }
  }

  lemma FreshJoin(name: string, now: nat, f: Burst, known: set<string>, ts: nat)
    requires f.ts == ts && f.modes == Render(NewChannel(name, ts).modes)
    ensures var r := Receive(None, name, now, known, FJoin(f));
      r.Some? && SameSettings(r.value, NewChannel(name, ts))
  {
    hide Enter, Render, ApplyModeString, FlagsNamed;
    var modes := NewChannel(name, ts).modes;
    FreshFlags();
    RenderNames(modes);
    AdditiveModes(modes, f.modes);
    assert {'n', 't'} + {'n', 't'} == {'n', 't'};
  }

  lemma FreshFlags()
    ensures FlagsKnown(NewChannel("", 0).modes)
  {
    assert FLAGS[3] == 'n' && FLAGS[5] == 't';
  }

  /** Both ends after a step that sends one line: consistent, and showing each other's members. */
  lemma HeardViews(n: Net, e: Event, now: nat)
    requires NetOk(n) && Quiet(n) && LocalOk(n.a, e) && |Sends(n.a, e)| == 1 && !Sends(n.a, e)[0].ServerW?
    ensures var a, b := Step(n.a, e), Recv(n.b, n.lb, n.a.sid, Sends(n.a, e)[0], now);
      && MemberInv(a) && LocalIds(a) && MemberInv(b) && LocalIds(b)
      && LocalView(a) == RemoteView(b) && RemoteView(a) == LocalView(b)
  {
    hide NodeOk, Flow, Recv, Step, Sends, MemberInv, LocalIds, LocalView, RemoteView;
    QuietUp(n);
    var m := ActAtA(n, e);
    ActKeeps(n, e);
    var d := Delivery(now, Walk([], [], map[]), []);
    assert m.ab == Sends(n.a, e);
    DeliverKeeps(m, d);
    var r := DeliverToB(m, d);
    LocalKeepsLink(n.a, e);
    assert m.ab[1..] == [];
    assert Quiet(r);
    NodeInv(r.a, r.la, r.b.sid);
    NodeInv(r.b, r.lb, r.a.sid);
    QuietViews(r);
  }

  lemma NodeInv(s: Server, link: Uid, peer: string)
    requires NodeOk(s, link, peer)
    ensures MemberInv(s) && LocalIds(s)
  {
  }

  lemma QuietViews(n: Net)
    requires NetOk(n) && Quiet(n)
    ensures LocalView(n.a) == RemoteView(n.b) && RemoteView(n.a) == LocalView(n.b)
  {
    hide NodeOk, LocalView, RemoteView, WellSent;
    QuietUp(n);
  }

  lemma LocalLeaves(s: Server, uid: Uid, key: string)
    ensures Reaped(s.channels, Leave(s, uid, key).channels)
  {
    var m := WithoutLocal(s.channels, key, uid);
    assert m.Keys == s.channels.Keys;
    ReapReaped(s.channels, m);
  }

  lemma LocalQuits(s: Server, uid: Uid)
    requires uid in s.users && s.users[uid].registered
    ensures Reaped(s.channels, RemoveUser(s, uid).channels)
  {
    hide Fold, Reap;
    ReapReaped(s.channels, DropFrom(s.channels, s.users[uid].channels, uid));
  }

  lemma RemoteLeaves(s: Server, link: Uid, uuid: string, chan: string)
    requires SourcedVia(s, uuid, link) && (Fold(chan), uuid) in RemoteView(s).on
    ensures Reaped(s.channels, PartRecv(s, link, uuid, chan).channels)
  {
    hide Fold, Reap;
    var key := Fold(chan);
    var m := WithoutRemote(s.channels, key, uuid);
    assert m.Keys == s.channels.Keys;
    ReapReaped(s.channels, m);
  }

  lemma RemoteQuits(s: Server, link: Uid, uuid: string)
    requires SourcedVia(s, uuid, link)
    ensures Reaped(s.channels, QuitRecv(s, link, uuid).channels)
  {
    hide Fold, Reap;
    ReapReaped(s.channels, WithoutRemotes(s.channels, {uuid}));
  }

  /** A registered user of A is known at B, behind the link. */
  lemma KnownThere(n: Net, uid: Uid)
    requires NetOk(n) && Quiet(n) && uid in n.a.users && n.a.users[uid].registered
    ensures SourcedVia(n.b, n.a.users[uid].uuid, n.lb)
  {
    hide Flow, MemberInv, ChanNamed, OfPeer;
    QuietUp(n);
    QuietViews(n);
    var x := n.a.users[uid].uuid;
    assert Maps(n.a.uuidLocal, x, uid);
    assert x in LocalView(n.a).known;
  }

  /** A user of A who is on a channel is registered, and shown there by B. */
  lemma ShownThere(n: Net, uid: Uid, k: string)
    requires NetOk(n) && Quiet(n) && (Lists(n.a.users, uid, k) || Holds(n.a.channels, k, uid))
    ensures uid in n.a.users && n.a.users[uid].registered && Lists(n.a.users, uid, k) && Holds(n.a.channels, k, uid)
    ensures (k, n.a.users[uid].uuid) in RemoteView(n.b).on
  {
    hide Flow, ChanNamed, OfPeer, RemoteView, RemotesKnown, LinksLive, PeerOk, ValidSid;
    QuietViews(n);
    assert Lists(n.a.users, uid, k) <==> Holds(n.a.channels, k, uid);
    var x := n.a.users[uid].uuid;
    assert Maps(n.a.uuidLocal, x, uid);
    assert (k, x) in LocalView(n.a).on;
  }

  lemma LeaveStep(n: Net, e: Event, uid: Uid, chan: string)
    requires NetOk(n) && Quiet(n) && Agree(n.a, n.b) && (e == Parts(uid, chan) || e == ForceParted(uid, chan))
    ensures Heard(Step(n.a, e), n.b, n.lb, n.a.sid, Sends(n.a, e))
  {
    hide NetOk, Agree, Fold, Recv, Leave, MemberInv, LocalIds, LocalView, RemoteView, Reaped;
    var a, b, key := n.a, n.b, Fold(chan);
    if Lists(a.users, uid, key) || Holds(a.channels, key, uid) {
      ShownThere(n, uid, key);
      KnownThere(n, uid);
      var w := PartW(a.users[uid].uuid, chan);
      assert Sends(a, e) == [w] && Step(a, e) == Leave(a, uid, key);
      LocalLeaves(a, uid, key);
      RemoteLeaves(b, n.lb, w.uuid, chan);
      forall now: nat ensures Agree(Step(a, e), Recv(b, n.lb, a.sid, w, now)) {
        HeardViews(n, e, now);
        RecvPart(b, n.lb, a.sid, w, now);
        ReapedAgree(a, b, Step(a, e), Recv(b, n.lb, a.sid, w, now));
      }
    } else {
      assert Sends(a, e) == [] && Step(a, e) == a;
    }
  }

  lemma RecvPart(b: Server, link: Uid, sid: string, w: Wire, now: nat)
    ensures w.PartW? ==> Recv(b, link, sid, w, now) == PartRecv(b, link, w.uuid, w.chan)
    ensures w.QuitW? ==> Recv(b, link, sid, w, now) == QuitRecv(b, link, w.uuid)
  {
    hide PartRecv, QuitRecv;
  }

  lemma QuitStep(n: Net, uid: Uid)
    requires NetOk(n) && Quiet(n) && Agree(n.a, n.b)
    ensures Heard(Step(n.a, Quits(uid)), n.b, n.lb, n.a.sid, Sends(n.a, Quits(uid)))
  {
    hide NetOk, Agree, Fold, Recv, RemoveUser, MemberInv, LocalIds, LocalView, RemoteView, Reaped;
    var a, b, e := n.a, n.b, Quits(uid);
    if uid in a.users && a.users[uid].registered {
      KnownThere(n, uid);
      var w := QuitW(a.users[uid].uuid);
      assert Sends(a, e) == [w];
      LocalQuits(a, uid);
      RemoteQuits(b, n.lb, w.uuid);
      forall now: nat ensures Agree(Step(a, e), Recv(b, n.lb, a.sid, w, now)) {
        HeardViews(n, e, now);
        RecvPart(b, n.lb, a.sid, w, now);
        ReapedAgree(a, b, Step(a, e), Recv(b, n.lb, a.sid, w, now));
      }
    } else {
      SilentQuit(a, uid);
      SameChannelsAgree(a, b, Step(a, e), b);
    }
  }

  lemma SilentQuit(a: Server, uid: Uid)
    requires uid !in a.users || !a.users[uid].registered
    ensures Sends(a, Quits(uid)) == [] && Step(a, Quits(uid)).channels == a.channels
  {
    hide Fold;
  }

  /** Whatever a user does while nothing is in flight, the peer agrees again once it has heard of it. */
  lemma StepHeard(n: Net, e: Event)
    requires NetOk(n) && Quiet(n) && Agree(n.a, n.b) && LocalOk(n.a, e) && Spelled(n.a, e)
    ensures Heard(Step(n.a, e), n.b, n.lb, n.a.sid, Sends(n.a, e))
  {
    hide NetOk, Agree, Step, Sends, Heard, Spelled;
    match e {
      case Joins(uid, name, maxlen, admitted, now) =>
        assert ChanNamed(n.a.channels) by { NetNamed(n); }
        JoinStep(n.a, n.b, n.lb, e);
      case Parts(uid, target) => LeaveStep(n, e, uid, target);
      case ForceParted(uid, chan) => LeaveStep(n, e, uid, chan);
      case ModeChanged(uid, chan, change, allowed) => ModeStep(n.a, n.b, n.lb, e);
      case Quits(uid) => QuitStep(n, uid);
      case _ => QuietStep(n.a, n.b, n.lb, e);
    }
  }

  lemma NetNamed(n: Net)
    requires NetOk(n)
    ensures ChanNamed(n.a.channels)
  {
    hide NodeOk, Flow;
    NodeNamed(n.a, n.la, n.b.sid);
  }

  // ----- runs in which nobody acts while a line is in flight -----

  predicate Acts(st: NetStep) {
    st.AtA? || st.AtB?
  }

  /** Users act only when nothing is in flight, and remove masks as they are listed. */
  ghost predicate Calmly(n: Net, st: NetStep) {
    && (Acts(st) ==> Quiet(n))
    && (st.AtA? ==> Spelled(n.a, st.e)) && (st.AtB? ==> Spelled(n.b, st.e))
  }

  ghost predicate Paced(n: Net, steps: seq<NetStep>)
    decreases |steps|
  {
    steps == [] || (CanStep(n, steps[0]) && Calmly(n, steps[0]) && Paced(NextNet(n, steps[0]), steps[1..]))
  }

  lemma {:induction false} PacedRuns(n: Net, steps: seq<NetStep>)
    requires Paced(n, steps)
    ensures CanRun(n, steps)
    decreases |steps|
  {
    hide CanStep, NextNet;
    if steps != [] { PacedRuns(NextNet(n, steps[0]), steps[1..]); }
  }

  ghost predicate OnlyRenames(q: seq<Wire>) {
    forall i :: 0 <= i < |q| ==> q[i].NickW? || q[i].SaveW?
  }

  /** After the handshake: the servers agree, or will once the one line in flight is handled. */
  ghost predicate Calm(n: Net) {
    && Up(n.a, n.la) && Up(n.b, n.lb)
    && ((OnlyRenames(n.ab) && OnlyRenames(n.ba) && Agree(n.a, n.b)) || Telling(n) || Telling(Swap(n)))
  }

  ghost predicate Telling(n: Net) {
    n.ba == [] && |n.ab| == 1 && Heard(n.a, n.b, n.lb, n.a.sid, n.ab)
  }

  lemma CalmSwap(n: Net)
    ensures Calm(n) <==> Calm(Swap(n))
  {
    hide Heard;
    assert Swap(Swap(n)) == n;
    assert Agree(n.a, n.b) <==> Agree(n.b, n.a) by { AgreeSwap(n.a, n.b); }
  }

  lemma AgreeSwap(a: Server, b: Server)
    ensures Agree(a, b) <==> Agree(b, a)
  {
    hide At;
  }

  lemma CalmAct(n: Net, e: Event)
    requires NetOk(n) && Calm(n) && Quiet(n) && LocalOk(n.a, e) && Spelled(n.a, e)
    ensures Calm(ActAtA(n, e))
  {
    hide NetOk, Agree, Spelled, Step, Sends, LocalOk;
    assert Agree(n.a, n.b);
    StepHeard(n, e);
    LocalKeepsLink(n.a, e) by { LocalIs(n.a, e); }
    assert n.ab + Sends(n.a, e) == Sends(n.a, e);
  }

  lemma LocalIs(s: Server, e: Event)
    requires LocalOk(s, e)
    ensures IsLocal(e)
  {
  }

  lemma CalmDeliver(n: Net, d: Delivery)
    requires NetOk(n) && Calm(n) && Deliverable(n, d)
    ensures Calm(DeliverToB(n, d))
  {
    hide NodeOk, Agree, Recv, LocalView, RemoteView, ReplayAll, WellSent, Walkable, BurstOf;
    var w, m := n.ab[0], DeliverToB(n, d);
    var t := Recv(n.b, n.lb, n.a.sid, w, d.now);
    assert !w.ServerW? && WellSent(w, n.a.sid);
    RecvKeepsNode(n.b, n.lb, n.a.sid, w, d.now);
    if OnlyRenames(n.ab) && OnlyRenames(n.ba) && Agree(n.a, n.b) {
      SilentKeeps(n.b, n.lb, n.a.sid, w, d.now);
      SameChannelsAgree(n.a, n.b, n.a, t);
    } else {
      assert Telling(n);
      assert Agree(n.a, t);
      assert n.ab[1..] == [];
    }
  }

  lemma CalmNext(n: Net, st: NetStep)
    requires NetOk(n) && Calm(n) && CanStep(n, st) && Calmly(n, st)
    ensures Calm(NextNet(n, st))
  {
    hide NetOk, Calm, Spelled, ActAtA, DeliverToB, LocalOk, Deliverable;
    SwapOk(n);
    CalmSwap(n);
    match st {
      case AtA(e) => CalmAct(n, e);
      case AtB(e) => CalmAct(Swap(n), e); CalmSwap(ActAtA(Swap(n), e));
      case ToB(d) => CalmDeliver(n, d);
      case ToA(d) => CalmDeliver(Swap(n), d); CalmSwap(DeliverToB(Swap(n), d));
    }
  }

  lemma ShakeNext(was: Net, n: Net, st: NetStep)
    requires NetOk(n) && Shaking(was, n) && CanStep(n, st) && !Acts(st)
    ensures Shaking(was, NextNet(n, st))
  {
    hide NetOk, Shaking, DeliverToB, Deliverable;
    SwapOk(n);
    ShakingSwap(was, n);
    match st {
      case ToB(d) => ShakeOn(was, n, d);
      case ToA(d) => ShakeOn(Swap(was), Swap(n), d); ShakingSwap(was, Swap(DeliverToB(Swap(n), d)));
    }
  }

  /** What every channel must satisfy at link time; flags are letters the server knows. */
  ghost predicate AllLinkable(n: Net) {
    forall k :: Linkable(At(n.a, k), At(n.b, k))
  }

  ghost predicate AllKnown(n: Net) {
    forall k :: KnownFlags(At(n.a, k)) && KnownFlags(At(n.b, k))
  }

  lemma ShakenCalm(was: Net, n: Net)
    requires NetOk(n) && Shaking(was, n) && Quiet(n) && AllKnown(was) && AllLinkable(was)
    ensures Calm(n)
  {
    hide NetOk, Shaking, Linkable, KnownFlags, At;
    QuietUp(n);
    forall k ensures Alike(At(n.a, k), At(n.b, k)) { ShakenExact(was, n, k); }
  }

  lemma {:induction false} PacedKeeps(was: Net, n: Net, steps: seq<NetStep>)
    requires NetOk(n) && Paced(n, steps) && AllKnown(was) && AllLinkable(was) && (Shaking(was, n) || Calm(n))
    ensures CanRun(n, steps)
    ensures var r := RunNet(n, steps); NetOk(r) && (Shaking(was, r) || Calm(r))
    decreases |steps|
  {
    hide NetOk, Shaking, Calm, CanStep, NextNet, AllKnown, AllLinkable, Quiet;
    PacedRuns(n, steps);
    if steps != [] {
      NextKeeps(n, steps[0]);
      if Acts(steps[0]) && !Calm(n) { ShakenCalm(was, n); }
      if Calm(n) {
        CalmNext(n, steps[0]);
      } else {
        ShakeNext(was, n, steps[0]);
      }
      PacedKeeps(was, NextNet(n, steps[0]), steps[1..]);
    }
  }

  /**
   * From the handshake on, as long as every line is delivered before the next user acts: whenever nothing is in flight
   * the two servers hold the same channels, with the same members, timestamp, flags, key and limit.
   */
  lemma PacedAgrees(n: Net, steps: seq<NetStep>)
    requires Greeting(n) && AllKnown(n) && AllLinkable(n) && Paced(n, steps)
    ensures CanRun(n, steps)
    ensures var r := RunNet(n, steps);
      Quiet(r) ==> Agree(r.a, r.b) && forall k :: Members(r.a, k) == Members(r.b, k)
  {
    hide Greeting, AllKnown, AllLinkable, Shaking, NetOk, Paced, RunNet, Agree, Members;
    GreetingOk(n);
    GreetingShakes(n);
    PacedKeeps(n, n, steps);
    var r := RunNet(n, steps);
    if Quiet(r) && !Calm(r) { ShakenCalm(n, r); }
    forall k | Quiet(r) ensures Members(r.a, k) == Members(r.b, k) { QuietAgrees(n, steps, k); }
  }

  // ----- and only then -----

  lemma {:induction false} Enumerated<T(!new)>(s: set<T>) returns (xs: seq<T>)
    ensures (forall x :: x in xs <==> x in s) && Once(xs)
    decreases |s|
  {
    if s == {} {
      xs := [];
    } else {
      var x :| x in s;
      var rest := Enumerated(s - {x});
      xs := [x] + rest;
    }
  }

  lemma {:induction false} Orders(channels: map<string, Channel>, ks: set<string>) returns (m: map<string, seq<Uid>>)
    requires ks <= channels.Keys
    ensures m.Keys == ks && forall k :: k in ks ==> Order(m[k], channels[k])
    decreases |ks|
  {
    if ks == {} {
      m := map[];
    } else {
      var k :| k in ks;
      var rest := Orders(channels, ks - {k});
      var order := Enumerated(channels[k].members.Keys);
      m := rest[k := order];
    }
  }

  /** Every consistent server can be walked. */
  lemma WalkFor(s: Server) returns (o: Walk)
    requires MemberInv(s)
    ensures Walkable(s, o)
  {
    var us := Enumerated(set u | u in s.users && s.users[u].registered);
    var ks := Enumerated(s.channels.Keys);
    var m := Orders(s.channels, s.channels.Keys);
    o := Walk(us, ks, m);
    forall k | k in o.channels ensures Meets(s, k, o.members[k]) {
      forall u | u in o.members[k] ensures u in s.channels[k].members && u in s.users {
        assert Holds(s.channels, k, u);
        assert Lists(s.users, u, k);
      }
    }
  }

  /** Handshakes still to come, and lines in flight. */
  function ToGo(n: Net): (nat, nat) {
    ((if Up(n.a, n.la) then 0 else 1) + (if Up(n.b, n.lb) then 0 else 1), |n.ab| + |n.ba|)
  }

  predicate Nearer(p: (nat, nat), q: (nat, nat)) {
    p.0 < q.0 || (p.0 == q.0 && p.1 < q.1)
  }

  lemma NextLine(n: Net) returns (d: Delivery)
    requires NetOk(n) && n.ab != []
    ensures Deliverable(n, d) && Nearer(ToGo(DeliverToB(n, d)), ToGo(n))
    ensures var m := DeliverToB(n, d); LocalView(m.b) == LocalView(n.b) && m.a == n.a
  {
    hide NodeOk, Recv, LocalView, RemoteView, ReplayAll, Walkable, WellSent, BurstOf;
    var w := n.ab[0];
    assert WellSent(w, n.a.sid);
    if w.ServerW? {
      LinkedUp(n.b, n.lb, n.a.sid, w, 0);
      var t := Recv(n.b, n.lb, n.a.sid, w, 0);
      NodeInv(t, n.lb, n.a.sid);
      var o := WalkFor(t);
      d := Delivery(0, o, []);
    } else {
      RecvKeepsNode(n.b, n.lb, n.a.sid, w, 0);
      RecvKeepsLocal(n.b, n.lb, n.a.sid, w, 0);
      d := Delivery(0, Walk([], [], map[]), []);
    }
  }

  ghost predicate Deliveries(steps: seq<NetStep>) {
    forall i :: 0 <= i < |steps| ==> !Acts(steps[i])
  }

  ghost predicate SameLocalUsers(n: Net, r: Net) {
    LocalView(r.a) == LocalView(n.a) && LocalView(r.b) == LocalView(n.b)
  }

  /** From everywhere on a run the lines in flight can be delivered. */
  lemma {:induction false} Settles(n: Net) returns (steps: seq<NetStep>)
    requires NetOk(n)
    ensures Paced(n, steps) && Deliveries(steps) && CanRun(n, steps)
    ensures var r := RunNet(n, steps); Quiet(r) && NetOk(r) && SameLocalUsers(n, r)
    decreases ToGo(n).0, ToGo(n).1
  {
    hide NetOk, Deliverable, DeliverToB, LocalView, Up;
    var st;
    if n.ab != [] {
      var d := NextLine(n);
      st := ToB(d);
    } else if n.ba != [] {
      SwapOk(n);
      var d := NextLine(Swap(n));
      st := ToA(d);
    } else {
      return [];
    }
    NextKeeps(n, st);
    var rest := Settles(NextNet(n, st));
    steps := [st] + rest;
    assert steps[1..] == rest;
  }

  lemma {:induction false} ShakesOver(was: Net, n: Net, steps: seq<NetStep>)
    requires NetOk(n) && Shaking(was, n) && Deliveries(steps) && CanRun(n, steps)
    ensures Shaking(was, RunNet(n, steps)) && NetOk(RunNet(n, steps))
    decreases |steps|
  {
    hide NetOk, Shaking, CanStep, NextNet;
    if steps != [] {
      NextKeeps(n, steps[0]);
      ShakeNext(was, n, steps[0]);
      ShakesOver(was, NextNet(n, steps[0]), steps[1..]);
    }
  }

  ghost predicate EndsAgreed(n: Net, steps: seq<NetStep>) {
    CanRun(n, steps) && var r := RunNet(n, steps); Quiet(r) ==> Agree(r.a, r.b)
  }

  /**
   * Every run in which each line is delivered before the next user acts ends in agreement iff every channel was
   * linkable when the servers linked.
   */
  lemma ConvergesExactly(n: Net)
    requires Greeting(n) && AllKnown(n)
    ensures (forall steps :: Paced(n, steps) ==> EndsAgreed(n, steps)) <==> AllLinkable(n)
  {
    hide Greeting, Paced, CanRun, RunNet, Agree, AllKnown, Linkable, NetOk, Shaking, At;
    if AllLinkable(n) {
      forall steps | Paced(n, steps) ensures EndsAgreed(n, steps) { PacedAgrees(n, steps); }
    } else {
      var k :| !Linkable(At(n.a, k), At(n.b, k));
      GreetingOk(n);
      GreetingShakes(n);
      var steps := Settles(n);
      ShakesOver(n, n, steps);
      var r := RunNet(n, steps);
      KnownAt(n, k);
      ShakenExact(n, r, k);
      Disagree(r.a, r.b, k);
    }
  }

  lemma KnownAt(n: Net, k: string)
    requires AllKnown(n)
    ensures KnownFlags(At(n.a, k)) && KnownFlags(At(n.b, k))
  {
  }

  lemma Disagree(a: Server, b: Server, k: string)
    requires !Alike(At(a, k), At(b, k))
    ensures !Agree(a, b)
  {
  }

  // ----- the channel that is not bursted -----

  lemma {:induction false} PacedThen(n: Net, p: seq<NetStep>, q: seq<NetStep>)
    requires Paced(n, p) && CanRun(n, p) && Paced(RunNet(n, p), q)
    ensures Paced(n, p + q) && CanRun(n, p + q) && CanRun(RunNet(n, p), q)
    ensures RunNet(n, p + q) == RunNet(RunNet(n, p), q)
    decreases |p|
  {
    hide CanStep, NextNet;
    PacedRuns(RunNet(n, p), q);
    if p == [] {
      assert p + q == q;
    } else {
      assert (p + q)[1..] == p[1..] + q;
      PacedThen(NextNet(n, p[0]), p[1..], q);
    }
  }

  /** Nobody of A is on the channel when the servers link, so B does not hear of it. */
  lemma Forgotten(was: Net, n: Net, k: string)
    requires NetOk(n) && Shaking(was, n) && Quiet(n) && k in was.a.channels && k !in was.b.channels
    requires was.a.channels[k].members == map[]
    ensures k in n.a.channels && n.a.channels[k].created == was.a.channels[k].created && k !in n.b.channels
  {
    hide NetOk;
    QuietUp(n);
    NothingReceived(At(n.a, k));
    NothingReceived(At(n.b, k));
    NotBursted(At(was.a, k), At(was.b, k));
    NotBursted(At(was.b, k), At(was.a, k));
  }

  /** A registered user of B joins, and A hears of it: both now hold the channel, each with its own time. */
  lemma SplitByJoin(n: Net, e: Event, d: Delivery)
    requires NetOk(n) && Quiet(n) && e.Joins? && LocalOk(n.b, e) && Enters(n.b, e)
    requires var k := Fold(e.name); k in n.a.channels && k !in n.b.channels && n.a.channels[k].created < e.now
    requires d.renames == []
    ensures Paced(n, [AtB(e), ToA(d)]) && CanRun(n, [AtB(e), ToA(d)])
    ensures var r, k := RunNet(n, [AtB(e), ToA(d)]), Fold(e.name);
      && Quiet(r) && k in r.a.channels && k in r.b.channels
      && r.a.channels[k].created == n.a.channels[k].created && r.b.channels[k].created == e.now
  {
    hide NetOk, Fold, ValidChan, ModeLetters, Render, LocalOk, Step, Sends, Recv, Walkable, BurstOf;
    QuietUp(n);
    JoinSends(n.b, e);
    var m := NextNet(n, AtB(e));
    assert m == n.(b := Step(n.b, e), ba := Sends(n.b, e));
    var w := m.ba[0];
    assert Deliverable(Swap(m), d);
    var r := NextNet(m, ToA(d));
    assert r == m.(a := Recv(n.a, n.la, m.b.sid, w, d.now), ba := []);
    NewlyHeld(n.a, n.la, m.b.sid, w, d.now, n.b, e);
    TwoSteps(n, AtB(e), ToA(d));
  }

  lemma TwoSteps(n: Net, p: NetStep, q: NetStep)
    requires CanStep(n, p) && CanStep(NextNet(n, p), q) && Calmly(n, p) && !Acts(q)
    ensures Paced(n, [p, q]) && CanRun(n, [p, q]) && RunNet(n, [p, q]) == NextNet(NextNet(n, p), q)
  {
    hide CanStep, NextNet;
    assert [p, q][1..] == [q] && [q][1..] == [];
    var m := NextNet(n, p);
    assert Paced(m, [q]);
    PacedRuns(n, [p, q]);
    assert RunNet(NextNet(m, q), []) == NextNet(m, q);
    assert RunNet(m, [q]) == NextNet(m, q);
  }

  lemma NewlyHeld(a: Server, la: Uid, sid: string, w: Wire, now: nat, b: Server, e: Event)
    requires e.Joins? && Enters(b, e) && Fold(e.name) in a.channels && Fold(e.name) !in b.channels
    requires a.channels[Fold(e.name)].created < e.now
    requires w.ChanW? && w.chan == e.name && w.line.FJoin? && w.line.burst.ts == e.now
    ensures var k, a', b' := Fold(e.name), Recv(a, la, sid, w, now), Step(b, e);
      && k in a'.channels && a'.channels[k].created == a.channels[k].created
      && k in b'.channels && b'.channels[k].created == e.now
  {
    hide Fold, ValidChan, Enter, ApplyModeString, Enterable;
    ChanAt(a, e.name, w.line, now, Fold(e.name));
  }

  /**
   * A kept-alive channel without members is not bursted. The other server's next join creates it anew, that join loses
   * the time war at one end only, and the two timestamps stay apart although both show the same members.
   */
  lemma ForgottenChannel(n: Net, name: string, now: nat) returns (steps: seq<NetStep>)
    requires Greeting(n) && LocalView(n.b).known != {} && ValidChan(name, |name|)
    requires var k := Fold(name); k in n.a.channels && k !in n.b.channels && n.a.channels[k].members == map[]
    requires n.a.channels[Fold(name)].created < now
    ensures Paced(n, steps) && CanRun(n, steps)
    ensures var r, k := RunNet(n, steps), Fold(name);
      && Quiet(r) && k in r.a.channels && k in r.b.channels && Members(r.a, k) == Members(r.b, k)
      && r.a.channels[k].created == n.a.channels[k].created < r.b.channels[k].created == now
  {
    hide Greeting, Fold, ValidChan, NetOk, Shaking, LocalView, Paced, CanRun, RunNet, Members;
    GreetingOk(n);
    GreetingShakes(n);
    var p := Settles(n);
    ShakesOver(n, n, p);
    var m, k := RunNet(n, p), Fold(name);
    Forgotten(n, m, k);
    var uid := SomeUser(m, k);
    var e := Joins(uid, name, |name|, true, now);
    var d := Delivery(0, Walk([], [], map[]), []);
    SplitByJoin(m, e, d);
    PacedThen(n, p, [AtB(e), ToA(d)]);
    steps := p + [AtB(e), ToA(d)];
    QuietAgrees(n, steps, k);
  }

  /** A registered user of B, not on a channel B does not hold. */
  lemma SomeUser(n: Net, k: string) returns (uid: Uid)
    requires NetOk(n) && LocalView(n.b).known != {} && k !in n.b.channels
    ensures uid in n.b.users && n.b.users[uid].registered && k !in n.b.users[uid].channels
  {
    hide Flow, ChanNamed, OfPeer, RemotesKnown, LinksLive, PeerOk;
    var x :| x in LocalView(n.b).known;
    uid := n.b.uuidLocal[x];
    assert Lists(n.b.users, uid, k) <==> Holds(n.b.channels, k, uid);
  }
}
