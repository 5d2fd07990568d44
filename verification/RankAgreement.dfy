/**
 * Two servers link and their users come and go, every line delivered before the next user acts: the servers agree on
 * every member's status as well.
 */
module RankAgreement {
  import opened Wrappers
  import opened Channels
  import opened ChannelMerge
  import opened ServerState
  import opened MembershipInvariant
  import opened NickInvariant
  import opened ServerRuns
  import opened MembershipViews
  import opened LocalLines
  import opened CrossedBursts
  import opened Netburst
  import opened TwoServers
  import opened Convergence

  /** The status (q, a, o, h, v) a server gives its own user `x` on a channel. */
  function OwnRank(s: Server, k: string, x: string): Option<set<Prefix>> {
    if k in s.channels && x in s.uuidLocal && s.uuidLocal[x] in s.channels[k].members
    then Some(Status(s.channels[k].members[s.uuidLocal[x]])) else None
  }

  /** The status it has recorded for its peer's user `x`. */
  function ShownRank(s: Server, k: string, x: string): Option<set<Prefix>> {
    if k in s.channels && x in s.channels[k].rmembers then Some(Status(s.channels[k].rmembers[x])) else None
  }

  predicate Consistent(p: Option<set<Prefix>>, q: Option<set<Prefix>>) {
    p.Some? && q.Some? ==> p.value == q.value
  }

  /** Wherever both give a status to a user of `a`, it is the same one. */
  ghost predicate RanksMeet(a: Server, b: Server) {
    forall k, x :: Consistent(OwnRank(a, k, x), ShownRank(b, k, x))
  }

  ghost predicate SameRanks(a: Server, b: Server) {
    forall k, x :: OwnRank(a, k, x) == ShownRank(b, k, x)
  }

  /** Servers that show each other's members give a status to the same users. */
  lemma RanksSame(a: Server, b: Server)
    requires RanksMeet(a, b) && LocalView(a) == RemoteView(b)
    ensures SameRanks(a, b)
  {
    hide Status;
    forall k, x ensures OwnRank(a, k, x) == ShownRank(b, k, x) {
      assert Consistent(OwnRank(a, k, x), ShownRank(b, k, x));
      assert (k, x) in LocalView(a).on <==> (k, x) in RemoteView(b).on;
    }
  }

  // ----- one user's status on a channel, line by line -----

  /** `q` is a channel with the time and own members of `p`, and shows `x` as `p` does if `p` shows `x` at all. */
  ghost predicate Tracks(p: Option<Channel>, q: Option<Channel>, x: string) {
    && p.Some? == q.Some?
    && (p.Some? ==> p.value.created == q.value.created && p.value.members == q.value.members &&
                    Carries(p.value.rmembers, q.value.rmembers, x))
  }

  predicate Carries(r: map<string, Member>, t: map<string, Member>, x: string) {
    x in r ==> x in t && Status(r[x]) == Status(t[x])
  }

  lemma {:induction false} EnterCarries(
    r: map<string, Member>, t: map<string, Member>, entries: seq<Entry>, known: set<string>, keep: bool, x: string)
    requires Carries(r, t, x) && (x in r ==> x in known)
    ensures Carries(Enter(r, entries, known, keep), Enter(t, entries, {x}, keep), x)
    decreases |entries|
  {
    hide Status, Arriving;
    if entries != [] {
      var e := entries[0];
      var r1 := if e.uuid in known then r[e.uuid := Arriving(e.letters, keep)] else r;
      var t1 := if e.uuid in {x} then t[e.uuid := Arriving(e.letters, keep)] else t;
      EnterCarries(r1, t1, entries[1..], known, keep, x);
    }
  }

  lemma RankedStatus(m: Member, n: Member, c: char, on: bool)
    requires Status(m) == Status(n)
    ensures Status(Ranked(m, c, on)) == Status(Ranked(n, c, on))
  {
    hide PrefixOf;
    if PrefixOf(c).Some? {
      var p := PrefixOf(c).value;
      assert forall y :: y in m.prefixes && y in STATUS <==> y in Status(m);
      assert forall y :: y in n.prefixes && y in STATUS <==> y in Status(n);
      forall y ensures y in Status(Ranked(m, c, on)) <==> y in Status(Ranked(n, c, on)) {}
    }
  }

  lemma ChangedTracks(p: Channel, q: Channel, x: string, c: Change)
    requires Tracks(Some(p), Some(q), x)
    ensures Tracks(Some(Changed(p, c)), Some(Changed(q, c)), x)
  {
    hide Status, Ranked, SetFlag, WithMask, WithoutMask;
    if c.Rank? && c.uuid == x && x in p.rmembers { RankedStatus(p.rmembers[x], q.rmembers[x], c.letter, c.on); }
  }

  lemma ReceiveTracks(
    p: Option<Channel>, q: Option<Channel>, x: string, l: Line, name: string, now: nat, known: set<string>)
    requires Tracks(p, q, x) && (p.Some? && x in p.value.rmembers ==> x in known)
    ensures Tracks(Receive(p, name, now, known, l), Receive(q, "", 0, {x}, l), x)
  {
    hide Enter, Status, ApplyModeString, Changed;
    match l {
      case FMode(ts, c) => if p.Some? { ChangedTracks(p.value, q.value, x, c); }
      case FJoin(b) =>
        if p.None? {
          EnterCarries(map[], map[], b.entries, known, true, x);
        } else {
          var r, t := Arbitrate(p.value, b.ts, b.modes), Arbitrate(q.value, b.ts, b.modes);
          ClearedCarries(p.value.rmembers, q.value.rmembers, x);
          EnterCarries(r.rmembers, t.rmembers, b.entries, known, b.ts <= p.value.created, x);
        }
    }
  }

  lemma ClearedCarries(r: map<string, Member>, t: map<string, Member>, x: string)
    requires Carries(r, t, x)
    ensures Carries(ClearAll(r), ClearAll(t), x)
  {
    forall m: Member ensures Status(ClearStatus(m)) == {} { StatusOfCleared(m); }
  }

  lemma {:induction false} ReceiveAllTracks(p: Option<Channel>, q: Option<Channel>, x: string, ls: seq<Line>)
    requires Tracks(p, q, x)
    ensures Tracks(ReceiveAll(p, "", 0, {x}, ls), ReceiveAll(q, "", 0, {x}, ls), x)
    decreases |ls|
  {
    hide Tracks, Receive;
    if ls != [] {
      ReceiveTracks(p, q, x, ls[0], "", 0, {x});
      ReceiveAllTracks(Receive(p, "", 0, {x}, ls[0]), Receive(q, "", 0, {x}, ls[0]), x, ls[1..]);
    }
  }

  /** A channel once the queue has been handled, as far as `x` is concerned. */
  function PendingFor(c: Option<Channel>, q: seq<Wire>, k: string, x: string): Option<Channel> {
    ReceiveAll(c, "", 0, {x}, ForKey(q, k))
  }

  lemma TracksSelf(p: Option<Channel>, x: string)
    ensures Tracks(p, p, x)
  {
  }

  /** Everybody shown on a channel could enter it. */
  ghost predicate ShownKnown(s: Server) {
    forall k, x :: k in s.channels && x in s.channels[k].rmembers ==> x in Enterable(s)
  }

  lemma ChanTracks(s: Server, chan: string, line: Line, now: nat, q: seq<Wire>, k: string, x: string)
    requires ShownKnown(s)
    ensures Tracks(PendingFor(At(ChanRecv(s, chan, line, now), k), q, k, x),
                   PendingFor(At(s, k), [ChanW(chan, line)] + q, k, x), x)
  {
    hide Fold, Receive, Enterable, Tracks, ReceiveAll, ForKey, ChanRecv;
    var t := ChanRecv(s, chan, line, now);
    FirstFor(chan, line, q, k);
    ChanAt(s, chan, line, now, k);
    if k == Fold(chan) {
      TracksSelf(At(s, k), x);
      ReceiveTracks(At(s, k), At(s, k), x, line, chan, now, Enterable(s));
      FirstReceived(At(s, k), x, line, ForKey(q, k));
      ReceiveAllTracks(At(t, k), Receive(At(s, k), "", 0, {x}, line), x, ForKey(q, k));
    } else {
      TracksSelf(PendingFor(At(s, k), q, k, x), x);
    }
  }

  lemma FirstReceived(c: Option<Channel>, x: string, line: Line, ls: seq<Line>)
    ensures ReceiveAll(c, "", 0, {x}, [line] + ls) == ReceiveAll(Receive(c, "", 0, {x}, line), "", 0, {x}, ls)
  {
    hide Receive;
    assert ([line] + ls)[1..] == ls;
  }

  lemma SilentFor(w: Wire, q: seq<Wire>, k: string)
    requires Silent(w)
    ensures ForKey([w] + q, k) == ForKey(q, k)
  {
    assert ([w] + q)[1..] == q;
    assert [] + ForKey(q, k) == ForKey(q, k);
  }

  lemma RecvTracks(s: Server, link: Uid, peer: string, w: Wire, now: nat, q: seq<Wire>, k: string, x: string)
    requires Early([w]) && !w.ServerW? && ShownKnown(s)
    ensures Tracks(PendingFor(At(Recv(s, link, peer, w, now), k), q, k, x), PendingFor(At(s, k), [w] + q, k, x), x)
  {
    hide PendingFor, Tracks, ChanRecv, UidRecv, NickRecv, SaveRecv, IjoinRecv, PartRecv, QuitRecv, ShownKnown;
    assert [w][0] == w;
    match w {
      case ChanW(chan, line) => ChanTracks(s, chan, line, now, q, k, x);
      case _ =>
        SilentKeeps(s, link, peer, w, now);
        SilentTracks(At(s, k), w, q, k, x);
    }
  }

  lemma SilentTracks(c: Option<Channel>, w: Wire, q: seq<Wire>, k: string, x: string)
    requires Silent(w)
    ensures Tracks(PendingFor(c, q, k, x), PendingFor(c, [w] + q, k, x), x)
  {
    SilentFor(w, q, k);
    TracksSelf(PendingFor(c, q, k, x), x);
  }

  // ----- what a burst makes of one user's status -----

  /**
   * What becomes of a channel held as `mine` when the other side, with users `ids`, bursts `his` (or nothing): the own
   * members keep their status unless the other time is lower, and a shown member has what the burst gave it.
   */
  ghost predicate Fate(
    r: Option<Channel>, mine: Option<Channel>, his: Option<Channel>, ids: map<string, Uid>, x: string)
  {
    if !Peopled(his) then
      r.Some? == mine.Some? &&
      (r.Some? ==> r.value.created == mine.value.created && r.value.members == mine.value.members &&
                   x !in r.value.rmembers)
    else
      r.Some? && OwnFate(r.value, mine, his.value) && ShownFate(r.value, mine, his.value, ids, x)
  }

  ghost predicate OwnFate(r: Channel, mine: Option<Channel>, his: Channel) {
    forall u :: u in r.members ==>
      && mine.Some? && u in mine.value.members
      && Status(r.members[u]) == if his.created < mine.value.created then {} else Status(mine.value.members[u])
  }

  ghost predicate ShownFate(r: Channel, mine: Option<Channel>, his: Channel, ids: map<string, Uid>, x: string) {
    x in r.rmembers ==>
      && x in ids && ids[x] in his.members
      && Status(r.rmembers[x]) ==
           if mine.Some? && mine.value.created < his.created then {} else Status(his.members[ids[x]])
  }

  lemma FateTracked(
    p: Option<Channel>, r: Option<Channel>, mine: Option<Channel>, his: Option<Channel>, ids: map<string, Uid>,
    x: string)
    requires Tracks(p, r, x) && Fate(r, mine, his, ids, x)
    ensures Fate(p, mine, his, ids, x)
  {
    hide Status;
  }

  /** Lines that only set keys, limits and masks. */
  predicate Plain(l: Line) {
    l.FMode? && !l.change.Rank?
  }

  lemma {:induction false} PlainReceived(c: Channel, x: string, ls: seq<Line>)
    requires forall i :: 0 <= i < |ls| ==> Plain(ls[i])
    ensures var r := ReceiveAll(Some(c), "", 0, {x}, ls);
      r.Some? && r.value.created == c.created && r.value.members == c.members && r.value.rmembers == c.rmembers
    decreases |ls|
  {
    hide SetFlag, WithMask, WithoutMask;
    if ls != [] {
      var d := Receive(Some(c), "", 0, {x}, ls[0]).value;
      assert Plain(ls[0]);
      PlainReceived(d, x, ls[1..]);
    }
  }

  lemma {:induction false} MaskLinesPlain(ts: nat, list: MaskList, masks: seq<string>)
    ensures forall i :: 0 <= i < |MaskLines(ts, list, masks)| ==> Plain(MaskLines(ts, list, masks)[i])
    decreases |masks|
  {
    if masks != [] { MaskLinesPlain(ts, list, masks[1..]); }
  }

  lemma BurstTail(ch: Channel)
    ensures forall i :: 0 <= i < |ModeLines(ch) + ListLines(ch)| ==> Plain((ModeLines(ch) + ListLines(ch))[i])
  {
    MaskLinesPlain(ch.created, Bans, ch.bans);
    MaskLinesPlain(ch.created, Excepts, ch.excepts);
    MaskLinesPlain(ch.created, Invex, ch.invex);
  }

  lemma {:induction false} EnterFrom(t: map<string, Member>, entries: seq<Entry>, keep: bool, x: string)
    requires x in Enter(t, entries, {x}, keep)
    ensures var r := Enter(t, entries, {x}, keep)[x];
      (x in t && r == t[x]) ||
      exists i :: 0 <= i < |entries| && entries[i].uuid == x && r == Arriving(entries[i].letters, keep)
    decreases |entries|
  {
    hide Arriving;
    if entries != [] {
      var e, rest := entries[0], entries[1..];
      var t1 := if e.uuid in {x} then t[e.uuid := Arriving(e.letters, keep)] else t;
      EnterFrom(t1, rest, keep, x);
      var r := Enter(t1, rest, {x}, keep)[x];
      if !(x in t1 && r == t1[x]) {
        var i :| 0 <= i < |rest| && rest[i].uuid == x && r == Arriving(rest[i].letters, keep);
        assert entries[i + 1] == rest[i];
      } else if e.uuid == x {
        assert entries[0].uuid == x;
      }
    }
  }

  lemma FjoinOwn(r: Option<Channel>, mine: Option<Channel>, his: Channel, b: Burst, ids: map<string, Uid>, x: string)
    requires Fate(r, mine, None, ids, x) && b.ts == his.created
    ensures OwnFate(FjoinRecv(r, "", 0, b, {x}), mine, his)
  {
    hide Enter, Status, ApplyModeString;
    forall m: Member ensures Status(ClearStatus(m)) == {} { StatusOfCleared(m); }
  }

  lemma FjoinShown(
    r: Option<Channel>, mine: Option<Channel>, his: Channel, uuids: map<Uid, string>, order: seq<Uid>,
    ids: map<string, Uid>, x: string)
    requires Fate(r, mine, None, ids, x) && (forall u :: u in order ==> u in his.members && u in uuids)
    requires forall u :: u in order ==> uuids[u] in ids && ids[uuids[u]] == u
    ensures var b := Burst(his.created, Render(his.modes), Entries(his, uuids, order));
      ShownFate(FjoinRecv(r, "", 0, b, {x}), mine, his, ids, x)
  {
    hide Enter, Status, ApplyModeString, Render, ModeLetters;
    var entries := Entries(his, uuids, order);
    var b := Burst(his.created, Render(his.modes), entries);
    var c, keep := FjoinRecv(r, "", 0, b, {x}), r.None? || his.created <= r.value.created;
    var base := if r.None? then map[] else Arbitrate(r.value, b.ts, b.modes).rmembers;
    assert x !in base && c.rmembers == Enter(base, entries, {x}, keep);
    if x in c.rmembers {
      EnterFrom(base, entries, keep, x);
      var i :| 0 <= i < |entries| && entries[i].uuid == x && c.rmembers[x] == Arriving(entries[i].letters, keep);
      var u := order[i];
      assert u in order;
      LettersRoundTrip(his.members[u]);
      StatusOfCleared(PlainMember);
    }
  }

  lemma BurstFate(
    r: Option<Channel>, mine: Option<Channel>, his: Channel, uuids: map<Uid, string>, order: seq<Uid>,
    ids: map<string, Uid>, x: string)
    requires Fate(r, mine, None, ids, x) && Peopled(Some(his))
    requires forall u :: u in order ==> u in his.members && u in uuids
    requires forall u :: u in order ==> uuids[u] in ids && ids[uuids[u]] == u
    ensures Fate(ReceiveAll(r, "", 0, {x}, BurstLines(his, Entries(his, uuids, order))), mine, Some(his), ids, x)
  {
    hide FjoinRecv, Render, ModeLetters, ModeLines, ListLines, Status, ReceiveAll;
    var f := FJoin(Burst(his.created, Render(his.modes), Entries(his, uuids, order)));
    var tail := ModeLines(his) + ListLines(his);
    assert BurstLines(his, Entries(his, uuids, order)) == [f] + tail;
    FirstReceived(r, x, f, tail);
    FjoinOwn(r, mine, his, f.burst, ids, x);
    FjoinShown(r, mine, his, uuids, order, ids, x);
    BurstTail(his);
    PlainReceived(FjoinRecv(r, "", 0, f.burst, {x}), x, tail);
  }

  // ----- the burst in flight -----

  lemma BurstFor(s: Server, o: Walk, k: string)
    requires Walkable(s, o) && ChanNamed(s.channels)
    ensures ForKey(BurstOf(s, o), k) ==
      if Peopled(At(s, k)) then BurstLines(s.channels[k], Entries(s.channels[k], Uuids(s), o.members[k])) else []
  {
    hide Meets, ChanNamed, Order, ForKey, BurstLines, Entries, UserLines, ChannelBurst, ChannelBursts;
    var us, cs := UserLines(s, o.users), ChannelBursts(s, o.channels, o.members);
    ForKeyAppend(us, cs, k);
    UserLinesQuiet(s, o.users, k);
    ChannelBurstsFor(s, o.channels, o.members, k);
    assert [] + ForKey(cs, k) == ForKey(cs, k);
    if k in s.channels {
      WalkPeopled(o.members[k], s.channels[k]);
      ChannelBurstFor(s, k, o.members[k], k);
    }
  }

  lemma PendingJoin(c: Option<Channel>, p: seq<Wire>, q: seq<Wire>, k: string, x: string)
    ensures PendingFor(c, p + q, k, x) == PendingFor(PendingFor(c, p, k, x), q, k, x)
  {
    ForKeyAppend(p, q, k);
    ReceiveAppend(c, "", 0, {x}, ForKey(p, k), ForKey(q, k));
  }

  /** Once the queue is handled, everybody's status is what the peer's burst (if it was sent) made of it. */
  ghost predicate Bringing(was: Server, me: Server, q: seq<Wire>, peer: Server, bursted: bool) {
    forall k, x :: Fate(PendingFor(At(me, k), q, k, x), At(was, k), if bursted then At(peer, k) else None,
                        peer.uuidLocal, x)
  }

  /** The handshake, as far as status is concerned; `Shaking` has the rest. */
  ghost predicate Ranking(was: Net, n: Net) {
    && Bringing(was.a, n.a, n.ba, was.b, Up(n.b, n.lb)) && Bringing(was.b, n.b, n.ab, was.a, Up(n.a, n.la))
    && n.a.uuidLocal == was.a.uuidLocal && n.b.uuidLocal == was.b.uuidLocal
  }

  lemma RankingSwap(was: Net, n: Net)
    ensures Ranking(was, n) <==> Ranking(Swap(was), Swap(n))
  {
  }

  lemma NoneShown(s: Server, link: Uid, peer: string, k: string, x: string)
    requires NodeOk(s, link, peer) && !Up(s, link) && k in s.channels
    ensures x !in s.channels[k].rmembers
  {
    assert x !in s.remoteUsers;
  }

  lemma GreetingRanks(n: Net)
    requires Greeting(n)
    ensures Ranking(n, n)
  {
    hide NodeOk, Fold;
    forall k, x
      ensures Fate(PendingFor(At(n.a, k), n.ba, k, x), At(n.a, k), None, n.b.uuidLocal, x)
      ensures Fate(PendingFor(At(n.b, k), n.ab, k, x), At(n.b, k), None, n.a.uuidLocal, x)
    {
      ForKeyNone(n.ba, k);
      ForKeyNone(n.ab, k);
      if k in n.a.channels { NoneShown(n.a, n.la, n.b.sid, k, x); }
      if k in n.b.channels { NoneShown(n.b, n.lb, n.a.sid, k, x); }
    }
  }

  lemma BringingHandled(was: Server, me: Server, q: seq<Wire>, peer: Server, bursted: bool, t: Server)
    requires Bringing(was, me, q, peer, bursted) && q != []
    requires forall k, x :: Tracks(PendingFor(At(t, k), q[1..], k, x), PendingFor(At(me, k), q, k, x), x)
    ensures Bringing(was, t, q[1..], peer, bursted)
  {
    hide PendingFor, At, Tracks, Fate;
    forall k, x
      ensures Fate(PendingFor(At(t, k), q[1..], k, x), At(was, k), if bursted then At(peer, k) else None,
                   peer.uuidLocal, x)
    {
      FateTracked(PendingFor(At(t, k), q[1..], k, x), PendingFor(At(me, k), q, k, x), At(was, k),
                  if bursted then At(peer, k) else None, peer.uuidLocal, x);
    }
  }

  lemma BringingRenames(was: Server, me: Server, q: seq<Wire>, peer: Server, bursted: bool, ws: seq<Wire>)
    requires Bringing(was, me, q, peer, bursted) && forall i :: 0 <= i < |ws| ==> ws[i].NickW? || ws[i].SaveW?
    ensures Bringing(was, me, q + ws, peer, bursted)
  {
    hide At, Fate, ReceiveAll;
    forall k, x ensures PendingFor(At(me, k), q + ws, k, x) == PendingFor(At(me, k), q, k, x) {
      ForKeyAppend(q, ws, k);
      ForKeyNone(ws, k);
      assert ForKey(q, k) + [] == ForKey(q, k);
    }
  }

  lemma BringingBurst(was: Server, me: Server, q: seq<Wire>, peer: Server, t: Server, o: Walk)
    requires Bringing(was, me, q, peer, false) && Walkable(t, o) && Tidy(t)
    requires t.channels == peer.channels && t.uuidLocal == peer.uuidLocal
    ensures Bringing(was, me, q + BurstOf(t, o), peer, true)
  {
    hide PendingFor, Fate, BurstOf, Walkable, Tidy;
    forall k, x
      ensures Fate(PendingFor(At(me, k), q + BurstOf(t, o), k, x), At(was, k), At(peer, k), peer.uuidLocal, x)
    {
      PendingJoin(At(me, k), q, BurstOf(t, o), k, x);
      OneFate(t, o, PendingFor(At(me, k), q, k, x), At(was, k), k, x);
      SameAt(peer, t, k);
    }
  }

  lemma OneFate(t: Server, o: Walk, r: Option<Channel>, mine: Option<Channel>, k: string, x: string)
    requires Walkable(t, o) && Tidy(t) && Fate(r, mine, None, t.uuidLocal, x)
    ensures Fate(PendingFor(r, BurstOf(t, o), k, x), mine, At(t, k), t.uuidLocal, x)
  {
    hide BurstOf, Fate, BurstLines, MemberInv, ChanNamed, Order, ReceiveAll, Entries;
    BurstFor(t, o, k);
    if Peopled(At(t, k)) {
      var order := o.members[k];
      forall u | u in order ensures u in t.users && Uuids(t)[u] in t.uuidLocal && t.uuidLocal[Uuids(t)[u]] == u {
        assert Maps(t.uuidLocal, t.users[u].uuid, u);
      }
      BurstFate(r, mine, t.channels[k], Uuids(t), order, t.uuidLocal, x);
    } else {
      NothingFor(r, mine, At(t, k), t.uuidLocal, x);
    }
  }

  lemma NothingFor(r: Option<Channel>, mine: Option<Channel>, his: Option<Channel>, ids: map<string, Uid>, x: string)
    requires Fate(r, mine, None, ids, x) && !Peopled(his)
    ensures Fate(ReceiveAll(r, "", 0, {x}, []), mine, his, ids, x)
  {
  }

  lemma NodeShown(s: Server, link: Uid, peer: string)
    requires NodeOk(s, link, peer) && Up(s, link)
    ensures ShownKnown(s)
  {
    hide Enterable, LocalIds, ChanNamed, OfPeer;
    AllEnterable(s, link, peer);
  }

  lemma RankOn(was: Net, n: Net, d: Delivery)
    requires NetOk(n) && Shaking(was, n) && Ranking(was, n) && Deliverable(n, d)
    ensures Ranking(was, DeliverToB(n, d))
  {
    hide NodeOk, Flow, Recv, BurstOf, Walkable, Inbound, Bringing;
    if n.ab[0].ServerW? {
      RankGreeted(was, n, d);
    } else {
      RankHandled(was, n, d);
    }
  }

  lemma RankHandled(was: Net, n: Net, d: Delivery)
    requires NetOk(n) && Shaking(was, n) && Ranking(was, n) && Deliverable(n, d) && !n.ab[0].ServerW?
    ensures Ranking(was, DeliverToB(n, d))
  {
    hide NodeOk, Recv, BurstOf, Walkable, PendingFor, Tracks, Pending, Alike, LocalView, RemoteView, ReplayAll,
      WellSent, At, After, Bringing;
    var w, rest := n.ab[0], n.ab[1..];
    var t := Recv(n.b, n.lb, n.a.sid, w, d.now);
    assert Up(n.b, n.lb) && WellSent(w, n.a.sid);
    RecvKeepsNode(n.b, n.lb, n.a.sid, w, d.now);
    RecvKeepsUuids(n.b, n.lb, n.a.sid, w, d.now);
    NodeShown(n.b, n.lb, n.a.sid);
    assert n.ab == [w] + rest && Early([w]);
    forall k, x ensures Tracks(PendingFor(At(t, k), rest, k, x), PendingFor(At(n.b, k), n.ab, k, x), x) {
      RecvTracks(n.b, n.lb, n.a.sid, w, d.now, rest, k, x);
    }
    BringingHandled(was.b, n.b, n.ab, was.a, Up(n.a, n.la), t);
    BringingRenames(was.a, n.a, n.ba, was.b, true, d.renames);
  }

  lemma RecvKeepsUuids(s: Server, link: Uid, peer: string, w: Wire, now: nat)
    requires NodeOk(s, link, peer) && Up(s, link) && WellSent(w, peer) && !w.ServerW?
    ensures Recv(s, link, peer, w, now).uuidLocal == s.uuidLocal
  {
    hide Recv, MemberInv, LocalIds, ChanNamed, WellSent;
    RecvKeepsPeer(s, link, peer, w, now);
  }

  lemma RankGreeted(was: Net, n: Net, d: Delivery)
    requires NetOk(n) && Shaking(was, n) && Ranking(was, n) && Deliverable(n, d) && n.ab[0].ServerW?
    ensures Ranking(was, DeliverToB(n, d))
  {
    hide NodeOk, Recv, BurstOf, Walkable, PendingFor, Tracks, LocalView, RemoteView, ReplayAll, WellSent, At, Inbound,
      Bringing;
    var w, rest := n.ab[0], n.ab[1..];
    var t := Recv(n.b, n.lb, n.a.sid, w, d.now);
    assert !Up(n.b, n.lb) && WellSent(w, n.a.sid);
    LinkedUp(n.b, n.lb, n.a.sid, w, d.now);
    LinkedChannels(n.b, n.lb, n.a.sid, w, d.now);
    LinkedUuids(n.b, n.lb, n.a.sid, w, d.now);
    assert n.ab == [w] + rest;
    forall k, x ensures Tracks(PendingFor(At(t, k), rest, k, x), PendingFor(At(n.b, k), n.ab, k, x), x) {
      SameAt(n.b, t, k);
      SilentTracks(At(n.b, k), w, rest, k, x);
    }
    BringingHandled(was.b, n.b, n.ab, was.a, Up(n.a, n.la), t);
    NodeTidy(t, n.lb, n.a.sid);
    BringingBurst(was.a, n.a, n.ba, was.b, t, d.walk);
  }

  lemma LinkedUuids(s: Server, link: Uid, peer: string, w: Wire, now: nat)
    requires NodeOk(s, link, peer) && !Up(s, link) && w.ServerW? && WellSent(w, peer)
    ensures Recv(s, link, peer, w, now).uuidLocal == s.uuidLocal
  {
    hide CloseLink, Tidy, OfPeer;
  }

  ghost predicate BothMeet(a: Server, b: Server) {
    RanksMeet(a, b) && RanksMeet(b, a)
  }

  /** Nothing left in flight: on a linkable channel the bursts gave every user the status its own server kept. */
  lemma ShakenMeet(was: Net, n: Net)
    requires NetOk(n) && Ranking(was, n) && Quiet(n) && AllLinkable(was)
    ensures RanksMeet(n.a, n.b)
  {
    hide NetOk, Linkable, Fate;
    QuietUp(n);
    forall k, x ensures Consistent(OwnRank(n.a, k, x), ShownRank(n.b, k, x)) {
      assert Linkable(At(was.a, k), At(was.b, k));
      assert PendingFor(At(n.a, k), n.ba, k, x) == At(n.a, k) && PendingFor(At(n.b, k), n.ab, k, x) == At(n.b, k);
      assert Fate(At(n.a, k), At(was.a, k), At(was.b, k), was.b.uuidLocal, x);
      assert Fate(At(n.b, k), At(was.b, k), At(was.a, k), was.a.uuidLocal, x);
      FatesMeet(n.a, n.b, At(was.a, k), At(was.b, k), was.b.uuidLocal, k, x);
    }
  }

  lemma FatesMeet(
    a: Server, b: Server, mine: Option<Channel>, his: Option<Channel>, ids: map<string, Uid>, k: string, x: string)
    requires Linkable(mine, his) && Fate(At(a, k), mine, his, ids, x) && Fate(At(b, k), his, mine, a.uuidLocal, x)
    ensures Consistent(OwnRank(a, k, x), ShownRank(b, k, x))
  {
    hide Status, OthersMeet, MasksWithin;
  }

  lemma ShakenRanks(was: Net, n: Net)
    requires NetOk(n) && Ranking(was, n) && Quiet(n) && AllLinkable(was)
    ensures BothMeet(n.a, n.b)
  {
    hide NetOk, Ranking, Linkable, RanksMeet, At;
    ShakenMeet(was, n);
    SwapOk(n);
    RankingSwap(was, n);
    forall k ensures Linkable(At(was.b, k), At(was.a, k)) { LinkableSwap(At(was.a, k), At(was.b, k)); }
    ShakenMeet(Swap(was), Swap(n));
  }

  lemma LinkableSwap(x: Option<Channel>, y: Option<Channel>)
    requires Linkable(x, y)
    ensures Linkable(y, x)
  {
    hide Follows;
  }

  // ----- a user acts and the peer hears of it -----

  ghost predicate OwnShrinks(s: Server, t: Server, k0: string, x0: string) {
    forall k, x :: k != k0 || x != x0 ==> OwnRank(t, k, x).Some? ==> OwnRank(t, k, x) == OwnRank(s, k, x)
  }

  ghost predicate ShownShrinks(s: Server, t: Server, k0: string, x0: string) {
    forall k, x :: k != k0 || x != x0 ==> ShownRank(t, k, x).Some? ==> ShownRank(t, k, x) == ShownRank(s, k, x)
  }

  /** Nobody has a status that was not there before. */
  ghost predicate Shrinks(s: Server, t: Server) {
    && (forall k, x :: OwnRank(t, k, x).Some? ==> OwnRank(t, k, x) == OwnRank(s, k, x))
    && forall k, x :: ShownRank(t, k, x).Some? ==> ShownRank(t, k, x) == ShownRank(s, k, x)
  }

  lemma ShrunkMeet(a: Server, b: Server, a': Server, b': Server)
    requires BothMeet(a, b) && Shrinks(a, a') && Shrinks(b, b')
    ensures BothMeet(a', b')
  {
    hide OwnRank, ShownRank;
    forall k, x
      ensures Consistent(OwnRank(a', k, x), ShownRank(b', k, x)) && Consistent(OwnRank(b', k, x), ShownRank(a', k, x))
    {
      assert Consistent(OwnRank(a, k, x), ShownRank(b, k, x)) && Consistent(OwnRank(b, k, x), ShownRank(a, k, x));
    }
  }

  /** One user of `a` got a new status on one channel, the same at both ends. */
  lemma GrownMeet(a: Server, b: Server, a': Server, b': Server, k0: string, x0: string)
    requires BothMeet(a, b) && OwnShrinks(a, a', k0, x0) && ShownShrinks(b, b', k0, x0)
    requires forall k, x :: ShownRank(a', k, x) == ShownRank(a, k, x) && OwnRank(b', k, x) == OwnRank(b, k, x)
    requires Consistent(OwnRank(a', k0, x0), ShownRank(b', k0, x0))
    ensures BothMeet(a', b')
  {
    hide OwnRank, ShownRank;
    forall k, x
      ensures Consistent(OwnRank(a', k, x), ShownRank(b', k, x)) && Consistent(OwnRank(b', k, x), ShownRank(a', k, x))
    {
      assert Consistent(OwnRank(a, k, x), ShownRank(b, k, x)) && Consistent(OwnRank(b, k, x), ShownRank(a, k, x));
    }
  }

  /** Same channels, and no uuid but perhaps that of somebody on no channel is new. */
  lemma SameChannelsShrink(s: Server, t: Server)
    requires t.channels == s.channels
    requires forall x :: x in t.uuidLocal ==>
      (x in s.uuidLocal && s.uuidLocal[x] == t.uuidLocal[x]) || forall k :: !Holds(s.channels, k, t.uuidLocal[x])
    ensures Shrinks(s, t)
  {
    hide Status;
    forall k, x | OwnRank(t, k, x).Some? ensures OwnRank(t, k, x) == OwnRank(s, k, x) {
      assert Holds(s.channels, k, t.uuidLocal[x]);
    }
  }

  /** Members went, perhaps with their channels; those who stayed are as they were. */
  ghost predicate Fewer(c: map<string, Channel>, d: map<string, Channel>) {
    forall k :: k in d ==> k in c && Subset(d[k].members, c[k].members) && Subset(d[k].rmembers, c[k].rmembers)
  }

  ghost predicate Subset<K>(d: map<K, Member>, c: map<K, Member>) {
    forall u :: u in d ==> u in c && d[u] == c[u]
  }

  lemma FewerShrinks(s: Server, t: Server)
    requires Fewer(s.channels, t.channels)
    requires forall x :: x in t.uuidLocal ==> x in s.uuidLocal && s.uuidLocal[x] == t.uuidLocal[x]
    ensures Shrinks(s, t)
  {
    hide Status;
  }

  lemma LeaveShrinks(s: Server, uid: Uid, key: string)
    ensures Shrinks(s, Leave(s, uid, key))
  {
    FewerShrinks(s, Leave(s, uid, key));
  }

  lemma QuitShrinks(s: Server, uid: Uid)
    ensures Shrinks(s, RemoveUser(s, uid))
  {
    hide Fold;
    FewerShrinks(s, RemoveUser(s, uid));
  }

  lemma PartShrinks(s: Server, link: Uid, uuid: string, chan: string)
    ensures Shrinks(s, PartRecv(s, link, uuid, chan))
  {
    hide Fold;
    FewerShrinks(s, PartRecv(s, link, uuid, chan));
  }

  lemma RemoteShrinks(s: Server, link: Uid, uuid: string)
    ensures Shrinks(s, QuitRecv(s, link, uuid))
  {
    hide Fold;
    FewerShrinks(s, QuitRecv(s, link, uuid));
  }

  /** Replacing a channel by one with the same members in place. */
  lemma SettingShrinks(s: Server, key: string, ch: Channel)
    requires key in s.channels && ch.members == s.channels[key].members && ch.rmembers == s.channels[key].rmembers
    ensures Shrinks(s, s.(channels := s.channels[key := ch]))
  {
    FewerShrinks(s, s.(channels := s.channels[key := ch]));
  }

  lemma PlainChange(s: Server, ch: Channel, c: Change)
    requires !c.Rank?
    ensures ChangedHere(s, ch, c).members == ch.members && ChangedHere(s, ch, c).rmembers == ch.rmembers
    ensures Changed(ch, c).members == ch.members && Changed(ch, c).rmembers == ch.rmembers
  {
    hide SetFlag, WithMask, WithoutMask, WithoutFolded;
  }

  /** What the peer makes of the lines `ws` sent by a step at A, if there are any. */
  ghost predicate RanksHeard(a: Server, b: Server, lb: Uid, sid: string, ws: seq<Wire>) {
    && |ws| <= 1 && (ws == [] ==> BothMeet(a, b))
    && forall now: nat :: ws != [] ==> BothMeet(a, Recv(b, lb, sid, ws[0], now))
  }

  /** A step and the line about it that only take status away, or touch none. */
  lemma ShrunkHeard(n: Net, e: Event)
    requires BothMeet(n.a, n.b) && |Sends(n.a, e)| <= 1 && Shrinks(n.a, Step(n.a, e))
    requires forall now: nat ::
      Sends(n.a, e) != [] ==> Shrinks(n.b, Recv(n.b, n.lb, n.a.sid, Sends(n.a, e)[0], now))
    ensures RanksHeard(Step(n.a, e), n.b, n.lb, n.a.sid, Sends(n.a, e))
  {
    hide BothMeet, Shrinks, Recv, Step, Sends;
    assert Shrinks(n.b, n.b) by { SelfShrinks(n.b); }
    ShrunkMeet(n.a, n.b, Step(n.a, e), n.b);
    forall now: nat | Sends(n.a, e) != []
      ensures BothMeet(Step(n.a, e), Recv(n.b, n.lb, n.a.sid, Sends(n.a, e)[0], now))
    {
      ShrunkMeet(n.a, n.b, Step(n.a, e), Recv(n.b, n.lb, n.a.sid, Sends(n.a, e)[0], now));
    }
  }

  lemma SelfShrinks(s: Server)
    ensures Shrinks(s, s)
  {
  }

  lemma SilentShrinks(s: Server, link: Uid, peer: string, w: Wire, now: nat)
    requires NodeOk(s, link, peer) && Up(s, link) && WellSent(w, peer) && (w.UidW? || w.NickW? || w.SaveW?)
    ensures Shrinks(s, Recv(s, link, peer, w, now))
  {
    hide NodeOk, WellSent, Recv;
    SilentKeeps(s, link, peer, w, now);
    RecvKeepsUuids(s, link, peer, w, now);
    SameChannelsShrink(s, Recv(s, link, peer, w, now));
  }

  lemma QuietShrinks(s: Server, e: Event)
    requires MemberInv(s) && LocalOk(s, e) && (e.Connects? || e.Registers? || e.TakesNick?)
    ensures Shrinks(s, Step(s, e))
  {
    hide Fold, OfPeer, RemotesKnown, LinksLive, RegisteredOnly;
    if e.Connects? {
      forall k ensures !Holds(s.channels, k, e.uid) { assert !Lists(s.users, e.uid, k); }
    }
    SameChannelsShrink(s, Step(s, e));
  }

  lemma QuietRanks(n: Net, e: Event)
    requires NetOk(n) && Quiet(n) && BothMeet(n.a, n.b) && LocalOk(n.a, e)
    requires e.Connects? || e.Registers? || e.TakesNick?
    ensures RanksHeard(Step(n.a, e), n.b, n.lb, n.a.sid, Sends(n.a, e))
  {
    hide NodeOk, Flow, BothMeet, Shrinks, Recv, Step, LocalOk, WellSent;
    QuietUp(n);
    NodeInv(n.a, n.la, n.b.sid);
    QuietShrinks(n.a, e);
    NodeTidy(n.a, n.la, n.b.sid);
    SendsWell(n.a, e);
    forall now: nat | Sends(n.a, e) != []
      ensures Shrinks(n.b, Recv(n.b, n.lb, n.a.sid, Sends(n.a, e)[0], now))
    {
      SilentShrinks(n.b, n.lb, n.a.sid, Sends(n.a, e)[0], now);
    }
    ShrunkHeard(n, e);
  }

  lemma LeaveRanks(n: Net, e: Event, uid: Uid)
    requires BothMeet(n.a, n.b) && (e == Quits(uid) || (exists c :: e == Parts(uid, c) || e == ForceParted(uid, c)))
    ensures RanksHeard(Step(n.a, e), n.b, n.lb, n.a.sid, Sends(n.a, e))
  {
    hide BothMeet, Shrinks, Recv, Leave, RemoveUser, Fold, PartRecv, QuitRecv, IsMember;
    SelfShrinks(n.a);
    if e.Quits? {
      QuitShrinks(n.a, uid);
    } else {
      LeaveShrinks(n.a, uid, Fold(if e.Parts? then e.target else e.chan));
    }
    forall now: nat | Sends(n.a, e) != []
      ensures Shrinks(n.b, Recv(n.b, n.lb, n.a.sid, Sends(n.a, e)[0], now))
    {
      var w := Sends(n.a, e)[0];
      RecvPart(n.b, n.lb, n.a.sid, w, now);
      if w.PartW? { PartShrinks(n.b, n.lb, w.uuid, w.chan); } else { RemoteShrinks(n.b, n.lb, w.uuid); }
    }
    ShrunkHeard(n, e);
  }

  // ----- joins -----

  /** A join gives one user a status and nobody else. */
  lemma JoinOwn(a: Server, e: Event)
    requires e.Joins? && Enters(a, e) && LocalIds(a)
    ensures var key, t, uuid := Fold(e.name), Step(a, e), a.users[e.uid].uuid;
      && OwnShrinks(a, t, key, uuid) && forall k, x :: ShownRank(t, k, x) == ShownRank(a, k, x)
  {
    hide Fold, ValidChan, Status;
    var key, t, uuid := Fold(e.name), Step(a, e), a.users[e.uid].uuid;
    forall k, x | (k != key || x != uuid) && OwnRank(t, k, x).Some? ensures OwnRank(t, k, x) == OwnRank(a, k, x) {
      assert Maps(a.uuidLocal, x, a.uuidLocal[x]);
    }
  }

  lemma JoinOwnRank(a: Server, e: Event)
    requires e.Joins? && Enters(a, e) && LocalIds(a)
    ensures var key, t, uuid := Fold(e.name), Step(a, e), a.users[e.uid].uuid;
      && key in t.channels && e.uid in t.channels[key].members
      && t.channels[key].members[e.uid] == Member(if key in a.channels then {} else {Op}, [])
      && OwnRank(t, key, uuid) == Some(Status(t.channels[key].members[e.uid]))
  {
    hide Fold, ValidChan, Status;
    assert Maps(a.uuidLocal, a.users[e.uid].uuid, e.uid);
  }

  /** The IJOIN at the peer: nobody else's status changes, and the newcomer has none. */
  lemma IjoinShown(b: Server, lb: Uid, uuid: string, chan: string, ts: nat)
    requires SourcedVia(b, uuid, lb) && Fold(chan) in b.channels && chan != "" && chan[0] == '#'
    ensures var t := IjoinRecv(b, lb, uuid, chan, ts, "");
      && ShownShrinks(b, t, Fold(chan), uuid) && (forall k, x :: OwnRank(t, k, x) == OwnRank(b, k, x))
      && ShownRank(t, Fold(chan), uuid) == Some({})
  {
    hide Fold, SourcedVia;
    StatusOfCleared(PlainMember);
  }

  lemma NoLetters()
    ensures ModeLetters(Member({}, [])) == "" && Status(Member({}, [])) == {}
  {
  }

  lemma JoinHeldRanks(n: Net, e: Event, now: nat)
    requires NetOk(n) && Quiet(n) && Agree(n.a, n.b) && BothMeet(n.a, n.b) && LocalOk(n.a, e)
    requires e.Joins? && Enters(n.a, e) && Fold(e.name) in n.a.channels && |Sends(n.a, e)| == 1
    ensures BothMeet(Step(n.a, e), Recv(n.b, n.lb, n.a.sid, Sends(n.a, e)[0], now))
  {
    hide NodeOk, Flow, BothMeet, Fold, ValidChan, ModeLetters, Sends, IjoinRecv, Step, OwnRank, ShownRank, Status,
      OwnShrinks, ShownShrinks, SourcedVia, ChanNamed, LocalIds;
    var a, b, key := n.a, n.b, Fold(e.name);
    var w, uuid := Sends(a, e)[0], a.users[e.uid].uuid;
    NodeInv(a, n.la, b.sid);
    NodeNamed(a, n.la, b.sid);
    JoinSends(a, e);
    JoinOwn(a, e);
    JoinOwnRank(a, e);
    NoLetters();
    KnownThere(n, e.uid);
    JoinedAlike(a, e, key);
    assert key in b.channels by { assert Alike(At(a, key), At(b, key)); }
    LocalKeepsNamed(a, e);
    assert w.chan != "" && w.chan[0] == '#' by { NamedHash(Step(a, e), key); }
    IjoinShown(b, n.lb, uuid, w.chan, w.ts);
    GrownMeet(a, b, Step(a, e), IjoinRecv(b, n.lb, uuid, w.chan, w.ts, ""), key, uuid);
  }

  lemma NamedHash(s: Server, key: string)
    requires ChanNamed(s.channels) && key in s.channels
    ensures s.channels[key].name != "" && s.channels[key].name[0] == '#'
  {
    hide Fold;
    assert NamedAs(s.channels[key].name, key);
  }

  /** The FJOIN of a new channel at the peer. */
  lemma FjoinNewShown(b: Server, name: string, f: Burst, e: Entry, now: nat)
    requires Fold(name) !in b.channels && f.entries == [e]
    ensures var t := ChanRecv(b, name, FJoin(f), now);
      && ShownShrinks(b, t, Fold(name), e.uuid) && (forall k, x :: OwnRank(t, k, x) == OwnRank(b, k, x))
      && Consistent(ShownRank(t, Fold(name), e.uuid), Some(Status(GrantLetters(PlainMember, e.letters))))
  {
    hide Fold, ApplyModeString, Status, GrantLetters, Enterable, Enter;
    EnterOne(e, Enterable(b));
  }

  lemma EnterOne(e: Entry, known: set<string>)
    ensures Enter(map[], [e], known, true) ==
      if e.uuid in known then map[e.uuid := Arriving(e.letters, true)] else map[]
  {
    hide Arriving;
    var next: map<string, Member> := if e.uuid in known then map[e.uuid := Arriving(e.letters, true)] else map[];
    assert [e][1..] == [] && Enter(next, [], known, true) == next;
  }

  lemma JoinNewRanks(n: Net, e: Event, now: nat)
    requires NetOk(n) && Agree(n.a, n.b) && BothMeet(n.a, n.b)
    requires e.Joins? && Enters(n.a, e) && Fold(e.name) !in n.a.channels && |Sends(n.a, e)| == 1
    ensures BothMeet(Step(n.a, e), Recv(n.b, n.lb, n.a.sid, Sends(n.a, e)[0], now))
  {
    hide NodeOk, Flow, BothMeet, Fold, ValidChan, ModeLetters, Sends, Render, ChanRecv, Step, OwnRank, ShownRank,
      Status, OwnShrinks, ShownShrinks, GrantLetters, LocalIds;
    var a, b, key := n.a, n.b, Fold(e.name);
    var w, uuid := Sends(a, e)[0], a.users[e.uid].uuid;
    NodeInv(a, n.la, b.sid);
    JoinSends(a, e);
    JoinOwn(a, e);
    JoinOwnRank(a, e);
    LettersRoundTrip(Step(a, e).channels[key].members[e.uid]);
    assert key !in b.channels by { assert Alike(At(a, key), At(b, key)); }
    FjoinNewShown(b, e.name, w.line.burst, w.line.burst.entries[0], now);
    GrownMeet(a, b, Step(a, e), ChanRecv(b, e.name, w.line, now), key, uuid);
  }

  lemma JoinRanks(n: Net, e: Event)
    requires NetOk(n) && Quiet(n) && Agree(n.a, n.b) && BothMeet(n.a, n.b) && LocalOk(n.a, e) && e.Joins?
    ensures RanksHeard(Step(n.a, e), n.b, n.lb, n.a.sid, Sends(n.a, e))
  {
    hide NetOk, Agree, BothMeet, Recv, Fold, ValidChan, ModeLetters, Render, Sends, LocalOk, Step;
    if Enters(n.a, e) {
      JoinSends(n.a, e);
      forall now: nat ensures BothMeet(Step(n.a, e), Recv(n.b, n.lb, n.a.sid, Sends(n.a, e)[0], now)) {
        if Fold(e.name) in n.a.channels {
          JoinHeldRanks(n, e, now);
        } else {
          JoinNewRanks(n, e, now);
        }
      }
    } else {
      StaysOut(n.a, e);
    }
  }

  // ----- mode changes -----

  lemma ModeShrinks(s: Server, e: Event)
    requires e.ModeChanged? && !e.change.Rank?
    ensures Shrinks(s, Step(s, e))
  {
    hide Fold, ChangedHere, Changed, Shrinks;
    SelfShrinks(s);
    if ModeApplies(s, e.uid, e.chan, e.change, e.allowed) {
      var ch := s.channels[Fold(e.chan)];
      PlainChange(s, ch, e.change);
      SettingShrinks(s, Fold(e.chan), ChangedHere(s, ch, e.change));
    }
  }

  lemma FmodeShrinks(s: Server, chan: string, ts: nat, c: Change, now: nat)
    requires !c.Rank?
    ensures Shrinks(s, ChanRecv(s, chan, FMode(ts, c), now))
  {
    hide Fold, Changed, Shrinks, Enterable;
    SelfShrinks(s);
    if Fold(chan) in s.channels {
      var ch := s.channels[Fold(chan)];
      PlainChange(s, ch, c);
      SettingShrinks(s, Fold(chan), Changed(ch, c));
      SettingShrinks(s, Fold(chan), ch);
    }
  }

  lemma SettingRanks(n: Net, e: Event)
    requires BothMeet(n.a, n.b) && e.ModeChanged? && !e.change.Rank?
    ensures RanksHeard(Step(n.a, e), n.b, n.lb, n.a.sid, Sends(n.a, e))
  {
    hide BothMeet, Shrinks, Fold, ModeApplies, Step, ChanRecv;
    ModeShrinks(n.a, e);
    forall now: nat | Sends(n.a, e) != []
      ensures Shrinks(n.b, Recv(n.b, n.lb, n.a.sid, Sends(n.a, e)[0], now))
    {
      var w := Sends(n.a, e)[0];
      FmodeShrinks(n.b, w.chan, w.line.ts, e.change, now);
    }
    ShrunkHeard(n, e);
  }

  lemma RankOwn(a: Server, e: Event)
    requires e.ModeChanged? && e.change.Rank? && ModeApplies(a, e.uid, e.chan, e.change, e.allowed) && LocalIds(a)
    ensures var key, t, c := Fold(e.chan), Step(a, e), e.change;
      && OwnShrinks(a, t, key, c.uuid) && (forall k, x :: ShownRank(t, k, x) == ShownRank(a, k, x))
      && OwnRank(t, key, c.uuid) ==
           Some(Status(Ranked(a.channels[key].members[a.uuidLocal[c.uuid]], c.letter, c.on)))
  {
    hide Fold, Status, Ranked;
    var key, t, c := Fold(e.chan), Step(a, e), e.change;
    forall k, x | (k != key || x != c.uuid) && OwnRank(t, k, x).Some? ensures OwnRank(t, k, x) == OwnRank(a, k, x) {
      assert Maps(a.uuidLocal, x, a.uuidLocal[x]) && Maps(a.uuidLocal, c.uuid, a.uuidLocal[c.uuid]);
    }
  }

  lemma RankShown(b: Server, chan: string, ts: nat, c: Change, now: nat)
    requires c.Rank? && Fold(chan) in b.channels && ts == b.channels[Fold(chan)].created
    ensures var t, key := ChanRecv(b, chan, FMode(ts, c), now), Fold(chan);
      && ShownShrinks(b, t, key, c.uuid) && (forall k, x :: OwnRank(t, k, x) == OwnRank(b, k, x))
      && (ShownRank(t, key, c.uuid).Some? ==>
            c.uuid in b.channels[key].rmembers &&
            ShownRank(t, key, c.uuid).value == Status(Ranked(b.channels[key].rmembers[c.uuid], c.letter, c.on)))
  {
    hide Fold, Status, Ranked, Enterable;
  }

  /** A rank changes at both ends alike. */
  lemma RankRanks(n: Net, e: Event)
    requires NetOk(n) && Agree(n.a, n.b) && BothMeet(n.a, n.b) && e.ModeChanged? && e.change.Rank?
    ensures RanksHeard(Step(n.a, e), n.b, n.lb, n.a.sid, Sends(n.a, e))
  {
    hide NodeOk, Flow, RanksMeet, Fold, Step, ChanRecv, OwnShrinks, ShownShrinks, Status, Ranked, Alike, LocalIds;
    var a, b := n.a, n.b;
    if ModeApplies(a, e.uid, e.chan, e.change, e.allowed) {
      var key, c := Fold(e.chan), e.change;
      ModeSends(a, e);
      NodeInv(a, n.la, b.sid);
      RankOwn(a, e);
      assert key in b.channels && b.channels[key].created == a.channels[key].created by { HeldAlike(a, b, key); }
      forall now: nat ensures BothMeet(Step(a, e), Recv(b, n.lb, a.sid, Sends(a, e)[0], now)) {
        RankShown(b, e.chan, a.channels[key].created, c, now);
        RanksAgree(a, b, key, c);
        GrownMeet(a, b, Step(a, e), ChanRecv(b, e.chan, FMode(a.channels[key].created, c), now), key, c.uuid);
      }
    } else {
      Refused(a, e);
    }
  }

  lemma Refused(a: Server, e: Event)
    requires e.ModeChanged? && !ModeApplies(a, e.uid, e.chan, e.change, e.allowed)
    ensures Step(a, e) == a && Sends(a, e) == []
  {
    hide Fold, ModeApplies;
  }

  lemma HeldAlike(a: Server, b: Server, key: string)
    requires Agree(a, b) && key in a.channels
    ensures key in b.channels && b.channels[key].created == a.channels[key].created
  {
    assert Alike(At(a, key), At(b, key));
  }

  lemma RanksAgree(a: Server, b: Server, key: string, c: Change)
    requires RanksMeet(a, b) && c.Rank? && key in a.channels && c.uuid in a.uuidLocal
    requires a.uuidLocal[c.uuid] in a.channels[key].members && key in b.channels
    ensures c.uuid in b.channels[key].rmembers ==>
      Status(Ranked(a.channels[key].members[a.uuidLocal[c.uuid]], c.letter, c.on)) ==
      Status(Ranked(b.channels[key].rmembers[c.uuid], c.letter, c.on))
  {
    hide Status, Ranked;
    assert Consistent(OwnRank(a, key, c.uuid), ShownRank(b, key, c.uuid));
    if c.uuid in b.channels[key].rmembers {
      RankedStatus(a.channels[key].members[a.uuidLocal[c.uuid]], b.channels[key].rmembers[c.uuid], c.letter, c.on);
    }
  }

  /** Whatever a user does while nothing is in flight, the statuses meet again once the peer has heard of it. */
  lemma StepRanks(n: Net, e: Event)
    requires NetOk(n) && Quiet(n) && Agree(n.a, n.b) && BothMeet(n.a, n.b) && LocalOk(n.a, e)
    ensures RanksHeard(Step(n.a, e), n.b, n.lb, n.a.sid, Sends(n.a, e))
  {
    hide NetOk, Agree, BothMeet, Step, Sends, RanksHeard;
    match e {
      case Joins(uid, name, maxlen, admitted, now) => JoinRanks(n, e);
      case Parts(uid, target) => LeaveRanks(n, e, uid);
      case ForceParted(uid, chan) => LeaveRanks(n, e, uid);
      case ModeChanged(uid, chan, change, allowed) => if change.Rank? { RankRanks(n, e); } else { SettingRanks(n, e); }
      case Quits(uid) => LeaveRanks(n, e, uid);
      case _ => QuietRanks(n, e);
    }
  }

  // ----- runs in which nobody acts while a line is in flight -----

  /** After the handshake: the statuses meet, or will once the one line in flight is handled. */
  ghost predicate Settled(n: Net) {
    (OnlyRenames(n.ab) && OnlyRenames(n.ba) && BothMeet(n.a, n.b)) || RankTelling(n) || RankTelling(Swap(n))
  }

  ghost predicate RankTelling(n: Net) {
    n.ba == [] && |n.ab| == 1 && RanksHeard(n.a, n.b, n.lb, n.a.sid, n.ab)
  }

  lemma SettledSwap(n: Net)
    ensures Settled(n) <==> Settled(Swap(n))
  {
    hide RanksHeard, RanksMeet;
    assert Swap(Swap(n)) == n;
  }

  lemma SettledAct(n: Net, e: Event)
    requires NetOk(n) && Calm(n) && Settled(n) && Quiet(n) && LocalOk(n.a, e)
    ensures Settled(ActAtA(n, e))
  {
    hide NetOk, Agree, BothMeet, Step, Sends, LocalOk;
    assert Agree(n.a, n.b) && BothMeet(n.a, n.b);
    StepRanks(n, e);
    assert n.ab + Sends(n.a, e) == Sends(n.a, e);
    LocalKeepsLink(n.a, e) by { LocalIs(n.a, e); }
  }

  lemma SettledDeliver(n: Net, d: Delivery)
    requires NetOk(n) && Calm(n) && Settled(n) && Deliverable(n, d)
    ensures Settled(DeliverToB(n, d))
  {
    hide NodeOk, Agree, BothMeet, Shrinks, Recv, LocalView, RemoteView, ReplayAll, WellSent, Walkable, BurstOf, Heard;
    var w := n.ab[0];
    var t := Recv(n.b, n.lb, n.a.sid, w, d.now);
    assert Up(n.b, n.lb) && !w.ServerW? && WellSent(w, n.a.sid);
    if OnlyRenames(n.ab) && OnlyRenames(n.ba) && BothMeet(n.a, n.b) {
      SilentShrinks(n.b, n.lb, n.a.sid, w, d.now);
      SelfShrinks(n.a);
      ShrunkMeet(n.a, n.b, n.a, t);
    } else {
      assert RankTelling(n);
      assert BothMeet(n.a, t);
      assert n.ab[1..] == [];
    }
  }

  lemma SettledNext(n: Net, st: NetStep)
    requires NetOk(n) && Calm(n) && Settled(n) && CanStep(n, st) && (Acts(st) ==> Quiet(n))
    ensures Settled(NextNet(n, st))
  {
    hide NetOk, Calm, Settled, ActAtA, DeliverToB, LocalOk, Deliverable;
    SwapOk(n);
    CalmSwap(n);
    SettledSwap(n);
    match st {
      case AtA(e) => SettledAct(n, e);
      case AtB(e) => SettledAct(Swap(n), e); SettledSwap(ActAtA(Swap(n), e));
      case ToB(d) => SettledDeliver(n, d);
      case ToA(d) => SettledDeliver(Swap(n), d); SettledSwap(DeliverToB(Swap(n), d));
    }
  }

  lemma RankNext(was: Net, n: Net, st: NetStep)
    requires NetOk(n) && Shaking(was, n) && Ranking(was, n) && CanStep(n, st) && !Acts(st)
    ensures Ranking(was, NextNet(n, st))
  {
    hide NetOk, Shaking, Ranking, DeliverToB, Deliverable;
    SwapOk(n);
    ShakingSwap(was, n);
    RankingSwap(was, n);
    match st {
      case ToB(d) => RankOn(was, n, d);
      case ToA(d) => RankOn(Swap(was), Swap(n), d); RankingSwap(was, Swap(DeliverToB(Swap(n), d)));
    }
  }

  ghost predicate InStep(was: Net, n: Net) {
    (Shaking(was, n) && Ranking(was, n)) || (Calm(n) && Settled(n))
  }

  lemma ShakenSettled(was: Net, n: Net)
    requires NetOk(n) && Shaking(was, n) && Ranking(was, n) && Quiet(n) && AllKnown(was) && AllLinkable(was)
    ensures Calm(n) && Settled(n)
  {
    hide NetOk, Shaking, Ranking, AllKnown, AllLinkable, BothMeet, Calm;
    ShakenCalm(was, n);
    ShakenRanks(was, n);
  }

  lemma {:induction false} PacedRanked(was: Net, n: Net, steps: seq<NetStep>)
    requires NetOk(n) && Paced(n, steps) && AllKnown(was) && AllLinkable(was) && InStep(was, n)
    ensures CanRun(n, steps)
    ensures var r := RunNet(n, steps); NetOk(r) && InStep(was, r)
    decreases |steps|
  {
    hide NetOk, Shaking, Ranking, Calm, Settled, CanStep, NextNet, AllKnown, AllLinkable, Quiet;
    PacedRuns(n, steps);
    if steps != [] {
      NextKeeps(n, steps[0]);
      if Acts(steps[0]) && Shaking(was, n) && Ranking(was, n) { ShakenSettled(was, n); }
      if Calm(n) && Settled(n) {
        CalmNext(n, steps[0]);
        SettledNext(n, steps[0]);
      } else {
        ShakeNext(was, n, steps[0]);
        RankNext(was, n, steps[0]);
      }
      PacedRanked(was, NextNet(n, steps[0]), steps[1..]);
    }
  }

  /**
   * From the handshake on, as long as every line is delivered before the next user acts: whenever nothing is in flight
   * each server shows every user of the other on the channels that user is on, with the status its own server gives.
   */
  lemma RanksConverge(n: Net, steps: seq<NetStep>)
    requires Greeting(n) && AllKnown(n) && AllLinkable(n) && Paced(n, steps)
    ensures CanRun(n, steps)
    ensures var r := RunNet(n, steps); Quiet(r) ==> SameRanks(r.a, r.b) && SameRanks(r.b, r.a)
  {
    hide Greeting, AllKnown, AllLinkable, Shaking, Ranking, NetOk, Paced, RunNet, RanksMeet, SameRanks;
    GreetingOk(n);
    GreetingShakes(n);
    GreetingRanks(n);
    PacedRanked(n, n, steps);
    var r := RunNet(n, steps);
    if Quiet(r) {
      if !(Calm(r) && Settled(r)) { ShakenSettled(n, r); }
      QuietViews(r);
      RanksSame(r.a, r.b);
      RanksSame(r.b, r.a);
    }
  }
}
