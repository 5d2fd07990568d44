/** What a server shows and what its peer has recorded: membership as a view, and how each line changes it. */
module MembershipViews {
  import opened Wrappers
  import opened Channels
  import opened ChannelMerge
  import opened ServerState
  import opened MembershipInvariant
  import opened NickInvariant
  import ServerRuns

  /** Users by uuid, and who is on which channel (folded name, uuid). */
  datatype View = View(known: set<string>, on: set<(string, string)>)

  const NOTHING := View({}, {})

  /** The lines two servers exchange about users and membership. */
  datatype Wire =
    | ServerW(sid: string)
    | UidW(uuid: string, ts: nat, nick: string, ident: string, ip: string)
    | NickW(uuid: string, nick: string, ts: nat)
    | SaveW(uuid: string, ts: nat)
    | ChanW(chan: string, line: Line)
    | IjoinW(uuid: string, chan: string, ts: nat, letters: string)
    | PartW(uuid: string, chan: string)
    | QuitW(uuid: string)

  /** A server's own registered users and their channels. */
  function LocalView(s: Server): View {
    View(set x | x in s.uuidLocal && s.uuidLocal[x] in s.users && s.users[s.uuidLocal[x]].registered,
         set k, x | k in s.channels && x in s.uuidLocal && s.uuidLocal[x] in s.channels[k].members :: (k, x))
  }

  /** What a server has recorded of its peer's users. */
  function RemoteView(s: Server): View {
    View(s.remoteUsers.Keys, set k, x | k in s.channels && x in s.channels[k].rmembers :: (k, x))
  }

  /** The meaning of a line: a membership edit. */
  function Replay(v: View, w: Wire): View {
    match w
    case UidW(uuid, _, _, _, _) => v.(known := v.known + {uuid})
    case ChanW(chan, FJoin(b)) =>
      v.(on := v.on + set e | e in b.entries && e.uuid in v.known :: (Fold(chan), e.uuid))
    case IjoinW(uuid, chan, _, _) => if uuid in v.known then v.(on := v.on + {(Fold(chan), uuid)}) else v
    case PartW(uuid, chan) => v.(on := v.on - {(Fold(chan), uuid)})
    case QuitW(uuid) => View(v.known - {uuid}, set p | p in v.on && p.1 != uuid)
    case _ => v
  }

  function ReplayAll(v: View, ws: seq<Wire>): View
    decreases |ws|
  {
    if ws == [] then v else ReplayAll(Replay(v, ws[0]), ws[1..])
  }

  lemma {:induction false} ReplayAppend(v: View, a: seq<Wire>, b: seq<Wire>)
    ensures ReplayAll(v, a + b) == ReplayAll(ReplayAll(v, a), b)
    decreases |a|
  {
    hide Replay;
    if a == [] {
      assert a + b == b;
    } else {
      assert (a + b)[1..] == a[1..] + b;
      ReplayAppend(Replay(v, a[0]), a[1..], b);
    }
  }

  lemma SameView(v: View, w: View)
    requires v.known == w.known && forall k, x :: (k, x) in v.on <==> (k, x) in w.on
    ensures v == w
  {
    forall p: (string, string) ensures p in v.on <==> p in w.on { assert p == (p.0, p.1); }
  }

  // ----- receiving -----

  /** A burst line for one channel. */
  function ChanRecv(s: Server, chan: string, line: Line, now: nat): Server {
    var key := Fold(chan);
    var held := if key in s.channels then Some(s.channels[key]) else None;
    match Receive(held, chan, now, Enterable(s), line)
    case Some(ch) => s.(channels := s.channels[key := ch])
    case None => s
  }

  /** The handler of each line from the peer `peer` on `link`. */
  function Recv(s: Server, link: Uid, peer: string, w: Wire, now: nat): Server {
    match w
    case ServerW(sid) => LinkServer(s, link, sid, true, false)
    case UidW(uuid, ts, nick, ident, ip) => UidRecv(s, link, peer, uuid, ts, nick, ident, ip, now)
    case NickW(uuid, nick, ts) => NickRecv(s, link, uuid, nick, ts, now)
    case SaveW(uuid, ts) => SaveRecv(s, uuid, ts, now)
    case ChanW(chan, line) => ChanRecv(s, chan, line, now)
    case IjoinW(uuid, chan, ts, letters) => IjoinRecv(s, link, uuid, chan, ts, letters)
    case PartW(uuid, chan) => PartRecv(s, link, uuid, chan)
    case QuitW(uuid) => QuitRecv(s, link, uuid)
  }

  /** Everything this server knows of others came over the one registered link, under the peer's SID. */
  ghost predicate PeerOk(s: Server, link: Uid, peer: string) {
    && |peer| == 3 && |s.sid| == 3 && s.sid != peer
    && peer in s.servers && s.servers[peer].via == link
    && (forall r :: r in s.remoteUsers ==> OfPeer(r, peer) && s.remoteUsers[r].via == link)
    && (forall x :: x in s.uuidLocal ==> OfPeer(x, s.sid))
  }

  predicate OfPeer(uuid: string, sid: string) {
    |uuid| == 9 && sid <= uuid
  }

  /** Lines a server with this SID writes. */
  predicate WellSent(w: Wire, sid: string) {
    match w
    case ServerW(s) => s == sid
    case UidW(uuid, _, _, _, _) => OfPeer(uuid, sid)
    case IjoinW(_, chan, _, _) => chan != "" && chan[0] == '#'
    case ChanW(chan, _) => chan != "" && chan[0] == '#'
    case _ => true
  }

  lemma PrefixesDiffer(x: string, a: string, b: string)
    requires OfPeer(x, a) && OfPeer(x, b) && |a| == |b|
    ensures a == b
  {
    assert a == x[..|a|] && b == x[..|b|];
  }

  lemma AllEnterable(s: Server, link: Uid, peer: string)
    requires PeerOk(s, link, peer)
    ensures Enterable(s) == s.remoteUsers.Keys
  {
    hide OfPeer;
    forall x | x in s.remoteUsers ensures x !in s.uuidLocal {
      if x in s.uuidLocal { PrefixesDiffer(x, peer, s.sid); }
    }
  }

  /** A line received is a line replayed: the receiver's record changes exactly as the line says. */
  lemma RecvReplays(s: Server, link: Uid, peer: string, w: Wire, now: nat)
    requires PeerOk(s, link, peer) && MemberInv(s) && WellSent(w, peer) && !w.ServerW?
    ensures RemoteView(Recv(s, link, peer, w, now)) == Replay(RemoteView(s), w)
  {
    hide UidRecv, NickRecv, SaveRecv, ChanRecv, IjoinRecv, PartRecv, QuitRecv, PeerOk, MemberInv, RemoteView, Replay;
    match w
    case UidW(uuid, ts, nick, ident, ip) => UidReplays(s, link, peer, w, now);
    case NickW(uuid, nick, ts) => NickReplays(s, link, peer, w, now);
    case SaveW(uuid, ts) => SaveReplays(s, link, peer, w, now);
    case ChanW(chan, line) => ChanReplays(s, link, peer, w, now);
    case IjoinW(uuid, chan, ts, letters) => IjoinReplays(s, link, peer, w, now);
    case PartW(uuid, chan) => PartReplays(s, link, peer, w, now);
    case QuitW(uuid) => QuitReplays(s, link, peer, w, now);
  }

  lemma OnlyNamesView(s: Server, t: Server)
    requires ServerRuns.OnlyNames(s, t)
    ensures RemoteView(t) == RemoteView(s)
  {
  }

  lemma UidReplays(s: Server, link: Uid, peer: string, w: Wire, now: nat)
    requires w.UidW? && PeerOk(s, link, peer) && WellSent(w, peer)
    ensures RemoteView(UidRecv(s, link, peer, w.uuid, w.ts, w.nick, w.ident, w.ip, now)) == Replay(RemoteView(s), w)
  {
    hide Fold, Arbitrated, ServerIsService, ServerRuns.OnlyNames;
    assert SourceBehind(s, peer, link);
    if w.uuid in s.remoteUsers {
      assert s.remoteUsers.Keys + {w.uuid} == s.remoteUsers.Keys;
    } else {
      var t := Arbitrated(s, w.uuid, w.nick, w.ts, w.ident, w.ip, peer, ServerIsService(s, peer), now).0;
      ServerRuns.ArbitratedOnly(s, w.uuid, w.nick, w.ts, w.ident, w.ip, peer, ServerIsService(s, peer), now);
      OnlyNamesView(s, t);
      assert t.remoteUsers.Keys == s.remoteUsers.Keys;
    }
  }

  lemma NickReplays(s: Server, link: Uid, peer: string, w: Wire, now: nat)
    requires w.NickW?
    ensures RemoteView(NickRecv(s, link, w.uuid, w.nick, w.ts, now)) == Replay(RemoteView(s), w)
  {
    hide NickRecv, RemoteView, ServerRuns.OnlyNames;
    ServerRuns.NickRecvOnly(s, link, w.uuid, w.nick, w.ts, now);
    OnlyNamesView(s, NickRecv(s, link, w.uuid, w.nick, w.ts, now));
  }

  lemma SaveReplays(s: Server, link: Uid, peer: string, w: Wire, now: nat)
    requires w.SaveW?
    ensures RemoteView(SaveRecv(s, w.uuid, w.ts, now)) == Replay(RemoteView(s), w)
  {
    hide SaveRecv, RemoteView, ServerRuns.OnlyNames;
    ServerRuns.SaveRecvOnly(s, w.uuid, w.ts, now);
    OnlyNamesView(s, SaveRecv(s, w.uuid, w.ts, now));
  }

  lemma {:induction false} EnterKeys(
    rmembers: map<string, Member>, entries: seq<Entry>, known: set<string>, keep: bool, x: string)
    ensures x in Enter(rmembers, entries, known, keep) <==>
      x in rmembers || (x in known && Listed(entries, x))
    decreases |entries|
  {
    if entries != [] {
      var e := entries[0];
      var next := if e.uuid in known then rmembers[e.uuid := Arriving(e.letters, keep)] else rmembers;
      EnterKeys(next, entries[1..], known, keep, x);
      assert Listed(entries, x) <==> e.uuid == x || Listed(entries[1..], x) by {
        if Listed(entries[1..], x) {
          var k :| 0 <= k < |entries| - 1 && entries[1..][k].uuid == x;
          assert entries[k + 1].uuid == x;
        }
        if e.uuid != x && Listed(entries, x) {
          var k :| 0 <= k < |entries| && entries[k].uuid == x;
          assert entries[1..][k - 1].uuid == x;
        }
      }
    }
  }

  /** After an FJOIN the remote members are the old ones and the listed users that are known. */
  lemma FjoinMembers(held: Option<Channel>, name: string, now: nat, b: Burst, known: set<string>, x: string)
    ensures x in FjoinRecv(held, name, now, b, known).rmembers <==>
      (held.Some? && x in held.value.rmembers) || (x in known && Listed(b.entries, x))
  {
    hide ApplyModeString, Enter;
    var keep := held.None? || b.ts <= held.value.created;
    var ch := if held.None? then FreshFrom(NewChannel(name, now), b.ts, b.modes)
              else Arbitrate(held.value, b.ts, b.modes);
    EnterKeys(ch.rmembers, b.entries, known, keep, x);
    assert x in ch.rmembers <==> held.Some? && x in held.value.rmembers;
  }

  lemma ChanReplays(s: Server, link: Uid, peer: string, w: Wire, now: nat)
    requires w.ChanW? && PeerOk(s, link, peer)
    ensures RemoteView(ChanRecv(s, w.chan, w.line, now)) == Replay(RemoteView(s), w)
  {
    hide ChanRecv, RemoteView, Replay, PeerOk, Enterable;
    AllEnterable(s, link, peer);
    match w.line {
      case FMode(ts, change) => FmodeReplays(s, w.chan, ts, change, now);
      case FJoin(b) => FjoinReplays(s, w.chan, b, now, Fold(w.chan));
    }
  }

  lemma FmodeReplays(s: Server, chan: string, ts: nat, change: Change, now: nat)
    ensures RemoteView(ChanRecv(s, chan, FMode(ts, change), now)) ==
      Replay(RemoteView(s), ChanW(chan, FMode(ts, change)))
  {
    hide Fold, Enterable, Changed, RemoteView;
    var key := Fold(chan);
    if key in s.channels && ts <= s.channels[key].created {
      var ch := s.channels[key];
      ChangedKeeps(s, ch, change);
      ReplacedView(s, key, Changed(ch, change));
    } else if key in s.channels {
      assert s.channels[key := s.channels[key]] == s.channels;
    }
  }

  lemma ReplacedView(s: Server, key: string, ch: Channel)
    requires key in s.channels && ch.rmembers.Keys == s.channels[key].rmembers.Keys
    ensures RemoteView(s.(channels := s.channels[key := ch])) == RemoteView(s)
  {
    forall x ensures x in ch.rmembers <==> x in s.channels[key].rmembers {
      assert x in ch.rmembers.Keys <==> x in s.channels[key].rmembers.Keys;
    }
    SameView(RemoteView(s.(channels := s.channels[key := ch])), RemoteView(s));
  }

  lemma FjoinReplays(s: Server, chan: string, b: Burst, now: nat, key: string)
    requires key == Fold(chan) && Enterable(s) == s.remoteUsers.Keys
    ensures RemoteView(ChanRecv(s, chan, FJoin(b), now)) == Replay(RemoteView(s), ChanW(chan, FJoin(b)))
  {
    hide Fold, FjoinRecv, Enterable, Listed;
    var v, t := RemoteView(s), ChanRecv(s, chan, FJoin(b), now);
    var held := if key in s.channels then Some(s.channels[key]) else None;
    var added := set e | e in b.entries && e.uuid in v.known :: (key, e.uuid);
    forall k, x ensures (k, x) in RemoteView(t).on <==> (k, x) in v.on + added {
      if k == key {
        FjoinMembers(held, chan, now, b, Enterable(s), x);
        ListedEntry(b.entries, v.known, key, x);
      }
    }
    SameView(RemoteView(t), Replay(v, ChanW(chan, FJoin(b))));
  }

  lemma ListedEntry(entries: seq<Entry>, known: set<string>, key: string, x: string)
    ensures (key, x) in (set e | e in entries && e.uuid in known :: (key, e.uuid)) <==> x in known && Listed(entries, x)
  {
    if x in known && Listed(entries, x) {
      var k :| 0 <= k < |entries| && entries[k].uuid == x;
      assert entries[k] in entries && (key, entries[k].uuid) == (key, x);
    }
  }

  lemma IjoinReplays(s: Server, link: Uid, peer: string, w: Wire, now: nat)
    requires w.IjoinW? && PeerOk(s, link, peer) && WellSent(w, peer)
    ensures RemoteView(IjoinRecv(s, link, w.uuid, w.chan, w.ts, w.letters)) == Replay(RemoteView(s), w)
  {
    hide Fold, StatusToken, GrantLetters;
    SameView(RemoteView(IjoinRecv(s, link, w.uuid, w.chan, w.ts, w.letters)), Replay(RemoteView(s), w));
  }

  lemma ReapView(s: Server, channels: map<string, Channel>)
    ensures RemoteView(s.(channels := Reap(channels))) == RemoteView(s.(channels := channels))
  {
    SameView(RemoteView(s.(channels := Reap(channels))), RemoteView(s.(channels := channels)));
  }

  lemma PartReplays(s: Server, link: Uid, peer: string, w: Wire, now: nat)
    requires w.PartW? && PeerOk(s, link, peer) && MemberInv(s)
    ensures RemoteView(PartRecv(s, link, w.uuid, w.chan)) == Replay(RemoteView(s), w)
  {
    hide Fold, Reap, LocalsInStep, RegisteredOnly, LinksLive;
    var key := Fold(w.chan);
    if SourcedVia(s, w.uuid, link) && key in s.channels && w.uuid in s.channels[key].rmembers {
      var channels := WithoutRemote(s.channels, key, w.uuid);
      ReapView(s, channels);
      SameView(RemoteView(s.(channels := channels)), Replay(RemoteView(s), w));
    } else {
      SameView(RemoteView(s), Replay(RemoteView(s), w));
    }
  }

  lemma QuitReplays(s: Server, link: Uid, peer: string, w: Wire, now: nat)
    requires w.QuitW? && PeerOk(s, link, peer) && MemberInv(s)
    ensures RemoteView(QuitRecv(s, link, w.uuid)) == Replay(RemoteView(s), w)
  {
    hide Fold, Reap, LocalsInStep, RegisteredOnly, LinksLive;
    if w.uuid in s.remoteUsers {
      var t := DropRemote(s, w.uuid);
      var channels := WithoutRemotes(s.channels, {w.uuid});
      ReapView(t, channels);
      SameView(RemoteView(t.(channels := channels)), Replay(RemoteView(s), w));
    } else {
      SameView(RemoteView(s), Replay(RemoteView(s), w));
    }
  }

  // ----- lines from the peer leave our own users alone -----

  lemma RecvKeepsLocal(s: Server, link: Uid, peer: string, w: Wire, now: nat)
    requires !w.ServerW?
    ensures LocalView(Recv(s, link, peer, w, now)) == LocalView(s)
  {
    hide UidRecv, NickRecv, SaveRecv, ChanRecv, IjoinRecv, PartRecv, QuitRecv, LocalView;
    match w
    case UidW(uuid, ts, nick, ident, ip) => UidKeepsLocal(s, link, peer, w, now);
    case NickW(uuid, nick, ts) => NickKeepsLocal(s, link, w, now);
    case SaveW(uuid, ts) => NickKeepsLocal(s, link, w, now);
    case ChanW(chan, line) => ChanKeepsLocal(s, chan, line, now);
    case IjoinW(uuid, chan, ts, letters) => IjoinKeepsLocal(s, link, w);
    case PartW(uuid, chan) => LeavesKeepLocal(s, link, uuid, chan);
    case QuitW(uuid) => LeavesKeepLocal(s, link, uuid, "");
  }

  lemma OnlyNamesLocal(s: Server, t: Server)
    requires ServerRuns.OnlyNames(s, t)
    ensures LocalView(t) == LocalView(s)
  {
    forall x ensures x in LocalView(t).known <==> x in LocalView(s).known {
      if x in s.uuidLocal {
        assert s.uuidLocal[x] in t.users.Keys <==> s.uuidLocal[x] in s.users.Keys;
      }
    }
  }

  lemma UidKeepsLocal(s: Server, link: Uid, peer: string, w: Wire, now: nat)
    requires w.UidW?
    ensures LocalView(UidRecv(s, link, peer, w.uuid, w.ts, w.nick, w.ident, w.ip, now)) == LocalView(s)
  {
    hide Fold, Arbitrated, ServerIsService, SourceBehind, ServerRuns.OnlyNames;
    var t := Arbitrated(s, w.uuid, w.nick, w.ts, w.ident, w.ip, peer, ServerIsService(s, peer), now).0;
    ServerRuns.ArbitratedOnly(s, w.uuid, w.nick, w.ts, w.ident, w.ip, peer, ServerIsService(s, peer), now);
    OnlyNamesLocal(s, t);
  }

  lemma NickKeepsLocal(s: Server, link: Uid, w: Wire, now: nat)
    ensures w.NickW? ==> LocalView(NickRecv(s, link, w.uuid, w.nick, w.ts, now)) == LocalView(s)
    ensures w.SaveW? ==> LocalView(SaveRecv(s, w.uuid, w.ts, now)) == LocalView(s)
  {
    hide NickRecv, SaveRecv, LocalView, ServerRuns.OnlyNames;
    if w.NickW? {
      ServerRuns.NickRecvOnly(s, link, w.uuid, w.nick, w.ts, now);
      OnlyNamesLocal(s, NickRecv(s, link, w.uuid, w.nick, w.ts, now));
    } else if w.SaveW? {
      ServerRuns.SaveRecvOnly(s, w.uuid, w.ts, now);
      OnlyNamesLocal(s, SaveRecv(s, w.uuid, w.ts, now));
    }
  }

  /** The same local members everywhere. */
  ghost predicate SameLocals(c: map<string, Channel>, d: map<string, Channel>) {
    forall k, u :: Holds(c, k, u) <==> Holds(d, k, u)
  }

  lemma SameLocalsView(s: Server, t: Server)
    requires t.users == s.users && t.uuidLocal == s.uuidLocal && SameLocals(s.channels, t.channels)
    ensures LocalView(t) == LocalView(s)
  {
    forall k, x ensures (k, x) in LocalView(t).on <==> (k, x) in LocalView(s).on {
      if x in s.uuidLocal {
        assert Holds(s.channels, k, s.uuidLocal[x]) <==> Holds(t.channels, k, s.uuidLocal[x]);
      }
    }
    SameView(LocalView(t), LocalView(s));
  }

  lemma FjoinLocals(held: Option<Channel>, name: string, now: nat, b: Burst, known: set<string>)
    ensures FjoinRecv(held, name, now, b, known).members.Keys == if held.Some? then held.value.members.Keys else {}
  {
    hide ApplyModeString, Enter;
  }

  lemma ChanKeepsLocal(s: Server, chan: string, line: Line, now: nat)
    ensures LocalView(ChanRecv(s, chan, line, now)) == LocalView(s)
  {
    hide Fold, Enterable, FjoinRecv, LocalView;
    var t, key := ChanRecv(s, chan, line, now), Fold(chan);
    var held := if key in s.channels then Some(s.channels[key]) else None;
    if line.FJoin? {
      FjoinLocals(held, chan, now, line.burst, Enterable(s));
    }
    forall k, u ensures Holds(s.channels, k, u) <==> Holds(t.channels, k, u) {
      if k == key && key in t.channels {
        assert u in t.channels[key].members <==> u in t.channels[key].members.Keys;
      }
    }
    SameLocalsView(s, t);
  }

  lemma IjoinKeepsLocal(s: Server, link: Uid, w: Wire)
    requires w.IjoinW?
    ensures LocalView(IjoinRecv(s, link, w.uuid, w.chan, w.ts, w.letters)) == LocalView(s)
  {
    hide Fold, StatusToken, GrantLetters, LocalView;
    SameLocalsView(s, IjoinRecv(s, link, w.uuid, w.chan, w.ts, w.letters));
  }

  lemma ReapLocals(c: map<string, Channel>)
    ensures SameLocals(c, Reap(c))
  {
  }

  lemma LeavesKeepLocal(s: Server, link: Uid, uuid: string, chan: string)
    ensures LocalView(PartRecv(s, link, uuid, chan)) == LocalView(s)
    ensures LocalView(QuitRecv(s, link, uuid)) == LocalView(s)
  {
    hide Fold, LocalView, Reap, WithoutRemote, WithoutRemotes, SameLocals, SourcedVia;
    var c, d := WithoutRemote(s.channels, Fold(chan), uuid), WithoutRemotes(s.channels, {uuid});
    assert SameLocals(s.channels, Reap(c)) && SameLocals(s.channels, Reap(d)) by {
      DroppedLocals(s.channels, Fold(chan), uuid);
    }
    SameLocalsView(s, s.(channels := Reap(c)));
    if uuid in s.remoteUsers {
      SameLocalsView(s, DropRemote(s, uuid));
    }
  }

  lemma DroppedLocals(channels: map<string, Channel>, key: string, uuid: string)
    ensures SameLocals(channels, Reap(WithoutRemote(channels, key, uuid)))
    ensures SameLocals(channels, Reap(WithoutRemotes(channels, {uuid})))
  {
    hide Reap;
    ReapLocals(WithoutRemote(channels, key, uuid));
    ReapLocals(WithoutRemotes(channels, {uuid}));
    assert SameLocals(channels, WithoutRemote(channels, key, uuid));
    assert SameLocals(channels, WithoutRemotes(channels, {uuid}));
  }
}
