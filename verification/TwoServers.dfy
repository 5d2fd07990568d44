/** Two linked servers and the lines in flight between them: membership converges. */
module TwoServers {
  import opened Wrappers
  import opened Channels
  import opened ChannelMerge
  import opened ServerState
  import opened MembershipInvariant
  import opened NickInvariant
  import opened ServerRuns
  import opened MembershipViews
  import opened LocalLines
  import opened Netburst

  /** The link has been through its handshake. */
  predicate Up(s: Server, link: Uid) {
    Maps(s.links, link, true)
  }

  /** One end: consistent tables, its own uuids under its SID, and nothing remote before the handshake. */
  ghost predicate NodeOk(s: Server, link: Uid, peer: string) {
    && Tidy(s) && ValidSid(s.sid) && ValidSid(peer) && s.sid != peer && link in s.links
    && (forall x :: x in s.uuidLocal ==> OfPeer(x, s.sid))
    && if Up(s, link) then PeerOk(s, link, peer) else s.remoteUsers == map[] && peer !in s.servers
  }

  lemma BlankBefore(s: Server, link: Uid, peer: string)
    requires NodeOk(s, link, peer) && !Up(s, link)
    ensures RemoteView(s) == NOTHING
  {
    forall k, x ensures (k, x) !in RemoteView(s).on { assert x !in s.remoteUsers; }
    SameView(RemoteView(s), NOTHING);
  }

  // ----- local steps -----

  lemma LocalKeepsRemote(s: Server, e: Event)
    requires IsLocal(e)
    ensures RemoteView(Step(s, e)) == RemoteView(s)
  {
    hide Fold, Leave, RemoteView, Join, RemoveUser, Connect, Register, SetNick, ChangeMode;
    match e {
      case Joins(uid, name, maxlen, admitted, now) => JoinKeepsRemote(s, uid, name, maxlen, admitted, now);
      case Parts(uid, target) => LeaveKeepsRemote(s, uid, Fold(target));
      case ForceParted(uid, chan) => LeaveKeepsRemote(s, uid, Fold(chan));
      case ModeChanged(uid, chan, change, allowed) => ModeKeepsRemote(s, uid, chan, change, allowed);
      case Quits(uid) => QuitKeepsRemote(s, uid);
      case Connects(uid, uuid, ip, now) => ConnectSame(s, uid, uuid, ip, now);
      case Registers(uid, ident) => WelcomeSame(s, uid, ident);
      case TakesNick(uid, newnick, now) => NickSame(s, uid, newnick, now);
    }
  }

  lemma ModeKeepsRemote(s: Server, uid: Uid, chan: string, change: Change, allowed: bool)
    ensures RemoteView(ChangeMode(s, uid, chan, change, allowed)) == RemoteView(s)
  {
    hide Fold, ChangedHere, RemoteView;
    if ModeApplies(s, uid, chan, change, allowed) {
      var ch := s.channels[Fold(chan)];
      ChangedKeeps(s, ch, change);
      ReplacedView(s, Fold(chan), ChangedHere(s, ch, change));
    }
  }

  lemma ConnectSame(s: Server, uid: Uid, uuid: string, ip: string, now: nat)
    ensures RemoteView(Connect(s, uid, uuid, ip, now)) == RemoteView(s)
  {
    SameRemotesView(s, Connect(s, uid, uuid, ip, now));
  }

  lemma WelcomeSame(s: Server, uid: Uid, ident: string)
    ensures RemoteView(Register(s, uid, ident)) == RemoteView(s)
  {
    SameRemotesView(s, Register(s, uid, ident));
  }

  lemma NickSame(s: Server, uid: Uid, newnick: string, now: nat)
    ensures RemoteView(SetNick(s, uid, newnick, now)) == RemoteView(s)
  {
    hide Fold;
    SameRemotesView(s, SetNick(s, uid, newnick, now));
  }

  lemma SameRemotesView(s: Server, t: Server)
    requires t.channels == s.channels && t.remoteUsers == s.remoteUsers
    ensures RemoteView(t) == RemoteView(s)
  {
  }

  lemma JoinKeepsRemote(s: Server, uid: Uid, name: string, maxlen: nat, admitted: bool, now: nat)
    ensures RemoteView(Join(s, uid, name, maxlen, admitted, now)) == RemoteView(s)
  {
    hide Fold, ValidChan;
    SameView(RemoteView(Join(s, uid, name, maxlen, admitted, now)), RemoteView(s));
  }

  lemma LeaveKeepsRemote(s: Server, uid: Uid, key: string)
    ensures RemoteView(Leave(s, uid, key)) == RemoteView(s)
  {
    hide Reap;
    var t, c := Leave(s, uid, key), WithoutLocal(s.channels, key, uid);
    ReapView(t, c);
    SameView(RemoteView(t.(channels := c)), RemoteView(s));
  }

  lemma QuitKeepsRemote(s: Server, uid: Uid)
    ensures RemoteView(RemoveUser(s, uid)) == RemoteView(s)
  {
    hide Reap, Fold;
    if uid in s.users {
      var t, c := RemoveUser(s, uid), DropFrom(s.channels, s.users[uid].channels, uid);
      ReapView(t, c);
      SameView(RemoteView(t.(channels := c)), RemoteView(s));
    }
  }

  ghost predicate SameUuids(s: Server, t: Server) {
    && t.uuidLocal == s.uuidLocal && t.users.Keys == s.users.Keys
    && forall u :: u in s.users ==> t.users[u].uuid == s.users[u].uuid
  }

  lemma SameUuidsIds(s: Server, t: Server)
    requires LocalIds(s) && SameUuids(s, t)
    ensures LocalIds(t)
  {
    forall x, u ensures Maps(t.uuidLocal, x, u) <==> u in t.users && t.users[u].uuid == x {
      assert Maps(s.uuidLocal, x, u) <==> u in s.users && s.users[u].uuid == x;
      assert u in t.users <==> u in s.users.Keys;
    }
  }

  lemma NamesUuids(s: Server, t: Server)
    requires SameNames(s, t) || OnlyNames(s, t)
    ensures SameUuids(s, t)
  {
    if OnlyNames(s, t) {
      forall u | u in s.users ensures t.users[u].uuid == s.users[u].uuid {
        assert SameMemberships(s.users[u], t.users[u]);
      }
    }
  }

  lemma LocalKeepsIds(s: Server, e: Event)
    requires LocalIds(s) && LocalOk(s, e)
    ensures LocalIds(Step(s, e))
    ensures forall x :: x in Step(s, e).uuidLocal ==> x in s.uuidLocal || (e.Connects? && x == e.uuid)
  {
    hide Fold, Leave, Join, RemoveUser, Connect, Register, SetNick, ChangeMode, LocalIds, SameNames, OnlyNames;
    var t := Step(s, e);
    if e.Connects? {
      ConnectKeepsIds(s, e.uid, e.uuid, e.ip, e.now);
    } else if e.Quits? {
      RemoveKeepsIds(s, e.uid);
    } else {
      assert SameNames(s, t) || OnlyNames(s, t) by {
        SameNamesSelf(s);
        match e {
          case Registers(uid, ident) => RegisterSame(s, uid, ident);
          case TakesNick(uid, newnick, now) => SetNickOnly(s, uid, newnick, now);
          case Joins(uid, name, maxlen, admitted, now) => JoinSame(s, uid, name, maxlen, admitted, now);
          case Parts(uid, target) => LeaveSame(s, uid, Fold(target));
          case ForceParted(uid, chan) => LeaveSame(s, uid, Fold(chan));
          case ModeChanged(uid, chan, change, allowed) => ModeSame(s, uid, chan, change, allowed);
        }
      }
      NamesUuids(s, t);
      SameUuidsIds(s, t);
    }
  }

  lemma ConnectKeepsIds(s: Server, uid: Uid, uuid: string, ip: string, now: nat)
    requires LocalIds(s) && uid !in s.users && uuid !in s.uuidLocal
    ensures LocalIds(Connect(s, uid, uuid, ip, now))
    ensures Connect(s, uid, uuid, ip, now).uuidLocal == s.uuidLocal[uuid := uid]
  {
    var t := Connect(s, uid, uuid, ip, now);
    forall x, u ensures Maps(t.uuidLocal, x, u) <==> u in t.users && t.users[u].uuid == x {
      assert Maps(s.uuidLocal, x, u) <==> u in s.users && s.users[u].uuid == x;
    }
  }

  lemma RemoveKeepsIds(s: Server, uid: Uid)
    requires LocalIds(s)
    ensures LocalIds(RemoveUser(s, uid)) && RemoveUser(s, uid).uuidLocal.Keys <= s.uuidLocal.Keys
  {
    hide Fold, Reap, DropFrom;
    if uid in s.users {
      var t, uuid := RemoveUser(s, uid), s.users[uid].uuid;
      assert Maps(s.uuidLocal, uuid, uid);
      forall x, u ensures Maps(t.uuidLocal, x, u) <==> u in t.users && t.users[u].uuid == x {
        assert Maps(s.uuidLocal, x, u) <==> u in s.users && s.users[u].uuid == x;
      }
    }
  }

  lemma LocalKeepsNamed(s: Server, e: Event)
    requires ChanNamed(s.channels) && IsLocal(e)
    ensures ChanNamed(Step(s, e).channels)
  {
    hide Fold, ChangeMode;
    if e.ModeChanged? { ModeKeepsNamed(s, e.uid, e.chan, e.change, e.allowed); }
  }

  lemma ModeKeepsNamed(s: Server, uid: Uid, chan: string, change: Change, allowed: bool)
    requires ChanNamed(s.channels)
    ensures ChanNamed(ChangeMode(s, uid, chan, change, allowed).channels)
  {
    hide Fold, ChangedHere, SameFolded;
    if Fold(chan) in s.channels { ChangedKeeps(s, s.channels[Fold(chan)], change); }
  }

  /** What local steps never touch. */
  predicate SameLink(s: Server, t: Server) {
    && t.sid == s.sid && t.links == s.links && t.servers == s.servers
    && t.remoteUsers.Keys == s.remoteUsers.Keys
    && forall r :: r in s.remoteUsers ==> r in t.remoteUsers && t.remoteUsers[r].via == s.remoteUsers[r].via
  }

  lemma LocalKeepsLink(s: Server, e: Event)
    requires IsLocal(e)
    ensures SameLink(s, Step(s, e))
  {
    hide Fold, Connect, Register, SetNick, Leave, Join, RemoveUser, ChangeMode, IsMember, SameLink;
    assert SameLink(s, s) by { SelfLink(s); }
    match e {
      case Connects(uid, uuid, ip, now) => ConnectLink(s, uid, uuid, ip, now);
      case Registers(uid, ident) => RegisterLink(s, uid, ident);
      case TakesNick(uid, newnick, now) => NickLink(s, uid, newnick, now);
      case Joins(uid, name, maxlen, admitted, now) => JoinLink(s, uid, name, maxlen, admitted, now);
      case ModeChanged(uid, chan, change, allowed) => ModeLink(s, uid, chan, change, allowed);
      case Parts(uid, target) => LeaveLink(s, uid, Fold(target));
      case ForceParted(uid, chan) => LeaveLink(s, uid, Fold(chan));
      case Quits(uid) => LeaveLink(s, uid, "");
    }
  }

  lemma SelfLink(s: Server)
    ensures SameLink(s, s)
  {
  }

  lemma ConnectLink(s: Server, uid: Uid, uuid: string, ip: string, now: nat)
    ensures SameLink(s, Connect(s, uid, uuid, ip, now))
  {
  }

  lemma RegisterLink(s: Server, uid: Uid, ident: string)
    ensures SameLink(s, Register(s, uid, ident))
  {
  }

  lemma NickLink(s: Server, uid: Uid, newnick: string, now: nat)
    ensures SameLink(s, SetNick(s, uid, newnick, now))
  {
    hide Fold;
  }

  lemma JoinLink(s: Server, uid: Uid, name: string, maxlen: nat, admitted: bool, now: nat)
    ensures SameLink(s, Join(s, uid, name, maxlen, admitted, now))
  {
    hide Fold, ValidChan;
  }

  lemma ModeLink(s: Server, uid: Uid, chan: string, change: Change, allowed: bool)
    ensures SameLink(s, ChangeMode(s, uid, chan, change, allowed))
  {
    hide Fold, ChangedHere, ModeApplies;
  }

  lemma LeaveLink(s: Server, uid: Uid, key: string)
    ensures SameLink(s, Leave(s, uid, key)) && SameLink(s, RemoveUser(s, uid))
  {
    hide Fold, Reap, WithoutLocal, DropFrom, LeaveUser;
  }

  lemma LocalKeepsNode(s: Server, link: Uid, peer: string, e: Event)
    requires NodeOk(s, link, peer) && LocalOk(s, e)
    ensures NodeOk(Step(s, e), link, peer)
  {
    hide Step, MemberInv, LocalIds, ChanNamed;
    StepKeepsMembers(s, e);
    LocalKeepsIds(s, e);
    LocalKeepsNamed(s, e);
    LocalKeepsLink(s, e);
  }

  lemma SendsWell(s: Server, e: Event)
    requires Tidy(s) && LocalOk(s, e) && forall x :: x in s.uuidLocal ==> OfPeer(x, s.sid)
    ensures forall i :: 0 <= i < |Sends(s, e)| ==> WellSent(Sends(s, e)[i], s.sid) && !Sends(s, e)[i].ServerW?
  {
    hide Fold, OfPeer, MemberInv, Step, ModeLetters, Render, SameFolded;
    if e.uid in s.users { assert Maps(s.uuidLocal, s.users[e.uid].uuid, e.uid); }
    LocalKeepsNamed(s, e);
    if e.Joins? && Fold(e.name) in Step(s, e).channels {
      assert NamedAs(Step(s, e).channels[Fold(e.name)].name, Fold(e.name));
    }
    if e.ModeChanged? && Fold(e.chan) in s.channels { FoldedHash(s, e.chan); }
  }

  /** A channel name that finds a channel starts with `#`. */
  lemma FoldedHash(s: Server, chan: string)
    requires ChanNamed(s.channels) && Fold(chan) in s.channels
    ensures chan != "" && chan[0] == '#'
  {
    var name := s.channels[Fold(chan)].name;
    assert NamedAs(name, Fold(chan));
    assert |chan| == |Fold(chan)| == |name| && Fold(chan)[0] == Fold(name)[0];
  }

  // ----- received lines -----

  lemma RecvKeepsMembers(s: Server, link: Uid, peer: string, w: Wire, now: nat)
    requires MemberInv(s) && !w.ServerW?
    ensures MemberInv(Recv(s, link, peer, w, now))
  {
    hide MemberInv, UidRecv, NickRecv, SaveRecv, ChanRecv, FjoinRecvAt, IjoinRecv, PartRecv, QuitRecv;
    match w {
      case UidW(uuid, ts, nick, ident, ip) => UidKeepsMembers(s, link, peer, uuid, ts, nick, ident, ip, now);
      case NickW(uuid, nick, ts) => NickKeepsMembers(s, link, uuid, nick, ts, now);
      case SaveW(uuid, ts) => SaveKeepsMembers(s, uuid, ts, now);
      case ChanW(chan, line) => ChanKeepsMembers(s, chan, line, now);
      case IjoinW(uuid, chan, ts, letters) => IjoinKeeps(s, link, uuid, chan, ts, letters);
      case PartW(uuid, chan) => RemoteLeavesKeep(s, link, uuid, chan);
      case QuitW(uuid) => RemoteLeavesKeep(s, link, uuid, "");
    }
  }

  lemma ChanKeepsMembers(s: Server, chan: string, line: Line, now: nat)
    requires MemberInv(s)
    ensures MemberInv(ChanRecv(s, chan, line, now))
  {
    hide MemberInv, Fold, FjoinRecv, Enterable, Changed;
    var key := Fold(chan);
    match line {
      case FJoin(b) => FjoinKeeps(s, chan, b, now);
      case FMode(ts, change) =>
        if key in s.channels {
          var ch := Changed(s.channels[key], change);
          ChangedKeeps(s, s.channels[key], change);
          OnlyKnown(s, key);
          forall r | r in ch.rmembers ensures r in s.remoteUsers { assert r in ch.rmembers.Keys; }
          assert s.channels[key := s.channels[key]] == s.channels;
          ReplaceKeeps(s, key, ch);
        }
    }
  }

  /** What the peer's lines never touch: our SID, links, servers and uuids. */
  predicate SameSelf(s: Server, t: Server) {
    && t.sid == s.sid && t.links == s.links && t.servers == s.servers && t.uuidLocal == s.uuidLocal
  }

  ghost predicate FromPeer(s: Server, link: Uid, peer: string) {
    forall r :: r in s.remoteUsers ==> OfPeer(r, peer) && s.remoteUsers[r].via == link
  }

  lemma RecvKeepsPeer(s: Server, link: Uid, peer: string, w: Wire, now: nat)
    requires FromPeer(s, link, peer) && LocalIds(s) && WellSent(w, peer) && !w.ServerW?
    ensures var t := Recv(s, link, peer, w, now); FromPeer(t, link, peer) && SameSelf(s, t) && LocalIds(t)
  {
    hide UidRecv, NickRecv, SaveRecv, ChanRecv, IjoinRecv, PartRecv, QuitRecv, LocalIds, FromPeer, OnlyNames;
    var t := Recv(s, link, peer, w, now);
    match w {
      case UidW(uuid, ts, nick, ident, ip) => UidKeepsPeer(s, link, peer, w, now);
      case NickW(uuid, nick, ts) => NickRecvOnly(s, link, uuid, nick, ts, now); OnlyNamesPeer(s, t, link, peer);
      case SaveW(uuid, ts) => SaveRecvOnly(s, uuid, ts, now); OnlyNamesPeer(s, t, link, peer);
      case _ => RestKeepsPeer(s, link, peer, w, now);
    }
  }

  lemma OnlyNamesPeer(s: Server, t: Server, link: Uid, peer: string)
    requires OnlyNames(s, t) && FromPeer(s, link, peer) && LocalIds(s)
    ensures FromPeer(t, link, peer) && SameSelf(s, t) && LocalIds(t)
  {
    hide LocalIds;
    NamesUuids(s, t);
    SameUuidsIds(s, t);
    forall r | r in t.remoteUsers ensures OfPeer(r, peer) && t.remoteUsers[r].via == link {
      assert r in s.remoteUsers.Keys;
    }
  }

  lemma UidKeepsPeer(s: Server, link: Uid, peer: string, w: Wire, now: nat)
    requires w.UidW? && FromPeer(s, link, peer) && LocalIds(s) && OfPeer(w.uuid, peer)
    ensures var t := UidRecv(s, link, peer, w.uuid, w.ts, w.nick, w.ident, w.ip, now);
      FromPeer(t, link, peer) && SameSelf(s, t) && LocalIds(t)
  {
    hide Fold, Arbitrated, ServerIsService, SourceBehind, OnlyNames, OfPeer;
    var t := Arbitrated(s, w.uuid, w.nick, w.ts, w.ident, w.ip, peer, ServerIsService(s, peer), now).0;
    ArbitratedOnly(s, w.uuid, w.nick, w.ts, w.ident, w.ip, peer, ServerIsService(s, peer), now);
    OnlyNamesPeer(s, t, link, peer);
  }

  lemma RestKeepsPeer(s: Server, link: Uid, peer: string, w: Wire, now: nat)
    requires FromPeer(s, link, peer) && LocalIds(s) && (w.ChanW? || w.IjoinW? || w.PartW? || w.QuitW?)
    ensures var t := Recv(s, link, peer, w, now); FromPeer(t, link, peer) && SameSelf(s, t) && LocalIds(t)
  {
    hide Fold, Reap, WithoutRemote, WithoutRemotes, Receive, Enterable, StatusToken, GrantLetters, SourcedVia, OfPeer,
      LocalIds;
    var t := Recv(s, link, peer, w, now);
    RestTouches(s, link, peer, w, now);
    SameUuidsIds(s, t);
  }

  /** Our own users as they were, and no remote user new or changed. */
  ghost predicate FewerRemotes(s: Server, t: Server) {
    && SameSelf(s, t) && t.users == s.users
    && forall r :: r in t.remoteUsers ==> Maps(s.remoteUsers, r, t.remoteUsers[r])
  }

  lemma RestTouches(s: Server, link: Uid, peer: string, w: Wire, now: nat)
    requires w.ChanW? || w.IjoinW? || w.PartW? || w.QuitW?
    ensures FewerRemotes(s, Recv(s, link, peer, w, now))
  {
    hide ChanRecv, IjoinRecv, PartRecv, QuitRecv;
    match w {
      case ChanW(chan, line) => ChanTouches(s, chan, line, now);
      case IjoinW(uuid, chan, ts, letters) => IjoinTouches(s, link, uuid, chan, ts, letters);
      case PartW(uuid, chan) => LeaveTouches(s, link, uuid, chan);
      case QuitW(uuid) => LeaveTouches(s, link, uuid, "");
    }
  }

  predicate OnlyChannels(s: Server, t: Server) {
    SameSelf(s, t) && t.users == s.users && t.remoteUsers == s.remoteUsers
  }

  lemma ChanTouches(s: Server, chan: string, line: Line, now: nat)
    ensures OnlyChannels(s, ChanRecv(s, chan, line, now))
  {
    hide Fold, Receive, Enterable;
  }

  lemma IjoinTouches(s: Server, link: Uid, uuid: string, chan: string, ts: nat, letters: string)
    ensures OnlyChannels(s, IjoinRecv(s, link, uuid, chan, ts, letters))
  {
    hide Fold, StatusToken, GrantLetters, SourcedVia, NewChannel;
  }

  lemma LeaveTouches(s: Server, link: Uid, uuid: string, chan: string)
    ensures OnlyChannels(s, PartRecv(s, link, uuid, chan))
    ensures FewerRemotes(s, QuitRecv(s, link, uuid))
  {
    hide Fold, Reap, WithoutRemote, WithoutRemotes, SourcedVia;
  }

  lemma RecvKeepsNamed(s: Server, link: Uid, peer: string, w: Wire, now: nat)
    requires ChanNamed(s.channels) && WellSent(w, peer) && !w.ServerW?
    ensures ChanNamed(Recv(s, link, peer, w, now).channels)
  {
    hide Fold, UidRecv, NickRecv, SaveRecv, OnlyNames, StatusToken, GrantLetters, Enterable, Changed, ChanRecv;
    match w {
      case UidW(uuid, ts, nick, ident, ip) => UidChannels(s, link, peer, w, now);
      case NickW(uuid, nick, ts) =>
        NickRecvOnly(s, link, uuid, nick, ts, now);
        OnlyNamesChannels(s, NickRecv(s, link, uuid, nick, ts, now));
      case SaveW(uuid, ts) =>
        SaveRecvOnly(s, uuid, ts, now);
        OnlyNamesChannels(s, SaveRecv(s, uuid, ts, now));
      case ChanW(chan, line) => ChanKeepsNamed(s, chan, line, now);
      case _ =>
    }
  }

  lemma OnlyNamesChannels(s: Server, t: Server)
    requires OnlyNames(s, t)
    ensures t.channels == s.channels
  {
  }

  lemma UidChannels(s: Server, link: Uid, peer: string, w: Wire, now: nat)
    requires w.UidW?
    ensures UidRecv(s, link, peer, w.uuid, w.ts, w.nick, w.ident, w.ip, now).channels == s.channels
  {
    hide Fold, Arbitrated, ServerIsService, SourceBehind, OnlyNames;
    var t := Arbitrated(s, w.uuid, w.nick, w.ts, w.ident, w.ip, peer, ServerIsService(s, peer), now).0;
    ArbitratedOnly(s, w.uuid, w.nick, w.ts, w.ident, w.ip, peer, ServerIsService(s, peer), now);
    OnlyNamesChannels(s, t);
  }

  lemma FjoinName(held: Option<Channel>, name: string, now: nat, b: Burst, known: set<string>)
    ensures FjoinRecv(held, name, now, b, known).name == if held.Some? then held.value.name else name
  {
    hide ApplyModeString, Enter;
  }

  lemma ChanKeepsNamed(s: Server, chan: string, line: Line, now: nat)
    requires ChanNamed(s.channels) && chan != "" && chan[0] == '#'
    ensures ChanNamed(ChanRecv(s, chan, line, now).channels)
  {
    hide Fold, FjoinRecv, Enterable, Changed;
    var key := Fold(chan);
    var held := if key in s.channels then Some(s.channels[key]) else None;
    match line {
      case FJoin(b) => FjoinName(held, chan, now, b, Enterable(s));
      case FMode(ts, change) => if key in s.channels { ChangedKeeps(s, s.channels[key], change); }
    }
  }

  lemma RecvKeepsNode(s: Server, link: Uid, peer: string, w: Wire, now: nat)
    requires NodeOk(s, link, peer) && Up(s, link) && WellSent(w, peer) && !w.ServerW?
    ensures var t := Recv(s, link, peer, w, now); NodeOk(t, link, peer) && Up(t, link)
  {
    hide Recv, MemberInv, LocalIds, ChanNamed, ValidSid, OfPeer;
    RecvKeepsMembers(s, link, peer, w, now);
    RecvKeepsPeer(s, link, peer, w, now);
    RecvKeepsNamed(s, link, peer, w, now);
  }

  // ----- the network -----

  /** Two servers, the link's uid at each end, and the two FIFO queues of lines in flight. */
  datatype Net = Net(a: Server, b: Server, la: Uid, lb: Uid, ab: seq<Wire>, ba: seq<Wire>)

  function Swap(n: Net): Net {
    Net(n.b, n.a, n.lb, n.la, n.ba, n.ab)
  }

  /**
   * A step: one of A's or B's users acts, or a server handles the next line. Handling SERVER answers with the
   * netburst, walking the tables in some order; handling any other line may also send NICK and SAVE lines.
   */
  datatype NetStep = AtA(e: Event) | AtB(e: Event) | ToA(d: Delivery) | ToB(d: Delivery)

  datatype Delivery = Delivery(now: nat, walk: Walk, renames: seq<Wire>)

  function ActAtA(n: Net, e: Event): Net {
    n.(a := Step(n.a, e), ab := n.ab + if Up(n.a, n.la) then Sends(n.a, e) else [])
  }

  /** B handles the oldest line from A. */
  ghost function DeliverToB(n: Net, d: Delivery): Net
    requires Deliverable(n, d)
  {
    var t := Recv(n.b, n.lb, n.a.sid, n.ab[0], d.now);
    n.(b := t, ab := n.ab[1..], ba := n.ba + if n.ab[0].ServerW? then BurstOf(t, d.walk) else d.renames)
  }

  ghost predicate Deliverable(n: Net, d: Delivery) {
    && n.ab != []
    && (n.ab[0].ServerW? ==> Walkable(Recv(n.b, n.lb, n.a.sid, n.ab[0], d.now), d.walk))
    && forall i :: 0 <= i < |d.renames| ==> d.renames[i].NickW? || d.renames[i].SaveW?
  }

  ghost predicate CanStep(n: Net, st: NetStep) {
    match st
    case AtA(e) => LocalOk(n.a, e)
    case AtB(e) => LocalOk(n.b, e)
    case ToB(d) => Deliverable(n, d)
    case ToA(d) => Deliverable(Swap(n), d)
  }

  ghost function NextNet(n: Net, st: NetStep): Net
    requires CanStep(n, st)
  {
    match st
    case AtA(e) => ActAtA(n, e)
    case AtB(e) => Swap(ActAtA(Swap(n), e))
    case ToB(d) => DeliverToB(n, d)
    case ToA(d) => Swap(DeliverToB(Swap(n), d))
  }

  /** Lines in flight: SERVER only first and only before the receiver is up; replayed, they give the sender's view. */
  ghost predicate Flow(src: Server, srcLink: Uid, dst: Server, dstLink: Uid, q: seq<Wire>) {
    && (forall i :: 0 <= i < |q| ==> WellSent(q[i], src.sid))
    && (forall i :: 0 <= i < |q| && q[i].ServerW? ==> i == 0 && !Up(dst, dstLink))
    && (!Up(dst, dstLink) ==> q != [] && q[0].ServerW?)
    && (Up(src, srcLink) ==> ReplayAll(RemoteView(dst), q) == LocalView(src))
    && (!Up(src, srcLink) ==> RemoteView(dst) == NOTHING && forall i :: 0 <= i < |q| ==> q[i].ServerW?)
  }

  ghost predicate NetOk(n: Net) {
    && NodeOk(n.a, n.la, n.b.sid) && NodeOk(n.b, n.lb, n.a.sid)
    && Flow(n.a, n.la, n.b, n.lb, n.ab) && Flow(n.b, n.lb, n.a, n.la, n.ba)
  }

  lemma SwapOk(n: Net)
    ensures NetOk(n) <==> NetOk(Swap(n))
  {
  }

  // ----- a user acts -----

  lemma ActKeeps(n: Net, e: Event)
    requires NetOk(n) && LocalOk(n.a, e)
    ensures NetOk(ActAtA(n, e))
  {
    hide NodeOk, Flow, Sends, Step;
    LocalKeepsNode(n.a, n.la, n.b.sid, e);
    LocalKeepsLink(n.a, e);
    FlowOut(n.a, n.la, n.b, n.lb, n.ab, e);
    FlowBack(n.b, n.lb, n.a, n.la, n.ba, e);
  }

  lemma FlowOut(src: Server, srcLink: Uid, dst: Server, dstLink: Uid, q: seq<Wire>, e: Event)
    requires NodeOk(src, srcLink, dst.sid) && Flow(src, srcLink, dst, dstLink, q) && LocalOk(src, e)
    ensures Flow(Step(src, e), srcLink, dst, dstLink, q + if Up(src, srcLink) then Sends(src, e) else [])
  {
    hide Tidy, Step, Sends, LocalView, RemoteView, ReplayAll, PeerOk, ValidSid, OfPeer, WellSent;
    LocalKeepsLink(src, e);
    if Up(src, srcLink) {
      SendsReplay(src, e);
      SendsWell(src, e);
      ReplayAppend(RemoteView(dst), q, Sends(src, e));
    } else {
      assert q + [] == q;
    }
  }

  lemma FlowBack(src: Server, srcLink: Uid, dst: Server, dstLink: Uid, q: seq<Wire>, e: Event)
    requires Flow(src, srcLink, dst, dstLink, q) && IsLocal(e)
    ensures Flow(src, srcLink, Step(dst, e), dstLink, q)
  {
    hide Step, LocalView, RemoteView, ReplayAll, WellSent, IsLocal;
    LocalKeepsLink(dst, e);
    LocalKeepsRemote(dst, e);
  }

  // ----- a line arrives -----

  lemma DeliverKeeps(n: Net, d: Delivery)
    requires NetOk(n) && Deliverable(n, d)
    ensures NetOk(DeliverToB(n, d))
  {
    hide NodeOk, Flow, Recv, BurstOf, Walkable;
    if n.ab[0].ServerW? {
      Greeted(n, d);
    } else {
      Handled(n, d);
    }
  }

  lemma Handled(n: Net, d: Delivery)
    requires NetOk(n) && Deliverable(n, d) && !n.ab[0].ServerW?
    ensures NetOk(DeliverToB(n, d))
  {
    hide NodeOk, Recv, LocalView, RemoteView, WellSent, BurstOf, Walkable, Replay;
    var w := n.ab[0];
    assert Up(n.b, n.lb) && Up(n.a, n.la) && WellSent(w, n.a.sid);
    RecvKeepsNode(n.b, n.lb, n.a.sid, w, d.now);
    RecvKeepsSid(n.b, n.lb, n.a.sid, w, d.now);
    NodePeer(n.b, n.lb, n.a.sid);
    RecvReplays(n.b, n.lb, n.a.sid, w, d.now);
    RecvKeepsLocal(n.b, n.lb, n.a.sid, w, d.now);
    ReplayAppend(RemoteView(n.a), n.ba, d.renames);
    RenamesSilent(LocalView(n.b), d.renames);
    RenamesWell(d.renames, n.b.sid);
  }

  lemma NodePeer(s: Server, link: Uid, peer: string)
    requires NodeOk(s, link, peer) && Up(s, link)
    ensures PeerOk(s, link, peer) && MemberInv(s)
  {
  }

  lemma RecvKeepsSid(s: Server, link: Uid, peer: string, w: Wire, now: nat)
    requires NodeOk(s, link, peer) && Up(s, link) && WellSent(w, peer) && !w.ServerW?
    ensures Recv(s, link, peer, w, now).sid == s.sid
  {
    hide Recv, MemberInv;
    RecvKeepsPeer(s, link, peer, w, now);
  }

  lemma {:induction false} RenamesSilent(v: View, ws: seq<Wire>)
    requires forall i :: 0 <= i < |ws| ==> ws[i].NickW? || ws[i].SaveW?
    ensures ReplayAll(v, ws) == v
    decreases |ws|
  {
    if ws != [] {
      assert Replay(v, ws[0]) == v;
      RenamesSilent(v, ws[1..]);
    }
  }

  lemma RenamesWell(ws: seq<Wire>, sid: string)
    requires forall i :: 0 <= i < |ws| ==> ws[i].NickW? || ws[i].SaveW?
    ensures forall i :: 0 <= i < |ws| ==> WellSent(ws[i], sid)
  {
  }

  /** The handshake at B: the link comes up and the netburst goes out. */
  lemma Greeted(n: Net, d: Delivery)
    requires NetOk(n) && Deliverable(n, d) && n.ab[0].ServerW?
    ensures NetOk(DeliverToB(n, d))
  {
    hide NodeOk, Recv, LocalView, RemoteView, WellSent, BurstOf, Walkable, Replay, AllWell;
    var t := Recv(n.b, n.lb, n.a.sid, n.ab[0], d.now);
    assert !Up(n.b, n.lb) && WellSent(n.ab[0], n.a.sid);
    LinkedUp(n.b, n.lb, n.a.sid, n.ab[0], d.now);
    assert Replay(RemoteView(n.b), n.ab[0]) == RemoteView(n.b) by { ServerSilent(RemoteView(n.b), n.ab[0]); }
    assert ReplayAll(RemoteView(n.a), n.ba + BurstOf(t, d.walk)) == LocalView(t) by {
      ReplayAppend(RemoteView(n.a), n.ba, BurstOf(t, d.walk));
      ServersSilent(RemoteView(n.a), n.ba);
      BurstTellsAll(t, d.walk) by { NodeTidy(t, n.lb, n.a.sid); }
    }
    NodeTidy(t, n.lb, n.a.sid);
    BurstWell(t, d.walk);
    WellAll(BurstOf(t, d.walk), t.sid);
  }

  lemma WellAll(ws: seq<Wire>, sid: string)
    requires AllWell(ws, sid)
    ensures forall i :: 0 <= i < |ws| ==> WellSent(ws[i], sid) && !ws[i].ServerW?
  {
  }

  lemma NodeTidy(s: Server, link: Uid, peer: string)
    requires NodeOk(s, link, peer)
    ensures Tidy(s) && forall x :: x in s.uuidLocal ==> OfPeer(x, s.sid)
  {
  }

  lemma ServerSilent(v: View, w: Wire)
    requires w.ServerW?
    ensures Replay(v, w) == v
  {
  }

  lemma {:induction false} ServersSilent(v: View, ws: seq<Wire>)
    requires forall i :: 0 <= i < |ws| ==> ws[i].ServerW?
    ensures ReplayAll(v, ws) == v
    decreases |ws|
  {
    if ws != [] {
      ServerSilent(v, ws[0]);
      ServersSilent(v, ws[1..]);
    }
  }

  lemma LinkedUp(s: Server, link: Uid, peer: string, w: Wire, now: nat)
    requires NodeOk(s, link, peer) && !Up(s, link) && w.ServerW? && WellSent(w, peer)
    ensures var t := Recv(s, link, peer, w, now);
      && NodeOk(t, link, peer) && Up(t, link) && t.sid == s.sid
      && LocalView(t) == LocalView(s) && RemoteView(t) == RemoteView(s)
  {
    hide CloseLink, LocalsInStep, RegisteredOnly, RemotesKnown, LocalIds, ChanNamed, OfPeer;
    var t := Recv(s, link, peer, w, now);
    assert t == s.(links := s.links[link := true], servers := s.servers[peer := RemoteServer(link, false)]);
    assert LocalIds(t) by { SameUuidsIds(s, t); }
  }

  // ----- runs -----

  lemma NextKeeps(n: Net, st: NetStep)
    requires NetOk(n) && CanStep(n, st)
    ensures NetOk(NextNet(n, st))
  {
    hide NetOk, ActAtA, DeliverToB, LocalOk, Deliverable;
    SwapOk(n);
    match st {
      case AtA(e) => ActKeeps(n, e);
      case AtB(e) => ActKeeps(Swap(n), e); SwapOk(ActAtA(Swap(n), e));
      case ToB(d) => DeliverKeeps(n, d);
      case ToA(d) => DeliverKeeps(Swap(n), d); SwapOk(DeliverToB(Swap(n), d));
    }
  }

  ghost predicate CanRun(n: Net, steps: seq<NetStep>)
    decreases |steps|
  {
    steps == [] || (CanStep(n, steps[0]) && CanRun(NextNet(n, steps[0]), steps[1..]))
  }

  ghost function RunNet(n: Net, steps: seq<NetStep>): Net
    requires CanRun(n, steps)
    decreases |steps|
  {
    if steps == [] then n else RunNet(NextNet(n, steps[0]), steps[1..])
  }

  /** Two servers about to link: each has opened the link, sent SERVER, and knows nobody remote. */
  ghost predicate Greeting(n: Net) {
    && NodeOk(n.a, n.la, n.b.sid) && NodeOk(n.b, n.lb, n.a.sid) && !Up(n.a, n.la) && !Up(n.b, n.lb)
    && n.ab == [ServerW(n.a.sid)] && n.ba == [ServerW(n.b.sid)]
  }

  lemma GreetingOk(n: Net)
    requires Greeting(n)
    ensures NetOk(n)
  {
    hide NodeOk;
    BlankBefore(n.a, n.la, n.b.sid);
    BlankBefore(n.b, n.lb, n.a.sid);
  }

  lemma {:induction false} RunKeeps(n: Net, steps: seq<NetStep>)
    requires NetOk(n) && CanRun(n, steps)
    ensures NetOk(RunNet(n, steps))
    decreases |steps|
  {
    hide NetOk, NextNet, CanStep;
    if steps != [] {
      NextKeeps(n, steps[0]);
      RunKeeps(NextNet(n, steps[0]), steps[1..]);
    }
  }

  /** The users on a channel as one server sees it, by uuid. */
  function Members(s: Server, key: string): set<string> {
    if key in s.channels then
      (set u | u in s.channels[key].members && u in s.users :: s.users[u].uuid) + s.channels[key].rmembers.Keys
    else {}
  }

  /**
   * In every interleaving from the handshake on, the lines in flight from A, replayed over what B has recorded, give
   * exactly A's own users and memberships, and the other way round.
   */
  lemma InFlightAgrees(n: Net, steps: seq<NetStep>)
    requires Greeting(n) && CanRun(n, steps)
    ensures var r := RunNet(n, steps);
      && (Up(r.a, r.la) ==> ReplayAll(RemoteView(r.b), r.ab) == LocalView(r.a))
      && (Up(r.b, r.lb) ==> ReplayAll(RemoteView(r.a), r.ba) == LocalView(r.b))
  {
    hide NodeOk, CanRun, RunNet, LocalView, RemoteView, ReplayAll;
    GreetingOk(n);
    RunKeeps(n, steps);
  }

  /** So whenever both queues are empty, the two servers show the same users on every channel. */
  lemma QuietAgrees(n: Net, steps: seq<NetStep>, key: string)
    requires Greeting(n) && CanRun(n, steps)
    ensures var r := RunNet(n, steps); r.ab == [] && r.ba == [] ==> Members(r.a, key) == Members(r.b, key)
  {
    hide NodeOk, CanRun, RunNet, LocalView, RemoteView, Members;
    GreetingOk(n);
    RunKeeps(n, steps);
    var r := RunNet(n, steps);
    if r.ab == [] && r.ba == [] {
      SplitMembers(r.a, r.la, r.b.sid, key);
      SplitMembers(r.b, r.lb, r.a.sid, key);
      assert RemoteView(r.b) == LocalView(r.a) && RemoteView(r.a) == LocalView(r.b);
    }
  }

  lemma SplitMembers(s: Server, link: Uid, peer: string, key: string)
    requires NodeOk(s, link, peer)
    ensures Members(s, key) ==
      (set p | p in LocalView(s).on && p.0 == key :: p.1) + set p | p in RemoteView(s).on && p.0 == key :: p.1
  {
    hide Fold, RemotesKnown, RegisteredOnly, LinksLive, PeerOk, ValidSid, OfPeer, ChanNamed;
    forall x ensures x in Members(s, key) <==> (key, x) in LocalView(s).on || (key, x) in RemoteView(s).on {
      if key in s.channels {
        if u :| u in s.channels[key].members && u in s.users && s.users[u].uuid == x {
          assert Maps(s.uuidLocal, x, u);
        }
        if x in s.uuidLocal { assert Maps(s.uuidLocal, x, s.uuidLocal[x]); }
      }
    }
    Columns(LocalView(s).on, RemoteView(s).on, key, Members(s, key));
  }

  lemma Columns(l: set<(string, string)>, r: set<(string, string)>, key: string, m: set<string>)
    requires forall x :: x in m <==> (key, x) in l || (key, x) in r
    ensures m == (set p | p in l && p.0 == key :: p.1) + set p | p in r && p.0 == key :: p.1
  {
    forall x | (key, x) in l ensures x in set p | p in l && p.0 == key :: p.1 { assert (key, x).0 == key; }
    forall x | (key, x) in r ensures x in set p | p in r && p.0 == key :: p.1 { assert (key, x).0 == key; }
    forall p: (string, string) | p in l && p.0 == key ensures p.1 in m { assert p == (key, p.1); }
    forall p: (string, string) | p in r && p.0 == key ensures p.1 in m { assert p == (key, p.1); }
  }
}
