/** Every run of one server's events keeps its membership and its name tables consistent. */
module ServerRuns {
  import opened Wrappers
  import opened Channels
  import opened ChannelMerge
  import opened ServerState
  import opened MembershipInvariant
  import opened NickInvariant

  datatype Event =
    | Connects(uid: Uid, uuid: string, ip: string, now: nat)
    | Registers(uid: Uid, ident: string)
    | TakesNick(uid: Uid, newnick: string, now: nat)
    | Joins(uid: Uid, name: string, maxlen: nat, admitted: bool, now: nat)
    | Parts(uid: Uid, target: string)
    | ForceParted(uid: Uid, chan: string)
    | ModeChanged(uid: Uid, chan: string, change: Change, allowed: bool)
    | FloodKicked(uid: Uid, key: string)
    | ChannelRenamed(oldkey: string, newname: string)
    | Quits(uid: Uid)
    | LinkOpens(link: Uid)
    | LinkServes(link: Uid, sid: string, accepted: bool, isService: bool)
    | LinkCloses(link: Uid)
    | UidLine(via: Uid, sid: string, uuid: string, ts: nat, nick: string, ident: string, ip: string, now: nat)
    | NickLine(via: Uid, uuid: string, nick: string, ts: nat, now: nat)
    | SaveLine(target: string, ts: nat, now: nat)
    | QuitLine(via: Uid, uuid: string)
    | FjoinLine(chan: string, burst: Burst, now: nat)
    | IjoinLine(via: Uid, uuid: string, chan: string, ts: nat, letters: string)
    | PartLine(via: Uid, uuid: string, chan: string)
    | KickLine(via: Uid, src: string, chan: string, victim: string)

  function Step(s: Server, e: Event): Server {
    match e
    case Connects(uid, uuid, ip, now) => Connect(s, uid, uuid, ip, now)
    case Registers(uid, ident) => Register(s, uid, ident)
    case TakesNick(uid, newnick, now) => SetNick(s, uid, newnick, now)
    case Joins(uid, name, maxlen, admitted, now) => Join(s, uid, name, maxlen, admitted, now)
    case Parts(uid, target) => Part(s, uid, target)
    case ForceParted(uid, chan) => ForcePart(s, uid, chan)
    case ModeChanged(uid, chan, change, allowed) => ChangeMode(s, uid, chan, change, allowed)
    case FloodKicked(uid, key) => FloodKick(s, uid, key)
    case ChannelRenamed(oldkey, newname) => Rename(s, oldkey, newname)
    case Quits(uid) => RemoveUser(s, uid)
    case LinkOpens(link) => OpenLink(s, link)
    case LinkServes(link, sid, accepted, isService) => LinkServer(s, link, sid, accepted, isService)
    case LinkCloses(link) => CloseLink(s, link)
    case UidLine(via, sid, uuid, ts, nick, ident, ip, now) => UidRecv(s, via, sid, uuid, ts, nick, ident, ip, now)
    case NickLine(via, uuid, nick, ts, now) => NickRecv(s, via, uuid, nick, ts, now)
    case SaveLine(target, ts, now) => SaveRecv(s, target, ts, now)
    case QuitLine(via, uuid) => QuitRecv(s, via, uuid)
    case FjoinLine(chan, burst, now) => FjoinRecvAt(s, chan, burst, now)
    case IjoinLine(via, uuid, chan, ts, letters) => IjoinRecv(s, via, uuid, chan, ts, letters)
    case PartLine(via, uuid, chan) => PartRecv(s, via, uuid, chan)
    case KickLine(via, src, chan, victim) => KickRecv(s, via, src, chan, victim)
  }

  /**
   * What the surrounding code provides: connections and uuids are fresh, only registered users join, local nicks
   * are taken only when free, SERVER lines come from open links, and no incoming nick is another user's uuid.
   */
  ghost predicate Allowed(s: Server, e: Event) {
    match e
    case Connects(uid, uuid, _, _) => uid !in s.users && FreshId(s, uuid)
    case Joins(uid, _, _, _, _) => uid in s.users ==> s.users[uid].registered
    case TakesNick(uid, newnick, _) =>
      && uid in s.users && newnick != "" && NotAnothersId(s, newnick, s.users[uid].uuid)
      && Fold(newnick) !in s.remoteNick && (Fold(newnick) in s.nickIndex ==> s.nickIndex[Fold(newnick)] == uid)
    case UidLine(_, _, uuid, _, nick, _, _, _) =>
      uuid !in s.remoteUsers ==> FreshId(s, uuid) && NotAnothersId(s, nick, uuid)
    case NickLine(_, uuid, nick, _, _) => NotAnothersId(s, nick, uuid)
    case LinkServes(link, _, _, _) => link in s.links
    case _ => true
  }

  ghost predicate Inv(s: Server) {
    MemberInv(s) && NamesOk(s)
  }

  function Empty(sid: string): Server {
    Server(sid, map[], map[], map[], map[], map[], map[], map[], map[])
  }

  function Run(s: Server, es: seq<Event>): Server
    decreases |es|
  {
    if es == [] then s else Run(Step(s, es[0]), es[1..])
  }

  ghost predicate AllowedRun(s: Server, es: seq<Event>)
    decreases |es|
  {
    es == [] || (Allowed(s, es[0]) && AllowedRun(Step(s, es[0]), es[1..]))
  }

  /** From an empty server, every allowed run keeps membership two-way and names exact and unique. */
  lemma RunsKeepInv(sid: string, es: seq<Event>)
    requires AllowedRun(Empty(sid), es)
    ensures Inv(Run(Empty(sid), es))
  {
    EmptyInv(sid);
    RunKeepsInv(Empty(sid), es);
  }

  lemma EmptyInv(sid: string)
    ensures Inv(Empty(sid))
  {
    var s := Empty(sid);
    assert forall f, u :: !Maps(s.nickIndex, f, u) && !OwnsLocal(s.users, u, f);
    assert forall f, r :: !Maps(s.remoteNick, f, r) && !OwnsRemote(s.remoteUsers, r, f);
    assert forall x, u :: !Maps(s.uuidLocal, x, u);
    assert forall x, f :: !IdFoldsTo(s, x, f);
  }

  lemma {:induction false} RunKeepsInv(s: Server, es: seq<Event>)
    requires Inv(s) && AllowedRun(s, es)
    ensures Inv(Run(s, es))
    decreases |es|
  {
    hide Inv, Step, Allowed;
    if es != [] {
      StepKeepsInv(s, es[0]);
      RunKeepsInv(Step(s, es[0]), es[1..]);
    }
  }

  lemma StepKeepsInv(s: Server, e: Event)
    requires Inv(s) && Allowed(s, e)
    ensures Inv(Step(s, e))
  {
    hide Step, MemberInv, NamesOk;
    StepKeepsMembers(s, e);
    StepKeepsNames(s, e);
  }

  // ----- membership -----

  lemma StepKeepsMembers(s: Server, e: Event)
    requires MemberInv(s)
    requires e.Connects? ==> e.uid !in s.users
    requires e.Joins? ==> e.uid in s.users ==> s.users[e.uid].registered
    requires e.LinkServes? ==> e.link in s.links
    ensures MemberInv(Step(s, e))
  {
    hide Step, MemberInv;
    if FromLink(e) { LinkStepKeeps(s, e); } else { OwnStepKeeps(s, e); }
  }

  /** Links and their lines, as opposed to the server's own users. */
  predicate FromLink(e: Event) {
    e.LinkOpens? || e.LinkServes? || e.LinkCloses? || e.UidLine? || e.NickLine? || e.SaveLine? || e.QuitLine? ||
    e.FjoinLine? || e.IjoinLine? || e.PartLine? || e.KickLine?
  }

  lemma OwnStepKeeps(s: Server, e: Event)
    requires MemberInv(s) && !FromLink(e)
    requires e.Connects? ==> e.uid !in s.users
    requires e.Joins? ==> e.uid in s.users ==> s.users[e.uid].registered
    ensures MemberInv(Step(s, e))
  {
    hide Connect, Register, SetNick, Join, Part, ForcePart, ChangeMode, FloodKick, Rename, RemoveUser, MemberInv, Fold;
    match e
    case Connects(uid, uuid, ip, now) => ConnectKeepsMembers(s, uid, uuid, ip, now);
    case Registers(uid, ident) => RegisterKeeps(s, uid, ident);
    case TakesNick(uid, newnick, now) => SetNickKeepsMembers(s, uid, newnick, now);
    case Joins(uid, name, maxlen, admitted, now) => JoinKeeps(s, uid, name, maxlen, admitted, now);
    case Parts(uid, target) => LeavesKeep(s, uid, target);
    case ForceParted(uid, chan) => LeavesKeep(s, uid, chan);
    case ModeChanged(uid, chan, change, allowed) => ModeKeeps(s, uid, chan, change, allowed);
    case FloodKicked(uid, key) => LeavesKeep(s, uid, key);
    case ChannelRenamed(oldkey, newname) => RenameKeeps(s, oldkey, newname);
    case Quits(uid) => RemoveUserKeeps(s, uid);
  }

  lemma LinkStepKeeps(s: Server, e: Event)
    requires MemberInv(s) && FromLink(e) && (e.LinkServes? ==> e.link in s.links)
    ensures MemberInv(Step(s, e))
  {
    hide OpenLink, LinkServer, CloseLink, UidRecv, NickRecv, SaveRecv, QuitRecv, FjoinRecvAt, IjoinRecv, PartRecv,
      KickRecv, MemberInv, Fold;
    match e
    case LinkOpens(link) => OpenKeeps(s, link);
    case LinkServes(link, sid, accepted, isService) => LinkKeeps(s, link, sid, accepted, isService);
    case LinkCloses(link) => CloseLinkKeeps(s, link);
    case UidLine(via, sid, uuid, ts, nick, ident, ip, now) =>
      UidKeepsMembers(s, via, sid, uuid, ts, nick, ident, ip, now);
    case NickLine(via, uuid, nick, ts, now) => NickKeepsMembers(s, via, uuid, nick, ts, now);
    case SaveLine(target, ts, now) => SaveKeepsMembers(s, target, ts, now);
    case QuitLine(via, uuid) => RemoteLeavesKeep(s, via, uuid, "");
    case FjoinLine(chan, burst, now) => FjoinKeeps(s, chan, burst, now);
    case IjoinLine(via, uuid, chan, ts, letters) => IjoinKeeps(s, via, uuid, chan, ts, letters);
    case PartLine(via, uuid, chan) => RemoteLeavesKeep(s, via, uuid, chan);
    case KickLine(via, src, chan, victim) => KickKeeps(s, via, src, chan, victim);
  }

  lemma ConnectKeepsMembers(s: Server, uid: Uid, uuid: string, ip: string, now: nat)
    requires MemberInv(s) && uid !in s.users
    ensures MemberInv(Connect(s, uid, uuid, ip, now))
  {
    var t := Connect(s, uid, uuid, ip, now);
    forall u, k ensures Lists(t.users, u, k) <==> Lists(s.users, u, k) {}
  }

  lemma RegisterKeeps(s: Server, uid: Uid, ident: string)
    requires MemberInv(s)
    ensures MemberInv(Register(s, uid, ident))
  {
    hide RemotesKnown;
    var t := Register(s, uid, ident);
    forall u, k ensures Lists(t.users, u, k) <==> Lists(s.users, u, k) {}
    assert t == s.(users := t.users);
  }

  lemma LeavesKeep(s: Server, uid: Uid, chan: string)
    requires MemberInv(s)
    ensures MemberInv(Part(s, uid, chan)) && MemberInv(ForcePart(s, uid, chan)) && MemberInv(FloodKick(s, uid, chan))
  {
    hide Leave, MemberInv, Fold;
    LeaveKeeps(s, uid, Fold(chan));
    LeaveKeeps(s, uid, chan);
  }

  lemma RemoteLeavesKeep(s: Server, via: Uid, uuid: string, chan: string)
    requires MemberInv(s)
    ensures MemberInv(QuitRecv(s, via, uuid)) && MemberInv(PartRecv(s, via, uuid, chan))
  {
    hide MemberInv, Fold, Reap, DropRemote;
    DropRemoteKeeps(s, uuid);
    RemoteGoneKeeps(s, Fold(chan), uuid);
  }

  lemma OpenKeeps(s: Server, link: Uid)
    requires MemberInv(s)
    ensures MemberInv(OpenLink(s, link))
  {
    hide LocalsInStep, RegisteredOnly, RemotesKnown;
  }

  lemma LinkKeeps(s: Server, link: Uid, sid: string, accepted: bool, isService: bool)
    requires MemberInv(s) && link in s.links
    ensures MemberInv(LinkServer(s, link, sid, accepted, isService))
  {
    hide CloseLink, ValidSid, LocalsInStep, RegisteredOnly, RemotesKnown;
    CloseLinkKeeps(s, link);
  }

  /** Only nicks changed: same channels, links and servers; users keep their uuid, registration, channels and links. */
  ghost predicate OnlyNames(s: Server, t: Server) {
    && t.channels == s.channels && t.links == s.links && t.servers == s.servers && t.uuidLocal == s.uuidLocal
    && t.users.Keys == s.users.Keys && t.remoteUsers.Keys == s.remoteUsers.Keys
    && t.sid == s.sid && (forall u :: u in s.users ==> SameMemberships(s.users[u], t.users[u]))
    && (forall r :: r in s.remoteUsers ==> t.remoteUsers[r].via == s.remoteUsers[r].via)
  }

  predicate SameMemberships(u: User, v: User) {
    v.channels == u.channels && v.registered == u.registered && v.uuid == u.uuid
  }

  lemma OnlyNamesKeeps(s: Server, t: Server)
    requires MemberInv(s) && OnlyNames(s, t)
    ensures MemberInv(t)
  {
    assert LinksLive(t) by {
      forall r | r in t.remoteUsers ensures t.remoteUsers[r].via in t.links { assert r in s.remoteUsers.Keys; }
    }
    forall u | u in s.users
      ensures t.users[u].channels == s.users[u].channels && t.users[u].registered == s.users[u].registered
    {
      assert SameMemberships(s.users[u], t.users[u]);
    }
    RegistryKeeps(s, t);
  }

  lemma OnlyNamesThen(s: Server, t: Server, w: Server)
    requires OnlyNames(s, t) && OnlyNames(t, w)
    ensures OnlyNames(s, w)
  {
    forall u | u in s.users ensures SameMemberships(s.users[u], w.users[u]) {
      assert u in t.users.Keys;
    }
    forall r | r in s.remoteUsers ensures w.remoteUsers[r].via == s.remoteUsers[r].via {
      assert r in t.remoteUsers.Keys;
    }
  }

  lemma SetNickOnly(s: Server, uid: Uid, newnick: string, now: nat)
    ensures OnlyNames(s, SetNick(s, uid, newnick, now))
  {
    hide Fold;
    if uid in s.users {
      var users := s.users[uid := s.users[uid].(nick := newnick, nickTs := now)];
      assert users.Keys == s.users.Keys;
      var t := SetNick(s, uid, newnick, now);
      assert t == s.(users := users, nickIndex := t.nickIndex);
    }
  }

  lemma SetNickKeepsMembers(s: Server, uid: Uid, newnick: string, now: nat)
    requires MemberInv(s)
    ensures MemberInv(SetNick(s, uid, newnick, now))
  {
    hide MemberInv, SetNick, OnlyNames;
    SetNickOnly(s, uid, newnick, now);
    OnlyNamesKeeps(s, SetNick(s, uid, newnick, now));
  }

  lemma SaveRemoteOnly(s: Server, uuid: string)
    ensures OnlyNames(s, SaveRemote(s, uuid))
  {
    hide Fold, OnlyNames;
    if uuid in s.remoteUsers {
      var saved := s.remoteUsers[uuid := s.remoteUsers[uuid].(nick := uuid)];
      assert saved.Keys == s.remoteUsers.Keys;
      var t := SaveRemote(s, uuid);
      assert t.remoteUsers == saved;
      assert t == s.(remoteUsers := saved, remoteNick := t.remoteNick);
      RemoteNamesOnly(s, saved, t.remoteNick);
    } else {
      OnlyNamesSelf(s);
    }
  }

  lemma RemoteNamesOnly(s: Server, remoteUsers: map<string, RemoteUser>, remoteNick: map<string, string>)
    requires remoteUsers.Keys == s.remoteUsers.Keys
    requires forall r :: r in s.remoteUsers ==> remoteUsers[r].via == s.remoteUsers[r].via
    ensures OnlyNames(s, s.(remoteUsers := remoteUsers, remoteNick := remoteNick))
  {
  }

  lemma ResolveLocalOnly(s: Server, luid: Uid, ts: nat, ident: string, ip: string, service: bool, now: nat)
    ensures OnlyNames(s, ResolveLocal(s, luid, ts, ident, ip, service, now).0)
  {
    hide SetNick, CollisionDecision;
    if luid in s.users {
      SetNickOnly(s, luid, s.users[luid].uuid, now);
    }
  }

  lemma ResolveRemoteOnly(s: Server, holder: string, ts: nat, ident: string, ip: string, sid: string)
    ensures OnlyNames(s, ResolveRemote(s, holder, ts, ident, ip, sid).0)
  {
    hide SaveRemote, CollisionDecision, ServerIsService, UuidIsService;
    SaveRemoteOnly(s, holder);
  }

  lemma UidKeepsMembers(
    s: Server, via: Uid, sid: string, uuid: string, ts: nat, nick: string, ident: string, ip: string, now: nat)
    requires MemberInv(s)
    ensures MemberInv(UidRecv(s, via, sid, uuid, ts, nick, ident, ip, now))
  {
    hide Fold, ServerIsService, LocalsInStep, Arbitrated, RegisteredOnly, OnlyNames;
    var t := Arbitrated(s, uuid, nick, ts, ident, ip, sid, ServerIsService(s, sid), now).0;
    ArbitratedOnly(s, uuid, nick, ts, ident, ip, sid, ServerIsService(s, sid), now);
    OnlyNamesKeeps(s, t);
    OnlyNamesLinks(s, t);
  }

  lemma OnlyNamesLinks(s: Server, t: Server)
    requires OnlyNames(s, t)
    ensures t.links == s.links
  {
  }

  lemma ArbitratedOnly(
    s: Server, uuid: string, nick: string, ts: nat, ident: string, ip: string, sid: string, service: bool, now: nat)
    ensures OnlyNames(s, Arbitrated(s, uuid, nick, ts, ident, ip, sid, service, now).0)
  {
    hide Fold, ResolveLocal, ResolveRemote, OnlyNames;
    OnlyNamesSelf(s);
    var s1 := match FindNick(s, nick)
              case Some(l) => ResolveLocal(s, l, ts, ident, ip, service, now).0
              case None => s;
    if Fold(nick) in s.nickIndex {
      ResolveLocalOnly(s, s.nickIndex[Fold(nick)], ts, ident, ip, service, now);
    }
    forall holder ensures OnlyNames(s, ResolveRemote(s1, holder, ts, ident, ip, sid).0) {
      ResolveRemoteOnly(s1, holder, ts, ident, ip, sid);
      OnlyNamesThen(s, s1, ResolveRemote(s1, holder, ts, ident, ip, sid).0);
    }
  }

  lemma OnlyNamesSelf(s: Server)
    ensures OnlyNames(s, s)
  {
  }

  lemma NickKeepsMembers(s: Server, via: Uid, uuid: string, newnick: string, ts: nat, now: nat)
    requires MemberInv(s)
    ensures MemberInv(NickRecv(s, via, uuid, newnick, ts, now))
  {
    hide NickRecv, OnlyNames, MemberInv;
    NickRecvOnly(s, via, uuid, newnick, ts, now);
    OnlyNamesKeeps(s, NickRecv(s, via, uuid, newnick, ts, now));
  }

  lemma NickRecvOnly(s: Server, via: Uid, uuid: string, newnick: string, ts: nat, now: nat)
    ensures OnlyNames(s, NickRecv(s, via, uuid, newnick, ts, now))
  {
    hide Fold, ResolveLocal, ResolveRemote, OnlyNames, UuidIsService;
    OnlyNamesSelf(s);
    if SourcedVia(s, uuid, via) {
      var r := s.remoteUsers[uuid];
      var s1 := match FindNick(s, newnick)
                case Some(l) => ResolveLocal(s, l, ts, r.ident, r.ip, UuidIsService(s, uuid), now).0
                case None => s;
      if Fold(newnick) in s.nickIndex {
        ResolveLocalOnly(s, s.nickIndex[Fold(newnick)], ts, r.ident, r.ip, UuidIsService(s, uuid), now);
      }
      var s2 := if Fold(newnick) in s1.remoteNick && s1.remoteNick[Fold(newnick)] != uuid
                then ResolveRemote(s1, s1.remoteNick[Fold(newnick)], ts, r.ident, r.ip, r.sid).0
                else s1;
      assert OnlyNames(s, s2) by {
        if Fold(newnick) in s1.remoteNick {
          ResolveRemoteOnly(s1, s1.remoteNick[Fold(newnick)], ts, r.ident, r.ip, r.sid);
          OnlyNamesThen(s, s1, ResolveRemote(s1, s1.remoteNick[Fold(newnick)], ts, r.ident, r.ip, r.sid).0);
        }
      }
      if uuid in s2.remoteUsers {
        RenamedOnly(s2, uuid, newnick, ts);
        OnlyNamesThen(s, s2, Renamed(s2, uuid, newnick, ts));
      }
    }
  }

  lemma RenamedOnly(s: Server, uuid: string, nick: string, ts: nat)
    requires uuid in s.remoteUsers
    ensures OnlyNames(s, Renamed(s, uuid, nick, ts))
  {
    hide Fold;
    var t := Renamed(s, uuid, nick, ts);
    assert t.remoteUsers.Keys == s.remoteUsers.Keys;
  }

  lemma SaveKeepsMembers(s: Server, target: string, ts: nat, now: nat)
    requires MemberInv(s)
    ensures MemberInv(SaveRecv(s, target, ts, now))
  {
    hide SaveRecv, OnlyNames, MemberInv;
    SaveRecvOnly(s, target, ts, now);
    OnlyNamesKeeps(s, SaveRecv(s, target, ts, now));
  }

  lemma SaveRecvOnly(s: Server, target: string, ts: nat, now: nat)
    ensures OnlyNames(s, SaveRecv(s, target, ts, now))
  {
    hide SetNick, OnlyNames;
    OnlyNamesSelf(s);
    if target in s.uuidLocal && s.uuidLocal[target] in s.users {
      SetNickOnly(s, s.uuidLocal[target], s.users[s.uuidLocal[target]].uuid, now);
    }
  }

  // ----- names -----

  lemma StepKeepsNames(s: Server, e: Event)
    requires Inv(s) && Allowed(s, e)
    ensures NamesOk(Step(s, e))
  {
    hide Connect, Register, SetNick, Join, Part, ForcePart, ChangeMode, FloodKick, Rename, RemoveUser, OpenLink,
      LinkServer, CloseLink, UidRecv, NickRecv, SaveRecv, QuitRecv, FjoinRecvAt, IjoinRecv, PartRecv, KickRecv,
      MemberInv, Fold, NamesOk, FreshId, NotAnothersId;
    match e
    case Connects(uid, uuid, ip, now) => ConnectKeepsNames(s, uid, uuid, ip, now);
    case TakesNick(uid, newnick, now) => SetNickKeeps(s, uid, newnick, now);
    case Quits(uid) => RemoveUserKeepsNames(s, uid);
    case LinkServes(link, sid, accepted, isService) => LinkKeepsNames(s, link, sid, accepted, isService);
    case LinkCloses(link) => CloseLinkKeepsNames(s, link);
    case UidLine(via, sid, uuid, ts, nick, ident, ip, now) => UidRecvKeeps(s, via, sid, uuid, ts, nick, ident, ip, now);
    case NickLine(via, uuid, nick, ts, now) => NickRecvKeeps(s, via, uuid, nick, ts, now);
    case SaveLine(target, ts, now) => SaveRecvKeeps(s, target, ts, now);
    case QuitLine(via, uuid) => QuitKeepsNames(s, via, uuid);
    case _ => ChannelStepFrame(s, e);
  }

  lemma LinkKeepsNames(s: Server, link: Uid, sid: string, accepted: bool, isService: bool)
    requires NamesOk(s)
    ensures NamesOk(LinkServer(s, link, sid, accepted, isService))
  {
    hide CloseLink, ValidSid, NamesOk;
    CloseLinkKeepsNames(s, link);
    NamesFrame(s, s.(links := if link in s.links then s.links[link := true] else s.links,
                     servers := s.servers[sid := RemoteServer(link, isService)]));
  }

  lemma QuitKeepsNames(s: Server, via: Uid, uuid: string)
    requires NamesOk(s)
    ensures NamesOk(QuitRecv(s, via, uuid))
  {
    hide DropRemote, NamesOk;
    DropRemoteKeepsNames(s, uuid);
  }

  lemma ChannelStepFrame(s: Server, e: Event)
    requires NamesOk(s)
    requires e.Registers? || e.Joins? || e.Parts? || e.ForceParted? || e.ModeChanged? || e.FloodKicked? ||
             e.ChannelRenamed? || e.LinkOpens? || e.FjoinLine? || e.IjoinLine? || e.PartLine? || e.KickLine?
    ensures NamesOk(Step(s, e))
  {
    hide NamesOk, SameNames, Fold, Register, Join, ChangeMode, Rename, Leave, FjoinRecvAt, IjoinRecv, PartRecv,
      KickRecv, OpenLink;
    NamesFrame(s, Step(s, e)) by {
      SameNamesSelf(s);
      match e
      case Registers(uid, ident) => RegisterSame(s, uid, ident);
      case Joins(uid, name, maxlen, admitted, now) => JoinSame(s, uid, name, maxlen, admitted, now);
      case Parts(uid, target) => LeaveSame(s, uid, Fold(target));
      case ForceParted(uid, chan) => LeaveSame(s, uid, Fold(chan));
      case ModeChanged(uid, chan, change, allowed) => ModeSame(s, uid, chan, change, allowed);
      case FloodKicked(uid, key) => LeaveSame(s, uid, key);
      case ChannelRenamed(oldkey, newname) => RenameSame(s, oldkey, newname);
      case KickLine(via, src, chan, victim) => KickSame(s, via, src, chan, victim);
      case _ => ChannelsOnlySame(s, e);
    }
  }

  lemma SameNamesSelf(s: Server)
    ensures SameNames(s, s)
  {
  }

  lemma RegisterSame(s: Server, uid: Uid, ident: string)
    ensures SameNames(s, Register(s, uid, ident))
  {
    assert Register(s, uid, ident).users.Keys == s.users.Keys;
  }

  lemma ModeSame(s: Server, uid: Uid, chan: string, change: Change, allowed: bool)
    ensures SameNames(s, ChangeMode(s, uid, chan, change, allowed))
  {
    hide Fold, ChangedHere;
  }

  lemma JoinSame(s: Server, uid: Uid, name: string, maxlen: nat, admitted: bool, now: nat)
    ensures SameNames(s, Join(s, uid, name, maxlen, admitted, now))
  {
    hide Fold, ValidChan;
    assert Join(s, uid, name, maxlen, admitted, now).users.Keys == s.users.Keys;
  }

  lemma LeaveSame(s: Server, uid: Uid, key: string)
    ensures SameNames(s, Leave(s, uid, key))
  {
    hide Reap, WithoutLocal;
    assert LeaveUser(s.users, uid, key).Keys == s.users.Keys;
  }

  lemma RenameSame(s: Server, oldkey: string, newname: string)
    ensures SameNames(s, Rename(s, oldkey, newname))
  {
    hide Fold, Rekeyed, SameNames;
    var newkey := Fold(newname);
    if oldkey !in s.channels || (newkey != oldkey && newkey in s.channels) {
      SameNamesSelf(s);
    } else {
      var ch := s.channels[oldkey].(name := newname);
      if newkey == oldkey {
        ChannelsSame(s, s.channels[oldkey := ch]);
      } else {
        RekeyedSame(s.users, ch.members.Keys, oldkey, newkey);
        UsersSame(s, (s.channels - {oldkey})[newkey := ch], Rekeyed(s.users, ch.members.Keys, oldkey, newkey));
      }
    }
  }

  lemma UsersSame(s: Server, channels: map<string, Channel>, users: map<Uid, User>)
    requires users.Keys == s.users.Keys
    requires forall u :: u in s.users ==> users[u].nick == s.users[u].nick && users[u].uuid == s.users[u].uuid
    ensures SameNames(s, s.(channels := channels, users := users))
  {
  }

  lemma RekeyedSame(users: map<Uid, User>, members: set<Uid>, oldkey: string, newkey: string)
    ensures Rekeyed(users, members, oldkey, newkey).Keys == users.Keys
    ensures forall u :: u in users ==> Rekeyed(users, members, oldkey, newkey)[u].nick == users[u].nick
    ensures forall u :: u in users ==> Rekeyed(users, members, oldkey, newkey)[u].uuid == users[u].uuid
  {
  }

  lemma KickSame(s: Server, via: Uid, src: string, chan: string, victim: string)
    ensures SameNames(s, KickRecv(s, via, src, chan, victim))
  {
    hide Fold, Leave, Reap, WithoutRemote, SameNames;
    SameNamesSelf(s);
    forall u, k ensures SameNames(s, Leave(s, u, k)) { LeaveSame(s, u, k); }
    forall channels ensures SameNames(s, s.(channels := channels)) { ChannelsSame(s, channels); }
  }

  lemma ChannelsSame(s: Server, channels: map<string, Channel>)
    ensures SameNames(s, s.(channels := channels))
  {
  }

  lemma ChannelsOnlySame(s: Server, e: Event)
    requires e.LinkOpens? || e.FjoinLine? || e.IjoinLine? || e.PartLine?
    ensures SameNames(s, Step(s, e))
  {
    hide Fold, Reap, WithoutRemote, FjoinRecv, Enterable, StatusToken, GrantLetters, SameNames, NewChannel;
    SameNamesSelf(s);
    LinksSame(s, Step(s, e).links);
    forall channels ensures SameNames(s, s.(channels := channels)) { ChannelsSame(s, channels); }
  }

  lemma LinksSame(s: Server, links: map<Uid, bool>)
    ensures SameNames(s, s.(links := links))
  {
  }
}
