/**
 * The server's tables changed in place, as src/channels.rs, src/link.rs and src/server.rs do: every handler keeps them
 * consistent, and together they do what ServerState says.
 */
module LiveServer {
  import opened Wrappers
  import opened Channels
  import opened ChannelMerge
  import opened ServerState
  import opened MembershipInvariant
  import opened NickInvariant
  import opened ServerEffects
  import NickOutcomes
  import opened ServerRuns

  class Live {
    const sid: string
    var users: map<Uid, User>
    var nickIndex: map<string, Uid>
    var uuidLocal: map<string, Uid>
    var channels: map<string, Channel>
    var remoteUsers: map<string, RemoteUser>
    var remoteNick: map<string, string>
    var links: map<Uid, bool>
    var servers: map<string, RemoteServer>

    constructor (sid: string)
      ensures State() == ServerRuns.Empty(sid) && Valid()
    {
      this.sid := sid;
      users, nickIndex, uuidLocal, channels := map[], map[], map[], map[];
      remoteUsers, remoteNick, links, servers := map[], map[], map[], map[];
      new;
      EmptyInv(sid);
    }

    function State(): Server
      reads this
    {
      Server(sid, users, nickIndex, uuidLocal, channels, remoteUsers, remoteNick, links, servers)
    }

    /** Membership is two-way, remote members are known, links live, and both nick tables exact and disjoint. */
    ghost predicate Valid()
      reads this
    {
      Inv(State())
    }

    // ----- every event -----

    /** Whatever allowed events arrive, the tables stay consistent and follow the events one by one. */
    method Serve(events: seq<Event>)
      requires Valid() && AllowedRun(State(), events)
      modifies this
      ensures State() == Run(old(State()), events) && Valid()
    {
      hide Inv, Step, Allowed;
      for i := 0 to |events|
        invariant Valid() && AllowedRun(State(), events[i..])
        invariant Run(State(), events[i..]) == Run(old(State()), events)
      {
        assert events[i..][0] == events[i] && events[i..][1..] == events[i + 1..];
        Handle(events[i]);
      }
      assert events[|events|..] == [];
    }

    method Handle(e: Event)
      requires Valid() && Allowed(State(), e)
      modifies this
      ensures State() == Step(old(State()), e) && Valid()
    {
      hide Inv, Allowed, Connect, Register, SetNick, Join, Part, ForcePart, ChangeMode, FloodKick, Rename, RemoveUser,
        OpenLink, LinkServer, CloseLink, UidRecv, NickRecv, SaveRecv, QuitRecv, FjoinRecvAt, IjoinRecv, PartRecv,
        KickRecv,
        NowhereRemote, IsMember, IsRemoteMember, ValidChan, Fold;
      AllowedMeans(State(), e);
      match e
      case Connects(uid, uuid, ip, now) => Accept(uid, uuid, ip, now);
      case Registers(uid, ident) => Welcome(uid, ident);
      case TakesNick(uid, newnick, now) => Nick(uid, newnick, now);
      case Joins(uid, name, maxlen, admitted, now) => JoinChannel(uid, name, maxlen, admitted, now);
      case Parts(uid, target) => var on := PartChannel(uid, target);
      case ForceParted(uid, chan) => ForceOut(uid, chan);
      case ModeChanged(uid, chan, change, allowed) => SetMode(uid, chan, change, allowed);
      case FloodKicked(uid, key) => FloodOut(uid, key);
      case ChannelRenamed(oldkey, newname) => RenameChannel(oldkey, newname);
      case Quits(uid) => UserGone(uid);
      case LinkOpens(link) => NewLink(link);
      case LinkServes(link, peer, accepted, isService) => ServerLine(link, peer, accepted, isService);
      case LinkCloses(link) => LinkGone(link);
      case UidLine(via, peer, uuid, ts, nick, ident, ip, now) => UidLine(via, peer, uuid, ts, nick, ident, ip, now);
      case NickLine(via, uuid, nick, ts, now) => NickLine(via, uuid, nick, ts, now);
      case SaveLine(target, ts, now) => SaveLine(target, ts, now);
      case QuitLine(via, uuid) => QuitLine(via, uuid);
      case FjoinLine(chan, burst, now) => FjoinLine(chan, burst, now);
      case IjoinLine(via, uuid, chan, ts, letters) => IjoinLine(via, uuid, chan, ts, letters);
      case PartLine(via, uuid, chan) => PartLine(via, uuid, chan);
      case KickLine(via, src, chan, victim) => KickLine(via, src, chan, victim);
    }

    // ----- connections -----

    method Accept(uid: Uid, uuid: string, ip: string, now: nat)
      requires Valid() && Allowed(State(), Connects(uid, uuid, ip, now))
      modifies `users, `uuidLocal
      ensures State() == Connect(old(State()), uid, uuid, ip, now) && Valid()
    {
      hide Inv, Allowed;
      users := users[uid := User(uuid, "", now, now, "", ip, false, {})];
      uuidLocal := uuidLocal[uuid := uid];
      StepKeepsInv(old(State()), Connects(uid, uuid, ip, now));
    }

    method Welcome(uid: Uid, ident: string)
      requires Valid()
      modifies `users
      ensures State() == Register(old(State()), uid, ident) && Valid()
    {
      hide Inv;
      if uid in users {
        users := users[uid := users[uid].(registered := true, ident := ident)];
      }
      StepKeepsInv(old(State()), Registers(uid, ident));
    }

    method NewLink(link: Uid)
      requires Valid()
      modifies `links
      ensures State() == OpenLink(old(State()), link) && Valid()
    {
      hide Inv;
      links := links[link := false];
      StepKeepsInv(old(State()), LinkOpens(link));
    }

    // ----- channels -----

    method JoinChannel(uid: Uid, name: string, maxlen: nat, admitted: bool, now: nat)
      requires Valid() && (uid in users ==> users[uid].registered)
      modifies `channels, `users
      ensures State() == Join(old(State()), uid, name, maxlen, admitted, now) && Valid()
      ensures AfterJoin(old(State()), State(), uid, name, maxlen, admitted, now)
      ensures IsMember(State(), uid, Fold(name)) <==>
        old(IsMember(State(), uid, Fold(name))) || (admitted && uid in users && ValidChan(name, maxlen))
    {
      hide Fold, ValidChan, Inv, IsMember, NewChannel, AfterJoin;
      var key := Fold(name);
      if ValidChan(name, maxlen) && uid in users && key !in users[uid].channels && admitted {
        var isNew := key !in channels;
        if isNew {
          channels := channels[key := NewChannel(name, now)];
        }
        var ch := channels[key];
        var entered := ch.(members := ch.members[uid := Member(if isNew then {Op} else {}, [])]);
        channels := channels[key := entered];
        users := users[uid := users[uid].(channels := users[uid].channels + {key})];
        assert channels == old(channels)[key := entered];
      }
      assert State() == Join(old(State()), uid, name, maxlen, admitted, now);
      JoinKeepsInv(old(State()), uid, name, maxlen, admitted, now);
      JoinEffect(old(State()), uid, name, maxlen, admitted, now);
    }

    /** Both directions of a membership go, then emptied channels. */
    method DropMembership(uid: Uid, key: string)
      requires Valid()
      modifies `channels, `users
      ensures State() == Leave(old(State()), uid, key) && Valid() && AfterLeave(old(State()), State(), uid, key)
      ensures forall u, k :: IsMember(State(), u, k) <==> old(IsMember(State(), u, k)) && !(u == uid && k == key)
    {
      hide Inv, IsMember, KeepAlive, AfterLeave;
      if key in channels {
        channels := channels[key := channels[key].(members := channels[key].members - {uid})];
      }
      if uid in users {
        users := users[uid := users[uid].(channels := users[uid].channels - {key})];
      }
      channels := map k | k in channels && KeepAlive(channels[k]) :: channels[k];
      assert State() == Leave(old(State()), uid, key);
      LeaveKeepsInv(old(State()), uid, key);
      LeaveEffect(old(State()), uid, key);
    }

    method PartChannel(uid: Uid, target: string) returns (on: bool)
      requires Valid()
      modifies `channels, `users
      ensures State() == Part(old(State()), uid, target) && Valid()
      ensures on <==> old(IsMember(State(), uid, Fold(target)))
      ensures !IsMember(State(), uid, Fold(target))
      ensures if on then AfterLeave(old(State()), State(), uid, Fold(target)) else State() == old(State())
    {
      hide Fold, Leave, Inv, AfterLeave;
      Recorded(State(), uid, Fold(target));
      var key := Fold(target);
      on := uid in users && key in users[uid].channels;
      if on {
        DropMembership(uid, key);
      }
    }

    method ForceOut(uid: Uid, chan: string)
      requires Valid()
      modifies `channels, `users
      ensures State() == ForcePart(old(State()), uid, chan) && Valid()
      ensures !IsMember(State(), uid, Fold(chan))
      ensures if old(IsMember(State(), uid, Fold(chan))) then AfterLeave(old(State()), State(), uid, Fold(chan))
              else State() == old(State())
    {
      hide Fold, Leave, Inv, AfterLeave;
      if IsMember(State(), uid, Fold(chan)) {
        DropMembership(uid, Fold(chan));
      }
    }

    /** One mode of a user's MODE command: the channel's settings, or the rank of one of our users on it. */
    method SetMode(uid: Uid, chan: string, change: Change, allowed: bool)
      requires Valid()
      modifies `channels
      ensures State() == ChangeMode(old(State()), uid, chan, change, allowed) && Valid()
      ensures AfterMode(old(State()), State(), uid, chan, change, allowed)
      ensures forall u, k :: IsMember(State(), u, k) <==> old(IsMember(State(), u, k))
      ensures allowed && old(IsMember(State(), uid, Fold(chan))) && Fold(chan) in channels ==>
        MaskSet(channels[Fold(chan)], change)
    {
      hide Fold, Inv, ChangedHere, MaskSet, SameFolded, AfterMode;
      Recorded(State(), uid, Fold(chan));
      if ModeApplies(State(), uid, chan, change, allowed) {
        ChangedKeeps(State(), channels[Fold(chan)], change);
        channels := channels[Fold(chan) := ChangedHere(State(), channels[Fold(chan)], change)];
      }
      assert State() == ChangeMode(old(State()), uid, chan, change, allowed);
      StepKeepsInv(old(State()), ModeChanged(uid, chan, change, allowed));
      SameKeys(old(State()), uid, chan, change, allowed);
      MasksSet(old(State()), uid, chan, change, allowed);
      ModeEffect(old(State()), uid, chan, change, allowed);
    }

    method FloodOut(uid: Uid, key: string)
      requires Valid()
      modifies `channels, `users
      ensures State() == FloodKick(old(State()), uid, key) && Valid()
      ensures !IsMember(State(), uid, key)
      ensures if uid in old(users) then AfterLeave(old(State()), State(), uid, key) else State() == old(State())
    {
      hide Leave, Inv, AfterLeave;
      Recorded(State(), uid, key);
      if uid in users {
        DropMembership(uid, key);
      }
    }

    /** `rename_channel`: the members' sets follow the channel to its new key, one member at a time. */
    method RenameChannel(oldkey: string, newname: string)
      requires Valid()
      modifies `channels, `users
      ensures State() == Rename(old(State()), oldkey, newname) && Valid()
      ensures AfterRename(old(State()), State(), oldkey, newname)
    {
      hide Fold, Rekeyed, Inv, AfterRename;
      var newkey := Fold(newname);
      if oldkey !in channels || (newkey != oldkey && newkey in channels) {
        RenameEffect(State(), oldkey, newname);
        return;
      }
      var ch := channels[oldkey].(name := newname);
      if newkey == oldkey {
        channels := channels[oldkey := ch];
      } else {
        channels := (channels - {oldkey})[newkey := ch];
        MoveMembers(ch.members.Keys, oldkey, newkey);
      }
      assert State() == Rename(old(State()), oldkey, newname);
      RenameKeepsInv(old(State()), oldkey, newname);
      RenameEffect(old(State()), oldkey, newname);
    }

    method MoveMembers(members: set<Uid>, oldkey: string, newkey: string)
      requires oldkey != newkey
      modifies `users
      ensures users == Rekeyed(old(users), members, oldkey, newkey)
    {
      var left := members;
      RekeyedNone(users, oldkey, newkey);
      while left != {}
        invariant left <= members && users == Rekeyed(old(users), members - left, oldkey, newkey)
        decreases |left|
      {
        var u :| u in left;
        left := left - {u};
        RekeyedOne(old(users), members - left - {u}, u, oldkey, newkey);
        assert members - left == (members - left - {u}) + {u};
        if u in users {
          users := users[u := users[u].(channels := users[u].channels - {oldkey} + {newkey})];
        }
      }
      assert members - left == members;
    }

    // ----- users -----

    /** A nick that is free, or the user's own already, is taken. */
    method Nick(uid: Uid, newnick: string, now: nat)
      requires Valid() && Allowed(State(), TakesNick(uid, newnick, now))
      modifies `nickIndex, `users
      ensures State() == SetNick(old(State()), uid, newnick, now) && Valid()
      ensures AfterNick(old(State()), State(), uid, newnick, now)
      ensures uid in users && users[uid].nick == newnick && FindNick(State(), newnick) == Some(uid)
    {
      hide Fold, Inv, NamesOk, NotAnothersId, AfterNick;
      var was := users[uid].nick;
      if was != "" {
        nickIndex := nickIndex - {Fold(was)};
      }
      nickIndex := nickIndex[Fold(newnick) := uid];
      users := users[uid := users[uid].(nick := newnick, nickTs := now)];
      assert State() == SetNick(old(State()), uid, newnick, now);
      NickKeepsInv(old(State()), uid, newnick, now);
      NickEffect(old(State()), uid, newnick, now);
    }

    /** `remove_user`: channel by channel, then the emptied ones are reaped. */
    method UserGone(uid: Uid)
      requires Valid()
      modifies `users, `uuidLocal, `nickIndex, `channels
      ensures State() == RemoveUser(old(State()), uid) && Valid() && AfterQuit(old(State()), State(), uid)
    {
      hide Fold, DropFrom, Inv, KeepAlive, AfterQuit;
      if uid !in users {
        GoneAfter(State(), uid);
        return;
      }
      var u := users[uid];
      users := users - {uid};
      uuidLocal := uuidLocal - {u.uuid};
      if u.nick != "" {
        nickIndex := nickIndex - {Fold(u.nick)};
      }
      if u.registered {
        LeaveAll(u.channels, uid);
        channels := map k | k in channels && KeepAlive(channels[k]) :: channels[k];
      }
      assert State() == RemoveUser(old(State()), uid);
      QuitKeepsInv(old(State()), uid);
      GoneAfter(old(State()), uid);
    }

    method LeaveAll(keys: set<string>, uid: Uid)
      modifies `channels
      ensures channels == DropFrom(old(channels), keys, uid)
    {
      var left := keys;
      DropFromNone(channels, uid);
      while left != {}
        invariant left <= keys && channels == DropFrom(old(channels), keys - left, uid)
        decreases |left|
      {
        var k :| k in left;
        left := left - {k};
        DropFromOne(old(channels), keys - left - {k}, k, uid);
        assert keys - left == (keys - left - {k}) + {k};
        if k in channels {
          channels := channels[k := channels[k].(members := channels[k].members - {uid})];
        }
      }
      assert keys - left == keys;
    }

    // ----- links -----

    /** `drop_remote_user`. */
    method RemoteGone(uuid: string)
      modifies `channels, `remoteUsers, `remoteNick
      ensures State() == DropRemote(old(State()), uuid)
    {
      hide Fold;
      if uuid !in remoteUsers { return; }
      channels := map k | k in channels ::
        if uuid in channels[k].rmembers then channels[k].(rmembers := channels[k].rmembers - {uuid}) else channels[k];
      assert channels == WithoutRemotes(old(channels), {uuid}) by { OnlyWhereHeld(old(channels), uuid); }
      channels := map k | k in channels && KeepAlive(channels[k]) :: channels[k];
      var nick := remoteUsers[uuid].nick;
      remoteUsers := remoteUsers - {uuid};
      remoteNick := remoteNick - {Fold(nick)};
    }

    /** `close_link`: the users behind it are dropped one after another, reaping each time. */
    method LinkGone(link: Uid)
      requires Valid()
      modifies this
      ensures State() == CloseLink(old(State()), link) && Valid() && AfterClose(old(State()), State(), link)
    {
      hide Fold, Reap, DropRemote, CloseLink, Dropped, Inv, AfterClose;
      links := links - {link};
      servers := map i | i in servers && servers[i].via != link :: servers[i];
      label Split:
      var gone := Behind(State(), link);
      var left := gone;
      DroppedNone(State());
      assert gone - left == {};
      while left != {}
        modifies `channels, `remoteUsers, `remoteNick
        invariant left <= gone && State() == Dropped(old@Split(State()), gone - left)
        decreases |left|
      {
        var u :| u in left;
        DroppedOne(old@Split(State()), gone - left, u);
        assert gone - (left - {u}) == gone - left + {u};
        left := left - {u};
        RemoteGone(u);
      }
      assert gone - left == gone;
      SplitIsDropped(old(State()), link);
      assert State() == CloseLink(old(State()), link);
      CloseKeepsInv(old(State()), link);
      CloseEffect(old(State()), link);
    }

    /** Only the link a user is behind can make it quit. */
    method QuitLine(via: Uid, uuid: string)
      requires Valid()
      modifies `channels, `remoteUsers, `remoteNick
      ensures State() == QuitRecv(old(State()), via, uuid) && Valid()
      ensures AfterRemoteQuit(old(State()), State(), via, uuid)
      ensures old(SourcedVia(State(), uuid, via)) ==> uuid !in remoteUsers && NowhereRemote(State(), uuid)
    {
      hide DropRemote, Inv, NowhereRemote, AfterRemoteQuit;
      RemoteQuitEffect(State(), via, uuid);
      if SourcedVia(State(), uuid, via) {
        RemoteGone(uuid);
      }
      assert State() == QuitRecv(old(State()), via, uuid);
      QuitLineKeepsInv(old(State()), via, uuid);
    }

    /** A good SERVER line registers its peer behind the link; any other drops the link. */
    method ServerLine(link: Uid, peer: string, accepted: bool, isService: bool)
      requires Valid() && link in links
      modifies this
      ensures State() == LinkServer(old(State()), link, peer, accepted, isService) && Valid()
      ensures link in links <==> accepted && ValidSid(peer) && peer != sid && peer !in old(servers)
      ensures link in links ==> links[link] && SourceServer(State(), peer, link)
    {
      hide CloseLink, ValidSid, Inv;
      if !accepted || !ValidSid(peer) || peer == sid || peer in servers {
        LinkGone(link);
        ClosedShows(old(State()), link);
        return;
      }
      if link in links {
        links := links[link := true];
      }
      servers := servers[peer := RemoteServer(link, isService)];
      assert State() == LinkServer(old(State()), link, peer, accepted, isService);
      ServerKeepsInv(old(State()), link, peer, accepted, isService);
    }

    // ----- nick collisions -----

    /** `resolve_collision`: whether the newcomer must take its uuid; a holder that yields goes under its own. */
    method AgainstLocal(luid: Uid, ts: nat, ident: string, ip: string, service: bool, now: nat) returns (lost: bool)
      requires Valid()
      modifies `nickIndex, `users
      ensures (State(), lost) == ResolveLocal(old(State()), luid, ts, ident, ip, service, now) && Valid()
      ensures !lost ==> luid in users && users[luid].nick == users[luid].uuid
      ensures luid in old(users) && !service ==>
        var u := old(users)[luid];
        var same := u.ident == ident && u.ip == ip;
        && users == NickOutcomes.LocalsAfter(old(State()), luid, NickOutcomes.Keeps(u.nickTs, ts, same), now)
        && lost == !NickOutcomes.Keeps(ts, u.nickTs, same)
    {
      hide SetNick, Inv, Allowed;
      if luid in users { NickOutcomes.AgainstLocal(State(), luid, ts, ident, ip, now); }
      if luid in users { OwnIdTakable(State(), luid, now); }
      if luid !in users { return true; }
      var u := users[luid];
      var local := true;
      lost := false;
      if !service {
        var d := CollisionDecision(u.nickTs, ts, u.ident == ident && u.ip == ip);
        local, lost := d.0, d.1;
      }
      assert local || lost;
      if local {
        Nick(luid, u.uuid, now);
        assert users[luid].uuid == u.uuid by { SetNickUuid(old(State()), luid, u.uuid, now); }
      }
    }

    /** `save_remote_user`. */
    method Save(uuid: string)
      requires Valid()
      modifies `remoteUsers, `remoteNick
      ensures State() == SaveRemote(old(State()), uuid) && Valid()
      ensures uuid in remoteUsers ==> remoteUsers[uuid].nick == uuid
    {
      hide Fold, Inv;
      if uuid !in remoteUsers { return; }
      var was := remoteUsers[uuid].nick;
      remoteUsers := remoteUsers[uuid := remoteUsers[uuid].(nick := uuid)];
      if Fold(was) != Fold(uuid) {
        remoteNick := remoteNick - {Fold(was)};
        remoteNick := remoteNick[Fold(uuid) := uuid];
      }
      assert State() == SaveRemote(old(State()), uuid);
      SaveKeepsInv(old(State()), uuid);
    }

    /** `resolve_remote_collision`: likewise against a remote holder. */
    method AgainstRemote(holder: string, ts: nat, ident: string, ip: string, peer: string) returns (lost: bool)
      requires Valid()
      modifies `remoteUsers, `remoteNick
      ensures (State(), lost) == ResolveRemote(old(State()), holder, ts, ident, ip, peer) && Valid()
      ensures !lost && holder in remoteUsers ==> remoteUsers[holder].nick == holder
      ensures holder in old(remoteUsers) && !NickOutcomes.Serves(old(State()), peer) &&
              !NickOutcomes.Serves(old(State()), old(remoteUsers)[holder].sid) ==>
        var h := old(remoteUsers)[holder];
        var same := h.ident == ident && h.ip == ip;
        && remoteUsers == NickOutcomes.RemotesAfter(old(State()), holder, NickOutcomes.Keeps(h.nickTs, ts, same))
        && lost == !NickOutcomes.Keeps(ts, h.nickTs, same)
    {
      hide SaveRemote, ServerIsService, UuidIsService, Inv, NickOutcomes.Serves;
      if holder in remoteUsers && !NickOutcomes.Serves(State(), peer) &&
         !NickOutcomes.Serves(State(), remoteUsers[holder].sid) {
        NickOutcomes.AgainstRemote(State(), holder, ts, ident, ip, peer);
      }
      if holder !in remoteUsers { return false; }
      var h := remoteUsers[holder];
      var existing := true;
      lost := false;
      if ServerIsService(State(), peer) {
      } else if UuidIsService(State(), holder) {
        existing, lost := false, true;
      } else {
        var d := CollisionDecision(h.nickTs, ts, h.ident == ident && h.ip == ip);
        existing, lost := d.0, d.1;
      }
      if existing {
        Save(holder);
      }
    }

    /** The nick a newcomer ends up with, after arbitration against a local and then a remote holder. */
    method Settle(
      uuid: string, wanted: string, ts: nat, ident: string, ip: string, peer: string, service: bool, now: nat)
      returns (nick: string)
      requires Valid()
      modifies this
      ensures (State(), nick) == Arbitrated(old(State()), uuid, wanted, ts, ident, ip, peer, service, now) && Valid()
    {
      hide Fold, ResolveLocal, ResolveRemote, Inv;
      nick := wanted;
      if Fold(nick) in nickIndex {
        var lost := AgainstLocal(nickIndex[Fold(nick)], ts, ident, ip, service, now);
        if lost {
          nick := uuid;
        }
      }
      if Fold(nick) in remoteNick && remoteNick[Fold(nick)] != uuid {
        var lost := AgainstRemote(remoteNick[Fold(nick)], ts, ident, ip, peer);
        if lost {
          nick := uuid;
        }
      }
    }

    /** The newcomer ends up known, under the wanted nick or its uuid, whatever collisions that takes. */
    method UidLine(via: Uid, peer: string, uuid: string, ts: nat, wanted: string, ident: string, ip: string, now: nat)
      requires Valid() && Allowed(State(), Event.UidLine(via, peer, uuid, ts, wanted, ident, ip, now))
      modifies this
      ensures State() == UidRecv(old(State()), via, peer, uuid, ts, wanted, ident, ip, now) && Valid()
      ensures old(SourceBehind(State(), peer, via)) && |peer| == 3 && |uuid| == 9 && peer <= uuid ==>
        uuid in remoteUsers
      ensures uuid in remoteUsers && uuid !in old(remoteUsers) ==> remoteUsers[uuid].nick in {wanted, uuid}
    {
      hide Fold, Arbitrated, ServerIsService, SourceBehind, Inv, Allowed;
      ArbitratedNick(State(), uuid, wanted, ts, ident, ip, peer, ServerIsService(State(), peer), now);
      if !SourceBehind(State(), peer, via) { return; }
      if |peer| != 3 || |uuid| != 9 || !(peer <= uuid) || uuid in remoteUsers { return; }
      var nick := Settle(uuid, wanted, ts, ident, ip, peer, ServerIsService(State(), peer), now);
      remoteNick := remoteNick[Fold(nick) := uuid];
      remoteUsers := remoteUsers[uuid := RemoteUser(nick, ts, ident, ip, peer, via)];
      assert State() == UidRecv(old(State()), via, peer, uuid, ts, wanted, ident, ip, now);
      UidKeepsInv(old(State()), via, peer, uuid, ts, wanted, ident, ip, now);
    }

    /** The user takes the nick or keeps its own; only a link it is behind can ask. */
    method NickLine(via: Uid, uuid: string, newnick: string, ts: nat, now: nat)
      requires Valid() && Allowed(State(), Event.NickLine(via, uuid, newnick, ts, now))
      modifies this
      ensures State() == NickRecv(old(State()), via, uuid, newnick, ts, now) && Valid()
      ensures uuid in old(remoteUsers) ==> uuid in remoteUsers
      ensures uuid in old(remoteUsers) && remoteUsers[uuid].nick != old(remoteUsers)[uuid].nick ==>
        remoteUsers[uuid].nick == newnick && old(SourcedVia(State(), uuid, via))
    {
      hide Fold, ResolveLocal, ResolveRemote, UuidIsService, Renamed, Inv, Allowed;
      NickLineKeepsInv(State(), via, uuid, newnick, ts, now);
      if uuid in remoteUsers { NickLineNick(State(), via, uuid, newnick, ts, now); }
      if !SourcedVia(State(), uuid, via) { return; }
      var r := remoteUsers[uuid];
      if Fold(newnick) in nickIndex {
        var lost := AgainstLocal(nickIndex[Fold(newnick)], ts, r.ident, r.ip, UuidIsService(State(), uuid), now);
        if lost { return; }
      }
      if Fold(newnick) in remoteNick && remoteNick[Fold(newnick)] != uuid {
        var lost := AgainstRemote(remoteNick[Fold(newnick)], ts, r.ident, r.ip, r.sid);
        if lost { return; }
      }
      if uuid in remoteUsers {
        RemoteNick(uuid, newnick, ts);
      }
    }

    method RemoteNick(uuid: string, newnick: string, ts: nat)
      requires uuid in remoteUsers
      modifies `remoteUsers, `remoteNick
      ensures State() == Renamed(old(State()), uuid, newnick, ts)
    {
      hide Fold;
      var was := remoteUsers[uuid];
      remoteUsers := remoteUsers[uuid := was.(nick := newnick, nickTs := ts)];
      remoteNick := remoteNick - {Fold(was.nick)};
      remoteNick := remoteNick[Fold(newnick) := uuid];
    }

    /** A SAVE that is not stale sends its user to the uuid. */
    method SaveLine(target: string, ts: nat, now: nat)
      requires Valid()
      modifies `nickIndex, `users
      ensures State() == SaveRecv(old(State()), target, ts, now) && Valid()
      ensures forall u ::
        u in users && users[u].uuid == target && old(users)[u].nickTs == ts ==> users[u].nick == target
    {
      hide SetNick, Inv, Allowed;
      SaveShows(State(), target, ts, now);
      if target in uuidLocal {
        var luid := uuidLocal[target];
        if luid in users && users[luid].nickTs == ts {
          OwnIdTakable(State(), luid, now);
          Nick(luid, users[luid].uuid, now);
        }
      }
    }

    // ----- remote members -----

    /** `link_fjoin_recv`: arbitrate, apply the mode string letter by letter, then enter the listed users. */
    method FjoinLine(chan: string, b: Burst, now: nat)
      requires Valid()
      modifies `channels
      ensures State() == FjoinRecvAt(old(State()), chan, b, now) && Valid()
      ensures Fold(chan) in channels && channels == old(channels)[Fold(chan) := channels[Fold(chan)]]
      ensures var held := if Fold(chan) in old(channels) then Some(old(channels)[Fold(chan)]) else None;
        && AfterFjoin(held, channels[Fold(chan)], chan, b)
        && forall x :: EnteredFjoin(held, channels[Fold(chan)], b, remoteUsers.Keys - uuidLocal.Keys, x)
    {
      hide Fold, ApplyModeString, Enter, Surrender, Inv, Enterable, AfterFjoin, EnteredFjoin;
      var key := Fold(chan);
      var isNew := key !in channels;
      var ch := if isNew then NewChannel(chan, now) else channels[key];
      var ours := ch.created;
      var weWin := !isNew && b.ts > ours;
      if !weWin {
        if !isNew && b.ts < ours {
          ch := Surrender(ch);
        }
        var modes := ApplyModes(ch.modes, b.modes);
        ch := ch.(created := b.ts, modes := modes);
      }
      var rmembers := EnterMembers(ch.rmembers, b.entries, Enterable(State()), !weWin);
      channels := channels[key := ch.(rmembers := rmembers)];
      assert State() == FjoinRecvAt(old(State()), chan, b, now);
      FjoinKeepsInv(old(State()), chan, b, now);
      FjoinServer(old(State()), chan, b, now);
    }

    /** Only the link a user is behind can make it join or part. */
    method IjoinLine(via: Uid, uuid: string, chan: string, ts: nat, letters: string)
      requires Valid()
      modifies `channels
      ensures State() == IjoinRecv(old(State()), via, uuid, chan, ts, letters) && Valid()
      ensures AfterIjoin(old(State()), State(), via, uuid, chan, ts, letters)
      ensures forall r, k :: IsRemoteMember(State(), r, k) <==>
        old(IsRemoteMember(State(), r, k)) ||
        (r == uuid && k == Fold(chan) && SourcedVia(State(), uuid, via) && chan != "" && chan[0] == '#')
    {
      hide Fold, GrantLetters, StatusToken, Inv, IsRemoteMember, AfterIjoin;
      if chan == "" || chan[0] != '#' || !SourcedVia(State(), uuid, via) {
        IjoinEffect(State(), via, uuid, chan, ts, letters);
        return;
      }
      var key := Fold(chan);
      var m := if StatusToken(letters) then GrantLetters(PlainMember, letters) else PlainMember;
      if key !in channels {
        channels := channels[key := NewChannel(chan, ts)];
      }
      channels := channels[key := channels[key].(rmembers := channels[key].rmembers[uuid := m])];
      assert channels == old(channels)[key := channels[key]];
      assert State() == IjoinRecv(old(State()), via, uuid, chan, ts, letters);
      IjoinKeepsInv(old(State()), via, uuid, chan, ts, letters);
      IjoinEffect(old(State()), via, uuid, chan, ts, letters);
    }

    method PartLine(via: Uid, uuid: string, chan: string)
      requires Valid()
      modifies `channels
      ensures State() == PartRecv(old(State()), via, uuid, chan) && Valid()
      ensures if old(BehindLink(State(), uuid, via) && Shown(State(), uuid, Fold(chan)))
              then AfterRemotePart(old(State()), State(), uuid, Fold(chan)) else State() == old(State())
      ensures forall r, k :: IsRemoteMember(State(), r, k) <==>
        old(IsRemoteMember(State(), r, k)) && !(r == uuid && k == Fold(chan) && SourcedVia(State(), uuid, via))
    {
      hide Fold, Inv, Reap, IsRemoteMember, WithoutRemote, AfterRemotePart, BehindLink, Shown;
      RemotePartEffect(State(), via, uuid, chan);
      if !SourcedVia(State(), uuid, via) { return; }
      RemoteLeaves(Fold(chan), uuid);
      assert State() == PartRecv(old(State()), via, uuid, chan);
      PartKeepsInv(old(State()), via, uuid, chan);
    }

    method RemoteLeaves(key: string, uuid: string)
      modifies `channels
      ensures channels == if key in old(channels) && uuid in old(channels)[key].rmembers
                          then Reap(WithoutRemote(old(channels), key, uuid)) else old(channels)
    {
      if key !in channels || uuid !in channels[key].rmembers { return; }
      channels := channels[key := channels[key].(rmembers := channels[key].rmembers - {uuid})];
      channels := map k | k in channels && KeepAlive(channels[k]) :: channels[k];
    }

    method KickLine(via: Uid, src: string, chan: string, victim: string)
      requires Valid()
      modifies `channels, `users
      ensures State() == KickRecv(old(State()), via, src, chan, victim) && Valid()
      ensures AfterKick(old(State()), State(), via, src, chan, victim)
      ensures old(SourceBehind(State(), src, via)) && victim in uuidLocal ==>
        !IsMember(State(), uuidLocal[victim], Fold(chan))
    {
      hide Fold, Leave, Reap, WithoutRemote, SourceBehind, Inv, AfterKick, AfterLeave;
      KickEffect(State(), via, src, chan, victim);
      KickKeepsInv(State(), via, src, chan, victim);
      if !SourceBehind(State(), src, via) { return; }
      var key := Fold(chan);
      var local := if victim in uuidLocal then Some(uuidLocal[victim]) else FindNick(State(), victim);
      if local.Some? {
        if IsMember(State(), local.value, key) {
          DropMembership(local.value, key);
        }
      } else if victim in remoteUsers {
        RemoteLeaves(key, victim);
      } else if Fold(victim) in remoteNick && remoteNick[Fold(victim)] in remoteUsers {
        RemoteLeaves(key, remoteNick[Fold(victim)]);
      }
    }
  }

  /** The mode letters of an FJOIN, `+` or `-` switching the sign. */
  method ApplyModes(m: Modes, modes: string) returns (r: Modes)
    ensures r == ApplyModeString(m, modes, '+')
  {
    var sign := '+';
    r := m;
    for i := 0 to |modes|
      invariant ApplyModeString(r, modes[i..], sign) == ApplyModeString(m, modes, '+')
    {
      assert modes[i..][1..] == modes[i + 1..];
      if modes[i] == '+' || modes[i] == '-' {
        sign := modes[i];
      } else {
        r := SetFlag(r, modes[i], sign == '+');
      }
    }
  }

  /** The known users of the list enter, the last entry of a repeated one counting. */
  method EnterMembers(rmembers: map<string, Member>, entries: seq<Entry>, known: set<string>, keep: bool)
    returns (r: map<string, Member>)
    ensures r == Enter(rmembers, entries, known, keep)
  {
    r := rmembers;
    for i := 0 to |entries|
      invariant Enter(r, entries[i..], known, keep) == Enter(rmembers, entries, known, keep)
    {
      assert entries[i..][1..] == entries[i + 1..];
      var e := entries[i];
      if e.uuid in known {
        r := r[e.uuid := Arriving(e.letters, keep)];
      }
    }
  }

  // ----- what the handlers' callers see -----

  /** A mask that was to be added is listed, in some case, and one that was to be removed is not, in any. */
  predicate MaskSet(ch: Channel, change: Change) {
    && (change.AddMask? ==> SameFolded(MasksIn(ch, change.list), change.mask))
    && (change.DropMask? ==> !SameFolded(MasksIn(ch, change.list), change.mask))
  }

  lemma MasksSet(s: Server, uid: Uid, chan: string, change: Change, allowed: bool)
    requires allowed && IsMember(s, uid, Fold(chan)) ==> uid in s.users
    ensures var t := ChangeMode(s, uid, chan, change, allowed);
      allowed && IsMember(s, uid, Fold(chan)) && Fold(chan) in t.channels ==> MaskSet(t.channels[Fold(chan)], change)
  {
    hide Fold;
    if allowed && IsMember(s, uid, Fold(chan)) && (change.AddMask? || change.DropMask?) {
      var was := MasksIn(s.channels[Fold(chan)], change.list);
      var now := MasksIn(ChangedHere(s, s.channels[Fold(chan)], change), change.list);
      if change.AddMask? && !SameFolded(was, change.mask) {
        assert now == was + [change.mask] by { NewMask(was, change.mask); }
        assert now[|was|] == change.mask;
      } else if change.DropMask? && SameFolded(was, change.mask) {
        forall k | 0 <= k < |now| ensures Fold(now[k]) != Fold(change.mask) { assert now[k] in now; }
      }
    }
  }

  lemma NewMask(masks: seq<string>, mask: string)
    requires !SameFolded(masks, mask)
    ensures WithMask(masks, mask) == masks + [mask]
  {
    hide Fold;
  }

  lemma GoneAfter(s: Server, uid: Uid)
    requires Inv(s)
    ensures AfterQuit(s, RemoveUser(s, uid), uid)
  {
    hide RemoveUser, AfterQuit, NamesOk;
    QuitEffect(s, uid);
  }

  lemma SameKeys(s: Server, uid: Uid, chan: string, change: Change, allowed: bool)
    ensures forall u, k :: IsMember(ChangeMode(s, uid, chan, change, allowed), u, k) <==> IsMember(s, u, k)
  {
    hide Fold, ChangedHere;
    var t := ChangeMode(s, uid, chan, change, allowed);
    if ModeApplies(s, uid, chan, change, allowed) { ChangedKeeps(s, s.channels[Fold(chan)], change); }
    forall u, k ensures IsMember(t, u, k) <==> IsMember(s, u, k) {
      assert k in s.channels ==> (u in t.channels[k].members.Keys <==> u in s.channels[k].members.Keys);
    }
  }

  predicate IsRemoteMember(s: Server, r: string, k: string) {
    k in s.channels && r in s.channels[k].rmembers
  }

  ghost predicate NowhereRemote(s: Server, r: string) {
    forall k :: !IsRemoteMember(s, r, k)
  }

  predicate SourceServer(s: Server, peer: string, link: Uid) {
    peer in s.servers && s.servers[peer].via == link
  }

  /** Being on a channel is recorded at both ends. */
  lemma Recorded(s: Server, uid: Uid, k: string)
    requires Inv(s)
    ensures IsMember(s, uid, k) <==> uid in s.users && k in s.users[uid].channels
  {
    hide NamesOk;
    assert Lists(s.users, uid, k) <==> Holds(s.channels, k, uid);
  }

  lemma AllowedMeans(s: Server, e: Event)
    requires Allowed(s, e)
    ensures e.Joins? ==> e.uid in s.users ==> s.users[e.uid].registered
    ensures e.LinkServes? ==> e.link in s.links
  {
  }

  lemma JoinKeepsInv(s: Server, uid: Uid, name: string, maxlen: nat, admitted: bool, now: nat)
    requires Inv(s) && (uid in s.users ==> s.users[uid].registered)
    ensures Inv(Join(s, uid, name, maxlen, admitted, now))
    ensures IsMember(Join(s, uid, name, maxlen, admitted, now), uid, Fold(name)) <==>
      IsMember(s, uid, Fold(name)) || (admitted && uid in s.users && ValidChan(name, maxlen))
  {
    hide Fold, ValidChan, Inv;
    Recorded(s, uid, Fold(name));
    StepKeepsInv(s, Joins(uid, name, maxlen, admitted, now));
  }

  /** Events that ask nothing of their surroundings. */
  lemma OtherKeepsInv(s: Server, e: Event)
    requires Inv(s) && !e.Connects? && !e.Joins? && !e.TakesNick? && !e.UidLine? && !e.NickLine? && !e.LinkServes?
    ensures Inv(Step(s, e))
  {
    hide Inv, Step;
    StepKeepsInv(s, e);
  }

  lemma RenameKeepsInv(s: Server, oldkey: string, newname: string)
    requires Inv(s)
    ensures Inv(Rename(s, oldkey, newname))
  {
    hide Inv, Rename;
    OtherKeepsInv(s, ChannelRenamed(oldkey, newname));
  }

  lemma NickKeepsInv(s: Server, uid: Uid, newnick: string, now: nat)
    requires Inv(s) && Allowed(s, TakesNick(uid, newnick, now))
    ensures Inv(SetNick(s, uid, newnick, now))
  {
    hide Inv, Allowed, SetNick;
    StepKeepsInv(s, TakesNick(uid, newnick, now));
  }

  lemma QuitKeepsInv(s: Server, uid: Uid)
    requires Inv(s)
    ensures Inv(RemoveUser(s, uid))
  {
    hide Inv, RemoveUser;
    OtherKeepsInv(s, Quits(uid));
  }

  lemma CloseKeepsInv(s: Server, link: Uid)
    requires Inv(s)
    ensures Inv(CloseLink(s, link))
  {
    hide Inv, CloseLink;
    OtherKeepsInv(s, LinkCloses(link));
  }

  lemma ServerKeepsInv(s: Server, link: Uid, peer: string, accepted: bool, isService: bool)
    requires Inv(s) && link in s.links
    ensures Inv(LinkServer(s, link, peer, accepted, isService))
  {
    hide Inv, LinkServer;
    StepKeepsInv(s, LinkServes(link, peer, accepted, isService));
  }

  lemma UidKeepsInv(
    s: Server, via: Uid, peer: string, uuid: string, ts: nat, nick: string, ident: string, ip: string, now: nat)
    requires Inv(s) && Allowed(s, UidLine(via, peer, uuid, ts, nick, ident, ip, now))
    ensures Inv(UidRecv(s, via, peer, uuid, ts, nick, ident, ip, now))
  {
    hide Inv, UidRecv, Allowed;
    StepKeepsInv(s, UidLine(via, peer, uuid, ts, nick, ident, ip, now));
  }

  lemma NickLineKeepsInv(s: Server, via: Uid, uuid: string, nick: string, ts: nat, now: nat)
    requires Inv(s) && Allowed(s, NickLine(via, uuid, nick, ts, now))
    ensures Inv(NickRecv(s, via, uuid, nick, ts, now))
  {
    hide Inv, NickRecv, Allowed;
    StepKeepsInv(s, NickLine(via, uuid, nick, ts, now));
  }

  lemma FjoinKeepsInv(s: Server, chan: string, b: Burst, now: nat)
    requires Inv(s)
    ensures Inv(FjoinRecvAt(s, chan, b, now))
  {
    hide Inv, FjoinRecvAt;
    OtherKeepsInv(s, FjoinLine(chan, b, now));
  }

  lemma IjoinKeepsInv(s: Server, via: Uid, uuid: string, chan: string, ts: nat, letters: string)
    requires Inv(s)
    ensures var t := IjoinRecv(s, via, uuid, chan, ts, letters);
      && Inv(t)
      && forall r, k :: IsRemoteMember(t, r, k) <==>
           IsRemoteMember(s, r, k) ||
           (r == uuid && k == Fold(chan) && SourcedVia(s, uuid, via) && chan != "" && chan[0] == '#')
  {
    hide Inv, Fold, IjoinRecv, IsRemoteMember;
    IjoinShows(s, via, uuid, chan, ts, letters);
    OtherKeepsInv(s, IjoinLine(via, uuid, chan, ts, letters));
  }

  lemma IjoinShows(s: Server, via: Uid, uuid: string, chan: string, ts: nat, letters: string)
    ensures forall r, k :: IsRemoteMember(IjoinRecv(s, via, uuid, chan, ts, letters), r, k) <==>
      IsRemoteMember(s, r, k) ||
      (r == uuid && k == Fold(chan) && SourcedVia(s, uuid, via) && chan != "" && chan[0] == '#')
  {
    hide Fold, StatusToken, GrantLetters;
  }

  lemma PartKeepsInv(s: Server, via: Uid, uuid: string, chan: string)
    requires Inv(s)
    ensures var t := PartRecv(s, via, uuid, chan);
      && Inv(t)
      && forall r, k :: IsRemoteMember(t, r, k) <==>
           IsRemoteMember(s, r, k) && !(r == uuid && k == Fold(chan) && SourcedVia(s, uuid, via))
  {
    hide Inv, Fold, Reap, WithoutRemote;
    OtherKeepsInv(s, PartLine(via, uuid, chan));
    RemoteLeft(s, Fold(chan), uuid);
  }

  lemma KickKeepsInv(s: Server, via: Uid, src: string, chan: string, victim: string)
    requires Inv(s)
    ensures Inv(KickRecv(s, via, src, chan, victim))
  {
    hide Inv, KickRecv;
    OtherKeepsInv(s, KickLine(via, src, chan, victim));
  }

  lemma LeaveKeepsInv(s: Server, uid: Uid, key: string)
    requires Inv(s)
    ensures Inv(Leave(s, uid, key))
    ensures forall u, k :: IsMember(Leave(s, uid, key), u, k) <==> IsMember(s, u, k) && !(u == uid && k == key)
  {
    hide Leave, MemberInv, NamesOk, SameNames, IsMember;
    LeaveShows(s, uid, key);
    LeaveKeeps(s, uid, key);
    LeaveSame(s, uid, key);
    NamesFrame(s, Leave(s, uid, key));
  }

  lemma LeaveShows(s: Server, uid: Uid, key: string)
    ensures forall u, k :: IsMember(Leave(s, uid, key), u, k) <==> IsMember(s, u, k) && !(u == uid && k == key)
  {
    var c, t := WithoutLocal(s.channels, key, uid), Leave(s, uid, key);
    forall u, k ensures IsMember(t, u, k) <==> IsMember(s, u, k) && !(u == uid && k == key) {
      assert IsMember(t, u, k) <==> k in c && u in c[k].members;
    }
  }

  lemma QuitLineKeepsInv(s: Server, via: Uid, uuid: string)
    requires Inv(s)
    ensures var t := QuitRecv(s, via, uuid);
      Inv(t) && (SourcedVia(s, uuid, via) ==> uuid !in t.remoteUsers && NowhereRemote(t, uuid))
  {
    hide Fold, Inv;
    OtherKeepsInv(s, QuitLine(via, uuid));
  }

  lemma ClosedShows(s: Server, link: Uid)
    ensures link !in CloseLink(s, link).links
  {
    hide Fold, Reap;
  }

  /** One's own uuid is always free to fall back to. */
  lemma OwnIdTakable(s: Server, uid: Uid, now: nat)
    requires Inv(s) && uid in s.users
    ensures Allowed(s, TakesNick(uid, s.users[uid].uuid, now))
  {
    hide Fold, NamesOk;
    OwnIdFree(s, uid);
  }

  lemma SetNickUuid(s: Server, uid: Uid, newnick: string, now: nat)
    requires uid in s.users
    ensures var t := SetNick(s, uid, newnick, now); uid in t.users && t.users[uid].uuid == s.users[uid].uuid
  {
    hide Fold;
  }

  lemma SaveKeepsInv(s: Server, uuid: string)
    requires Inv(s)
    ensures Inv(SaveRemote(s, uuid))
  {
    hide SaveRemote, MemberInv, NamesOk, OnlyNames;
    SaveRemoteOnly(s, uuid);
    OnlyNamesKeeps(s, SaveRemote(s, uuid));
    SaveRemoteKeeps(s, uuid);
  }

  lemma ArbitratedNick(
    s: Server, uuid: string, nick: string, ts: nat, ident: string, ip: string, peer: string, service: bool, now: nat)
    ensures Arbitrated(s, uuid, nick, ts, ident, ip, peer, service, now).1 in {nick, uuid}
  {
    hide Fold, ResolveLocal, ResolveRemote;
  }

  lemma NickLineNick(s: Server, via: Uid, uuid: string, newnick: string, ts: nat, now: nat)
    requires uuid in s.remoteUsers
    ensures var t, was := NickRecv(s, via, uuid, newnick, ts, now), s.remoteUsers[uuid].nick;
      && uuid in t.remoteUsers
      && t.remoteUsers[uuid].nick in {was, if SourcedVia(s, uuid, via) then newnick else was}
  {
    hide Fold, CollisionDecision, UuidIsService, ServerIsService, SetNick;
    if SourcedVia(s, uuid, via) {
      var r := s.remoteUsers[uuid];
      var s1 := match FindNick(s, newnick)
                case Some(l) => ResolveLocal(s, l, ts, r.ident, r.ip, UuidIsService(s, uuid), now).0
                case None => s;
      assert s1.remoteUsers == s.remoteUsers by {
        if Fold(newnick) in s.nickIndex {
          ResolveLocalRemotes(s, s.nickIndex[Fold(newnick)], ts, r.ident, r.ip, UuidIsService(s, uuid), now);
        }
      }
      hide ResolveLocal;
      if Fold(newnick) in s1.remoteNick && s1.remoteNick[Fold(newnick)] != uuid {
        ResolveRemoteOthers(s1, s1.remoteNick[Fold(newnick)], ts, r.ident, r.ip, r.sid, uuid);
      }
    }
  }

  lemma ResolveLocalRemotes(s: Server, luid: Uid, ts: nat, ident: string, ip: string, service: bool, now: nat)
    ensures ResolveLocal(s, luid, ts, ident, ip, service, now).0.remoteUsers == s.remoteUsers
  {
    hide Fold, CollisionDecision;
  }

  lemma ResolveRemoteOthers(
    s: Server, holder: string, ts: nat, ident: string, ip: string, peer: string, uuid: string)
    requires uuid in s.remoteUsers && uuid != holder
    ensures var t := ResolveRemote(s, holder, ts, ident, ip, peer).0;
      uuid in t.remoteUsers && t.remoteUsers[uuid] == s.remoteUsers[uuid]
  {
    hide Fold, CollisionDecision, ServerIsService, UuidIsService;
  }

  lemma SaveShows(s: Server, target: string, ts: nat, now: nat)
    requires Inv(s)
    ensures var t := SaveRecv(s, target, ts, now);
      && t.users.Keys == s.users.Keys
      && forall u :: u in t.users && t.users[u].uuid == target && s.users[u].nickTs == ts ==> t.users[u].nick == target
  {
    hide Fold, MemberInv, NickInv, SetNick;
    if target in s.uuidLocal && s.uuidLocal[target] in s.users {
      var luid := s.uuidLocal[target];
      SetNickShows(s, luid, s.users[luid].uuid, now);
    }
    forall u | u in s.users && s.users[u].uuid == target ensures Maps(s.uuidLocal, target, u) {}
  }

  lemma SetNickShows(s: Server, uid: Uid, newnick: string, now: nat)
    requires uid in s.users
    ensures var t := SetNick(s, uid, newnick, now);
      && t.users.Keys == s.users.Keys && t.users[uid].nick == newnick
      && forall u :: u in t.users ==> t.users[u].uuid == s.users[u].uuid
  {
    hide Fold;
    assert SetNick(s, uid, newnick, now).users.Keys == s.users.Keys;
  }

  lemma RemoteLeft(s: Server, key: string, uuid: string)
    ensures forall r, k :: IsRemoteMember(s.(channels := Reap(WithoutRemote(s.channels, key, uuid))), r, k) <==>
      IsRemoteMember(s, r, k) && !(r == uuid && k == key)
  {
    var c := WithoutRemote(s.channels, key, uuid);
    var t := s.(channels := Reap(c));
    forall r, k ensures IsRemoteMember(t, r, k) <==> IsRemoteMember(s, r, k) && !(r == uuid && k == key) {
      assert IsRemoteMember(t, r, k) <==> k in c && r in c[k].rmembers;
    }
  }

  // ----- one at a time is all at once -----

  lemma RekeyedNone(users: map<Uid, User>, oldkey: string, newkey: string)
    ensures Rekeyed(users, {}, oldkey, newkey) == users
  {
  }

  lemma RekeyedOne(users: map<Uid, User>, done: set<Uid>, u: Uid, oldkey: string, newkey: string)
    requires u !in done
    ensures var r := Rekeyed(users, done, oldkey, newkey);
      Rekeyed(users, done + {u}, oldkey, newkey) ==
        if u in r then r[u := r[u].(channels := r[u].channels - {oldkey} + {newkey})] else r
  {
  }

  lemma DropFromNone(channels: map<string, Channel>, uid: Uid)
    ensures DropFrom(channels, {}, uid) == channels
  {
  }

  lemma DropFromOne(channels: map<string, Channel>, done: set<string>, k: string, uid: Uid)
    requires k !in done
    ensures var d := DropFrom(channels, done, uid);
      DropFrom(channels, done + {k}, uid) ==
        if k in d then d[k := d[k].(members := d[k].members - {uid})] else d
  {
  }

  lemma OnlyWhereHeld(channels: map<string, Channel>, uuid: string)
    ensures WithoutRemotes(channels, {uuid}) == map k | k in channels ::
        if uuid in channels[k].rmembers then channels[k].(rmembers := channels[k].rmembers - {uuid}) else channels[k]
  {
    forall k | k in channels && uuid !in channels[k].rmembers
      ensures channels[k].(rmembers := channels[k].rmembers - {uuid}) == channels[k]
    {
      assert channels[k].rmembers - {uuid} == channels[k].rmembers;
    }
  }

  /** The users in `gone` dropped at once. */
  function Dropped(s: Server, gone: set<string>): Server
    requires gone <= s.remoteUsers.Keys
  {
    s.(channels := if gone == {} then s.channels else Reap(WithoutRemotes(s.channels, gone)),
       remoteUsers := s.remoteUsers - gone,
       remoteNick := s.remoteNick - Nicks(s, gone))
  }

  function Nicks(s: Server, gone: set<string>): set<string>
    requires gone <= s.remoteUsers.Keys
  {
    set u | u in gone :: Fold(s.remoteUsers[u].nick)
  }

  lemma DroppedNone(s: Server)
    ensures Dropped(s, {}) == s
  {
    assert s.remoteUsers - {} == s.remoteUsers && s.remoteNick - {} == s.remoteNick;
    assert Nicks(s, {}) == {};
  }

  lemma ReapAgain(channels: map<string, Channel>, done: set<string>, u: string)
    ensures Reap(WithoutRemotes(Reap(WithoutRemotes(channels, done)), {u})) ==
      Reap(WithoutRemotes(channels, done + {u}))
  {
    forall k | k in channels ensures StripAgain(channels[k], done, u) { Stripped(channels[k], done, u); }
  }

  predicate StripAgain(ch: Channel, done: set<string>, u: string) {
    var once := ch.(rmembers := ch.rmembers - done);
    var twice := ch.(rmembers := ch.rmembers - (done + {u}));
    once.(rmembers := once.rmembers - {u}) == twice && (KeepAlive(twice) ==> KeepAlive(once))
  }

  lemma Stripped(ch: Channel, done: set<string>, u: string)
    ensures StripAgain(ch, done, u)
  {
    assert ch.rmembers - done - {u} == ch.rmembers - (done + {u});
  }

  /** Dropping one more user after the others is dropping them together. */
  lemma DroppedOne(s: Server, done: set<string>, u: string)
    requires done <= s.remoteUsers.Keys && u in s.remoteUsers && u !in done
    ensures DropRemote(Dropped(s, done), u) == Dropped(s, done + {u})
  {
    hide Fold, Reap;
    var t := Dropped(s, done);
    assert t.remoteUsers[u] == s.remoteUsers[u];
    assert s.remoteUsers - done - {u} == s.remoteUsers - (done + {u});
    assert Nicks(s, done + {u}) == Nicks(s, done) + {Fold(s.remoteUsers[u].nick)};
    assert s.remoteNick - Nicks(s, done) - {Fold(s.remoteUsers[u].nick)} == s.remoteNick - Nicks(s, done + {u});
    if done == {} {
      assert done + {u} == {u};
    } else {
      ReapAgain(s.channels, done, u);
    }
  }

  /** The link and the servers behind it gone. */
  function Unlinked(s: Server, link: Uid): Server {
    s.(links := s.links - {link}, servers := map i | i in s.servers && s.servers[i].via != link :: s.servers[i])
  }

  lemma SplitIsDropped(s: Server, link: Uid)
    ensures var t := Unlinked(s, link);
      Behind(t, link) <= t.remoteUsers.Keys && CloseLink(s, link) == Dropped(t, Behind(t, link))
  {
    hide Fold, Reap;
    var t := Unlinked(s, link);
    assert Behind(t, link) == Behind(s, link);
    assert Nicks(t, Behind(t, link)) == set u | u in Behind(s, link) :: Fold(s.remoteUsers[u].nick);
  }
}
