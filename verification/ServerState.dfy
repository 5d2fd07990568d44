/** The state of one server and what each event does to it (src/server.rs, src/channels.rs, src/link.rs). */
module ServerState {
  import opened Wrappers
  import opened Channels
  import opened ChannelMerge

  datatype User = User(
    uuid: string, nick: string, nickTs: nat, signon: nat, ident: string, ip: string, registered: bool,
    channels: set<string>)

  datatype RemoteUser = RemoteUser(nick: string, nickTs: nat, ident: string, ip: string, sid: string, via: Uid)

  datatype RemoteServer = RemoteServer(via: Uid, isService: bool)

  datatype Server = Server(
    sid: string,
    users: map<Uid, User>,
    nickIndex: map<string, Uid>,
    uuidLocal: map<string, Uid>,
    channels: map<string, Channel>,
    remoteUsers: map<string, RemoteUser>,
    remoteNick: map<string, string>,
    links: map<Uid, bool>,
    servers: map<string, RemoteServer>)

  // ----- local channel membership -----

  /** A local user enters a channel, created (with the creator opped) if absent. */
  function Join(s: Server, uid: Uid, name: string, maxlen: nat, admitted: bool, now: nat): Server {
    var key := Fold(name);
    if !ValidChan(name, maxlen) || uid !in s.users || key in s.users[uid].channels || !admitted then s
    else
      var isNew := key !in s.channels;
      var ch := if isNew then NewChannel(name, now) else s.channels[key];
      var u := s.users[uid];
      s.(channels := s.channels[key := ch.(members := ch.members[uid := Member(if isNew then {Op} else {}, [])])],
         users := s.users[uid := u.(channels := u.channels + {key})])
  }

  function WithoutLocal(channels: map<string, Channel>, key: string, uid: Uid): map<string, Channel> {
    if key in channels then channels[key := channels[key].(members := channels[key].members - {uid})] else channels
  }

  function WithoutRemote(channels: map<string, Channel>, key: string, uuid: string): map<string, Channel> {
    if key in channels then channels[key := channels[key].(rmembers := channels[key].rmembers - {uuid})] else channels
  }

  function LeaveUser(users: map<Uid, User>, uid: Uid, key: string): map<Uid, User> {
    if uid in users then users[uid := users[uid].(channels := users[uid].channels - {key})] else users
  }

  /** Drop a local membership in both directions and reap emptied channels. */
  function Leave(s: Server, uid: Uid, key: string): Server {
    s.(channels := Reap(WithoutLocal(s.channels, key, uid)), users := LeaveUser(s.users, uid, key))
  }

  function Part(s: Server, uid: Uid, target: string): Server {
    if uid in s.users && Fold(target) in s.users[uid].channels then Leave(s, uid, Fold(target)) else s
  }

  predicate IsMember(s: Server, uid: Uid, key: string) {
    key in s.channels && uid in s.channels[key].members
  }

  function ForcePart(s: Server, uid: Uid, chan: string): Server {
    if IsMember(s, uid, Fold(chan)) then Leave(s, uid, Fold(chan)) else s
  }

  predicate SameFolded(masks: seq<string>, mask: string) {
    exists k :: 0 <= k < |masks| && Fold(masks[k]) == Fold(mask)
  }

  /**
   * One mode of a channel member's MODE command takes effect; `allowed` stands for the checks of rank and parameters. A
   * mask is new, or there, whatever its case. Whether +z and +E may be set depends on clients that are not modelled.
   */
  predicate ModeApplies(s: Server, uid: Uid, chan: string, change: Change, allowed: bool) {
    && allowed && uid in s.users && IsMember(s, uid, Fold(chan))
    && match change
       case Rank(x, _, _) => x in s.uuidLocal && IsMember(s, s.uuidLocal[x], Fold(chan))
       case AddMask(list, mask) => !SameFolded(MasksIn(s.channels[Fold(chan)], list), mask)
       case DropMask(list, mask) => SameFolded(MasksIn(s.channels[Fold(chan)], list), mask)
       case Toggle(c, on) => on ==> c != 'z' && c != 'E'
       case _ => true
  }

  /** A user's removal takes out the mask in every case. */
  function WithoutFolded(masks: seq<string>, mask: string): (r: seq<string>)
    ensures forall m :: m in r <==> m in masks && Fold(m) != Fold(mask)
  {
    if masks == [] then []
    else
      assert masks == [masks[0]] + masks[1..];
      (if Fold(masks[0]) == Fold(mask) then [] else [masks[0]]) + WithoutFolded(masks[1..], mask)
  }

  /** The change here; the member it may rank is one of ours. */
  function ChangedHere(s: Server, ch: Channel, change: Change): Channel {
    match change
    case Rank(x, c, on) =>
      if x !in s.uuidLocal || s.uuidLocal[x] !in ch.members then ch
      else ch.(members := ch.members[s.uuidLocal[x] := Ranked(ch.members[s.uuidLocal[x]], c, on)])
    case DropMask(Bans, m) => ch.(bans := WithoutFolded(ch.bans, m))
    case DropMask(Excepts, m) => ch.(excepts := WithoutFolded(ch.excepts, m))
    case DropMask(Invex, m) => ch.(invex := WithoutFolded(ch.invex, m))
    case _ => Changed(ch, change)
  }

  function ChangeMode(s: Server, uid: Uid, chan: string, change: Change, allowed: bool): Server {
    var key := Fold(chan);
    if ModeApplies(s, uid, chan, change, allowed)
    then s.(channels := s.channels[key := ChangedHere(s, s.channels[key], change)])
    else s
  }

  function FloodKick(s: Server, uid: Uid, key: string): Server {
    if uid in s.users then Leave(s, uid, key) else s
  }

  /** Re-key a channel; every local member's set moves with it. */
  function Rename(s: Server, oldkey: string, newname: string): Server {
    var newkey := Fold(newname);
    if oldkey !in s.channels || (newkey != oldkey && newkey in s.channels) then s
    else
      var ch := s.channels[oldkey].(name := newname);
      if newkey == oldkey then s.(channels := s.channels[oldkey := ch])
      else
        s.(channels := (s.channels - {oldkey})[newkey := ch],
           users := Rekeyed(s.users, ch.members.Keys, oldkey, newkey))
  }

  function Rekeyed(users: map<Uid, User>, members: set<Uid>, oldkey: string, newkey: string): map<Uid, User> {
    map u | u in users ::
      if u in members then users[u].(channels := users[u].channels - {oldkey} + {newkey}) else users[u]
  }

  /** A local user is gone: out of the tables, and (once registered) out of every channel. */
  function RemoveUser(s: Server, uid: Uid): Server {
    if uid !in s.users then s
    else
      var u := s.users[uid];
      s.(users := s.users - {uid},
         uuidLocal := s.uuidLocal - {u.uuid},
         nickIndex := if u.nick == "" then s.nickIndex else s.nickIndex - {Fold(u.nick)},
         channels := if u.registered then Reap(DropFrom(s.channels, u.channels, uid)) else s.channels)
  }

  function DropFrom(channels: map<string, Channel>, keys: set<string>, uid: Uid): map<string, Channel> {
    map k | k in channels ::
      if k in keys then channels[k].(members := channels[k].members - {uid}) else channels[k]
  }

  /** A fresh connection: no nick yet, not registered. */
  function Connect(s: Server, uid: Uid, uuid: string, ip: string, now: nat): Server {
    s.(users := s.users[uid := User(uuid, "", now, now, "", ip, false, {})], uuidLocal := s.uuidLocal[uuid := uid])
  }

  function Register(s: Server, uid: Uid, ident: string): Server {
    if uid in s.users then s.(users := s.users[uid := s.users[uid].(registered := true, ident := ident)]) else s
  }

  /** `set_nick`: the index follows, and the nick's timestamp is renewed. */
  function SetNick(s: Server, uid: Uid, newnick: string, now: nat): Server {
    if uid !in s.users then s
    else
      var u := s.users[uid];
      var index := if u.nick == "" then s.nickIndex else s.nickIndex - {Fold(u.nick)};
      s.(nickIndex := index[Fold(newnick) := uid], users := s.users[uid := u.(nick := newnick, nickTs := now)])
  }

  function FindNick(s: Server, nick: string): Option<Uid> {
    if Fold(nick) in s.nickIndex then Some(s.nickIndex[Fold(nick)]) else None
  }

  // ----- links -----

  predicate ValidSid(sid: string) {
    && |sid| == 3 && '0' <= sid[0] <= '9'
    && forall i :: 0 <= i < 3 ==> 'A' <= sid[i] <= 'Z' || '0' <= sid[i] <= '9'
  }

  /** A SERVER line: register the peer, or reject it and drop the link. */
  function LinkServer(s: Server, link: Uid, sid: string, accepted: bool, isService: bool): Server {
    if !accepted || !ValidSid(sid) || sid == s.sid || sid in s.servers then CloseLink(s, link)
    else
      s.(links := if link in s.links then s.links[link := true] else s.links,
         servers := s.servers[sid := RemoteServer(link, isService)])
  }

  function OpenLink(s: Server, link: Uid): Server {
    s.(links := s.links[link := false])
  }

  /** Remove a remote user from every channel and from both registries. */
  function DropRemote(s: Server, uuid: string): Server {
    if uuid !in s.remoteUsers then s
    else
      s.(channels := Reap(WithoutRemotes(s.channels, {uuid})),
         remoteUsers := s.remoteUsers - {uuid},
         remoteNick := s.remoteNick - {Fold(s.remoteUsers[uuid].nick)})
  }

  function WithoutRemotes(channels: map<string, Channel>, gone: set<string>): map<string, Channel> {
    map k | k in channels :: channels[k].(rmembers := channels[k].rmembers - gone)
  }

  function Behind(s: Server, link: Uid): set<string> {
    set u | u in s.remoteUsers && s.remoteUsers[u].via == link
  }

  /** A netsplit: the link, the servers and every user behind it are gone. */
  function CloseLink(s: Server, link: Uid): Server {
    var gone := Behind(s, link);
    s.(links := s.links - {link},
       servers := map i | i in s.servers && s.servers[i].via != link :: s.servers[i],
       channels := if gone == {} then s.channels else Reap(WithoutRemotes(s.channels, gone)),
       remoteUsers := s.remoteUsers - gone,
       remoteNick := s.remoteNick - (set u | u in gone :: Fold(s.remoteUsers[u].nick)))
  }

  predicate SourcedVia(s: Server, uuid: string, via: Uid) {
    uuid in s.remoteUsers && s.remoteUsers[uuid].via == via
  }

  predicate SourceBehind(s: Server, src: string, via: Uid) {
    if src in s.remoteUsers then s.remoteUsers[src].via == via
    else src in s.servers && s.servers[src].via == via
  }

  predicate ServerIsService(s: Server, sid: string) {
    sid in s.servers && s.servers[sid].isService
  }

  predicate UuidIsService(s: Server, uuid: string) {
    uuid in s.remoteUsers && ServerIsService(s, s.remoteUsers[uuid].sid)
  }

  function QuitRecv(s: Server, via: Uid, uuid: string): Server {
    if SourcedVia(s, uuid, via) then DropRemote(s, uuid) else s
  }

  // ----- nick collisions -----

  /** (holder changes, newcomer changes): same person - the older yields; else the newer; equal - both. */
  function CollisionDecision(localTs: nat, remoteTs: nat, same: bool): (bool, bool) {
    if remoteTs == localTs then (true, true)
    else if (same && remoteTs < localTs) || (!same && remoteTs > localTs) then (false, true)
    else (true, false)
  }

  /** Newcomer against a local holder; returns whether the newcomer must take its uuid. */
  function ResolveLocal(s: Server, luid: Uid, ts: nat, ident: string, ip: string, service: bool, now: nat)
    : (Server, bool)
  {
    if luid !in s.users then (s, true)
    else
      var u := s.users[luid];
      var (local, remote) :=
        if service then (true, false) else CollisionDecision(u.nickTs, ts, u.ident == ident && u.ip == ip);
      (if local then SetNick(s, luid, u.uuid, now) else s, remote)
  }

  /** A remote user lost: our copy goes under its uuid. */
  function SaveRemote(s: Server, uuid: string): Server {
    if uuid !in s.remoteUsers then s
    else
      var r := s.remoteUsers[uuid];
      var s' := s.(remoteUsers := s.remoteUsers[uuid := r.(nick := uuid)]);
      if Fold(r.nick) == Fold(uuid) then s'
      else s'.(remoteNick := (s.remoteNick - {Fold(r.nick)})[Fold(uuid) := uuid])
  }

  /** Newcomer against a remote holder; services keep their nick. */
  function ResolveRemote(s: Server, holder: string, ts: nat, ident: string, ip: string, sid: string): (Server, bool) {
    if holder !in s.remoteUsers then (s, false)
    else
      var h := s.remoteUsers[holder];
      var (existing, incoming) :=
        if ServerIsService(s, sid) then (true, false)
        else if UuidIsService(s, holder) then (false, true)
        else CollisionDecision(h.nickTs, ts, h.ident == ident && h.ip == ip);
      (if existing then SaveRemote(s, holder) else s, incoming)
  }

  /** Collisions of a wanted nick with a local holder, then with a remote one: state and final nick. */
  function Arbitrated(
    s: Server, uuid: string, nick: string, ts: nat, ident: string, ip: string, sid: string, service: bool, now: nat)
    : (Server, string)
  {
    var (s1, lost1) := match FindNick(s, nick)
                       case Some(l) => ResolveLocal(s, l, ts, ident, ip, service, now)
                       case None => (s, false);
    var nick1 := if lost1 then uuid else nick;
    if Fold(nick1) in s1.remoteNick && s1.remoteNick[Fold(nick1)] != uuid then
      var (s2, lost2) := ResolveRemote(s1, s1.remoteNick[Fold(nick1)], ts, ident, ip, sid);
      (s2, if lost2 then uuid else nick1)
    else (s1, nick1)
  }

  /** UID: a peer introduces a user of server `sid`. */
  function UidRecv(
    s: Server, via: Uid, sid: string, uuid: string, ts: nat, nick: string, ident: string, ip: string, now: nat)
    : Server
  {
    if !SourceBehind(s, sid, via) || |sid| != 3 || |uuid| != 9 || !(sid <= uuid) || uuid in s.remoteUsers then s
    else
      var (s', final) := Arbitrated(s, uuid, nick, ts, ident, ip, sid, ServerIsService(s, sid), now);
      s'.(remoteNick := s'.remoteNick[Fold(final) := uuid],
          remoteUsers := s'.remoteUsers[uuid := RemoteUser(final, ts, ident, ip, sid, via)])
  }

  /** A remote user's new nick, in both registries. */
  function Renamed(s: Server, uuid: string, nick: string, ts: nat): Server
    requires uuid in s.remoteUsers
  {
    var was := s.remoteUsers[uuid];
    s.(remoteUsers := s.remoteUsers[uuid := was.(nick := nick, nickTs := ts)],
       remoteNick := (s.remoteNick - {Fold(was.nick)})[Fold(nick) := uuid])
  }

  /** NICK: a remote user changes nick; on a lost collision it keeps the old one until saved. */
  function NickRecv(s: Server, via: Uid, uuid: string, newnick: string, ts: nat, now: nat): Server {
    if !SourcedVia(s, uuid, via) then s
    else
      var r := s.remoteUsers[uuid];
      var (s1, lost1) := match FindNick(s, newnick)
                         case Some(l) => ResolveLocal(s, l, ts, r.ident, r.ip, UuidIsService(s, uuid), now)
                         case None => (s, false);
      if lost1 then s1
      else
        var (s2, lost2) :=
          if Fold(newnick) in s1.remoteNick && s1.remoteNick[Fold(newnick)] != uuid
          then ResolveRemote(s1, s1.remoteNick[Fold(newnick)], ts, r.ident, r.ip, r.sid)
          else (s1, false);
        if lost2 || uuid !in s2.remoteUsers then s2 else Renamed(s2, uuid, newnick, ts)
  }

  /** SAVE: our user lost a collision elsewhere, if its nick is still the one that lost. */
  function SaveRecv(s: Server, target: string, ts: nat, now: nat): Server {
    if target in s.uuidLocal && s.uuidLocal[target] in s.users && s.users[s.uuidLocal[target]].nickTs == ts
    then SetNick(s, s.uuidLocal[target], s.users[s.uuidLocal[target]].uuid, now)
    else s
  }

  // ----- remote channel membership -----

  /** The users an FJOIN may enter: known remote users that are not our own. */
  function Enterable(s: Server): set<string> {
    s.remoteUsers.Keys - s.uuidLocal.Keys
  }

  function FjoinRecvAt(s: Server, chan: string, b: Burst, now: nat): Server {
    var key := Fold(chan);
    var held := if key in s.channels then Some(s.channels[key]) else None;
    s.(channels := s.channels[key := FjoinRecv(held, chan, now, b, Enterable(s))])
  }

  predicate StatusToken(letters: string) {
    letters != "" && forall i :: 0 <= i < |letters| ==> 'a' <= letters[i] <= 'z' || 'A' <= letters[i] <= 'Z'
  }

  /** IJOIN: one remote member, in a channel created at the given time if unknown. */
  function IjoinRecv(s: Server, via: Uid, uuid: string, chan: string, ts: nat, letters: string): Server {
    if chan == "" || chan[0] != '#' || !SourcedVia(s, uuid, via) then s
    else
      var key := Fold(chan);
      var ch := if key in s.channels then s.channels[key] else NewChannel(chan, ts);
      var m := if StatusToken(letters) then GrantLetters(PlainMember, letters) else PlainMember;
      s.(channels := s.channels[key := ch.(rmembers := ch.rmembers[uuid := m])])
  }

  function PartRecv(s: Server, via: Uid, uuid: string, chan: string): Server {
    var key := Fold(chan);
    if SourcedVia(s, uuid, via) && key in s.channels && uuid in s.channels[key].rmembers
    then s.(channels := Reap(WithoutRemote(s.channels, key, uuid)))
    else s
  }

  /** KICK from a peer: the victim is named by uuid or nick, local users first. */
  function KickRecv(s: Server, via: Uid, src: string, chan: string, victim: string): Server {
    var key := Fold(chan);
    if !SourceBehind(s, src, via) then s
    else
      var local := if victim in s.uuidLocal then Some(s.uuidLocal[victim]) else FindNick(s, victim);
      if local.Some? then
        if IsMember(s, local.value, key) then Leave(s, local.value, key) else s
      else
        var uuid := if victim in s.remoteUsers then Some(victim)
                    else if Fold(victim) in s.remoteNick && s.remoteNick[Fold(victim)] in s.remoteUsers
                    then Some(s.remoteNick[Fold(victim)]) else None;
        if uuid.Some? && key in s.channels && uuid.value in s.channels[key].rmembers
        then s.(channels := Reap(WithoutRemote(s.channels, key, uuid.value)))
        else s
  }
}
