/** What each event leaves behind, said of the tables themselves rather than of the functions that change them. */
module ServerEffects {
  import opened Wrappers
  import opened Channels
  import opened ChannelMerge
  import opened ServerState
  import opened MembershipInvariant
  import opened NickInvariant

  // ----- who is on a channel, and what is left of it when they go -----

  predicate On(s: Server, u: Uid, k: string) {
    k in s.channels && u in s.channels[k].members
  }

  predicate Shown(s: Server, x: string, k: string) {
    k in s.channels && x in s.channels[k].rmembers
  }

  /** Everything about a channel but who is on it. */
  predicate SameBut(c: Channel, d: Channel) {
    d == c.(members := d.members, rmembers := d.rmembers)
  }

  /** Those who stay on a channel keep their rank. */
  predicate RanksStay(c: Channel, d: Channel) {
    && (forall u :: u in d.members ==> u in c.members && d.members[u] == c.members[u])
    && (forall x :: x in d.rmembers ==> x in c.rmembers && d.rmembers[x] == c.rmembers[x])
  }

  /** Somebody of ours whom `p`, or of another server whom `q` does not take away is on the channel. */
  ghost predicate Left(s: Server, k: string, p: (Uid, string) -> bool, q: (string, string) -> bool) {
    (exists u :: On(s, u, k) && !p(u, k)) || (exists x :: Shown(s, x, k) && !q(x, k))
  }

  /**
   * Exactly the memberships `p` and `q` name are gone. A channel survives iff somebody is left on it or it is +P or +r,
   * and is otherwise as it was.
   */
  ghost predicate Departed(s: Server, t: Server, p: (Uid, string) -> bool, q: (string, string) -> bool) {
    && (forall u, k :: On(t, u, k) <==> On(s, u, k) && !p(u, k))
    && (forall x, k :: Shown(t, x, k) <==> Shown(s, x, k) && !q(x, k))
    && (forall k :: k in t.channels <==>
          k in s.channels && (Left(s, k, p, q) || 'P' in s.channels[k].modes.flags || 'r' in s.channels[k].modes.flags))
    && (forall k :: k in t.channels ==>
          k in s.channels && SameBut(s.channels[k], t.channels[k]) && RanksStay(s.channels[k], t.channels[k]))
  }

  /** The channels with those memberships taken out, before empty ones are reaped. */
  ghost predicate Stripped(
    s: Server, c: map<string, Channel>, p: (Uid, string) -> bool, q: (string, string) -> bool)
  {
    && c.Keys == s.channels.Keys
    && forall k :: k in s.channels ==>
         && SameBut(s.channels[k], c[k]) && RanksStay(s.channels[k], c[k])
         && (forall u :: u in c[k].members <==> u in s.channels[k].members && !p(u, k))
         && (forall x :: x in c[k].rmembers <==> x in s.channels[k].rmembers && !q(x, k))
  }

  lemma ReapedDeparted(
    s: Server, c: map<string, Channel>, t: Server, p: (Uid, string) -> bool, q: (string, string) -> bool)
    requires Stripped(s, c, p, q) && t.channels == Reap(c)
    ensures Departed(s, t, p, q)
  {
    forall k ensures k in c <==> k in s.channels { assert k in c.Keys <==> k in s.channels.Keys; }
    forall k | k in s.channels ensures (c[k].members != map[] || c[k].rmembers != map[]) <==> Left(s, k, p, q) {
      PeopleLeft(s, c[k], k, p, q);
    }
  }

  lemma PeopleLeft(s: Server, c: Channel, k: string, p: (Uid, string) -> bool, q: (string, string) -> bool)
    requires k in s.channels
    requires forall u :: u in c.members <==> u in s.channels[k].members && !p(u, k)
    requires forall x :: x in c.rmembers <==> x in s.channels[k].rmembers && !q(x, k)
    ensures (c.members != map[] || c.rmembers != map[]) <==> Left(s, k, p, q)
  {
    if c.members != map[] {
      var u :| u in c.members;
      assert On(s, u, k) && !p(u, k);
    }
    if c.rmembers != map[] {
      var x :| x in c.rmembers;
      assert Shown(s, x, k) && !q(x, k);
    }
  }

  // ----- joining -----

  /** A name the server accepts: `#`, something after it, not too long, no space, comma or control character. */
  predicate Acceptable(name: string, maxlen: nat) {
    && 2 <= |name| <= maxlen && name[..1] == "#"
    && forall c :: c in name ==> c !in " ," && c as int > 31
  }

  lemma AcceptableNames(name: string, maxlen: nat)
    ensures ValidChan(name, maxlen) <==> Acceptable(name, maxlen)
  {
    assert |name| > 0 ==> name[..1] == [name[0]];
    if ValidChan(name, maxlen) {
      forall c | c in name ensures c !in " ," && c as int > 31 {
        var i :| 0 <= i < |name| && name[i] == c;
      }
    }
    if Acceptable(name, maxlen) {
      forall i | 0 <= i < |name| ensures name[i] != ' ' && name[i] != ',' && name[i] as int >= 0x20 {
        assert name[i] in name && " ,"[0] == ' ' && " ,"[1] == ',';
      }
    }
  }

  /** The channel a user has just created: opped, +nt, and nothing else set. */
  predicate Founded(ch: Channel, uid: Uid, name: string, now: nat) {
    && ch.name == name && ch.created == now && ch.members == map[uid := Member({Op}, [])] && ch.rmembers == map[]
    && ch.modes == Modes({'n', 't'}, None, None, {}) && ch.bans == [] && ch.excepts == [] && ch.invex == []
  }

  /** A known user, admitted under a good name and not yet on it, enters: as founder, or plain; else nothing happens. */
  ghost predicate AfterJoin(s: Server, t: Server, uid: Uid, name: string, maxlen: nat, admitted: bool, now: nat) {
    var key := Fold(name);
    if admitted && uid in s.users && key !in s.users[uid].channels && Acceptable(name, maxlen) then
      && t == s.(channels := t.channels, users := t.users)
      && t.users == s.users[uid := s.users[uid].(channels := s.users[uid].channels + {key})]
      && key in t.channels && t.channels == s.channels[key := t.channels[key]]
      && if key in s.channels
         then t.channels[key] == s.channels[key].(members := s.channels[key].members[uid := Member({}, [])])
         else Founded(t.channels[key], uid, name, now)
    else t == s
  }

  lemma JoinEffect(s: Server, uid: Uid, name: string, maxlen: nat, admitted: bool, now: nat)
    ensures AfterJoin(s, Join(s, uid, name, maxlen, admitted, now), uid, name, maxlen, admitted, now)
  {
    hide Fold, ValidChan, Acceptable;
    AcceptableNames(name, maxlen);
  }

  // ----- leaving -----

  /** One membership gone, in the channel and in the user's own set. */
  ghost predicate AfterLeave(s: Server, t: Server, uid: Uid, key: string) {
    && t == s.(channels := t.channels, users := t.users)
    && Departed(s, t, (u, k) => u == uid && k == key, (x, k) => false)
    && t.users.Keys == s.users.Keys
    && forall u :: u in s.users ==>
         t.users[u] == s.users[u].(channels := s.users[u].channels - if u == uid then {key} else {})
  }

  lemma LeaveEffect(s: Server, uid: Uid, key: string)
    ensures AfterLeave(s, Leave(s, uid, key), uid, key)
  {
    hide Reap, Departed, Stripped, WithoutLocal;
    var t := Leave(s, uid, key);
    LocalStripped(s, uid, key);
    ReapedDeparted(s, WithoutLocal(s.channels, key, uid), t, (u, k) => u == uid && k == key, (x, k) => false);
    forall u | u in s.users ensures s.users[u].(channels := s.users[u].channels - {}) == s.users[u] {
      assert s.users[u].channels - {} == s.users[u].channels;
    }
  }

  lemma LocalStripped(s: Server, uid: Uid, key: string)
    ensures Stripped(s, WithoutLocal(s.channels, key, uid), (u, k) => u == uid && k == key, (x, k) => false)
  {
  }

  /** PART, a forced part and a flood kick: the user leaves if it is on the channel (or merely known, for the last). */
  lemma PartEffects(s: Server, uid: Uid, chan: string, key: string)
    ensures if uid in s.users && Fold(chan) in s.users[uid].channels
            then AfterLeave(s, Part(s, uid, chan), uid, Fold(chan)) else Part(s, uid, chan) == s
    ensures if On(s, uid, Fold(chan)) then AfterLeave(s, ForcePart(s, uid, chan), uid, Fold(chan))
            else ForcePart(s, uid, chan) == s
    ensures if uid in s.users then AfterLeave(s, FloodKick(s, uid, key), uid, key) else FloodKick(s, uid, key) == s
  {
    hide Fold, Leave, AfterLeave;
    LeaveEffect(s, uid, Fold(chan));
    LeaveEffect(s, uid, key);
  }

  /** A quit: the user, its uuid and its nick are gone, and so is every membership of its. */
  ghost predicate AfterQuit(s: Server, t: Server, uid: Uid) {
    if uid !in s.users then t == s
    else
      var u := s.users[uid];
      && t == s.(users := t.users, uuidLocal := t.uuidLocal, nickIndex := t.nickIndex, channels := t.channels)
      && t.users == s.users - {uid} && t.uuidLocal == s.uuidLocal - {u.uuid}
      && t.nickIndex == (if u.nick == "" then s.nickIndex else s.nickIndex - {Fold(u.nick)})
      && (forall v, k :: On(t, v, k) <==> On(s, v, k) && v != uid)
      && (forall x, k :: Shown(t, x, k) <==> Shown(s, x, k))
      && if u.registered then Departed(s, t, (v, k) => v == uid, (x, k) => false) else t.channels == s.channels
  }

  lemma QuitEffect(s: Server, uid: Uid)
    requires MemberInv(s)
    ensures AfterQuit(s, RemoveUser(s, uid), uid)
  {
    hide Reap, Fold, Departed, MemberInv, On, Shown, DropFrom;
    if uid in s.users {
      QuitMembers(s, uid);
    }
  }

  lemma QuitMembers(s: Server, uid: Uid)
    requires MemberInv(s) && uid in s.users
    ensures var t := RemoveUser(s, uid);
      && (forall v, k :: On(t, v, k) <==> On(s, v, k) && v != uid)
      && (forall x, k :: Shown(t, x, k) <==> Shown(s, x, k))
      && (s.users[uid].registered ==> Departed(s, t, (v, k) => v == uid, (x, k) => false))
  {
    hide Reap, Fold, Departed, RemotesKnown, LinksLive, Stripped;
    var t, u := RemoveUser(s, uid), s.users[uid];
    forall k ensures On(s, uid, k) <==> k in u.channels {
      assert Lists(s.users, uid, k) <==> Holds(s.channels, k, uid);
    }
    if u.registered {
      QuitStripped(s, uid, u.channels);
      ReapedDeparted(s, DropFrom(s.channels, u.channels, uid), t, (v, k) => v == uid, (x, k) => false);
      DepartedMeans(s, t, (v, k) => v == uid, (x, k) => false);
    } else {
      forall v, k ensures On(t, v, k) <==> On(s, v, k) && v != uid { assert v == uid ==> !On(s, v, k); }
    }
  }

  lemma QuitStripped(s: Server, uid: Uid, keys: set<string>)
    requires forall k :: On(s, uid, k) <==> k in s.channels && k in keys
    ensures Stripped(s, DropFrom(s.channels, keys, uid), (v, k) => v == uid, (x, k) => false)
  {
    forall k | k in s.channels && k !in keys ensures uid !in s.channels[k].members { assert !On(s, uid, k); }
  }

  lemma DepartedMeans(s: Server, t: Server, p: (Uid, string) -> bool, q: (string, string) -> bool)
    requires Departed(s, t, p, q)
    ensures forall u, k :: On(t, u, k) <==> On(s, u, k) && !p(u, k)
    ensures forall x, k :: Shown(t, x, k) <==> Shown(s, x, k) && !q(x, k)
  {
  }

  // ----- renaming a channel -----

  /** The channel with everybody on it is found under the new name only; a taken or unknown name changes nothing. */
  ghost predicate AfterRename(s: Server, t: Server, oldkey: string, newname: string) {
    var newkey := Fold(newname);
    if oldkey !in s.channels || (newkey in s.channels && newkey != oldkey) then t == s
    else
      && t == s.(channels := t.channels, users := t.users)
      && t.channels.Keys == s.channels.Keys - {oldkey} + {newkey}
      && t.channels[newkey] == s.channels[oldkey].(name := newname)
      && (forall k :: k in s.channels && k != oldkey ==> t.channels[k] == s.channels[k])
      && t.users.Keys == s.users.Keys
      && forall u :: u in s.users ==>
           t.users[u] == if On(s, u, oldkey) && newkey != oldkey
                         then s.users[u].(channels := s.users[u].channels - {oldkey} + {newkey}) else s.users[u]
  }

  lemma RenameEffect(s: Server, oldkey: string, newname: string)
    ensures AfterRename(s, Rename(s, oldkey, newname), oldkey, newname)
  {
    hide Fold, Rekeyed;
    var t, newkey := Rename(s, oldkey, newname), Fold(newname);
    if oldkey in s.channels && newkey !in s.channels {
      var ch := s.channels[oldkey];
      assert t.channels == (s.channels - {oldkey})[newkey := ch.(name := newname)];
      SetsFollow(s, ch.members.Keys, oldkey, newkey);
    }
  }

  lemma SetsFollow(s: Server, members: set<Uid>, oldkey: string, newkey: string)
    ensures var users := Rekeyed(s.users, members, oldkey, newkey);
      users.Keys == s.users.Keys && forall u :: u in s.users ==>
        users[u] == if u in members then s.users[u].(channels := s.users[u].channels - {oldkey} + {newkey})
                    else s.users[u]
  {
  }

  // ----- connections and nicks -----

  /** A connection starts without nick, unregistered and on no channel; welcoming it changes only ident and that. */
  lemma ConnectEffect(s: Server, uid: Uid, uuid: string, ip: string, now: nat, ident: string)
    ensures var t := Connect(s, uid, uuid, ip, now);
      && t == s.(users := t.users, uuidLocal := s.uuidLocal[uuid := uid]) && uid in t.users
      && t.users == s.users[uid := t.users[uid]]
      && var u := t.users[uid];
         && u.uuid == uuid && u.nick == "" && u.ident == "" && u.ip == ip && u.channels == {} && !u.registered
         && u.nickTs == now && u.signon == now
    ensures var t := Register(s, uid, ident);
      && (uid !in s.users ==> t == s)
      && (uid in s.users ==>
            t == s.(users := s.users[uid := s.users[uid].(registered := true, ident := ident)]) &&
            t.users[uid].registered && t.users[uid].ident == ident)
  {
  }

  /** The nick index then finds the user under the new nick, under the old one no more, and others as before. */
  ghost predicate AfterNick(s: Server, t: Server, uid: Uid, nick: string, now: nat) {
    if uid !in s.users then t == s
    else
      && t == s.(nickIndex := t.nickIndex, users := s.users[uid := s.users[uid].(nick := nick, nickTs := now)])
      && Maps(t.nickIndex, Fold(nick), uid)
      && forall f :: f != Fold(nick) ==>
           (f in t.nickIndex <==> f in s.nickIndex && !(s.users[uid].nick != "" && f == Fold(s.users[uid].nick))) &&
           (f in t.nickIndex ==> t.nickIndex[f] == s.nickIndex[f])
  }

  lemma NickEffect(s: Server, uid: Uid, nick: string, now: nat)
    ensures AfterNick(s, SetNick(s, uid, nick, now), uid, nick, now)
  {
    hide Fold;
  }

  // ----- links -----

  ghost predicate BehindLink(s: Server, x: string, link: Uid) {
    x in s.remoteUsers && s.remoteUsers[x].via == link
  }

  /** Users, servers and link are gone together; so are the users' nicks and memberships, and nothing else. */
  ghost predicate AfterClose(s: Server, t: Server, link: Uid) {
    && t == s.(links := s.links - {link}, servers := t.servers, channels := t.channels,
               remoteUsers := t.remoteUsers, remoteNick := t.remoteNick)
    && (forall i :: i in t.servers <==> i in s.servers && s.servers[i].via != link)
    && (forall i :: i in t.servers ==> t.servers[i] == s.servers[i])
    && (forall x :: x in t.remoteUsers <==> x in s.remoteUsers && s.remoteUsers[x].via != link)
    && (forall x :: x in t.remoteUsers ==> t.remoteUsers[x] == s.remoteUsers[x])
    && (forall f :: f in t.remoteNick <==>
          f in s.remoteNick && forall x :: BehindLink(s, x, link) ==> Fold(s.remoteUsers[x].nick) != f)
    && (forall f :: f in t.remoteNick ==> t.remoteNick[f] == s.remoteNick[f])
    && if exists x :: BehindLink(s, x, link)
       then Departed(s, t, (u, k) => false, (x, k) => x in s.remoteUsers && s.remoteUsers[x].via == link)
       else t.channels == s.channels
  }

  lemma CloseEffect(s: Server, link: Uid)
    ensures AfterClose(s, CloseLink(s, link), link)
  {
    hide Reap, Fold, Departed, WithoutRemotes;
    var gone := Behind(s, link);
    forall x ensures x in gone <==> BehindLink(s, x, link) {}
    NicksGone(s, link);
    if gone != {} {
      var y :| y in gone;
      assert BehindLink(s, y, link);
      CloseDeparts(s, link);
    }
  }

  lemma CloseDeparts(s: Server, link: Uid)
    requires Behind(s, link) != {}
    ensures Departed(s, CloseLink(s, link), (u, k) => false,
                     (x, k) => x in s.remoteUsers && s.remoteUsers[x].via == link)
  {
    hide Reap, Fold, Departed;
    ReapedDeparted(s, WithoutRemotes(s.channels, Behind(s, link)), CloseLink(s, link), (u, k) => false,
                   (x, k) => x in s.remoteUsers && s.remoteUsers[x].via == link);
  }

  lemma NicksGone(s: Server, link: Uid)
    ensures var t := CloseLink(s, link);
      forall f :: f in t.remoteNick <==>
        f in s.remoteNick && forall x :: BehindLink(s, x, link) ==> Fold(s.remoteUsers[x].nick) != f
  {
    hide Reap, Fold, WithoutRemotes;
    var t, gone := CloseLink(s, link), Behind(s, link);
    forall f | f in s.remoteNick && f !in t.remoteNick
      ensures exists x :: BehindLink(s, x, link) && Fold(s.remoteUsers[x].nick) == f
    {
      var x :| x in gone && Fold(s.remoteUsers[x].nick) == f;
      assert BehindLink(s, x, link);
    }
    forall f, x | f in s.remoteNick && BehindLink(s, x, link) && Fold(s.remoteUsers[x].nick) == f
      ensures f !in t.remoteNick
    {
      assert x in gone;
    }
  }

  /** A SID: three characters, a digit first, then digits or capitals. */
  predicate GoodSid(sid: string) {
    |sid| == 3 && sid[0] in "0123456789" && forall c :: c in sid ==> c in "0123456789" || c in UPPER_CASE
  }

  lemma DigitOrCapital(c: char)
    ensures c in "0123456789" <==> '0' <= c <= '9'
    ensures c in UPPER_CASE <==> 'A' <= c <= 'Z'
  {
    forall k | 0 <= k < 10 ensures "0123456789"[k] as int == 48 + k {}
    forall k | 0 <= k < 26 ensures UPPER_CASE[k] as int == 65 + k {}
    if '0' <= c <= '9' { assert "0123456789"[c as int - 48] == c; }
    if 'A' <= c <= 'Z' { assert UPPER_CASE[c as int - 65] == c; }
  }

  lemma GoodSids(sid: string)
    ensures ValidSid(sid) <==> GoodSid(sid)
  {
    forall c ensures (c in "0123456789" <==> '0' <= c <= '9') && (c in UPPER_CASE <==> 'A' <= c <= 'Z') {
      DigitOrCapital(c);
    }
    if GoodSid(sid) {
      forall i | 0 <= i < 3 ensures 'A' <= sid[i] <= 'Z' || '0' <= sid[i] <= '9' { assert sid[i] in sid; }
    }
  }

  /** A good SERVER line marks the link up and files the peer behind it; any other closes the link. */
  lemma ServerEffect(s: Server, link: Uid, sid: string, accepted: bool, isService: bool)
    ensures var t := LinkServer(s, link, sid, accepted, isService);
      if accepted && GoodSid(sid) && sid != s.sid && sid !in s.servers then
        && t == s.(links := t.links, servers := s.servers[sid := RemoteServer(link, isService)])
        && t.links == if link in s.links then s.links[link := true] else s.links
      else AfterClose(s, t, link)
    ensures OpenLink(s, link) == s.(links := s.links[link := false])
  {
    hide CloseLink, AfterClose, ValidSid, GoodSid;
    GoodSids(sid);
    CloseEffect(s, link);
  }

  // ----- remote users leaving -----

  /** A remote quit over the user's own link; from anywhere else nothing. */
  ghost predicate AfterRemoteQuit(s: Server, t: Server, via: Uid, uuid: string) {
    if !BehindLink(s, uuid, via) then t == s
    else
      && t == s.(channels := t.channels, remoteUsers := s.remoteUsers - {uuid},
                 remoteNick := s.remoteNick - {Fold(s.remoteUsers[uuid].nick)})
      && Departed(s, t, (u, k) => false, (x, k) => x == uuid)
  }

  lemma RemoteQuitEffect(s: Server, via: Uid, uuid: string)
    ensures AfterRemoteQuit(s, QuitRecv(s, via, uuid), via, uuid)
  {
    hide Reap, Fold, Departed, Stripped;
    if BehindLink(s, uuid, via) {
      RemoteStripped(s, uuid);
      ReapedDeparted(s, WithoutRemotes(s.channels, {uuid}), QuitRecv(s, via, uuid), (u, k) => false,
                     (x, k) => x == uuid);
    }
  }

  lemma RemoteStripped(s: Server, uuid: string)
    ensures Stripped(s, WithoutRemotes(s.channels, {uuid}), (u, k) => false, (x, k) => x == uuid)
  {
  }

  /** One remote membership gone. */
  ghost predicate AfterRemotePart(s: Server, t: Server, uuid: string, key: string) {
    t == s.(channels := t.channels) && Departed(s, t, (u, k) => false, (x, k) => x == uuid && k == key)
  }

  lemma RemotePartReaped(s: Server, uuid: string, key: string)
    ensures AfterRemotePart(s, s.(channels := Reap(WithoutRemote(s.channels, key, uuid))), uuid, key)
  {
    hide Reap, Departed;
    ReapedDeparted(s, WithoutRemote(s.channels, key, uuid),
                   s.(channels := Reap(WithoutRemote(s.channels, key, uuid))), (u, k) => false,
                   (x, k) => x == uuid && k == key);
  }

  lemma RemotePartEffect(s: Server, via: Uid, uuid: string, chan: string)
    ensures var t := PartRecv(s, via, uuid, chan);
      if BehindLink(s, uuid, via) && Shown(s, uuid, Fold(chan)) then AfterRemotePart(s, t, uuid, Fold(chan)) else t == s
  {
    hide Reap, Fold, AfterRemotePart, WithoutRemote;
    RemotePartReaped(s, uuid, Fold(chan));
  }

  // ----- kicks -----

  /** A server or user may speak over the link it is behind. */
  predicate Speaks(s: Server, src: string, via: Uid) {
    || (src in s.remoteUsers && s.remoteUsers[src].via == via)
    || (src !in s.remoteUsers && src in s.servers && s.servers[src].via == via)
  }

  /** The victim is our user `u`: by uuid, or failing that by nick. */
  predicate LocalVictim(s: Server, victim: string, u: Uid) {
    Maps(s.uuidLocal, victim, u) || (victim !in s.uuidLocal && Maps(s.nickIndex, Fold(victim), u))
  }

  /** No such user of ours, and the victim is the remote `x`: by uuid, or failing that by nick. */
  ghost predicate RemoteVictim(s: Server, victim: string, x: string) {
    && (forall u :: !LocalVictim(s, victim, u)) && x in s.remoteUsers
    && (x == victim || (victim !in s.remoteUsers && Maps(s.remoteNick, Fold(victim), x)))
  }

  /**
   * From behind its own link a source kicks its victim, ours before a remote one, off the channel and nobody off any
   * other; a source from elsewhere, or a victim not there, changes nothing.
   */
  ghost predicate AfterKick(s: Server, t: Server, via: Uid, src: string, chan: string, victim: string) {
    && (!Speaks(s, src, via) ==> t == s)
    && (Speaks(s, src, via) ==>
          && (forall u, k :: On(t, u, k) <==> On(s, u, k) && !(k == Fold(chan) && LocalVictim(s, victim, u)))
          && (forall x, k :: Shown(t, x, k) <==> Shown(s, x, k) && !(k == Fold(chan) && RemoteVictim(s, victim, x)))
          && (forall u :: LocalVictim(s, victim, u) && On(s, u, Fold(chan)) ==> AfterLeave(s, t, u, Fold(chan)))
          && (forall x :: RemoteVictim(s, victim, x) && Shown(s, x, Fold(chan)) ==>
                AfterRemotePart(s, t, x, Fold(chan)))
          && (Absent(s, victim, Fold(chan)) ==> t == s))
  }

  ghost predicate Absent(s: Server, victim: string, key: string) {
    && (forall u :: LocalVictim(s, victim, u) ==> !On(s, u, key))
    && (forall x :: RemoteVictim(s, victim, x) ==> !Shown(s, x, key))
  }

  lemma KickEffect(s: Server, via: Uid, src: string, chan: string, victim: string)
    ensures AfterKick(s, KickRecv(s, via, src, chan, victim), via, src, chan, victim)
  {
    hide Fold, Leave, Reap, AfterLeave, AfterRemotePart, WithoutRemote;
    if Speaks(s, src, via) {
      if victim in s.uuidLocal {
        KickLocal(s, via, src, chan, victim, s.uuidLocal[victim]);
      } else if Fold(victim) in s.nickIndex {
        KickLocal(s, via, src, chan, victim, s.nickIndex[Fold(victim)]);
      } else {
        KickRemote(s, via, src, chan, victim);
      }
    }
  }

  lemma KickLocal(s: Server, via: Uid, src: string, chan: string, victim: string, uid: Uid)
    requires Speaks(s, src, via) && LocalVictim(s, victim, uid)
    ensures AfterKick(s, KickRecv(s, via, src, chan, victim), via, src, chan, victim)
  {
    hide Fold, Leave, Reap, AfterLeave, AfterRemotePart, WithoutRemote;
    var key, t := Fold(chan), KickRecv(s, via, src, chan, victim);
    assert t == if On(s, uid, key) then Leave(s, uid, key) else s;
    if On(s, uid, key) {
      LeaveEffect(s, uid, key);
      LeftOnly(s, t, uid, key);
    }
  }

  lemma KickRemote(s: Server, via: Uid, src: string, chan: string, victim: string)
    requires Speaks(s, src, via) && victim !in s.uuidLocal && Fold(victim) !in s.nickIndex
    ensures AfterKick(s, KickRecv(s, via, src, chan, victim), via, src, chan, victim)
  {
    hide Fold, Leave, Reap, AfterLeave, AfterRemotePart, WithoutRemote;
    var key, t := Fold(chan), KickRecv(s, via, src, chan, victim);
    var x := if victim in s.remoteUsers then Some(victim)
             else if Fold(victim) in s.remoteNick && s.remoteNick[Fold(victim)] in s.remoteUsers
             then Some(s.remoteNick[Fold(victim)]) else None;
    if x.Some? && Shown(s, x.value, key) {
      RemotePartReaped(s, x.value, key);
      PartedOnly(s, t, x.value, key);
    }
  }

  lemma LeftOnly(s: Server, t: Server, uid: Uid, key: string)
    requires AfterLeave(s, t, uid, key)
    ensures forall u, k :: On(t, u, k) <==> On(s, u, k) && !(u == uid && k == key)
    ensures forall x, k :: Shown(t, x, k) <==> Shown(s, x, k)
  {
  }

  lemma PartedOnly(s: Server, t: Server, uuid: string, key: string)
    requires AfterRemotePart(s, t, uuid, key)
    ensures forall u, k :: On(t, u, k) <==> On(s, u, k)
    ensures forall x, k :: Shown(t, x, k) <==> Shown(s, x, k) && !(x == uuid && k == key)
  {
  }

  // ----- mode changes -----

  /** Exactly the prefix of this letter is switched, a built-in one or, if there is none, a configured one. */
  ghost predicate RankSet(m: Member, n: Member, letter: char, on: bool) {
    && (forall p: Prefix :: p in n.prefixes <==> if letter == LetterOf(p) then on else p in m.prefixes)
    && forall c :: c in n.customs <==>
         if c == letter && c in CUSTOM_LETTERS && (forall q: Prefix :: c != LetterOf(q)) then on else c in m.customs
  }

  lemma RankedSets(m: Member, letter: char, on: bool)
    ensures RankSet(m, Ranked(m, letter, on), letter, on)
  {
    hide Ranked, LetterOf;
    var n := Ranked(m, letter, on);
    forall p: Prefix ensures p in n.prefixes <==> if letter == LetterOf(p) then on else p in m.prefixes {
      RankedMeans(m, letter, on, p, letter);
    }
    forall c ensures c in n.customs <==>
      if c == letter && c in CUSTOM_LETTERS && (forall q: Prefix :: c != LetterOf(q)) then on else c in m.customs
    {
      RankedMeans(m, letter, on, Oper, c);
    }
  }

  /** Nothing but this mask list differs. */
  predicate OnlyList(c: Channel, d: Channel, list: MaskList) {
    match list
    case Bans => d == c.(bans := d.bans)
    case Excepts => d == c.(excepts := d.excepts)
    case Invex => d == c.(invex := d.invex)
  }

  ghost predicate Flagged(c: Modes, d: Modes, letter: char, on: bool) {
    && d == c.(flags := d.flags)
    && forall f :: f in d.flags <==> if f == letter && letter in FLAGS then on else f in c.flags
  }

  /** What one mode makes of a channel's settings and masks; `same` says which listed masks a removal means. */
  ghost predicate Became(c: Channel, d: Channel, change: Change, same: string -> bool) {
    match change
    case SetKey(k) => d == c.(modes := c.modes.(key := d.modes.key)) && d.modes.key == Some(k)
    case ClearKey => d == c.(modes := c.modes.(key := d.modes.key)) && d.modes.key == None
    case SetLimit(l) => d == c.(modes := c.modes.(limit := d.modes.limit)) && d.modes.limit == Some(l)
    case ClearLimit => d == c.(modes := c.modes.(limit := d.modes.limit)) && d.modes.limit == None
    case Toggle(f, on) => d == c.(modes := d.modes) && Flagged(c.modes, d.modes, f, on)
    case AddMask(l, m) =>
      OnlyList(c, d, l) && MasksIn(c, l) <= MasksIn(d, l) &&
      forall x :: x in MasksIn(d, l) <==> x in MasksIn(c, l) || x == m
    case DropMask(l, m) =>
      OnlyList(c, d, l) && forall x :: x in MasksIn(d, l) <==> x in MasksIn(c, l) && !same(x)
    case Rank(_, _, _) => true
  }

  lemma FlagSets(m: Modes, letter: char, on: bool)
    ensures Flagged(m, SetFlag(m, letter, on), letter, on)
  {
    hide SetFlag;
    forall f
      ensures f in SetFlag(m, letter, on).flags <==> if f == letter && letter in FLAGS then on else f in m.flags
    {
      SetFlagMeans(m, letter, on, f);
    }
    SetFlagMeans(m, letter, on, letter);
  }

  lemma ChangedSets(c: Channel, change: Change)
    ensures Became(c, Changed(c, change), change, x => change.DropMask? && x == change.mask)
  {
    hide SetFlag, Ranked, Flagged;
    if change.Toggle? { FlagSets(c.modes, change.letter, change.on); }
  }

  /** An FMODE newer than the channel does nothing; any other does what it says, ranks of remote users included. */
  lemma FmodeEffect(c: Channel, name: string, now: nat, known: set<string>, ts: nat, change: Change)
    ensures var r := Receive(Some(c), name, now, known, FMode(ts, change));
      && r.Some? && (ts > c.created ==> r.value == c)
      && (ts <= c.created ==> Became(c, r.value, change, x => change.DropMask? && x == change.mask))
      && (ts <= c.created && change.Rank? ==>
            && r.value == c.(rmembers := r.value.rmembers) && r.value.rmembers.Keys == c.rmembers.Keys
            && forall x :: x in c.rmembers ==>
                 if x == change.uuid then RankSet(c.rmembers[x], r.value.rmembers[x], change.letter, change.on)
                 else r.value.rmembers[x] == c.rmembers[x])
    ensures Receive(None, name, now, known, FMode(ts, change)) == None
  {
    hide Became, Ranked, RankSet;
    ChangedSets(c, change);
    if change.Rank? && change.uuid in c.rmembers { RankedSets(c.rmembers[change.uuid], change.letter, change.on); }
  }

  ghost predicate ListsMask(ch: Channel, list: MaskList, mask: string) {
    exists m :: m in MasksIn(ch, list) && Fold(m) == Fold(mask)
  }

  /** When a member's mode change takes effect. */
  ghost predicate Takes(s: Server, uid: Uid, chan: string, change: Change, allowed: bool) {
    && allowed && uid in s.users && On(s, uid, Fold(chan))
    && (change.Rank? ==> change.uuid in s.uuidLocal && On(s, s.uuidLocal[change.uuid], Fold(chan)))
    && (change.AddMask? ==> !ListsMask(s.channels[Fold(chan)], change.list, change.mask))
    && (change.DropMask? ==> ListsMask(s.channels[Fold(chan)], change.list, change.mask))
    && (change.Toggle? && change.on ==> change.letter !in {'z', 'E'})
  }

  /** The channel becomes what the mode says, masks compared without case; of members only the ranked one changes. */
  ghost predicate AfterMode(s: Server, t: Server, uid: Uid, chan: string, change: Change, allowed: bool) {
    var key := Fold(chan);
    if !Takes(s, uid, chan, change, allowed) then t == s
    else
      && key in t.channels && t == s.(channels := s.channels[key := t.channels[key]])
      && Became(s.channels[key], t.channels[key], change, x => change.DropMask? && Fold(x) == Fold(change.mask))
      && (change.Rank? ==>
            && t.channels[key] == s.channels[key].(members := t.channels[key].members)
            && t.channels[key].members.Keys == s.channels[key].members.Keys
            && forall u :: u in s.channels[key].members ==>
                 if Maps(s.uuidLocal, change.uuid, u)
                 then RankSet(s.channels[key].members[u], t.channels[key].members[u], change.letter, change.on)
                 else t.channels[key].members[u] == s.channels[key].members[u])
  }

  lemma TakesEffect(s: Server, uid: Uid, chan: string, change: Change, allowed: bool)
    ensures ModeApplies(s, uid, chan, change, allowed) <==> Takes(s, uid, chan, change, allowed)
  {
    hide Fold;
    if On(s, uid, Fold(chan)) && (change.AddMask? || change.DropMask?) {
      var masks := MasksIn(s.channels[Fold(chan)], change.list);
      if SameFolded(masks, change.mask) {
        var k :| 0 <= k < |masks| && Fold(masks[k]) == Fold(change.mask);
        assert masks[k] in masks;
      }
    }
  }

  lemma ModeEffect(s: Server, uid: Uid, chan: string, change: Change, allowed: bool)
    ensures AfterMode(s, ChangeMode(s, uid, chan, change, allowed), uid, chan, change, allowed)
  {
    hide Fold, ModeApplies, Takes, ChangedHere, Became, RankSet;
    TakesEffect(s, uid, chan, change, allowed);
    if Takes(s, uid, chan, change, allowed) {
      TakesOn(s, uid, chan, change, allowed);
      HereSets(s, s.channels[Fold(chan)], change);
    }
  }

  lemma TakesOn(s: Server, uid: Uid, chan: string, change: Change, allowed: bool)
    requires Takes(s, uid, chan, change, allowed)
    ensures Fold(chan) in s.channels && (change.Rank? ==> change.uuid in s.uuidLocal)
  {
  }

  lemma HereSets(s: Server, c: Channel, change: Change)
    ensures var d := ChangedHere(s, c, change);
      && Became(c, d, change, x => change.DropMask? && Fold(x) == Fold(change.mask))
      && (change.Rank? ==>
            && d == c.(members := d.members) && d.members.Keys == c.members.Keys
            && forall u :: u in c.members ==>
                 if Maps(s.uuidLocal, change.uuid, u) then RankSet(c.members[u], d.members[u], change.letter, change.on)
                 else d.members[u] == c.members[u])
  {
    hide Fold, SetFlag, Ranked, Flagged, RankSet;
    if change.Toggle? { FlagSets(c.modes, change.letter, change.on); }
    if change.Rank? && change.uuid in s.uuidLocal && s.uuidLocal[change.uuid] in c.members {
      RankedSets(c.members[s.uuidLocal[change.uuid]], change.letter, change.on);
    }
  }

  // ----- members from the other server -----

  /** A member with exactly the built-in prefixes these letters stand for, or none. */
  ghost predicate Ranks(m: Member, letters: string, given: bool) {
    && (forall p: Prefix :: p in m.prefixes <==> given && LetterOf(p) in letters)
    && forall c :: c in m.customs <==>
         given && c in letters && c in CUSTOM_LETTERS && forall p: Prefix :: c != LetterOf(p)
  }

  lemma GrantRanks(letters: string)
    ensures Ranks(GrantLetters(PlainMember, letters), letters, true) && Ranks(PlainMember, letters, false)
  {
    hide LetterOf, GrantLetters;
    var m := GrantLetters(PlainMember, letters);
    forall p: Prefix ensures p in m.prefixes <==> LetterOf(p) in letters { GrantMeans(PlainMember, letters, p); }
    forall c ensures c in m.customs <==> c in letters && c in CUSTOM_LETTERS && forall p: Prefix :: c != LetterOf(p) {
      GrantCustomMeans(PlainMember, letters, c);
    }
  }

  predicate OnlyLetters(letters: string) {
    letters != "" && forall c :: c in letters ==> c in UPPER_CASE || c in LOWER_CASE
  }

  lemma LetterTokens(letters: string)
    ensures StatusToken(letters) <==> OnlyLetters(letters)
  {
    forall k | 0 <= k < 26 ensures UPPER_CASE[k] as int == 65 + k && LOWER_CASE[k] as int == 97 + k {}
    forall c ensures (c in UPPER_CASE <==> 'A' <= c <= 'Z') && (c in LOWER_CASE <==> 'a' <= c <= 'z') {
      if 'A' <= c <= 'Z' { assert UPPER_CASE[c as int - 65] == c; }
      if 'a' <= c <= 'z' { assert LOWER_CASE[c as int - 97] == c; }
    }
    if OnlyLetters(letters) {
      forall i | 0 <= i < |letters| ensures 'a' <= letters[i] <= 'z' || 'A' <= letters[i] <= 'Z' {
        assert letters[i] in letters;
      }
    }
  }

  /** A channel first heard of: the name, the time, +nt, and nobody on it but those who come with the line. */
  predicate HeardOf(ch: Channel, name: string, ts: nat) {
    && ch.name == name && ch.created == ts && ch.members == map[] && ch.modes == Modes({'n', 't'}, None, None, {})
    && ch.bans == [] && ch.excepts == [] && ch.invex == []
  }

  /** IJOIN: over its own link a user enters a channel with the status its letters name; nothing else changes. */
  ghost predicate AfterIjoin(
    s: Server, t: Server, via: Uid, uuid: string, chan: string, ts: nat, letters: string)
  {
    var key := Fold(chan);
    if !(BehindLink(s, uuid, via) && chan != "" && chan[..1] == "#") then t == s
    else
      && key in t.channels && t == s.(channels := s.channels[key := t.channels[key]])
      && uuid in t.channels[key].rmembers && Ranks(t.channels[key].rmembers[uuid], letters, OnlyLetters(letters))
      && if key in s.channels
         then SameBut(s.channels[key], t.channels[key]) && t.channels[key].members == s.channels[key].members &&
              t.channels[key].rmembers == s.channels[key].rmembers[uuid := t.channels[key].rmembers[uuid]]
         else HeardOf(t.channels[key], chan, ts) && t.channels[key].rmembers.Keys == {uuid}
  }

  lemma IjoinEffect(s: Server, via: Uid, uuid: string, chan: string, ts: nat, letters: string)
    ensures AfterIjoin(s, IjoinRecv(s, via, uuid, chan, ts, letters), via, uuid, chan, ts, letters)
  {
    hide Fold, GrantLetters, StatusToken, OnlyLetters, Ranks;
    assert chan != "" ==> chan[..1] == [chan[0]];
    GrantRanks(letters);
    LetterTokens(letters);
  }

  // ----- FJOIN -----

  /** Flags after the line's mode string, which adds to `base`. */
  ghost predicate FlagsAfter(flags: set<char>, modes: string, base: set<char>) {
    forall f :: f in flags <==> if f in FLAGS && f in modes then LastlyOn(modes, f) else f in base
  }

  /** The losing side keeps its members without their status. */
  ghost predicate Destatused<K>(was: map<K, Member>, now: map<K, Member>) {
    now.Keys == was.Keys && forall u :: u in was ==>
      now[u].customs == was[u].customs &&
      forall p: Prefix :: p in now[u].prefixes <==> p in was[u].prefixes && p == Oper
  }

  /** The settings after an FJOIN: a lower time replaces ours, an equal one adds flags, a higher one does nothing. */
  ghost predicate AfterFjoin(held: Option<Channel>, r: Channel, name: string, b: Burst) {
    if held.None? then
      && r.name == name && r.created == b.ts && r.members == map[]
      && r.modes == Modes(r.modes.flags, None, None, {}) && FlagsAfter(r.modes.flags, b.modes, {'n', 't'})
      && r.bans == [] && r.excepts == [] && r.invex == []
    else
      var c := held.value;
      && r.name == c.name
      && (b.ts > c.created ==> r == c.(rmembers := r.rmembers))
      && (b.ts == c.created ==>
            r == c.(rmembers := r.rmembers, modes := c.modes.(flags := r.modes.flags)) &&
            FlagsAfter(r.modes.flags, b.modes, c.modes.flags))
      && (b.ts < c.created ==>
            && r.created == b.ts && Destatused(c.members, r.members)
            && r.modes == Modes(r.modes.flags, None, None, {}) && FlagsAfter(r.modes.flags, b.modes, {})
            && r.bans == [] && r.excepts == [] && r.invex == [])
  }

  /** Entry `i` is the last one for its user. */
  ghost predicate LastEntry(entries: seq<Entry>, i: nat, x: string) {
    i < |entries| && entries[i].uuid == x && forall j :: i < j < |entries| ==> entries[j].uuid != x
  }

  /** Known listed users are on the channel, with their letters' status unless our time was lower; others as before. */
  ghost predicate EnteredFjoin(held: Option<Channel>, r: Channel, b: Burst, known: set<string>, x: string) {
    var was := if held.Some? then held.value.rmembers else map[];
    var given := held.None? || b.ts <= held.value.created;
    && (x in r.rmembers <==> x in was || (x in known && Listed(b.entries, x)))
    && (forall i: nat :: x in known && LastEntry(b.entries, i, x) ==>
          x in r.rmembers && Ranks(r.rmembers[x], b.entries[i].letters, given))
    && (x in r.rmembers && !(x in known && Listed(b.entries, x)) ==>
          if held.Some? && b.ts < held.value.created
          then r.rmembers[x].customs == was[x].customs &&
               forall p: Prefix :: p in r.rmembers[x].prefixes <==> p in was[x].prefixes && p == Oper
          else r.rmembers[x] == was[x])
  }

  lemma ModesAfter(m: Modes, modes: string)
    ensures var r := ApplyModeString(m, modes, '+'); r == m.(flags := r.flags) && FlagsAfter(r.flags, modes, m.flags)
  {
    hide ApplyModeString, LastlyOn;
    var r := ApplyModeString(m, modes, '+');
    forall f ensures f in r.flags <==> if f in FLAGS && f in modes then LastlyOn(modes, f) else f in m.flags {
      ModeStringMeans(m, modes, f);
    }
    ModeStringMeans(m, modes, 'n');
  }

  lemma ClearedAll<K>(was: map<K, Member>)
    ensures Destatused(was, ClearAll(was))
  {
    hide Status, ClearStatus;
    forall u, p: Prefix | u in was
      ensures p in ClearStatus(was[u]).prefixes <==> p in was[u].prefixes && p == Oper
      ensures ClearStatus(was[u]).customs == was[u].customs
    {
      StatusMeans(was[u], p);
    }
    forall u | u in was ensures ClearStatus(was[u]).customs == was[u].customs { StatusMeans(was[u], Oper); }
  }

  lemma FjoinEffect(held: Option<Channel>, name: string, now: nat, b: Burst, known: set<string>)
    ensures AfterFjoin(held, FjoinRecv(held, name, now, b, known), name, b)
  {
    hide Enter, ApplyModeString, ClearAll, FlagsAfter, Destatused;
    ModesAfter(NewChannel(name, now).modes, b.modes);
    ModesAfter(NoModes, b.modes);
    if held.Some? {
      ModesAfter(held.value.modes, b.modes);
      ClearedAll(held.value.members);
    }
  }

  lemma {:induction false} EnterEffect(
    r: map<string, Member>, entries: seq<Entry>, known: set<string>, keep: bool, x: string)
    ensures var t := Enter(r, entries, known, keep);
      && (x in t <==> x in r || (x in known && Listed(entries, x)))
      && (forall i: nat :: x in known && LastEntry(entries, i, x) ==>
            x in t && Ranks(t[x], entries[i].letters, keep))
      && (x in r && !(x in known && Listed(entries, x)) ==> t[x] == r[x])
    decreases |entries|
  {
    hide Ranks, Arriving;
    if entries != [] {
      var e, rest := entries[0], entries[1..];
      var next := if e.uuid in known then r[e.uuid := Arriving(e.letters, keep)] else r;
      EnterEffect(next, rest, known, keep, x);
      ListedTail(entries, x);
      forall i: nat | x in known && LastEntry(entries, i, x)
        ensures x in Enter(next, rest, known, keep)
        ensures Ranks(Enter(next, rest, known, keep)[x], entries[i].letters, keep)
      {
        if i == 0 {
          assert !Listed(rest, x);
          ArrivingRanks(e.letters, keep);
        } else {
          assert LastEntry(rest, i - 1, x) && rest[i - 1] == entries[i];
        }
      }
    }
  }

  lemma ListedTail(entries: seq<Entry>, x: string)
    requires entries != []
    ensures Listed(entries, x) <==> entries[0].uuid == x || Listed(entries[1..], x)
    ensures LastEntry(entries, 0, x) ==> !Listed(entries[1..], x)
  {
    if Listed(entries[1..], x) {
      var k :| 0 <= k < |entries[1..]| && entries[1..][k].uuid == x;
      assert entries[k + 1].uuid == x;
    }
    if Listed(entries, x) && entries[0].uuid != x {
      var k :| 0 <= k < |entries| && entries[k].uuid == x;
      assert entries[1..][k - 1].uuid == x;
    }
  }

  lemma ArrivingRanks(letters: string, keep: bool)
    ensures Ranks(Arriving(letters, keep), letters, keep)
  {
    hide Ranks, GrantLetters;
    GrantRanks(letters);
  }

  lemma FjoinMembers(held: Option<Channel>, name: string, now: nat, b: Burst, known: set<string>, x: string)
    ensures EnteredFjoin(held, FjoinRecv(held, name, now, b, known), b, known, x)
  {
    hide Enter, ApplyModeString, ClearAll, Ranks, Listed, LastEntry;
    var given := held.None? || b.ts <= held.value.created;
    if held.Some? {
      ClearedAll(held.value.rmembers);
      EnterEffect(Arbitrate(held.value, b.ts, b.modes).rmembers, b.entries, known, given, x);
      assert x in Arbitrate(held.value, b.ts, b.modes).rmembers <==> x in held.value.rmembers by {
        assert x in held.value.rmembers.Keys <==> x in ClearAll(held.value.rmembers).Keys;
      }
    } else {
      EnterEffect(map[], b.entries, known, given, x);
    }
  }

  /** At the server: that channel only, and the users who may enter are the remote ones. */
  lemma FjoinServer(s: Server, chan: string, b: Burst, now: nat)
    ensures var t, key := FjoinRecvAt(s, chan, b, now), Fold(chan);
      var held := if key in s.channels then Some(s.channels[key]) else None;
      && key in t.channels && t == s.(channels := s.channels[key := t.channels[key]])
      && AfterFjoin(held, t.channels[key], chan, b)
      && forall x :: EnteredFjoin(held, t.channels[key], b, s.remoteUsers.Keys - s.uuidLocal.Keys, x)
  {
    hide Fold, FjoinRecv, AfterFjoin, EnteredFjoin;
    var key := Fold(chan);
    var held := if key in s.channels then Some(s.channels[key]) else None;
    FjoinEffect(held, chan, now, b, Enterable(s));
    forall x ensures EnteredFjoin(held, FjoinRecv(held, chan, now, b, Enterable(s)), b, Enterable(s), x) {
      FjoinMembers(held, chan, now, b, Enterable(s), x);
    }
  }
}
