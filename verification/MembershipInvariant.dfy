/** Channel membership is recorded twice, in the channel and in the user; every event keeps both in step. */
module MembershipInvariant {
  import opened Wrappers
  import opened Channels
  import opened ChannelMerge
  import opened ServerState

  /** A local user is in a channel's member table exactly when the channel is in that user's set. */
  ghost predicate LocalsInStep(users: map<Uid, User>, channels: map<string, Channel>) {
    forall u, k :: Lists(users, u, k) <==> Holds(channels, k, u)
  }

  predicate Lists(users: map<Uid, User>, u: Uid, k: string) {
    u in users && k in users[u].channels
  }

  predicate Holds(channels: map<string, Channel>, k: string, u: Uid) {
    k in channels && u in channels[k].members
  }

  /** Only registered users are on channels. */
  ghost predicate RegisteredOnly(users: map<Uid, User>) {
    forall u :: u in users && !users[u].registered ==> users[u].channels == {}
  }

  /** Every remote member is a known remote user. */
  ghost predicate RemotesKnown(channels: map<string, Channel>, remoteUsers: map<string, RemoteUser>) {
    forall k, r :: k in channels && r in channels[k].rmembers ==> r in remoteUsers
  }

  /** Every remote user and server is reached through a live link. */
  ghost predicate LinksLive(s: Server) {
    && (forall r :: r in s.remoteUsers ==> s.remoteUsers[r].via in s.links)
    && (forall i :: i in s.servers ==> s.servers[i].via in s.links)
  }

  ghost predicate MemberInv(s: Server) {
    && LocalsInStep(s.users, s.channels) && RegisteredOnly(s.users)
    && RemotesKnown(s.channels, s.remoteUsers) && LinksLive(s)
  }

  // ----- local events -----

  /** Reaping removes only channels without members. */
  lemma ReapKeeps(users: map<Uid, User>, channels: map<string, Channel>, remoteUsers: map<string, RemoteUser>)
    requires LocalsInStep(users, channels) && RemotesKnown(channels, remoteUsers)
    ensures LocalsInStep(users, Reap(channels)) && RemotesKnown(Reap(channels), remoteUsers)
  {
    forall u, k ensures Holds(channels, k, u) <==> Holds(Reap(channels), k, u) {
    }
  }

  lemma JoinKeeps(s: Server, uid: Uid, name: string, maxlen: nat, admitted: bool, now: nat)
    requires MemberInv(s) && (uid in s.users ==> s.users[uid].registered)
    ensures MemberInv(Join(s, uid, name, maxlen, admitted, now))
  {
    hide Fold, ValidChan, Status;
    var t, key := Join(s, uid, name, maxlen, admitted, now), Fold(name);
    if t != s {
      forall u, k ensures Lists(t.users, u, k) <==> Lists(s.users, u, k) || (u == uid && k == key) {}
      forall u, k ensures Holds(t.channels, k, u) <==> Holds(s.channels, k, u) || (u == uid && k == key) {}
    }
  }

  lemma LeaveKeeps(s: Server, uid: Uid, key: string)
    requires MemberInv(s)
    ensures MemberInv(Leave(s, uid, key))
  {
    hide Reap;
    var channels, users := WithoutLocal(s.channels, key, uid), LeaveUser(s.users, uid, key);
    forall u, k ensures Lists(users, u, k) <==> Lists(s.users, u, k) && !(u == uid && k == key) {}
    forall u, k ensures Holds(channels, k, u) <==> Holds(s.channels, k, u) && !(u == uid && k == key) {}
    ReapKeeps(users, channels, s.remoteUsers);
  }

  lemma RenameKeeps(s: Server, oldkey: string, newname: string)
    requires MemberInv(s)
    ensures MemberInv(Rename(s, oldkey, newname))
  {
    hide Fold;
    var s', newkey := Rename(s, oldkey, newname), Fold(newname);
    if oldkey in s.channels && newkey == oldkey {
      forall u, k ensures Holds(s'.channels, k, u) <==> Holds(s.channels, k, u) {}
    } else if s' != s {
      RenameInStep(s, oldkey, newname, newkey);
    }
  }

  lemma RenameInStep(s: Server, oldkey: string, newname: string, newkey: string)
    requires LocalsInStep(s.users, s.channels) && newkey == Fold(newname) != oldkey
    requires oldkey in s.channels && newkey !in s.channels && RegisteredOnly(s.users)
    ensures var t := Rename(s, oldkey, newname); LocalsInStep(t.users, t.channels) && RegisteredOnly(t.users)
  {
    hide Fold;
    var t := Rename(s, oldkey, newname);
    forall u, k ensures Lists(t.users, u, k) <==> Holds(t.channels, k, u) {
      assert Lists(s.users, u, k) <==> Holds(s.channels, k, u);
      assert Lists(s.users, u, oldkey) <==> Holds(s.channels, oldkey, u);
    }
    forall u | u in t.users && !t.users[u].registered ensures t.users[u].channels == {} {
      assert Lists(s.users, u, oldkey) <==> Holds(s.channels, oldkey, u);
    }
  }

  lemma RemoveUserKeeps(s: Server, uid: Uid)
    requires MemberInv(s)
    ensures MemberInv(RemoveUser(s, uid))
  {
    hide Reap, Fold;
    if uid in s.users {
      var u := s.users[uid];
      var users, channels := s.users - {uid}, DropFrom(s.channels, u.channels, uid);
      forall v, k ensures Lists(users, v, k) <==> Lists(s.users, v, k) && v != uid {}
      forall v, k ensures Lists(s.users, v, k) <==> Holds(s.channels, k, v) {}
      forall v, k ensures Holds(channels, k, v) <==> Holds(s.channels, k, v) && !(v == uid && k in u.channels) {}
      if u.registered {
        ReapKeeps(users, channels, s.remoteUsers);
      }
    }
  }

  // ----- remote events -----

  lemma DropRemoteKeeps(s: Server, uuid: string)
    requires MemberInv(s)
    ensures MemberInv(DropRemote(s, uuid))
  {
    hide Reap, Fold;
    if uuid in s.remoteUsers {
      var channels := WithoutRemotes(s.channels, {uuid});
      forall v, k ensures Holds(channels, k, v) <==> Holds(s.channels, k, v) {}
      ReapKeeps(s.users, channels, s.remoteUsers - {uuid});
    }
  }

  lemma CloseLinkKeeps(s: Server, link: Uid)
    requires MemberInv(s)
    ensures MemberInv(CloseLink(s, link))
  {
    hide Reap, Fold;
    var gone := Behind(s, link);
    var channels := WithoutRemotes(s.channels, gone);
    forall v, k ensures Holds(channels, k, v) <==> Holds(s.channels, k, v) {}
    ReapKeeps(s.users, channels, s.remoteUsers - gone);
    if gone == {} {
      assert s.remoteUsers - gone == s.remoteUsers;
    }
  }

  lemma RemoteGoneKeeps(s: Server, key: string, uuid: string)
    requires MemberInv(s)
    ensures MemberInv(s.(channels := Reap(WithoutRemote(s.channels, key, uuid))))
  {
    hide Reap;
    var channels := WithoutRemote(s.channels, key, uuid);
    forall v, k ensures Holds(channels, k, v) <==> Holds(s.channels, k, v) {}
    ReapKeeps(s.users, channels, s.remoteUsers);
  }

  /** A channel record replaced by one with the same local members and only known remote ones. */
  lemma ReplaceKeeps(s: Server, key: string, ch: Channel)
    requires MemberInv(s)
    requires ch.members.Keys == if key in s.channels then s.channels[key].members.Keys else {}
    requires forall r :: r in ch.rmembers ==> r in s.remoteUsers
    ensures MemberInv(s.(channels := s.channels[key := ch]))
  {
    var channels := s.channels[key := ch];
    forall u, k ensures Holds(channels, k, u) <==> Holds(s.channels, k, u) {
      assert u in ch.members <==> u in ch.members.Keys;
    }
  }

  lemma {:induction false} EnterOnlyKnown(
    rmembers: map<string, Member>, entries: seq<Entry>, known: set<string>, keep: bool, remote: set<string>)
    requires known <= remote && rmembers.Keys <= remote
    ensures Enter(rmembers, entries, known, keep).Keys <= remote
    decreases |entries|
  {
    if entries != [] {
      var e := entries[0];
      var next := if e.uuid in known then rmembers[e.uuid := Arriving(e.letters, keep)] else rmembers;
      EnterOnlyKnown(next, entries[1..], known, keep, remote);
    }
  }

  lemma FjoinKeeps(s: Server, chan: string, b: Burst, now: nat)
    requires MemberInv(s)
    ensures MemberInv(FjoinRecvAt(s, chan, b, now))
  {
    hide Fold, Enter, ApplyModeString;
    var key := Fold(chan);
    var held := if key in s.channels then Some(s.channels[key]) else None;
    var keep := held.None? || b.ts <= held.value.created;
    var base := if held.None? then FreshFrom(NewChannel(chan, now), b.ts, b.modes)
                else Arbitrate(held.value, b.ts, b.modes);
    assert base.members.Keys == if key in s.channels then s.channels[key].members.Keys else {};
    assert base.rmembers.Keys <= s.remoteUsers.Keys;
    EnterOnlyKnown(base.rmembers, b.entries, Enterable(s), keep, s.remoteUsers.Keys);
    var ch := FjoinRecv(held, chan, now, b, Enterable(s));
    assert forall r :: r in ch.rmembers ==> r in ch.rmembers.Keys;
    ReplaceKeeps(s, key, ch);
  }

  lemma IjoinKeeps(s: Server, via: Uid, uuid: string, chan: string, ts: nat, letters: string)
    requires MemberInv(s)
    ensures MemberInv(IjoinRecv(s, via, uuid, chan, ts, letters))
  {
    hide Fold, GrantLetters, StatusToken;
    if chan != "" && chan[0] == '#' && SourcedVia(s, uuid, via) {
      var key := Fold(chan);
      ReplaceKeeps(s, key, IjoinRecv(s, via, uuid, chan, ts, letters).channels[key]);
    }
  }

  lemma KickKeeps(s: Server, via: Uid, src: string, chan: string, victim: string)
    requires MemberInv(s)
    ensures MemberInv(KickRecv(s, via, src, chan, victim))
  {
    hide Fold, MemberInv, Reap;
    var key := Fold(chan);
    forall u ensures MemberInv(Leave(s, u, key)) { LeaveKeeps(s, u, key); }
    forall r ensures MemberInv(s.(channels := Reap(WithoutRemote(s.channels, key, r)))) {
      RemoteGoneKeeps(s, key, r);
    }
  }

  lemma ChangedKeeps(s: Server, ch: Channel, change: Change)
    ensures Changed(ch, change).rmembers.Keys == ch.rmembers.Keys && Changed(ch, change).members == ch.members
    ensures ChangedHere(s, ch, change).members.Keys == ch.members.Keys
    ensures ChangedHere(s, ch, change).rmembers.Keys == ch.rmembers.Keys
    ensures Changed(ch, change).name == ch.name == ChangedHere(s, ch, change).name
  {
    hide SetFlag, Ranked, WithMask, WithoutMask, WithoutFolded;
  }

  lemma ModeKeeps(s: Server, uid: Uid, chan: string, change: Change, allowed: bool)
    requires MemberInv(s)
    ensures MemberInv(ChangeMode(s, uid, chan, change, allowed))
  {
    hide Fold, ChangedHere, MemberInv;
    if ModeApplies(s, uid, chan, change, allowed) {
      var key := Fold(chan);
      var ch := ChangedHere(s, s.channels[key], change);
      ChangedKeeps(s, s.channels[key], change);
      OnlyKnown(s, key);
      forall r | r in ch.rmembers ensures r in s.remoteUsers { assert r in ch.rmembers.Keys; }
      ReplaceKeeps(s, key, ch);
    }
  }

  lemma OnlyKnown(s: Server, key: string)
    requires MemberInv(s) && key in s.channels
    ensures forall r :: r in s.channels[key].rmembers ==> r in s.remoteUsers
  {
  }

  // ----- nick and registry events touch membership not at all -----

  /** Same channels; users keep their registration and channel sets; remote users still known and linked. */
  lemma RegistryKeeps(s: Server, t: Server)
    requires MemberInv(s) && t.channels == s.channels && t.users.Keys == s.users.Keys
    requires forall u :: u in s.users ==>
      t.users[u].channels == s.users[u].channels && t.users[u].registered == s.users[u].registered
    requires s.remoteUsers.Keys <= t.remoteUsers.Keys && LinksLive(t)
    ensures MemberInv(t)
  {
    forall u, k ensures Lists(t.users, u, k) <==> Lists(s.users, u, k) {
      assert u in t.users <==> u in s.users.Keys;
    }
    forall u | u in t.users && !t.users[u].registered ensures t.users[u].channels == {} {
      assert u in s.users;
    }
    forall k, r | k in t.channels && r in t.channels[k].rmembers ensures r in t.remoteUsers {
      assert r in s.remoteUsers.Keys;
    }
  }
}
