/** Nick ownership: both nick tables are exact inverses, and no folded nick has two owners. */
module NickInvariant {
  import opened Wrappers
  import opened Channels
  import opened ChannelMerge
  import opened ServerState

  predicate OwnsLocal(users: map<Uid, User>, u: Uid, f: string) {
    u in users && users[u].nick != "" && Fold(users[u].nick) == f
  }

  predicate OwnsRemote(remoteUsers: map<string, RemoteUser>, r: string, f: string) {
    r in remoteUsers && Fold(remoteUsers[r].nick) == f
  }

  predicate Maps<K, V(==)>(m: map<K, V>, k: K, v: V) {
    k in m && m[k] == v
  }

  /** Each table maps a folded nick to a user exactly when that user holds it; no nick is in both tables. */
  ghost predicate NickInv(s: Server) {
    && (forall f, u :: Maps(s.nickIndex, f, u) <==> OwnsLocal(s.users, u, f))
    && (forall f, r :: Maps(s.remoteNick, f, r) <==> OwnsRemote(s.remoteUsers, r, f))
    && s.nickIndex.Keys !! s.remoteNick.Keys
  }

  predicate IsId(s: Server, x: string) {
    x in s.uuidLocal || x in s.remoteUsers
  }

  /** The users a folded string could name as somebody's uuid. */
  ghost predicate IdFoldsTo(s: Server, x: string, f: string) {
    IsId(s, x) && Fold(x) == f
  }

  /** Uuids are exact, non-empty, distinct under folding, and nobody's nick is another user's uuid. */
  ghost predicate IdInv(s: Server) {
    && (forall x, u :: Maps(s.uuidLocal, x, u) <==> u in s.users && s.users[u].uuid == x)
    && s.uuidLocal.Keys !! s.remoteUsers.Keys && !IsId(s, "")
    && (forall x, y, f :: IdFoldsTo(s, x, f) && IdFoldsTo(s, y, f) ==> x == y)
    && (forall u, x, f :: OwnsLocal(s.users, u, f) && IdFoldsTo(s, x, f) ==> s.users[u].uuid == x)
    && (forall r, x, f :: OwnsRemote(s.remoteUsers, r, f) && IdFoldsTo(s, x, f) ==> r == x)
  }

  ghost predicate NamesOk(s: Server) {
    NickInv(s) && IdInv(s)
  }

  /** A nick that is no other user's uuid. */
  ghost predicate NotAnothersId(s: Server, nick: string, uuid: string) {
    forall x :: IdFoldsTo(s, x, Fold(nick)) ==> x == uuid
  }

  /** A uuid that folds to no known uuid and no held nick. */
  ghost predicate FreshId(s: Server, uuid: string) {
    && uuid != "" && Fold(uuid) !in s.nickIndex && Fold(uuid) !in s.remoteNick
    && forall x :: !IdFoldsTo(s, x, Fold(uuid))
  }

  /** No folded nick is held by two known users, local or remote. */
  lemma OneOwner(s: Server, f: string)
    requires NickInv(s)
    ensures forall u, v :: OwnsLocal(s.users, u, f) && OwnsLocal(s.users, v, f) ==> u == v
    ensures forall q, r :: OwnsRemote(s.remoteUsers, q, f) && OwnsRemote(s.remoteUsers, r, f) ==> q == r
    ensures forall u, r :: !(OwnsLocal(s.users, u, f) && OwnsRemote(s.remoteUsers, r, f))
  {
    forall u, v | OwnsLocal(s.users, u, f) && OwnsLocal(s.users, v, f) ensures u == v {
      assert Maps(s.nickIndex, f, u) && Maps(s.nickIndex, f, v);
    }
    forall q, r | OwnsRemote(s.remoteUsers, q, f) && OwnsRemote(s.remoteUsers, r, f) ensures q == r {
      assert Maps(s.remoteNick, f, q) && Maps(s.remoteNick, f, r);
    }
    forall u, r | OwnsLocal(s.users, u, f) ensures !OwnsRemote(s.remoteUsers, r, f) {
      assert Maps(s.nickIndex, f, u) && !Maps(s.remoteNick, f, r);
    }
  }

  // ----- local users -----

  lemma SetNickKeeps(s: Server, uid: Uid, newnick: string, now: nat)
    requires NamesOk(s) && uid in s.users && newnick != "" && Fold(newnick) !in s.remoteNick
    requires Fold(newnick) in s.nickIndex ==> s.nickIndex[Fold(newnick)] == uid
    requires NotAnothersId(s, newnick, s.users[uid].uuid)
    ensures var t := SetNick(s, uid, newnick, now);
      NamesOk(t) && forall f :: f in t.nickIndex ==> f == Fold(newnick) || (f in s.nickIndex && s.nickIndex[f] != uid)
  {
    hide Fold;
    var t, g := SetNick(s, uid, newnick, now), Fold(newnick);
    forall f, u ensures OwnsLocal(t.users, u, f) <==> if u == uid then f == g else OwnsLocal(s.users, u, f) {}
    forall f, u ensures Maps(t.nickIndex, f, u) <==> if u == uid then f == g else Maps(s.nickIndex, f, u) {
      assert Maps(s.nickIndex, f, u) <==> OwnsLocal(s.users, u, f);
      assert Maps(s.nickIndex, f, uid) <==> OwnsLocal(s.users, uid, f);
    }
    forall f | f in t.nickIndex ensures f == g || (f in s.nickIndex && s.nickIndex[f] != uid) {
      assert Maps(t.nickIndex, f, t.nickIndex[f]);
    }
    forall x, f ensures IdFoldsTo(t, x, f) <==> IdFoldsTo(s, x, f) {}
  }

  /** Falling back to one's own uuid is always free. */
  lemma OwnIdFree(s: Server, uid: Uid)
    requires NamesOk(s) && uid in s.users
    ensures var x := s.users[uid].uuid;
      && x != "" && IdFoldsTo(s, x, Fold(x)) && Fold(x) !in s.remoteNick && NotAnothersId(s, x, x)
      && (Fold(x) in s.nickIndex ==> s.nickIndex[Fold(x)] == uid)
  {
    hide Fold;
    var x := s.users[uid].uuid;
    var f := Fold(x);
    assert Maps(s.uuidLocal, x, uid);
    assert IdFoldsTo(s, x, f);
    if f in s.remoteNick {
      assert OwnsRemote(s.remoteUsers, s.remoteNick[f], f) by { assert Maps(s.remoteNick, f, s.remoteNick[f]); }
    }
    if f in s.nickIndex {
      var u := s.nickIndex[f];
      assert OwnsLocal(s.users, u, f) by { assert Maps(s.nickIndex, f, u); }
      assert Maps(s.uuidLocal, x, u);
    }
  }

  lemma RemoveUserKeepsNames(s: Server, uid: Uid)
    requires NamesOk(s)
    ensures NamesOk(RemoveUser(s, uid))
  {
    hide Fold, Reap;
    if uid in s.users {
      var t, w := RemoveUser(s, uid), s.users[uid];
      assert Maps(s.uuidLocal, w.uuid, uid);
      forall f, u ensures OwnsLocal(t.users, u, f) <==> u != uid && OwnsLocal(s.users, u, f) {}
      forall f, u ensures Maps(t.nickIndex, f, u) <==> u != uid && Maps(s.nickIndex, f, u) {
        assert Maps(s.nickIndex, f, u) <==> OwnsLocal(s.users, u, f);
        assert Maps(s.nickIndex, f, uid) <==> OwnsLocal(s.users, uid, f);
      }
      forall x, u ensures Maps(t.uuidLocal, x, u) <==> u != uid && Maps(s.uuidLocal, x, u) {
        assert Maps(s.uuidLocal, x, uid) ==> x == w.uuid;
      }
      forall x, f | IdFoldsTo(t, x, f) ensures IdFoldsTo(s, x, f) {}
    }
  }

  lemma ConnectKeepsNames(s: Server, uid: Uid, uuid: string, ip: string, now: nat)
    requires NamesOk(s) && uid !in s.users && FreshId(s, uuid)
    ensures NamesOk(Connect(s, uid, uuid, ip, now))
  {
    hide Fold;
    var t, g := Connect(s, uid, uuid, ip, now), Fold(uuid);
    assert !IdFoldsTo(s, uuid, g);
    forall f, u ensures OwnsLocal(t.users, u, f) <==> OwnsLocal(s.users, u, f) {}
    forall x, u ensures Maps(t.uuidLocal, x, u) <==> (x == uuid && u == uid) || Maps(s.uuidLocal, x, u) {}
    forall x, f ensures IdFoldsTo(t, x, f) <==> (x == uuid && f == g) || IdFoldsTo(s, x, f) {}
    NobodyNamed(s, g);
  }

  lemma NobodyNamed(s: Server, f: string)
    requires NickInv(s) && f !in s.nickIndex && f !in s.remoteNick
    ensures forall u :: !OwnsLocal(s.users, u, f)
    ensures forall r :: !OwnsRemote(s.remoteUsers, r, f)
  {
    forall u ensures !OwnsLocal(s.users, u, f) { assert !Maps(s.nickIndex, f, u); }
    forall r ensures !OwnsRemote(s.remoteUsers, r, f) { assert !Maps(s.remoteNick, f, r); }
  }

  // ----- remote users -----

  lemma AddRemoteKeeps(s: Server, uuid: string, ru: RemoteUser)
    requires NamesOk(s) && FreshId(s, uuid) && NotAnothersId(s, ru.nick, uuid)
    requires Fold(ru.nick) !in s.nickIndex && Fold(ru.nick) !in s.remoteNick
    ensures NamesOk(s.(remoteNick := s.remoteNick[Fold(ru.nick) := uuid], remoteUsers := s.remoteUsers[uuid := ru]))
  {
    hide Fold;
    var g, h := Fold(uuid), Fold(ru.nick);
    var t := s.(remoteNick := s.remoteNick[h := uuid], remoteUsers := s.remoteUsers[uuid := ru]);
    assert !IdFoldsTo(s, uuid, g);
    forall f, r ensures OwnsRemote(t.remoteUsers, r, f) <==> (r == uuid && f == h) || OwnsRemote(s.remoteUsers, r, f) {}
    forall f, r ensures Maps(t.remoteNick, f, r) <==> (r == uuid && f == h) || Maps(s.remoteNick, f, r) {}
    forall x, f ensures IdFoldsTo(t, x, f) <==> (x == uuid && f == g) || IdFoldsTo(s, x, f) {}
    NobodyNamed(s, g);
  }

  lemma RenamedKeeps(s: Server, uuid: string, nick: string, ts: nat)
    requires NamesOk(s) && uuid in s.remoteUsers && NotAnothersId(s, nick, uuid) && Fold(nick) !in s.nickIndex
    requires Fold(nick) in s.remoteNick ==> s.remoteNick[Fold(nick)] == uuid
    ensures NamesOk(Renamed(s, uuid, nick, ts))
  {
    hide Fold;
    var t, g := Renamed(s, uuid, nick, ts), Fold(nick);
    forall f, r
      ensures OwnsRemote(t.remoteUsers, r, f) <==> if r == uuid then f == g else OwnsRemote(s.remoteUsers, r, f)
    {
    }
    forall f, r ensures Maps(t.remoteNick, f, r) <==> if r == uuid then f == g else Maps(s.remoteNick, f, r) {
      assert Maps(s.remoteNick, f, r) <==> OwnsRemote(s.remoteUsers, r, f);
      assert Maps(s.remoteNick, f, uuid) <==> OwnsRemote(s.remoteUsers, uuid, f);
    }
    forall x, f ensures IdFoldsTo(t, x, f) <==> IdFoldsTo(s, x, f) {}
  }

  lemma OwnRemoteIdFree(s: Server, uuid: string)
    requires NamesOk(s) && uuid in s.remoteUsers
    ensures IdFoldsTo(s, uuid, Fold(uuid)) && Fold(uuid) !in s.nickIndex && NotAnothersId(s, uuid, uuid)
    ensures Fold(uuid) in s.remoteNick ==> s.remoteNick[Fold(uuid)] == uuid
  {
    hide Fold;
    var f := Fold(uuid);
    assert IdFoldsTo(s, uuid, f);
    forall u ensures !OwnsLocal(s.users, u, f) { assert !Maps(s.uuidLocal, uuid, u); }
    assert f in s.nickIndex ==> Maps(s.nickIndex, f, s.nickIndex[f]);
    assert f in s.remoteNick ==> Maps(s.remoteNick, f, s.remoteNick[f]);
  }

  lemma SaveIsRename(s: Server, uuid: string)
    requires NickInv(s) && uuid in s.remoteUsers
    ensures SaveRemote(s, uuid) == Renamed(s, uuid, uuid, s.remoteUsers[uuid].nickTs)
  {
    hide Fold;
    var f := Fold(s.remoteUsers[uuid].nick);
    assert OwnsRemote(s.remoteUsers, uuid, f);
    assert Maps(s.remoteNick, f, uuid);
    assert (s.remoteNick - {f})[f := uuid] == s.remoteNick;
  }

  lemma SaveRemoteKeeps(s: Server, uuid: string)
    requires NamesOk(s)
    ensures NamesOk(SaveRemote(s, uuid))
  {
    hide Fold, IdInv;
    if uuid in s.remoteUsers {
      OwnRemoteIdFree(s, uuid);
      RenamedKeeps(s, uuid, uuid, s.remoteUsers[uuid].nickTs);
      SaveIsRename(s, uuid);
    }
  }

  /** Saving gives up the nick: whatever the table then maps, it is the uuid or was another user's. */
  lemma SaveFrees(s: Server, uuid: string, f: string)
    requires NickInv(s) && uuid in s.remoteUsers && f in SaveRemote(s, uuid).remoteNick
    ensures f == Fold(uuid) || (f in s.remoteNick && s.remoteNick[f] != uuid)
  {
    hide Fold;
    SaveIsRename(s, uuid);
    if f in s.remoteNick && s.remoteNick[f] == uuid {
      OnlyOwn(s, uuid, f);
    }
  }

  lemma OnlyOwn(s: Server, uuid: string, f: string)
    requires NickInv(s) && f in s.remoteNick && s.remoteNick[f] == uuid
    ensures uuid in s.remoteUsers && f == Fold(s.remoteUsers[uuid].nick)
  {
    assert Maps(s.remoteNick, f, uuid);
  }

  /** The users in `gone` leave both registries together. */
  lemma DropRemotesKeeps(s: Server, t: Server, gone: set<string>)
    requires NamesOk(s) && gone <= s.remoteUsers.Keys
    requires t.users == s.users && t.nickIndex == s.nickIndex && t.uuidLocal == s.uuidLocal
    requires t.remoteUsers == s.remoteUsers - gone
    requires t.remoteNick == s.remoteNick - (set u | u in gone :: Fold(s.remoteUsers[u].nick))
    ensures NamesOk(t)
  {
    hide Fold;
    forall f, r ensures OwnsRemote(t.remoteUsers, r, f) <==> r !in gone && OwnsRemote(s.remoteUsers, r, f) {}
    forall f, r ensures Maps(t.remoteNick, f, r) <==> r !in gone && Maps(s.remoteNick, f, r) {
      assert Maps(s.remoteNick, f, r) <==> OwnsRemote(s.remoteUsers, r, f);
      forall q | q in gone && Fold(s.remoteUsers[q].nick) == f ensures Maps(s.remoteNick, f, q) {
        assert OwnsRemote(s.remoteUsers, q, f);
      }
    }
    forall x, f | IdFoldsTo(t, x, f) ensures IdFoldsTo(s, x, f) {}
  }

  lemma DropRemoteKeepsNames(s: Server, uuid: string)
    requires NamesOk(s)
    ensures NamesOk(DropRemote(s, uuid))
  {
    hide Fold, Reap, NamesOk;
    if uuid in s.remoteUsers {
      var f := Fold(s.remoteUsers[uuid].nick);
      assert (set u | u in {uuid} :: Fold(s.remoteUsers[u].nick)) == {f};
      DropRemotesKeeps(s, DropRemote(s, uuid), {uuid});
    }
  }

  lemma CloseLinkKeepsNames(s: Server, link: Uid)
    requires NamesOk(s)
    ensures NamesOk(CloseLink(s, link))
  {
    hide Fold, Reap, NamesOk;
    DropRemotesKeeps(s, CloseLink(s, link), Behind(s, link));
  }

  // ----- collisions -----

  /** After arbitration against the local holder, a newcomer that did not lose finds the nick free here. */
  lemma ResolveLocalKeeps(
    s: Server, nick: string, uuid: string, ts: nat, ident: string, ip: string, service: bool, now: nat)
    requires NamesOk(s) && Fold(nick) in s.nickIndex && uuid !in s.uuidLocal && NotAnothersId(s, nick, uuid)
    ensures var (t, lost) := ResolveLocal(s, s.nickIndex[Fold(nick)], ts, ident, ip, service, now);
      && NamesOk(t) && SameRemote(s, t) && (!lost ==> Fold(nick) !in t.nickIndex)
      && forall f :: f in t.nickIndex ==> f in s.nickIndex || exists x :: IdFoldsTo(s, x, f)
  {
    hide Fold;
    var f := Fold(nick);
    var luid := s.nickIndex[f];
    assert OwnsLocal(s.users, luid, f) by { assert Maps(s.nickIndex, f, luid); }
    var x := s.users[luid].uuid;
    OwnIdFree(s, luid);
    assert Maps(s.uuidLocal, x, luid);
    assert f != Fold(x);
    SetNickKeeps(s, luid, x, now);
  }

  predicate SameRemote(s: Server, t: Server) {
    && t.remoteUsers == s.remoteUsers && t.remoteNick == s.remoteNick && t.uuidLocal == s.uuidLocal
    && t.servers == s.servers && t.links == s.links && t.channels == s.channels
  }

  predicate SameLocal(s: Server, t: Server) {
    && t.users == s.users && t.nickIndex == s.nickIndex && t.uuidLocal == s.uuidLocal
    && t.remoteUsers.Keys == s.remoteUsers.Keys
    && t.servers == s.servers && t.links == s.links && t.channels == s.channels
  }

  lemma ResolveRemoteKeeps(s: Server, nick: string, uuid: string, ts: nat, ident: string, ip: string, sid: string)
    requires NamesOk(s) && NotAnothersId(s, nick, uuid)
    requires Fold(nick) in s.remoteNick && s.remoteNick[Fold(nick)] != uuid
    ensures var (t, lost) := ResolveRemote(s, s.remoteNick[Fold(nick)], ts, ident, ip, sid);
      && NamesOk(t) && SameLocal(s, t) && (!lost ==> Fold(nick) !in t.remoteNick)
      && forall f :: f in t.remoteNick ==> f in s.remoteNick || exists x :: IdFoldsTo(s, x, f)
  {
    hide Fold, IdInv, ServerIsService, UuidIsService, SaveRemote;
    var f := Fold(nick);
    var holder := s.remoteNick[f];
    assert OwnsRemote(s.remoteUsers, holder, f) by { assert Maps(s.remoteNick, f, holder); }
    OwnRemoteIdFree(s, holder);
    SaveRemoteKeeps(s, holder);
    SaveKeepsLocal(s, holder);
    forall g | g in SaveRemote(s, holder).remoteNick
      ensures (g in s.remoteNick || exists x :: IdFoldsTo(s, x, g)) && g != f
    {
      SaveFrees(s, holder, g);
    }
  }

  lemma SaveKeepsLocal(s: Server, uuid: string)
    ensures SameLocal(s, SaveRemote(s, uuid))
  {
    hide Fold;
    if uuid in s.remoteUsers {
      var saved := s.remoteUsers[uuid := s.remoteUsers[uuid].(nick := uuid)];
      assert saved.Keys == s.remoteUsers.Keys;
      var t := SaveRemote(s, uuid);
      assert t.remoteUsers == saved;
      assert t == s.(remoteUsers := saved, remoteNick := t.remoteNick);
    }
  }

  predicate SameIds(s: Server, t: Server) {
    t.uuidLocal == s.uuidLocal && t.remoteUsers.Keys == s.remoteUsers.Keys
  }

  /** Tables that gained only uuids of known users leave a fresh uuid fresh. */
  lemma StaysFresh(s: Server, t: Server, uuid: string)
    requires FreshId(s, uuid) && SameIds(s, t)
    requires forall f :: f in t.nickIndex ==> f in s.nickIndex || exists x :: IdFoldsTo(s, x, f)
    requires forall f :: f in t.remoteNick ==> f in s.remoteNick || exists x :: IdFoldsTo(s, x, f)
    ensures FreshId(t, uuid)
  {
    hide Fold;
    forall x, f ensures IdFoldsTo(t, x, f) <==> IdFoldsTo(s, x, f) {
      assert x in t.remoteUsers <==> x in s.remoteUsers.Keys;
    }
  }

  lemma StaysUnclaimed(s: Server, t: Server, nick: string, uuid: string)
    requires NotAnothersId(s, nick, uuid) && SameIds(s, t)
    ensures NotAnothersId(t, nick, uuid)
  {
    hide Fold;
    forall x | IdFoldsTo(t, x, Fold(nick)) ensures x == uuid {
      assert x in t.remoteUsers <==> x in s.remoteUsers.Keys;
      assert IdFoldsTo(s, x, Fold(nick));
    }
  }

  /** A newcomer's contested nick, settled: the nick it ends with is free in both tables. */
  lemma ArbitratedKeeps(
    s: Server, uuid: string, nick: string, ts: nat, ident: string, ip: string, sid: string, service: bool, now: nat)
    requires NamesOk(s) && FreshId(s, uuid) && NotAnothersId(s, nick, uuid)
    ensures var (t, final) := Arbitrated(s, uuid, nick, ts, ident, ip, sid, service, now);
      && NamesOk(t) && SameIds(s, t) && FreshId(t, uuid) && NotAnothersId(t, final, uuid)
      && Fold(final) !in t.nickIndex && Fold(final) !in t.remoteNick
  {
    hide Fold, NamesOk, ResolveLocal, ResolveRemote;
    var (s1, lost1) := match FindNick(s, nick)
                       case Some(l) => ResolveLocal(s, l, ts, ident, ip, service, now)
                       case None => (s, false);
    assert uuid !in s.uuidLocal by { assert !IdFoldsTo(s, uuid, Fold(uuid)); }
    if Fold(nick) in s.nickIndex {
      ResolveLocalKeeps(s, nick, uuid, ts, ident, ip, service, now);
    }
    var nick1 := if lost1 then uuid else nick;
    StaysFresh(s, s1, uuid);
    StaysUnclaimed(s, s1, nick, uuid);
    SecondRound(s1, uuid, nick1, ts, ident, ip, sid);
  }

  lemma SecondRound(s1: Server, uuid: string, nick1: string, ts: nat, ident: string, ip: string, sid: string)
    requires NamesOk(s1) && FreshId(s1, uuid) && NotAnothersId(s1, nick1, uuid) && Fold(nick1) !in s1.nickIndex
    ensures var (t, final) :=
        if Fold(nick1) in s1.remoteNick && s1.remoteNick[Fold(nick1)] != uuid then
          var (s2, lost2) := ResolveRemote(s1, s1.remoteNick[Fold(nick1)], ts, ident, ip, sid);
          (s2, if lost2 then uuid else nick1)
        else (s1, nick1);
      && NamesOk(t) && SameIds(s1, t) && FreshId(t, uuid) && NotAnothersId(t, final, uuid)
      && Fold(final) !in t.nickIndex && Fold(final) !in t.remoteNick
  {
    hide Fold, IdInv, ResolveRemote;
    var f := Fold(nick1);
    if f in s1.remoteNick {
      var holder := s1.remoteNick[f];
      assert !IdFoldsTo(s1, uuid, Fold(uuid));
      assert OwnsRemote(s1.remoteUsers, holder, f) by { assert Maps(s1.remoteNick, f, holder); }
      ResolveRemoteKeeps(s1, nick1, uuid, ts, ident, ip, sid);
      var s2 := ResolveRemote(s1, holder, ts, ident, ip, sid).0;
      StaysFresh(s1, s2, uuid);
      StaysUnclaimed(s1, s2, nick1, uuid);
    }
  }

  lemma UidRecvKeeps(
    s: Server, via: Uid, sid: string, uuid: string, ts: nat, nick: string, ident: string, ip: string, now: nat)
    requires NamesOk(s) && (uuid !in s.remoteUsers ==> FreshId(s, uuid) && NotAnothersId(s, nick, uuid))
    ensures NamesOk(UidRecv(s, via, sid, uuid, ts, nick, ident, ip, now))
  {
    hide Fold, NamesOk, Arbitrated, SourceBehind, ServerIsService, FreshId, NotAnothersId;
    if uuid !in s.remoteUsers {
      ArbitratedKeeps(s, uuid, nick, ts, ident, ip, sid, ServerIsService(s, sid), now);
      var (t, final) := Arbitrated(s, uuid, nick, ts, ident, ip, sid, ServerIsService(s, sid), now);
      AddRemoteKeeps(t, uuid, RemoteUser(final, ts, ident, ip, sid, via));
    }
  }

  lemma NickRecvKeeps(s: Server, via: Uid, uuid: string, newnick: string, ts: nat, now: nat)
    requires NamesOk(s) && NotAnothersId(s, newnick, uuid)
    ensures NamesOk(NickRecv(s, via, uuid, newnick, ts, now))
  {
    hide Fold, NickInv, ResolveLocal, ResolveRemote, UuidIsService, IdFoldsTo;
    if SourcedVia(s, uuid, via) {
      var r := s.remoteUsers[uuid];
      assert uuid !in s.uuidLocal;
      if Fold(newnick) in s.nickIndex {
        ResolveLocalKeeps(s, newnick, uuid, ts, r.ident, r.ip, UuidIsService(s, uuid), now);
      }
      var (s1, lost1) := match FindNick(s, newnick)
                         case Some(l) => ResolveLocal(s, l, ts, r.ident, r.ip, UuidIsService(s, uuid), now)
                         case None => (s, false);
      StaysUnclaimed(s, s1, newnick, uuid);
      if !lost1 {
        TakeNick(s1, uuid, newnick, ts, r.ident, r.ip, r.sid);
      }
    }
  }

  lemma TakeNick(s1: Server, uuid: string, newnick: string, ts: nat, ident: string, ip: string, sid: string)
    requires NamesOk(s1) && NotAnothersId(s1, newnick, uuid) && uuid in s1.remoteUsers && Fold(newnick) !in s1.nickIndex
    ensures var (s2, lost2) :=
        if Fold(newnick) in s1.remoteNick && s1.remoteNick[Fold(newnick)] != uuid
        then ResolveRemote(s1, s1.remoteNick[Fold(newnick)], ts, ident, ip, sid)
        else (s1, false);
      NamesOk(s2) && (!lost2 && uuid in s2.remoteUsers ==> NamesOk(Renamed(s2, uuid, newnick, ts)))
  {
    hide Fold, NamesOk, ResolveRemote, NotAnothersId;
    var s2 := s1;
    if Fold(newnick) in s1.remoteNick && s1.remoteNick[Fold(newnick)] != uuid {
      ResolveRemoteKeeps(s1, newnick, uuid, ts, ident, ip, sid);
      var (t, lost2) := ResolveRemote(s1, s1.remoteNick[Fold(newnick)], ts, ident, ip, sid);
      StaysUnclaimed(s1, t, newnick, uuid);
      if !lost2 && uuid in t.remoteUsers {
        RenamedKeeps(t, uuid, newnick, ts);
      }
    } else {
      RenamedKeeps(s1, uuid, newnick, ts);
    }
  }

  lemma SaveRecvKeeps(s: Server, target: string, ts: nat, now: nat)
    requires NamesOk(s)
    ensures NamesOk(SaveRecv(s, target, ts, now))
  {
    hide Fold, SetNick;
    if target in s.uuidLocal && s.uuidLocal[target] in s.users {
      var u := s.uuidLocal[target];
      OwnIdFree(s, u);
      SetNickKeeps(s, u, s.users[u].uuid, now);
    }
  }

  /** What channel, link and registration steps leave alone. */
  ghost predicate SameNames(s: Server, t: Server) {
    && t.users.Keys == s.users.Keys && t.nickIndex == s.nickIndex && t.uuidLocal == s.uuidLocal
    && (forall u :: u in s.users ==> t.users[u].nick == s.users[u].nick && t.users[u].uuid == s.users[u].uuid)
    && t.remoteUsers == s.remoteUsers && t.remoteNick == s.remoteNick
  }

  lemma NamesFrame(s: Server, t: Server)
    requires NamesOk(s) && SameNames(s, t)
    ensures NamesOk(t)
  {
    hide Fold;
    forall u, f ensures OwnsLocal(t.users, u, f) <==> OwnsLocal(s.users, u, f) {
      assert u in t.users <==> u in s.users.Keys;
    }
    forall x, f ensures IdFoldsTo(t, x, f) <==> IdFoldsTo(s, x, f) {}
    forall x, u ensures Maps(t.uuidLocal, x, u) <==> u in t.users && t.users[u].uuid == x {
      assert u in t.users <==> u in s.users.Keys;
      assert Maps(s.uuidLocal, x, u) <==> u in s.users && s.users[u].uuid == x;
    }
  }

  // ----- why uuids must differ under folding -----

  /** A server with one registered peer and nobody known. */
  function Linked(sid: string, link: Uid, peer: string): Server {
    Server(sid, map[], map[], map[], map[], map[], map[], map[link := true], map[peer := RemoteServer(link, false)])
  }

  /**
   * Two uuids that differ only in case: introduced with one nick at one time, both fall back to their uuids, and the
   * second takes the first one's place in the table although both hold the folded nick.
   */
  lemma FoldedTwins(s: Server, link: Uid, peer: string, p: string, q: string, nick: string, ts: nat, now: nat)
    requires s.sid != peer && s == Linked(s.sid, link, peer) && |peer| == 3
    requires |p| == |q| == 9 && peer <= p && peer <= q && p != q && Fold(p) == Fold(q) && Fold(nick) != Fold(p)
    ensures var s1 := UidRecv(s, link, peer, p, ts, nick, "u", "a", now);
      var t := UidRecv(s1, link, peer, q, ts, nick, "v", "b", now);
      OwnsRemote(t.remoteUsers, p, Fold(p)) && OwnsRemote(t.remoteUsers, q, Fold(p)) && !NickInv(t)
  {
    hide Fold;
    var s1 := UidRecv(s, link, peer, p, ts, nick, "u", "a", now);
    var first := RemoteUser(nick, ts, "u", "a", peer, link);
    assert s1 == s.(remoteNick := map[Fold(nick) := p], remoteUsers := map[p := first]);
    var s2 := SaveRemote(s1, p);
    assert s2.remoteNick == map[Fold(p) := p];
    var t := UidRecv(s1, link, peer, q, ts, nick, "v", "b", now);
    assert ResolveRemote(s1, p, ts, "v", "b", peer) == (s2, true);
    assert t.remoteNick == map[Fold(p) := q];
    assert OwnsRemote(t.remoteUsers, p, Fold(p)) && !Maps(t.remoteNick, Fold(p), p);
  }
}
