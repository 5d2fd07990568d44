/** Who holds a contested nick afterwards, said of the tables and of nothing but times and people. */
module NickOutcomes {
  import opened Wrappers
  import opened Channels
  import opened ServerState
  import opened NickInvariant
  import opened ServerEffects

  /** Two people, one nick: the earlier time keeps it. One person twice: the later one does. Equal times: neither. */
  predicate Keeps(mine: nat, other: nat, samePerson: bool) {
    if samePerson then mine > other else mine < other
  }

  predicate Serves(s: Server, sid: string) {
    sid in s.servers && s.servers[sid].isService
  }

  /** A well-formed UID line for a uuid nobody has, from the peer's own link. */
  ghost predicate Introduces(s: Server, via: Uid, sid: string, uuid: string, nick: string) {
    && NamesOk(s) && Speaks(s, sid, via) && |sid| == 3 && |uuid| == 9 && sid <= uuid && uuid !in s.remoteUsers
    && FreshId(s, uuid) && NotAnothersId(s, nick, uuid)
  }

  /** A user of ours keeps its nick, or is under its uuid from now on. */
  function LocalsAfter(s: Server, uid: Uid, keeps: bool, now: nat): map<Uid, User>
    requires uid in s.users
  {
    if keeps then s.users else s.users[uid := s.users[uid].(nick := s.users[uid].uuid, nickTs := now)]
  }

  /** A remote user keeps its nick, or our copy of it is under its uuid. */
  function RemotesAfter(s: Server, x: string, keeps: bool): map<string, RemoteUser>
    requires x in s.remoteUsers
  {
    if keeps then s.remoteUsers else s.remoteUsers[x := s.remoteUsers[x].(nick := x)]
  }

  /** Only nicks changed hands, and both indexes still say exactly who holds what. */
  ghost predicate OnlyNicks(s: Server, t: Server) {
    && NamesOk(t)
    && t == s.(users := t.users, nickIndex := t.nickIndex, remoteUsers := t.remoteUsers, remoteNick := t.remoteNick)
  }

  lemma FreshFold(s: Server, uuid: string)
    requires FreshId(s, uuid)
    ensures Fold(uuid) !in s.nickIndex && Fold(uuid) !in s.remoteNick
  {
  }

  lemma Disjoint(s: Server, f: string)
    requires NamesOk(s) && f in s.nickIndex
    ensures f !in s.remoteNick && s.nickIndex[f] in s.users
  {
    hide Fold, IdInv;
    assert Maps(s.nickIndex, f, s.nickIndex[f]);
    assert OwnsLocal(s.users, s.nickIndex[f], f);
  }

  lemma RemoteHolder(s: Server, f: string)
    requires NamesOk(s) && f in s.remoteNick
    ensures f !in s.nickIndex && s.remoteNick[f] in s.remoteUsers
  {
    hide Fold, IdInv;
    assert Maps(s.remoteNick, f, s.remoteNick[f]);
    assert OwnsRemote(s.remoteUsers, s.remoteNick[f], f);
  }

  lemma SpeaksBehind(s: Server, src: string, via: Uid)
    ensures SourceBehind(s, src, via) <==> Speaks(s, src, via)
    ensures forall sid :: ServerIsService(s, sid) <==> Serves(s, sid)
  {
  }

  // ----- one round of arbitration -----

  lemma AgainstLocal(s: Server, uid: Uid, ts: nat, ident: string, ip: string, now: nat)
    requires uid in s.users
    ensures var u := s.users[uid];
      var same := u.ident == ident && u.ip == ip;
      var (t, lost) := ResolveLocal(s, uid, ts, ident, ip, false, now);
      && t == s.(users := LocalsAfter(s, uid, Keeps(u.nickTs, ts, same), now), nickIndex := t.nickIndex)
      && lost == !Keeps(ts, u.nickTs, same)
  {
    hide Fold;
  }

  lemma AgainstRemote(s: Server, x: string, ts: nat, ident: string, ip: string, sid: string)
    requires x in s.remoteUsers && !Serves(s, sid) && !Serves(s, s.remoteUsers[x].sid)
    ensures var h := s.remoteUsers[x];
      var same := h.ident == ident && h.ip == ip;
      var (t, lost) := ResolveRemote(s, x, ts, ident, ip, sid);
      && t == s.(remoteUsers := RemotesAfter(s, x, Keeps(h.nickTs, ts, same)), remoteNick := t.remoteNick)
      && lost == !Keeps(ts, h.nickTs, same)
  {
    hide Fold;
  }

  /** Services win: theirs is kept, and whoever holds a nick they bring gives it up. */
  lemma ServicesWin(s: Server, uid: Uid, x: string, ts: nat, ident: string, ip: string, sid: string, now: nat)
    requires uid in s.users && x in s.remoteUsers
    ensures var (t, lost) := ResolveLocal(s, uid, ts, ident, ip, true, now);
      !lost && t == s.(users := LocalsAfter(s, uid, false, now), nickIndex := t.nickIndex)
    ensures Serves(s, sid) ==> var (t, lost) := ResolveRemote(s, x, ts, ident, ip, sid);
      !lost && t == s.(remoteUsers := RemotesAfter(s, x, false), remoteNick := t.remoteNick)
    ensures !Serves(s, sid) && Serves(s, s.remoteUsers[x].sid) ==>
      ResolveRemote(s, x, ts, ident, ip, sid) == (s, true)
  {
    hide Fold;
  }

  // ----- UID -----

  /** Nobody has the nick: the newcomer gets it. */
  lemma UidFree(
    s: Server, via: Uid, sid: string, uuid: string, ts: nat, nick: string, ident: string, ip: string, now: nat)
    requires Introduces(s, via, sid, uuid, nick) && Fold(nick) !in s.nickIndex && Fold(nick) !in s.remoteNick
    ensures UidRecv(s, via, sid, uuid, ts, nick, ident, ip, now) ==
      s.(remoteNick := s.remoteNick[Fold(nick) := uuid],
         remoteUsers := s.remoteUsers[uuid := RemoteUser(nick, ts, ident, ip, sid, via)])
  {
    hide Fold, NamesOk, FreshId, NotAnothersId, SourceBehind, Speaks;
    SpeaksBehind(s, sid, via);
  }

  /** One of our users has it, and no service is involved: each ends under the nick or under its own uuid, fairly. */
  lemma UidAgainstLocal(
    s: Server, via: Uid, sid: string, uuid: string, ts: nat, nick: string, ident: string, ip: string, now: nat)
    requires Introduces(s, via, sid, uuid, nick) && !Serves(s, sid) && Fold(nick) in s.nickIndex
    ensures s.nickIndex[Fold(nick)] in s.users
    ensures var t, uid := UidRecv(s, via, sid, uuid, ts, nick, ident, ip, now), s.nickIndex[Fold(nick)];
      var u := s.users[uid];
      var same := u.ident == ident && u.ip == ip;
      && OnlyNicks(s, t) && t.users == LocalsAfter(s, uid, Keeps(u.nickTs, ts, same), now)
      && t.remoteUsers ==
           s.remoteUsers[uuid := RemoteUser(if Keeps(ts, u.nickTs, same) then nick else uuid, ts, ident, ip, sid, via)]
  {
    hide Fold, NamesOk, FreshId, NotAnothersId, SourceBehind, Speaks, ResolveLocal, ServerIsService, Serves, Keeps;
    SpeaksBehind(s, sid, via);
    Disjoint(s, Fold(nick));
    FreshFold(s, uuid);
    var uid := s.nickIndex[Fold(nick)];
    AgainstLocal(s, uid, ts, ident, ip, now);
    UidRecvKeeps(s, via, sid, uuid, ts, nick, ident, ip, now);
    var (s1, lost) := ResolveLocal(s, uid, ts, ident, ip, false, now);
    assert Arbitrated(s, uuid, nick, ts, ident, ip, sid, false, now) == (s1, if lost then uuid else nick);
  }

  /** A remote user has it. */
  lemma UidAgainstRemote(
    s: Server, via: Uid, sid: string, uuid: string, ts: nat, nick: string, ident: string, ip: string, now: nat)
    requires Introduces(s, via, sid, uuid, nick) && Fold(nick) in s.remoteNick && !Serves(s, sid)
    requires var x := s.remoteNick[Fold(nick)]; x in s.remoteUsers ==> !Serves(s, s.remoteUsers[x].sid)
    ensures s.remoteNick[Fold(nick)] in s.remoteUsers
    ensures var t, x := UidRecv(s, via, sid, uuid, ts, nick, ident, ip, now), s.remoteNick[Fold(nick)];
      var h := s.remoteUsers[x];
      var same := h.ident == ident && h.ip == ip;
      && OnlyNicks(s, t) && t.users == s.users
      && t.remoteUsers == RemotesAfter(s, x, Keeps(h.nickTs, ts, same))
           [uuid := RemoteUser(if Keeps(ts, h.nickTs, same) then nick else uuid, ts, ident, ip, sid, via)]
  {
    hide Fold, NamesOk, FreshId, NotAnothersId, SourceBehind, Speaks, ResolveRemote, ServerIsService, Serves, Keeps;
    SpeaksBehind(s, sid, via);
    RemoteHolder(s, Fold(nick));
    var x := s.remoteNick[Fold(nick)];
    AgainstRemote(s, x, ts, ident, ip, sid);
    UidRecvKeeps(s, via, sid, uuid, ts, nick, ident, ip, now);
    var (s1, lost) := ResolveRemote(s, x, ts, ident, ip, sid);
    assert Arbitrated(s, uuid, nick, ts, ident, ip, sid, false, now) == (s1, if lost then uuid else nick);
  }

  // ----- NICK -----

  /** A remote user asks for a nick over its own link. */
  ghost predicate Asks(s: Server, via: Uid, uuid: string, nick: string) {
    NamesOk(s) && uuid in s.remoteUsers && s.remoteUsers[uuid].via == via && NotAnothersId(s, nick, uuid)
  }

  function Took(was: map<string, RemoteUser>, uuid: string, wins: bool, nick: string, ts: nat)
    : map<string, RemoteUser>
    requires uuid in was
  {
    if wins then was[uuid := was[uuid].(nick := nick, nickTs := ts)] else was
  }

  /** Nobody else has it: the user takes it. */
  lemma NickFree(s: Server, via: Uid, uuid: string, nick: string, ts: nat, now: nat)
    requires Asks(s, via, uuid, nick) && Fold(nick) !in s.nickIndex
    requires Fold(nick) in s.remoteNick ==> s.remoteNick[Fold(nick)] == uuid
    ensures var t := NickRecv(s, via, uuid, nick, ts, now);
      OnlyNicks(s, t) && t.users == s.users && t.remoteUsers == Took(s.remoteUsers, uuid, true, nick, ts)
  {
    hide Fold, NamesOk, NotAnothersId;
    NickRecvKeeps(s, via, uuid, nick, ts, now);
  }

  /** One of our users has it: fairly, but a user that loses keeps the nick it had. */
  lemma NickAgainstLocal(s: Server, via: Uid, uuid: string, nick: string, ts: nat, now: nat)
    requires Asks(s, via, uuid, nick) && Fold(nick) in s.nickIndex && !Serves(s, s.remoteUsers[uuid].sid)
    ensures s.nickIndex[Fold(nick)] in s.users
    ensures var t, r := NickRecv(s, via, uuid, nick, ts, now), s.remoteUsers[uuid];
      var u := s.users[s.nickIndex[Fold(nick)]];
      var same := u.ident == r.ident && u.ip == r.ip;
      && OnlyNicks(s, t)
      && t.users == LocalsAfter(s, s.nickIndex[Fold(nick)], Keeps(u.nickTs, ts, same), now)
      && t.remoteUsers == Took(s.remoteUsers, uuid, Keeps(ts, u.nickTs, same), nick, ts)
  {
    hide Fold, NamesOk, NotAnothersId, ResolveLocal, Keeps;
    Disjoint(s, Fold(nick));
    var uid, r := s.nickIndex[Fold(nick)], s.remoteUsers[uuid];
    AgainstLocal(s, uid, ts, r.ident, r.ip, now);
    NickRecvKeeps(s, via, uuid, nick, ts, now);
  }

  /** Another remote user has it. */
  lemma NickAgainstRemote(s: Server, via: Uid, uuid: string, nick: string, ts: nat, now: nat)
    requires Asks(s, via, uuid, nick) && Fold(nick) in s.remoteNick && s.remoteNick[Fold(nick)] != uuid
    requires !Serves(s, s.remoteUsers[uuid].sid)
    requires var x := s.remoteNick[Fold(nick)]; x in s.remoteUsers ==> !Serves(s, s.remoteUsers[x].sid)
    ensures s.remoteNick[Fold(nick)] in s.remoteUsers
    ensures var t, r, x := NickRecv(s, via, uuid, nick, ts, now), s.remoteUsers[uuid], s.remoteNick[Fold(nick)];
      var h := s.remoteUsers[x];
      var same := h.ident == r.ident && h.ip == r.ip;
      && OnlyNicks(s, t) && t.users == s.users
      && t.remoteUsers ==
           Took(RemotesAfter(s, x, Keeps(h.nickTs, ts, same)), uuid, Keeps(ts, h.nickTs, same), nick, ts)
  {
    hide Fold, NamesOk, NotAnothersId, ResolveRemote, Keeps;
    RemoteHolder(s, Fold(nick));
    var x, r := s.remoteNick[Fold(nick)], s.remoteUsers[uuid];
    AgainstRemote(s, x, ts, r.ident, r.ip, r.sid);
    NickRecvKeeps(s, via, uuid, nick, ts, now);
  }

  /** From anywhere but its own link a user is not renamed; nor is a UID taken that is malformed or already known. */
  lemma NotHeard(
    s: Server, via: Uid, sid: string, uuid: string, ts: nat, nick: string, ident: string, ip: string, now: nat)
    ensures !(uuid in s.remoteUsers && s.remoteUsers[uuid].via == via) ==> NickRecv(s, via, uuid, nick, ts, now) == s
    ensures !Speaks(s, sid, via) || |sid| != 3 || |uuid| != 9 || !(sid <= uuid) || uuid in s.remoteUsers ==>
      UidRecv(s, via, sid, uuid, ts, nick, ident, ip, now) == s
  {
    hide Fold, Arbitrated;
  }

  // ----- SAVE -----

  /** A SAVE with the time its user took the nick sends it to its uuid; any other does nothing. */
  lemma SaveOutcome(s: Server, target: string, ts: nat, now: nat)
    requires NamesOk(s)
    ensures var t := SaveRecv(s, target, ts, now);
      if exists u :: u in s.users && s.users[u].uuid == target && s.users[u].nickTs == ts
      then OnlyNicks(s, t) && t.remoteUsers == s.remoteUsers && target in s.uuidLocal &&
           s.uuidLocal[target] in s.users && t.users == LocalsAfter(s, s.uuidLocal[target], false, now)
      else t == s
  {
    hide Fold, NickInv;
    SaveRecvKeeps(s, target, ts, now);
    forall u | u in s.users && s.users[u].uuid == target ensures Maps(s.uuidLocal, target, u) {}
    if target in s.uuidLocal { assert Maps(s.uuidLocal, target, s.uuidLocal[target]); }
  }
}
