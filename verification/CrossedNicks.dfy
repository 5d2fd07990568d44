/** Two servers whose users hold one nick when they link: each arbitrates the other's UID on its own. */
module CrossedNicks {
  import opened Wrappers
  import opened Channels
  import opened ChannelMerge
  import opened ServerState
  import opened NickInvariant

  /** Seen from the other end the decision is the same: who yields here is who yields there. */
  lemma DecisionsMirror(x: nat, y: nat, same: bool)
    ensures var (d, e) := (CollisionDecision(x, y, same), CollisionDecision(y, x, same));
      d.0 == e.1 && d.1 == e.0 && (d.0 || d.1)
  {
  }

  /** A server with a local user `uid` and the link to `peer`, over which a fresh `uuid` is introduced. */
  ghost predicate Meets(s: Server, uid: Uid, via: Uid, peer: string, uuid: string, nick: string) {
    && NamesOk(s) && uid in s.users && s.users[uid].nick != "" && Fold(s.users[uid].nick) == Fold(nick)
    && SourceBehind(s, peer, via) && !ServerIsService(s, peer)
    && |peer| == 3 && |uuid| == 9 && peer <= uuid && uuid !in s.remoteUsers
    && FreshId(s, uuid) && NotAnothersId(s, nick, uuid)
  }

  /** What one server shows of the two: its own user, the other one, and when its own took the nick. */
  ghost predicate Shows(
    s: Server, uid: Uid, own: User, ownNick: string, ts: nat, via: Uid, uuid: string, nick: string)
  {
    && NamesOk(s) && uid in s.users && s.users[uid].uuid == own.uuid
    && s.users[uid].nick == ownNick && s.users[uid].nickTs == ts
    && SourcedVia(s, uuid, via) && s.remoteUsers[uuid].nick == nick
  }

  function Named(lost: bool, id: string, nick: string): string {
    if lost then id else nick
  }

  /** The UID of a user with a local holder's nick: each keeps its nick or goes under its uuid, as decided. */
  lemma UidAgainstHolder(
    s: Server, uid: Uid, via: Uid, peer: string, uuid: string, ts: nat, nick: string, ident: string, ip: string,
    now: nat)
    requires Meets(s, uid, via, peer, uuid, nick)
    ensures var t, u := UidRecv(s, via, peer, uuid, ts, nick, ident, ip, now), s.users[uid];
      var d := CollisionDecision(u.nickTs, ts, u.ident == ident && u.ip == ip);
      Shows(t, uid, u, Named(d.0, u.uuid, u.nick), if d.0 then now else u.nickTs, via, uuid, Named(d.1, uuid, nick))
  {
    hide Fold, IdInv, FreshId, NotAnothersId, CollisionDecision, SourceBehind, ServerIsService;
    UidRecvKeeps(s, via, peer, uuid, ts, nick, ident, ip, now);
    var f, u := Fold(nick), s.users[uid];
    assert OwnsLocal(s.users, uid, f);
    assert Maps(s.nickIndex, f, uid);
    var (s1, lost) := ResolveLocal(s, uid, ts, ident, ip, false, now);
    assert s1.remoteNick == s.remoteNick;
    var nick1 := if lost then uuid else nick;
    assert Fold(nick1) !in s1.remoteNick by { FreshHere(s, uuid); }
    assert Arbitrated(s, uuid, nick, ts, ident, ip, peer, false, now) == (s1, nick1);
  }

  lemma FreshHere(s: Server, uuid: string)
    requires FreshId(s, uuid)
    ensures Fold(uuid) !in s.remoteNick
  {
  }

  /** A NICK to the user's own uuid is never contested. */
  lemma NickToId(
    s: Server, uid: Uid, own: User, ownNick: string, ts: nat, via: Uid, uuid: string, nick: string, there: nat,
    here: nat)
    requires Shows(s, uid, own, ownNick, ts, via, uuid, nick)
    ensures Shows(NickRecv(s, via, uuid, uuid, there, here), uid, own, ownNick, ts, via, uuid, uuid)
  {
    hide Fold, NickInv, IdInv, NotAnothersId;
    OwnRemoteIdFree(s, uuid);
    NickRecvKeeps(s, via, uuid, uuid, there, here);
  }

  /** A SAVE takes effect iff it carries the time its user took the nick. */
  lemma SaveOwn(
    s: Server, uid: Uid, own: User, ownNick: string, ts: nat, via: Uid, uuid: string, nick: string, t: nat, now: nat)
    requires Shows(s, uid, own, ownNick, ts, via, uuid, nick)
    ensures Shows(SaveRecv(s, own.uuid, t, now), uid, own, Named(ts == t, own.uuid, ownNick),
                  if ts == t then now else ts, via, uuid, nick)
  {
    hide Fold, NickInv;
    assert Maps(s.uuidLocal, own.uuid, uid);
    SaveRecvKeeps(s, own.uuid, t, now);
  }

  // Each server has its own clock: `here` is this one's, `there` the other's.

  /** The lines the other server sends back: NICK if its own user yielded, SAVE if ours must. */
  function Answered(
    s: Server, via: Uid, uuid: string, own: User, yielded: bool, mustYield: bool, here: nat, there: nat): Server
  {
    var s1 := if yielded then NickRecv(s, via, uuid, uuid, there, here) else s;
    if mustYield then SaveRecv(s1, own.uuid, own.signon, here) else s1
  }

  /** The other user obeyed our SAVE, so its own NICK arrives. */
  function Confirmed(s: Server, via: Uid, uuid: string, saved: bool, here: nat, there: nat): Server {
    if saved then NickRecv(s, via, uuid, uuid, there, here) else s
  }

  /** One end, from the crossing UIDs to the last line: `d` was decided here, `e` at the other end. */
  function Settled(
    s: Server, via: Uid, peer: string, own: User, other: User, d: (bool, bool), e: (bool, bool), here: nat,
    there: nat): Server
  {
    var s1 := UidRecv(s, via, peer, other.uuid, other.signon, other.nick, other.ident, other.ip, here);
    var s2 := Answered(s1, via, other.uuid, own, e.0, e.1, here, there);
    Confirmed(s2, via, other.uuid, Saved(other, e.0, d.1, there), here, there)
  }

  /** Whether `user` obeys the SAVE it is sent: only if the time it took its nick is its sign-on time. */
  predicate Saved(user: User, yielded: bool, told: bool, now: nat) {
    told && (if yielded then now else user.nickTs) == user.signon
  }

  lemma SettledShows(
    s: Server, uid: Uid, via: Uid, peer: string, other: User, d: (bool, bool), e: (bool, bool), here: nat,
    there: nat)
    requires uid in s.users && Meets(s, uid, via, peer, other.uuid, other.nick)
    requires d == CollisionDecision(s.users[uid].nickTs, other.signon,
                                    s.users[uid].ident == other.ident && s.users[uid].ip == other.ip)
    ensures var t, own := Settled(s, via, peer, s.users[uid], other, d, e, here, there), s.users[uid];
      && uid in t.users && other.uuid in t.remoteUsers
      && t.users[uid].nick == Named(d.0 || Saved(own, d.0, e.1, here), own.uuid, own.nick)
      && t.remoteUsers[other.uuid].nick == Named(d.1 || e.0 || Saved(other, e.0, d.1, there), other.uuid, other.nick)
  {
    hide Meets, UidRecv, NickRecv, SaveRecv, CollisionDecision, NamesOk;
    var own := s.users[uid];
    UidAgainstHolder(s, uid, via, peer, other.uuid, other.signon, other.nick, other.ident, other.ip, here);
    var s1 := UidRecv(s, via, peer, other.uuid, other.signon, other.nick, other.ident, other.ip, here);
    var ts, ownNick := if d.0 then here else own.nickTs, Named(d.0, own.uuid, own.nick);
    var nick := Named(d.1, other.uuid, other.nick);
    var s2, nick2 := s1, nick;
    if e.0 {
      NickToId(s1, uid, own, ownNick, ts, via, other.uuid, nick, there, here);
      s2, nick2 := NickRecv(s1, via, other.uuid, other.uuid, there, here), other.uuid;
    }
    var s3, ownNick3, ts3 := s2, ownNick, ts;
    if e.1 {
      SaveOwn(s2, uid, own, ownNick, ts, via, other.uuid, nick2, own.signon, here);
      s3 := SaveRecv(s2, own.uuid, own.signon, here);
      ownNick3, ts3 := Named(ts == own.signon, own.uuid, ownNick), if ts == own.signon then here else ts;
    }
    if Saved(other, e.0, d.1, there) {
      NickToId(s3, uid, own, ownNick3, ts3, via, other.uuid, nick2, there, here);
    }
  }

  /** Sent to its uuid by the other end alone, a user that took its nick after signing on does not follow. */
  predicate Ignores(user: User, decidedHere: bool, decidedThere: bool) {
    decidedThere && !decidedHere && user.nickTs != user.signon
  }

  /**
   * The introductions cross, each carrying its user's sign-on time, while each server compares it with the time its
   * own user took the nick; the servers' clocks read `na` and `nb`. Once every NICK and SAVE that follows has arrived,
   * both servers show the same two nicks iff neither user ignores the other end's decision.
   */
  lemma CrossedUidsSettle(a: Server, b: Server, x: Uid, y: Uid, la: Uid, lb: Uid, na: nat, nb: nat)
    requires x in a.users && y in b.users
    requires Meets(a, x, la, b.sid, b.users[y].uuid, b.users[y].nick)
    requires Meets(b, y, lb, a.sid, a.users[x].uuid, a.users[x].nick)
    ensures var u, v := a.users[x], b.users[y];
      var same := u.ident == v.ident && u.ip == v.ip;
      var d, e := CollisionDecision(u.nickTs, v.signon, same), CollisionDecision(v.nickTs, u.signon, same);
      var a', b' := Settled(a, la, b.sid, u, v, d, e, na, nb), Settled(b, lb, a.sid, v, u, e, d, nb, na);
      && x in a'.users && v.uuid in a'.remoteUsers && y in b'.users && u.uuid in b'.remoteUsers
      && ((a'.users[x].nick == b'.remoteUsers[u.uuid].nick && a'.remoteUsers[v.uuid].nick == b'.users[y].nick)
          <==> !Ignores(u, d.0, e.1) && !Ignores(v, e.0, d.1))
  {
    hide Meets, Settled, CollisionDecision;
    var u, v := a.users[x], b.users[y];
    var same := u.ident == v.ident && u.ip == v.ip;
    var d, e := CollisionDecision(u.nickTs, v.signon, same), CollisionDecision(v.nickTs, u.signon, same);
    SettledShows(a, x, la, b.sid, v, d, e, na, nb);
    SettledShows(b, y, lb, a.sid, u, e, d, nb, na);
    NickIsNotId(a, x, la, b.sid, v.uuid, v.nick);
    NickIsNotId(b, y, lb, a.sid, u.uuid, u.nick);
  }

  /** Users who took their nicks at sign-on time always settle, and both ends decide alike. */
  lemma SignOnNicksSettle(u: User, v: User, same: bool)
    requires u.nickTs == u.signon && v.nickTs == v.signon
    ensures var d, e := CollisionDecision(u.nickTs, v.signon, same), CollisionDecision(v.nickTs, u.signon, same);
      !Ignores(u, d.0, e.1) && !Ignores(v, e.0, d.1) && d.0 == e.1 && d.1 == e.0
  {
    DecisionsMirror(u.signon, v.signon, same);
  }

  /** A linked server with one user. */
  function Lone(sid: string, uuid: string, nick: string, nickTs: nat, signon: nat, link: Uid, peer: string): Server {
    Server(sid, map[0 := User(uuid, nick, nickTs, signon, "me", "home", true, {})], map[Fold(nick) := 0],
           map[uuid := 0], map[], map[], map[], map[link := true], map[peer := RemoteServer(link, false)])
  }

  lemma LoneMeets(
    sid: string, uuid: string, nick: string, nickTs: nat, signon: nat, link: Uid, peer: string, other: string)
    requires |peer| == 3 && |other| == 9 && peer <= other && uuid != "" && nick != ""
    requires Fold(uuid) != Fold(nick) && Fold(other) != Fold(nick) && Fold(other) != Fold(uuid)
    ensures Meets(Lone(sid, uuid, nick, nickTs, signon, link, peer), 0, link, peer, other, nick)
  {
    hide Fold;
    var s := Lone(sid, uuid, nick, nickTs, signon, link, peer);
    forall f, u ensures Maps(s.nickIndex, f, u) <==> OwnsLocal(s.users, u, f) {}
    forall f, r ensures !Maps(s.remoteNick, f, r) && !OwnsRemote(s.remoteUsers, r, f) {}
    forall x, f ensures IdFoldsTo(s, x, f) <==> x == uuid && f == Fold(uuid) {}
    forall x, u ensures Maps(s.uuidLocal, x, u) <==> u in s.users && s.users[u].uuid == x {}
  }

  /**
   * Otherwise one person's two sessions split: each end decides that the other's user yields, neither user follows,
   * and each server shows its own user under the nick the other server took away.
   */
  lemma LateNicksSplit(p: nat, q: nat, r: nat, t: nat, na: nat, nb: nat)
    requires q < r && t < p && p != q && r != t
    ensures
      var a, b := Lone("1AA", "1AAAAAAAA", "ann", p, q, 7, "2BB"), Lone("2BB", "2BBAAAAAA", "ann", r, t, 7, "1AA");
      var u, v := a.users[0], b.users[0];
      var d, e := CollisionDecision(p, t, true), CollisionDecision(r, q, true);
      var a', b' := Settled(a, 7, "2BB", u, v, d, e, na, nb), Settled(b, 7, "1AA", v, u, e, d, nb, na);
      && Meets(a, 0, 7, "2BB", v.uuid, v.nick) && Meets(b, 0, 7, "1AA", u.uuid, u.nick)
      && 0 in a'.users && v.uuid in a'.remoteUsers && 0 in b'.users && u.uuid in b'.remoteUsers
      && a'.users[0].nick == "ann" != b'.remoteUsers[u.uuid].nick
      && b'.users[0].nick == "ann" != a'.remoteUsers[v.uuid].nick
  {
    hide Settled, Meets, Lone;
    var a, b := Lone("1AA", "1AAAAAAAA", "ann", p, q, 7, "2BB"), Lone("2BB", "2BBAAAAAA", "ann", r, t, 7, "1AA");
    LoneUser("1AA", "1AAAAAAAA", "ann", p, q, 7, "2BB");
    LoneUser("2BB", "2BBAAAAAA", "ann", r, t, 7, "1AA");
    var d, e := CollisionDecision(p, t, true), CollisionDecision(r, q, true);
    IdsDiffer();
    LoneMeets("1AA", "1AAAAAAAA", "ann", p, q, 7, "2BB", "2BBAAAAAA");
    LoneMeets("2BB", "2BBAAAAAA", "ann", r, t, 7, "1AA", "1AAAAAAAA");
    SettledShows(a, 0, 7, "2BB", b.users[0], d, e, na, nb);
    SettledShows(b, 0, 7, "1AA", a.users[0], e, d, nb, na);
  }

  lemma LoneUser(sid: string, uuid: string, nick: string, nickTs: nat, signon: nat, link: Uid, peer: string)
    ensures var s := Lone(sid, uuid, nick, nickTs, signon, link, peer);
      0 in s.users && s.users[0] == User(uuid, nick, nickTs, signon, "me", "home", true, {})
  {
  }

  lemma IdsDiffer()
    ensures Fold("1AAAAAAAA") != Fold("ann") && Fold("2BBAAAAAA") != Fold("ann")
    ensures Fold("1AAAAAAAA") != Fold("2BBAAAAAA")
    ensures "1AA" <= "1AAAAAAAA" && "2BB" <= "2BBAAAAAA" && "1AAAAAAAA" != "ann" && "2BBAAAAAA" != "ann"
  {
    assert |Fold("ann")| == 3 && |Fold("1AAAAAAAA")| == 9 && |Fold("2BBAAAAAA")| == 9;
    assert Fold("1AAAAAAAA")[0] == '1' && Fold("2BBAAAAAA")[0] == '2';
    assert |"ann"| == 3 && |"1AAAAAAAA"| == 9 && |"2BBAAAAAA"| == 9;
  }

  /** A contested nick is nobody's uuid yet. */
  lemma NickIsNotId(s: Server, uid: Uid, via: Uid, peer: string, uuid: string, nick: string)
    requires Meets(s, uid, via, peer, uuid, nick)
    ensures s.users[uid].nick != s.users[uid].uuid
  {
    hide Fold, NickInv;
    var x := s.users[uid].uuid;
    assert Maps(s.uuidLocal, x, uid);
    assert IdFoldsTo(s, x, Fold(x));
    assert x != uuid;
  }
}
