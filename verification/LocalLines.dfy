/** The lines a server sends when its own users act, and why they tell the peer exactly what changed. */
module LocalLines {
  import opened Wrappers
  import opened Channels
  import opened ChannelMerge
  import opened ServerState
  import opened MembershipInvariant
  import opened NickInvariant
  import opened ServerRuns
  import opened MembershipViews

  /** The steps a server's own users take in the two-server model. */
  predicate IsLocal(e: Event) {
    e.Connects? || e.Registers? || e.TakesNick? || e.Joins? || e.Parts? || e.ForceParted? || e.ModeChanged? ||
    e.Quits?
  }

  /** `propagate_join`: a new channel goes out as FJOIN with its modes, an existing one as IJOIN. */
  function JoinLines(s: Server, t: Server, uid: Uid, key: string): seq<Wire> {
    if uid !in s.users || key in s.users[uid].channels || uid !in t.users || key !in t.users[uid].channels then []
    else if key !in t.channels || uid !in t.channels[key].members then []
    else
      var ch, uuid := t.channels[key], t.users[uid].uuid;
      var letters := ModeLetters(ch.members[uid]);
      if key !in s.channels
      then [ChanW(ch.name, FJoin(Burst(ch.created, Render(ch.modes), [Entry(letters, uuid)])))]
      else [IjoinW(uuid, ch.name, ch.created, letters)]
  }

  function PartLines(s: Server, uid: Uid, chan: string): seq<Wire> {
    if uid in s.users && s.users[uid].registered then [PartW(s.users[uid].uuid, chan)] else []
  }

  /** What one local step sends on a registered link. */
  function Sends(s: Server, e: Event): seq<Wire> {
    match e
    case Registers(uid, ident) =>
      if uid in s.users && !s.users[uid].registered then
        var u := s.users[uid];
        [UidW(u.uuid, u.signon, u.nick, ident, u.ip)]
      else []
    case TakesNick(uid, newnick, now) =>
      if uid in s.users && s.users[uid].registered then [NickW(s.users[uid].uuid, newnick, now)] else []
    case Joins(uid, name, _, _, _) => JoinLines(s, Step(s, e), uid, Fold(name))
    case Parts(uid, target) =>
      if uid in s.users && Fold(target) in s.users[uid].channels then PartLines(s, uid, target) else []
    case ForceParted(uid, chan) => if IsMember(s, uid, Fold(chan)) then PartLines(s, uid, chan) else []
    case ModeChanged(uid, chan, change, allowed) =>
      if ModeApplies(s, uid, chan, change, allowed)
      then [ChanW(chan, FMode(s.channels[Fold(chan)].created, change))]
      else []
    case Quits(uid) => if uid in s.users && s.users[uid].registered then [QuitW(s.users[uid].uuid)] else []
    case _ => []
  }

  /** Local uuids are exact. */
  ghost predicate LocalIds(s: Server) {
    forall x, u :: Maps(s.uuidLocal, x, u) <==> u in s.users && s.users[u].uuid == x
  }

  /** Every channel is filed under its folded name. */
  ghost predicate ChanNamed(channels: map<string, Channel>) {
    forall k :: k in channels ==> NamedAs(channels[k].name, k)
  }

  predicate NamedAs(name: string, key: string) {
    name != "" && name[0] == '#' && Fold(name) == key
  }

  /** Joins are by registered users; a new connection gets an unused uid and uuid. */
  ghost predicate LocalOk(s: Server, e: Event) {
    && IsLocal(e)
    && (e.Connects? ==> e.uid !in s.users && e.uuid !in s.uuidLocal && OfPeer(e.uuid, s.sid))
    && (e.Joins? ==> e.uid in s.users ==> s.users[e.uid].registered)
  }

  ghost predicate Tidy(s: Server) {
    MemberInv(s) && LocalIds(s) && ChanNamed(s.channels)
  }

  /** Replaying what a step sends over the old view of our users gives the new one. */
  lemma SendsReplay(s: Server, e: Event)
    requires Tidy(s) && LocalOk(s, e)
    ensures ReplayAll(LocalView(s), Sends(s, e)) == LocalView(Step(s, e))
  {
    hide Tidy, LocalView, Connect, Register, SetNick, Join, Part, ForcePart, ChangeMode, RemoveUser, Replay, JoinLines,
      Fold, IsMember;
    match e {
      case Connects(uid, uuid, ip, now) => ConnectReplays(s, uid, uuid, ip, now);
      case Registers(uid, ident) => RegisterReplays(s, uid, ident);
      case TakesNick(uid, newnick, now) => TakesNickReplays(s, e);
      case Joins(uid, name, maxlen, admitted, now) => JoinReplays(s, e);
      case Parts(uid, target) => PartsReplay(s, uid, target);
      case ForceParted(uid, chan) => PartsReplay(s, uid, chan);
      case ModeChanged(uid, chan, change, allowed) => ModeReplays(s, e);
      case Quits(uid) => QuitsReplay(s, uid);
    }
  }

  lemma ReplayOne(v: View, w: Wire)
    ensures ReplayAll(v, [w]) == Replay(v, w)
  {
    hide Replay;
    assert ReplayAll(Replay(v, w), []) == Replay(v, w);
  }

  /** A mode change leaves everybody where they are. */
  lemma ModeReplays(s: Server, e: Event)
    requires e.ModeChanged?
    ensures ReplayAll(LocalView(s), Sends(s, e)) == LocalView(ChangeMode(s, e.uid, e.chan, e.change, e.allowed))
  {
    hide Fold, ChangedHere, LocalView, ReplayAll;
    var key := Fold(e.chan);
    if ModeApplies(s, e.uid, e.chan, e.change, e.allowed) {
      var w := ChanW(e.chan, FMode(s.channels[key].created, e.change));
      ReplayOne(LocalView(s), w);
      ChangedKeeps(s, s.channels[key], e.change);
      SameLocals(s, key, ChangedHere(s, s.channels[key], e.change));
    } else {
      assert ReplayAll(LocalView(s), []) == LocalView(s) by { ReplayNone(LocalView(s)); }
    }
  }

  lemma ReplayNone(v: View)
    ensures ReplayAll(v, []) == v
  {
  }

  lemma SameLocals(s: Server, key: string, ch: Channel)
    requires key in s.channels && ch.members.Keys == s.channels[key].members.Keys
    ensures LocalView(s.(channels := s.channels[key := ch])) == LocalView(s)
  {
    var t := s.(channels := s.channels[key := ch]);
    forall u ensures u in ch.members <==> u in s.channels[key].members {
      assert u in ch.members.Keys <==> u in s.channels[key].members.Keys;
    }
    SameView(LocalView(t), LocalView(s));
  }

  lemma ConnectReplays(s: Server, uid: Uid, uuid: string, ip: string, now: nat)
    requires Tidy(s) && uid !in s.users && uuid !in s.uuidLocal
    ensures LocalView(Connect(s, uid, uuid, ip, now)) == LocalView(s)
  {
    var t := Connect(s, uid, uuid, ip, now);
    forall k ensures !Holds(s.channels, k, uid) { assert !Lists(s.users, uid, k); }
    forall x | x in s.uuidLocal ensures s.uuidLocal[x] in s.users { assert Maps(s.uuidLocal, x, s.uuidLocal[x]); }
    forall k, x ensures (k, x) in LocalView(t).on <==> (k, x) in LocalView(s).on {
      assert !Holds(s.channels, k, uid);
    }
    SameView(LocalView(t), LocalView(s));
  }

  lemma RegisterReplays(s: Server, uid: Uid, ident: string)
    requires Tidy(s)
    ensures ReplayAll(LocalView(s), Sends(s, Registers(uid, ident))) == LocalView(Register(s, uid, ident))
  {
    var t := Register(s, uid, ident);
    if uid in s.users {
      var u := s.users[uid];
      assert Maps(s.uuidLocal, u.uuid, uid);
      forall x ensures x in LocalView(t).known <==> x in LocalView(s).known || x == u.uuid {
        if x in s.uuidLocal { assert Maps(s.uuidLocal, x, s.uuidLocal[x]); }
      }
      assert LocalView(t) == LocalView(s).(known := LocalView(s).known + {u.uuid});
      if !u.registered {
        ReplayOne(LocalView(s), UidW(u.uuid, u.signon, u.nick, ident, u.ip));
      }
    }
  }

  lemma TakesNickReplays(s: Server, e: Event)
    requires e.TakesNick?
    ensures ReplayAll(LocalView(s), Sends(s, e)) == LocalView(SetNick(s, e.uid, e.newnick, e.now))
  {
    hide LocalView, SetNick, OnlyNames;
    SetNickOnly(s, e.uid, e.newnick, e.now);
    OnlyNamesLocal(s, SetNick(s, e.uid, e.newnick, e.now));
    if e.uid in s.users {
      ReplayOne(LocalView(s), NickW(s.users[e.uid].uuid, e.newnick, e.now));
    }
  }

  lemma JoinReplays(s: Server, e: Event)
    requires e.Joins? && Tidy(s) && LocalOk(s, e)
    ensures ReplayAll(LocalView(s), Sends(s, e)) == LocalView(Step(s, e))
  {
    hide Fold, ValidChan, ModeLetters, Render, LocalView, MemberInv, Replay;
    var t, key := Step(s, e), Fold(e.name);
    if ValidChan(e.name, e.maxlen) && e.uid in s.users && key !in s.users[e.uid].channels && e.admitted {
      var uuid := s.users[e.uid].uuid;
      JoinedView(s, e);
      JoinMeaning(s, e, key, uuid, LocalView(s));
      var w := Sends(s, e)[0];
      assert Sends(s, e) == [w];
      ReplayOne(LocalView(s), w);
    } else {
      assert t == s && Sends(s, e) == [];
    }
  }

  predicate Enters(s: Server, e: Event)
    requires e.Joins?
  {
    && ValidChan(e.name, e.maxlen) && e.uid in s.users && Fold(e.name) !in s.users[e.uid].channels && e.admitted
  }

  lemma JoinedView(s: Server, e: Event)
    requires e.Joins? && Tidy(s) && LocalOk(s, e) && Enters(s, e)
    ensures var uuid := s.users[e.uid].uuid;
      && uuid in LocalView(s).known
      && LocalView(Step(s, e)) == LocalView(s).(on := LocalView(s).on + {(Fold(e.name), uuid)})
  {
    hide Fold, ValidChan, ChanNamed, RemotesKnown, LinksLive;
    var t, key, uuid := Step(s, e), Fold(e.name), s.users[e.uid].uuid;
    assert Maps(s.uuidLocal, uuid, e.uid);
    forall x | x in s.uuidLocal ensures x == uuid <==> s.uuidLocal[x] == e.uid {
      assert Maps(s.uuidLocal, x, s.uuidLocal[x]);
    }
    forall k, u ensures Holds(t.channels, k, u) <==> Holds(s.channels, k, u) || (k == key && u == e.uid) {}
    forall k, x ensures (k, x) in LocalView(t).on <==> (k, x) in LocalView(s).on || (k, x) == (key, uuid) {
      if x in s.uuidLocal {
        var u := s.uuidLocal[x];
        assert Holds(t.channels, k, u) <==> Holds(s.channels, k, u) || (k == key && x == uuid);
      }
    }
    SameView(LocalView(t), LocalView(s).(on := LocalView(s).on + {(key, uuid)}));
  }

  lemma JoinMeaning(s: Server, e: Event, key: string, uuid: string, v: View)
    requires e.Joins? && ChanNamed(s.channels) && Enters(s, e) && key == Fold(e.name) && uuid == s.users[e.uid].uuid
    requires uuid in v.known
    ensures |Sends(s, e)| == 1 && Replay(v, Sends(s, e)[0]) == v.(on := v.on + {(key, uuid)})
  {
    hide Fold, ValidChan, ModeLetters, Render;
    var t := Step(s, e);
    var ch := t.channels[key];
    var letters := ModeLetters(ch.members[e.uid]);
    if key in s.channels {
      assert NamedAs(s.channels[key].name, key);
      assert Sends(s, e) == [IjoinW(uuid, ch.name, ch.created, letters)];
    } else {
      var w := ChanW(ch.name, FJoin(Burst(ch.created, Render(ch.modes), [Entry(letters, uuid)])));
      assert Sends(s, e) == [w];
      OneEntry(Entry(letters, uuid), v.known, key);
    }
  }

  lemma OneEntry(entry: Entry, known: set<string>, key: string)
    requires entry.uuid in known
    ensures (set e | e in [entry] && e.uuid in known :: (key, e.uuid)) == {(key, entry.uuid)}
  {
    assert entry in [entry];
  }

  lemma LeftView(s: Server, uid: Uid, key: string)
    requires Tidy(s) && uid in s.users
    ensures LocalView(Leave(s, uid, key)) == LocalView(s).(on := LocalView(s).on - {(key, s.users[uid].uuid)})
  {
    hide Reap, ChanNamed, RemotesKnown, LinksLive, RegisteredOnly;
    var t, uuid := Leave(s, uid, key), s.users[uid].uuid;
    assert Maps(s.uuidLocal, uuid, uid);
    forall x | x in s.uuidLocal ensures x == uuid <==> s.uuidLocal[x] == uid {
      assert Maps(s.uuidLocal, x, s.uuidLocal[x]);
    }
    var c := WithoutLocal(s.channels, key, uid);
    ReapLocals(c);
    forall k, u ensures Holds(t.channels, k, u) <==> Holds(s.channels, k, u) && !(k == key && u == uid) {
      assert Holds(c, k, u) <==> Holds(t.channels, k, u);
    }
    forall k, x ensures (k, x) in LocalView(t).on <==> (k, x) in LocalView(s).on && (k, x) != (key, uuid) {
      if x in s.uuidLocal {
        var u := s.uuidLocal[x];
        assert Holds(t.channels, k, u) <==> Holds(s.channels, k, u) && !(k == key && x == uuid);
      }
    }
    SameView(LocalView(t), LocalView(s).(on := LocalView(s).on - {(key, uuid)}));
  }

  lemma PartsReplay(s: Server, uid: Uid, chan: string)
    requires Tidy(s)
    ensures ReplayAll(LocalView(s), Sends(s, Parts(uid, chan))) == LocalView(Part(s, uid, chan))
    ensures ReplayAll(LocalView(s), Sends(s, ForceParted(uid, chan))) == LocalView(ForcePart(s, uid, chan))
  {
    hide Fold, LocalView, Leave, ChanNamed, RemotesKnown, LinksLive, LocalIds;
    var key := Fold(chan);
    assert Lists(s.users, uid, key) <==> Holds(s.channels, key, uid);
    if Lists(s.users, uid, key) {
      LeftView(s, uid, key);
      ReplayOne(LocalView(s), PartW(s.users[uid].uuid, chan));
    }
  }

  lemma QuitsReplay(s: Server, uid: Uid)
    requires Tidy(s)
    ensures ReplayAll(LocalView(s), Sends(s, Quits(uid))) == LocalView(RemoveUser(s, uid))
  {
    hide Fold, Reap, ChanNamed, RemotesKnown, LinksLive;
    if uid in s.users {
      var t, u := RemoveUser(s, uid), s.users[uid];
      var uuid := u.uuid;
      assert Maps(s.uuidLocal, uuid, uid);
      forall x | x in s.uuidLocal ensures x == uuid <==> s.uuidLocal[x] == uid {
        assert Maps(s.uuidLocal, x, s.uuidLocal[x]);
      }
      ReplayOne(LocalView(s), QuitW(uuid));
      ReapLocals(DropFrom(s.channels, u.channels, uid));
      GoneLocals(s, uid);
      forall k, x ensures (k, x) in LocalView(t).on <==> (k, x) in LocalView(s).on && x != uuid {
        if x in s.uuidLocal && x != uuid {
          assert Holds(t.channels, k, s.uuidLocal[x]) <==> Holds(s.channels, k, s.uuidLocal[x]);
        }
      }
      SameView(LocalView(t), Replay(LocalView(s), QuitW(uuid)));
      if !u.registered {
        UnregisteredUnseen(s, uid);
      }
    }
  }

  lemma UnregisteredUnseen(s: Server, uid: Uid)
    requires Tidy(s) && uid in s.users && !s.users[uid].registered
    ensures Replay(LocalView(s), QuitW(s.users[uid].uuid)) == LocalView(s)
  {
    var uuid := s.users[uid].uuid;
    assert Maps(s.uuidLocal, uuid, uid);
    forall k ensures (k, uuid) !in LocalView(s).on {
      assert !Lists(s.users, uid, k);
      assert !Holds(s.channels, k, uid);
    }
    SameView(LocalView(s), Replay(LocalView(s), QuitW(uuid)));
  }

  lemma GoneLocals(s: Server, uid: Uid)
    requires uid in s.users
    ensures forall k, v :: v != uid ==> (Holds(RemoveUser(s, uid).channels, k, v) <==> Holds(s.channels, k, v))
  {
    hide Fold, Reap;
    var t, c := RemoveUser(s, uid), DropFrom(s.channels, s.users[uid].channels, uid);
    ReapLocals(c);
    forall k, v | v != uid ensures Holds(t.channels, k, v) <==> Holds(s.channels, k, v) {
      assert Holds(c, k, v) <==> Holds(s.channels, k, v);
    }
  }
}
