/** The netburst sent once a link is up tells the peer exactly the sender's own users and their channels. */
module Netburst {
  import opened Wrappers
  import opened Channels
  import opened ChannelMerge
  import opened ServerState
  import opened MembershipInvariant
  import opened NickInvariant
  import opened MembershipViews
  import opened LocalLines
  import opened CrossedBursts

  /** The order in which the tables are walked. */
  datatype Walk = Walk(users: seq<Uid>, channels: seq<string>, members: map<string, seq<Uid>>)

  ghost predicate Once<T>(xs: seq<T>) {
    forall j, k :: 0 <= j < k < |xs| ==> xs[j] != xs[k]
  }

  /** The walk visits every registered user, every channel (once) and every local member. */
  ghost predicate Covers(o: Walk, s: Server) {
    && (forall u :: u in o.users <==> u in s.users && s.users[u].registered)
    && (forall k :: k in o.channels <==> k in s.channels) && Once(o.channels)
    && (forall k :: k in s.channels ==> k in o.members && Order(o.members[k], s.channels[k]))
  }

  function UserLines(s: Server, us: seq<Uid>): seq<Wire>
    requires forall u :: u in us ==> u in s.users
    decreases |us|
  {
    if us == [] then []
    else
      var u := s.users[us[0]];
      [UidW(u.uuid, u.signon, u.nick, u.ident, u.ip)] + UserLines(s, us[1..])
  }

  function Sent(chan: string, lines: seq<Line>): seq<Wire> {
    if lines == [] then [] else [ChanW(chan, lines[0])] + Sent(chan, lines[1..])
  }

  function Uuids(s: Server): map<Uid, string> {
    map u | u in s.users :: s.users[u].uuid
  }

  /** The walk of one channel meets only its members, all known users. */
  ghost predicate Meets(s: Server, key: string, order: seq<Uid>) {
    key in s.channels && forall u :: u in order ==> u in s.channels[key].members && u in s.users
  }

  /** One channel; channels without members are not bursted. */
  function ChannelBurst(s: Server, key: string, order: seq<Uid>): seq<Wire>
    requires Meets(s, key, order)
  {
    if order == [] then []
    else
      var ch := s.channels[key];
      Sent(ch.name, BurstLines(ch, Entries(ch, Uuids(s), order)))
  }

  function ChannelBursts(s: Server, ks: seq<string>, members: map<string, seq<Uid>>): seq<Wire>
    requires forall k :: k in ks ==> k in members && Meets(s, k, members[k])
    decreases |ks|
  {
    if ks == [] then [] else ChannelBurst(s, ks[0], members[ks[0]]) + ChannelBursts(s, ks[1..], members)
  }

  ghost predicate Walkable(s: Server, o: Walk) {
    Covers(o, s) && forall k :: k in o.channels ==> Meets(s, k, o.members[k])
  }

  function BurstOf(s: Server, o: Walk): seq<Wire>
    requires Walkable(s, o)
  {
    UserLines(s, o.users) + ChannelBursts(s, o.channels, o.members)
  }

  lemma {:induction false} UserLinesReplay(s: Server, us: seq<Uid>, v: View)
    requires forall u :: u in us ==> u in s.users
    ensures ReplayAll(v, UserLines(s, us)) == v.(known := v.known + set u | u in us :: s.users[u].uuid)
    decreases |us|
  {
    if us == [] {
      assert v.known + (set u | u in us :: s.users[u].uuid) == v.known;
    } else {
      var u := s.users[us[0]];
      var next := v.(known := v.known + {u.uuid});
      UserLinesReplay(s, us[1..], next);
      assert us == [us[0]] + us[1..];
      assert next.known + (set y | y in us[1..] :: s.users[y].uuid) == v.known + (set y | y in us :: s.users[y].uuid);
    }
  }

  lemma {:induction false} SentReplay(chan: string, lines: seq<Line>, v: View)
    requires forall i :: 0 <= i < |lines| ==> lines[i].FMode?
    ensures ReplayAll(v, Sent(chan, lines)) == v
    decreases |lines|
  {
    if lines != [] {
      assert Replay(v, ChanW(chan, lines[0])) == v;
      SentReplay(chan, lines[1..], v);
    }
  }

  lemma {:induction false} MaskLinesModes(ts: nat, list: MaskList, masks: seq<string>)
    ensures forall i :: 0 <= i < |MaskLines(ts, list, masks)| ==> MaskLines(ts, list, masks)[i].FMode?
    decreases |masks|
  {
    if masks != [] { MaskLinesModes(ts, list, masks[1..]); }
  }

  lemma ChannelBurstReplay(s: Server, key: string, order: seq<Uid>, v: View)
    requires LocalIds(s) && ChanNamed(s.channels) && Meets(s, key, order) && Order(order, s.channels[key])
    requires forall u :: u in order ==> s.users[u].uuid in v.known
    ensures var r := ReplayAll(v, ChannelBurst(s, key, order));
      r.known == v.known && forall k, x :: (k, x) in r.on <==> (k, x) in v.on || (k == key && (k, x) in LocalView(s).on)
  {
    hide Fold, ModeLetters, LocalView, Render, Replay, Order, LocalIds;
    var ch := s.channels[key];
    LocalOn(s, key, order);
    if order != [] {
      assert NamedAs(ch.name, key);
      var entries := Entries(ch, Uuids(s), order);
      var tail := ModeLines(ch) + ListLines(ch);
      assert BurstLines(ch, entries) == [FJoin(Burst(ch.created, Render(ch.modes), entries))] + tail;
      var w := ChanW(ch.name, FJoin(Burst(ch.created, Render(ch.modes), entries)));
      assert ChannelBurst(s, key, order) == [w] + Sent(ch.name, tail);
      TailModes(ch);
      SentReplay(ch.name, tail, Replay(v, w));
      FjoinMeaning(s, key, order, v, w);
    } else {
      assert ReplayAll(v, []) == v;
    }
  }

  lemma FjoinMeaning(s: Server, key: string, order: seq<Uid>, v: View, w: Wire)
    requires Meets(s, key, order) && forall u :: u in order ==> s.users[u].uuid in v.known
    requires w.ChanW? && w.line.FJoin? && Fold(w.chan) == key
    requires w.line.burst.entries == Entries(s.channels[key], Uuids(s), order)
    ensures var r := Replay(v, w);
      r.known == v.known &&
      forall k, x :: (k, x) in r.on <==> (k, x) in v.on || (k == key && exists u :: u in order && s.users[u].uuid == x)
  {
    hide Fold, Uuids, ModeLetters;
    EntriesSet(s, key, order, v.known);
  }

  lemma TailModes(ch: Channel)
    ensures var tail := ModeLines(ch) + ListLines(ch); forall i :: 0 <= i < |tail| ==> tail[i].FMode?
  {
    MaskLinesModes(ch.created, Bans, ch.bans);
    MaskLinesModes(ch.created, Excepts, ch.excepts);
    MaskLinesModes(ch.created, Invex, ch.invex);
  }

  /** A channel's local members, by uuid, are the ones its walk meets. */
  lemma LocalOn(s: Server, key: string, order: seq<Uid>)
    requires LocalIds(s) && key in s.channels && Order(order, s.channels[key])
    requires forall u :: u in order ==> u in s.users
    ensures forall x :: (key, x) in LocalView(s).on <==> exists u :: u in order && s.users[u].uuid == x
  {
    forall x ensures (key, x) in LocalView(s).on <==> exists u :: u in order && s.users[u].uuid == x {
      if (key, x) in LocalView(s).on {
        assert Maps(s.uuidLocal, x, s.uuidLocal[x]);
        assert s.uuidLocal[x] in order;
      }
      if u :| u in order && s.users[u].uuid == x {
        assert Maps(s.uuidLocal, x, u);
      }
    }
  }

  lemma EntriesSet(s: Server, key: string, order: seq<Uid>, known: set<string>)
    requires Meets(s, key, order) && forall u :: u in order ==> s.users[u].uuid in known
    ensures var es := Entries(s.channels[key], Uuids(s), order);
      forall k, x :: (k, x) in (set e | e in es && e.uuid in known :: (key, e.uuid)) <==>
        k == key && exists u :: u in order && s.users[u].uuid == x
  {
    hide ModeLetters;
    var es := Entries(s.channels[key], Uuids(s), order);
    forall k, x ensures (k, x) in (set e | e in es && e.uuid in known :: (key, e.uuid)) <==>
      k == key && exists u :: u in order && s.users[u].uuid == x
    {
      if k == key {
        if u :| u in order && s.users[u].uuid == x {
          var j :| 0 <= j < |order| && order[j] == u;
          assert es[j] in es && es[j].uuid == x;
        }
        if e :| e in es && e.uuid == x {
          var j :| 0 <= j < |es| && es[j] == e;
          assert order[j] in order;
        }
      }
    }
  }

  lemma {:induction false} ChannelBurstsReplay(s: Server, ks: seq<string>, members: map<string, seq<Uid>>, v: View)
    requires LocalIds(s) && ChanNamed(s.channels)
    requires forall k :: k in ks ==> k in members && Meets(s, k, members[k]) && Order(members[k], s.channels[k])
    requires forall k, u :: k in ks && u in members[k] ==> u in s.users && s.users[u].uuid in v.known
    ensures var r := ReplayAll(v, ChannelBursts(s, ks, members));
      r.known == v.known && forall k, x :: (k, x) in r.on <==> (k, x) in v.on || (k in ks && (k, x) in LocalView(s).on)
    decreases |ks|
  {
    hide LocalView, ChannelBurst, Order, Replay, LocalIds, ChanNamed;
    if ks == [] {
      assert ReplayAll(v, []) == v;
    } else {
      var first := ChannelBurst(s, ks[0], members[ks[0]]);
      ChannelBurstReplay(s, ks[0], members[ks[0]], v);
      var next := ReplayAll(v, first);
      ChannelBurstsReplay(s, ks[1..], members, next);
      ReplayAppend(v, first, ChannelBursts(s, ks[1..], members));
      assert forall k :: k in ks <==> k == ks[0] || k in ks[1..];
    }
  }

  /** Replayed from nothing, the netburst is the sender's whole local view. */
  lemma BurstTellsAll(s: Server, o: Walk)
    requires Tidy(s) && Walkable(s, o)
    ensures ReplayAll(NOTHING, BurstOf(s, o)) == LocalView(s)
  {
    hide Order, Replay, ReplayAll, ChannelBursts, UserLines, Meets, LocalsInStep, RemotesKnown, LinksLive;
    UserLinesReplay(s, o.users, NOTHING);
    var v := ReplayAll(NOTHING, UserLines(s, o.users));
    assert v == NOTHING.(known := NOTHING.known + set u | u in o.users :: s.users[u].uuid);
    KnownAll(s, o);
    ReplayAppend(NOTHING, UserLines(s, o.users), ChannelBursts(s, o.channels, o.members));
    ChannelBurstsReplay(s, o.channels, o.members, v);
    SameView(ReplayAll(NOTHING, BurstOf(s, o)), LocalView(s));
  }

  lemma KnownAll(s: Server, o: Walk)
    requires Tidy(s) && Walkable(s, o)
    ensures (set u | u in o.users :: s.users[u].uuid) == LocalView(s).known
    ensures forall k, u ::
      k in o.channels && u in o.members[k] ==> u in s.users && s.users[u].uuid in LocalView(s).known
  {
    forall u | u in s.users ensures Maps(s.uuidLocal, s.users[u].uuid, u) {}
    forall x | x in LocalView(s).known ensures x in set u | u in o.users :: s.users[u].uuid {
      assert Maps(s.uuidLocal, x, s.uuidLocal[x]);
      assert s.uuidLocal[x] in o.users;
    }
    forall k, u | k in o.channels && u in o.members[k] ensures u in s.users && s.users[u].uuid in LocalView(s).known {
      assert Meets(s, k, o.members[k]);
      assert Holds(s.channels, k, u);
      assert Lists(s.users, u, k);
    }
  }

  ghost predicate AllWell(ws: seq<Wire>, sid: string) {
    forall i :: 0 <= i < |ws| ==> WellSent(ws[i], sid) && !ws[i].ServerW?
  }

  lemma {:induction false} UserLinesWell(s: Server, us: seq<Uid>)
    requires LocalIds(s) && forall x :: x in s.uuidLocal ==> OfPeer(x, s.sid)
    requires forall u :: u in us ==> u in s.users
    ensures AllWell(UserLines(s, us), s.sid)
    decreases |us|
  {
    hide OfPeer;
    if us != [] {
      assert Maps(s.uuidLocal, s.users[us[0]].uuid, us[0]);
      UserLinesWell(s, us[1..]);
    }
  }

  lemma {:induction false} SentWell(chan: string, lines: seq<Line>, sid: string)
    requires chan != "" && chan[0] == '#'
    ensures AllWell(Sent(chan, lines), sid)
    decreases |lines|
  {
    if lines != [] { SentWell(chan, lines[1..], sid); }
  }

  lemma {:induction false} ChannelBurstsWell(s: Server, ks: seq<string>, members: map<string, seq<Uid>>)
    requires ChanNamed(s.channels) && forall k :: k in ks ==> k in members && Meets(s, k, members[k])
    ensures AllWell(ChannelBursts(s, ks, members), s.sid)
    decreases |ks|
  {
    hide Fold, BurstLines, ModeLetters;
    if ks != [] {
      var ch := s.channels[ks[0]];
      assert NamedAs(ch.name, ks[0]);
      if members[ks[0]] != [] {
        SentWell(ch.name, BurstLines(ch, Entries(ch, Uuids(s), members[ks[0]])), s.sid);
      }
      ChannelBurstsWell(s, ks[1..], members);
    }
  }

  lemma BurstWell(s: Server, o: Walk)
    requires Tidy(s) && Walkable(s, o) && forall x :: x in s.uuidLocal ==> OfPeer(x, s.sid)
    ensures AllWell(BurstOf(s, o), s.sid)
  {
    hide Tidy, OfPeer, ChannelBursts, UserLines;
    assert LocalIds(s) && ChanNamed(s.channels) by { TidyParts(s); }
    UserLinesWell(s, o.users);
    ChannelBurstsWell(s, o.channels, o.members);
  }

  lemma TidyParts(s: Server)
    requires Tidy(s)
    ensures MemberInv(s) && LocalIds(s) && ChanNamed(s.channels)
  {
  }
}
