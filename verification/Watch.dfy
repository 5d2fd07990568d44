/** WATCH and MONITOR lists with their reverse index (src/watch.rs); both are kept the same way. */
module Watch {
  import opened Wrappers
  import opened Channels

  /** Each user's list of folded nicks, and for each nick the users whose list has it. */
  datatype Lists = Lists(of: map<Uid, seq<string>>, index: map<string, set<Uid>>)

  function Without(list: seq<string>, nick: string): (r: seq<string>)
    ensures forall n :: n in r <==> n in list && n != nick
  {
    if list == [] then []
    else
      assert list == [list[0]] + list[1..];
      (if list[0] == nick then [] else [list[0]]) + Without(list[1..], nick)
  }

  function Index(index: map<string, set<Uid>>, nick: string, uid: Uid): map<string, set<Uid>> {
    index[nick := (if nick in index then index[nick] else {}) + {uid}]
  }

  /** Take one user out of one nick's set; an emptied set goes. */
  function Unindex(index: map<string, set<Uid>>, nick: string, uid: Uid): map<string, set<Uid>> {
    if nick !in index then index
    else if index[nick] - {uid} == {} then index - {nick}
    else index[nick := index[nick] - {uid}]
  }

  function UnindexAll(index: map<string, set<Uid>>, nicks: seq<string>, uid: Uid): map<string, set<Uid>> {
    if nicks == [] then index else UnindexAll(Unindex(index, nicks[0], uid), nicks[1..], uid)
  }

  function Connect(w: Lists, uid: Uid): Lists {
    if uid in w.of then w else w.(of := w.of[uid := []])
  }

  function Add(w: Lists, uid: Uid, nick: string): Lists {
    if uid !in w.of || nick in w.of[uid] then w
    else Lists(w.of[uid := w.of[uid] + [nick]], Index(w.index, nick, uid))
  }

  function Remove(w: Lists, uid: Uid, nick: string): Lists {
    if uid !in w.of || nick !in w.of[uid] then w
    else Lists(w.of[uid := Without(w.of[uid], nick)], Unindex(w.index, nick, uid))
  }

  function Clear(w: Lists, uid: Uid): Lists {
    if uid !in w.of then w else Lists(w.of[uid := []], UnindexAll(w.index, w.of[uid], uid))
  }

  function Quit(w: Lists, uid: Uid): Lists {
    if uid !in w.of then w else Lists(w.of - {uid}, UnindexAll(w.index, w.of[uid], uid))
  }

  /** The lists and the index, changed in place. */
  class Watchers {
    var lists: map<Uid, seq<string>>
    var index: map<string, set<Uid>>

    constructor ()
      ensures Valid() && State() == Lists(map[], map[])
    {
      lists, index := map[], map[];
      new;
      assert forall n, u :: !Indexed(index, n, u) && !Listed(lists, u, n);
    }

    function State(): Lists
      reads this
    {
      Lists(lists, index)
    }

    /** The index is exactly the scan over all lists. */
    ghost predicate Valid()
      reads this
    {
      Exact(State())
    }

    method WatchAdd(uid: Uid, nick: string)
      requires Valid()
      modifies this
      ensures State() == Add(old(State()), uid, nick) && Valid()
      ensures uid !in old(lists) || nick in old(lists)[uid] ==> lists == old(lists)
      ensures uid in old(lists) && nick !in old(lists)[uid] ==> lists == old(lists)[uid := old(lists)[uid] + [nick]]
      ensures forall n, u :: Indexed(index, n, u) <==>
        old(Indexed(index, n, u)) || (n == nick && u == uid && uid in lists)
    {
      hide Exact;
      AddIndexed(State(), uid, nick);
      if uid in lists && nick !in lists[uid] {
        lists := lists[uid := lists[uid] + [nick]];
        var set_ := if nick in index then index[nick] else {};
        index := index[nick := set_ + {uid}];
      }
      assert State() == Add(old(State()), uid, nick);
      StepExact(old(State()), Adds(uid, nick));
    }

    method WatchRemove(uid: Uid, nick: string)
      requires Valid()
      modifies this
      ensures State() == Remove(old(State()), uid, nick) && Valid()
      ensures lists.Keys == old(lists).Keys && forall u :: u in lists && u != uid ==> lists[u] == old(lists)[u]
      ensures uid in lists ==> Leaves(old(lists)[uid], nick, lists[uid])
      ensures forall n, u :: Indexed(index, n, u) <==> old(Indexed(index, n, u)) && !(n == nick && u == uid)
    {
      hide Exact;
      if uid in lists {
        var before := lists[uid];
        lists := lists[uid := Without(before, nick)];
        WithoutAbsent(before, nick);
        if |before| != |lists[uid]| {
          index := Unindex(index, nick, uid);
        } else {
          assert old(lists)[uid := before] == old(lists);
        }
      }
      assert State() == Remove(old(State()), uid, nick);
      StepExact(old(State()), Removes(uid, nick));
      RemoveEffect(old(State()), uid, nick);
    }

    method WatchClear(uid: Uid)
      requires Valid()
      modifies this
      ensures State() == Clear(old(State()), uid) && Valid()
      ensures lists == if uid in old(lists) then old(lists)[uid := []] else old(lists)
      ensures forall n, u :: Indexed(index, n, u) <==> old(Indexed(index, n, u)) && u != uid
    {
      hide Exact;
      if uid in lists {
        var nicks := lists[uid];
        lists := lists[uid := []];
        Deindex(nicks, uid);
      }
      assert State() == Clear(old(State()), uid);
      StepExact(old(State()), Clears(uid));
      GoneIndexed(old(State()), State(), uid);
    }

    method WatcherQuits(uid: Uid)
      requires Valid()
      modifies this
      ensures State() == Quit(old(State()), uid) && Valid()
      ensures lists == old(lists) - {uid}
      ensures forall n, u :: Indexed(index, n, u) <==> old(Indexed(index, n, u)) && u != uid
    {
      hide Exact;
      if uid in lists {
        var nicks := lists[uid];
        lists := lists - {uid};
        Deindex(nicks, uid);
      }
      assert State() == Quit(old(State()), uid);
      StepExact(old(State()), Quits(uid));
      GoneIndexed(old(State()), State(), uid);
    }

    method Deindex(nicks: seq<string>, uid: Uid)
      modifies `index
      ensures index == UnindexAll(old(index), nicks, uid)
    {
      for i := 0 to |nicks|
        invariant UnindexAll(index, nicks[i..], uid) == UnindexAll(old(index), nicks, uid)
      {
        assert nicks[i..][1..] == nicks[i + 1..];
        var n := nicks[i];
        if n in index {
          var left := index[n] - {uid};
          index := if left == {} then index - {n} else index[n := left];
        }
      }
    }
  }

  lemma {:induction false} WithoutAbsent(list: seq<string>, nick: string)
    ensures |Without(list, nick)| <= |list|
    ensures |Without(list, nick)| == |list| <==> nick !in list
    ensures nick !in list ==> Without(list, nick) == list
  {
    if list != [] {
      WithoutAbsent(list[1..], nick);
      assert list == [list[0]] + list[1..];
    }
  }

  /** Every entry but `nick` stays, in order: a split list is filtered part by part. */
  lemma {:induction false} WithoutJoin(a: seq<string>, b: seq<string>, nick: string)
    ensures Without(a + b, nick) == Without(a, nick) + Without(b, nick)
  {
    if a == [] {
      assert a + b == b;
    } else {
      assert (a + b)[1..] == a[1..] + b;
      WithoutJoin(a[1..], b, nick);
    }
  }

  /** `kept` is `list` with `nick` taken out and the other entries where they were. */
  ghost predicate Leaves(list: seq<string>, nick: string, kept: seq<string>) {
    && multiset(kept) == multiset(list)[nick := 0]
    && (nick !in list ==> kept == list)
    && forall i :: 0 <= i < |list| && list[i] == nick && nick !in list[..i] && nick !in list[i + 1..] ==>
         kept == list[..i] + list[i + 1..]
  }

  lemma {:induction false} WithoutCounts(list: seq<string>, nick: string)
    ensures multiset(Without(list, nick)) == multiset(list)[nick := 0]
  {
    if list != [] {
      WithoutCounts(list[1..], nick);
      assert list == [list[0]] + list[1..];
      var rest := Without(list[1..], nick);
      assert Without(list, nick) == (if list[0] == nick then [] else [list[0]]) + rest;
    }
  }

  lemma WithoutLeaves(list: seq<string>, nick: string)
    ensures Leaves(list, nick, Without(list, nick))
  {
    hide Without;
    WithoutCounts(list, nick);
    WithoutAbsent(list, nick);
    forall i | 0 <= i < |list| && list[i] == nick && nick !in list[..i] && nick !in list[i + 1..]
      ensures Without(list, nick) == list[..i] + list[i + 1..]
    {
      assert list == list[..i] + ([nick] + list[i + 1..]);
      WithoutOnce(list[..i], list[i + 1..], nick);
    }
  }

  lemma WithoutOnce(a: seq<string>, b: seq<string>, nick: string)
    requires nick !in a && nick !in b
    ensures Without(a + ([nick] + b), nick) == a + b
  {
    hide Without;
    WithoutJoin(a, [nick] + b, nick);
    WithoutFirst(b, nick);
    WithoutAbsent(a, nick);
    WithoutAbsent(b, nick);
  }

  lemma WithoutFirst(b: seq<string>, nick: string)
    ensures Without([nick] + b, nick) == Without(b, nick)
  {
    assert ([nick] + b)[1..] == b;
  }

  /** A newly connected user has an empty list; nothing else changes. */
  lemma ConnectEffect(w: Lists, uid: Uid)
    ensures var t := Connect(w, uid);
      && t.index == w.index && (forall u :: u in t.of <==> u in w.of || u == uid)
      && forall u :: u in t.of ==> t.of[u] == if u in w.of then w.of[u] else []
  {
  }

  // ----- the index is the scan -----

  predicate Indexed(index: map<string, set<Uid>>, nick: string, uid: Uid) {
    nick in index && uid in index[nick]
  }

  predicate Listed(of: map<Uid, seq<string>>, uid: Uid, nick: string) {
    uid in of && nick in of[uid]
  }

  /** Each nick's set holds exactly the users whose list has the nick, and no set is empty. */
  ghost predicate Exact(w: Lists) {
    && (forall n, u :: Indexed(w.index, n, u) <==> Listed(w.of, u, n))
    && (forall n :: n in w.index ==> w.index[n] != {})
  }

  ghost predicate NoEmpty(index: map<string, set<Uid>>) {
    forall n :: n in index ==> index[n] != {}
  }

  lemma UnindexOne(index: map<string, set<Uid>>, nick: string, uid: Uid)
    requires NoEmpty(index)
    ensures NoEmpty(Unindex(index, nick, uid))
    ensures forall n, u :: Indexed(Unindex(index, nick, uid), n, u) <==>
      Indexed(index, n, u) && !(n == nick && u == uid)
  {
    if nick in index && index[nick] - {uid} == {} {
      assert index[nick] <= index[nick] - {uid} + {uid};
    }
  }

  lemma {:induction false} UnindexMany(index: map<string, set<Uid>>, nicks: seq<string>, uid: Uid)
    requires NoEmpty(index)
    ensures NoEmpty(UnindexAll(index, nicks, uid))
    ensures forall n, u :: Indexed(UnindexAll(index, nicks, uid), n, u) <==>
      Indexed(index, n, u) && !(n in nicks && u == uid)
    decreases |nicks|
  {
    if nicks != [] {
      UnindexOne(index, nicks[0], uid);
      UnindexMany(Unindex(index, nicks[0], uid), nicks[1..], uid);
      assert forall n :: n in nicks <==> n == nicks[0] || n in nicks[1..];
    }
  }

  datatype Edit = Connects(uid: Uid) | Adds(uid: Uid, nick: string) | Removes(uid: Uid, nick: string) |
    Clears(uid: Uid) | Quits(uid: Uid)

  function Step(w: Lists, e: Edit): Lists {
    match e
    case Connects(uid) => Connect(w, uid)
    case Adds(uid, nick) => Add(w, uid, nick)
    case Removes(uid, nick) => Remove(w, uid, nick)
    case Clears(uid) => Clear(w, uid)
    case Quits(uid) => Quit(w, uid)
  }

  function Run(w: Lists, es: seq<Edit>): Lists
    decreases |es|
  {
    if es == [] then w else Run(Step(w, es[0]), es[1..])
  }

  lemma AddExact(w: Lists, uid: Uid, nick: string)
    requires Exact(w) && uid in w.of
    ensures Exact(Add(w, uid, nick))
  {
    var t := Add(w, uid, nick);
    if nick !in w.of[uid] {
      forall n, u ensures Indexed(t.index, n, u) <==> Indexed(w.index, n, u) || (n == nick && u == uid) {}
      forall n, u ensures Listed(t.of, u, n) <==> Listed(w.of, u, n) || (n == nick && u == uid) {}
      assert uid in t.index[nick];
    }
  }

  lemma AddIndexed(w: Lists, uid: Uid, nick: string)
    requires Exact(w)
    ensures forall n, u :: Indexed(Add(w, uid, nick).index, n, u) <==>
      Indexed(w.index, n, u) || (n == nick && u == uid && uid in w.of)
  {
    assert uid in w.of && nick in w.of[uid] ==> Listed(w.of, uid, nick);
  }

  /** Removing takes one nick off one list and nothing off any other. */
  lemma RemoveEffect(w: Lists, uid: Uid, nick: string)
    requires Exact(w)
    ensures var t := Remove(w, uid, nick);
      && t.of.Keys == w.of.Keys && (forall u :: u in t.of && u != uid ==> t.of[u] == w.of[u])
      && (uid in t.of ==> Leaves(w.of[uid], nick, t.of[uid]))
      && forall n, u :: Indexed(t.index, n, u) <==> Indexed(w.index, n, u) && !(n == nick && u == uid)
  {
    hide Unindex, Without, Leaves;
    UnindexOne(w.index, nick, uid);
    assert Indexed(w.index, nick, uid) <==> Listed(w.of, uid, nick);
    if uid in w.of {
      WithoutLeaves(w.of[uid], nick);
      WithoutAbsent(w.of[uid], nick);
    }
  }

  /** Once a user's list is empty or gone, no nick is indexed for that user. */
  lemma GoneIndexed(w: Lists, t: Lists, uid: Uid)
    requires Exact(w) && Exact(t)
    requires forall u, n :: Listed(t.of, u, n) <==> Listed(w.of, u, n) && u != uid
    ensures forall n, u :: Indexed(t.index, n, u) <==> Indexed(w.index, n, u) && u != uid
  {
  }

  lemma StepExact(w: Lists, e: Edit)
    requires Exact(w)
    ensures Exact(Step(w, e))
  {
    hide Unindex, UnindexAll, Without;
    if e.uid in w.of {
      match e {
        case Connects(uid) =>
        case Adds(uid, nick) => AddExact(w, uid, nick);
        case Removes(uid, nick) => UnindexOne(w.index, nick, uid);
        case Clears(uid) => UnindexMany(w.index, w.of[uid], uid);
        case Quits(uid) => UnindexMany(w.index, w.of[uid], uid);
      }
    }
  }

  /** After every sequence of list edits and quits the reverse index is the scan over all lists. */
  lemma {:induction false} RunExact(w: Lists, es: seq<Edit>)
    requires Exact(w)
    ensures Exact(Run(w, es))
    decreases |es|
  {
    hide Step, Exact;
    if es != [] {
      StepExact(w, es[0]);
      RunExact(Step(w, es[0]), es[1..]);
    }
  }

  /** `watchers_of` and the notify functions read the index; the answer is that of a scan. */
  lemma WatchersOf(es: seq<Edit>, nick: string)
    ensures var w := Run(Lists(map[], map[]), es);
      (if nick in w.index then w.index[nick] else {}) == set u | u in w.of && nick in w.of[u]
  {
    var none := Lists(map[], map[]);
    assert forall n, u :: !Indexed(none.index, n, u) && !Listed(none.of, u, n);
    RunExact(none, es);
    var w := Run(none, es);
    forall u ensures (nick in w.index && u in w.index[nick]) <==> (u in w.of && nick in w.of[u]) {
      assert Indexed(w.index, nick, u) <==> Listed(w.of, u, nick);
    }
  }
}
