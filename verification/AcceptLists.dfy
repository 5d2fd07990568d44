/** Caller-id ACCEPT lists and the reverse count that lets a quit skip its scan (src/server.rs, src/users.rs). */
module AcceptLists {
  import opened Wrappers
  import opened Channels
  import Watch

  /** Each user's folded nick ("" before one is set) and accept list, and per nick how many lists accept it. */
  datatype Accepts = Accepts(nick: map<Uid, string>, lists: map<Uid, seq<string>>, count: map<string, nat>)

  function CountOf(count: map<string, nat>, n: string): nat {
    if n in count then count[n] else 0
  }

  function More(count: map<string, nat>, n: string, k: nat): map<string, nat> {
    count[n := CountOf(count, n) + k]
  }

  /** One fewer; an emptied count goes. */
  function Fewer(count: map<string, nat>, n: string): map<string, nat> {
    if n !in count then count
    else if count[n] <= 1 then count - {n}
    else count[n := count[n] - 1]
  }

  function FewerAll(count: map<string, nat>, list: seq<string>): map<string, nat> {
    if list == [] then count else FewerAll(Fewer(count, list[0]), list[1..])
  }

  function Scrubbed(lists: map<Uid, seq<string>>, n: string): map<Uid, seq<string>> {
    map u | u in lists :: Watch.Without(lists[u], n)
  }

  function Moved(list: seq<string>, old_: string, new_: string): (r: seq<string>)
    ensures |r| == |list| && forall i :: 0 <= i < |r| ==> r[i] == if list[i] == old_ then new_ else list[i]
  {
    seq(|list|, i requires 0 <= i < |list| => if list[i] == old_ then new_ else list[i])
  }

  // ----- the operations -----

  function Connect(a: Accepts, uid: Uid): Accepts {
    if uid in a.lists then a else a.(nick := a.nick[uid := ""], lists := a.lists[uid := []])
  }

  function Add(a: Accepts, uid: Uid, n: string): Accepts {
    if uid !in a.lists then a
    else a.(lists := a.lists[uid := a.lists[uid] + [n]], count := More(a.count, n, 1))
  }

  function Remove(a: Accepts, uid: Uid, n: string): Accepts {
    if uid !in a.lists || n !in a.lists[uid] then a
    else a.(lists := a.lists[uid := Watch.Without(a.lists[uid], n)], count := Fewer(a.count, n))
  }

  /** The accept part of `set_nick`: entries and count move from the old nick to the new one. */
  function Rename(a: Accepts, uid: Uid, new_: string): Accepts {
    if uid !in a.nick then a
    else
      var old_ := a.nick[uid];
      var b := a.(nick := a.nick[uid := new_]);
      if old_ == "" || old_ == new_ then b
      else
        b.(lists := map u | u in a.lists :: Moved(a.lists[u], old_, new_),
           count := if old_ in a.count then More(a.count - {old_}, new_, a.count[old_]) else a.count)
  }

  /** The accept part of `remove_user`; lists are scanned only if someone counts the departed nick. */
  function Quit(a: Accepts, uid: Uid): Accepts {
    if uid !in a.lists || uid !in a.nick then a
    else
      var n, rest := a.nick[uid], a.lists - {uid};
      var count := FewerAll(a.count, a.lists[uid]);
      Accepts(a.nick - {uid},
              if n != "" && CountOf(count, n) > 0 then Scrubbed(rest, n) else rest,
              if n == "" then count else count - {n})
  }

  /** The quit that always scans. */
  function QuitScanning(a: Accepts, uid: Uid): Accepts {
    if uid !in a.lists || uid !in a.nick then a
    else
      var n, rest := a.nick[uid], a.lists - {uid};
      var count := FewerAll(a.count, a.lists[uid]);
      Accepts(a.nick - {uid}, if n == "" then rest else Scrubbed(rest, n), if n == "" then count else count - {n})
  }

  /** The same tables changed in place. */
  class CallerIds {
    var nick: map<Uid, string>
    var lists: map<Uid, seq<string>>
    var count: map<string, nat>

    constructor ()
      ensures Valid() && State() == Accepts(map[], map[], map[])
    {
      nick, lists, count := map[], map[], map[];
      new;
      forall n, k ensures Total(lists, n, k) <= CountOf(count, n) { NothingCounted(n, k); }
    }

    function State(): Accepts
      reads this
    {
      Accepts(nick, lists, count)
    }

    /** No nick is in more entries than it is counted for: what the skipped scan relies on. */
    ghost predicate Valid()
      reads this
    {
      Covered(State())
    }

    method AcceptAdd(uid: Uid, n: string)
      requires Valid()
      modifies this
      ensures State() == Add(old(State()), uid, n) && Valid() && nick == old(nick)
      ensures lists == if uid in old(lists) then old(lists)[uid := old(lists)[uid] + [n]] else old(lists)
      ensures uid in lists ==> n in lists[uid] && CountOf(count, n) > 0
      ensures old(Exact(State())) && (uid in lists ==> n !in old(lists)[uid]) ==> Exact(State())
    {
      hide Covered, Exact;
      if uid in lists {
        lists := lists[uid := lists[uid] + [n]];
        count := count[n := CountOf(count, n) + 1];
      }
      assert State() == Add(old(State()), uid, n);
      AddCovered(old(State()), uid, n);
      if old(Exact(State())) && uid in old(lists) && n !in old(lists)[uid] {
        AddExact(old(State()), uid, n);
      }
    }

    method AcceptRemove(uid: Uid, n: string)
      requires Valid()
      modifies this
      ensures State() == Remove(old(State()), uid, n) && Valid() && nick == old(nick)
      ensures lists.Keys == old(lists).Keys && forall u :: u in lists && u != uid ==> lists[u] == old(lists)[u]
      ensures uid in lists ==> Watch.Leaves(old(lists)[uid], n, lists[uid])
    {
      hide Covered;
      if uid in lists {
        var before := lists[uid];
        lists := lists[uid := Watch.Without(before, n)];
        Watch.WithoutAbsent(before, n);
        if |before| != |lists[uid]| {
          if n in count {
            count := if count[n] <= 1 then count - {n} else count[n := count[n] - 1];
          }
        } else {
          assert old(lists)[uid := before] == old(lists);
        }
      }
      assert State() == Remove(old(State()), uid, n);
      RemoveCovered(old(State()), uid, n);
      if uid in old(lists) {
        Watch.WithoutLeaves(old(lists)[uid], n);
        Watch.WithoutAbsent(old(lists)[uid], n);
      }
    }

    /** The gated scan does what a full one would: nobody's list still has the departed nick. */
    method UserQuits(uid: Uid)
      requires Valid()
      modifies this
      ensures State() == Quit(old(State()), uid) == QuitScanning(old(State()), uid) && Valid()
      ensures nick == old(nick) - {uid} && Departs(old(State()), uid, lists)
    {
      hide Covered, Scrubbed, Departs;
      QuitDeparts(State(), uid);
      SkippedScan(State(), uid);
      QuitCovered(State(), uid);
      if uid !in lists || uid !in nick { return; }
      var list, low := lists[uid], nick[uid];
      nick, lists := nick - {uid}, lists - {uid};
      for i := 0 to |list|
        invariant nick == old(nick) - {uid} && lists == old(lists) - {uid}
        invariant FewerAll(count, list[i..]) == FewerAll(old(count), list)
      {
        assert list[i..][1..] == list[i + 1..];
        var n := list[i];
        if n in count {
          count := if count[n] <= 1 then count - {n} else count[n := count[n] - 1];
        }
      }
      if low != "" {
        var c := CountOf(count, low);
        count := count - {low};
        if c > 0 {
          ScrubbedIs(lists, low);
          lists := map u | u in lists :: Watch.Without(lists[u], low);
        }
      }
      assert State() == Quit(old(State()), uid);
    }
  }

  /** The user's list goes, and every other list loses the user's nick and nothing else. */
  ghost predicate Departs(a: Accepts, uid: Uid, left: map<Uid, seq<string>>) {
    && left.Keys == a.lists.Keys - {uid}
    && forall u :: u in left && u in a.lists ==>
         if uid !in a.nick || a.nick[uid] == "" then left[u] == a.lists[u]
         else Watch.Leaves(a.lists[u], a.nick[uid], left[u])
  }

  lemma QuitDeparts(a: Accepts, uid: Uid)
    requires Covered(a)
    ensures Quit(a, uid).nick == a.nick - {uid} && Departs(a, uid, Quit(a, uid).lists)
  {
    hide Covered, FewerAll, Watch.Leaves;
    SkippedScan(a, uid);
    SameKeys(a);
    if uid in a.lists {
      forall u | u in a.lists ensures Watch.Leaves(a.lists[u], a.nick[uid], Watch.Without(a.lists[u], a.nick[uid])) {
        Watch.WithoutLeaves(a.lists[u], a.nick[uid]);
      }
    }
  }

  lemma SameKeys(a: Accepts)
    requires Covered(a)
    ensures a.nick.Keys == a.lists.Keys
  {
  }

  /** A rename swaps the old nick for the new one, place by place, on every list. */
  lemma RenameEffect(a: Accepts, uid: Uid, new_: string)
    requires uid in a.nick
    ensures var b := Rename(a, uid, new_);
      && b.nick == a.nick[uid := new_] && b.lists.Keys == a.lists.Keys
      && forall u :: u in b.lists ==> |b.lists[u]| == |a.lists[u]| && forall i :: 0 <= i < |b.lists[u]| ==>
           b.lists[u][i] == if a.nick[uid] != "" && a.lists[u][i] == a.nick[uid] then new_ else a.lists[u][i]
  {
    var old_ := a.nick[uid];
    forall u | u in a.lists ensures |Moved(a.lists[u], old_, new_)| == |a.lists[u]| {}
  }

  lemma ScrubbedIs(lists: map<Uid, seq<string>>, n: string)
    ensures Scrubbed(lists, n) == map u | u in lists :: Watch.Without(lists[u], n)
  {
  }

  // ----- counting entries -----

  /** How often a list names `n`. */
  function Times(list: seq<string>, n: string): nat {
    multiset(list)[n]
  }

  function Entries(lists: map<Uid, seq<string>>, u: Uid, n: string): nat {
    if u in lists then Times(lists[u], n) else 0
  }

  /** Entries naming `n` in the lists of users below `k`. */
  function Total(lists: map<Uid, seq<string>>, n: string, k: nat): nat {
    if k == 0 then 0 else Total(lists, n, k - 1) + Entries(lists, k - 1, n)
  }

  /** No nick is in more entries than its count says. */
  ghost predicate Covered(a: Accepts) {
    a.nick.Keys == a.lists.Keys && forall n, k :: Total(a.lists, n, k) <= CountOf(a.count, n)
  }

  lemma {:induction false} TotalSame(l: map<Uid, seq<string>>, m: map<Uid, seq<string>>, n: string, k: nat)
    requires forall u: Uid :: u < k ==> Entries(l, u, n) == Entries(m, u, n)
    ensures Total(l, n, k) == Total(m, n, k)
  {
    if k > 0 { TotalSame(l, m, n, k - 1); }
  }

  /** Changing one user's list changes the total by that user's entries. */
  lemma {:induction false} TotalChange(l: map<Uid, seq<string>>, m: map<Uid, seq<string>>, n: string, k: nat, uid: Uid)
    requires forall u: Uid :: u != uid ==> Entries(l, u, n) == Entries(m, u, n)
    ensures Total(m, n, k) + (if uid < k then Entries(l, uid, n) else 0) ==
            Total(l, n, k) + (if uid < k then Entries(m, uid, n) else 0)
  {
    if k > 0 { TotalChange(l, m, n, k - 1, uid); }
  }

  lemma {:induction false} TotalAtLeast(l: map<Uid, seq<string>>, n: string, k: nat, uid: Uid)
    requires uid < k
    ensures Entries(l, uid, n) <= Total(l, n, k)
  {
    if k - 1 > uid { TotalAtLeast(l, n, k - 1, uid); }
  }

  lemma TimesCons(list: seq<string>, n: string)
    requires list != []
    ensures Times(list, n) == (if list[0] == n then 1 else 0) + Times(list[1..], n)
  {
    assert list == [list[0]] + list[1..];
    assert multiset(list) == multiset{list[0]} + multiset(list[1..]);
  }

  lemma {:induction false} FewerAllCount(count: map<string, nat>, list: seq<string>, n: string)
    ensures CountOf(FewerAll(count, list), n) ==
      if CountOf(count, n) <= Times(list, n) then 0 else CountOf(count, n) - Times(list, n)
    decreases |list|
  {
    if list != [] {
      FewerAllCount(Fewer(count, list[0]), list[1..], n);
      TimesCons(list, n);
    }
  }

  lemma TimesIn(list: seq<string>, n: string)
    ensures Times(list, n) > 0 <==> n in list
  {
  }

  lemma {:induction false} WithoutTimes(list: seq<string>, nick: string, n: string)
    ensures Times(Watch.Without(list, nick), n) == if n == nick then 0 else Times(list, n)
    decreases |list|
  {
    if list != [] {
      WithoutTimes(list[1..], nick, n);
      TimesCons(list, n);
      if list[0] != nick {
        var kept := Watch.Without(list, nick);
        assert kept[1..] == Watch.Without(list[1..], nick);
        TimesCons(kept, n);
      }
    }
  }

  lemma {:induction false} MovedTimes(list: seq<string>, old_: string, new_: string, n: string)
    requires old_ != new_
    ensures Times(Moved(list, old_, new_), n) ==
      if n == old_ then 0 else if n == new_ then Times(list, n) + Times(list, old_) else Times(list, n)
    decreases |list|
  {
    if list != [] {
      MovedTimes(list[1..], old_, new_, n);
      var moved := Moved(list, old_, new_);
      assert moved[1..] == Moved(list[1..], old_, new_);
      hide Times;
      TimesCons(list, n);
      TimesCons(list, old_);
      TimesCons(moved, n);
    }
  }

  lemma {:induction false} TotalGrows(l: map<Uid, seq<string>>, n: string, k: nat, K: nat)
    requires k <= K
    ensures Total(l, n, k) <= Total(l, n, K)
    decreases K - k
  {
    if k < K { TotalGrows(l, n, k, K - 1); }
  }

  /** Only `uid`'s list changed: a count lowered by what that list lost still covers. */
  lemma StillCovered(l: map<Uid, seq<string>>, m: map<Uid, seq<string>>, n: string, uid: Uid, before: nat, now: nat)
    requires forall u: Uid :: u != uid ==> Entries(l, u, n) == Entries(m, u, n)
    requires forall k :: Total(l, n, k) <= before
    requires before + Entries(m, uid, n) <= now + Entries(l, uid, n)
    ensures forall k :: Total(m, n, k) <= now
  {
    forall k: nat ensures Total(m, n, k) <= now {
      var K := if k <= uid then uid + 1 else k;
      TotalGrows(m, n, k, K);
      TotalChange(l, m, n, K, uid);
    }
  }

  lemma AddCovered(a: Accepts, uid: Uid, x: string)
    requires Covered(a)
    ensures Covered(Add(a, uid, x))
  {
    hide Total;
    if uid in a.lists {
      var b := Add(a, uid, x);
      forall n ensures forall k :: Total(b.lists, n, k) <= CountOf(b.count, n) {
        StillCovered(a.lists, b.lists, n, uid, CountOf(a.count, n), CountOf(b.count, n));
      }
      assert b.lists.Keys == a.lists.Keys;
    }
  }

  lemma RemoveCovered(a: Accepts, uid: Uid, x: string)
    requires Covered(a)
    ensures Covered(Remove(a, uid, x))
  {
    hide Total;
    if uid in a.lists && x in a.lists[uid] {
      var b := Remove(a, uid, x);
      forall n ensures forall k :: Total(b.lists, n, k) <= CountOf(b.count, n) {
        WithoutTimes(a.lists[uid], x, n);
        EntriesCounted(a, uid, n);
        StillCovered(a.lists, b.lists, n, uid, CountOf(a.count, n), CountOf(b.count, n));
      }
      assert b.lists.Keys == a.lists.Keys;
    }
  }

  lemma EntriesCounted(a: Accepts, uid: Uid, n: string)
    requires Covered(a)
    ensures Entries(a.lists, uid, n) <= CountOf(a.count, n)
  {
    TotalAtLeast(a.lists, n, uid + 1, uid);
  }

  /** The departing user's own list is uncounted entry by entry. */
  lemma LeftCovered(a: Accepts, uid: Uid)
    requires Covered(a) && uid in a.lists
    ensures forall n, k :: Total(a.lists - {uid}, n, k) <= CountOf(FewerAll(a.count, a.lists[uid]), n)
  {
    hide Total, FewerAll;
    var rest, count := a.lists - {uid}, FewerAll(a.count, a.lists[uid]);
    forall n ensures forall k :: Total(rest, n, k) <= CountOf(count, n) {
      FewerAllCount(a.count, a.lists[uid], n);
      EntriesCounted(a, uid, n);
      StillCovered(a.lists, rest, n, uid, CountOf(a.count, n), CountOf(count, n));
    }
  }

  lemma NobodyAccepts(lists: map<Uid, seq<string>>, n: string)
    requires forall k :: Total(lists, n, k) <= 0
    ensures Scrubbed(lists, n) == lists
  {
    forall u | u in lists ensures Watch.Without(lists[u], n) == lists[u] {
      TotalAtLeast(lists, n, u + 1, u);
      TimesIn(lists[u], n);
      Watch.WithoutAbsent(lists[u], n);
    }
  }

  /** The skipped scan leaves the same lists as a full one, whatever edits, quits and renames came before. */
  lemma SkippedScan(a: Accepts, uid: Uid)
    requires Covered(a)
    ensures Quit(a, uid) == QuitScanning(a, uid)
  {
    hide Total, FewerAll, Scrubbed;
    if uid in a.lists && uid in a.nick {
      var n, rest, count := a.nick[uid], a.lists - {uid}, FewerAll(a.count, a.lists[uid]);
      LeftCovered(a, uid);
      if n != "" && CountOf(count, n) == 0 {
        NobodyAccepts(rest, n);
      }
    }
  }

  lemma ScrubTotal(lists: map<Uid, seq<string>>, x: string, n: string, k: nat)
    ensures Total(Scrubbed(lists, x), n, k) == if n == x then 0 else Total(lists, n, k)
    decreases k
  {
    if k > 0 {
      ScrubTotal(lists, x, n, k - 1);
      if k - 1 in lists { WithoutTimes(lists[k - 1], x, n); }
    }
  }

  lemma QuitCovered(a: Accepts, uid: Uid)
    requires Covered(a)
    ensures Covered(Quit(a, uid))
  {
    hide Total, FewerAll, Scrubbed;
    SkippedScan(a, uid);
    if uid in a.lists && uid in a.nick {
      var x, rest, count := a.nick[uid], a.lists - {uid}, FewerAll(a.count, a.lists[uid]);
      LeftCovered(a, uid);
      var b := QuitScanning(a, uid);
      forall n, k ensures Total(b.lists, n, k) <= CountOf(b.count, n) {
        ScrubTotal(rest, x, n, k);
      }
      ScrubKeys(rest, x);
    }
  }

  lemma ScrubKeys(lists: map<Uid, seq<string>>, x: string)
    ensures Scrubbed(lists, x).Keys == lists.Keys
  {
  }

  lemma {:induction false} MovedTotal(
    l: map<Uid, seq<string>>, m: map<Uid, seq<string>>, old_: string, new_: string, n: string, k: nat)
    requires old_ != new_ && m == map u | u in l :: Moved(l[u], old_, new_)
    ensures Total(m, n, k) ==
      if n == old_ then 0 else if n == new_ then Total(l, n, k) + Total(l, old_, k) else Total(l, n, k)
    decreases k
  {
    if k > 0 {
      MovedTotal(l, m, old_, new_, n, k - 1);
      if k - 1 in l { MovedTimes(l[k - 1], old_, new_, n); }
    }
  }

  lemma RenameCovered(a: Accepts, uid: Uid, new_: string)
    requires Covered(a)
    ensures Covered(Rename(a, uid, new_))
  {
    hide Total;
    if uid in a.nick {
      var b, old_ := Rename(a, uid, new_), a.nick[uid];
      assert b.nick.Keys == a.nick.Keys && b.lists.Keys == a.lists.Keys;
      if old_ != "" && old_ != new_ {
        forall n, k ensures Total(b.lists, n, k) <= CountOf(b.count, n) {
          MovedTotal(a.lists, b.lists, old_, new_, n, k);
          assert Total(a.lists, old_, k) <= CountOf(a.count, old_);
        }
      }
    }
  }

  // ----- runs -----

  datatype Edit = Connects(uid: Uid) | Adds(uid: Uid, n: string) | Removes(uid: Uid, n: string) |
    Renames(uid: Uid, n: string) | Quits(uid: Uid)

  function Step(a: Accepts, e: Edit): Accepts {
    match e
    case Connects(uid) => Connect(a, uid)
    case Adds(uid, n) => Add(a, uid, n)
    case Removes(uid, n) => Remove(a, uid, n)
    case Renames(uid, n) => Rename(a, uid, n)
    case Quits(uid) => Quit(a, uid)
  }

  function Run(a: Accepts, es: seq<Edit>): Accepts
    decreases |es|
  {
    if es == [] then a else Run(Step(a, es[0]), es[1..])
  }

  const EMPTY := Accepts(map[], map[], map[])

  lemma ConnectCovered(a: Accepts, uid: Uid)
    requires Covered(a)
    ensures Covered(Connect(a, uid))
  {
    var b := Connect(a, uid);
    forall n, k ensures Total(b.lists, n, k) <= CountOf(b.count, n) {
      TotalSame(b.lists, a.lists, n, k);
    }
  }

  lemma {:induction false} RunCovered(a: Accepts, es: seq<Edit>)
    requires Covered(a)
    ensures Covered(Run(a, es))
    decreases |es|
  {
    hide Covered, Add, Remove, Rename, Quit, Connect;
    if es != [] {
      assert Covered(Step(a, es[0])) by {
        match es[0]
        case Connects(uid) => ConnectCovered(a, uid);
        case Adds(uid, n) => AddCovered(a, uid, n);
        case Removes(uid, n) => RemoveCovered(a, uid, n);
        case Renames(uid, n) => RenameCovered(a, uid, n);
        case Quits(uid) => QuitCovered(a, uid);
      }
      RunCovered(Step(a, es[0]), es[1..]);
    }
  }

  lemma {:induction false} NothingCounted(n: string, k: nat)
    ensures Total(map[], n, k) == 0
  {
    if k > 0 { NothingCounted(n, k - 1); }
  }

  /** After every run of edits, renames and quits, a quit that trusts the count does what a scan would. */
  lemma QuitsAsScanned(es: seq<Edit>, uid: Uid)
    ensures var a := Run(EMPTY, es); Quit(a, uid) == QuitScanning(a, uid)
  {
    hide Quit, QuitScanning, Run;
    forall n, k ensures Total(EMPTY.lists, n, k) <= CountOf(EMPTY.count, n) { NothingCounted(n, k); }
    RunCovered(EMPTY, es);
    SkippedScan(Run(EMPTY, es), uid);
  }

  // ----- when the count is exact -----

  function Holders(lists: map<Uid, seq<string>>, n: string): set<Uid> {
    set u | u in lists && n in lists[u]
  }

  predicate Distinct(list: seq<string>) {
    forall i, j :: 0 <= i < j < |list| ==> list[i] != list[j]
  }

  /** Lists without repeats, and each count exactly the number of lists holding the nick. */
  ghost predicate Exact(a: Accepts) {
    && a.nick.Keys == a.lists.Keys
    && (forall u :: u in a.lists ==> Distinct(a.lists[u]))
    && (forall n :: CountOf(a.count, n) == |Holders(a.lists, n)|)
    && (forall n :: n in a.count ==> a.count[n] > 0)
  }

  /** `accept_add`'s callers add only absent nicks. */
  ghost predicate Allowed(a: Accepts, e: Edit) {
    match e
    case Adds(uid, n) => uid in a.lists ==> n !in a.lists[uid]
    case Renames(uid, n) =>
      uid in a.nick && a.nick[uid] != "" && a.nick[uid] != n ==> Holders(a.lists, a.nick[uid]) !! Holders(a.lists, n)
    case _ => true
  }

  lemma AddExact(a: Accepts, uid: Uid, x: string)
    requires Exact(a) && uid in a.lists && x !in a.lists[uid]
    ensures Exact(Add(a, uid, x))
  {
    hide Distinct, Holders;
    var b := Add(a, uid, x);
    assert b.lists.Keys == a.lists.Keys;
    DistinctAppend(a.lists[uid], x);
    forall n ensures CountOf(b.count, n) == |Holders(b.lists, n)| {
      AddHolders(a.lists, uid, x, n);
    }
  }

  lemma AddHolders(lists: map<Uid, seq<string>>, uid: Uid, x: string, n: string)
    requires uid in lists && x !in lists[uid]
    ensures uid !in Holders(lists, x)
    ensures Holders(lists[uid := lists[uid] + [x]], n) == Holders(lists, n) + if n == x then {uid} else {}
  {
  }

  lemma DistinctAppend(list: seq<string>, x: string)
    requires Distinct(list) && x !in list
    ensures Distinct(list + [x])
  {
  }

  lemma {:induction false} WithoutDistinct(list: seq<string>, x: string)
    requires Distinct(list)
    ensures Distinct(Watch.Without(list, x))
    decreases |list|
  {
    if list != [] {
      WithoutDistinct(list[1..], x);
      assert list[0] !in list[1..];
    }
  }

  lemma RemoveExact(a: Accepts, uid: Uid, x: string)
    requires Exact(a) && uid in a.lists && x in a.lists[uid]
    ensures Exact(Remove(a, uid, x))
  {
    hide Distinct;
    var b := Remove(a, uid, x);
    assert b.lists.Keys == a.lists.Keys;
    WithoutDistinct(a.lists[uid], x);
    forall n ensures CountOf(b.count, n) == |Holders(b.lists, n)| {
      if n == x {
        assert uid in Holders(a.lists, n);
        assert Holders(b.lists, n) == Holders(a.lists, n) - {uid};
      } else {
        assert Holders(b.lists, n) == Holders(a.lists, n);
      }
    }
  }

  lemma {:induction false} DistinctOnce(list: seq<string>, n: string)
    requires Distinct(list)
    ensures Times(list, n) == if n in list then 1 else 0
    decreases |list|
  {
    if list != [] {
      DistinctOnce(list[1..], n);
      assert list[0] !in list[1..];
      assert multiset(list) == multiset{list[0]} + multiset(list[1..]) by { assert list == [list[0]] + list[1..]; }
    }
  }

  lemma {:induction false} FewerAllPositive(count: map<string, nat>, list: seq<string>)
    requires forall n :: n in count ==> count[n] > 0
    ensures forall n :: n in FewerAll(count, list) ==> FewerAll(count, list)[n] > 0
    decreases |list|
  {
    if list != [] { FewerAllPositive(Fewer(count, list[0]), list[1..]); }
  }

  lemma LeftExact(a: Accepts, uid: Uid, n: string)
    requires Exact(a) && uid in a.lists
    ensures CountOf(FewerAll(a.count, a.lists[uid]), n) == |Holders(a.lists - {uid}, n)|
  {
    hide FewerAll;
    FewerAllCount(a.count, a.lists[uid], n);
    DistinctOnce(a.lists[uid], n);
    var rest := Holders(a.lists - {uid}, n);
    if n in a.lists[uid] {
      assert uid in Holders(a.lists, n);
      assert rest == Holders(a.lists, n) - {uid};
    } else {
      assert rest == Holders(a.lists, n);
    }
  }

  lemma QuitExact(a: Accepts, uid: Uid)
    requires Exact(a) && uid in a.lists
    ensures Exact(Quit(a, uid))
  {
    hide FewerAll, Distinct;
    var b, x, rest, count := Quit(a, uid), a.nick[uid], a.lists - {uid}, FewerAll(a.count, a.lists[uid]);
    FewerAllPositive(a.count, a.lists[uid]);
    ScrubKeys(rest, x);
    forall u | u in b.lists ensures Distinct(b.lists[u]) { WithoutDistinct(a.lists[u], x); }
    forall n ensures CountOf(b.count, n) == |Holders(b.lists, n)| {
      LeftExact(a, uid, n);
      LeftExact(a, uid, x);
      if x != "" {
        if n == x {
          assert Holders(b.lists, n) == {};
        } else {
          assert Holders(b.lists, n) == Holders(rest, n);
        }
      }
    }
  }

  /** Each count is exactly the number of lists holding the nick. */
  ghost predicate Counted(a: Accepts) {
    forall n :: CountOf(a.count, n) == |Holders(a.lists, n)|
  }

  /** A rename leaves every count right, and the lists without repeats, iff no list holds both nicks. */
  lemma RenameExact(a: Accepts, uid: Uid, new_: string)
    requires Exact(a) && uid in a.nick
    ensures Counted(Rename(a, uid, new_)) <==> Allowed(a, Renames(uid, new_))
    ensures Exact(Rename(a, uid, new_)) <==> Allowed(a, Renames(uid, new_))
  {
    hide Distinct;
    var b, old_ := Rename(a, uid, new_), a.nick[uid];
    assert b.nick.Keys == a.nick.Keys && b.lists.Keys == a.lists.Keys;
    if old_ != "" && old_ != new_ {
      var olds, news := Holders(a.lists, old_), Holders(a.lists, new_);
      if olds !! news {
        RenamedDistinct(a, b, old_, new_);
        RenamedCounts(a, uid, new_);
      } else {
        var u :| u in olds && u in news;
        MovedRepeats(a.lists[u], old_, new_);
        RenamedMiscounts(a, uid, new_);
      }
    }
  }

  /** Lists that held both nicks hold one entry of the new nick as far as a scan can see, but were counted twice. */
  lemma RenamedMiscounts(a: Accepts, uid: Uid, new_: string)
    requires Exact(a) && uid in a.nick && !Allowed(a, Renames(uid, new_))
    ensures var b := Rename(a, uid, new_); CountOf(b.count, new_) > |Holders(b.lists, new_)|
  {
    hide Distinct;
    var b, old_ := Rename(a, uid, new_), a.nick[uid];
    var olds, news := Holders(a.lists, old_), Holders(a.lists, new_);
    MovedHolders(a.lists, b.lists, old_, new_, new_);
    var u :| u in olds && u in news;
    assert u in news * olds;
    Overlap(news, olds);
    assert CountOf(a.count, old_) == |olds| && CountOf(a.count, new_) == |news|;
  }

  lemma Overlap(a: set<Uid>, b: set<Uid>)
    requires a * b != {}
    ensures |a + b| < |a| + |b| && |b| > 0
  {
    assert |a + b| + |a * b| == |a| + |b|;
    assert b != {};
  }

  lemma MovedRepeats(list: seq<string>, old_: string, new_: string)
    requires old_ in list && new_ in list && old_ != new_
    ensures !Distinct(Moved(list, old_, new_))
  {
    var i :| 0 <= i < |list| && list[i] == old_;
    var j :| 0 <= j < |list| && list[j] == new_;
    assert Moved(list, old_, new_)[i] == Moved(list, old_, new_)[j];
  }

  lemma RenamedDistinct(a: Accepts, b: Accepts, old_: string, new_: string)
    requires Exact(a) && Holders(a.lists, old_) !! Holders(a.lists, new_)
    requires b.lists == map u | u in a.lists :: Moved(a.lists[u], old_, new_)
    ensures forall u :: u in b.lists ==> Distinct(b.lists[u])
  {
    forall u | u in b.lists ensures Distinct(b.lists[u]) {
      var l := a.lists[u];
      assert !(old_ in l && new_ in l) by {
        assert u in Holders(a.lists, old_) <==> old_ in l;
        assert u in Holders(a.lists, new_) <==> new_ in l;
      }
    }
  }

  lemma RenamedCounts(a: Accepts, uid: Uid, new_: string)
    requires Exact(a) && uid in a.nick && Allowed(a, Renames(uid, new_)) && a.nick[uid] != "" && a.nick[uid] != new_
    ensures Counted(Rename(a, uid, new_))
  {
    hide Distinct;
    var b, old_ := Rename(a, uid, new_), a.nick[uid];
    forall n ensures CountOf(b.count, n) == |Holders(b.lists, n)| {
      MovedHolders(a.lists, b.lists, old_, new_, n);
    }
  }

  lemma MovedHolders(l: map<Uid, seq<string>>, m: map<Uid, seq<string>>, old_: string, new_: string, n: string)
    requires old_ != new_ && m == map u | u in l :: Moved(l[u], old_, new_)
    ensures Holders(m, n) ==
      if n == old_ then {} else if n == new_ then Holders(l, new_) + Holders(l, old_) else Holders(l, n)
  {
    forall u | u in l
      ensures n in m[u] <==> if n == old_ then false else if n == new_ then new_ in l[u] || old_ in l[u] else n in l[u]
    {
      forall i | 0 <= i < |l[u]| ensures l[u][i] in l[u] && m[u][i] in m[u] {}
    }
  }

  /** Two entries collapse: after a rename onto an accepted nick and one removal, a nick in no list is still counted. */
  lemma RenameMiscounts()
    ensures var a := Run(EMPTY, [Connects(0), Connects(1), Renames(1, "old"), Adds(0, "old"), Adds(0, "new"),
                                 Renames(1, "new"), Removes(0, "new")]);
      CountOf(a.count, "new") == 1 && Holders(a.lists, "new") == {}
  {
    var a1 := Accepts(map[0 := "", 1 := ""], map[0 := [], 1 := []], map[]);
    var a2 := Step(Step(Step(a1, Renames(1, "old")), Adds(0, "old")), Adds(0, "new"));
    assert a2.lists[0] == ["old", "new"] && a2.count == map["old" := 1, "new" := 1];
    var a3 := Step(a2, Renames(1, "new"));
    assert a3.lists[0] == ["new", "new"] && CountOf(a3.count, "new") == 2;
    var a4 := Step(a3, Removes(0, "new"));
    assert a3.lists[0][0] == "new";
    assert CountOf(a4.count, "new") == 1 && Holders(a4.lists, "new") == {};
    assert Step(Step(EMPTY, Connects(0)), Connects(1)) == a1;
    RunSeven(EMPTY, Connects(0), Connects(1), Renames(1, "old"), Adds(0, "old"), Adds(0, "new"), Renames(1, "new"),
             Removes(0, "new"));
  }

  lemma RunSeven(a: Accepts, e0: Edit, e1: Edit, e2: Edit, e3: Edit, e4: Edit, e5: Edit, e6: Edit)
    ensures Run(a, [e0, e1, e2, e3, e4, e5, e6]) ==
      Step(Step(Step(Step(Step(Step(Step(a, e0), e1), e2), e3), e4), e5), e6)
  {
    hide Step;
    RunCons(a, e0, [e1, e2, e3, e4, e5, e6]);
    RunCons(Step(a, e0), e1, [e2, e3, e4, e5, e6]);
    RunCons(Step(Step(a, e0), e1), e2, [e3, e4, e5, e6]);
    RunCons(Step(Step(Step(a, e0), e1), e2), e3, [e4, e5, e6]);
    RunCons(Step(Step(Step(Step(a, e0), e1), e2), e3), e4, [e5, e6]);
    RunCons(Step(Step(Step(Step(Step(a, e0), e1), e2), e3), e4), e5, [e6]);
    RunCons(Step(Step(Step(Step(Step(Step(a, e0), e1), e2), e3), e4), e5), e6, []);
  }

  lemma RunCons(a: Accepts, e: Edit, es: seq<Edit>)
    ensures Run(a, [e] + es) == Run(Step(a, e), es)
  {
    hide Step;
    assert ([e] + es)[1..] == es;
  }

  ghost predicate AllowedRun(a: Accepts, es: seq<Edit>)
    decreases |es|
  {
    es == [] || (Allowed(a, es[0]) && AllowedRun(Step(a, es[0]), es[1..]))
  }

  lemma StepExact(a: Accepts, e: Edit)
    requires Exact(a) && Allowed(a, e)
    ensures Exact(Step(a, e))
  {
    hide Distinct, FewerAll, Scrubbed, Rename;
    match e {
      case Connects(uid) => ConnectExact(a, uid);
      case Adds(uid, n) => if uid in a.lists { AddExact(a, uid, n); }
      case Removes(uid, n) => if uid in a.lists && n in a.lists[uid] { RemoveExact(a, uid, n); }
      case Renames(uid, n) => if uid in a.nick { RenameExact(a, uid, n); } else { RenameUnknown(a, uid, n); }
      case Quits(uid) => if uid in a.lists { QuitExact(a, uid); }
    }
  }

  lemma RenameUnknown(a: Accepts, uid: Uid, n: string)
    requires uid !in a.nick
    ensures Rename(a, uid, n) == a
  {
  }

  lemma ConnectExact(a: Accepts, uid: Uid)
    requires Exact(a)
    ensures Exact(Connect(a, uid))
  {
    var b := Connect(a, uid);
    forall n ensures CountOf(b.count, n) == |Holders(b.lists, n)| {
      assert Holders(b.lists, n) == Holders(a.lists, n);
    }
  }

  /** Over every run of edits, quits and non-colliding renames, each count is exactly the number of lists. */
  lemma {:induction false} RunExact(a: Accepts, es: seq<Edit>)
    requires Exact(a) && AllowedRun(a, es)
    ensures Exact(Run(a, es))
    decreases |es|
  {
    hide Exact, Allowed, Step;
    if es != [] {
      StepExact(a, es[0]);
      RunExact(Step(a, es[0]), es[1..]);
    }
  }
}
