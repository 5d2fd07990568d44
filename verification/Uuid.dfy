/** Minting network ids: SID and six base-26 letters (`next_uuid` in src/link.rs). */
module Uuid {
  import opened Wrappers
  import opened Channels

  const LETTERS := 6

  function Letter(d: nat): char
    requires d < 26
  {
    'A' + d as char
  }

  /** The last `k` base-26 digits of `x`, most significant first. */
  function Suffix(x: nat, k: nat): (r: string)
    ensures |r| == k
  {
    if k == 0 then "" else Suffix(x / 26, k - 1) + [Letter(x % 26)]
  }

  /** The base-26 number a suffix spells, `A` for 0 to `Z` for 25. */
  function Value(s: string): int {
    if s == "" then 0 else 26 * Value(s[..|s| - 1]) + (s[|s| - 1] as int - 'A' as int)
  }

  /** A suffix is `k` capitals spelling the counter, which comes round again after 26^k. */
  lemma {:induction false} SuffixSpells(x: nat, k: nat)
    ensures forall i :: 0 <= i < k ==> 'A' <= Suffix(x, k)[i] <= 'Z'
    ensures x < Power26(k) ==> Value(Suffix(x, k)) == x
    ensures Suffix(x + Power26(k), k) == Suffix(x, k)
  {
    if k > 0 {
      SuffixSpells(x / 26, k - 1);
      var s := Suffix(x, k);
      assert s[..k - 1] == Suffix(x / 26, k - 1);
      assert (x + Power26(k)) / 26 == x / 26 + Power26(k - 1) && (x + Power26(k)) % 26 == x % 26;
    }
  }

  function IdOf(sid: string, counter: nat): (r: string)
    ensures |r| == |sid| + LETTERS && sid <= r
  {
    sid + Suffix(counter, LETTERS)
  }

  function Power26(k: nat): nat {
    if k == 0 then 1 else 26 * Power26(k - 1)
  }

  /** Counters less than 26^k apart have different suffixes. */
  lemma {:induction false} SuffixDistinct(x: nat, y: nat, k: nat)
    requires x < y < x + Power26(k)
    ensures Suffix(x, k) != Suffix(y, k)
  {
    var sx, sy := Suffix(x, k), Suffix(y, k);
    assert sx[k - 1] == Letter(x % 26) && sy[k - 1] == Letter(y % 26);
    if x % 26 == y % 26 {
      assert x / 26 < y / 26 < x / 26 + Power26(k - 1);
      SuffixDistinct(x / 26, y / 26, k - 1);
      assert sx[..k - 1] == Suffix(x / 26, k - 1) && sy[..k - 1] == Suffix(y / 26, k - 1);
    }
  }

  lemma IdsDistinct(sid: string, x: nat, y: nat)
    requires x < y < x + Power26(LETTERS)
    ensures IdOf(sid, x) != IdOf(sid, y)
  {
    SuffixDistinct(x, y, LETTERS);
    assert IdOf(sid, x)[|sid|..] == Suffix(x, LETTERS) && IdOf(sid, y)[|sid|..] == Suffix(y, LETTERS);
  }

  /** The ids in use under a SID. */
  function Live(taken: set<string>, sid: string): set<string> {
    set x | x in taken && sid <= x
  }

  class Mint {
    const sid: string
    var counter: nat

    constructor (sid: string)
      ensures this.sid == sid && counter == 0
    {
      this.sid, counter := sid, 0;
    }

    /** The first id from the counter on that neither table holds. */
    method NextUuid(uuidLocal: map<string, Uid>, remoteUsers: set<string>) returns (uuid: string)
      requires |Live(uuidLocal.Keys + remoteUsers, sid)| < Power26(LETTERS)
      modifies this
      ensures uuid !in uuidLocal && uuid !in remoteUsers && |uuid| == |sid| + LETTERS && sid <= uuid
      ensures old(counter) < counter && uuid == IdOf(sid, counter - 1)
      ensures forall c :: old(counter) <= c < counter - 1 ==> IdOf(sid, c) in uuidLocal || IdOf(sid, c) in remoteUsers
    {
      hide IdOf, Power26;
      ghost var live := Live(uuidLocal.Keys + remoteUsers, sid);
      ghost var tried: set<string> := {};
      while true
        invariant old(counter) <= counter && |tried| == counter - old(counter) && tried <= live
        invariant forall x :: x in tried ==> exists c :: old(counter) <= c < counter && IdOf(sid, c) == x
        invariant forall c :: old(counter) <= c < counter ==> IdOf(sid, c) in uuidLocal || IdOf(sid, c) in remoteUsers
        decreases |live| - |tried|
      {
        SubsetSize(tried, live);
        var x := counter;
        uuid := Spell(x);
        counter := counter + 1;
        if uuid !in uuidLocal && uuid !in remoteUsers {
          return;
        }
        forall c | old(counter) <= c < x ensures IdOf(sid, c) != uuid { IdsDistinct(sid, c, x); }
        assert uuid in live && uuid !in tried;
        tried := tried + {uuid};
        SubsetSize(tried, live);
      }
    }

    /** The letters, filled in from the right. */
    method Spell(x: nat) returns (uuid: string)
      ensures uuid == IdOf(sid, x)
    {
      var rest, suffix := x, "";
      for i := 0 to LETTERS
        invariant |suffix| == i && Suffix(rest, LETTERS - i) + suffix == Suffix(x, LETTERS)
      {
        assert Suffix(rest, LETTERS - i) == Suffix(rest / 26, LETTERS - i - 1) + [Letter(rest % 26)];
        suffix := [Letter(rest % 26)] + suffix;
        rest := rest / 26;
      }
      uuid := sid + suffix;
    }
  }

  lemma {:induction false} SubsetSize(a: set<string>, b: set<string>)
    requires a <= b
    ensures |a| <= |b|
  {
    assert b == a + (b - a);
  }

  /** There are 26^6 suffixes. */
  lemma Space()
    ensures Power26(LETTERS) == 308915776
  {
    assert Power26(3) == 17576;
  }
}
