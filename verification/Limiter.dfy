/** The token-bucket accept limiter of src/socketengine.rs, in exact arithmetic. */
module Limiter {
  import opened Wrappers

  type Ip = nat

  datatype Bucket = Bucket(tokens: real, last: real)

  /** Buckets by source address, and when idle ones were last forgotten. */
  datatype Limits = Limits(rate: nat, burst: nat, buckets: map<Ip, Bucket>, lastPrune: real)

  datatype Call = Call(ip: Ip, now: real)

  /** `from_conf`: off when the rate is 0; a burst of 0 means one second's worth. */
  function FromConf(rate: nat, burst: nat, now: real): Option<Limits> {
    if rate == 0 then None else Some(Limits(rate, if burst == 0 then rate else burst, map[], now))
  }

  function Refilled(l: Limits, b: Bucket, now: real): real {
    var t := b.tokens + Earned(l.rate, now - b.last);
    if t <= l.burst as real then t else l.burst as real
  }

  function Earned(rate: nat, seconds: real): real {
    rate as real * seconds
  }

  /** The periodic forgetting of addresses idle for a minute. */
  function Forget(l: Limits, now: real): Limits {
    if now - l.lastPrune >= 30.0 then
      l.(buckets := map ip | ip in l.buckets && now - l.buckets[ip].last < 60.0 :: l.buckets[ip], lastPrune := now)
    else l
  }

  function Entry(l: Limits, ip: Ip, now: real): Bucket {
    if ip in l.buckets then l.buckets[ip] else Bucket(l.burst as real, now)
  }

  /** Tokens one address has at a time. */
  function Avail(l: Limits, ip: Ip, now: real): real {
    Refilled(l, Entry(l, ip, now), now)
  }

  function Taken(l: Limits, ip: Ip, now: real): (Limits, bool) {
    var refilled := Avail(l, ip, now);
    if refilled >= 1.0 then (l.(buckets := l.buckets[ip := Bucket(refilled - 1.0, now)]), true)
    else (l.(buckets := l.buckets[ip := Bucket(refilled, now)]), false)
  }

  /** One decision; `forgets` false is the reference limiter that keeps every bucket. */
  function Allow(l: Limits, c: Call, forgets: bool): (Limits, bool) {
    Taken(if forgets then Forget(l, c.now) else l, c.ip, c.now)
  }

  /** `AcceptLimiter`, its state updated in place. */
  class AcceptLimiter {
    const rate: nat
    const burst: nat
    var buckets: map<Ip, Bucket>
    var lastPrune: real

    constructor (rate: nat, burst: nat, now: real)
      requires rate > 0
      ensures Some(State()) == FromConf(rate, burst, now) && buckets == map[] && lastPrune == now
      ensures this.rate == rate && this.burst == if burst == 0 then rate else burst
    {
      this.rate, this.burst := rate, if burst == 0 then rate else burst;
      buckets, lastPrune := map[], now;
    }

    function State(): Limits
      reads this
    {
      Limits(rate, burst, buckets, lastPrune)
    }

    /** If a minute fills a bucket: granted iff the address has a token, which only it then pays. */
    method Decide(ip: Ip, now: real) returns (ok: bool)
      requires Sane(State(), now)
      modifies this
      ensures (State(), ok) == Allow(old(State()), Call(ip, now), true) && Sane(State(), now)
      ensures burst <= 60 * rate ==> (ok <==> old(Avail(State(), ip, now)) >= 1.0)
      ensures burst <= 60 * rate ==>
        forall i :: Avail(State(), i, now) == old(Avail(State(), i, now)) - if ok && i == ip then 1.0 else 0.0
    {
      hide Sane;
      DecideFair(State(), ip, now);
      if now - lastPrune >= 30.0 {
        buckets := map k | k in buckets && now - buckets[k].last < 60.0 :: buckets[k];
        lastPrune := now;
      }
      var entry := if ip in buckets then buckets[ip] else Bucket(burst as real, now);
      var refilled := Refilled(State(), entry, now);
      if refilled >= 1.0 {
        buckets := buckets[ip := Bucket(refilled - 1.0, now)];
        ok := true;
      } else {
        buckets := buckets[ip := Bucket(refilled, now)];
        ok := false;
      }
    }
  }

  lemma DecideFair(l: Limits, ip: Ip, now: real)
    requires Sane(l, now)
    ensures var (next, ok) := Allow(l, Call(ip, now), true);
      && Sane(next, now)
      && (l.burst <= 60 * l.rate ==> (ok <==> Avail(l, ip, now) >= 1.0))
      && (l.burst <= 60 * l.rate ==>
            forall i :: Avail(next, i, now) == Avail(l, i, now) - if ok && i == ip then 1.0 else 0.0)
  {
    hide Avail, Sane;
    var c := Call(ip, now);
    AllowSane(l, c, true);
    if l.burst <= 60 * l.rate {
      ForgetUnseen(l, ip, now);
      forall i ensures Avail(Allow(l, c, true).0, i, now) ==
        Avail(l, i, now) - if Allow(l, c, true).1 && i == ip then 1.0 else 0.0
      {
        AllowAvail(l, c, i, true);
      }
    }
  }

  /** Waiting earns `rate` tokens a second up to the burst; an address not known has the whole burst. */
  lemma Waiting(l: Limits, ip: Ip, now: real, later: real)
    requires Sane(l, now) && now <= later
    ensures var level := Avail(l, ip, now) + l.rate as real * (later - now);
      ip in l.buckets ==> Avail(l, ip, later) == if level <= l.burst as real then level else l.burst as real
    ensures ip !in l.buckets ==> Avail(l, ip, later) == l.burst as real
  {
    hide Earned;
    var b := Entry(l, ip, now);
    EarnedSum(l.rate, now - b.last, later - now);
    EarnedZero(l.rate);
    EarnedGrows(l.rate, 0.0, later - now);
    assert (now - b.last) + (later - now) == later - b.last;
    assert Earned(l.rate, later - now) == l.rate as real * (later - now) by { EarnedIs(l.rate, later - now); }
    EarnedZero(l.rate);
  }

  lemma EarnedIs(rate: nat, seconds: real)
    ensures Earned(rate, seconds) == rate as real * seconds
  {
  }

  /** After a decision the caller is known; every half minute those idle for a minute are forgotten. */
  lemma Remembers(l: Limits, c: Call, ip: Ip)
    ensures var next := Allow(l, c, true).0;
      && (ip in next.buckets <==>
            ip == c.ip || (ip in l.buckets && (c.now - l.lastPrune < 30.0 || c.now - l.buckets[ip].last < 60.0)))
      && (ip in next.buckets && ip != c.ip ==> next.buckets[ip] == l.buckets[ip])
      && next.buckets[c.ip].last == c.now
      && next.lastPrune == if c.now - l.lastPrune < 30.0 then l.lastPrune else c.now
  {
  }

  // ----- runs -----

  function Decisions(l: Limits, calls: seq<Call>, forgets: bool): (r: seq<bool>)
    ensures |r| == |calls|
    decreases |calls|
  {
    if calls == [] then []
    else
      var (next, ok) := Allow(l, calls[0], forgets);
      [ok] + Decisions(next, calls[1..], forgets)
  }

  /** The clock does not go back. */
  ghost predicate Ticks(now: real, calls: seq<Call>)
    decreases |calls|
  {
    calls == [] || (now <= calls[0].now && Ticks(calls[0].now, calls[1..]))
  }

  ghost predicate Sane(l: Limits, now: real) {
    && l.rate >= 1 && l.burst >= 1 && l.lastPrune <= now
    && forall ip :: ip in l.buckets ==> 0.0 <= l.buckets[ip].tokens <= l.burst as real && l.buckets[ip].last <= now
  }

  lemma EarnedSum(rate: nat, a: real, b: real)
    ensures Earned(rate, a + b) == Earned(rate, a) + Earned(rate, b)
  {
  }

  lemma EarnedGrows(rate: nat, a: real, b: real)
    requires a <= b
    ensures Earned(rate, a) <= Earned(rate, b)
  {
    EarnedSum(rate, a, b - a);
  }

  lemma EarnedZero(rate: nat)
    ensures Earned(rate, 0.0) == 0.0
  {
  }

  lemma AvailBounds(l: Limits, ip: Ip, now: real)
    requires Sane(l, now)
    ensures 0.0 <= Avail(l, ip, now) <= l.burst as real
  {
    hide Earned;
    EarnedZero(l.rate);
    EarnedGrows(l.rate, 0.0, now - Entry(l, ip, now).last);
  }

  lemma AllowSane(l: Limits, c: Call, forgets: bool)
    requires Sane(l, c.now)
    ensures Sane(Allow(l, c, forgets).0, c.now)
  {
    hide Avail;
    var f := if forgets then Forget(l, c.now) else l;
    AvailBounds(f, c.ip, c.now);
  }

  /** As time passes an address gains at most what the rate gives. */
  lemma AvailLater(l: Limits, ip: Ip, now: real, later: real)
    requires Sane(l, now) && now <= later
    ensures Avail(l, ip, later) <= Avail(l, ip, now) + Earned(l.rate, later - now)
  {
    hide Earned;
    EarnedZero(l.rate);
    EarnedGrows(l.rate, 0.0, later - now);
    if ip in l.buckets {
      EarnedSum(l.rate, now - l.buckets[ip].last, later - now);
      assert (now - l.buckets[ip].last) + (later - now) == later - l.buckets[ip].last;
    }
  }

  /** Forgetting a bucket that has had time to fill changes nothing an address can see. */
  lemma ForgetUnseen(l: Limits, ip: Ip, now: real)
    requires Sane(l, now) && l.burst <= 60 * l.rate
    ensures Avail(Forget(l, now), ip, now) == Avail(l, ip, now)
  {
    hide Earned;
    EarnedZero(l.rate);
    if ip in l.buckets && now - l.buckets[ip].last >= 60.0 {
      EarnedGrows(l.rate, 60.0, now - l.buckets[ip].last);
      EarnedMinute(l.rate);
    }
  }

  lemma EarnedMinute(rate: nat)
    ensures Earned(rate, 60.0) == (60 * rate) as real
  {
  }

  lemma TakenAvail(l: Limits, c: Call, ip: Ip)
    requires Sane(l, c.now)
    ensures var (next, ok) := Taken(l, c.ip, c.now);
      Avail(next, ip, c.now) == Avail(l, ip, c.now) - if ok && c.ip == ip then 1.0 else 0.0
  {
    hide Earned;
    EarnedZero(l.rate);
    AvailBounds(l, c.ip, c.now);
  }

  // ----- the window bound -----

  function Accepted(calls: seq<Call>, oks: seq<bool>, ip: Ip): nat
    requires |oks| == |calls|
  {
    if calls == [] then 0
    else (if oks[0] && calls[0].ip == ip then 1 else 0) + Accepted(calls[1..], oks[1..], ip)
  }

  lemma AllowAvail(l: Limits, c: Call, ip: Ip, forgets: bool)
    requires Sane(l, c.now) && (forgets ==> l.burst <= 60 * l.rate)
    ensures var (next, ok) := Allow(l, c, forgets);
      Avail(next, ip, c.now) == Avail(l, ip, c.now) - if ok && c.ip == ip then 1.0 else 0.0
  {
    hide Avail, Taken;
    if forgets { ForgetUnseen(l, ip, c.now); }
    TakenAvail(if forgets then Forget(l, c.now) else l, c, ip);
  }

  /** Tokens spent are tokens held or earned. */
  lemma {:induction false} Spending(l: Limits, calls: seq<Call>, ip: Ip, forgets: bool, now: real, end: real)
    requires Sane(l, now) && Ticks(now, calls) && (forgets ==> l.burst <= 60 * l.rate)
    requires end == if calls == [] then now else calls[|calls| - 1].now
    ensures Accepted(calls, Decisions(l, calls, forgets), ip) as real <= Avail(l, ip, now) + Earned(l.rate, end - now)
    decreases |calls|
  {
    hide Avail, Earned, Taken, Forget;
    EarnedZero(l.rate);
    if calls == [] {
      AvailBounds(l, ip, now);
    } else {
      var c := calls[0];
      var (next, ok) := Allow(l, c, forgets);
      AvailLater(l, ip, now, c.now);
      AllowSane(l, c, forgets);
      AllowAvail(l, c, ip, forgets);
      SameConf(l, c, forgets);
      Spending(next, calls[1..], ip, forgets, c.now, end);
      EarnedSum(l.rate, c.now - now, end - c.now);
      assert (c.now - now) + (end - c.now) == end - now;
      assert Decisions(l, calls, forgets)[1..] == Decisions(next, calls[1..], forgets);
    }
  }

  lemma SameConf(l: Limits, c: Call, forgets: bool)
    ensures var next := Allow(l, c, forgets).0; next.rate == l.rate && next.burst == l.burst
  {
  }

  /** In any window of a run, one address is accepted at most `burst + rate * length` times. */
  lemma WindowBound(l: Limits, calls: seq<Call>, ip: Ip, forgets: bool, now: real)
    requires Sane(l, now) && calls != [] && Ticks(now, calls) && (forgets ==> l.burst <= 60 * l.rate)
    ensures Accepted(calls, Decisions(l, calls, forgets), ip) as real <=
      l.burst as real + Earned(l.rate, calls[|calls| - 1].now - calls[0].now)
  {
    hide Earned, Avail;
    assert Sane(l, calls[0].now);
    Spending(l, calls, ip, forgets, calls[0].now, calls[|calls| - 1].now);
    AvailBounds(l, ip, calls[0].now);
  }

  lemma {:induction false} DecisionsPrefix(l: Limits, calls: seq<Call>, forgets: bool, j: nat)
    requires j <= |calls|
    ensures Decisions(l, calls, forgets)[..j] == Decisions(l, calls[..j], forgets)
    decreases j
  {
    hide Allow;
    if j > 0 {
      var next := Allow(l, calls[0], forgets).0;
      DecisionsPrefix(next, calls[1..], forgets, j - 1);
      assert calls[..j][1..] == calls[1..][..j - 1];
    }
  }

  lemma {:induction false} TicksPrefix(now: real, calls: seq<Call>, j: nat)
    requires Ticks(now, calls) && j <= |calls|
    ensures Ticks(now, calls[..j])
    decreases j
  {
    if j > 0 {
      TicksPrefix(calls[0].now, calls[1..], j - 1);
      assert calls[..j][1..] == calls[1..][..j - 1];
    }
  }

  /** The state after the first `i` calls, from which the rest are decided. */
  lemma {:induction false} Reached(l: Limits, calls: seq<Call>, now: real, i: nat) returns (m: Limits, at: real)
    requires Sane(l, now) && Ticks(now, calls) && i <= |calls|
    ensures Sane(m, at) && Ticks(at, calls[i..]) && m.rate == l.rate && m.burst == l.burst
    ensures Decisions(l, calls, true)[i..] == Decisions(m, calls[i..], true)
    decreases i
  {
    hide Allow, Sane;
    if i == 0 {
      m, at := l, now;
      assert calls[0..] == calls;
    } else {
      var c := calls[0];
      var next := Allow(l, c, true).0;
      SaneLater(l, now, c.now);
      AllowSane(l, c, true);
      SameConf(l, c, true);
      m, at := Reached(next, calls[1..], c.now, i - 1);
      assert calls[1..][i - 1..] == calls[i..];
    }
  }

  /** The bound for calls i..j of a run, whatever came before them. */
  lemma RunWindow(l: Limits, calls: seq<Call>, ip: Ip, now: real, i: nat, j: nat)
    requires Sane(l, now) && Ticks(now, calls) && l.burst <= 60 * l.rate && i < j <= |calls|
    ensures Accepted(calls[i..j], Decisions(l, calls, true)[i..j], ip) as real <=
      l.burst as real + Earned(l.rate, calls[j - 1].now - calls[i].now)
  {
    hide Earned, Allow, Accepted, Decisions, Sane, Ticks;
    var m, at := Reached(l, calls, now, i);
    var rest := calls[i..];
    DecisionsPrefix(m, rest, true, j - i);
    TicksPrefix(at, rest, j - i);
    WindowBound(m, rest[..j - i], ip, true, at);
    SliceEnd(calls, i, j);
    SliceEnd(Decisions(l, calls, true), i, j);
  }

  lemma SliceEnd<T>(s: seq<T>, i: nat, j: nat)
    requires i <= j <= |s|
    ensures s[i..][..j - i] == s[i..j]
  {
  }

  /** Calls i..j of the run stay within the bound for the time they take. */
  ghost predicate InBound(l: Limits, calls: seq<Call>, ip: Ip, i: nat, j: nat)
    requires i < j <= |calls|
  {
    Accepted(calls[i..j], Decisions(l, calls, true)[i..j], ip) as real <=
      l.burst as real + Earned(l.rate, calls[j - 1].now - calls[i].now)
  }

  /** Every window of every run of a fresh limiter stays within the bound. */
  ghost predicate AlwaysInBound(rate: nat, burst: nat) {
    var l := Limits(rate, burst, map[], 0.0);
    forall calls, ip, i: nat, j: nat :: Ticks(0.0, calls) && i < j <= |calls| ==> InBound(l, calls, ip, i, j)
  }

  // ----- when forgetting is invisible -----

  /** The forgetting limiter `p` against the reference `u`: a bucket only `u` has was idle for a minute. */
  ghost predicate Similar(p: Limits, u: Limits, now: real) {
    && p.rate == u.rate && p.burst == u.burst && Sane(p, now) && Sane(u, now)
    && (forall ip :: ip in p.buckets ==> ip in u.buckets && u.buckets[ip] == p.buckets[ip])
    && (forall ip :: ip in u.buckets && ip !in p.buckets ==> now - u.buckets[ip].last >= 60.0)
  }

  lemma SimilarAvail(p: Limits, u: Limits, ip: Ip, now: real)
    requires Similar(p, u, now) && p.burst <= 60 * p.rate
    ensures Avail(p, ip, now) == Avail(u, ip, now)
  {
    hide Earned;
    EarnedZero(p.rate);
    if ip in u.buckets && ip !in p.buckets {
      EarnedGrows(u.rate, 60.0, now - u.buckets[ip].last);
      EarnedMinute(u.rate);
    }
  }

  lemma SimilarStep(p: Limits, u: Limits, c: Call)
    requires Similar(p, u, c.now) && p.burst <= 60 * p.rate
    ensures var ((p', ok), (u', ok')) := (Allow(p, c, true), Allow(u, c, false)); ok == ok' && Similar(p', u', c.now)
  {
    hide Avail, Sane;
    var f := Forget(p, c.now);
    assert Similar(f, u, c.now) by { ForgetSane(p, c.now); }
    SimilarAvail(f, u, c.ip, c.now);
    AllowSane(p, c, true);
    AllowSane(u, c, false);
  }

  lemma ForgetSane(l: Limits, now: real)
    requires Sane(l, now)
    ensures Sane(Forget(l, now), now)
  {
  }

  lemma {:induction false} SameDecisions(p: Limits, u: Limits, calls: seq<Call>, now: real)
    requires Similar(p, u, now) && Ticks(now, calls) && p.burst <= 60 * p.rate
    ensures Decisions(p, calls, true) == Decisions(u, calls, false)
    decreases |calls|
  {
    hide Allow, Sane;
    if calls != [] {
      var c := calls[0];
      assert Similar(p, u, c.now) by { SaneLater(p, now, c.now); SaneLater(u, now, c.now); }
      SimilarStep(p, u, c);
      SameConf(p, c, true);
      SameDecisions(Allow(p, c, true).0, Allow(u, c, false).0, calls[1..], c.now);
    }
  }

  lemma SaneLater(l: Limits, now: real, later: real)
    requires Sane(l, now) && now <= later
    ensures Sane(l, later)
  {
  }

  /** Some continuation is decided differently. */
  ghost predicate Diverges(p: Limits, u: Limits, now: real) {
    exists calls :: Ticks(now, calls) && Decisions(p, calls, true) != Decisions(u, calls, false)
  }

  lemma DivergesNow(p: Limits, u: Limits, c: Call, now: real)
    requires now <= c.now && Allow(p, c, true).1 != Allow(u, c, false).1
    ensures Diverges(p, u, now)
  {
    hide Allow;
    var calls := [c];
    assert Ticks(c.now, calls[1..]);
    assert Ticks(now, calls);
    assert Decisions(p, calls, true)[0] != Decisions(u, calls, false)[0];
  }

  lemma DivergesNext(p: Limits, u: Limits, c: Call, now: real)
    requires now <= c.now && Diverges(Allow(p, c, true).0, Allow(u, c, false).0, c.now)
    ensures Diverges(p, u, now)
  {
    hide Allow;
    var p', u' := Allow(p, c, true).0, Allow(u, c, false).0;
    var rest :| Ticks(c.now, rest) && Decisions(p', rest, true) != Decisions(u', rest, false);
    var calls := [c] + rest;
    assert calls[1..] == rest;
    assert Decisions(p, calls, true)[1..] == Decisions(p', rest, true);
    assert Decisions(u, calls, false)[1..] == Decisions(u', rest, false);
  }

  /** A limiter holding one bucket, just used. */
  function One(rate: nat, burst: nat, tokens: real, now: real, lastPrune: real): Limits {
    Limits(rate, burst, map[0 := Bucket(tokens, now)], lastPrune)
  }

  lemma OneTaken(rate: nat, burst: nat, x: real, now: real, lp: real, forgets: bool)
    requires x <= burst as real && (forgets ==> now - lp < 30.0)
    ensures Allow(One(rate, burst, x, now, lp), Call(0, now), forgets) ==
      if x >= 1.0 then (One(rate, burst, x - 1.0, now, lp), true) else (One(rate, burst, x, now, lp), false)
  {
    hide Earned;
    EarnedZero(rate);
    var m := map[0 := Bucket(x, now)];
    assert m[0 := Bucket(x - 1.0, now)] == map[0 := Bucket(x - 1.0, now)];
    assert m[0 := Bucket(x, now)] == m;
  }

  /** After a quiet minute the forgetting limiter is full again, the reference has only what it earned. */
  lemma QuietMinute(rate: nat, burst: nat)
    requires rate >= 1 && burst > 60 * rate
    ensures Diverges(One(rate, burst, 0.0, 0.0, 0.0), One(rate, burst, 0.0, 0.0, 0.0), 0.0)
  {
    hide Earned, Diverges, Allow;
    var p, c := One(rate, burst, 0.0, 0.0, 0.0), Call(0, 60.0);
    AfterMinute(rate, burst);
    GapDiverges(rate, burst, burst - 1, 60 * rate - 1, 60.0, 60.0, 0.0);
    DivergesNext(p, p, c, 0.0);
  }

  lemma AfterMinute(rate: nat, burst: nat)
    requires rate >= 1 && burst > 60 * rate
    ensures var p, c := One(rate, burst, 0.0, 0.0, 0.0), Call(0, 60.0);
      && Allow(p, c, true).0 == One(rate, burst, (burst - 1) as real, 60.0, 60.0)
      && Allow(p, c, false).0 == One(rate, burst, (60 * rate - 1) as real, 60.0, 0.0)
  {
    hide Earned;
    EarnedZero(rate);
    EarnedMinute(rate);
    var p, f := One(rate, burst, 0.0, 0.0, 0.0), Forget(One(rate, burst, 0.0, 0.0, 0.0), 60.0);
    assert f.buckets == map[];
    var left := Bucket((60 * rate - 1) as real, 60.0);
    assert map[0 := Bucket(0.0, 0.0)][0 := left] == map[0 := left];
  }

  /** Unequal whole buckets diverge once the smaller is drained. */
  lemma {:induction false} GapDiverges(rate: nat, burst: nat, x: nat, y: nat, now: real, lp: real, lq: real)
    requires y < x <= burst && now - lp < 30.0
    ensures Diverges(One(rate, burst, x as real, now, lp), One(rate, burst, y as real, now, lq), now)
    decreases y
  {
    hide Allow, Diverges, One;
    var p, u, c := One(rate, burst, x as real, now, lp), One(rate, burst, y as real, now, lq), Call(0, now);
    OneTaken(rate, burst, x as real, now, lp, true);
    OneTaken(rate, burst, y as real, now, lq, false);
    if y == 0 {
      DivergesNow(p, u, c, now);
    } else {
      GapDiverges(rate, burst, x - 1, y - 1, now, lp, lq);
      DivergesNext(p, u, c, now);
    }
  }

  /** Draining a bucket both limiters agree on. */
  lemma {:induction false} DrainDiverges(rate: nat, burst: nat, x: nat)
    requires rate >= 1 && burst > 60 * rate && x <= burst
    ensures Diverges(One(rate, burst, x as real, 0.0, 0.0), One(rate, burst, x as real, 0.0, 0.0), 0.0)
    decreases x
  {
    hide Allow, Diverges, One;
    if x == 0 {
      QuietMinute(rate, burst);
    } else {
      var p := One(rate, burst, x as real, 0.0, 0.0);
      OneTaken(rate, burst, x as real, 0.0, 0.0, true);
      OneTaken(rate, burst, x as real, 0.0, 0.0, false);
      DrainDiverges(rate, burst, x - 1);
      DivergesNext(p, p, Call(0, 0.0), 0.0);
    }
  }

  lemma FreshDiverges(rate: nat, burst: nat)
    requires rate >= 1 && burst > 60 * rate
    ensures var l := Limits(rate, burst, map[], 0.0); Diverges(l, l, 0.0)
  {
    hide Earned, Diverges;
    EarnedZero(rate);
    var l := Limits(rate, burst, map[], 0.0);
    assert map[][0 := Bucket((burst - 1) as real, 0.0)] == map[0 := Bucket((burst - 1) as real, 0.0)];
    DrainDiverges(rate, burst, burst - 1);
    DivergesNext(l, l, Call(0, 0.0), 0.0);
  }

  /** Forgetting idle addresses changes some decision of a fresh limiter exactly when a minute cannot fill a bucket. */
  lemma ForgettingInvisible(rate: nat, burst: nat)
    requires rate >= 1 && burst >= 1
    ensures var l := Limits(rate, burst, map[], 0.0); !Diverges(l, l, 0.0) <==> burst <= 60 * rate
  {
    var l := Limits(rate, burst, map[], 0.0);
    if burst <= 60 * rate {
      forall calls | Ticks(0.0, calls) ensures Decisions(l, calls, true) == Decisions(l, calls, false) {
        SameDecisions(l, l, calls, 0.0);
      }
    } else {
      FreshDiverges(rate, burst);
    }
  }

  // ----- without it the window bound fails -----

  /** `k` calls from address 0 at one time. */
  function Many(k: nat, now: real): (r: seq<Call>)
    ensures |r| == k && forall i :: 0 <= i < k ==> r[i] == Call(0, now)
  {
    seq(k, _ => Call(0, now))
  }

  lemma {:induction false} ManyTick(k: nat, now: real, rest: seq<Call>)
    requires Ticks(now, rest)
    ensures Ticks(now, Many(k, now) + rest)
    decreases k
  {
    if k == 0 {
      assert Many(k, now) + rest == rest;
    } else {
      ManyTick(k - 1, now, rest);
      assert (Many(k, now) + rest)[1..] == Many(k - 1, now) + rest;
    }
  }

  /** What is accepted from here on. */
  function Gets(l: Limits, calls: seq<Call>): nat {
    Accepted(calls, Decisions(l, calls, true), 0)
  }

  lemma GetsNext(l: Limits, c: Call, rest: seq<Call>)
    requires c.ip == 0
    ensures Gets(l, [c] + rest) == (if Allow(l, c, true).1 then 1 else 0) + Gets(Allow(l, c, true).0, rest)
  {
    hide Allow;
    assert ([c] + rest)[1..] == rest;
    assert Decisions(l, [c] + rest, true)[1..] == Decisions(Allow(l, c, true).0, rest, true);
  }

  /** A bucket of `x` tokens grants the next `x` calls. */
  lemma {:induction false} DrainGets(rate: nat, burst: nat, x: nat, now: real, lp: real, rest: seq<Call>)
    requires x <= burst && now - lp < 30.0
    ensures Gets(One(rate, burst, x as real, now, lp), Many(x, now) + rest) ==
      x + Gets(One(rate, burst, 0.0, now, lp), rest)
    decreases x
  {
    hide Allow, Gets, One;
    if x == 0 {
      assert Many(x, now) + rest == rest;
    } else {
      var l, tail := One(rate, burst, x as real, now, lp), Many(x - 1, now) + rest;
      assert Many(x, now) + rest == [Call(0, now)] + tail;
      OneTaken(rate, burst, x as real, now, lp, true);
      GetsNext(l, Call(0, now), tail);
      DrainGets(rate, burst, x - 1, now, lp, rest);
    }
  }

  lemma FirstTaken(rate: nat, burst: nat)
    requires burst >= 1
    ensures Allow(Limits(rate, burst, map[], 0.0), Call(0, 0.0), true) ==
      (One(rate, burst, (burst - 1) as real, 0.0, 0.0), true)
  {
    hide Earned;
    EarnedZero(rate);
    assert map[][0 := Bucket((burst - 1) as real, 0.0)] == map[0 := Bucket((burst - 1) as real, 0.0)];
  }

  lemma MinuteTaken(rate: nat, burst: nat)
    requires rate >= 1 && burst > 60 * rate
    ensures Allow(One(rate, burst, 0.0, 0.0, 0.0), Call(0, 60.0), true) ==
      (One(rate, burst, (burst - 1) as real, 60.0, 60.0), true)
  {
    hide Earned;
    EarnedZero(rate);
    assert Forget(One(rate, burst, 0.0, 0.0, 0.0), 60.0).buckets == map[];
    assert map[][0 := Bucket((burst - 1) as real, 60.0)] == map[0 := Bucket((burst - 1) as real, 60.0)];
  }

  /** A full bucket spent, a minute of silence, and a full bucket spent again. */
  lemma TwoBursts(rate: nat, burst: nat)
    requires rate >= 1 && burst > 60 * rate
    ensures Gets(Limits(rate, burst, map[], 0.0), Many(burst, 0.0) + Many(burst, 60.0)) == 2 * burst
  {
    hide Allow, Gets, One;
    var l, second := Limits(rate, burst, map[], 0.0), Many(burst, 60.0);
    FirstTaken(rate, burst);
    assert Many(burst, 0.0) + second == [Call(0, 0.0)] + (Many(burst - 1, 0.0) + second);
    GetsNext(l, Call(0, 0.0), Many(burst - 1, 0.0) + second);
    DrainGets(rate, burst, burst - 1, 0.0, 0.0, second);
    MinuteTaken(rate, burst);
    assert second == [Call(0, 60.0)] + (Many(burst - 1, 60.0) + []);
    GetsNext(One(rate, burst, 0.0, 0.0, 0.0), Call(0, 60.0), Many(burst - 1, 60.0) + []);
    DrainGets(rate, burst, burst - 1, 60.0, 60.0, []);
    assert Gets(One(rate, burst, 0.0, 60.0, 60.0), []) == 0 by { GetsNothing(One(rate, burst, 0.0, 60.0, 60.0)); }
  }

  lemma GetsNothing(l: Limits)
    ensures Gets(l, []) == 0
  {
  }

  /** The window bound holds for every run of a fresh limiter iff a minute fills a bucket. */
  lemma WindowExact(rate: nat, burst: nat)
    requires rate >= 1 && burst >= 1
    ensures AlwaysInBound(rate, burst) <==> burst <= 60 * rate
  {
    hide Accepted, Decisions, Earned, Ticks;
    var l := Limits(rate, burst, map[], 0.0);
    if burst <= 60 * rate {
      forall calls, ip, i: nat, j: nat | Ticks(0.0, calls) && i < j <= |calls| ensures InBound(l, calls, ip, i, j) {
        RunWindow(l, calls, ip, 0.0, i, j);
      }
    } else {
      var calls := Many(burst, 0.0) + Many(burst, 60.0);
      BurstsTick(burst);
      TwoBursts(rate, burst);
      EarnedMinute(rate);
      var oks := Decisions(l, calls, true);
      assert calls[0..2 * burst] == calls && oks[0..2 * burst] == oks;
      assert !InBound(l, calls, 0, 0, 2 * burst);
    }
  }

  lemma BurstsTick(burst: nat)
    ensures Ticks(0.0, Many(burst, 0.0) + Many(burst, 60.0))
  {
    ManyTick(burst, 60.0, []);
    assert Many(burst, 60.0) + [] == Many(burst, 60.0);
    TicksEarlier(0.0, 60.0, Many(burst, 60.0));
    ManyTick(burst, 0.0, Many(burst, 60.0));
  }

  lemma TicksEarlier(now: real, later: real, calls: seq<Call>)
    requires now <= later && Ticks(later, calls)
    ensures Ticks(now, calls)
  {
  }
}
