/** One connection's bounded output queue in the reactor of src/socketengine.rs. */
module OutputQueue {
  import opened Wrappers

  type Byte = x: int | 0 <= x < 256

  const CRLF: seq<Byte> := [13, 10]

  /** Bytes queued, how far they are written, and the connection's flags and limits. */
  datatype Conn = Conn(wbuf: seq<Byte>, wpos: nat, paused: bool, closing: bool, hardsendq: nat, softsendq: nat)

  ghost predicate Within(c: Conn) {
    c.wpos <= |c.wbuf|
  }

  function Pending(c: Conn): nat
    requires c.wpos <= |c.wbuf|
  {
    |c.wbuf| - c.wpos
  }

  function Unsent(c: Conn): seq<Byte>
    requires c.wpos <= |c.wbuf|
  {
    c.wbuf[c.wpos..]
  }

  predicate Overflows(c: Conn, line: seq<Byte>)
    requires c.wpos <= |c.wbuf|
  {
    Pending(c) + |line| + 2 > c.hardsendq
  }

  /** A line from the core: appended with CRLF, or, past hardsendq, everything queued is dropped. */
  function Queue(c: Conn, line: seq<Byte>): Conn
    requires Within(c)
  {
    if Overflows(c, line) then c.(wbuf := [], wpos := 0, closing := true)
    else
      var wbuf := Unsent(c) + line + CRLF;
      c.(wbuf := wbuf, wpos := 0, paused := c.paused || |wbuf| > c.softsendq)
  }

  /** What the socket answers to a write. */
  datatype Reply = Wrote(n: nat) | Blocked | Interrupted | Failed

  /** The write loop against the socket's replies: the new position, and whether the socket failed. */
  function WriteOut(size: nat, wpos: nat, replies: seq<Reply>): (r: (nat, bool))
    requires wpos <= size
    ensures wpos <= r.0 <= size
    decreases |replies|
  {
    if wpos == size || replies == [] then (wpos, false)
    else
      match replies[0]
      case Wrote(n) =>
        if n == 0 then (wpos, false) else WriteOut(size, if wpos + n < size then wpos + n else size, replies[1..])
      case Blocked => (wpos, false)
      case Interrupted => WriteOut(size, wpos, replies[1..])
      case Failed => (wpos, true)
  }

  /** `flush_conn`: write what the socket takes, un-pause below softsendq, and say whether to close. */
  function Flush(c: Conn, replies: seq<Reply>, flushFails: bool, wantsWrite: bool): (r: (Conn, seq<Byte>, bool))
    requires Within(c)
    ensures Within(r.0)
  {
    var (wpos, failed) := WriteOut(|c.wbuf|, c.wpos, replies);
    var wrote := c.wbuf[c.wpos..wpos];
    var d := if wpos == |c.wbuf| then c.(wbuf := [], wpos := 0) else c.(wpos := wpos);
    var e := if d.paused && Pending(d) <= d.softsendq then d.(paused := false) else d;
    (e, wrote, failed || flushFails || (e.closing && e.wbuf == [] && !wantsWrite))
  }

  /** The connection's fields, updated in place by the reactor loop and `flush_conn`. */
  class Connection {
    var wbuf: seq<Byte>
    var wpos: nat
    var paused: bool
    var closing: bool
    var hardsendq: nat
    var softsendq: nat

    constructor (hardsendq: nat, softsendq: nat)
      ensures State() == Conn([], 0, false, false, hardsendq, softsendq)
    {
      wbuf, wpos, paused, closing := [], 0, false, false;
      this.hardsendq, this.softsendq := hardsendq, softsendq;
    }

    function State(): Conn
      reads this
    {
      Conn(wbuf, wpos, paused, closing, hardsendq, softsendq)
    }

    /** The line and CRLF follow what was unsent; past hardsendq everything goes and the connection closes. */
    method Enqueue(line: seq<Byte>)
      requires Within(State())
      modifies this
      ensures State() == Queue(old(State()), line) && Within(State())
      ensures var fits := |old(wbuf[wpos..])| + |line| + 2 <= hardsendq;
        && Unsent(State()) == (if fits then old(wbuf[wpos..]) + line + [13, 10] else [])
        && (closing <==> old(closing) || !fits)
        && (paused <==> old(paused) || (fits && |Unsent(State())| > softsendq))
      ensures hardsendq == old(hardsendq) && softsendq == old(softsendq)
      ensures Pending(State()) <= hardsendq && (Pending(State()) > softsendq ==> paused)
    {
      if |wbuf| - wpos + |line| + 2 > hardsendq {
        wbuf, wpos, closing := [], 0, true;
      } else {
        if wpos > 0 {
          wbuf, wpos := wbuf[wpos..], 0;
        }
        wbuf := wbuf + line;
        wbuf := wbuf + CRLF;
        if |wbuf| > softsendq {
          paused := true;
        }
      }
    }

    method FlushTo(replies: seq<Reply>, flushFails: bool, wantsWrite: bool) returns (wrote: seq<Byte>, close: bool)
      requires Within(State())
      modifies this
      ensures (State(), wrote, close) == Flush(old(State()), replies, flushFails, wantsWrite)
    {
      var start, k: nat := wpos, 0;
      close := false;
      while wpos < |wbuf| && k < |replies|
        modifies `wpos
        invariant start <= wpos <= |wbuf| && k <= |replies| && !close
        invariant WriteOut(|wbuf|, wpos, replies[k..]) == WriteOut(|wbuf|, start, replies)
        decreases |replies| - k
      {
        var reply := replies[k];
        k := k + 1;
        assert replies[k - 1..][1..] == replies[k..];
        if reply.Failed? {
          close := true;
          break;
        } else if reply.Blocked? || (reply.Wrote? && reply.n == 0) {
          break;
        } else if reply.Wrote? {
          wpos := if wpos + reply.n < |wbuf| then wpos + reply.n else |wbuf|;
        }
      }
      wrote := wbuf[start..wpos];
      if wpos == |wbuf| {
        wbuf, wpos := [], 0;
      }
      close := close || flushFails;
      if paused && |wbuf| - wpos <= softsendq {
        paused := false;
      }
      close := close || (closing && wbuf == [] && !wantsWrite);
    }
  }

  // ----- runs -----

  datatype Action =
    | Line(bytes: seq<Byte>)
    | CloseAsked
    | Flushed(replies: seq<Reply>, flushFails: bool, wantsWrite: bool)

  /** A run so far: the connection while it lives, what the socket took, what was queued, and what went wrong. */
  datatype Trace = Trace(conn: Option<Conn>, written: seq<Byte>, queued: seq<Byte>, overflowed: bool, failed: bool)

  function Next(t: Trace, a: Action): Trace
    requires t.conn.Some? ==> Within(t.conn.value)
  {
    if t.conn.None? then t
    else
      var c := t.conn.value;
      match a
      case Line(bytes) =>
        t.(conn := Some(Queue(c, bytes)), queued := t.queued + bytes + CRLF,
           overflowed := t.overflowed || Overflows(c, bytes))
      case CloseAsked => t.(conn := Some(c.(closing := true)))
      case Flushed(replies, flushFails, wantsWrite) =>
        var (d, wrote, close) := Flush(c, replies, flushFails, wantsWrite);
        t.(conn := if close then None else Some(d), written := t.written + wrote,
           failed := t.failed || flushFails || WriteOut(|c.wbuf|, c.wpos, replies).1)
  }

  function Run(t: Trace, actions: seq<Action>): Trace
    requires TraceOk(t)
    decreases |actions|
  {
    if actions == [] then t
    else
      NextOk(t, actions[0]);
      Run(Next(t, actions[0]), actions[1..])
  }

  function Fresh(hardsendq: nat, softsendq: nat): Trace {
    Trace(Some(Conn([], 0, false, false, hardsendq, softsendq)), [], [], false, false)
  }

  /** Nothing lost, nothing reordered, nothing over the hard limit, and paused above the soft one. */
  ghost predicate TraceOk(t: Trace) {
    match t.conn
    case Some(c) =>
      && Within(c) && Pending(c) <= c.hardsendq && (Pending(c) > c.softsendq ==> c.paused)
      && (!t.overflowed ==> t.written + Unsent(c) == t.queued)
    case None => !t.overflowed ==> t.written <= t.queued && (!t.failed ==> t.written == t.queued)
  }

  lemma QueueOk(t: Trace, bytes: seq<Byte>)
    requires TraceOk(t) && t.conn.Some?
    ensures TraceOk(Next(t, Line(bytes)))
  {
    var c := t.conn.value;
    if !Overflows(c, bytes) {
      assert t.written + (Unsent(c) + bytes + CRLF) == t.written + Unsent(c) + bytes + CRLF;
    }
  }

  /** A reply after which writing goes on. */
  predicate GoesOn(r: Reply) {
    r.Interrupted? || (r.Wrote? && r.n > 0)
  }

  function Sum(replies: seq<Reply>): nat {
    if replies == [] then 0 else (if replies[0].Wrote? then replies[0].n else 0) + Sum(replies[1..])
  }

  /** Writing takes what the replies before the first stop add up to, or all there is; it fails iff that stop does. */
  lemma {:induction false} WriteOutMeans(size: nat, wpos: nat, replies: seq<Reply>, k: nat)
    requires wpos <= size && k <= |replies| && (forall i :: 0 <= i < k ==> GoesOn(replies[i]))
    requires k < |replies| ==> !GoesOn(replies[k])
    ensures var took := wpos + Sum(replies[..k]);
      && WriteOut(size, wpos, replies).0 == (if took <= size then took else size)
      && (WriteOut(size, wpos, replies).1 <==> took < size && k < |replies| && replies[k].Failed?)
    decreases |replies|
  {
    if k == 0 {
      assert replies[..0] == [];
    } else {
      assert GoesOn(replies[0]);
      assert replies[..k][1..] == replies[1..][..k - 1];
      var next := if replies[0].Wrote? then wpos + replies[0].n else wpos;
      if wpos < size {
        WriteOutMeans(size, if next <= size then next else size, replies[1..], k - 1);
      }
    }
  }

  /** A flush moves a prefix of the unsent bytes to the wire, and leaves reads paused iff too much remains. */
  lemma FlushSplits(c: Conn, replies: seq<Reply>, flushFails: bool, wantsWrite: bool)
    requires Within(c) && (Pending(c) > c.softsendq ==> c.paused)
    ensures var (d, wrote, close) := Flush(c, replies, flushFails, wantsWrite);
      && wrote + Unsent(d) == Unsent(c) && |wrote| == WriteOut(|c.wbuf|, c.wpos, replies).0 - c.wpos
      && d.hardsendq == c.hardsendq && d.softsendq == c.softsendq && d.closing == c.closing
      && (d.paused <==> Pending(d) > d.softsendq)
      && (close <==> flushFails || WriteOut(|c.wbuf|, c.wpos, replies).1 ||
                     (c.closing && Unsent(d) == [] && !wantsWrite))
  {
    var wpos := WriteOut(|c.wbuf|, c.wpos, replies).0;
    assert c.wbuf[c.wpos..wpos] + c.wbuf[wpos..] == c.wbuf[c.wpos..];
    assert wpos < |c.wbuf| ==> c.wbuf[wpos..] != [];
  }

  lemma FlushOk(t: Trace, a: Action)
    requires TraceOk(t) && t.conn.Some? && a.Flushed?
    ensures TraceOk(Next(t, a))
    ensures var n := Next(t, a);
      n.conn.Some? ==> (n.conn.value.paused <==> Pending(n.conn.value) > n.conn.value.softsendq)
  {
    hide Flush, Queue;
    var c := t.conn.value;
    FlushSplits(c, a.replies, a.flushFails, a.wantsWrite);
    var (d, wrote, close) := Flush(c, a.replies, a.flushFails, a.wantsWrite);
    assert |wrote| + |Unsent(d)| == |Unsent(c)|;
    assert t.written + (wrote + Unsent(d)) == (t.written + wrote) + Unsent(d);
  }

  /** A run starts open, with nothing queued, written or lost. */
  lemma Starts(hardsendq: nat, softsendq: nat)
    ensures var t := Fresh(hardsendq, softsendq);
      && t.conn.Some? && t.written == [] && t.queued == [] && !t.overflowed && !t.failed
      && Within(t.conn.value) && Unsent(t.conn.value) == [] && !t.conn.value.paused && !t.conn.value.closing
  {
  }

  /** A line is lost exactly when it would not fit, which starts the closing. */
  lemma LineCounts(t: Trace, bytes: seq<Byte>)
    requires TraceOk(t) && t.conn.Some?
    ensures var (n, c) := (Next(t, Line(bytes)), t.conn.value);
      var lost := |Unsent(c)| + |bytes| + 2 > c.hardsendq;
      && n.conn.Some? && (n.overflowed <==> t.overflowed || lost) && n.failed == t.failed
      && n.queued == t.queued + bytes + [13, 10] && n.written == t.written
      && (n.conn.value.closing <==> c.closing || lost)
  {
  }

  /** A connection ends with the flush after which it is to close and has nothing left, or on a failure, only. */
  lemma EndsWhenDrained(t: Trace, asked: bool, replies: seq<Reply>, flushFails: bool, wantsWrite: bool)
    requires TraceOk(t) && t.conn.Some?
    ensures var u := if asked then Next(t, CloseAsked) else t;
      var (c, left) := (t.conn.value, WriteOut(|t.conn.value.wbuf|, t.conn.value.wpos, replies));
      && u.conn.Some? && Within(u.conn.value) && Unsent(u.conn.value) == Unsent(c)
      && (u.written, u.queued, u.overflowed, u.failed) == (t.written, t.queued, t.overflowed, t.failed)
      && var n := Next(u, Flushed(replies, flushFails, wantsWrite));
         && (n.conn.None? <==> flushFails || left.1 || ((asked || c.closing) && left.0 == |c.wbuf| && !wantsWrite))
         && (n.failed <==> t.failed || flushFails || left.1) && n.queued == t.queued && n.overflowed == t.overflowed
  {
    hide Queue, WriteOut;
    var u := if asked then Next(t, CloseAsked) else t;
    FlushSplits(u.conn.value, replies, flushFails, wantsWrite);
  }

  lemma NextOk(t: Trace, a: Action)
    requires TraceOk(t)
    ensures TraceOk(Next(t, a))
  {
    hide Flush, Queue;
    if t.conn.Some? {
      match a {
        case Line(bytes) => QueueOk(t, bytes);
        case CloseAsked =>
        case Flushed(_, _, _) => FlushOk(t, a);
      }
    }
  }

  lemma {:induction false} RunOk(t: Trace, actions: seq<Action>)
    requires TraceOk(t)
    ensures TraceOk(Run(t, actions))
    decreases |actions|
  {
    hide Flush, Queue;
    if actions != [] {
      NextOk(t, actions[0]);
      RunOk(Next(t, actions[0]), actions[1..]);
    }
  }

  /**
   * Every run of queued lines, partial writes and closes: until the first overflow the bytes taken by the socket and
   * the unsent ones are exactly the queued lines in order, and unsent bytes never exceed hardsendq; a connection
   * closed without a socket failure had written everything.
   */
  lemma OutputExact(hardsendq: nat, softsendq: nat, actions: seq<Action>)
    ensures TraceOk(Fresh(hardsendq, softsendq))
    ensures var t := Run(Fresh(hardsendq, softsendq), actions);
      && (t.conn.Some? ==> Within(t.conn.value) && Pending(t.conn.value) <= hardsendq)
      && (!t.overflowed && t.conn.Some? ==> t.written + Unsent(t.conn.value) == t.queued)
      && (!t.overflowed && t.conn.None? && !t.failed ==> t.written == t.queued)
  {
    RunOk(Fresh(hardsendq, softsendq), actions);
    LimitsKept(Fresh(hardsendq, softsendq), actions, hardsendq);
  }

  lemma {:induction false} LimitsKept(t: Trace, actions: seq<Action>, hardsendq: nat)
    requires TraceOk(t) && (t.conn.Some? ==> t.conn.value.hardsendq == hardsendq)
    ensures var n := Run(t, actions); n.conn.Some? ==> n.conn.value.hardsendq == hardsendq
    decreases |actions|
  {
    if actions != [] {
      NextOk(t, actions[0]);
      LimitsKept(Next(t, actions[0]), actions[1..], hardsendq);
    }
  }
}
