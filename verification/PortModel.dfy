/** The serial port, the clock and the calls the Go code makes on them.

    The port library itself is not modelled: every call may take any legal
    course, including an error or a panic. A call leaves a record in `log`, so
    that what the callers do can be stated about the log. */
module PortModel {
  import opened Basics

  newtype byte = b: int | 0 <= b < 256

  /** Nanoseconds on an abstract monotone clock. */
  type Time = int

  const MILLISECOND: Time := 1_000_000
  const SECOND: Time := 1_000_000_000

  /** How a call came back: normally, with an error, or with a Go panic. */
  datatype End = Returned | Failed | Panicked

  /** One call on the port: what it asked for and what came of it. A Read asks
      for up to `room` bytes; its data is what a successful read returned (bytes
      that come with an error are dropped by every caller, so they are not
      recorded). The data of a Write is what the port accepted of what it was
      offered. `at` is the moment a SetTimeout was made, and a Read or Write
      returned; a Write was made at `from`. */
  datatype Call =
    | SetTimeout(wait: Time, at: Time, end: End)
    | Read(room: nat, data: seq<byte>, at: Time, end: End)
    | Write(offered: seq<byte>, data: seq<byte>, from: Time, at: Time, end: End)
    | SetMode(baud: int, end: End)

  /** The calls that bypass the conches, and how one came back. */
  datatype Control =
    ResetInput | ResetOutput | DrainOutput | SetRts(on: bool) | SetDtr(on: bool) | Break(time: Time) | GetStatus

  datatype Performed = Performed(what: Control, end: End)

  /** The operations that take a conch. */
  datatype Op = ReadOp | WriteOp | EchoOp | StreamOp | ModeOp

  datatype ConchId = ReadConch | WriteConch

  /** What an operation does with a conch, and how many calls have been made by
      then. */
  datatype Move = Got(c: ConchId, mark: nat) | GaveUp(c: ConchId, mark: nat) | PutBack(c: ConchId, mark: nat)

  /** How an operation deals with its conches when its calls are those from
      `lo` to `hi`: it makes all of them with every conch it needs in hand. It
      takes the write conch first and returns it last, and gives up without a
      call when it cannot have one. */
  predicate Conduct(op: Op, moves: seq<Move>, lo: nat, hi: nat) {
    var r, w := ReadConch, WriteConch;
    match op
    case ReadOp => moves == [Got(r, lo), PutBack(r, hi)] || (lo == hi && moves == [GaveUp(r, lo)])
    case StreamOp => moves == [Got(r, lo), PutBack(r, hi)] || (lo == hi && moves == [GaveUp(r, lo)])
    case WriteOp => moves == [Got(w, lo), PutBack(w, hi)] || (lo == hi && moves == [GaveUp(w, lo)])
    case _ =>
      || moves == [Got(w, lo), Got(r, lo), PutBack(r, hi), PutBack(w, hi)]
      || (lo == hi && (moves == [GaveUp(w, lo)] || moves == [Got(w, lo), GaveUp(r, lo), PutBack(w, lo)]))
  }

  predicate GivesUp(moves: seq<Move>) {
    exists i :: 0 <= i < |moves| && moves[i].GaveUp?
  }

  lemma GivesUpIff(op: Op, moves: seq<Move>, lo: nat, hi: nat)
    requires Conduct(op, moves, lo, hi)
    ensures GivesUp(moves) <==> |moves| == 1 || |moves| == 3
  {
    assert |moves| == 1 ==> moves[0].GaveUp?;
    assert |moves| == 3 ==> moves[1].GaveUp?;
  }

  /** Bytes returned by the successful reads of a log. */
  function Received(log: seq<Call>): seq<byte> {
    if log == [] then [] else
      Received(Front(log)) + (if Last(log).Read? then Last(log).data else [])
  }

  /** Bytes the port accepted. */
  function Accepted(log: seq<Call>): seq<byte> {
    if log == [] then [] else
      Accepted(Front(log)) + (if Last(log).Write? then Last(log).data else [])
  }

  /** The results of the successful reads, one by one; [] stands for a gap. */
  function Results(log: seq<Call>): seq<seq<byte>> {
    if log == [] then [] else
      var c := Last(log);
      Results(Front(log)) + (if c.Read? && c.end.Returned? then [c.data] else [])
  }

  lemma Snoc(log: seq<Call>, c: Call)
    ensures Received(log + [c]) == Received(log) + (if c.Read? then c.data else [])
    ensures Accepted(log + [c]) == Accepted(log) + (if c.Write? then c.data else [])
    ensures Results(log + [c]) == Results(log) + (if c.Read? && c.end.Returned? then [c.data] else [])
  {
    assert Front(log + [c]) == log;
  }

  lemma {:induction false} ReceivedConcat(a: seq<Call>, b: seq<Call>)
    ensures Received(a + b) == Received(a) + Received(b)
  {
    if b == [] {
      assert a + b == a;
    } else {
      ReceivedConcat(a, Front(b));
      assert a + b == a + Front(b) + [Last(b)];
      Snoc(a + Front(b), Last(b));
    }
  }

  /** The next read is bounded by the timeout this operation has just set. */
  predicate Armed(calls: seq<Call>) {
    calls != [] && Last(calls).SetTimeout? && Last(calls).end.Returned?
  }

  /** An operation makes no call after one that failed or panicked. */
  predicate Halted(calls: seq<Call>) {
    calls != [] && !Last(calls).end.Returned?
  }

  predicate EndsFailed(calls: seq<Call>) {
    calls != [] && Last(calls).end.Failed?
  }

  predicate EndsPanicked(calls: seq<Call>) {
    calls != [] && Last(calls).end.Panicked?
  }

  /** Which call an operation may make next, given the calls it has made. A
      read that does not return normally returns nothing. */
  predicate Permits(op: Op, calls: seq<Call>, c: Call) {
    && !Halted(calls)
    && match c
       case SetTimeout(_, _, _) => op.ReadOp? || op.EchoOp? || op.StreamOp?
       case Read(_, data, _, end) =>
         (op.ReadOp? || op.EchoOp? || op.StreamOp?) && Armed(calls) && (end.Returned? || data == [])
       case Write(_, _, _, _, _) => op.WriteOp? || op.EchoOp?
       case SetMode(_, _) => op.ModeOp?
  }

  /** A call sequence that the operation may produce. */
  predicate Follows(op: Op, calls: seq<Call>) {
    calls == [] || (Follows(op, Front(calls)) && Permits(op, Front(calls), Last(calls)))
  }

  lemma FollowsSnoc(op: Op, calls: seq<Call>, c: Call)
    requires Follows(op, calls) && Permits(op, calls, c)
    ensures Follows(op, calls + [c]) && Last(calls + [c]) == c
    ensures Halted(calls + [c]) == !c.end.Returned? && Armed(calls + [c]) == (c.SetTimeout? && c.end.Returned?)
  {
    assert Front(calls + [c]) == calls;
  }

  /** A read right after its timeout has been set. */
  lemma {:induction false} FollowsRead(op: Op, calls: seq<Call>, a: Call, b: Call)
    requires Follows(op, calls) && Permits(op, calls, a) && a.SetTimeout? && a.end.Returned?
    requires b.Read? && (b.end.Returned? || b.data == [])
    ensures Follows(op, calls + [a] + [b]) && Last(calls + [a] + [b]) == b
    ensures Halted(calls + [a] + [b]) == !b.end.Returned?
  {
    FollowsSnoc(op, calls, a);
    FollowsSnoc(op, calls + [a], b);
  }

  /** One more permitted call after `before` and `calls`. */
  lemma Extend(op: Op, before: seq<Call>, calls: seq<Call>, c: Call)
    requires Follows(op, calls) && Permits(op, calls, c)
    ensures before + calls + [c] == before + (calls + [c])
    ensures (before + calls + [c])[|before|..] == calls + [c]
    ensures Follows(op, calls + [c])
    ensures Received(calls + [c]) == Received(calls) + (if c.Read? then c.data else [])
    ensures Accepted(calls + [c]) == Accepted(calls) + (if c.Write? then c.data else [])
    ensures Results(calls + [c]) == Results(calls) + (if c.Read? && c.end.Returned? then [c.data] else [])
  {
    FollowsSnoc(op, calls, c);
    Snoc(calls, c);
    Regroup(before, calls, [c]);
  }

  // ---- what the operations ask for --------------------------------------------

  /** The time an operation has: from when, until when, and what passes at most
      between two of its calls. */
  datatype Limits = Limits(since: Time, deadline: Time, slack: nat)

  /** The moment of the last call. */
  function Latest(calls: seq<Call>, since: Time): Time {
    if calls == [] || Last(calls).SetMode? then since else Last(calls).at
  }

  /** The last call was a read that came back with nothing. */
  predicate EmptyHanded(calls: seq<Call>) {
    calls != [] && Last(calls).Read? && Last(calls).end.Returned? && Last(calls).data == []
  }

  /** A read of `total` bytes asks for all that is missing, without a pause and
      ready to wait until the deadline, and asks for nothing after a call that
      brought nothing. */
  predicate ReadAsks(total: nat, lim: Limits, calls: seq<Call>) {
    calls == [] ||
    (&& ReadAsks(total, lim, Front(calls))
     && !EmptyHanded(Front(calls))
     && var c := Last(calls);
        && (c.SetTimeout? ==> c.at + c.wait == lim.deadline && 0 < c.wait)
        && (c.SetTimeout? ==> c.at <= Latest(Front(calls), lim.since) + lim.slack)
        && (c.Read? ==> 0 < c.room && |Received(Front(calls))| + c.room == total))
  }

  /** A plain write offers all that is left, without a pause, and tries again only
      as long as the last try was back by the deadline. */
  predicate WriteAsks(data: seq<byte>, lim: Limits, calls: seq<Call>) {
    calls == [] ||
    (&& WriteAsks(data, lim, Front(calls))
     && var c, done := Last(calls), |Accepted(Front(calls))|;
        && (c.Write? ==> done < |data| && c.offered == data[done..] && InTime(c, lim, Front(calls))))
  }

  /** A write that comes without a pause, and by the deadline if it is another
      try. */
  predicate InTime(c: Call, lim: Limits, calls: seq<Call>)
    requires c.Write?
  {
    && c.from <= Latest(calls, lim.since) + lim.slack
    && (calls != [] && Last(calls).Write? ==> Last(calls).at <= lim.deadline)
  }

  /** An echo write offers one byte, again only by the deadline, and then reads
      one byte at a time, without a pause and ready to wait until the deadline. */
  predicate EchoAsks(lim: Limits, calls: seq<Call>) {
    calls == [] ||
    (&& EchoAsks(lim, Front(calls))
     && var c := Last(calls);
        && (c.SetTimeout? ==> c.at + c.wait == lim.deadline && 0 < c.wait)
        && (c.SetTimeout? ==> c.at <= Latest(Front(calls), lim.since) + lim.slack)
        && (c.Read? ==> c.room == 1)
        && (c.Write? ==> |c.offered| == 1 && InTime(c, lim, Front(calls))))
  }

  lemma ReadAsksSnoc(total: nat, lim: Limits, calls: seq<Call>, c: Call)
    requires ReadAsks(total, lim, calls) && !EmptyHanded(calls)
    requires c.SetTimeout? ==>
      c.at + c.wait == lim.deadline && 0 < c.wait && c.at <= Latest(calls, lim.since) + lim.slack
    requires c.Read? ==> 0 < c.room && |Received(calls)| + c.room == total
    ensures ReadAsks(total, lim, calls + [c])
  {
    assert Front(calls + [c]) == calls;
  }

  lemma WriteAsksSnoc(data: seq<byte>, lim: Limits, calls: seq<Call>, c: Call)
    requires WriteAsks(data, lim, calls) && c.Write? && InTime(c, lim, calls)
    requires |Accepted(calls)| < |data| && c.offered == data[|Accepted(calls)|..]
    ensures WriteAsks(data, lim, calls + [c])
  {
    assert Front(calls + [c]) == calls;
  }

  lemma EchoAsksSnoc(lim: Limits, calls: seq<Call>, c: Call)
    requires EchoAsks(lim, calls)
    requires c.SetTimeout? ==>
      c.at + c.wait == lim.deadline && 0 < c.wait && c.at <= Latest(calls, lim.since) + lim.slack
    requires c.Read? ==> c.room == 1
    requires c.Write? ==> |c.offered| == 1 && InTime(c, lim, calls)
    ensures EchoAsks(lim, calls + [c])
  {
    assert Front(calls + [c]) == calls;
  }

  /** The port an operation works on, together with the clock.

      `slack` bounds the time every call takes beyond what it was asked to
      wait, and `supply` is the number of bytes the device will still deliver.
      Both are arbitrary; every finite run has such numbers. A read or write
      that moves no byte takes at least one tick. */
  class Port {
    const slack: nat
    var clock: Time
    var supply: nat
    var readTimeout: Time
    ghost var log: seq<Call>
    ghost var controls: seq<Performed>
    /** How each Close came back. */
    ghost var closes: seq<End>
    /** What the operations on this port have done with its conches. */
    ghost var moves: seq<Move>

    constructor (slack: nat, supply: nat)
      ensures log == [] && controls == [] && closes == [] && moves == []
      ensures this.slack == slack && this.supply == supply
    {
      this.slack, this.supply, this.clock, this.readTimeout := slack, supply, 0, 0;
      this.log, this.controls, this.closes, this.moves := [], [], [], [];
    }

    method Now() returns (t: Time)
      modifies this`clock
      ensures t == clock && old(clock) <= clock <= old(clock) + slack
    {
      var d: int := *;
      clock := clock + Max(0, Min(d, slack));
      t := clock;
    }

    method SetReadTimeout(wait: Time) returns (end: End)
      modifies this`clock, this`readTimeout, this`log
      ensures log == old(log) + [Call.SetTimeout(wait, old(clock), end)]
      ensures end.Returned? ==> readTimeout == wait
      ensures old(clock) <= clock <= old(clock) + slack
    {
      end := *;
      log := log + [Call.SetTimeout(wait, clock, end)];
      var d: int := *;
      clock := clock + Max(0, Min(d, slack));
      if end.Returned? {
        readTimeout := wait;
      }
    }

    /** Reads into dst[lo..]. Only the first n bytes from lo on are touched. */
    method Read(dst: array<byte>, lo: nat) returns (n: nat, end: End)
      requires lo <= dst.Length
      modifies this`clock, this`supply, this`log, dst
      ensures lo + n <= dst.Length && n <= old(supply) && supply == old(supply) - n
      ensures forall k :: 0 <= k < dst.Length && !(lo <= k < lo + n) ==> dst[k] == old(dst[k])
      ensures log == old(log) + [Call.Read(dst.Length - lo, if end.Returned? then dst[lo..lo + n] else [], clock, end)]
      ensures old(clock) <= clock <= old(clock) + Max(1, readTimeout) + slack
      ensures n == 0 ==> old(clock) < clock
    {
      var data: seq<byte> := *;
      n := Min(|data|, Min(dst.Length - lo, supply));
      forall k | 0 <= k < n {
        dst[lo + k] := data[k];
      }
      supply := supply - n;
      var d: int := *;
      clock := clock + Max(1, Min(d, Max(1, readTimeout) + slack));
      end := *;
      log := log + [Call.Read(dst.Length - lo, if end.Returned? then dst[lo..lo + n] else [], clock, end)];
    }

    /** Accepts the first n bytes of data. */
    method Write(data: seq<byte>) returns (n: nat, end: End)
      modifies this`clock, this`log
      ensures n <= |data|
      ensures log == old(log) + [Call.Write(data, data[..n], old(clock), clock, end)]
      ensures old(clock) <= clock && (n == 0 ==> old(clock) < clock)
    {
      var count: int := *;
      n := Max(0, Min(count, |data|));
      ghost var from := clock;
      var d: int := *;
      clock := clock + Max(1, d);
      end := *;
      log := log + [Call.Write(data, data[..n], from, clock, end)];
    }

    method SetMode(baud: int) returns (end: End)
      modifies this`clock, this`log
      ensures log == old(log) + [Call.SetMode(baud, end)]
      ensures old(clock) <= clock
    {
      var d: int := *;
      clock := clock + Max(0, d);
      end := *;
      log := log + [Call.SetMode(baud, end)];
    }

    method Perform(c: Control) returns (end: End)
      modifies this`controls
      ensures controls == old(controls) + [Performed(c, end)]
    {
      end := *;
      controls := controls + [Performed(c, end)];
    }

    method Close() returns (end: End)
      modifies this`closes
      ensures closes == old(closes) + [end]
    {
      end := *;
      closes := closes + [end];
    }
  }
}
