/** The I/O loops of one open port. */
module SerialIO {
  import opened Basics
  import opened PortModel
  import opened Chunking
  import opened ChunkSinks
  import opened SinkCalls
  import opened Echo

  /** What an operation reports. DeadlineExceeded is the context's own error,
      IOTimeout the one BufferedRead gives; ShortWrite carries the counts of
      the "%d of %d bytes written" message. */
  datatype IOResult =
    | Ok
    | DeadlineExceeded
    | IOTimeout
    | ShortWrite(written: nat, total: nat)
    | PortError
    | Panic

  datatype BufferedReadOpts =
    BufferedReadOpts(idleAllowance: Time, noDataTimeout: Time, pollTimeout: Time, batchSize: nat)

  const MODE_CHANGE_TIMEOUT: Time := 30 * SECOND

  /** A channel of capacity one; holding its token is holding the conch. The
      tokens other tasks put back while one waits are the subject of module
      Conches. */
  class Conch {
    const id: ConchId
    var tokens: nat

    constructor (id: ConchId)
      ensures tokens == 1 && this.id == id
    {
      this.id, tokens := id, 1;
    }

    /** With a token present and the deadline passed, either branch of the
        select may be taken. */
    method Acquire(port: Port, deadline: Time) returns (ok: bool)
      requires tokens <= 1
      modifies this, port`clock, port`moves
      ensures ok ==> old(tokens) == 1 && tokens == 0 && port.clock <= old(port.clock) + port.slack
      ensures !ok ==> tokens == old(tokens) && deadline <= port.clock
      ensures !ok && old(tokens) == 1 ==> deadline <= old(port.clock) + port.slack
      ensures port.moves == old(port.moves) + [if ok then Got(id, |port.log|) else GaveUp(id, |port.log|)]
      ensures old(port.clock) <= port.clock <= Max(old(port.clock), deadline) + port.slack
    {
      var t := port.Now();
      var taken: bool := *;
      if tokens == 1 && (t < deadline || taken) {
        tokens := 0;
        port.moves := port.moves + [Got(id, |port.log|)];
        return true;
      }
      port.clock := Max(port.clock, deadline);
      port.moves := port.moves + [GaveUp(id, |port.log|)];
      return false;
    }

    /** The deferred send. It cannot block: the channel is empty. */
    method Release(ghost port: Port)
      requires tokens == 0
      modifies this, port`moves
      ensures tokens == 1 && port.moves == old(port.moves) + [PutBack(id, |port.log|)]
    {
      tokens := 1;
      port.moves := port.moves + [PutBack(id, |port.log|)];
    }
  }

  /** The moment of the last non-empty read, or `start` if there is none. */
  function QuietSince(calls: seq<Call>, start: Time): Time {
    if calls == [] then start
    else if Last(calls).Read? && Last(calls).data != [] then Last(calls).at
    else QuietSince(Front(calls), start)
  }

  lemma QuietSnoc(calls: seq<Call>, c: Call, start: Time)
    ensures QuietSince(calls + [c], start)
         == if c.Read? && c.data != [] then c.at else QuietSince(calls, start)
  {
    assert Front(calls + [c]) == calls;
  }

  /** What a poll asks for: so many bytes, for so long, and when. */
  datatype Request = Request(room: nat, wait: Time, at: Time)

  /** The calls of one poll: the timeout is set, and if that worked a read
      follows. `end` is how the poll came back. */
  predicate IsPoll(tail: seq<Call>, ask: Request, end: End) {
    || (tail == [SetTimeout(ask.wait, ask.at, end)] && !end.Returned?)
    || (|tail| == 2 && tail[0] == SetTimeout(ask.wait, ask.at, Returned)
        && tail[1].Read? && tail[1].room == ask.room && tail[1].end == end
        && (!end.Returned? ==> tail[1].data == []))
  }

  /** The data a poll returned. */
  function Polled(tail: seq<Call>): seq<byte>
    requires tail != []
  {
    if Last(tail).Read? then Last(tail).data else []
  }

  lemma {:induction false} PollFollows(op: Op, calls: seq<Call>, tail: seq<Call>, ask: Request, end: End)
    requires op.ReadOp? || op.EchoOp? || op.StreamOp?
    requires Follows(op, calls) && !Halted(calls) && IsPoll(tail, ask, end)
    ensures Follows(op, calls + tail) && calls + tail != [] && Last(calls + tail) == Last(tail)
    ensures Last(tail).end == end
  {
    OneByOne(calls, tail);
    if |tail| == 1 {
      FollowsSnoc(op, calls, tail[0]);
    } else {
      FollowsRead(op, calls, tail[0], tail[1]);
    }
  }

  lemma PollReads(calls: seq<Call>, tail: seq<Call>, ask: Request, end: End)
    requires IsPoll(tail, ask, end)
    ensures Received(calls + tail) == Received(calls) + Polled(tail)
    ensures Results(calls + tail) == Results(calls) + (if end.Returned? then [Polled(tail)] else [])
  {
    OneByOne(calls, tail);
    Snoc(calls, tail[0]);
    if |tail| == 2 {
      Snoc(calls + [tail[0]], tail[1]);
    }
  }

  /** A poll for what is missing, until the deadline, is what a read may ask
      for ... */
  lemma ReadPollAsks(total: nat, lim: Limits, calls: seq<Call>, tail: seq<Call>, ask: Request, end: End)
    requires IsPoll(tail, ask, end) && ask.at + ask.wait == lim.deadline && 0 < ask.wait && 0 < ask.room
    requires ask.at <= Latest(calls, lim.since) + lim.slack
    requires ReadAsks(total, lim, calls) && |Received(calls)| + ask.room == total && !EmptyHanded(calls)
    ensures ReadAsks(total, lim, calls + tail)
  {
    OneByOne(calls, tail);
    ReadAsksSnoc(total, lim, calls, tail[0]);
    Snoc(calls, tail[0]);
    if |tail| == 2 {
      ReadAsksSnoc(total, lim, calls + [tail[0]], tail[1]);
    }
  }

  /** ... and one for a single byte what an echo write may. */
  lemma EchoPollAsks(lim: Limits, calls: seq<Call>, tail: seq<Call>, ask: Request, end: End)
    requires IsPoll(tail, ask, end) && ask.at + ask.wait == lim.deadline && 0 < ask.wait && ask.room == 1
    requires EchoAsks(lim, calls) && ask.at <= Latest(calls, lim.since) + lim.slack
    ensures EchoAsks(lim, calls + tail)
  {
    OneByOne(calls, tail);
    EchoAsksSnoc(lim, calls, tail[0]);
    if |tail| == 2 {
      EchoAsksSnoc(lim, calls + [tail[0]], tail[1]);
    }
  }

  /** A poll moves the moment only if it read something. */
  lemma QuietPolled(calls: seq<Call>, tail: seq<Call>, ask: Request, end: End, start: Time)
    requires IsPoll(tail, ask, end)
    ensures QuietSince(calls + tail, start)
         == if Polled(tail) != [] then Last(tail).at else QuietSince(calls, start)
  {
    OneByOne(calls, tail);
    QuietSnoc(calls, tail[0], start);
    if |tail| == 2 {
      QuietSnoc(calls + [tail[0]], tail[1], start);
    }
  }

  lemma EchoPolled(data: seq<byte>, calls: seq<Call>, tail: seq<Call>, ask: Request, end: End, i: nat)
    requires IsPoll(tail, ask, end) && i < |data| && EchoRun(data, calls) == EchoState(i, true)
    ensures EchoRun(data, calls + tail)
         == if Polled(tail) == [data[i]] then EchoState(i + 1, false) else EchoState(i, true)
  {
    OneByOne(calls, tail);
    EchoSnoc(data, calls, tail[0]);
    if |tail| == 2 {
      EchoSnoc(data, calls + [tail[0]], tail[1]);
    }
  }

  // ---- what the outcomes say ----------------------------------------------------

  /** An error is reported exactly when the last port call failed, and a panic
      exactly when it panicked. */
  predicate Told(res: IOResult, calls: seq<Call>) {
    (res.PortError? <==> EndsFailed(calls)) && (res.Panic? <==> EndsPanicked(calls))
  }

  /** What a Read into a buffer that held `orig` has brought about at `now`: on
      success the buffer begins with exactly what the port returned and is
      otherwise as before, nothing has been waited for since the last call, and a
      short count means that the deadline has passed or that a read which was
      ready to wait for it brought nothing. */
  predicate ReadDone(dst: seq<byte>, orig: seq<byte>, n: nat, res: IOResult, calls: seq<Call>, lim: Limits,
      now: Time)
  {
    && ReadAsks(|dst|, lim, calls) && Told(res, calls)
    && (res.Ok? || res.DeadlineExceeded? || res.PortError? || res.Panic?)
    && (res.Ok? ==>
          && n <= |dst| == |orig| && dst[..n] == Received(calls) && dst[n..] == orig[n..]
          && (calls != [] ==> Last(calls).Read?) && now <= Latest(calls, lim.since) + lim.slack
          && (n < |dst| ==> lim.deadline <= now || EmptyHanded(calls)))
    && (!res.Ok? ==> n == 0)
    && (res.DeadlineExceeded? ==> calls == [] && lim.deadline <= now)
  }

  /** What a Write of data has brought about at `now`: a prefix was accepted, all
      of it on success; a timeout comes after the deadline and right after the
      last call, with the count of the bytes accepted, or read back in echo mode,
      which is stop-and-wait. */
  predicate WriteDone(data: seq<byte>, echo: bool, res: IOResult, calls: seq<Call>, lim: Limits, now: Time) {
    && Told(res, calls) && !res.IOTimeout?
    && Accepted(calls) <= data
    && (res.Ok? ==> Accepted(calls) == data && now <= Latest(calls, lim.since) + lim.slack)
    && (!echo ==> WriteAsks(data, lim, calls))
    && (echo ==> EchoAsks(lim, calls) && EchoRun(data, calls).EchoState?)
    && (echo && res.Ok? ==> EchoRun(data, calls) == EchoState(|data|, false))
    && (res.ShortWrite? ==>
          && res.written < |data| == res.total
          && res.written == (if echo then EchoRun(data, calls).confirmed else |Accepted(calls)|)
          && (if echo then lim.deadline <= now else lim.deadline < now)
          && JustAfter(calls, now, lim.slack))
    && (res.DeadlineExceeded? ==> calls == [] && lim.deadline <= now)
  }

  predicate JustAfter(calls: seq<Call>, now: Time, slack: nat) {
    calls != [] && (Last(calls).Read? || Last(calls).Write?) && Last(calls).at <= now <= Last(calls).at + slack
  }

  /** The fixed quantities of one BufferedRead loop: when it started, the
      overhead of a port call and the longest an emit blocks. */
  datatype Pace = Pace(start: Time, slack: nat, block: nat, opts: BufferedReadOpts)

  /** What the read loop set out from: the log, the chunks and its pace. */
  datatype Origin = Origin(log: seq<Call>, chunks: seq<seq<byte>>, pace: Pace)

  /** What it has done since: its calls, the chunks it has handed over, and when
      it set its deadline last. */
  datatype Account = Account(calls: seq<Call>, sent: seq<seq<byte>>, armed: Time)

  /** The loop polls for pollTimeout at a time, pauses only to emit, and asks for
      all the room that is left in its batch. */
  predicate StreamAsks(p: Pace, calls: seq<Call>) {
    calls == [] ||
    (&& StreamAsks(p, Front(calls))
     && var c, held := Last(calls), Fold(Results(Front(calls)), p.opts.batchSize).held;
        && (c.SetTimeout? ==> c.wait == p.opts.pollTimeout && NoPause(Front(calls), p, c.at))
        && (c.Read? ==> 0 < c.room && |held| + c.room == p.opts.batchSize))
  }

  predicate NoPause(calls: seq<Call>, p: Pace, now: Time) {
    now <= Latest(calls, p.start) + 2 * p.slack + p.block
  }

  lemma StreamAsksSnoc(p: Pace, calls: seq<Call>, c: Call)
    requires StreamAsks(p, calls) && (c.SetTimeout? ==> c.wait == p.opts.pollTimeout && NoPause(calls, p, c.at))
    requires c.Read? ==> 0 < c.room && |Fold(Results(calls), p.opts.batchSize).held| + c.room == p.opts.batchSize
    ensures StreamAsks(p, calls + [c])
  {
    assert Front(calls + [c]) == calls;
  }

  lemma StreamPollAsks(p: Pace, calls: seq<Call>, tail: seq<Call>, ask: Request, end: End)
    requires StreamAsks(p, calls) && IsPoll(tail, ask, end)
    requires ask.wait == p.opts.pollTimeout && NoPause(calls, p, ask.at)
    requires 0 < ask.room && |Fold(Results(calls), p.opts.batchSize).held| + ask.room == p.opts.batchSize
    ensures StreamAsks(p, calls + tail)
  {
    OneByOne(calls, tail);
    StreamAsksSnoc(p, calls, tail[0]);
    Snoc(calls, tail[0]);
    assert Results(calls) + [] == Results(calls);
    if |tail| == 2 {
      StreamAsksSnoc(p, calls + [tail[0]], tail[1]);
    }
  }

  /** How a BufferedRead came out: an error is reported exactly when the last
      port call failed, a panic when it panicked or when the sink did, `broke`,
      also on the way out of an error. */
  predicate StreamTold(res: IOResult, calls: seq<Call>, broke: bool) {
    && (res.Panic? <==> EndsPanicked(calls) || broke)
    && (res.PortError? <==> EndsFailed(calls) && !broke)
    && (res.IOTimeout? ==> calls == []) && (EndsPanicked(calls) ==> !broke)
    && (res.Ok? || res.IOTimeout? || res.PortError? || res.Panic?)
  }

  /** The loop gives up at `now` for want of data: when it has been silent for
      `allowed`, and at most one poll and a few call overheads later. */
  predicate GivesUpAfter(quiet: Time, allowed: Time, p: Pace, now: Time) {
    quiet + allowed < now <= quiet + Max(0, allowed) + Max(1, p.opts.pollTimeout) + 4 * p.slack + 2 * p.block
  }

  /** Silence is tolerated for idleAllowance before the first byte, and for
      noDataTimeout since the last one; up to the end the port has been asked. */
  ghost predicate Timely(calls: seq<Call>, p: Pace, now: Time) {
    && now <= Latest(calls, p.start) + 2 * p.slack + 2 * p.block
    && (Received(calls) == [] ==> GivesUpAfter(p.start, p.opts.idleAllowance, p, now))
    && (Received(calls) != [] ==> GivesUpAfter(QuietSince(calls, p.start), p.opts.noDataTimeout, p, now))
  }

  /** At the loop head, at `now`: the deadline in force was set at `armed`,
      right after the last byte. */
  ghost predicate OnTime(calls: seq<Call>, p: Pace, armed: Time, deadline: Time, now: Time) {
    && QuietSince(calls, p.start) <= armed <= QuietSince(calls, p.start) + p.slack
    && deadline == armed + (if Received(calls) == [] then p.opts.idleAllowance else p.opts.noDataTimeout)
    && (Received(calls) == [] ==> QuietSince(calls, p.start) == p.start)
    && p.start <= now && armed <= now && now <= Latest(calls, p.start) + p.slack + p.block
    && now <= Max(armed, deadline) + Max(1, p.opts.pollTimeout) + 2 * p.slack + p.block
  }

  /** One more poll has brought this data at this moment. */
  predicate Further(calls: seq<Call>, said: seq<Call>, data: seq<byte>, at: Time, start: Time) {
    && Latest(said, start) == at
    && Results(said) == Results(calls) + [data] && Received(said) == Received(calls) + data
    && QuietSince(said, start) == if data != [] then at else QuietSince(calls, start)
  }

  lemma PolledFurther(calls: seq<Call>, tail: seq<Call>, ask: Request, start: Time)
    requires IsPoll(tail, ask, Returned)
    ensures calls + tail != [] && Last(calls + tail) == Last(tail)
    ensures Further(calls, calls + tail, Polled(tail), Last(tail).at, start)
  {
    PollReads(calls, tail, ask, Returned);
    QuietPolled(calls, tail, ask, Returned, start);
  }

  /** A gap leaves the deadline as it is, and delays the next look at it by at
      most one poll and one emit. */
  lemma GapKeepsTime(calls: seq<Call>, said: seq<Call>, p: Pace, armed: Time, deadline: Time,
      head: Time, t: Time, read: Time, now: Time)
    requires OnTime(calls, p, armed, deadline, head) && Further(calls, said, [], read, p.start)
    requires head <= t <= deadline && t <= read <= t + Max(1, p.opts.pollTimeout) + 2 * p.slack
    requires read <= now <= read + p.block
    ensures OnTime(said, p, armed, deadline, now)
  {
    assert Received(said) == Received(calls);
  }

  lemma DataKeepsTime(calls: seq<Call>, said: seq<Call>, data: seq<byte>, p: Pace, at: Time, t: Time, now: Time)
    requires Further(calls, said, data, at, p.start) && data != []
    requires p.start <= at <= t <= at + p.slack && t <= now <= t + p.block
    ensures OnTime(said, p, t, t + p.opts.noDataTimeout, now)
  {
  }

  /** What has reached the sink: everything the port returned, in chunks. Only
      when a port call panicked a remainder of the open run, always less than a
      full chunk, has not. */
  predicate Delivered(calls: seq<Call>, size: nat, chunks: seq<seq<byte>>) {
    && 0 < size
    && chunks == if EndsPanicked(calls) then FullChunks(Results(calls), size) else Chunks(Results(calls), size)
  }

  /** What the loop has brought about at `now`. */
  ghost predicate LoopDone(calls: seq<Call>, chunks: seq<seq<byte>>, res: IOResult, broke: bool, p: Pace, now: Time) {
    && StreamAsks(p, calls) && Delivered(calls, p.opts.batchSize, chunks) && StreamTold(res, calls, broke)
    && !res.IOTimeout? && (res.Ok? ==> Timely(calls, p, now))
  }

  /** What a BufferedRead called at `called` has brought about at `now`: what the
      port returned has been delivered, and it took as long as the options say. */
  ghost predicate StreamDone(calls: seq<Call>, chunks: seq<seq<byte>>, res: IOResult, broke: bool, called: Time,
      p: Pace, now: Time)
  {
    && StreamAsks(p, calls) && Delivered(calls, p.opts.batchSize, chunks) && StreamTold(res, calls, broke)
    && (res.IOTimeout? ==>
          var wait := Min(30 * SECOND, p.opts.idleAllowance);
          called + wait <= now <= called + Max(0, wait) + 2 * p.slack)
    && (!res.IOTimeout? ==> called <= p.start <= called + 2 * p.slack)
    && (res.Ok? ==> Timely(calls, p, now))
  }

  class PortHandle {
    const port: Port
    const readConch: Conch
    const writeConch: Conch
    var baud: int

    constructor (port: Port, baud: int)
      ensures Valid() && Idle() && fresh(readConch) && fresh(writeConch)
      ensures this.port == port && this.baud == baud
    {
      this.port, this.baud := port, baud;
      this.readConch := new Conch(ReadConch);
      this.writeConch := new Conch(WriteConch);
    }

    ghost predicate Valid()
      reads readConch, writeConch
    {
      && readConch.id == ReadConch && writeConch.id == WriteConch
      && readConch.tokens <= 1 && writeConch.tokens <= 1
    }

    /** Both tokens are in their channels. */
    ghost predicate Idle()
      reads readConch, writeConch
    {
      readConch.tokens == writeConch.tokens == 1
    }

    /** The calls made since the log had length `mark`. */
    ghost function Since(mark: nat): seq<Call>
      requires mark <= |port.log|
      reads port`log
    {
      port.log[mark..]
    }

    ghost function MovesSince(mark: nat): seq<Move>
      requires mark <= |port.moves|
      reads port`moves
    {
      port.moves[mark..]
    }

    /** Since the log was `before`, the operation has made these calls. */
    ghost predicate Made(op: Op, before: seq<Call>, calls: seq<Call>)
      reads port`log
    {
      port.log == before + calls && Since(|before|) == calls && Follows(op, calls)
    }

    /** An operation has been carried out: it has made the calls of its kind, all
        of them with its conches in hand. */
    twostate predicate Ran(op: Op)
      reads port`log, port`moves
    {
      && old(port.log) <= port.log && old(port.moves) <= port.moves
      && Follows(op, Since(|old(port.log)|))
      && Conduct(op, MovesSince(|old(port.moves)|), |old(port.log)|, |port.log|)
    }

    /** Whether the operation has given up at a conch; when all it needs were
        free, only because its deadline had come by then. */
    twostate predicate WentWithout(op: Op, gaveUp: bool, deadline: Time)
      reads port`moves
    {
      && old(port.moves) <= port.moves && (gaveUp <==> GivesUp(MovesSince(|old(port.moves)|)))
      && (gaveUp && (op.WriteOp? || old(readConch.tokens) == 1)
          && (op.ReadOp? || op.StreamOp? || old(writeConch.tokens) == 1)
          ==> deadline <= old(port.clock) + 3 * port.slack)
    }

    /** Sets the read timeout and reads into dst[lo..]. */
    method Poll(dst: array<byte>, lo: nat, wait: Time, op: Op, ghost before: seq<Call>, ghost calls: seq<Call>)
        returns (n: nat, end: End, ghost tail: seq<Call>, ghost ask: Request)
      requires lo <= dst.Length && (op.ReadOp? || op.EchoOp? || op.StreamOp?)
      requires Made(op, before, calls) && !Halted(calls)
      modifies port`clock, port`supply, port`readTimeout, port`log, dst
      ensures ask == Request(dst.Length - lo, wait, old(port.clock))
      ensures Made(op, before, calls + tail) && IsPoll(tail, ask, end)
      ensures calls + tail != [] && Last(calls + tail) == Last(tail) && Last(tail).end == end
      ensures Received(calls + tail) == Received(calls) + Polled(tail)
      ensures Results(calls + tail) == Results(calls) + (if end.Returned? then [Polled(tail)] else [])
      ensures lo + n <= dst.Length && port.supply <= old(port.supply)
      ensures forall k :: 0 <= k < dst.Length && !(lo <= k < lo + n) ==> dst[k] == old(dst[k])
      ensures end.Returned? ==>
        && Last(tail) == Call.Read(ask.room, dst[lo..lo + n], port.clock, end)
        && (n == 0 ==> old(port.clock) < port.clock)
        && (n > 0 ==> port.supply < old(port.supply))
      ensures old(port.clock) <= port.clock <= old(port.clock) + Max(1, wait) + 2 * port.slack
    {
      n, end, tail, ask := PollPort(dst, lo, wait);
      PollMade(op, before, calls, tail, ask, end);
    }

    /** The two calls of a poll, whoever makes them. */
    method PollPort(dst: array<byte>, lo: nat, wait: Time)
        returns (n: nat, end: End, ghost tail: seq<Call>, ghost ask: Request)
      requires lo <= dst.Length
      modifies port`clock, port`supply, port`readTimeout, port`log, dst
      ensures ask == Request(dst.Length - lo, wait, old(port.clock))
      ensures port.log == old(port.log) + tail && IsPoll(tail, ask, end)
      ensures lo + n <= dst.Length && port.supply <= old(port.supply)
      ensures forall k :: 0 <= k < dst.Length && !(lo <= k < lo + n) ==> dst[k] == old(dst[k])
      ensures end.Returned? ==>
        && Last(tail) == Call.Read(ask.room, dst[lo..lo + n], port.clock, end)
        && (n == 0 ==> old(port.clock) < port.clock)
        && (n > 0 ==> port.supply < old(port.supply))
      ensures old(port.clock) <= port.clock <= old(port.clock) + Max(1, wait) + 2 * port.slack
    {
      n, ask := 0, Request(dst.Length - lo, wait, port.clock);
      end := port.SetReadTimeout(wait);
      tail := [SetTimeout(wait, ask.at, end)];
      if end.Returned? {
        n, end := port.Read(dst, lo);
        tail := [SetTimeout(wait, ask.at, Returned), Last(port.log)];
      }
      OneByOne(old(port.log), tail);
    }

    /** The log after a poll, and what it means. */
    static lemma PollMade(op: Op, before: seq<Call>, calls: seq<Call>, tail: seq<Call>, ask: Request, end: End)
      requires op.ReadOp? || op.EchoOp? || op.StreamOp?
      requires Follows(op, calls) && !Halted(calls) && IsPoll(tail, ask, end)
      ensures before + calls + tail == before + (calls + tail)
      ensures (before + calls + tail)[|before|..] == calls + tail
      ensures Follows(op, calls + tail)
      ensures calls + tail != [] && Last(calls + tail) == Last(tail) && Last(tail).end == end
      ensures Received(calls + tail) == Received(calls) + Polled(tail)
      ensures Results(calls + tail) == Results(calls) + (if end.Returned? then [Polled(tail)] else [])
    {
      Regroup(before, calls, tail);
      PollFollows(op, calls, tail, ask, end);
      PollReads(calls, tail, ask, end);
    }

    // ---- Read ---------------------------------------------------------------

    method Read(dst: array<byte>, timeoutMs: int) returns (n: nat, res: IOResult, ghost lim: Limits)
      requires Valid()
      modifies readConch, port`clock, port`supply, port`readTimeout, port`log, port`moves, dst
      ensures Valid() && readConch.tokens == old(readConch.tokens) && Ran(ReadOp) && Granted(lim, timeoutMs)
      ensures ReadDone(dst[..], old(dst[..]), n, res, Since(|old(port.log)|), lim, port.clock)
      ensures WentWithout(ReadOp, res.DeadlineExceeded?, lim.deadline)
      ensures old(port.clock) <= port.clock
           <= old(port.clock) + Max(0, timeoutMs * MILLISECOND) + 4 * port.slack
    {
      var t := port.Now();
      var deadline := t + timeoutMs * MILLISECOND;
      var ok := readConch.Acquire(port, deadline);
      ghost var m := |port.log|;
      lim := Limits(if ok then port.clock else t, deadline, port.slack);
      if !ok {
        ConductedAlone(old(port.moves), ReadOp, ReadConch, m, m);
        return 0, DeadlineExceeded, lim;
      }
      n, res := ReadHeld(dst, deadline);
      readConch.Release(port);
      ConductedAlone(old(port.moves), ReadOp, ReadConch, m, |port.log|);
    }

    /** The time a Read or Write with this timeout has: from when it holds its
        conches. */
    twostate predicate Granted(lim: Limits, timeoutMs: int) {
      && 0 <= lim.deadline - (old(port.clock) + timeoutMs * MILLISECOND) <= port.slack == lim.slack
      && old(port.clock) <= lim.since <= old(port.clock) + 3 * port.slack
    }

    /** The conch of an operation that needs one, taken or given up. */
    static lemma ConductedAlone(before: seq<Move>, op: Op, c: ConchId, lo: nat, hi: nat)
      requires if op.WriteOp? then c == WriteConch else c == ReadConch && (op.ReadOp? || op.StreamOp?)
      ensures var moves := (before + [Got(c, lo)] + [PutBack(c, hi)])[|before|..];
        Conduct(op, moves, lo, hi) && !GivesUp(moves)
      ensures var moves := (before + [GaveUp(c, lo)])[|before|..];
        Conduct(op, moves, lo, lo) && GivesUp(moves)
    {
      Appended(before, Got(c, lo), PutBack(c, hi), PutBack(c, hi), PutBack(c, hi));
      Appended(before, GaveUp(c, lo), PutBack(c, hi), PutBack(c, hi), PutBack(c, hi));
      GivesUpIff(op, [Got(c, lo), PutBack(c, hi)], lo, hi);
      GivesUpIff(op, [GaveUp(c, lo)], lo, lo);
    }

    /** Both conches: the write conch first and last. */
    static lemma ConductedBoth(before: seq<Move>, op: Op, lo: nat, hi: nat)
      requires op.EchoOp? || op.ModeOp?
      ensures var moves := (before + [GaveUp(WriteConch, lo)])[|before|..];
        Conduct(op, moves, lo, lo) && GivesUp(moves)
      ensures var moves :=
          (before + [Got(WriteConch, lo)] + [GaveUp(ReadConch, lo)] + [PutBack(WriteConch, lo)])[|before|..];
        Conduct(op, moves, lo, lo) && GivesUp(moves)
      ensures var moves := (before + [Got(WriteConch, lo)] + [Got(ReadConch, lo)] + [PutBack(ReadConch, hi)]
                            + [PutBack(WriteConch, hi)])[|before|..];
        Conduct(op, moves, lo, hi) && !GivesUp(moves)
    {
      var w, r := WriteConch, ReadConch;
      Appended(before, GaveUp(w, lo), PutBack(w, hi), PutBack(w, hi), PutBack(w, hi));
      Appended(before, Got(w, lo), GaveUp(r, lo), PutBack(w, lo), PutBack(w, hi));
      Appended(before, Got(w, lo), Got(r, lo), PutBack(r, hi), PutBack(w, hi));
      GivesUpIff(op, [GaveUp(w, lo)], lo, lo);
      GivesUpIff(op, [Got(w, lo), GaveUp(r, lo), PutBack(w, lo)], lo, lo);
      GivesUpIff(op, [Got(w, lo), Got(r, lo), PutBack(r, hi), PutBack(w, hi)], lo, hi);
    }

    method ReadHeld(dst: array<byte>, deadline: Time) returns (received: nat, res: IOResult)
      modifies port`clock, port`supply, port`readTimeout, port`log, dst
      ensures old(port.log) <= port.log && Follows(ReadOp, Since(|old(port.log)|)) && !res.DeadlineExceeded?
      ensures ReadDone(dst[..], old(dst[..]), received, res, Since(|old(port.log)|),
                       Limits(old(port.clock), deadline, port.slack), port.clock)
      ensures old(port.clock) <= port.clock <= Max(old(port.clock), deadline + port.slack) + 2 * port.slack
    {
      received := 0;
      ghost var before, calls, orig := port.log, [], dst[..];
      ghost var lim := Limits(port.clock, deadline, port.slack);
      while received < dst.Length
        invariant received <= dst.Length
        invariant Made(ReadOp, before, calls) && !Halted(calls) && ReadAsks(dst.Length, lim, calls)
        invariant !EmptyHanded(calls) && (calls != [] ==> Last(calls).Read?)
        invariant port.clock == Latest(calls, lim.since)
        invariant HoldsRead(dst[..], received, calls, orig)
        invariant old(port.clock) <= port.clock <= Max(old(port.clock), deadline + 2 * port.slack)
        decreases dst.Length - received
      {
        var t := port.Now();
        var remaining := deadline - t;
        if remaining <= 0 {
          break;
        }
        var n, end, tail := ReadMore(dst, received, remaining, lim, before, calls, orig);
        calls := calls + tail;
        if !end.Returned? {
          return 0, if end.Panicked? then Panic else PortError;
        }
        received := received + n;
        if n == 0 {
          break;
        }
      }
      assert Since(|old(port.log)|) == calls;
      return received, Ok;
    }

    /** dst holds what was read, and behind it what it held before. */
    static predicate HoldsRead(dst: seq<byte>, received: nat, calls: seq<Call>, orig: seq<byte>) {
      && received <= |dst| == |orig|
      && dst[..received] == Received(calls) && dst[received..] == orig[received..]
    }

    method ReadMore(dst: array<byte>, received: nat, remaining: Time, ghost lim: Limits, ghost before: seq<Call>,
        ghost calls: seq<Call>, ghost orig: seq<byte>) returns (n: nat, end: End, ghost tail: seq<Call>)
      requires Made(ReadOp, before, calls) && !Halted(calls) && ReadAsks(dst.Length, lim, calls)
      requires HoldsRead(dst[..], received, calls, orig) && received < dst.Length && !EmptyHanded(calls)
      requires port.clock + remaining == lim.deadline && 0 < remaining
      requires port.clock <= Latest(calls, lim.since) + lim.slack
      modifies port`clock, port`supply, port`readTimeout, port`log, dst
      ensures Made(ReadOp, before, calls + tail) && ReadAsks(dst.Length, lim, calls + tail)
      ensures calls + tail != [] && Last(calls + tail).end == end
      ensures end.Returned? ==> Last(calls + tail).Read? && Last(calls + tail).at == port.clock
      ensures received + n <= dst.Length
      ensures end.Returned? ==> HoldsRead(dst[..], received + n, calls + tail, orig)
      ensures end.Returned? ==> (n == 0 <==> EmptyHanded(calls + tail))
      ensures old(port.clock) <= port.clock <= old(port.clock) + Max(1, remaining) + 2 * port.slack
    {
      ghost var was := dst[..];
      ghost var ask;
      n, end, tail, ask := Poll(dst, received, remaining, ReadOp, before, calls);
      ReadPollAsks(dst.Length, lim, calls, tail, ask, end);
      if end.Returned? {
        ReadInPlace(was, dst[..], received, n, orig);
      }
    }

    static lemma ReadInPlace(was: seq<byte>, now: seq<byte>, lo: nat, n: nat, orig: seq<byte>)
      requires lo + n <= |was| == |now| == |orig| && was[lo..] == orig[lo..]
      requires forall k :: 0 <= k < |was| && !(lo <= k < lo + n) ==> now[k] == was[k]
      ensures now[..lo + n] == was[..lo] + now[lo..lo + n] && now[lo + n..] == orig[lo + n..]
    {
      forall k | lo + n <= k < |now|
        ensures now[k] == orig[k]
      {
        assert was[lo..][k - lo] == orig[lo..][k - lo];
      }
    }

    /** Two operations of the same kind that come one after the other have
        received what the log received. */
    static lemma {:induction false} ReadsConcatenate(log0: seq<Call>, log1: seq<Call>, log2: seq<Call>)
      requires log0 <= log1 <= log2
      ensures Received(log2[|log0|..]) == Received(log1[|log0|..]) + Received(log2[|log1|..])
      ensures Received(log2) == Received(log0) + (Received(log1[|log0|..]) + Received(log2[|log1|..]))
    {
      var first, second := InTwo(log0, log1, log2);
      ReceivedConcat(first, second);
      ReceivedConcat(log0, first + second);
    }

    /** What two successful Reads leave in their buffers, put together, is what
        the port has returned since, in order. */
    method ReadTwice(a: array<byte>, b: array<byte>, timeoutMs: int)
        returns (n: nat, m: nat, first: IOResult, second: IOResult)
      requires Valid() && a != b
      modifies readConch, port`clock, port`supply, port`readTimeout, port`log, port`moves, a, b
      ensures Valid() && readConch.tokens == old(readConch.tokens) && old(port.log) <= port.log
      ensures first.Ok? && second.Ok? ==>
        && n <= a.Length && m <= b.Length
        && a[..n] + b[..m] == Received(Since(|old(port.log)|))
        && a[n..] == old(a[n..]) && b[m..] == old(b[m..])
    {
      ghost var lim;
      n, first, lim := Read(a, timeoutMs);
      ghost var between := port.log;
      m, second, lim := Read(b, timeoutMs);
      ReadsConcatenate(old(port.log), between, port.log);
    }

    // ---- Write --------------------------------------------------------------

    method Write(data: seq<byte>, timeoutMs: int, echo: bool) returns (res: IOResult, ghost lim: Limits)
      requires Valid()
      modifies readConch, writeConch, port`clock, port`supply, port`readTimeout, port`log, port`moves
      ensures Valid() && readConch.tokens == old(readConch.tokens) && writeConch.tokens == old(writeConch.tokens)
      ensures Ran(if echo then EchoOp else WriteOp) && Granted(lim, timeoutMs)
      ensures WriteDone(data, echo, res, Since(|old(port.log)|), lim, port.clock)
      ensures WentWithout(if echo then EchoOp else WriteOp, res.DeadlineExceeded?, lim.deadline)
      ensures old(port.clock) <= port.clock
      ensures res.DeadlineExceeded? ==>
        port.clock <= old(port.clock) + Max(0, timeoutMs * MILLISECOND) + 3 * port.slack
    {
      var t := port.Now();
      var deadline := t + timeoutMs * MILLISECOND;
      lim := Limits(t, deadline, port.slack);
      var ok := writeConch.Acquire(port, deadline);
      ghost var m := |port.log|;
      if !ok {
        ConductedAlone(old(port.moves), WriteOp, WriteConch, m, m);
        ConductedBoth(old(port.moves), EchoOp, m, m);
        return DeadlineExceeded, lim;
      }
      if echo {
        res, lim := EchoLocked(data, deadline, old(port.moves));
      } else {
        lim := lim.(since := port.clock);
        res := WriteHeld(data, deadline);
        writeConch.Release(port);
        ConductedAlone(old(port.moves), WriteOp, WriteConch, m, |port.log|);
      }
    }

    /** The rest of an echo write that has the write conch: takes the other one
        as well, and returns both. */
    method EchoLocked(data: seq<byte>, deadline: Time, ghost before: seq<Move>)
        returns (res: IOResult, ghost lim: Limits)
      requires Valid() && writeConch.tokens == 0 && port.moves == before + [Got(WriteConch, |port.log|)]
      modifies readConch, writeConch, port`clock, port`supply, port`readTimeout, port`log, port`moves
      ensures Valid() && readConch.tokens == old(readConch.tokens) && writeConch.tokens == 1
      ensures old(port.log) <= port.log && Follows(EchoOp, Since(|old(port.log)|))
      ensures before <= port.moves
      ensures Conduct(EchoOp, MovesSince(|before|), |old(port.log)|, |port.log|)
      ensures res.DeadlineExceeded? <==> GivesUp(MovesSince(|before|))
      ensures res.DeadlineExceeded? ==>
        port.clock <= Max(old(port.clock), deadline) + port.slack
        && (old(readConch.tokens) == 1 ==> deadline <= old(port.clock) + port.slack)
      ensures lim.deadline == deadline && lim.slack == port.slack
      ensures old(port.clock) <= lim.since <= old(port.clock) + port.slack
      ensures WriteDone(data, true, res, Since(|old(port.log)|), lim, port.clock) && old(port.clock) <= port.clock
    {
      lim := Limits(port.clock, deadline, port.slack);
      ghost var m := |port.log|;
      var ok := readConch.Acquire(port, deadline);
      if !ok {
        writeConch.Release(port);
        ConductedBoth(before, EchoOp, m, m);
        return DeadlineExceeded, lim;
      }
      lim := lim.(since := port.clock);
      res := EchoHeld(data, deadline);
      readConch.Release(port);
      writeConch.Release(port);
      ConductedBoth(before, EchoOp, m, |port.log|);
    }

    method WriteHeld(data: seq<byte>, deadline: Time) returns (res: IOResult)
      modifies port`clock, port`log
      ensures old(port.log) <= port.log && Follows(WriteOp, Since(|old(port.log)|)) && !res.DeadlineExceeded?
      ensures WriteDone(data, false, res, Since(|old(port.log)|), Limits(old(port.clock), deadline, port.slack),
                        port.clock)
      ensures old(port.clock) <= port.clock
    {
      var written := 0;
      ghost var calls: seq<Call>, lim := [], Limits(port.clock, deadline, port.slack);
      while written < |data|
        invariant WrittenSo(data, written, lim, old(port.log), calls)
        invariant calls != [] && written < |data| ==> Last(calls).at <= deadline
        invariant port.clock <= Latest(calls, lim.since) + lim.slack
        invariant old(port.clock) <= port.clock
        decreases |data| - written, Max(0, deadline - port.clock + 1)
      {
        var end;
        written, end, calls := WriteMore(data, written, lim, old(port.log), calls);
        if !end.Returned? {
          return if end.Panicked? then Panic else PortError;
        }
        if written < |data| {
          var t := port.Now();
          if t > deadline {
            return ShortWrite(written, |data|);
          }
        }
      }
      assert data[..written] == data;
      return Ok;
    }

    /** How the plain loop has left the call log. */
    ghost predicate WrittenSo(data: seq<byte>, written: nat, lim: Limits, before: seq<Call>, calls: seq<Call>)
      reads port`log
    {
      && written <= |data| && Made(WriteOp, before, calls) && !Halted(calls) && WriteAsks(data, lim, calls)
      && Accepted(calls) == data[..written] && (calls != [] ==> Last(calls).Write?)
    }

    /** Offers the port all that is left. */
    method WriteMore(data: seq<byte>, written: nat, ghost lim: Limits, ghost before: seq<Call>, ghost calls: seq<Call>)
        returns (more: nat, end: End, ghost now: seq<Call>)
      requires WrittenSo(data, written, lim, before, calls) && written < |data|
      requires calls != [] ==> Last(calls).at <= lim.deadline
      requires port.clock <= Latest(calls, lim.since) + lim.slack
      modifies port`clock, port`log
      ensures Made(WriteOp, before, now) && WriteAsks(data, lim, now)
      ensures written <= more <= |data| && Accepted(now) == data[..more]
      ensures now != [] && Last(now).Write? && Last(now).end == end && Last(now).at == port.clock
      ensures old(port.clock) <= port.clock && (more == written ==> old(port.clock) < port.clock)
    {
      var n;
      n, end := port.Write(data[written..]);
      ghost var c := Last(port.log);
      Extend(WriteOp, before, calls, c);
      WriteAsksSnoc(data, lim, calls, c);
      assert data[..written + n] == data[..written] + data[written..][..n];
      more, now := written + n, calls + [c];
    }

    method EchoHeld(data: seq<byte>, deadline: Time) returns (res: IOResult)
      modifies port`clock, port`supply, port`readTimeout, port`log
      ensures old(port.log) <= port.log && Follows(EchoOp, Since(|old(port.log)|)) && !res.DeadlineExceeded?
      ensures WriteDone(data, true, res, Since(|old(port.log)|), Limits(old(port.clock), deadline, port.slack),
                        port.clock)
      ensures old(port.clock) <= port.clock
    {
      var one := new byte[1];
      ghost var calls: seq<Call>, lim := [], Limits(port.clock, deadline, port.slack);
      for i := 0 to |data|
        invariant EchoAt(data, i, false, lim, old(port.log), calls)
        invariant (calls != [] ==> Last(calls).Read?) && port.clock == Latest(calls, lim.since)
        invariant old(port.clock) <= port.clock
      {
        var r;
        r, calls := SendByte(data, i, deadline, lim, old(port.log), calls);
        if !r.Ok? {
          EchoCounts(data, calls);
          return r;
        }
        r, calls := AwaitByte(data, i, deadline, one, lim, old(port.log), calls);
        if !r.Ok? {
          EchoCounts(data, calls);
          return r;
        }
      }
      EchoCounts(data, calls);
      return Ok;
    }

    /** What a stop-and-wait run has accepted. */
    static lemma EchoCounts(data: seq<byte>, calls: seq<Call>)
      requires EchoRun(data, calls).EchoState?
      ensures Accepted(calls) <= data
      ensures EchoRun(data, calls) == EchoState(|data|, false) ==> Accepted(calls) == data
    {
      StopAndWait(data, calls, |calls|);
      assert calls[..|calls|] == calls;
    }

    /** How a half step of the echo loop leaves the call log. */
    ghost predicate EchoAt(data: seq<byte>, i: nat, waiting: bool, lim: Limits, before: seq<Call>, calls: seq<Call>)
      reads port`log
    {
      && Made(EchoOp, before, calls) && !Halted(calls) && EchoAsks(lim, calls)
      && EchoRun(data, calls) == EchoState(i, waiting)
    }

    ghost predicate EchoLeft(data: seq<byte>, i: nat, res: IOResult, lim: Limits, before: seq<Call>,
        calls: seq<Call>)
      reads port`log, port`clock
    {
      && Made(EchoOp, before, calls) && EchoAsks(lim, calls)
      && EchoRun(data, calls).EchoState? && Told(res, calls)
      && (res.PortError? || res.Panic? || res.ShortWrite?)
      && (res.ShortWrite? ==>
            && EchoRun(data, calls).confirmed == i == res.written && res.total == |data|
            && lim.deadline <= port.clock && JustAfter(calls, port.clock, lim.slack))
    }

    /** Writes data[i] until the port accepts it. */
    method SendByte(data: seq<byte>, i: nat, deadline: Time, ghost lim: Limits, ghost before: seq<Call>,
        ghost calls: seq<Call>) returns (res: IOResult, ghost now: seq<Call>)
      requires i < |data| && EchoAt(data, i, false, lim, before, calls)
      requires (calls != [] ==> Last(calls).Read?) && port.clock == Latest(calls, lim.since)
      requires lim.deadline == deadline && lim.slack == port.slack
      modifies port`clock, port`log
      ensures if res.Ok? then EchoAt(data, i, true, lim, before, now)
              else EchoLeft(data, i, res, lim, before, now)
      ensures res.Ok? ==> now != [] && Last(now).Write? && Last(now).at == port.clock
      ensures old(port.clock) <= port.clock
    {
      now := calls;
      while true
        invariant EchoAt(data, i, false, lim, before, now)
        invariant port.clock <= Latest(now, lim.since) + lim.slack
        invariant now != [] ==> Last(now).Read? || (Last(now).Write? && Last(now).at <= deadline)
        invariant old(port.clock) <= port.clock
        decreases Max(0, deadline - port.clock + 1)
      {
        var n, end;
        n, end, now := OfferByte(data, i, lim, before, now);
        if !end.Returned? {
          return if end.Panicked? then Panic else PortError, now;
        }
        if n == 1 {
          return Ok, now;
        }
        var t := port.Now();
        if t > deadline {
          return ShortWrite(i, |data|), now;
        }
      }
    }

    /** One try. */
    method OfferByte(data: seq<byte>, i: nat, ghost lim: Limits, ghost before: seq<Call>, ghost calls: seq<Call>)
        returns (n: nat, end: End, ghost now: seq<Call>)
      requires i < |data| && EchoAt(data, i, false, lim, before, calls)
      requires calls != [] ==> Last(calls).Read? || (Last(calls).Write? && Last(calls).at <= lim.deadline)
      requires port.clock <= Latest(calls, lim.since) + lim.slack
      modifies port`clock, port`log
      ensures Made(EchoOp, before, now) && EchoAsks(lim, now)
      ensures EchoRun(data, now) == EchoState(i, n == 1)
      ensures n <= 1 && now != [] && Last(now).Write? && Last(now).end == end && Last(now).at == port.clock
      ensures old(port.clock) <= port.clock && (n == 0 ==> old(port.clock) < port.clock)
    {
      n, end := port.Write(data[i..i + 1]);
      ghost var c := Last(port.log);
      assert c.offered == [data[i]] && c.data == if n == 0 then [] else [data[i]];
      Extend(EchoOp, before, calls, c);
      EchoSnoc(data, calls, c);
      EchoAsksSnoc(lim, calls, c);
      now := calls + [c];
    }

    /** Reads single bytes until data[i] comes back. */
    method AwaitByte(data: seq<byte>, i: nat, deadline: Time, one: array<byte>,
        ghost lim: Limits, ghost before: seq<Call>, ghost calls: seq<Call>)
        returns (res: IOResult, ghost now: seq<Call>)
      requires i < |data| && one.Length == 1 && EchoAt(data, i, true, lim, before, calls)
      requires lim.deadline == deadline && lim.slack == port.slack
      requires calls != [] && Last(calls).Write? && Last(calls).at == port.clock
      modifies port`clock, port`supply, port`readTimeout, port`log, one
      ensures if res.Ok? then EchoAt(data, i + 1, false, lim, before, now)
              else EchoLeft(data, i, res, lim, before, now)
      ensures res.Ok? ==> now != [] && Last(now).Read? && Last(now).at == port.clock
      ensures old(port.clock) <= port.clock
    {
      now := calls;
      while true
        invariant EchoAt(data, i, true, lim, before, now)
        invariant JustAfter(now, port.clock, 0)
        invariant old(port.clock) <= port.clock
        decreases port.supply, Max(0, deadline - port.clock)
      {
        var t := port.Now();
        var remaining := deadline - t;
        if remaining <= 0 {
          return ShortWrite(i, |data|), now;
        }
        var back, end;
        back, end, now := ReadBack(data, i, remaining, one, lim, before, now);
        if !end.Returned? {
          return if end.Panicked? then Panic else PortError, now;
        }
        if back {
          return Ok, now;
        }
      }
    }

    /** One poll for it. */
    method ReadBack(data: seq<byte>, i: nat, remaining: Time, one: array<byte>,
        ghost lim: Limits, ghost before: seq<Call>, ghost calls: seq<Call>)
        returns (back: bool, end: End, ghost now: seq<Call>)
      requires i < |data| && one.Length == 1 && EchoAt(data, i, true, lim, before, calls)
      requires port.clock + remaining == lim.deadline && 0 < remaining
      requires JustAfter(calls, port.clock, lim.slack)
      modifies port`clock, port`supply, port`readTimeout, port`log, one
      ensures Made(EchoOp, before, now) && EchoAsks(lim, now) && now != [] && Last(now).end == end
      ensures EchoRun(data, now) == if back then EchoState(i + 1, false) else EchoState(i, true)
      ensures end.Returned? ==> Last(now).Read? && Last(now).at == port.clock
      ensures back ==> end.Returned?
      ensures old(port.clock) <= port.clock && port.supply <= old(port.supply)
      ensures end.Returned? && port.supply == old(port.supply) ==> old(port.clock) < port.clock
    {
      var n;
      ghost var tail, ask;
      n, end, tail, ask := Poll(one, 0, remaining, EchoOp, before, calls);
      EchoPolled(data, calls, tail, ask, end, i);
      EchoPollAsks(lim, calls, tail, ask, end);
      now := calls + tail;
      back := end.Returned? && n == 1 && one[0] == data[i];
      assert end.Returned? ==> Polled(tail) == one[..n];
    }

    // ---- BufferedRead -------------------------------------------------------

    method BufferedRead(opts: BufferedReadOpts, sink: ChunkSink)
        returns (res: IOResult, ghost start: Time, ghost broke: bool)
      requires Valid() && sink.Valid() && sink.Settled() && 0 < opts.batchSize
      modifies readConch, port`clock, port`supply, port`readTimeout, port`log, port`moves, sink
      ensures Valid() && readConch.tokens == old(readConch.tokens) && Ran(StreamOp)
      ensures sink.Valid() && sink.Settled()
      ensures old(sink.chunks) <= sink.chunks && old(sink.trace) <= sink.trace
      ensures ClaimAfter(sink.trace[|old(sink.trace)|..]).NoClaim?
      ensures Gifts(sink.trace[|old(sink.trace)|..]) == sink.chunks[|old(sink.chunks)|..]
      ensures StreamDone(Since(|old(port.log)|), sink.chunks[|old(sink.chunks)|..], res, broke, old(port.clock),
                         Pace(start, port.slack, sink.maxBlock, opts), port.clock)
      ensures Broke(sink, broke)
      ensures WentWithout(StreamOp, res.IOTimeout?, old(port.clock) + Min(30 * SECOND, opts.idleAllowance))
    {
      start, broke := port.clock, false;
      var t := port.Now();
      var ok := readConch.Acquire(port, t + Min(30 * SECOND, opts.idleAllowance));
      ghost var m := |port.log|;
      if !ok {
        ConductedAlone(old(port.moves), StreamOp, ReadConch, m, m);
        NothingDelivered(opts.batchSize);
        assert Since(|old(port.log)|) == [] && sink.chunks[|old(sink.chunks)|..] == [];
        assert sink.trace[|old(sink.trace)|..] == [];
        return IOTimeout, start, broke;
      }
      start := port.clock;
      ghost var calls;
      res, calls, broke := StreamHeld(opts, sink);
      readConch.Release(port);
      ConductedAlone(old(port.moves), StreamOp, ReadConch, m, |port.log|);
    }

    /** Nothing else has reached it. */
    static lemma DeliveredFirst(calls: seq<Call>, size: nat, chunks: seq<seq<byte>>)
      requires Delivered(calls, size, chunks)
      ensures chunks <= Chunks(Results(calls), size)
    {
      var rest := FullMissesRest(Results(calls), size);
    }

    static lemma NothingDelivered(size: nat)
      requires 0 < size
      ensures Delivered([], size, [])
    {
      FoldRefinesChunks([], size);
    }

    /** The sink has panicked, with no port call after it, or not. */
    twostate predicate Broke(sink: ChunkSink, broke: bool)
      reads sink`panics, port`log
    {
      sink.panics == old(sink.panics) + if broke then [|port.log|] else []
    }

    /** Nothing is lost, duplicated or reordered between the port and the sink;
        only a panic of the port may cost less than a full chunk, at the end. */
    static lemma DeliveredConserves(calls: seq<Call>, size: nat, chunks: seq<seq<byte>>)
      requires Follows(StreamOp, calls) && Delivered(calls, size, chunks)
      ensures !EndsPanicked(calls) ==> Flatten(chunks) == Received(calls)
      ensures exists lost :: Flatten(chunks) + lost == Received(calls) && |lost| < size
    {
      ChunksConserve(Results(calls), size);
      ReceivedIsResults(StreamOp, calls);
      var rest := FullMissesRest(Results(calls), size);
      if chunks == Chunks(Results(calls), size) {
        assert Flatten(chunks) + [] == Received(calls);
      } else {
        FlattenSnoc(chunks, rest);
      }
    }

    /** What the sink was called with since. */
    twostate lemma SettledSince(sink: ChunkSink)
      requires old(sink.Valid() && sink.Settled()) && sink.Valid() && sink.Settled()
      requires old(sink.trace) <= sink.trace
      ensures ClaimAfter(sink.trace[|old(sink.trace)|..]).NoClaim? && old(sink.chunks) <= sink.chunks
      ensures Gifts(sink.trace[|old(sink.trace)|..]) == sink.chunks[|old(sink.chunks)|..]
    {
      assert Ask(0);
      SinkSince(old(sink.trace), sink.trace);
    }

    /** The loop body under the read conch, with the deferred free. */
    method StreamHeld(opts: BufferedReadOpts, sink: ChunkSink)
        returns (res: IOResult, ghost calls: seq<Call>, ghost broke: bool)
      requires sink.Valid() && sink.Settled() && 0 < opts.batchSize
      modifies port`clock, port`supply, port`readTimeout, port`log, sink
      ensures sink.Valid() && sink.Settled()
      ensures old(sink.trace) <= sink.trace && ClaimAfter(sink.trace[|old(sink.trace)|..]).NoClaim?
      ensures old(sink.chunks) <= sink.chunks
      ensures Gifts(sink.trace[|old(sink.trace)|..]) == sink.chunks[|old(sink.chunks)|..]
      ensures Made(StreamOp, old(port.log), calls) && Broke(sink, broke) && old(port.clock) <= port.clock
      ensures LoopDone(calls, sink.chunks[|old(sink.chunks)|..], res, broke,
                       Pace(old(port.clock), port.slack, sink.maxBlock, opts), port.clock)
    {
      var batch := sink.NewBatch(opts.batchSize, port);
      if batch == null {
        NothingDelivered(opts.batchSize);
        assert sink.chunks[|old(sink.chunks)|..] == [];
        SettledSince(sink);
        return Panic, [], true;
      }
      var left: array?<byte>;
      res, left, calls, broke := StreamLoop(opts, sink, batch);
      if left != null {
        sink.Free(left);
      }
      SettledSince(sink);
    }

    /** The batch and the sink agree with what was read: `results` are the
        successful reads, `sent` the chunks handed over since the sink had
        `handed`. */
    static ghost predicate Holding(sink: ChunkSink, batch: array<byte>, filled: nat, size: nat,
        results: seq<seq<byte>>, handed: seq<seq<byte>>, sent: seq<seq<byte>>)
      reads sink, sink.emitted, batch
    {
      && sink.Valid() && sink.held == batch
      && filled < size == batch.Length
      && sink.chunks == handed + sent
      && Fits(results, size) && Fold(results, size) == Batching(sent, batch[..filled])
    }

    method StreamLoop(opts: BufferedReadOpts, sink: ChunkSink, first: array<byte>)
        returns (res: IOResult, left: array?<byte>, ghost calls: seq<Call>, ghost broke: bool)
      requires sink.Valid() && sink.held == first
      requires 0 < opts.batchSize == first.Length
      modifies port`clock, port`supply, port`readTimeout, port`log, sink, first
      ensures sink.Valid() && sink.held == left
      ensures old(sink.trace) <= sink.trace
      ensures old(sink.chunks) <= sink.chunks
      ensures Made(StreamOp, old(port.log), calls) && Broke(sink, broke) && old(port.clock) <= port.clock
      ensures LoopDone(calls, sink.chunks[|old(sink.chunks)|..], res, broke,
                       Pace(old(port.clock), port.slack, sink.maxBlock, opts), port.clock)
    {
      ghost var o := Origin(port.log, sink.chunks, Pace(port.clock, port.slack, sink.maxBlock, opts));
      var batch, filled: nat := first, 0;
      var t := port.Now();
      var idleDeadline := t + opts.idleAllowance;
      ghost var a := Account([], [], t);
      while true
        invariant batch == first || fresh(batch)
        invariant old(sink.trace) <= sink.trace
        invariant Holding(sink, batch, filled, opts.batchSize, Results(a.calls), o.chunks, a.sent)
        invariant Made(StreamOp, o.log, a.calls) && !Halted(a.calls) && StreamAsks(o.pace, a.calls)
        invariant sink.panics == old(sink.panics)
        invariant OnTime(a.calls, o.pace, a.armed, idleDeadline, port.clock)
        decreases port.supply, Max(0, idleDeadline - port.clock + 1)
      {
        ghost var head := port.clock;
        t := port.Now();
        if t > idleDeadline {
          calls := a.calls;
          res, left := FinalFlush(sink, batch, filled, opts.batchSize, Ok, Results(calls), o.chunks, a.sent);
          broke := res.Panic?;
          return;
        }

        var over;
        left, filled, idleDeadline, over, res, a, broke :=
          Iterate(opts, sink, batch, filled, idleDeadline, o, a, head, t);
        if over {
          calls := a.calls;
          return;
        }
        batch := left;
      }
    }

    /** The rest of an iteration that began at `head`, when there is time left at
        `t`: one poll, and what comes of it. */
    method Iterate(opts: BufferedReadOpts, sink: ChunkSink, batch: array<byte>, filled: nat, idleDeadline: Time,
        ghost o: Origin, ghost a: Account, ghost head: Time, t: Time)
        returns (left: array?<byte>, now: nat, deadline: Time, over: bool, res: IOResult, ghost a': Account,
                 ghost broke: bool)
      requires Holding(sink, batch, filled, opts.batchSize, Results(a.calls), o.chunks, a.sent)
      requires Made(StreamOp, o.log, a.calls) && !Halted(a.calls) && StreamAsks(o.pace, a.calls)
      requires o.pace.slack == port.slack && o.pace.block == sink.maxBlock && o.pace.opts == opts
      requires OnTime(a.calls, o.pace, a.armed, idleDeadline, head) && head <= t == port.clock <= idleDeadline
      requires t <= head + port.slack
      modifies port`clock, port`supply, port`readTimeout, port`log, sink, batch
      ensures sink.Valid() && sink.held == left && old(sink.trace) <= sink.trace
      ensures o.chunks <= sink.chunks && Made(StreamOp, o.log, a'.calls) && StreamAsks(o.pace, a'.calls)
      ensures old(port.clock) <= port.clock && Broke(sink, broke)
      ensures over ==>
        && Delivered(a'.calls, opts.batchSize, sink.chunks[|o.chunks|..])
        && StreamTold(res, a'.calls, broke) && !res.IOTimeout? && !res.Ok?
      ensures !over ==>
        && !broke
        && left != null && (left == batch || fresh(left)) && !Halted(a'.calls)
        && Holding(sink, left, now, opts.batchSize, Results(a'.calls), o.chunks, a'.sent)
        && OnTime(a'.calls, o.pace, a'.armed, deadline, port.clock)
        && port.supply <= old(port.supply)
        && (port.supply == old(port.supply) ==> deadline == idleDeadline && old(port.clock) < port.clock)
    {
      left, now, deadline := batch, filled, idleDeadline;
      var n, end, said := PollBatch(opts, sink, batch, filled, o, a);
      a' := a.(calls := said);
      if !end.Returned? {
        over := true;
        res, left, broke :=
          AfterFailure(sink, batch, filled, opts.batchSize, end, a'.calls, o.chunks, a.sent);
        return;
      }
      left, now, deadline, res, a' := TakeIn(opts, sink, batch, filled, n, idleDeadline, o, a, said, head, t);
      over := res.Panic?;
      broke := over;
    }

    /** Polls into the free part of the batch; what was there stays. */
    method PollBatch(opts: BufferedReadOpts, sink: ChunkSink, batch: array<byte>, filled: nat,
        ghost o: Origin, ghost a: Account)
        returns (n: nat, end: End, ghost said: seq<Call>)
      requires Holding(sink, batch, filled, opts.batchSize, Results(a.calls), o.chunks, a.sent)
      requires Made(StreamOp, o.log, a.calls) && !Halted(a.calls) && StreamAsks(o.pace, a.calls)
      requires NoPause(a.calls, o.pace, port.clock) && o.pace.opts == opts
      modifies port`clock, port`supply, port`readTimeout, port`log, batch
      ensures Made(StreamOp, o.log, said) && StreamAsks(o.pace, said) && said != [] && Last(said).end == end
      ensures Holding(sink, batch, filled, opts.batchSize, Results(a.calls), o.chunks, a.sent)
      ensures !end.Returned? ==> Holding(sink, batch, filled, opts.batchSize, Results(said), o.chunks, a.sent)
      ensures filled + n <= batch.Length && port.supply <= old(port.supply)
      ensures end.Returned? ==>
        && Further(a.calls, said, batch[filled..filled + n], port.clock, o.pace.start)
        && (n == 0 ==> old(port.clock) < port.clock)
        && (n > 0 ==> port.supply < old(port.supply))
      ensures old(port.clock) <= port.clock <= old(port.clock) + Max(1, opts.pollTimeout) + 2 * port.slack
    {
      ghost var held := batch[..filled];
      sink.Unfold();
      ghost var tail, ask;
      n, end, tail, ask := Poll(batch, filled, opts.pollTimeout, StreamOp, o.log, a.calls);
      StreamPollAsks(o.pace, a.calls, tail, ask, end);
      assert batch[..filled] == held;
      said := a.calls + tail;
      if end.Returned? {
        PolledFurther(a.calls, tail, ask, o.pace.start);
      } else {
        assert Results(said) == Results(a.calls);
      }
    }

    /** Re-arms the deadline after data and takes the data in. The poll, after
        which the calls are `said`, began at `t`, in an iteration that began at
        `head`. */
    method TakeIn(opts: BufferedReadOpts, sink: ChunkSink, batch: array<byte>, filled: nat, n: nat, idleDeadline: Time,
        ghost o: Origin, ghost a: Account, ghost said: seq<Call>, ghost head: Time, ghost t: Time)
        returns (next: array?<byte>, now: nat, deadline: Time, res: IOResult, ghost a': Account)
      requires Holding(sink, batch, filled, opts.batchSize, Results(a.calls), o.chunks, a.sent)
      requires filled + n <= opts.batchSize && !Halted(said)
      requires Further(a.calls, said, batch[filled..filled + n], port.clock, o.pace.start)
      requires o.pace.slack == port.slack && o.pace.block == sink.maxBlock && o.pace.opts == opts
      requires OnTime(a.calls, o.pace, a.armed, idleDeadline, head) && head <= t <= idleDeadline
      requires t <= port.clock <= t + Max(1, opts.pollTimeout) + 2 * port.slack
      modifies sink, port`clock
      ensures a'.calls == said && sink.Valid() && sink.held == next && o.chunks <= sink.chunks
      ensures old(sink.trace) <= sink.trace
      ensures next == null || next == batch || fresh(next)
      ensures sink.chunks == o.chunks + a'.sent
      ensures old(port.clock) <= port.clock && (n == 0 ==> deadline == idleDeadline)
      ensures (res.Ok? || res.Panic?) && Broke(sink, res.Panic?)
      ensures res.Panic? ==> Delivered(a'.calls, opts.batchSize, sink.chunks[|o.chunks|..])
      ensures res.Ok? ==>
        && next != null
        && Holding(sink, next, now, opts.batchSize, Results(a'.calls), o.chunks, a'.sent)
        && OnTime(a'.calls, o.pace, a'.armed, deadline, port.clock)
    {
      ghost var data := batch[filled..filled + n];
      deadline, a' := idleDeadline, a.(calls := said);
      ghost var read := port.clock;
      if n > 0 {
        var u := port.Now();
        deadline, a' := u + opts.noDataTimeout, a'.(armed := u);
      }
      var panicked;
      ghost var sent;
      next, now, panicked, sent :=
        Absorb(sink, batch, filled, n, opts.batchSize, Results(a.calls), o.chunks, a.sent);
      a' := a'.(sent := sent);
      if n > 0 {
        DataKeepsTime(a.calls, said, data, o.pace, read, a'.armed, port.clock);
      } else {
        GapKeepsTime(a.calls, said, o.pace, a.armed, deadline, head, t, read, port.clock);
      }
      res := Ok;
      if panicked {
        res := Panic;
        FoldRefinesChunks(Results(said), opts.batchSize);
        assert sink.chunks[|o.chunks|..] == sent;
      }
    }

    /** Takes n bytes just read in place into account: a gap or a full batch is
        flushed. */
    method Absorb(sink: ChunkSink, batch: array<byte>, filled: nat, n: nat, size: nat,
        ghost results: seq<seq<byte>>, ghost handed: seq<seq<byte>>, ghost sent: seq<seq<byte>>)
        returns (next: array?<byte>, now: nat, panicked: bool, ghost sentNow: seq<seq<byte>>)
      requires Holding(sink, batch, filled, size, results, handed, sent) && filled + n <= size
      modifies sink, port`clock
      ensures sink.Valid() && sink.held == next
      ensures old(sink.trace) <= sink.trace
      ensures next == null || next == batch || fresh(next)
      ensures sink.chunks == handed + sentNow && Broke(sink, panicked)
      ensures old(port.clock) <= port.clock <= old(port.clock) + sink.maxBlock
      ensures panicked ==>
        var all := results + [old(batch[filled..filled + n])];
        Fits(all, size) && Fold(all, size) == Batching(sentNow, [])
      ensures !panicked ==>
        && next != null
        && Holding(sink, next, now, size, results + [old(batch[filled..filled + n])], handed, sentNow)
    {
      ghost var data := batch[filled..filled + n];
      AbsorbOne(results, data, size, sent, batch[..filled]);
      ghost var whole := batch[..filled] + data;
      assert batch[..filled + n] == whole;
      now, sentNow := filled + n, sent;
      next, panicked := batch, false;
      if n == 0 || now >= batch.Length {
        next, panicked, sentNow := HandOver(sink, batch, now, size, handed, sent);
        now := 0;
      }
    }

    /** A flush in the loop: what it adds to the chunks, and the batch to go on
        with. */
    method HandOver(sink: ChunkSink, batch: array<byte>, filled: nat, size: nat,
        ghost handed: seq<seq<byte>>, ghost sent: seq<seq<byte>>)
        returns (next: array?<byte>, panicked: bool, ghost sentNow: seq<seq<byte>>)
      requires sink.Valid() && sink.held == batch
      requires filled <= size == batch.Length && 0 < size && sink.chunks == handed + sent
      modifies sink, port`clock
      ensures sink.Valid() && sink.held == next
      ensures old(sink.trace) <= sink.trace
      ensures sentNow == Shipped(sent, batch[..filled])
      ensures sink.chunks == handed + sentNow && Broke(sink, panicked)
      ensures old(port.clock) <= port.clock <= old(port.clock) + sink.maxBlock
      ensures next == null <==> panicked
      ensures next != null ==> next.Length == size && (next == batch || fresh(next))
    {
      next, panicked := Flush(sink, batch, filled, size);
      sentNow := sent;
      if filled > 0 {
        sentNow := sent + [batch[..filled]];
        Regroup(handed, sent, [batch[..filled]]);
      }
    }

    static function Shipped(sent: seq<seq<byte>>, whole: seq<byte>): seq<seq<byte>> {
      if whole == [] then sent else sent + [whole]
    }

    /** One result in terms of the batch: what is flushed and what stays. */
    static lemma AbsorbOne(results: seq<seq<byte>>, data: seq<byte>, size: nat, sent: seq<seq<byte>>, held: seq<byte>)
      requires Fits(results, size) && Fold(results, size) == Batching(sent, held)
      requires |held| < size && |held| + |data| <= size
      ensures Fits(results + [data], size)
      ensures var b := Fold(results + [data], size);
        if data == [] || |held + data| == size then b == Batching(Shipped(sent, held + data), [])
        else b == Batching(sent, held + data)
    {
      FoldSnoc(results, data, size);
      assert data == [] ==> held + data == held;
    }

    /** The flush before a return: whether the sink panics or not, everything is
        delivered. */
    method FinalFlush(sink: ChunkSink, batch: array<byte>, filled: nat, size: nat, planned: IOResult,
        ghost results: seq<seq<byte>>, ghost handed: seq<seq<byte>>, ghost sent: seq<seq<byte>>)
        returns (res: IOResult, left: array?<byte>)
      requires Holding(sink, batch, filled, size, results, handed, sent) && !planned.Panic?
      modifies sink, port`clock
      ensures sink.Valid() && sink.held == left
      ensures old(sink.trace) <= sink.trace
      ensures (res == planned || res.Panic?) && Broke(sink, res.Panic?)
      ensures old(port.clock) <= port.clock <= old(port.clock) + sink.maxBlock
      ensures sink.chunks == handed + Chunks(results, size)
    {
      ghost var b := Batching(sent, batch[..filled]);
      FoldRefinesChunks(results, size);
      var panicked;
      left, panicked := Flush(sink, batch, filled, size);
      assert sink.chunks == handed + b.Flushed().sent;
      res := if panicked then Panic else planned;
    }

    /** The last call came back badly: an error flushes, a panic does not. */
    method AfterFailure(sink: ChunkSink, batch: array<byte>, filled: nat, size: nat, end: End,
        ghost calls: seq<Call>, ghost handed: seq<seq<byte>>, ghost sent: seq<seq<byte>>)
        returns (res: IOResult, left: array?<byte>, ghost broke: bool)
      requires Holding(sink, batch, filled, size, Results(calls), handed, sent)
      requires calls != [] && Last(calls).end == end && !end.Returned?
      modifies sink, port`clock
      ensures sink.Valid() && sink.held == left
      ensures old(sink.trace) <= sink.trace
      ensures old(port.clock) <= port.clock && Broke(sink, broke)
      ensures handed <= sink.chunks && Delivered(calls, size, sink.chunks[|handed|..])
      ensures StreamTold(res, calls, broke) && !res.IOTimeout? && !res.Ok?
    {
      if end.Failed? {
        res, left := FinalFlush(sink, batch, filled, size, PortError, Results(calls), handed, sent);
        assert sink.chunks[|handed|..] == Chunks(Results(calls), size);
        broke := res.Panic?;
      } else {
        FoldRefinesFull(Results(calls), size);
        assert sink.chunks[|handed|..] == FullChunks(Results(calls), size);
        return Panic, batch, false;
      }
    }

    /** The closure `flush`: gives up the claim on the batch before the handoff
        and takes a new one afterwards. */
    method Flush(sink: ChunkSink, batch: array<byte>, filled: nat, size: nat)
        returns (next: array?<byte>, panicked: bool)
      requires sink.Valid() && sink.held == batch && filled <= batch.Length && 0 < size
      modifies sink, port`clock
      ensures sink.Valid() && sink.held == next
      ensures old(sink.trace) <= sink.trace
      ensures old(port.clock) <= port.clock <= old(port.clock) + sink.maxBlock
      ensures sink.freed == old(sink.freed) && Broke(sink, panicked)
      ensures filled == 0 ==>
        && next == batch && !panicked
        && sink.emitted == old(sink.emitted) && sink.chunks == old(sink.chunks) && sink.issued == old(sink.issued)
      ensures filled > 0 ==>
        && sink.emitted == old(sink.emitted) + [batch] && sink.chunks == old(sink.chunks) + [batch[..filled]]
        && (next == null <==> panicked)
        && (next == null ==> sink.issued == old(sink.issued))
        && (next != null ==> fresh(next) && next.Length == size
                             && sink.issued == old(sink.issued) + {next})
    {
      if filled == 0 {
        return batch, false;
      }
      panicked := sink.Emit(batch, filled, port);
      if panicked {
        return null, true;
      }
      next := sink.NewBatch(size, port);
      panicked := next == null;
    }

    // ---- mode -----------------------------------------------------------------

    /** The new rate is kept in the mode also when SetMode fails. */
    method SetBaudRate(rate: int) returns (res: IOResult)
      requires Valid()
      modifies this`baud, readConch, writeConch, port`clock, port`log, port`moves
      ensures Valid() && readConch.tokens == old(readConch.tokens) && writeConch.tokens == old(writeConch.tokens)
      ensures Ran(ModeOp) && WentWithout(ModeOp, res.DeadlineExceeded?, old(port.clock) + 30 * SECOND)
      ensures res.DeadlineExceeded? ==>
        && Since(|old(port.log)|) == [] && baud == old(baud)
        && old(port.clock) + 30 * SECOND <= port.clock <= old(port.clock) + 30 * SECOND + 3 * port.slack
      ensures !res.DeadlineExceeded? ==>
        && baud == (if rate != 0 then rate else old(baud))
        && |Since(|old(port.log)|)| == 1 && Last(port.log).SetMode? && Last(port.log).baud == baud
      ensures Told(res, Since(|old(port.log)|))
      ensures res.Ok? || res.DeadlineExceeded? || res.PortError? || res.Panic?
    {
      var t := port.Now();
      var deadline := t + MODE_CHANGE_TIMEOUT;
      var ok := writeConch.Acquire(port, deadline);
      ghost var m := |port.log|;
      if !ok {
        ConductedBoth(old(port.moves), ModeOp, m, m);
        return DeadlineExceeded;
      }
      ok := readConch.Acquire(port, deadline);
      if !ok {
        writeConch.Release(port);
        ConductedBoth(old(port.moves), ModeOp, m, m);
        return DeadlineExceeded;
      }
      res := ModeHeld(rate);
      readConch.Release(port);
      writeConch.Release(port);
      ConductedBoth(old(port.moves), ModeOp, m, |port.log|);
    }

    /** The change itself, with both conches in hand. */
    method ModeHeld(rate: int) returns (res: IOResult)
      modifies this`baud, port`clock, port`log
      ensures old(port.log) <= port.log && Follows(ModeOp, Since(|old(port.log)|))
      ensures baud == if rate != 0 then rate else old(baud)
      ensures |Since(|old(port.log)|)| == 1 && Last(port.log).SetMode? && Last(port.log).baud == baud
      ensures Told(res, Since(|old(port.log)|)) && (res.Ok? || res.PortError? || res.Panic?)
    {
      if rate != 0 {
        baud := rate;
      }
      var end := port.SetMode(baud);
      Extend(ModeOp, old(port.log), [], SetMode(baud, end));
      assert [] + [SetMode(baud, end)] == [SetMode(baud, end)] && old(port.log) + [] == old(port.log);
      res := Came(end);
    }

    // ---- calls that take no conch ------------------------------------------------------

    static function Came(end: End): IOResult {
      match end
      case Returned => Ok
      case Failed => PortError
      case Panicked => Panic
    }

    /** The calls of a plan have been made, in order, up to the first that did not
        come back normally; how that one came back is the outcome. */
    static predicate Followed(res: IOResult, made: seq<Performed>, plan: seq<Control>) {
      && |made| <= |plan| && (forall i :: 0 <= i < |made| ==> made[i].what == plan[i])
      && (forall i :: 0 <= i < |made| - 1 ==> made[i].end.Returned?)
      && (res.Ok? <==> |made| == |plan| && (made == [] || Last(made).end.Returned?))
      && (res.PortError? <==> made != [] && Last(made).end.Failed?)
      && (res.Panic? <==> made != [] && Last(made).end.Panicked?)
      && (res.Ok? || res.PortError? || res.Panic?)
    }

    twostate predicate Carried(res: IOResult, plan: seq<Control>)
      reads port`controls
    {
      old(port.controls) <= port.controls && Followed(res, port.controls[|old(port.controls)|..], plan)
    }

    method FlushPort() returns (res: IOResult)
      modifies port`controls
      ensures Carried(res, [ResetInput, ResetOutput])
    {
      var end := port.Perform(ResetInput);
      if end.Returned? {
        end := port.Perform(ResetOutput);
      }
      res := Came(end);
    }

    method Drain() returns (res: IOResult)
      modifies port`controls
      ensures Carried(res, [DrainOutput])
    {
      var end := port.Perform(DrainOutput);
      res := Came(end);
    }

    method ModemStatus() returns (res: IOResult)
      modifies port`controls
      ensures Carried(res, [GetStatus])
    {
      var end := port.Perform(GetStatus);
      res := Came(end);
    }

    /** RTS and DTR are set where given, a break of 250 ms is sent where asked
        for. */
    static function Lines(rts: Option<bool>, dtr: Option<bool>, brk: Option<bool>): seq<Control> {
      (if rts.Some? then [SetRts(rts.value)] else [])
      + (if dtr.Some? then [SetDtr(dtr.value)] else [])
      + (if brk == Some(true) then [Break(250 * MILLISECOND)] else [])
    }

    method ApplyControlLines(rts: Option<bool>, dtr: Option<bool>, brk: Option<bool>) returns (res: IOResult)
      modifies port`controls
      ensures Carried(res, Lines(rts, dtr, brk))
    {
      if rts.Some? {
        var end := port.Perform(SetRts(rts.value));
        if !end.Returned? {
          return Came(end);
        }
      }
      if dtr.Some? {
        var end := port.Perform(SetDtr(dtr.value));
        if !end.Returned? {
          return Came(end);
        }
      }
      if brk == Some(true) {
        var end := port.Perform(Break(250 * MILLISECOND));
        if !end.Returned? {
          return Came(end);
        }
      }
      res := Ok;
    }

    method BaudRate() returns (rate: int)
      ensures rate == baud
    {
      rate := baud;
    }
  }
}
