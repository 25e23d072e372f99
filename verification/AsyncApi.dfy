/** The exports behind the JS functions: each looks the handle up, runs the
    port operation and reports its outcome through the registry.

    The goroutine is the rest of the method here; what may happen between its
    parts is the subject of modules Conches and Protocol. A panic in the port
    operation comes back as the outcome Panic, which autoRecover reports. */
module AsyncApi {
  import opened Basics
  import opened PortModel
  import opened SerialIO
  import opened ChunkSinks
  import opened Manager
  import opened SinkCalls
  import opened Texts
  import opened AddonTables
  import opened Addon
  import P = Protocol
  import T = StreamPaths

  /** The error an outcome is reported with. */
  function ErrorText(res: IOResult): Option<string> {
    match res
    case Ok => None
    case DeadlineExceeded => Some("context deadline exceeded")
    case IOTimeout => Some("i/o operation timed out")
    case ShortWrite(written, total) =>
      Some(Counts("timeout writing to port: ", written, " of ", total, " bytes written"))
    case PortError => Some("port error")
    case Panic => Some("panic")
  }

  /** Only a success is reported without an error, and from the error one can
      tell what happened, with the counts of a timeout. */
  lemma ErrorTells(a: IOResult, b: IOResult)
    ensures ErrorText(a).None? <==> a.Ok?
    ensures ErrorText(a) == ErrorText(b) ==> a == b
    ensures a.ShortWrite? ==>
      var w, n := Decimal(a.written), Decimal(a.total);
      ErrorText(a) == Some("timeout writing to port: " + w + " of " + n + " bytes written")
  {
    if a.ShortWrite? {
      InOneGo("timeout writing to port: ", Decimal(a.written), " of ", Decimal(a.total), " bytes written");
    }
    FirstLetters(a);
    FirstLetters(b);
    if a.ShortWrite? && b.ShortWrite? && ErrorText(a) == ErrorText(b) {
      CountsTell("timeout writing to port: ", a.written, " of ", a.total, " bytes written", b.written, b.total);
    }
  }

  lemma FirstLetters(r: IOResult)
    ensures !r.Ok? ==>
      && ErrorText(r).Some? && |ErrorText(r).value| > 1
      && ErrorText(r).value[..2] == match r
           case DeadlineExceeded => "co"
           case IOTimeout => "i/"
           case ShortWrite(_, _) => "ti"
           case PortError => "po"
           case _ => "pa"
  {
  }

  const INVALID_HANDLE: string := "invalid handle"
  const INVALID_JSON: string := "invalid JSON"

  function Failure(text: string): P.Message {
    P.Strings(Some(text), None)
  }

  /** How an operation without a success value is reported. */
  function Outcome(res: IOResult): P.Message {
    P.Strings(ErrorText(res), None)
  }

  /** One completion call for cbId, k, has been made with this message and has
      come to its end; no other one has been made. */
  ghost predicate Reported(s: P.State, s': P.State, k: nat, cbId: nat, msg: P.Message) {
    && k !in s.completers && s'.completers.Keys == s.completers.Keys + {k}
    && s'.completers[k].target == cbId && s'.completers[k].msg == msg && s'.completers[k].stage.Finished?
    && s'.ops.Keys == s.ops.Keys && cbId in s'.ops && s'.ops[cbId].task.Reported?
    && (forall d :: d in s.ops && d != cbId ==> s'.ops[d].task == s.ops[d].task)
    && (forall d :: d in s.ops && d != cbId ==> JsOf(s'.ops[d]) == JsOf(s.ops[d]))
  }

  /** The options of fsp_buffered_read_ext, absent fields as 0. */
  datatype ExtOpts = ExtOpts(idleAllowanceMs: int, noDataTimeoutMs: int, pollTimeoutMs: int, batchSize: int)

  const DEFAULT_READ_OPTS := BufferedReadOpts(10 * SECOND, 10 * SECOND, 50 * MILLISECOND, 8192)

  /** Fields that are not positive keep their defaults. */
  function ReadOpts(o: ExtOpts): BufferedReadOpts {
    var d := DEFAULT_READ_OPTS;
    BufferedReadOpts(
      if o.idleAllowanceMs > 0 then o.idleAllowanceMs * MILLISECOND else d.idleAllowance,
      if o.noDataTimeoutMs > 0 then o.noDataTimeoutMs * MILLISECOND else d.noDataTimeout,
      if o.pollTimeoutMs > 0 then o.pollTimeoutMs * MILLISECOND else d.pollTimeout,
      if o.batchSize > 0 then o.batchSize else d.batchSize)
  }

  /** In nanoseconds and bytes: every option is what the caller gave for it, or
      its own default, and positive whatever the caller passes. */
  lemma ReadOptsAre(o: ExtOpts)
    ensures var r := ReadOpts(o);
      && 0 < r.batchSize && 0 < r.idleAllowance && 0 < r.noDataTimeout && 0 < r.pollTimeout
      && r.idleAllowance == (if o.idleAllowanceMs > 0 then o.idleAllowanceMs * 1_000_000 else 10_000_000_000)
      && r.noDataTimeout == (if o.noDataTimeoutMs > 0 then o.noDataTimeoutMs * 1_000_000 else 10_000_000_000)
      && r.pollTimeout == (if o.pollTimeoutMs > 0 then o.pollTimeoutMs * 1_000_000 else 50_000_000)
      && r.batchSize == if o.batchSize > 0 then o.batchSize else 8192
  {
  }

  /** The options of fsp_set, absent fields as None. */
  datatype LineOpts = LineOpts(rts: Option<bool>, dtr: Option<bool>, brk: Option<bool>)

  /** The handle is as good as before, its tokens are back where they were. */
  twostate predicate TokensBack(h: PortHandle?)
    reads if h == null then {} else {h.readConch, h.writeConch}
  {
    h != null ==>
      h.Valid() && h.readConch.tokens == old(h.readConch.tokens) && h.writeConch.tokens == old(h.writeConch.tokens)
  }

  /** What a port operation works on. */
  ghost function HandleOf(h: PortHandle?): set<PortHandle> {
    if h == null then {} else {h}
  }

  ghost function ConchesOf(h: PortHandle?): set<Conch> {
    if h == null then {} else {h.readConch, h.writeConch}
  }

  ghost function PortOf(h: PortHandle?): set<Port> {
    if h == null then {} else {h.port}
  }

  class Api {
    const registry: Registry

    constructor (registry: Registry)
      ensures this.registry == registry
    {
      this.registry := registry;
    }

    /** The operation has been registered and nothing has been done for it. */
    ghost predicate Ready(cbId: nat)
      reads registry, registry.homes.Keys
    {
      && registry.Valid() && registry.strict && cbId in registry.s.ops && registry.s.ops[cbId].task.Starting?
      && (P.HasStream(registry.s, cbId) ==>
            registry.s.ops[cbId].stream.value == P.NewStream(registry.s.ops[cbId].stream.value.slot))
    }

    method CompleteErr(cbId: nat, err: Option<string>) returns (ghost k: nat)
      requires registry.Valid() && registry.strict && cbId in registry.s.ops
      requires registry.s.ops[cbId].task.Starting? || registry.s.ops[cbId].task.Over?
      modifies registry
      ensures registry.Valid() && registry.strict
      ensures Reported(old(registry.s), registry.s, k, cbId, P.Strings(err, None))
      ensures JsOf(registry.s.ops[cbId]) == JsOf(old(registry.s).ops[cbId])
    {
      var text: Native? := null;
      if err.Some? {
        text := new Native(err.value, []);
      }
      ghost var ok;
      k, ok := registry.Complete(cbId, text, null, true);
    }

    method CompleteJson(cbId: nat, json: string) returns (ghost k: nat)
      requires registry.Valid() && registry.strict && cbId in registry.s.ops
      requires registry.s.ops[cbId].task.Starting? || registry.s.ops[cbId].task.Over?
      modifies registry
      ensures registry.Valid() && registry.strict
      ensures Reported(old(registry.s), registry.s, k, cbId, P.Strings(None, Some(json)))
    {
      var text := new Native(json, []);
      ghost var ok;
      k, ok := registry.Complete(cbId, null, text, true);
    }

    method CompleteNum(cbId: nat, err: Option<string>, n: int) returns (ghost k: nat)
      requires registry.Valid() && registry.strict && cbId in registry.s.ops
      requires registry.s.ops[cbId].task.Starting? || registry.s.ops[cbId].task.Over?
      modifies registry
      ensures registry.Valid() && registry.strict
      ensures Reported(old(registry.s), registry.s, k, cbId, if err.Some? then P.Strings(err, None) else P.Num(n))
    {
      if err.Some? {
        k := CompleteErr(cbId, err);
        return;
      }
      ghost var ok;
      k, ok := registry.CompleteNum(cbId, n, true);
    }

    /** The goroutine is inside the port call; since `s` only its own stream, if
        it has one, has moved. */
    ghost predicate Inside(s: P.State, cbId: nat)
      reads registry, registry.homes.Keys
    {
      && registry.Valid() && registry.strict && cbId in registry.s.ops && registry.s.ops[cbId].task.Busy?
      && (P.HasStream(registry.s, cbId) ==> registry.s.ops[cbId].stream.value.producer.NoBatch?)
      && registry.s.completers == s.completers && registry.s.ops.Keys == s.ops.Keys
      && (forall d :: d in s.ops && d != cbId ==> registry.s.ops[d] == s.ops[d])
    }

    ghost method Enter(cbId: nat)
      requires Ready(cbId)
      modifies registry`s, registry`run
      ensures Inside(old(registry.s), cbId)
      ensures registry.s.ops[cbId].stream == old(registry.s).ops[cbId].stream
    {
      registry.Begin(cbId);
    }

    /** The port call is over; its outcome is reported. */
    method ReportErr(cbId: nat, err: Option<string>, ghost s: P.State) returns (ghost k: nat)
      requires Inside(s, cbId)
      modifies registry
      ensures registry.Valid() && registry.strict && Reported(s, registry.s, k, cbId, P.Strings(err, None))
      ensures JsOf(registry.s.ops[cbId]) == JsOf(old(registry.s).ops[cbId])
    {
      registry.End(cbId);
      k := CompleteErr(cbId, err);
    }

    method ReportNum(cbId: nat, err: Option<string>, n: int, ghost s: P.State) returns (ghost k: nat)
      requires Inside(s, cbId)
      modifies registry
      ensures registry.Valid() && registry.strict
      ensures Reported(s, registry.s, k, cbId, if err.Some? then P.Strings(err, None) else P.Num(n))
    {
      registry.End(cbId);
      k := CompleteNum(cbId, err, n);
    }

    method ReportJson(cbId: nat, json: string, ghost s: P.State) returns (ghost k: nat)
      requires Inside(s, cbId)
      modifies registry
      ensures registry.Valid() && registry.strict && Reported(s, registry.s, k, cbId, P.Strings(None, Some(json)))
    {
      registry.End(cbId);
      k := CompleteJson(cbId, json);
    }

    /** `h` is what manager.get gave for the handle. */
    method ReadAsync(h: PortHandle?, dst: array<byte>, timeoutMs: int, cbId: nat)
        returns (ghost k: nat, ghost msg: P.Message, ghost n: nat, ghost res: IOResult, ghost lim: Limits)
      requires Ready(cbId) && (h != null ==> h.Valid())
      modifies registry, dst, ConchesOf(h)
      modifies PortOf(h)`clock, PortOf(h)`supply, PortOf(h)`readTimeout, PortOf(h)`log, PortOf(h)`moves
      ensures TokensBack(h)
      ensures registry.Valid() && registry.strict && Reported(old(registry.s), registry.s, k, cbId, msg)
      ensures h == null ==> msg == Failure(INVALID_HANDLE) && dst[..] == old(dst[..])
      ensures h != null ==>
        && h.Ran(ReadOp) && h.Granted(lim, timeoutMs) && h.WentWithout(ReadOp, res.DeadlineExceeded?, lim.deadline)
        && ReadDone(dst[..], old(dst[..]), n, res, h.Since(|old(h.port.log)|), lim, h.port.clock)
        && msg == if res.Ok? then P.Num(n) else Outcome(res)
    {
      if h == null {
        k := CompleteErr(cbId, Some(INVALID_HANDLE));
        return k, Failure(INVALID_HANDLE), 0, Ok, Limits(0, 0, 0);
      }
      k, n, res, lim := RunRead(h, dst, timeoutMs, cbId);
      msg := if res.Ok? then P.Num(n) else Outcome(res);
    }

    /** The goroutine of read. */
    method RunRead(h: PortHandle, dst: array<byte>, timeoutMs: int, cbId: nat)
        returns (ghost k: nat, ghost n: nat, ghost res: IOResult, ghost lim: Limits)
      requires Ready(cbId) && h.Valid()
      modifies registry, dst, h.readConch
      modifies h.port`clock, h.port`supply, h.port`readTimeout, h.port`log, h.port`moves
      ensures TokensBack(h)
      ensures registry.Valid() && registry.strict
      ensures Reported(old(registry.s), registry.s, k, cbId, if res.Ok? then P.Num(n) else Outcome(res))
      ensures h.Ran(ReadOp) && h.Granted(lim, timeoutMs)
      ensures h.WentWithout(ReadOp, res.DeadlineExceeded?, lim.deadline)
      ensures ReadDone(dst[..], old(dst[..]), n, res, h.Since(|old(h.port.log)|), lim, h.port.clock)
    {
      ghost var s := registry.s;
      Enter(cbId);
      var count, r;
      count, r, lim := h.Read(dst, timeoutMs);
      k := ReportNum(cbId, ErrorText(r), count, s);
      n, res := count, r;
    }

    method WriteAsync(h: PortHandle?, data: seq<byte>, timeoutMs: int, echo: bool, cbId: nat)
        returns (ghost k: nat, ghost msg: P.Message, ghost res: IOResult, ghost lim: Limits)
      requires Ready(cbId) && (h != null ==> h.Valid())
      modifies registry, ConchesOf(h)
      modifies PortOf(h)`clock, PortOf(h)`supply, PortOf(h)`readTimeout, PortOf(h)`log, PortOf(h)`moves
      ensures TokensBack(h)
      ensures registry.Valid() && registry.strict && Reported(old(registry.s), registry.s, k, cbId, msg)
      ensures msg == if h == null then Failure(INVALID_HANDLE) else Outcome(res)
      ensures h != null ==>
        && h.Ran(if echo then EchoOp else WriteOp) && h.Granted(lim, timeoutMs)
        && h.WentWithout(if echo then EchoOp else WriteOp, res.DeadlineExceeded?, lim.deadline)
        && WriteDone(data, echo, res, h.Since(|old(h.port.log)|), lim, h.port.clock)
    {
      if h == null {
        k := CompleteErr(cbId, Some(INVALID_HANDLE));
        return k, Failure(INVALID_HANDLE), Ok, Limits(0, 0, 0);
      }
      ghost var s := registry.s;
      Enter(cbId);
      var r;
      r, lim := h.Write(data, timeoutMs, echo);
      k := ReportErr(cbId, ErrorText(r), s);
      msg, res := Outcome(r), r;
    }

    /** A BufferedRead has been carried out on this port with this sink. */
    twostate predicate Streamed(h: PortHandle, sink: ChunkSink, opts: BufferedReadOpts, res: IOResult, start: Time,
        broke: bool)
      reads h.port, sink
    {
      && h.Ran(StreamOp)
      && h.WentWithout(StreamOp, res.IOTimeout?, old(h.port.clock) + Min(30 * SECOND, opts.idleAllowance))
      && old(sink.chunks) <= sink.chunks && h.Broke(sink, broke)
      && StreamDone(h.Since(|old(h.port.log)|), sink.chunks[|old(sink.chunks)|..], res, broke, old(h.port.clock),
                    Pace(start, h.port.slack, sink.maxBlock, opts), h.port.clock)
    }

    /** BufferedRead, with no more of its contract than the exports need; what it
        did with its batches is a path of the protocol. */
    method Stream(h: PortHandle, opts: BufferedReadOpts, sink: ChunkSink)
        returns (res: IOResult, ghost start: Time, ghost broke: bool, ghost trace: seq<SinkCall>)
      requires h.Valid() && sink.Valid() && sink.Settled() && 0 < opts.batchSize
      modifies h.readConch, sink
      modifies h.port`clock, h.port`supply, h.port`readTimeout, h.port`log, h.port`moves
      ensures TokensBack(h)
      ensures sink.Valid() && sink.Settled()
      ensures Streamed(h, sink, opts, res, start, broke)
      ensures ClaimAfter(trace).NoClaim? && Gifts(trace) == sink.chunks[|old(sink.chunks)|..]
    {
      res, start, broke := h.BufferedRead(opts, sink);
      trace := sink.trace[|old(sink.trace)|..];
    }

    /** The goroutine's sink calls in the protocol, in the schedule in which the
        loop thread delivers every chunk at once. */
    ghost method Emitted(cbId: nat, trace: seq<SinkCall>, s: P.State)
      requires Inside(s, cbId) && P.HasStream(registry.s, cbId) && ClaimAfter(trace).NoClaim?
      requires registry.s.ops[cbId].stream.value == P.NewStream(registry.s.ops[cbId].stream.value.slot)
      modifies registry`s, registry`run
      ensures Inside(s, cbId) && P.HasStream(registry.s, cbId)
      ensures JsOf(registry.s.ops[cbId]) == Gifts(trace)
      ensures registry.run == old(registry.run) + T.PathSteps(cbId, trace)
    {
      registry.BufferKept(cbId);
      registry.StreamIsIdle(cbId);
      registry.Stream(cbId, trace);
      assert [] + Gifts(trace) == Gifts(trace);
    }

    method ReportStream(cbId: nat, ghost trace: seq<SinkCall>, err: Option<string>, ghost s: P.State)
        returns (ghost k: nat)
      requires Inside(s, cbId) && P.HasStream(registry.s, cbId) && ClaimAfter(trace).NoClaim?
      requires registry.s.ops[cbId].stream.value == P.NewStream(registry.s.ops[cbId].stream.value.slot)
      modifies registry
      ensures registry.Valid() && registry.strict && Reported(s, registry.s, k, cbId, P.Strings(err, None))
      ensures JsOf(registry.s.ops[cbId]) == Gifts(trace)
    {
      Emitted(cbId, trace, s);
      k := ReportErr(cbId, err, s);
    }

    /** The goroutine of both forms of bufferedRead. */
    method RunStream(h: PortHandle, opts: BufferedReadOpts, sink: ChunkSink, cbId: nat)
        returns (ghost k: nat, ghost res: IOResult, ghost start: Time, ghost broke: bool)
      requires Ready(cbId) && P.HasStream(registry.s, cbId)
      requires h.Valid() && sink.Valid() && sink.Settled() && 0 < opts.batchSize
      modifies registry, sink, h.readConch
      modifies h.port`clock, h.port`supply, h.port`readTimeout, h.port`log, h.port`moves
      ensures TokensBack(h)
      ensures registry.Valid() && registry.strict && Reported(old(registry.s), registry.s, k, cbId, Outcome(res))
      ensures sink.Valid() && sink.Settled()
      ensures Streamed(h, sink, opts, res, start, broke)
      ensures JsOf(registry.s.ops[cbId]) == sink.chunks[|old(sink.chunks)|..]
    {
      ghost var s := registry.s;
      Enter(cbId);
      var r;
      ghost var trace;
      r, start, broke, trace := Stream(h, opts, sink);
      k := ReportStream(cbId, trace, ErrorText(r), s);
      res := r;
    }

    method BufferedReadAsync(h: PortHandle?, noDataTimeoutMs: int, sink: ChunkSink, cbId: nat)
        returns (ghost k: nat, ghost msg: P.Message, ghost res: IOResult, ghost start: Time, ghost broke: bool)
      requires Ready(cbId) && P.HasStream(registry.s, cbId)
      requires (h != null ==> h.Valid()) && sink.Valid() && sink.Settled()
      modifies registry, sink, ConchesOf(h)
      modifies PortOf(h)`clock, PortOf(h)`supply, PortOf(h)`readTimeout, PortOf(h)`log, PortOf(h)`moves
      ensures TokensBack(h)
      ensures registry.Valid() && registry.strict && Reported(old(registry.s), registry.s, k, cbId, msg)
      ensures sink.Valid() && sink.Settled()
      ensures h == null ==> msg == Failure(INVALID_HANDLE) && unchanged(sink)
      ensures h != null ==>
        && msg == Outcome(res)
        && Streamed(h, sink, BufferedReadOpts(10_000_000_000, noDataTimeoutMs * 1_000_000, 50_000_000, 8192),
                    res, start, broke)
        && JsOf(registry.s.ops[cbId]) == sink.chunks[|old(sink.chunks)|..]
    {
      if h == null {
        k := CompleteErr(cbId, Some(INVALID_HANDLE));
        return k, Failure(INVALID_HANDLE), Ok, 0, false;
      }
      var opts := DEFAULT_READ_OPTS.(noDataTimeout := noDataTimeoutMs * MILLISECOND);
      k, res, start, broke := RunStream(h, opts, sink, cbId);
      msg := Outcome(res);
    }

    /** `parsed` is None when the options are not valid JSON. */
    method BufferedReadExtAsync(h: PortHandle?, parsed: Option<ExtOpts>, sink: ChunkSink, cbId: nat)
        returns (ghost k: nat, ghost msg: P.Message, ghost res: IOResult, ghost start: Time, ghost broke: bool)
      requires Ready(cbId) && P.HasStream(registry.s, cbId)
      requires (h != null ==> h.Valid()) && sink.Valid() && sink.Settled()
      modifies registry, sink, ConchesOf(h)
      modifies PortOf(h)`clock, PortOf(h)`supply, PortOf(h)`readTimeout, PortOf(h)`log, PortOf(h)`moves
      ensures TokensBack(h)
      ensures registry.Valid() && registry.strict && Reported(old(registry.s), registry.s, k, cbId, msg)
      ensures sink.Valid() && sink.Settled()
      ensures h == null || parsed.None? ==>
        && msg == Failure(if h == null then INVALID_HANDLE else INVALID_JSON)
        && unchanged(sink) && (h != null ==> unchanged(h.port))
      ensures h != null && parsed.Some? ==>
        && msg == Outcome(res)
        && Streamed(h, sink, ReadOpts(parsed.value), res, start, broke)
        && JsOf(registry.s.ops[cbId]) == sink.chunks[|old(sink.chunks)|..]
    {
      if h == null {
        k := CompleteErr(cbId, Some(INVALID_HANDLE));
        return k, Failure(INVALID_HANDLE), Ok, 0, false;
      }
      if parsed.None? {
        k := CompleteErr(cbId, Some(INVALID_JSON));
        return k, Failure(INVALID_JSON), Ok, 0, false;
      }
      ReadOptsAre(parsed.value);
      k, res, start, broke := RunStream(h, ReadOpts(parsed.value), sink, cbId);
      msg := Outcome(res);
    }

    method UpdateAsync(h: PortHandle?, rate: Option<int>, cbId: nat)
        returns (ghost k: nat, ghost msg: P.Message, ghost res: IOResult)
      requires Ready(cbId) && (h != null ==> h.Valid())
      modifies registry, HandleOf(h)`baud, ConchesOf(h)
      modifies PortOf(h)`clock, PortOf(h)`log, PortOf(h)`moves
      ensures TokensBack(h)
      ensures registry.Valid() && registry.strict && Reported(old(registry.s), registry.s, k, cbId, msg)
      ensures h == null || rate.None? ==>
        && msg == Failure(if h == null then INVALID_HANDLE else INVALID_JSON)
        && (h != null ==> unchanged(h) && unchanged(h.port))
      ensures h != null && rate.Some? ==>
        && msg == Outcome(res) && h.Ran(ModeOp)
        && h.WentWithout(ModeOp, res.DeadlineExceeded?, old(h.port.clock) + 30 * SECOND)
        && Told(res, h.Since(|old(h.port.log)|)) && (res.Ok? || res.DeadlineExceeded? || res.PortError? || res.Panic?)
        && (res.DeadlineExceeded? ==>
              && h.Since(|old(h.port.log)|) == [] && h.baud == old(h.baud)
              && old(h.port.clock) + 30 * SECOND <= h.port.clock)
        && (!res.DeadlineExceeded? ==>
              && h.baud == (if rate.value == 0 then old(h.baud) else rate.value)
              && |h.Since(|old(h.port.log)|)| == 1 && Last(h.port.log).SetMode? && Last(h.port.log).baud == h.baud)
    {
      if h == null {
        k := CompleteErr(cbId, Some(INVALID_HANDLE));
        return k, Failure(INVALID_HANDLE), Ok;
      }
      if rate.None? {
        k := CompleteErr(cbId, Some(INVALID_JSON));
        return k, Failure(INVALID_JSON), Ok;
      }
      ghost var s := registry.s;
      Enter(cbId);
      var r := h.SetBaudRate(rate.value);
      k := ReportErr(cbId, ErrorText(r), s);
      msg, res := Outcome(r), r;
    }

    /** Reports without a goroutine. */
    method GetBaudRateAsync(h: PortHandle?, cbId: nat) returns (ghost k: nat, ghost msg: P.Message)
      requires Ready(cbId)
      modifies registry
      ensures registry.Valid() && registry.strict && Reported(old(registry.s), registry.s, k, cbId, msg)
      ensures msg == if h == null then Failure(INVALID_HANDLE) else P.Num(h.baud)
    {
      if h == null {
        k := CompleteErr(cbId, Some(INVALID_HANDLE));
        return k, Failure(INVALID_HANDLE);
      }
      var rate := h.BaudRate();
      k := CompleteNum(cbId, None, rate);
      msg := P.Num(rate);
    }

    // ---- the exports around calls that take no conch -------------------------------------

    method DrainAsync(h: PortHandle?, cbId: nat)
        returns (ghost k: nat, ghost msg: P.Message, ghost res: IOResult)
      requires Ready(cbId)
      modifies registry, PortOf(h)`controls
      ensures registry.Valid() && registry.strict && Reported(old(registry.s), registry.s, k, cbId, msg)
      ensures msg == if h == null then Failure(INVALID_HANDLE) else Outcome(res)
      ensures h != null ==> h.Carried(res, [DrainOutput])
    {
      if h == null {
        k := CompleteErr(cbId, Some(INVALID_HANDLE));
        return k, Failure(INVALID_HANDLE), Ok;
      }
      ghost var s := registry.s;
      Enter(cbId);
      var r := h.Drain();
      k := ReportErr(cbId, ErrorText(r), s);
      msg, res := Outcome(r), r;
    }

    method FlushAsync(h: PortHandle?, cbId: nat)
        returns (ghost k: nat, ghost msg: P.Message, ghost res: IOResult)
      requires Ready(cbId)
      modifies registry, PortOf(h)`controls
      ensures registry.Valid() && registry.strict && Reported(old(registry.s), registry.s, k, cbId, msg)
      ensures msg == if h == null then Failure(INVALID_HANDLE) else Outcome(res)
      ensures h != null ==> h.Carried(res, [ResetInput, ResetOutput])
    {
      if h == null {
        k := CompleteErr(cbId, Some(INVALID_HANDLE));
        return k, Failure(INVALID_HANDLE), Ok;
      }
      ghost var s := registry.s;
      Enter(cbId);
      var r := h.FlushPort();
      k := ReportErr(cbId, ErrorText(r), s);
      msg, res := Outcome(r), r;
    }

    method SetAsync(h: PortHandle?, parsed: Option<LineOpts>, cbId: nat)
        returns (ghost k: nat, ghost msg: P.Message, ghost res: IOResult)
      requires Ready(cbId)
      modifies registry, PortOf(h)`controls
      ensures registry.Valid() && registry.strict && Reported(old(registry.s), registry.s, k, cbId, msg)
      ensures h == null || parsed.None? ==>
        && msg == Failure(if h == null then INVALID_HANDLE else INVALID_JSON)
        && (h != null ==> unchanged(h.port))
      ensures h != null && parsed.Some? ==>
        && msg == Outcome(res)
        && h.Carried(res, PortHandle.Lines(parsed.value.rts, parsed.value.dtr, parsed.value.brk))
    {
      if h == null {
        k := CompleteErr(cbId, Some(INVALID_HANDLE));
        return k, Failure(INVALID_HANDLE), Ok;
      }
      if parsed.None? {
        k := CompleteErr(cbId, Some(INVALID_JSON));
        return k, Failure(INVALID_JSON), Ok;
      }
      ghost var s := registry.s;
      Enter(cbId);
      var r := h.ApplyControlLines(parsed.value.rts, parsed.value.dtr, parsed.value.brk);
      k := ReportErr(cbId, ErrorText(r), s);
      msg, res := Outcome(r), r;
    }

    /** `status` is the status as JSON, None when it cannot be encoded. */
    method GetAsync(h: PortHandle?, status: Option<string>, cbId: nat)
        returns (ghost k: nat, ghost msg: P.Message, ghost res: IOResult)
      requires Ready(cbId)
      modifies registry, PortOf(h)`controls
      ensures registry.Valid() && registry.strict && Reported(old(registry.s), registry.s, k, cbId, msg)
      ensures h == null ==> msg == Failure(INVALID_HANDLE)
      ensures h != null ==>
        && h.Carried(res, [GetStatus])
        && msg == if !res.Ok? then Outcome(res)
                  else if status.None? then Failure(INVALID_JSON)
                  else P.Strings(None, status)
    {
      if h == null {
        k := CompleteErr(cbId, Some(INVALID_HANDLE));
        return k, Failure(INVALID_HANDLE), Ok;
      }
      ghost var s := registry.s;
      Enter(cbId);
      var r := h.ModemStatus();
      if !r.Ok? || status.None? {
        k := ReportErr(cbId, if r.Ok? then Some(INVALID_JSON) else ErrorText(r), s);
        return k, if r.Ok? then Failure(INVALID_JSON) else Outcome(r), r;
      }
      k := ReportJson(cbId, status.value, s);
      msg, res := P.Strings(None, status), r;
    }

    /** `found` is how the enumeration came back, `list` its result as JSON, None
        when it cannot be encoded. */
    method ListAsync(found: IOResult, list: Option<string>, cbId: nat) returns (ghost k: nat, ghost msg: P.Message)
      requires Ready(cbId) && (found.Ok? || found.PortError? || found.Panic?)
      modifies registry
      ensures registry.Valid() && registry.strict && Reported(old(registry.s), registry.s, k, cbId, msg)
      ensures msg == if !found.Ok? then Outcome(found)
                     else if list.None? then Failure(INVALID_JSON)
                     else P.Strings(None, list)
    {
      ghost var s := registry.s;
      Enter(cbId);
      if !found.Ok? || list.None? {
        k := ReportErr(cbId, if found.Ok? then Some(INVALID_JSON) else ErrorText(found), s);
        return k, if found.Ok? then Failure(INVALID_JSON) else Outcome(found);
      }
      k := ReportJson(cbId, list.value, s);
      msg := P.Strings(None, list);
    }

    // ---- open and close ----------------------------------------------------------------------

    /** `baud` is None when the options or the mode are not valid, `port` what the
        library's open gives. What happens to the events slot is the subject of
        module EventSlots. */
    method OpenAsync(manager: PortManager, port: Port?, baud: Option<int>, cbId: nat)
        returns (ghost k: nat, ghost msg: P.Message, res: OpenResult)
      requires Ready(cbId) && manager.Valid()
      modifies registry, manager, (if port == null then {} else {port})`closes
      ensures manager.Valid()
      ensures registry.Valid() && registry.strict && Reported(old(registry.s), registry.s, k, cbId, msg)
      ensures baud.None? ==> msg == Failure(INVALID_JSON) && unchanged(manager) && (port != null ==> unchanged(port))
      ensures baud.Some? ==>
        && (res.Opened? <==> port != null && Find(old(manager.idCounter), old(manager.ports.Keys), 0).Issued?)
        && (res.Opened? ==>
              && msg == P.Num(res.id) && res.id !in old(manager.ports) && res.id in manager.ports
              && manager.ports == old(manager.ports)[res.id := manager.ports[res.id]]
              && fresh(manager.ports[res.id]) && manager.ports[res.id].Valid()
              && fresh(manager.ports[res.id].readConch) && fresh(manager.ports[res.id].writeConch)
              && manager.ports[res.id].port == port && port.closes == old(port.closes)
              && manager.ports[res.id].baud == baud.value)
        && (!res.Opened? ==> msg.Strings? && msg.err.Some? && manager.ports == old(manager.ports))
        && (!res.Opened? && port != null ==> |port.closes| == |old(port.closes)| + 1)
    {
      if baud.None? {
        k := CompleteErr(cbId, Some(INVALID_JSON));
        return k, Failure(INVALID_JSON), OpenFailed;
      }
      ghost var s := registry.s;
      Enter(cbId);
      var r := manager.Open(port, baud.value);
      k := ReportNum(cbId, OpenText(r), if r.Opened? then r.id else 0, s);
      msg, res := if r.Opened? then P.Num(r.id) else P.Strings(OpenText(r), None), r;
    }

    static function OpenText(r: OpenResult): (err: Option<string>)
      ensures err.None? <==> r.Opened?
    {
      match r
      case Opened(_) => None
      case OpenFailed => Some("port error")
      case NoId => Some("unable to get manager.id")
      case OpenPanicked => Some("panic")
    }

    /** A panic in the port's close leaves the handle in the table. */
    method CloseAsync(manager: PortManager, id: int, cbId: nat)
        returns (ghost k: nat, ghost msg: P.Message, ghost end: End)
      requires Ready(cbId) && manager.Valid()
      modifies registry, manager, (if id in manager.ports then {manager.ports[id].port} else {})`closes
      ensures manager.Valid()
      ensures registry.Valid() && registry.strict && Reported(old(registry.s), registry.s, k, cbId, msg)
      ensures id !in old(manager.ports) ==> msg == Failure(INVALID_HANDLE) && manager.ports == old(manager.ports)
      ensures id in old(manager.ports) ==>
        && old(manager.ports)[id].port.closes == old(manager.ports[id].port.closes) + [end]
        && msg == P.Strings(match end case Returned => None case Failed => Some("port error") case _ => Some("panic"),
                            None)
        && manager.ports == if end.Panicked? then old(manager.ports) else old(manager.ports) - {id}
    {
      var h := manager.Get(id);
      if h == null {
        k := CompleteErr(cbId, Some(INVALID_HANDLE));
        return k, Failure(INVALID_HANDLE), Returned;
      }
      ghost var s := registry.s;
      Enter(cbId);
      var e := CloseAndRemove(manager, id);
      k := ReportErr(cbId, ErrorText(PortHandle.Came(e)), s);
      msg, end := Outcome(PortHandle.Came(e)), e;
    }

    static method CloseAndRemove(manager: PortManager, id: int) returns (end: End)
      requires manager.Valid() && id in manager.ports
      modifies manager`ports, manager`acts, manager.ports[id].port`closes
      ensures manager.Valid()
      ensures old(manager.ports)[id].port.closes == old(manager.ports[id].port.closes) + [end]
      ensures manager.ports == if end.Panicked? then old(manager.ports) else old(manager.ports) - {id}
    {
      end := manager.ports[id].port.Close();
      if !end.Panicked? {
        manager.Remove(id);
      }
    }

    /** Asks a handle for its rate, and updates it without naming one. */
    method AskAndUpdate(h: PortHandle) returns (ghost asked: P.Message, ghost updated: IOResult)
      requires registry.Valid() && registry.strict && h.Valid()
      modifies registry, h`baud, h.readConch, h.writeConch, h.port`clock, h.port`log, h.port`moves
      ensures asked == P.Num(old(h.baud)) && h.baud == old(h.baud) && old(h.port.log) <= h.port.log
      ensures !updated.DeadlineExceeded? ==>
        && |h.Since(|old(h.port.log)|)| == 1
        && Last(h.port.log).SetMode? && Last(h.port.log).baud == old(h.baud)
    {
      ghost var k, msg;
      var cbId, none := registry.StartOp(false, false);
      k, asked := GetBaudRateAsync(h, cbId);
      cbId, none := registry.StartOp(false, false);
      k, msg, updated := UpdateAsync(h, Some(0), cbId);
    }

    /** The rate a port is opened with is the one it is asked for afterwards, and
        the one an update that names none sets again. */
    method OpenThenAsk(manager: PortManager, port: Port, baud: int)
        returns (res: OpenResult, ghost asked: P.Message, ghost updated: IOResult)
      requires registry.Valid() && registry.strict && manager.Valid()
      modifies registry, manager, port
      ensures res.Opened? ==> asked == P.Num(baud) && old(port.log) <= port.log
      ensures res.Opened? && !updated.DeadlineExceeded? ==>
        |port.log| == |old(port.log)| + 1 && Last(port.log).SetMode? && Last(port.log).baud == baud
    {
      asked, updated := P.Num(0), Ok;
      var cbId, none := registry.StartOp(false, false);
      ghost var k, msg;
      k, msg, res := OpenAsync(manager, port, Some(baud), cbId);
      if res.Opened? {
        var h := manager.Get(res.id);
        asked, updated := AskAndUpdate(h);
      }
    }
  }
}
