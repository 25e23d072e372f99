/** What a stream's goroutine does to the protocol, and what of it reaches JS. */
module StreamPaths {
  import opened Basics
  import opened SinkCalls
  import opened Protocol
  import opened ProtocolSafety
  import opened ProtocolResults

  /** The sink call a step is, if it is one of c's goroutine. */
  function SinkCallOf(a: Action, c: nat): seq<SinkCall> {
    if !a.OnStream? || a.c != c then []
    else match a.step
      case Alloc => [Took]
      case Emit(data) => [Gave(data)]
      case FreeBatch => [Dropped]
      case _ => []
  }

  /** The sink calls of c's goroutine in a run. */
  function SinkTrace(run: seq<Action>, c: nat): seq<SinkCall> {
    if run == [] then [] else SinkTrace(Front(run), c) + SinkCallOf(Last(run), c)
  }

  lemma {:induction false} TraceConcat(a: seq<Action>, b: seq<Action>, c: nat)
    ensures SinkTrace(a + b, c) == SinkTrace(a, c) + SinkTrace(b, c)
  {
    if b == [] {
      assert a + b == a && SinkTrace(a, c) + [] == SinkTrace(a, c);
    } else {
      TraceConcat(a, Front(b), c);
      Regroup(SinkTrace(a, c), SinkTrace(Front(b), c), SinkCallOf(Last(b), c));
      assert Front(a + b) == a + Front(b) && Last(a + b) == Last(b);
    }
  }

  lemma TraceCons(a: Action, rest: seq<Action>, c: nat)
    ensures SinkTrace([a] + rest, c) == SinkCallOf(a, c) + SinkTrace(rest, c)
  {
    TraceConcat([a], rest, c);
    assert Front([a]) == [] && [] + SinkCallOf(a, c) == SinkCallOf(a, c);
  }

  // ---- every run is such a path -----------------------------------------------------------

  function ClaimOf(p: Producer): Claim {
    if p.Filling? then Claimed else NoClaim
  }

  /** In every run the goroutine of a stream has a claim on one batch at a time,
      and what the protocol has as sent is what it handed over. */
  lemma {:induction false} RunIsPath(run: seq<Action>, s: State, c: nat, strict: bool)
    requires IsRun(run, s, strict)
    ensures HasStream(s, c) ==>
      && ClaimAfter(SinkTrace(run, c)) == ClaimOf(s.ops[c].stream.value.producer)
      && Gifts(SinkTrace(run, c)) == s.ops[c].stream.value.sent
    ensures !HasStream(s, c) ==> SinkTrace(run, c) == []
    decreases run
  {
    if run != [] {
      var before :| IsRun(Front(run), before, strict) && Enabled(before, Last(run))
        && (strict ==> Disciplined(Last(run))) && s == Next(before, Last(run));
      RunIsPath(Front(run), before, c, strict);
      RunInv(Front(run), before, strict);
      StepIsPath(before, Last(run), c, SinkTrace(Front(run), c));
    }
  }

  lemma StepIsPath(s: State, a: Action, c: nat, trace: seq<SinkCall>)
    requires OpsInv(s) && Enabled(s, a)
    requires HasStream(s, c) ==>
      ClaimAfter(trace) == ClaimOf(s.ops[c].stream.value.producer) && Gifts(trace) == s.ops[c].stream.value.sent
    requires !HasStream(s, c) ==> trace == []
    ensures var s', trace' := Next(s, a), trace + SinkCallOf(a, c);
      && (HasStream(s', c) ==>
            && ClaimAfter(trace') == ClaimOf(s'.ops[c].stream.value.producer)
            && Gifts(trace') == s'.ops[c].stream.value.sent)
      && (!HasStream(s', c) ==> trace' == [])
  {
    if a.OnStream? && a.c == c {
      var st := s.ops[c].stream.value;
      OwnStepIsPath(st, st.slot in s.slots, s.loop, c, a.step, trace);
    } else {
      assert trace + [] == trace;
      OthersKeepStream(s, a, c);
    }
  }

  lemma OwnStepIsPath(st: Stream, present: bool, loop: Loop, c: nat, step: ChunkStep, trace: seq<SinkCall>)
    requires ChunkEnabled(st, true, loop, c, step)
    requires ClaimAfter(trace) == ClaimOf(st.producer) && Gifts(trace) == st.sent
    ensures var st', trace' := ChunkNext(st, present, loop, c, step), trace + SinkCallOf(OnStream(c, step), c);
      ClaimAfter(trace') == ClaimOf(st'.producer) && Gifts(trace') == st'.sent
  {
    if SinkCallOf(OnStream(c, step), c) != [] {
      SinkSnoc(trace, SinkCallOf(OnStream(c, step), c)[0]);
    } else {
      assert trace + [] == trace;
    }
  }

  /** Only its own steps move what a stream's goroutine does; a new stream has
      done nothing. */
  lemma OthersKeepStream(s: State, a: Action, c: nat)
    requires OpsInv(s) && Enabled(s, a) && !(a.OnStream? && a.c == c)
    ensures var s' := Next(s, a);
      if HasStream(s, c) then
        && HasStream(s', c)
        && s'.ops[c].stream.value.producer == s.ops[c].stream.value.producer
        && s'.ops[c].stream.value.sent == s.ops[c].stream.value.sent
        && s'.ops[c].stream.value.emitted == s.ops[c].stream.value.emitted
        && s'.ops[c].stream.value.pushed == s.ops[c].stream.value.pushed
        && s'.ops[c].stream.value.missed == s.ops[c].stream.value.missed
        && s'.ops[c].stream.value.refused == s.ops[c].stream.value.refused
      else HasStream(s', c) ==> s'.ops[c].stream.value == NewStream(s.nextSlot)
  {
    match a
    case OnComplete(k, work) => CompleteKeepsStream(s, k, work, c);
    case OnSettle(d, part) => SettleKeepsStream(s, d, part, c);
    case Register(_, _) => assert s.nextOp in s.ops ==> OpInv(s, s.nextOp);
    case _ =>
  }

  lemma CompleteKeepsStream(s: State, k: nat, work: CompleteStep, c: nat)
    requires CompleteEnabled(s, k, work)
    ensures StreamSame(s, CompleteNext(s, k, work), c)
  {
  }

  lemma SettleKeepsStream(s: State, d: nat, part: SettleStep, c: nat)
    requires SettleEnabled(s, d, part)
    ensures StreamSame(s, SettleNext(s, d, part), c)
  {
  }

  // ---- what is lost -----------------------------------------------------------------------

  /** What reaches the queue is in the order in which it was handed over, and
      every chunk that does not is counted. */
  ghost predicate OrderInv(st: Stream) {
    && Subseq(st.pushed + InFlight(st.producer), st.emitted)
    && |st.emitted| == |st.pushed| + |InFlight(st.producer)| + st.missed + st.refused
  }

  lemma {:induction false} OrderKept(st: Stream, present: bool, loop: Loop, c: nat, step: ChunkStep)
    requires OrderInv(st) && ChunkEnabled(st, true, loop, c, step)
    ensures OrderInv(ChunkNext(st, present, loop, c, step))
  {
    match step
    case Emit(_) =>
      assert st.pushed + [] == st.pushed;
      SubseqSnoc(st.pushed, st.emitted, st.producer.b);
    case Push =>
      assert st.pushed + [st.producer.b] + [] == st.pushed + [st.producer.b];
    case Lookup => NotQueued(st.pushed, st.producer.b, st.emitted);
    case PushFails => NotQueued(st.pushed, st.producer.b, st.emitted);
    case _ =>
  }

  lemma NotQueued(pushed: seq<nat>, b: nat, emitted: seq<nat>)
    requires Subseq(pushed + [b], emitted)
    ensures Subseq(pushed + [], emitted)
  {
    SubseqPrefix(pushed + [], pushed + [b], emitted);
  }

  lemma {:induction false} OrderInRuns(run: seq<Action>, s: State, c: nat, strict: bool)
    requires IsRun(run, s, strict) && HasStream(s, c)
    ensures OrderInv(s.ops[c].stream.value)
    decreases run
  {
    if run != [] {
      var before :| IsRun(Front(run), before, strict) && Enabled(before, Last(run))
        && (strict ==> Disciplined(Last(run))) && s == Next(before, Last(run));
      RunInv(Front(run), before, strict);
      if HasStream(before, c) {
        OrderInRuns(Front(run), before, c, strict);
      }
      OrderStep(before, Last(run), c);
    }
  }

  lemma {:induction false} OrderStep(s: State, a: Action, c: nat)
    requires OpsInv(s) && Enabled(s, a) && HasStream(Next(s, a), c)
    requires HasStream(s, c) ==> OrderInv(s.ops[c].stream.value)
    ensures OrderInv(Next(s, a).ops[c].stream.value)
  {
    if a.OnStream? && a.c == c {
      var st := s.ops[c].stream.value;
      OrderKept(st, st.slot in s.slots, s.loop, c, a.step);
    } else {
      OthersKeepStream(s, a, c);
    }
  }

  lemma {:induction false} ContentsInOrder(contents: seq<Bytes>, some: seq<nat>, all: seq<nat>)
    requires Subseq(some, all)
    ensures Subseq(Contents(contents, some), Contents(contents, all))
    decreases all
  {
    if some != [] {
      assert Front(Contents(contents, all)) == Contents(contents, Front(all));
      assert Front(Contents(contents, some)) == Contents(contents, Front(some));
      if Last(some) == Last(all) && Subseq(Front(some), Front(all)) {
        ContentsInOrder(contents, Front(some), Front(all));
      } else {
        ContentsInOrder(contents, some, Front(all));
      }
    }
  }

  /** In every run, whatever is refused or finds no consumer: JS is given some of
      the chunks that were handed over, in their order, and those it is not given
      are under way, were refused or found no consumer. */
  lemma {:induction false} JsGetsInOrder(run: seq<Action>, s: State, c: nat, strict: bool)
    requires IsRun(run, s, strict) && HasStream(s, c)
    ensures var st := s.ops[c].stream.value;
      && Subseq(st.js, st.sent)
      && |st.sent| == |st.js| + |Current(s.loop, c) + st.queue + InFlight(st.producer)| + st.missed + st.refused
  {
    RunInv(run, s, strict);
    OrderInRuns(run, s, c, strict);
    var st := s.ops[c].stream.value;
    assert StreamInv(st, s.loop, c) && ContentInv(st);
    Regroup4(st.delivered, Current(s.loop, c), st.queue, InFlight(st.producer));
    SubseqPrefix(st.delivered, st.pushed + InFlight(st.producer), st.emitted);
    ContentsInOrder(st.contents, st.delivered, st.emitted);
  }

  // ---- the paths of the calls ------------------------------------------------------------

  /** fsp_emit_chunk from the handoff on: the slot is looked up, and the chunk
      is queued or refused. */
  function HandOff(c: nat, data: Bytes, present: bool, ok: bool): seq<Action> {
    [OnStream(c, Emit(data))] + Arrival(c, present, ok)
  }

  function Arrival(c: nat, present: bool, ok: bool): seq<Action> {
    [OnStream(c, Lookup)] + if present then [OnStream(c, if ok then Push else PushFails)] else []
  }

  /** A chunk callback on the loop thread. */
  function Delivery(c: nat): seq<Action> {
    [OnStream(c, RunChunk)] + ([OnStream(c, FreeChunk)] + [OnStream(c, EndChunk)])
  }

  /** Only the stream of op c has moved, and its slot and batch counts agree as
      before. */
  ghost predicate OnlyStream(s: State, s': State, c: nat) {
    && HasStream(s, c) && HasStream(s', c)
    && s' == s.(ops := s.ops[c := s.ops[c].(stream := s'.ops[c].stream)])
    && s'.ops[c].stream.value.slot == s.ops[c].stream.value.slot
    && |s'.ops[c].stream.value.contents| == |s.ops[c].stream.value.contents|
    && |s'.ops[c].stream.value.frees| == |s.ops[c].stream.value.frees|
  }

  lemma OneStep(s: State, c: nat, step: ChunkStep, rest: seq<Action>, s': State)
    requires HasStream(s, c) && ChunkEnabled(s.ops[c].stream.value, s.ops[c].task.Busy?, s.loop, c, step)
    requires Leads(Moved(s, c, step), rest, s')
    ensures Leads(s, [OnStream(c, step)] + rest, s')
  {
    Lead(s, OnStream(c, step), Moved(s, c, step), rest, s');
  }

  function Moved(s: State, c: nat, step: ChunkStep): State
    requires HasStream(s, c) && ChunkEnabled(s.ops[c].stream.value, true, s.loop, c, step)
  {
    var st := s.ops[c].stream.value;
    WithOp(s, c, s.ops[c].(stream := Some(ChunkNext(st, st.slot in s.slots, s.loop, c, step))))
      .(loop := ChunkLoop(st, s.loop, c, step))
  }

  lemma {:induction false} HandOffRuns(s: State, c: nat, data: Bytes, ok: bool) returns (s': State)
    requires HasStream(s, c) && s.ops[c].stream.value.producer.Filling?
    requires ok && s.ops[c].stream.value.slot in s.slots ==> |s.ops[c].stream.value.queue| < CHUNK_QUEUE_DEPTH
    ensures OnlyStream(s, s', c)
    ensures Leads(s, HandOff(c, data, s.ops[c].stream.value.slot in s.slots, ok), s')
    ensures var st, st', b := s.ops[c].stream.value, s'.ops[c].stream.value, s.ops[c].stream.value.producer.b;
      && st'.producer.NoBatch? && st'.contents == WithContent(st.contents, b, data)
      && st'.queue == (if st.slot in s.slots && ok then st.queue + [b] else st.queue)
      && st'.sent == st.sent + [data] && st'.js == st.js
      && st'.missed == st.missed + (if st.slot in s.slots then 0 else 1)
      && st'.refused == st.refused + (if st.slot in s.slots && !ok then 1 else 0)
  {
    var s1 := Moved(s, c, Emit(data));
    s' := LookupRuns(s1, c, ok);
    OneStep(s, c, Emit(data), Arrival(c, s.ops[c].stream.value.slot in s.slots, ok), s');
  }

  lemma {:induction false} LookupRuns(s: State, c: nat, ok: bool) returns (s': State)
    requires HasStream(s, c) && s.ops[c].stream.value.producer.Emitting?
    requires ok && s.ops[c].stream.value.slot in s.slots ==> |s.ops[c].stream.value.queue| < CHUNK_QUEUE_DEPTH
    ensures OnlyStream(s, s', c)
    ensures Leads(s, Arrival(c, s.ops[c].stream.value.slot in s.slots, ok), s')
    ensures var st, st', b := s.ops[c].stream.value, s'.ops[c].stream.value, s.ops[c].stream.value.producer.b;
      && st'.producer.NoBatch? && st'.contents == st.contents
      && st'.queue == (if st.slot in s.slots && ok then st.queue + [b] else st.queue)
      && st'.sent == st.sent && st'.js == st.js
      && st'.missed == st.missed + (if st.slot in s.slots then 0 else 1)
      && st'.refused == st.refused + (if st.slot in s.slots && !ok then 1 else 0)
  {
    var s1 := Moved(s, c, Lookup);
    if s.ops[c].stream.value.slot in s.slots {
      var last := if ok then Push else PushFails;
      s' := Moved(s1, c, last);
      OneStep(s1, c, last, [], s');
      assert [OnStream(c, last)] + [] == [OnStream(c, last)];
      OneStep(s, c, Lookup, [OnStream(c, last)], s');
    } else {
      s' := s1;
      OneStep(s, c, Lookup, [], s');
    }
  }

  lemma {:induction false} DeliveryRuns(s: State, c: nat) returns (s': State)
    requires HasStream(s, c) && s.loop.Idle? && s.ops[c].stream.value.queue != []
    ensures OnlyStream(s, s', c) && Leads(s, Delivery(c), s')
    ensures var st, st' := s.ops[c].stream.value, s'.ops[c].stream.value;
      && st'.producer == st.producer && st'.contents == st.contents
      && st'.queue == st.queue[1..] && st'.js == st.js + [ContentOf(st.contents, st.queue[0])]
      && st'.sent == st.sent && st'.missed == st.missed && st'.refused == st.refused
  {
    var s1 := Moved(s, c, RunChunk);
    var s2 := Moved(s1, c, FreeChunk);
    s' := Moved(s2, c, EndChunk);
    OneStep(s2, c, EndChunk, [], s');
    assert [OnStream(c, EndChunk)] + [] == [OnStream(c, EndChunk)];
    OneStep(s1, c, FreeChunk, [OnStream(c, EndChunk)], s');
    OneStep(s, c, RunChunk, [OnStream(c, FreeChunk)] + [OnStream(c, EndChunk)], s');
  }

  // ---- every path is one of some run --------------------------------------------------------

  /** The steps of one sink call when the loop thread delivers every chunk at
      once. */
  function CallSteps(c: nat, call: SinkCall): seq<Action> {
    match call
    case Took => [OnStream(c, Alloc)]
    case Dropped => [OnStream(c, FreeBatch)]
    case Gave(data) => HandOff(c, data, true, true) + Delivery(c)
  }

  function PathSteps(c: nat, trace: seq<SinkCall>): seq<Action> {
    if trace == [] then [] else PathSteps(c, Front(trace)) + CallSteps(c, Last(trace))
  }

  /** Stream c's goroutine is inside its loop, and everything handed over so far
      has been delivered. */
  ghost predicate Drained(s: State, c: nat) {
    && HasStream(s, c) && s.ops[c].task.Busy? && s.loop.Idle?
    && var st := s.ops[c].stream.value;
    && st.slot in s.slots && st.queue == [] && (st.producer.NoBatch? || st.producer.Filling?)
    && |st.contents| == |st.frees| && (st.producer.Filling? ==> st.producer.b < |st.frees|)
  }

  /** s' is s with this handed over and delivered by stream c. */
  ghost predicate Brought(s: State, s': State, c: nat, chunks: seq<Bytes>) {
    && HasStream(s, c) && HasStream(s', c)
    && s' == s.(ops := s.ops[c := s.ops[c].(stream := s'.ops[c].stream)])
    && var st, st' := s.ops[c].stream.value, s'.ops[c].stream.value;
    && st'.slot == st.slot && st'.sent == st.sent + chunks && st'.js == st.js + chunks
    && st'.missed == st.missed && st'.refused == st.refused
  }

  lemma {:induction false} CallRuns(s: State, c: nat, call: SinkCall) returns (s': State)
    requires Drained(s, c) && !ClaimStep(ClaimOf(s.ops[c].stream.value.producer), call).Broken?
    ensures Leads(s, CallSteps(c, call), s') && Drained(s', c)
    ensures Brought(s, s', c, if call.Gave? then [call.data] else [])
    ensures ClaimOf(s'.ops[c].stream.value.producer) == ClaimStep(ClaimOf(s.ops[c].stream.value.producer), call)
  {
    match call
    case Gave(data) =>
      var s1 := HandOffRuns(s, c, data, true);
      s' := DeliveryRuns(s1, c);
      LeadsConcat(s, HandOff(c, data, true, true), s1, Delivery(c), s');
    case Took => s' := PlainRuns(s, c, Alloc);
    case Dropped => s' := PlainRuns(s, c, FreeBatch);
  }

  lemma {:induction false} PlainRuns(s: State, c: nat, step: ChunkStep) returns (s': State)
    requires Drained(s, c) && (step.Alloc? || step.FreeBatch?)
    requires step.Alloc? <==> s.ops[c].stream.value.producer.NoBatch?
    ensures Leads(s, [OnStream(c, step)], s') && Drained(s', c) && Brought(s, s', c, [])
    ensures s'.ops[c].stream.value.producer.Filling? <==> step.Alloc?
  {
    s' := Moved(s, c, step);
    OneStep(s, c, step, [], s');
    assert [OnStream(c, step)] + [] == [OnStream(c, step)];
  }

  /** Whatever the goroutine may call, the protocol has steps for it that bring
      everything it hands over to JS: the runs leave none of its behaviour out,
      and it ends without a batch. */
  lemma {:induction false} EveryPathRuns(s: State, c: nat, trace: seq<SinkCall>) returns (s': State)
    requires Drained(s, c) && s.ops[c].stream.value.producer.NoBatch? && !ClaimAfter(trace).Broken?
    ensures Leads(s, PathSteps(c, trace), s') && Drained(s', c) && Brought(s, s', c, Gifts(trace))
    ensures ClaimOf(s'.ops[c].stream.value.producer) == ClaimAfter(trace)
    decreases trace
  {
    if trace == [] {
      s' := s;
    } else {
      var s1 := EveryPathRuns(s, c, Front(trace));
      s' := CallRuns(s1, c, Last(trace));
      LeadsConcat(s, PathSteps(c, Front(trace)), s1, CallSteps(c, Last(trace)), s');
      assert Front(trace) + [Last(trace)] == trace;
      BroughtTwice(s, s1, s', c, Gifts(Front(trace)), if Last(trace).Gave? then [Last(trace).data] else []);
    }
  }

  lemma BroughtTwice(s: State, s1: State, s': State, c: nat, a: seq<Bytes>, b: seq<Bytes>)
    requires Brought(s, s1, c, a) && Brought(s1, s', c, b)
    ensures Brought(s, s', c, a + b)
  {
    Regroup(s.ops[c].stream.value.sent, a, b);
    Regroup(s.ops[c].stream.value.js, a, b);
  }

  /** The sink calls of these steps are the trace. */
  lemma {:induction false} PathIsTrace(c: nat, trace: seq<SinkCall>)
    ensures SinkTrace(PathSteps(c, trace), c) == trace
  {
    if trace != [] {
      PathIsTrace(c, Front(trace));
      TraceConcat(PathSteps(c, Front(trace)), CallSteps(c, Last(trace)), c);
      CallIsTrace(c, Last(trace));
      assert Front(trace) + [Last(trace)] == trace;
    }
  }

  lemma CallIsTrace(c: nat, call: SinkCall)
    ensures SinkTrace(CallSteps(c, call), c) == [call]
  {
    match call
    case Gave(data) =>
      HandOffIsTrace(c, data);
      DeliveryIsTrace(c);
      TraceConcat(HandOff(c, data, true, true), Delivery(c), c);
    case Took => OneIsTrace(c, Alloc);
    case Dropped => OneIsTrace(c, FreeBatch);
  }

  lemma OneIsTrace(c: nat, step: ChunkStep)
    ensures SinkTrace([OnStream(c, step)], c) == SinkCallOf(OnStream(c, step), c)
  {
    TraceCons(OnStream(c, step), [], c);
    assert [OnStream(c, step)] + [] == [OnStream(c, step)];
  }

  lemma HandOffIsTrace(c: nat, data: Bytes)
    ensures SinkTrace(HandOff(c, data, true, true), c) == [Gave(data)]
  {
    OneIsTrace(c, Push);
    TraceCons(OnStream(c, Lookup), [OnStream(c, Push)], c);
    TraceCons(OnStream(c, Emit(data)), [OnStream(c, Lookup)] + [OnStream(c, Push)], c);
  }

  lemma DeliveryIsTrace(c: nat)
    ensures SinkTrace(Delivery(c), c) == []
  {
    OneIsTrace(c, EndChunk);
    TraceCons(OnStream(c, FreeChunk), [OnStream(c, EndChunk)], c);
    TraceCons(OnStream(c, RunChunk), [OnStream(c, FreeChunk)] + [OnStream(c, EndChunk)], c);
  }

  /** None of these steps is a completion call. */
  lemma {:induction false} PathIsQuiet(c: nat, trace: seq<SinkCall>)
    ensures forall a :: a in PathSteps(c, trace) ==> a.OnStream?
  {
    if trace != [] {
      PathIsQuiet(c, Front(trace));
      assert forall a :: a in CallSteps(c, Last(trace)) ==> a.OnStream?;
    }
  }
}
