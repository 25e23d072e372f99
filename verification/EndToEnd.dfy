/** From the port to JS: what the data callback of a BufferedRead is given. */
module EndToEnd {
  import opened Basics
  import opened PortModel
  import opened Chunking
  import opened SinkCalls
  import opened SerialIO
  import P = Protocol
  import ProtocolSafety
  import ProtocolResults
  import opened StreamPaths

  /** Nothing of stream c is between the goroutine and JS. */
  ghost predicate NoneUnderWay(s: P.State, c: nat)
    requires P.HasStream(s, c)
  {
    var st := s.ops[c].stream.value;
    ProtocolSafety.Current(s.loop, c) + st.queue + ProtocolSafety.InFlight(st.producer) == []
  }

  /** The goroutine of stream c is somewhere in the sink calls of a BufferedRead
      that made these calls on the port. Whatever the other threads have done
      meanwhile, JS has been given the first of the chunks the results are to be
      cut into; and when the goroutine is through and nothing is under way, all of
      them, or all the full ones if the port panicked. This is as long as the
      queue refused none. */
  lemma JsGetsChunks(run: seq<P.Action>, s: P.State, c: nat, trace: seq<SinkCall>,
      calls: seq<Call>, size: nat)
    requires P.IsRun(run, s, true) && P.HasStream(s, c) && s.ops[c].stream.value.refused == 0
    requires SinkTrace(run, c) <= trace && Delivered(calls, size, Gifts(trace))
    ensures s.ops[c].stream.value.js <= Chunks(Results(calls), size)
    ensures SinkTrace(run, c) == trace && NoneUnderWay(s, c) ==>
      s.ops[c].stream.value.js
        == if EndsPanicked(calls) then FullChunks(Results(calls), size) else Chunks(Results(calls), size)
  {
    ProtocolResults.ChunksArriveInOrder(run, s, c);
    RunIsPath(run, s, c, true);
    GiftsGrow(SinkTrace(run, c), trace);
    PortHandle.DeliveredFirst(calls, size, Gifts(trace));
  }

  /** Whatever the queue refuses: JS has been given some of those chunks, in
      their order; and when the goroutine is through and nothing is under way, all
      but as many as were refused. */
  lemma JsGetsSomeChunks(run: seq<P.Action>, s: P.State, c: nat, trace: seq<SinkCall>,
      calls: seq<Call>, size: nat)
    requires P.IsRun(run, s, true) && P.HasStream(s, c)
    requires SinkTrace(run, c) <= trace && Delivered(calls, size, Gifts(trace))
    ensures Subseq(s.ops[c].stream.value.js, Chunks(Results(calls), size))
    ensures SinkTrace(run, c) == trace && NoneUnderWay(s, c) && !EndsPanicked(calls) ==>
      |s.ops[c].stream.value.js| + s.ops[c].stream.value.refused == |Chunks(Results(calls), size)|
  {
    var st, all := s.ops[c].stream.value, Chunks(Results(calls), size);
    JsGetsInOrder(run, s, c, true);
    ProtocolResults.SlotOutlivesLoop(run, s, c);
    RunIsPath(run, s, c, true);
    GiftsGrow(SinkTrace(run, c), trace);
    PortHandle.DeliveredFirst(calls, size, Gifts(trace));
    assert st.sent <= all;
    SubseqLonger(st.js, st.sent, all[|st.sent|..]);
    assert st.sent + all[|st.sent|..] == all;
  }

  /** In bytes: JS has been given the first of what the port returned, and in
      the end all of it. */
  lemma {:induction false} JsGetsBytes(run: seq<P.Action>, s: P.State, c: nat, trace: seq<SinkCall>,
      calls: seq<Call>, size: nat)
    requires P.IsRun(run, s, true) && P.HasStream(s, c) && s.ops[c].stream.value.refused == 0
    requires Follows(StreamOp, calls)
    requires SinkTrace(run, c) <= trace && Delivered(calls, size, Gifts(trace))
    ensures Flatten(s.ops[c].stream.value.js) <= Received(calls)
    ensures SinkTrace(run, c) == trace && NoneUnderWay(s, c) && !EndsPanicked(calls) ==>
      Flatten(s.ops[c].stream.value.js) == Received(calls)
  {
    JsGetsChunks(run, s, c, trace, calls, size);
    FirstBytes(s.ops[c].stream.value.js, calls, size);
  }

  lemma FirstBytes(js: seq<seq<byte>>, calls: seq<Call>, size: nat)
    requires Follows(StreamOp, calls) && 0 < size && js <= Chunks(Results(calls), size)
    ensures Flatten(js) <= Received(calls)
    ensures js == Chunks(Results(calls), size) ==> Flatten(js) == Received(calls)
  {
    var all := Chunks(Results(calls), size);
    ChunksConserve(Results(calls), size);
    ReceivedIsResults(StreamOp, calls);
    FlattenConcat(js, all[|js|..]);
    assert js + all[|js|..] == all;
  }

  /** In bytes: what JS has been given is what the port returned, in order and
      without what was refused. */
  lemma JsGetsSomeBytes(run: seq<P.Action>, s: P.State, c: nat, trace: seq<SinkCall>,
      calls: seq<Call>, size: nat)
    requires P.IsRun(run, s, true) && P.HasStream(s, c) && Follows(StreamOp, calls)
    requires SinkTrace(run, c) <= trace && Delivered(calls, size, Gifts(trace))
    ensures Subseq(Flatten(s.ops[c].stream.value.js), Received(calls))
  {
    JsGetsSomeChunks(run, s, c, trace, calls, size);
    ChunksConserve(Results(calls), size);
    ReceivedIsResults(StreamOp, calls);
    FlattenInOrder(s.ops[c].stream.value.js, Chunks(Results(calls), size));
  }

  lemma {:induction false} FlattenInOrder(some: seq<seq<byte>>, all: seq<seq<byte>>)
    requires Subseq(some, all)
    ensures Subseq(Flatten(some), Flatten(all))
    decreases all
  {
    if some == [] {
    } else if Last(some) == Last(all) && Subseq(Front(some), Front(all)) {
      FlattenInOrder(Front(some), Front(all));
      SubseqBoth(Flatten(Front(some)), Flatten(Front(all)), Last(all));
    } else {
      FlattenInOrder(some, Front(all));
      SubseqLonger(Flatten(some), Flatten(Front(all)), Last(all));
    }
  }
}
