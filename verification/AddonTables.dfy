/** The addon's global tables, what they have to do with a state of the protocol,
    and how the calls that work on them keep it that way. */
module AddonTables {
  import opened Basics
  import opened PortModel
  import P = Protocol
  import S = ProtocolSafety
  import T = StreamPaths
  import SinkCalls

  /** A string or buffer from C.malloc. */
  class Native {
    const text: string
    const bytes: seq<byte>
    var freed: bool

    constructor (text: string, bytes: seq<byte>)
      ensures !freed && this.text == text && this.bytes == bytes
    {
      this.text, this.bytes, freed := text, bytes, false;
    }

    method Free()
      requires !freed
      modifies this
      ensures freed
    {
      freed := true;
    }
  }

  /** The PendingOp struct. Whoever holds the pointer owns it alone, so it is a
      value here. */
  datatype OpRecord = OpRecord(
    hasBuffer: bool, streamCbId: nat,
    err: string, result: string, numResult: int, isError: bool, hasResult: bool, hasNum: bool)
  {
    /** What the callback passes to JS. */
    function Reply(): P.Reply {
      if isError then P.Failure(err)
      else if hasNum then P.Number(numResult)
      else if hasResult then P.Json(result)
      else P.Empty
    }
  }

  /** A chunk in the queue of a stream. */
  datatype Chunk = Chunk(data: Native, len: nat) {
    function Bytes(): seq<byte> {
      if len <= |data.bytes| then data.bytes[..len] else []
    }
  }

  function NewRecord(hasBuffer: bool, streamCbId: nat): OpRecord {
    OpRecord(hasBuffer, streamCbId, "", "", 0, false, false, false)
  }

  /** Which batch of which stream a queued buffer is. */
  datatype Home = Home(c: nat, b: nat)

  /** The queues of the streams by their slots, and all the buffers in them. */
  datatype ChunkTable = ChunkTable(queues: map<nat, seq<Chunk>>, homes: map<Native, Home>)

  datatype Tables = Tables(
    pending: map<nat, OpRecord>, nextPendingId: nat, doneQueues: map<nat, seq<OpRecord>>,
    tsfns: set<nat>, chunks: ChunkTable, nextCbId: nat)

  // ---- what the calls do to the tables --------------------------------------------

  function Started(t: Tables, hasBuffer: bool, streams: bool): Tables {
    t.(pending := t.pending[t.nextPendingId := NewRecord(hasBuffer, if streams then t.nextCbId else 0)],
       nextPendingId := t.nextPendingId + 1, doneQueues := t.doneQueues[t.nextPendingId := []],
       tsfns := if streams then t.tsfns + {t.nextCbId} else t.tsfns,
       chunks := if streams then t.chunks.(queues := t.chunks.queues[t.nextCbId := []]) else t.chunks,
       nextCbId := if streams then t.nextCbId + 1 else t.nextCbId)
  }

  function Ended(t: Tables, c: nat, op: Option<OpRecord>, ok: bool): Tables {
    t.(pending := t.pending - {c},
       doneQueues := if op.Some? && ok && c in t.doneQueues then t.doneQueues[c := t.doneQueues[c] + [op.value]]
                     else t.doneQueues,
       tsfns := if op.Some? && !ok then t.tsfns - {op.value.streamCbId} else t.tsfns)
  }

  function CalledBack(t: Tables, c: nat): Tables
    requires c in t.doneQueues && t.doneQueues[c] != []
  {
    t.(doneQueues := t.doneQueues[c := t.doneQueues[c][1..]], tsfns := t.tsfns - {t.doneQueues[c][0].streamCbId})
  }

  /** A chunk of stream c, its batch b, has been put into the queue behind this
      slot. */
  function Queueing(ct: ChunkTable, slot: nat, chunk: Chunk, c: nat, b: nat): ChunkTable {
    if slot in ct.queues
    then ChunkTable(ct.queues[slot := ct.queues[slot] + [chunk]], ct.homes[chunk.data := Home(c, b)])
    else ct
  }

  /** The oldest chunk has been taken out of it. */
  function Unqueueing(ct: ChunkTable, slot: nat): ChunkTable
    requires slot in ct.queues && ct.queues[slot] != []
  {
    ChunkTable(ct.queues[slot := ct.queues[slot][1..]], ct.homes - {ct.queues[slot][0].data})
  }

  // ---- the tables and the protocol state -----------------------------------------

  function SlotOf(op: P.PendingOp): nat {
    if op.stream.Some? then op.stream.value.slot else 0
  }

  /** The two tables are those of the protocol state. */
  ghost predicate Fits(pending: map<nat, OpRecord>, slots: set<nat>, s: P.State) {
    && pending.Keys == s.table && slots == s.slots
    && (forall c :: c in pending ==>
          && c in s.ops && pending[c].streamCbId == SlotOf(s.ops[c]) && pending[c].Reply() == P.Empty
          && pending[c].hasBuffer == s.ops[c].hasBuffer)
  }

  /** The counters are ahead of every id that is in use. */
  ghost predicate Numbered(t: Tables, calls: nat, s: P.State) {
    && t.nextPendingId == s.nextOp && t.nextCbId == s.nextSlot && 0 < t.nextCbId
    && (forall c :: c in s.ops ==> c < t.nextPendingId)
    && (forall x :: x in t.tsfns ==> 0 < x < t.nextCbId)
    && (forall k :: k in s.completers ==> k < calls)
    && t.doneQueues.Keys == s.ops.Keys
  }

  /** What waits for the loop thread is what the protocol state says. */
  ghost predicate Queued(queues: map<nat, seq<OpRecord>>, s: P.State) {
    && s.loop.Idle?
    && forall c :: c in s.ops && c in queues ==> Waits(queues[c], s.ops[c]) && (c in s.table ==> queues[c] == [])
  }

  ghost predicate Waits(queue: seq<OpRecord>, op: P.PendingOp) {
    && |queue| == op.queued
    && forall r :: r in queue ==> r.streamCbId == SlotOf(op) && r.Reply() == op.reply
  }

  /** The queue of a stream's ThreadSafeFunction, what its chunks hold, and
      which batches their buffers are, is what the protocol state says. */
  ghost predicate Streams(ct: ChunkTable, s: P.State) {
    forall c :: P.HasStream(s, c) ==>
      s.ops[c].stream.value.slot in ct.queues
      && Carries(ct.queues[s.ops[c].stream.value.slot], ct.homes, c, s.ops[c].stream.value)
  }

  /** As no batch is queued twice, no buffer is. */
  ghost predicate Carries(queue: seq<Chunk>, homes: map<Native, Home>, c: nat, st: P.Stream) {
    && |queue| == |st.queue|
    && forall i :: 0 <= i < |queue| ==>
         && queue[i].len <= |queue[i].data.bytes| && queue[i].Bytes() == P.ContentOf(st.contents, st.queue[i])
         && queue[i].data in homes && homes[queue[i].data] == Home(c, st.queue[i])
  }

  /** The queue of the stream is as before. */
  predicate SameStream(op: P.PendingOp, op': P.PendingOp) {
    && op'.stream.Some? == op.stream.Some?
    && (op.stream.Some? ==>
          && op'.stream.value.slot == op.stream.value.slot
          && op'.stream.value.queue == op.stream.value.queue
          && op'.stream.value.contents == op.stream.value.contents
          && op'.stream.value.js == op.stream.value.js)
  }

  /** What JS has been given of op's stream. */
  function JsOf(op: P.PendingOp): seq<P.Bytes> {
    if op.stream.Some? then op.stream.value.js else []
  }

  lemma StillStreams(ct: ChunkTable, s: P.State, s': P.State)
    requires Streams(ct, s) && s'.ops.Keys == s.ops.Keys
    requires forall d :: d in s.ops ==> SameStream(s.ops[d], s'.ops[d])
    ensures Streams(ct, s')
  {
    forall c | P.HasStream(s', c)
      ensures s'.ops[c].stream.value.slot in ct.queues
      ensures Carries(ct.queues[s'.ops[c].stream.value.slot], ct.homes, c, s'.ops[c].stream.value)
    {
      assert SameStream(s.ops[c], s'.ops[c]) && P.HasStream(s, c);
    }
  }

  /** All of it but the streams. */
  ghost predicate Good(t: Tables, calls: nat, s: P.State) {
    && Fits(t.pending, t.tsfns, s)
    && Numbered(t, calls, s)
    && Queued(t.doneQueues, s)
  }

  function ReplyOf(s: P.State, c: nat): P.Reply {
    if c in s.ops then s.ops[c].reply else P.Empty
  }

  /** Of the ops only c moves: `more` more calls are queued, and it has this
      reply. */
  ghost predicate OnlyOp(s: P.State, s': P.State, c: nat, more: nat, reply: P.Reply) {
    forall d :: d in s.ops && d in s'.ops ==>
      && SameStream(s.ops[d], s'.ops[d])
      && s'.ops[d].queued == s.ops[d].queued + (if d == c then more else 0)
      && s'.ops[d].reply == if d == c then reply else s.ops[d].reply
  }

  /** Completer k has taken op c and is at this stage. */
  predicate Mid(s: P.State, k: nat, c: nat, stage: P.Stage, slot: nat) {
    && k in s.completers && s.completers[k].stage == stage && s.completers[k].target == c
    && c in s.ops && c !in s.table && SlotOf(s.ops[c]) == slot
  }

  /** What a completion call by k leaves alone. */
  predicate Steady(s: P.State, s': P.State, k: nat) {
    && s'.nextOp == s.nextOp && s'.nextSlot == s.nextSlot && s'.loop == s.loop
    && s'.ops.Keys == s.ops.Keys && s'.completers.Keys == s.completers.Keys + {k}
    && (forall d :: d in s.ops ==> s'.ops[d].task == s.ops[d].task)
    && (k in s.completers ==>
          s'.completers[k].target == s.completers[k].target && s'.completers[k].msg == s.completers[k].msg)
  }

  lemma StillNumbered(t: Tables, t': Tables, calls: nat, s: P.State, s': P.State, k: nat)
    requires Numbered(t, calls, s) && Steady(s, s', k) && k < calls
    requires t'.nextPendingId == t.nextPendingId && t'.nextCbId == t.nextCbId && t'.tsfns <= t.tsfns
    requires t'.doneQueues.Keys == t.doneQueues.Keys
    ensures Numbered(t', calls, s')
  {
  }

  lemma StillQueued(t: Tables, s: P.State, s': P.State, c: nat, op: Option<OpRecord>, ok: bool, reply: P.Reply)
    requires Queued(t.doneQueues, s) && s'.loop.Idle? && s'.table == s.table - {c}
    requires t.doneQueues.Keys == s.ops.Keys == s'.ops.Keys
    requires if op.Some? then c in s.table && c in s.ops else c !in s.table
    requires op.Some? ==> op.value.streamCbId == SlotOf(s.ops[c]) && op.value.Reply() == reply
    requires OnlyOp(s, s', c, if op.Some? && ok then 1 else 0, if op.Some? then reply else ReplyOf(s, c))
    ensures Queued(Ended(t, c, op, ok).doneQueues, s')
  {
    var queues, queues' := t.doneQueues, Ended(t, c, op, ok).doneQueues;
    forall d | d in s'.ops && d in queues'
      ensures Waits(queues'[d], s'.ops[d]) && (d in s'.table ==> queues'[d] == [])
    {
      assert Waits(queues[d], s.ops[d]);
    }
  }

  lemma {:induction false} TakeFits(pending: map<nat, OpRecord>, slots: set<nat>, s: P.State, k: nat, c: nat)
      returns (s': P.State)
    requires Fits(pending, slots, s)
    requires k in s.completers && s.completers[k].stage.Calling? && s.completers[k].target == c
    ensures P.Enabled(s, P.OnComplete(k, P.Take)) && s' == P.Next(s, P.OnComplete(k, P.Take))
    ensures Fits(pending - {c}, slots, s') && Steady(s, s', k)
    ensures OnlyOp(s, s', c, 0, ReplyOf(s, c)) && s'.table == s.table - {c}
    ensures c in pending ==> Mid(s', k, c, P.Taken, pending[c].streamCbId)
    ensures c !in pending ==> P.CompleteEnabled(s', k, P.FreeUnknown) && s'.completers[k].target == c
  {
    s' := P.Next(s, P.OnComplete(k, P.Take));
  }

  lemma {:induction false} FreeUnknownFits(pending: map<nat, OpRecord>, slots: set<nat>, s: P.State, k: nat)
      returns (s': P.State)
    requires Fits(pending, slots, s) && P.CompleteEnabled(s, k, P.FreeUnknown)
    ensures s' == P.Next(s, P.OnComplete(k, P.FreeUnknown))
    ensures Fits(pending, slots, s') && Steady(s, s', k) && s'.completers[k].stage.Finished?
    ensures s'.ops == s.ops && s'.table == s.table
  {
    s' := P.Next(s, P.OnComplete(k, P.FreeUnknown));
  }

  lemma {:induction false} FillFits(pending: map<nat, OpRecord>, slots: set<nat>, s: P.State, k: nat, c: nat, slot: nat)
      returns (s': P.State)
    requires Fits(pending, slots, s) && Mid(s, k, c, P.Taken, slot)
    ensures P.Enabled(s, P.OnComplete(k, P.Fill)) && s' == P.Next(s, P.OnComplete(k, P.Fill))
    ensures Fits(pending, slots, s') && Steady(s, s', k) && Mid(s', k, c, P.Filled, slot)
    ensures OnlyOp(s, s', c, 0, P.ReplyTo(s.completers[k].msg)) && s'.table == s.table
  {
    s' := P.Next(s, P.OnComplete(k, P.Fill));
  }

  lemma {:induction false} EnqueueFits(pending: map<nat, OpRecord>, slots: set<nat>, s: P.State, k: nat, c: nat,
      slot: nat, ok: bool) returns (s': P.State)
    requires Fits(pending, slots, s) && Mid(s, k, c, P.Filled, slot)
    ensures P.Enabled(s, P.OnComplete(k, P.Enqueue(ok))) && s' == P.Next(s, P.OnComplete(k, P.Enqueue(ok)))
    ensures Fits(pending, slots, s') && Steady(s, s', k)
    ensures Mid(s', k, c, if ok then P.Releasing else P.Refused, slot)
    ensures OnlyOp(s, s', c, if ok then 1 else 0, ReplyOf(s, c)) && s'.table == s.table
  {
    s' := P.Next(s, P.OnComplete(k, P.Enqueue(ok)));
  }

  lemma {:induction false} CleanUpFits(pending: map<nat, OpRecord>, slots: set<nat>, s: P.State, k: nat, c: nat,
      slot: nat) returns (s': P.State)
    requires Fits(pending, slots, s) && Mid(s, k, c, P.Refused, slot) && 0 !in slots
    ensures P.Enabled(s, P.OnComplete(k, P.CleanUp)) && s' == P.Next(s, P.OnComplete(k, P.CleanUp))
    ensures Fits(pending, slots - {slot}, s') && Steady(s, s', k) && Mid(s', k, c, P.Releasing, slot)
    ensures OnlyOp(s, s', c, 0, ReplyOf(s, c)) && s'.table == s.table
  {
    s' := P.Next(s, P.OnComplete(k, P.CleanUp));
  }

  lemma {:induction false} ReleaseFnFits(pending: map<nat, OpRecord>, slots: set<nat>, s: P.State, k: nat, c: nat,
      slot: nat) returns (s': P.State)
    requires Fits(pending, slots, s) && Mid(s, k, c, P.Releasing, slot)
    ensures P.Enabled(s, P.OnComplete(k, P.ReleaseFn)) && s' == P.Next(s, P.OnComplete(k, P.ReleaseFn))
    ensures Fits(pending, slots, s') && Steady(s, s', k) && Mid(s', k, c, P.Finished, slot)
    ensures OnlyOp(s, s', c, 0, ReplyOf(s, c)) && s'.table == s.table
  {
    s' := P.Next(s, P.OnComplete(k, P.ReleaseFn));
  }

  // ---- whole calls ------------------------------------------------------------------

  /** The steps of a completion call after its op has been filled in. */
  function Settling(k: nat, ok: bool): seq<P.Action> {
    if ok then [P.OnComplete(k, P.Enqueue(true))] + [P.OnComplete(k, P.ReleaseFn)]
    else [P.OnComplete(k, P.Enqueue(false))] + ([P.OnComplete(k, P.CleanUp)] + [P.OnComplete(k, P.ReleaseFn)])
  }

  /** The steps of a completion call after it has come in. */
  function CallPath(k: nat, known: bool, ok: bool): seq<P.Action> {
    [P.OnComplete(k, P.Take)]
    + (if known then [P.OnComplete(k, P.Fill)] + Settling(k, ok) else [P.OnComplete(k, P.FreeUnknown)])
  }

  lemma Only(s: P.State, a: P.Action, s': P.State)
    requires P.Enabled(s, a) && s' == P.Next(s, a)
    ensures P.Leads(s, [a], s')
  {
  }

  lemma OnlyLed(s: P.State, a: P.Action, s': P.State)
    requires P.Enabled(s, a) && s' == P.Next(s, a)
    ensures P.Led(s, [a], s')
  {
    Only(s, a, s');
    P.LedLeads(s, [a], s');
  }

  lemma {:induction false} SettleAccepted(pending: map<nat, OpRecord>, slots: set<nat>, s: P.State, k: nat, c: nat,
      slot: nat) returns (s': P.State)
    requires Fits(pending, slots, s) && Mid(s, k, c, P.Filled, slot)
    ensures P.Leads(s, Settling(k, true), s')
    ensures Fits(pending, slots, s') && Steady(s, s', k) && Mid(s', k, c, P.Finished, slot)
    ensures OnlyOp(s, s', c, 1, ReplyOf(s, c)) && s'.table == s.table
  {
    var s1 := EnqueueFits(pending, slots, s, k, c, slot, true);
    s' := ReleaseFnFits(pending, slots, s1, k, c, slot);
    Only(s1, P.OnComplete(k, P.ReleaseFn), s');
    P.Lead(s, P.OnComplete(k, P.Enqueue(true)), s1, [P.OnComplete(k, P.ReleaseFn)], s');
  }

  lemma {:induction false} SettleRefused(pending: map<nat, OpRecord>, slots: set<nat>, s: P.State, k: nat, c: nat,
      slot: nat) returns (s': P.State)
    requires Fits(pending, slots, s) && Mid(s, k, c, P.Filled, slot) && 0 !in slots
    ensures P.Leads(s, Settling(k, false), s')
    ensures Fits(pending, slots - {slot}, s') && Steady(s, s', k) && Mid(s', k, c, P.Finished, slot)
    ensures OnlyOp(s, s', c, 0, ReplyOf(s, c)) && s'.table == s.table
  {
    var a, b, d := P.OnComplete(k, P.Enqueue(false)), P.OnComplete(k, P.CleanUp), P.OnComplete(k, P.ReleaseFn);
    var s1 := EnqueueFits(pending, slots, s, k, c, slot, false);
    var s2 := CleanUpFits(pending, slots, s1, k, c, slot);
    s' := ReleaseFnFits(pending, slots - {slot}, s2, k, c, slot);
    Only(s2, d, s');
    P.Lead(s1, b, s2, [d], s');
    P.Lead(s, a, s1, [b] + [d], s');
  }

  lemma {:induction false} UnknownCall(pending: map<nat, OpRecord>, slots: set<nat>, s: P.State, k: nat, c: nat,
      ok: bool) returns (s': P.State)
    requires Fits(pending, slots, s) && c !in pending
    requires k in s.completers && s.completers[k].stage.Calling? && s.completers[k].target == c
    ensures P.Leads(s, CallPath(k, false, ok), s')
    ensures Fits(pending, slots, s') && Steady(s, s', k) && s'.completers[k].stage.Finished?
    ensures OnlyOp(s, s', c, 0, ReplyOf(s, c)) && s'.table == s.table
  {
    var s1 := TakeFits(pending, slots, s, k, c);
    assert pending - {c} == pending;
    s' := FreeUnknownFits(pending, slots, s1, k);
    Only(s1, P.OnComplete(k, P.FreeUnknown), s');
    P.Lead(s, P.OnComplete(k, P.Take), s1, [P.OnComplete(k, P.FreeUnknown)], s');
  }

  lemma {:induction false} KnownCall(pending: map<nat, OpRecord>, slots: set<nat>, s: P.State, k: nat, c: nat, ok: bool)
      returns (s': P.State)
    requires Fits(pending, slots, s) && c in pending && 0 !in slots
    requires k in s.completers && s.completers[k].stage.Calling? && s.completers[k].target == c
    ensures P.Leads(s, CallPath(k, true, ok), s')
    ensures Fits(pending - {c}, if ok then slots else slots - {pending[c].streamCbId}, s')
    ensures Steady(s, s', k) && s'.completers[k].stage.Finished?
    ensures OnlyOp(s, s', c, if ok then 1 else 0, P.ReplyTo(s.completers[k].msg)) && s'.table == s.table - {c}
  {
    var slot := pending[c].streamCbId;
    var s1 := TakeFits(pending, slots, s, k, c);
    var s2 := FillFits(pending - {c}, slots, s1, k, c, slot);
    if ok {
      s' := SettleAccepted(pending - {c}, slots, s2, k, c, slot);
    } else {
      s' := SettleRefused(pending - {c}, slots, s2, k, c, slot);
    }
    P.Lead(s1, P.OnComplete(k, P.Fill), s2, Settling(k, ok), s');
    P.Lead(s, P.OnComplete(k, P.Take), s1, [P.OnComplete(k, P.Fill)] + Settling(k, ok), s');
  }

  lemma {:induction false} CallEnds(pending: map<nat, OpRecord>, slots: set<nat>, s: P.State, k: nat, c: nat, ok: bool)
      returns (s': P.State)
    requires Fits(pending, slots, s) && 0 !in slots
    requires k in s.completers && s.completers[k].stage.Calling? && s.completers[k].target == c
    ensures P.Leads(s, CallPath(k, c in pending, ok), s')
    ensures Fits(pending - {c}, if c in pending && !ok then slots - {pending[c].streamCbId} else slots, s')
    ensures Steady(s, s', k) && s'.completers[k].stage.Finished?
    ensures s'.table == s.table - {c}
    ensures OnlyOp(s, s', c, if c in pending && ok then 1 else 0,
                   if c in pending then P.ReplyTo(s.completers[k].msg) else ReplyOf(s, c))
  {
    if c in pending {
      s' := KnownCall(pending, slots, s, k, c, ok);
    } else {
      assert pending - {c} == pending;
      s' := UnknownCall(pending, slots, s, k, c, ok);
    }
  }

  lemma {:induction false} RegisterFits(pending: map<nat, OpRecord>, slots: set<nat>, s: P.State, hasBuffer: bool,
      streams: bool) returns (s': P.State)
    requires Fits(pending, slots, s) && s.nextOp !in s.ops
    ensures P.Leads(s, [P.Register(hasBuffer, streams)], s')
    ensures var x := if streams then s.nextSlot else 0;
      Fits(pending[s.nextOp := NewRecord(hasBuffer, x)], if streams then slots + {x} else slots, s')
    ensures s'.completers == s.completers && s'.nextOp == s.nextOp + 1
    ensures s'.nextSlot == if streams then s.nextSlot + 1 else s.nextSlot
    ensures s'.ops.Keys == s.ops.Keys + {s.nextOp} && s'.ops[s.nextOp].task.Starting?
    ensures s'.ops == s.ops[s.nextOp := s'.ops[s.nextOp]] && s'.ops[s.nextOp].queued == 0
    ensures s'.ops[s.nextOp].stream == if streams then Some(P.NewStream(s.nextSlot)) else None
    ensures s'.ops[s.nextOp].hasBuffer == hasBuffer
    ensures s'.table == s.table + {s.nextOp} && s'.loop == s.loop
  {
    s' := P.Next(s, P.Register(hasBuffer, streams));
    Only(s, P.Register(hasBuffer, streams), s');
  }

  /** The steps of a completion callback on the loop thread. */
  function CallbackPath(c: nat): seq<P.Action> {
    [P.OnSettle(c, P.RunDone)] + ([P.OnSettle(c, P.ReleaseSlot)] + [P.OnSettle(c, P.Delete)])
  }

  predicate Undisturbed(s: P.State, s': P.State) {
    && s'.nextOp == s.nextOp && s'.nextSlot == s.nextSlot && s'.ops.Keys == s.ops.Keys
    && s'.completers == s.completers && s'.table == s.table
    && (forall d :: d in s.ops ==> s'.ops[d].task == s.ops[d].task)
  }

  lemma {:induction false} CallbackRun(pending: map<nat, OpRecord>, slots: set<nat>, s: P.State, c: nat)
      returns (s': P.State)
    requires Fits(pending, slots, s) && c in s.ops && c !in pending && 0 !in slots
    requires s.loop.Idle? && s.ops[c].queued > 0
    ensures P.Leads(s, CallbackPath(c), s')
    ensures Fits(pending, slots - {SlotOf(s.ops[c])}, s') && Undisturbed(s, s') && s'.loop.Idle?
    ensures s'.ops[c].calls == s.ops[c].calls + [s.ops[c].reply] && s'.ops[c].deletes == s.ops[c].deletes + 1
    ensures forall d :: d in s.ops ==>
      && SameStream(s.ops[d], s'.ops[d]) && s'.ops[d].reply == s.ops[d].reply
      && s'.ops[d].queued == s.ops[d].queued - if d == c then 1 else 0
  {
    var a, b, d := P.OnSettle(c, P.RunDone), P.OnSettle(c, P.ReleaseSlot), P.OnSettle(c, P.Delete);
    var s1 := P.SettleNext(s, c, P.RunDone);
    var s2 := P.SettleNext(s1, c, P.ReleaseSlot);
    s' := P.SettleNext(s2, c, P.Delete);
    Only(s2, d, s');
    P.Lead(s1, b, s2, [d], s');
    P.Lead(s, a, s1, [b] + [d], s');
  }

  // ---- whole calls keep the tables good ---------------------------------------------

  lemma {:induction false} StartGood(t: Tables, calls: nat, s: P.State, hasBuffer: bool, streams: bool)
      returns (s': P.State)
    requires Good(t, calls, s)
    ensures Good(Started(t, hasBuffer, streams), calls, s') && P.Led(s, [P.Register(hasBuffer, streams)], s')
    ensures var n, x := t.nextPendingId, t.nextCbId;
      && n !in s.ops && s'.ops == s.ops[n := s'.ops[n]] && s'.ops[n].task.Starting? && x !in t.tsfns && 0 < x
      && s'.ops[n].hasBuffer == hasBuffer
      && s'.ops[n].stream == if streams then Some(P.NewStream(x)) else None
  {
    s' := RegisterFits(t.pending, t.tsfns, s, hasBuffer, streams);
    P.LedLeads(s, [P.Register(hasBuffer, streams)], s');
    StartQueued(t.doneQueues, s, s', t.nextPendingId);
  }

  lemma StartQueued(queues: map<nat, seq<OpRecord>>, s: P.State, s': P.State, n: nat)
    requires Queued(queues, s) && s'.loop == s.loop && s'.table == s.table + {n}
    requires n in s'.ops && s'.ops == s.ops[n := s'.ops[n]] && s'.ops[n].queued == 0
    ensures Queued(queues[n := []], s')
  {
    forall c | c in s'.ops && c in queues[n := []]
      ensures Waits(queues[n := []][c], s'.ops[c]) && (c in s'.table ==> queues[n := []][c] == [])
    {
      if c != n {
        assert Waits(queues[c], s.ops[c]);
      }
    }
  }

  lemma {:induction false} EndGood(t: Tables, calls: nat, s: P.State, k: nat, c: nat, op: Option<OpRecord>, ok: bool)
      returns (s': P.State)
    requires Good(t, calls, s)
    requires k in s.completers && s.completers[k].stage.Calling? && s.completers[k].target == c
    requires op.Some? <==> c in t.pending
    requires op.Some? ==>
      op.value.streamCbId == t.pending[c].streamCbId && op.value.Reply() == P.ReplyTo(s.completers[k].msg)
    ensures Good(Ended(t, c, op, ok), calls, s')
    ensures P.Led(s, CallPath(k, op.Some?, ok), s') && Steady(s, s', k) && s'.completers[k].stage.Finished?
    ensures forall d :: d in s.ops ==> SameStream(s.ops[d], s'.ops[d])
  {
    s' := CallEnds(t.pending, t.tsfns, s, k, c, ok);
    P.LedLeads(s, CallPath(k, op.Some?, ok), s');
    StillNumbered(t, Ended(t, c, op, ok), calls, s, s', k);
    StillQueued(t, s, s', c, op, ok, P.ReplyTo(s.completers[k].msg));
  }

  lemma {:induction false} CallbackGood(t: Tables, calls: nat, s: P.State, c: nat) returns (s': P.State)
    requires Good(t, calls, s) && c in t.doneQueues && t.doneQueues[c] != []
    ensures Good(CalledBack(t, c), calls, s')
    ensures P.Led(s, CallbackPath(c), s') && c in s.ops && s'.ops.Keys == s.ops.Keys
    ensures forall d :: d in s.ops ==> SameStream(s.ops[d], s'.ops[d])
    ensures s'.ops[c].calls == s.ops[c].calls + [t.doneQueues[c][0].Reply()]
    ensures s'.ops[c].deletes == s.ops[c].deletes + 1
  {
    var queues, queues' := t.doneQueues, CalledBack(t, c).doneQueues;
    assert Waits(queues[c], s.ops[c]) && queues[c][0] in queues[c];
    s' := CallbackRun(t.pending, t.tsfns, s, c);
    P.LedLeads(s, CallbackPath(c), s');
    forall d | d in s'.ops && d in queues'
      ensures Waits(queues'[d], s'.ops[d]) && (d in s'.table ==> queues'[d] == [])
    {
      assert Waits(queues[d], s.ops[d]);
      assert forall r :: r in queues'[d] ==> r in queues[d];
    }
  }

  /** A step of an op's goroutine that is not one of its stream. */
  lemma TaskGood(t: Tables, calls: nat, s: P.State, c: nat, s': P.State)
    requires Good(t, calls, s) && c in s.ops
    requires c in s'.ops && s' == s.(ops := s.ops[c := s.ops[c].(task := s'.ops[c].task)])
    ensures Good(t, calls, s')
  {
    forall d | d in s'.ops && d in t.doneQueues
      ensures Waits(t.doneQueues[d], s'.ops[d]) && (d in s'.table ==> t.doneQueues[d] == [])
    {
      assert Waits(t.doneQueues[d], s.ops[d]);
    }
  }

  lemma CalledGood(t: Tables, k: nat, s: P.State, s': P.State, q: P.Completer)
    requires Good(t, k, s) && s' == s.(completers := s.completers[k := q])
    ensures Good(t, k + 1, s')
  {
    assert Queued(t.doneQueues, s');
  }

  lemma {:induction false} CallGood(t: Tables, k: nat, s: P.State, c: nat, msg: P.Message, own: bool)
      returns (s': P.State)
    requires Good(t, k, s)
    requires own ==> c in s.ops && (s.ops[c].task.Starting? || s.ops[c].task.Over?)
    ensures Good(t, k + 1, s') && P.Led(s, [P.Call(k, c, msg, own)], s')
    ensures k !in s.completers && s'.completers == s.completers[k := P.Completer(c, msg, P.Calling, 0, 0)]
    ensures s'.ops.Keys == s.ops.Keys && s'.table == s.table
    ensures forall d :: d in s.ops ==>
      SameStream(s.ops[d], s'.ops[d]) && s'.ops[d].task == if own && d == c then P.Reported else s.ops[d].task
  {
    s' := P.Next(s, P.Call(k, c, msg, own));
    var s1 := if own then P.WithOp(s, c, s.ops[c].(task := P.Reported)) else s;
    if own {
      TaskGood(t, k, s, c, s1);
    }
    CalledGood(t, k, s1, s', P.Completer(c, msg, P.Calling, 0, 0));
    OnlyLed(s, P.Call(k, c, msg, own), s');
  }

  /** Steps of a stream. */
  lemma StreamGood(t: Tables, calls: nat, s: P.State, c: nat, s': P.State)
    requires Good(t, calls, s) && P.HasStream(s, c) && P.HasStream(s', c)
    requires s' == s.(ops := s.ops[c := s.ops[c].(stream := s'.ops[c].stream)])
    requires s'.ops[c].stream.value.slot == s.ops[c].stream.value.slot
    ensures Good(t, calls, s')
  {
    forall d | d in s'.ops && d in t.doneQueues
      ensures Waits(t.doneQueues[d], s'.ops[d]) && (d in s'.table ==> t.doneQueues[d] == [])
    {
      assert Waits(t.doneQueues[d], s.ops[d]);
    }
  }

  // ---- and the queues of the streams ------------------------------------------------------

  /** Streams other than c keep their queue; what c's must be is left to show. */
  lemma OthersStream(ct: ChunkTable, run: seq<P.Action>, s: P.State, strict: bool, c: nat, s': P.State,
      ct': ChunkTable)
    requires Streams(ct, s) && P.Reached(run, s, strict) && P.HasStream(s, c) && P.HasStream(s', c)
    requires s' == s.(ops := s.ops[c := s.ops[c].(stream := s'.ops[c].stream)])
    requires s'.ops[c].stream.value.slot == s.ops[c].stream.value.slot
    requires s.ops[c].stream.value.slot in ct'.queues
    requires var slot := s.ops[c].stream.value.slot;
      && ct'.queues == ct.queues[slot := ct'.queues[slot]]
      && Carries(ct'.queues[slot], ct'.homes, c, s'.ops[c].stream.value)
    requires forall n :: n in ct.homes && ct.homes[n].c != c ==> n in ct'.homes && ct'.homes[n] == ct.homes[n]
    ensures Streams(ct', s')
  {
    P.ReachedRun(run, s, strict);
    S.RunInv(run, s, strict);
    forall d | P.HasStream(s', d) && d != c
      ensures s'.ops[d].stream.value.slot in ct'.queues
      ensures Carries(ct'.queues[s'.ops[d].stream.value.slot], ct'.homes, d, s'.ops[d].stream.value)
    {
      assert P.HasStream(s, d) && s'.ops[d] == s.ops[d];
      StillCarries(ct.queues[s.ops[d].stream.value.slot], ct.homes, ct'.homes, d, s.ops[d].stream.value);
    }
  }

  lemma StillCarries(queue: seq<Chunk>, homes: map<Native, Home>, homes': map<Native, Home>, c: nat, st: P.Stream)
    requires Carries(queue, homes, c, st)
    requires forall n :: n in homes && homes[n].c == c ==> n in homes' && homes'[n] == homes[n]
    ensures Carries(queue, homes', c, st)
  {
  }

  lemma StartStreams(t: Tables, run: seq<P.Action>, s: P.State, strict: bool, s': P.State, streams: bool)
    requires Streams(t.chunks, s) && P.Reached(run, s, strict) && t.nextPendingId !in s.ops && t.nextCbId == s.nextSlot
    requires t.nextPendingId in s'.ops && s'.ops == s.ops[t.nextPendingId := s'.ops[t.nextPendingId]]
    requires s'.ops[t.nextPendingId].stream == if streams then Some(P.NewStream(s.nextSlot)) else None
    ensures Streams(Started(t, true, streams).chunks, s')
  {
    P.ReachedRun(run, s, strict);
    S.RunInv(run, s, strict);
    forall d | P.HasStream(s', d)
      ensures d == t.nextPendingId
        || (P.HasStream(s, d) && s'.ops[d] == s.ops[d] && s.ops[d].stream.value.slot != s.nextSlot)
    {
      assert d != t.nextPendingId ==> P.HasStream(s, d) && S.SlotInv(s, d);
    }
  }

  lemma Weaken(run: seq<P.Action>, s: P.State, strict: bool, own: bool)
    requires P.Reached(run, s, strict)
    ensures P.Reached(run, s, strict && own)
  {
    P.ReachedRun(run, s, strict);
    if strict && !own {
      P.AlsoARun(run, s);
    }
    P.ReachedRun(run, s, strict && own);
  }

  lemma {:induction false} HandOffLed(s: P.State, c: nat, data: P.Bytes, ok: bool) returns (s': P.State)
    requires P.HasStream(s, c) && s.ops[c].stream.value.producer.Filling?
    requires ok && s.ops[c].stream.value.slot in s.slots ==> |s.ops[c].stream.value.queue| < P.CHUNK_QUEUE_DEPTH
    ensures T.OnlyStream(s, s', c)
    ensures P.Led(s, T.HandOff(c, data, s.ops[c].stream.value.slot in s.slots, ok), s')
    ensures var st, st', b := s.ops[c].stream.value, s'.ops[c].stream.value, s.ops[c].stream.value.producer.b;
      && st'.producer.NoBatch? && st'.contents == P.WithContent(st.contents, b, data)
      && st'.queue == (if st.slot in s.slots && ok then st.queue + [b] else st.queue)
      && st'.sent == st.sent + [data]
  {
    s' := T.HandOffRuns(s, c, data, ok);
    P.LedLeads(s, T.HandOff(c, data, s.ops[c].stream.value.slot in s.slots, ok), s');
  }

  lemma {:induction false} DeliveryLed(s: P.State, c: nat) returns (s': P.State)
    requires P.HasStream(s, c) && s.loop.Idle? && s.ops[c].stream.value.queue != []
    ensures T.OnlyStream(s, s', c) && P.Led(s, T.Delivery(c), s')
    ensures var st, st' := s.ops[c].stream.value, s'.ops[c].stream.value;
      && st'.contents == st.contents && st'.queue == st.queue[1..]
      && st'.js == st.js + [P.ContentOf(st.contents, st.queue[0])]
      && st'.producer == st.producer && st'.sent == st.sent
  {
    s' := T.DeliveryRuns(s, c);
    P.LedLeads(s, T.Delivery(c), s');
  }

  /** What is in the queue has been handed over: a batch that is being filled is
      another one. */
  lemma QueueStays(run: seq<P.Action>, s: P.State, strict: bool, c: nat)
    requires P.Reached(run, s, strict) && P.HasStream(s, c)
    ensures var st := s.ops[c].stream.value;
      && |st.contents| == |st.frees|
      && (forall b :: b in st.queue ==> b < |st.contents| && !(st.producer.Filling? && b == st.producer.b))
      && (st.producer.Filling? ==> st.producer.b < |st.contents|)
  {
    P.ReachedRun(run, s, strict);
    S.RunInv(run, s, strict);
    var st := s.ops[c].stream.value;
    assert S.StreamInv(st, s.loop, c) && S.ContentInv(st);
    assert forall b :: b in st.queue ==> b in st.pushed;
  }

  /** No batch is queued twice. */
  lemma QueuedOnce(run: seq<P.Action>, s: P.State, strict: bool, c: nat)
    requires P.Reached(run, s, strict) && P.HasStream(s, c)
    ensures NoDup(s.ops[c].stream.value.queue)
  {
    P.ReachedRun(run, s, strict);
    S.RunInv(run, s, strict);
    var st := s.ops[c].stream.value;
    assert S.StreamInv(st, s.loop, c);
    PartOnce(S.InHand(s.loop, c), st.queue, S.WithProducer(st.producer));
  }

  lemma GrownStreams(ct: ChunkTable, run: seq<P.Action>, s: P.State, strict: bool, c: nat, s': P.State)
    requires Streams(ct, s) && P.Reached(run, s, strict) && P.HasStream(s, c) && P.HasStream(s', c)
    requires s' == s.(ops := s.ops[c := s.ops[c].(stream := s'.ops[c].stream)])
    requires var st, st' := s.ops[c].stream.value, s'.ops[c].stream.value;
      st'.slot == st.slot && st'.queue == st.queue && st.contents <= st'.contents
    ensures Streams(ct, s')
  {
    var st, st' := s.ops[c].stream.value, s'.ops[c].stream.value;
    QueueStays(run, s, strict, c);
    assert Carries(ct.queues[st.slot], ct.homes, c, st);
    assert forall i :: 0 <= i < |st.queue| ==> st.queue[i] in st.queue;
    assert Carries(ct.queues[st.slot], ct.homes, c, st');
    assert ct.queues[st.slot := ct.queues[st.slot]] == ct.queues;
    OthersStream(ct, run, s, strict, c, s', ct);
  }

  lemma DrainedStreams(ct: ChunkTable, s: P.State, c: nat, s': P.State)
    requires Streams(ct, s) && T.Drained(s, c) && T.Drained(s', c)
    requires s' == s.(ops := s.ops[c := s.ops[c].(stream := s'.ops[c].stream)])
    requires s'.ops[c].stream.value.slot == s.ops[c].stream.value.slot
    ensures Streams(ct, s')
  {
    assert Carries(ct.queues[s.ops[c].stream.value.slot], ct.homes, c, s.ops[c].stream.value);
    forall d | P.HasStream(s', d)
      ensures d == c || (P.HasStream(s, d) && s'.ops[d] == s.ops[d])
    {
    }
  }

  /** A chunk with a buffer that is in no queue is handed over, and queued or
      not. */
  lemma HandedOver(ct: ChunkTable, run: seq<P.Action>, s: P.State, strict: bool, c: nat, s': P.State,
      chunk: Chunk, queued: bool)
    requires Streams(ct, s) && P.Reached(run, s, strict) && T.OnlyStream(s, s', c)
    requires s.ops[c].stream.value.producer.Filling? && chunk.len <= |chunk.data.bytes| && chunk.data !in ct.homes
    requires var st, st', b := s.ops[c].stream.value, s'.ops[c].stream.value, s.ops[c].stream.value.producer.b;
      && st'.contents == P.WithContent(st.contents, b, chunk.Bytes())
      && st'.queue == if queued then st.queue + [b] else st.queue
    ensures var st := s.ops[c].stream.value;
      && st.slot in ct.queues
      && Streams(if queued then Queueing(ct, st.slot, chunk, c, st.producer.b) else ct, s')
  {
    var st, st' := s.ops[c].stream.value, s'.ops[c].stream.value;
    var ct' := if queued then Queueing(ct, st.slot, chunk, c, st.producer.b) else ct;
    var queue, queue' := ct.queues[st.slot], ct'.queues[st.slot];
    QueueStays(run, s, strict, c);
    assert Carries(queue, ct.homes, c, st);
    assert forall i :: 0 <= i < |st.queue| ==> st.queue[i] in st.queue;
    assert Carries(queue', ct'.homes, c, st');
    assert ct'.queues == ct.queues[st.slot := queue'];
    OthersStream(ct, run, s, strict, c, s', ct');
  }

  /** The oldest chunk is delivered. */
  lemma Delivered(ct: ChunkTable, run: seq<P.Action>, s: P.State, strict: bool, c: nat, s': P.State)
    requires Streams(ct, s) && P.Reached(run, s, strict) && T.OnlyStream(s, s', c)
    requires var st, st' := s.ops[c].stream.value, s'.ops[c].stream.value;
      st.queue != [] && st'.contents == st.contents && st'.queue == st.queue[1..]
    ensures var slot := s.ops[c].stream.value.slot;
      && slot in ct.queues && ct.queues[slot] != [] && Streams(Unqueueing(ct, slot), s')
  {
    var st, st' := s.ops[c].stream.value, s'.ops[c].stream.value;
    QueuedOnce(run, s, strict, c);
    assert Carries(ct.queues[st.slot], ct.homes, c, st);
    var ct' := Unqueueing(ct, st.slot);
    assert Carries(ct.queues[st.slot][1..], ct'.homes, c, st');
    OthersStream(ct, run, s, strict, c, s', ct');
  }

  // ---- all of it, folded -------------------------------------------------------------------

  /** The tables are those of protocol state s, which this run leads to. */
  ghost predicate Sound(t: Tables, s: P.State, run: seq<P.Action>, strict: bool, calls: nat) {
    forall n: nat {:trigger Ask(n)} :: Ask(n) ==>
      && Good(t, calls, s)
      && Streams(t.chunks, s)
      && P.Reached(run, s, strict)
  }

  lemma Unfold(t: Tables, s: P.State, run: seq<P.Action>, strict: bool, calls: nat)
    requires Sound(t, s, run, strict, calls)
    ensures Good(t, calls, s)
    ensures Streams(t.chunks, s) && P.Reached(run, s, strict)
  {
    assert Ask(0);
  }

  lemma InitSound()
    ensures Sound(Tables(map[], 1, map[], {}, ChunkTable(map[], map[]), 1), P.INIT, [], true, 0)
  {
    P.ReachedRun([], P.INIT, true);
  }

  /** What a method may want to know. */
  lemma TableFacts(t: Tables, s: P.State, run: seq<P.Action>, strict: bool, calls: nat, c: nat)
    requires Sound(t, s, run, strict, calls)
    ensures t.pending.Keys == s.table && t.tsfns == s.slots && 0 !in t.tsfns
    ensures c in t.pending ==> t.pending[c].Reply() == P.Empty && c in t.doneQueues
    ensures c in t.pending ==> c in s.ops && t.pending[c].hasBuffer == s.ops[c].hasBuffer
  {
    Unfold(t, s, run, strict, calls);
  }

  lemma StreamFacts(t: Tables, s: P.State, run: seq<P.Action>, strict: bool, calls: nat, c: nat)
    requires Sound(t, s, run, strict, calls) && P.HasStream(s, c)
    ensures s.loop.Idle? && t.tsfns == s.slots
    ensures s.ops[c].stream.value.slot in t.chunks.queues
    ensures Carries(t.chunks.queues[s.ops[c].stream.value.slot], t.chunks.homes, c, s.ops[c].stream.value)
    ensures |t.chunks.queues[s.ops[c].stream.value.slot]| <= P.CHUNK_QUEUE_DEPTH
  {
    Unfold(t, s, run, strict, calls);
    P.ReachedRun(run, s, strict);
    S.RunInv(run, s, strict);
    assert S.StreamInv(s.ops[c].stream.value, s.loop, c);
  }

  lemma {:induction false} StartSound(t: Tables, s: P.State, run: seq<P.Action>, strict: bool, calls: nat,
      hasBuffer: bool, streams: bool) returns (s': P.State)
    requires Sound(t, s, run, strict, calls)
    ensures Sound(Started(t, hasBuffer, streams), s', run + [P.Register(hasBuffer, streams)], strict, calls)
    ensures P.Led(s, [P.Register(hasBuffer, streams)], s')
    ensures var n := t.nextPendingId;
      && n !in s.ops && n in s'.ops && s'.ops == s.ops[n := s'.ops[n]] && s'.ops[n].task.Starting?
      && s'.ops[n].hasBuffer == hasBuffer
      && s'.ops[n].stream == if streams then Some(P.NewStream(t.nextCbId)) else None
    ensures 0 < t.nextCbId && t.nextCbId !in t.tsfns && forall x :: x in t.tsfns ==> x < t.nextCbId
  {
    Unfold(t, s, run, strict, calls);
    s' := StartGood(t, calls, s, hasBuffer, streams);
    StartStreams(t, run, s, strict, s', streams);
    P.ReachedLed(run, s, [P.Register(hasBuffer, streams)], s', strict);
  }

  lemma {:induction false} CallSound(t: Tables, s: P.State, run: seq<P.Action>, strict: bool, k: nat, c: nat,
      msg: P.Message, own: bool) returns (s': P.State)
    requires Sound(t, s, run, strict, k)
    requires own ==> c in s.ops && (s.ops[c].task.Starting? || s.ops[c].task.Over?)
    ensures Sound(t, s', run + [P.Call(k, c, msg, own)], strict && own, k + 1)
    ensures P.Led(s, [P.Call(k, c, msg, own)], s')
    ensures k !in s.completers && s'.completers == s.completers[k := P.Completer(c, msg, P.Calling, 0, 0)]
    ensures s'.ops.Keys == s.ops.Keys && s'.table == s.table
    ensures forall d :: d in s.ops ==>
      && s'.ops[d].task == (if own && d == c then P.Reported else s.ops[d].task)
      && JsOf(s'.ops[d]) == JsOf(s.ops[d])
  {
    Unfold(t, s, run, strict, k);
    s' := CallGood(t, k, s, c, msg, own);
    StillStreams(t.chunks, s, s');
    Weaken(run, s, strict, own);
    P.ReachedLed(run, s, [P.Call(k, c, msg, own)], s', strict && own);
  }

  lemma {:induction false} EndSound(t: Tables, s: P.State, run: seq<P.Action>, strict: bool, calls: nat, k: nat, c: nat,
      op: Option<OpRecord>, ok: bool) returns (s': P.State)
    requires Sound(t, s, run, strict, calls)
    requires k in s.completers && s.completers[k].stage.Calling? && s.completers[k].target == c
    requires op.Some? <==> c in t.pending
    requires op.Some? ==>
      op.value.streamCbId == t.pending[c].streamCbId && op.value.Reply() == P.ReplyTo(s.completers[k].msg)
    ensures Sound(Ended(t, c, op, ok), s', run + CallPath(k, op.Some?, ok), strict, calls)
    ensures P.Led(s, CallPath(k, op.Some?, ok), s') && Steady(s, s', k) && s'.completers[k].stage.Finished?
    ensures forall d :: d in s.ops ==> JsOf(s'.ops[d]) == JsOf(s.ops[d])
  {
    Unfold(t, s, run, strict, calls);
    s' := EndGood(t, calls, s, k, c, op, ok);
    StillStreams(t.chunks, s, s');
    P.ReachedLed(run, s, CallPath(k, op.Some?, ok), s', strict);
  }

  lemma {:induction false} CallbackSound(t: Tables, s: P.State, run: seq<P.Action>, strict: bool, calls: nat, c: nat)
      returns (s': P.State)
    requires Sound(t, s, run, strict, calls) && c in t.doneQueues && t.doneQueues[c] != []
    ensures Sound(CalledBack(t, c), s', run + CallbackPath(c), strict, calls)
    ensures P.Led(s, CallbackPath(c), s') && c in s.ops && c in s'.ops
    ensures s'.ops[c].calls == s.ops[c].calls + [t.doneQueues[c][0].Reply()]
    ensures s'.ops[c].deletes == s.ops[c].deletes + 1
  {
    Unfold(t, s, run, strict, calls);
    s' := CallbackGood(t, calls, s, c);
    StillStreams(t.chunks, s, s');
    P.ReachedLed(run, s, CallbackPath(c), s', strict);
  }

  /** The goroutine of op c enters or leaves the port call. */
  lemma {:induction false} TaskSound(t: Tables, s: P.State, run: seq<P.Action>, strict: bool, calls: nat, c: nat,
      a: P.Action) returns (s': P.State)
    requires Sound(t, s, run, strict, calls) && (a == P.Begin(c) || a == P.End(c)) && P.Enabled(s, a)
    ensures Sound(t, s', run + [a], strict, calls) && P.Led(s, [a], s')
    ensures s' == s.(ops := s.ops[c := s.ops[c].(task := if a.Begin? then P.Busy else P.Over)])
  {
    Unfold(t, s, run, strict, calls);
    s' := P.Next(s, a);
    OnlyLed(s, a, s');
    TaskGood(t, calls, s, c, s');
    StillStreams(t.chunks, s, s');
    P.ReachedLed(run, s, [a], s', strict);
  }

  /** The goroutine of op c takes a batch or frees it. */
  lemma {:induction false} BatchSound(t: Tables, s: P.State, run: seq<P.Action>, strict: bool, calls: nat, c: nat,
      step: P.ChunkStep) returns (s': P.State)
    requires Sound(t, s, run, strict, calls) && P.Enabled(s, P.OnStream(c, step)) && (step.Alloc? || step.FreeBatch?)
    ensures Sound(t, s', run + [P.OnStream(c, step)], strict, calls) && P.Led(s, [P.OnStream(c, step)], s')
    ensures P.HasStream(s', c) && s' == s.(ops := s.ops[c := s.ops[c].(stream := s'.ops[c].stream)])
    ensures s'.ops[c].stream.value.slot == s.ops[c].stream.value.slot
    ensures s'.ops[c].stream.value.producer.Filling? <==> step.Alloc?
    ensures s'.ops[c].stream.value.producer.NoBatch? <==> step.FreeBatch?
  {
    Unfold(t, s, run, strict, calls);
    s' := P.Next(s, P.OnStream(c, step));
    OnlyLed(s, P.OnStream(c, step), s');
    StreamGood(t, calls, s, c, s');
    GrownStreams(t.chunks, run, s, strict, c, s');
    P.ReachedLed(run, s, [P.OnStream(c, step)], s', strict);
  }

  function Offered(t: Tables, st: P.Stream, c: nat, chunk: Chunk, queued: bool): Tables
    requires !st.producer.NoBatch?
  {
    if queued then t.(chunks := Queueing(t.chunks, st.slot, chunk, c, st.producer.b)) else t
  }

  /** It hands the batch over, and the chunk is queued or not. */
  lemma {:induction false} HandOffSound(t: Tables, s: P.State, run: seq<P.Action>, strict: bool, calls: nat, c: nat,
      chunk: Chunk, queued: bool) returns (s': P.State)
    requires Sound(t, s, run, strict, calls)
    requires P.HasStream(s, c) && s.ops[c].stream.value.producer.Filling?
    requires chunk.len <= |chunk.data.bytes| && chunk.data !in t.chunks.homes
    requires queued ==> |s.ops[c].stream.value.queue| < P.CHUNK_QUEUE_DEPTH && s.ops[c].stream.value.slot in t.tsfns
    ensures var slot := s.ops[c].stream.value.slot;
      && Sound(Offered(t, s.ops[c].stream.value, c, chunk, queued), s',
               run + T.HandOff(c, chunk.Bytes(), slot in t.tsfns, queued), strict, calls)
      && P.Led(s, T.HandOff(c, chunk.Bytes(), slot in t.tsfns, queued), s')
    ensures P.HasStream(s', c) && s'.ops[c].stream.value.producer.NoBatch?
    ensures s'.ops[c].stream.value.sent == s.ops[c].stream.value.sent + [chunk.Bytes()]
  {
    Unfold(t, s, run, strict, calls);
    var slot := s.ops[c].stream.value.slot;
    s' := HandOffLed(s, c, chunk.Bytes(), queued);
    StreamGood(t, calls, s, c, s');
    HandedOver(t.chunks, run, s, strict, c, s', chunk, queued);
    P.ReachedLed(run, s, T.HandOff(c, chunk.Bytes(), slot in t.tsfns, queued), s', strict);
  }

  /** The oldest chunk is delivered. */
  lemma {:induction false} DeliverySound(t: Tables, s: P.State, run: seq<P.Action>, strict: bool, calls: nat, c: nat)
      returns (s': P.State)
    requires Sound(t, s, run, strict, calls) && P.HasStream(s, c)
    requires var slot := s.ops[c].stream.value.slot; slot in t.chunks.queues && t.chunks.queues[slot] != []
    ensures var slot := s.ops[c].stream.value.slot;
      && Sound(t.(chunks := Unqueueing(t.chunks, slot)), s', run + T.Delivery(c), strict, calls)
      && P.HasStream(s', c)
      && s'.ops[c].stream.value.js == s.ops[c].stream.value.js + [t.chunks.queues[slot][0].Bytes()]
      && t.chunks.queues[slot][0].len <= |t.chunks.queues[slot][0].data.bytes|
      && t.chunks.queues[slot][0].data in t.chunks.homes
      && s'.ops[c].stream.value.slot == slot && s'.ops[c].stream.value.sent == s.ops[c].stream.value.sent
      && s'.ops[c].stream.value.producer == s.ops[c].stream.value.producer
    ensures P.Led(s, T.Delivery(c), s')
  {
    Unfold(t, s, run, strict, calls);
    assert Carries(t.chunks.queues[s.ops[c].stream.value.slot], t.chunks.homes, c, s.ops[c].stream.value);
    s' := DeliveryLed(s, c);
    StreamGood(t, calls, s, c, s');
    Delivered(t.chunks, run, s, strict, c, s');
    P.ReachedLed(run, s, T.Delivery(c), s', strict);
  }

  /** All the sink calls of a goroutine, when the loop thread delivers every
      chunk at once. */
  lemma {:induction false} PathSound(t: Tables, s: P.State, run: seq<P.Action>, strict: bool, calls: nat, c: nat,
      trace: seq<SinkCalls.SinkCall>) returns (s': P.State)
    requires Sound(t, s, run, strict, calls) && T.Drained(s, c) && s.ops[c].stream.value.producer.NoBatch?
    requires SinkCalls.ClaimAfter(trace).NoClaim?
    ensures Sound(t, s', run + T.PathSteps(c, trace), strict, calls) && P.Led(s, T.PathSteps(c, trace), s')
    ensures T.Drained(s', c) && T.Brought(s, s', c, SinkCalls.Gifts(trace))
    ensures s'.ops[c].stream.value.producer.NoBatch?
  {
    Unfold(t, s, run, strict, calls);
    s' := T.EveryPathRuns(s, c, trace);
    P.LedLeads(s, T.PathSteps(c, trace), s');
    T.PathIsQuiet(c, trace);
    StreamGood(t, calls, s, c, s');
    DrainedStreams(t.chunks, s, c, s');
    P.ReachedLed(run, s, T.PathSteps(c, trace), s', strict);
  }
}
