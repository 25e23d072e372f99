/** What the protocol guarantees, for every run of it.

    A run that is not strict may contain completion calls from anywhere, for
    any id, any number of times. A strict run contains only the calls the Go
    side makes. */
module ProtocolResults {
  import opened Basics
  import opened Protocol
  import opened ProtocolSafety

  // ---- under any completion calls ---------------------------------------------------

  /** However often an operation is reported, its callback is enqueued and run
      at most once, its PendingOp is deleted at most once, its function and its
      stream slot are released at most once, and the callback is given what
      exactly one of the completion calls carried. */
  lemma SettledAtMostOnce(run: seq<Action>, s: State, c: nat)
    requires IsRun(run, s, false) && c in s.ops
    ensures var op := s.ops[c];
      && op.enqueues <= 1 && op.deletes <= 1 && op.fnReleases <= 1 && |op.calls| <= op.enqueues
      && (op.stream.Some? ==> op.stream.value.releases <= 1)
      && (op.calls != [] ==>
            op.taker.Some? && op.taker.value in s.completers
            && s.completers[op.taker.value].target == c
            && |op.calls| == 1 && Answers(op.calls[0], s.completers[op.taker.value].msg))
  {
    RunInv(run, s, false);
    assert OpInv(s, c);
    if HasStream(s, c) {
      assert SlotInv(s, c);
    }
  }

  /** The op a step reads or writes through its pointer. */
  function Touches(s: State, a: Action): Option<nat> {
    match a
    case OnComplete(k, work) =>
      if k in s.completers && (work.Fill? || work.Enqueue? || work.CleanUp?) then Some(s.completers[k].target) else None
    case OnSettle(c, _) => Some(c)
    case _ => None
  }

  /** No step touches a deleted op, and a completion call does not touch its op
      once it is in the loop's hands. */
  lemma NoUseAfterDelete(run: seq<Action>, s: State, a: Action, c: nat)
    requires IsRun(run, s, false) && Enabled(s, a) && Touches(s, a) == Some(c)
    ensures c in s.ops && s.ops[c].deletes == 0
    ensures a.OnComplete? ==> s.ops[c].enqueues == 0 && s.ops[c].queued == 0 && !OnDoneOf(s, c)
  {
    RunInv(run, s, false);
    assert OpInv(s, c);
    if a.OnComplete? {
      assert CompleterInv(s, a.k);
    }
  }

  /** A completion call frees each of its strings once: not twice, and not
      never. */
  lemma StringsFreedOnce(run: seq<Action>, s: State, k: nat)
    requires IsRun(run, s, false) && k in s.completers
    ensures var q := s.completers[k];
      && q.errFrees <= ErrStrings(q.msg) && q.jsonFrees <= JsonStrings(q.msg)
      && (q.stage.Finished? ==> q.errFrees == ErrStrings(q.msg) && q.jsonFrees == JsonStrings(q.msg))
  {
    RunInv(run, s, false);
    assert CompleterInv(s, k);
  }

  /** No batch is freed twice, a batch that is being filled, queued or copied
      has not been freed, and chunks leave the queue in the order in which they
      entered it. */
  lemma {:induction false} BatchesFreedOnce(run: seq<Action>, s: State, c: nat)
    requires IsRun(run, s, false) && HasStream(s, c)
    ensures var st := s.ops[c].stream.value;
      && (forall b :: 0 <= b < |st.frees| ==> st.frees[b] <= 1)
      && (forall b :: b in st.queue || b in WithProducer(st.producer) || b in InHand(s.loop, c) ==>
            b < |st.frees| && st.frees[b] == 0)
      && st.pushed == st.delivered + Current(s.loop, c) + st.queue
  {
    RunInv(run, s, false);
    var st := s.ops[c].stream.value;
    assert StreamInv(st, s.loop, c);
    assert forall b :: b in Live(st, s.loop, c) <==>
      b in st.queue || b in WithProducer(st.producer) || b in InHand(s.loop, c);
  }

  /** Back-pressure: a stream never holds more than 66 native batches: a full
      queue, one being filled or waiting to be queued, one in the callback. */
  lemma MemoryBound(run: seq<Action>, s: State, c: nat)
    requires IsRun(run, s, false) && HasStream(s, c)
    ensures var frees := s.ops[c].stream.value.frees;
      |set b: nat | b < |frees| && frees[b] == 0| <= 66
  {
    RunInv(run, s, false);
    var st := s.ops[c].stream.value;
    assert StreamInv(st, s.loop, c);
    ElementsAtMost(Live(st, s.loop, c), set b: nat | b < |st.frees| && st.frees[b] == 0);
  }

  /** An op is registered, with its buffer reference and undeleted, exactly as
      long as no completion call has taken it; so it takes a call for that very
      op to end the life of the reference. */
  lemma RegisteredIff(run: seq<Action>, s: State, c: nat)
    requires IsRun(run, s, false) && c in s.ops
    ensures (c in s.table && s.ops[c].deletes == 0) <==> s.ops[c].taker.None?
    ensures (forall k :: k in s.completers ==> s.completers[k].target != c) ==> s.ops[c].taker.None?
  {
    RunInv(run, s, false);
    assert OpInv(s, c);
  }

  // ---- under the Go side's rule ------------------------------------------------------

  /** As long as a goroutine may be inside the port call, its PendingOp, and
      with it the reference that keeps the caller's buffer, is registered and
      not deleted. */
  lemma BufferOutlivesGoroutine(run: seq<Action>, s: State, c: nat)
    requires IsRun(run, s, true) && c in s.ops && s.ops[c].task.Busy?
    ensures c in s.table && s.ops[c].deletes == 0
  {
    RunInv(run, s, true);
    UnreportedIsRegistered(s, c);
  }

  /** As long as a BufferedRead goroutine is inside its loop, its slot is in
      the table, so no chunk finds its consumer gone; and if BlockingCall
      rejects none either, every emitted chunk is on its way to JS in order. */
  lemma SlotOutlivesLoop(run: seq<Action>, s: State, c: nat)
    requires IsRun(run, s, true) && HasStream(s, c)
    ensures s.ops[c].task.Busy? ==> s.ops[c].stream.value.slot in s.slots
    ensures s.ops[c].stream.value.missed == 0
    ensures s.ops[c].stream.value.refused == 0 ==>
      var st := s.ops[c].stream.value;
      st.emitted == st.delivered + (Current(s.loop, c) + st.queue + InFlight(st.producer))
  {
    RunInv(run, s, true);
    assert SlotInv(s, c) && StreamInv(s.ops[c].stream.value, s.loop, c);
    if s.ops[c].task.Busy? {
      UnreportedIsRegistered(s, c);
    }
    NoneStrayed(s.ops[c].stream.value, s.loop, c);
  }

  lemma NoneStrayed(st: Stream, loop: Loop, c: nat)
    requires StreamInv(st, loop, c)
    ensures st.missed == 0 && st.refused == 0 ==>
      st.emitted == st.delivered + (Current(loop, c) + st.queue + InFlight(st.producer))
  {
    Regroup4(st.delivered, Current(loop, c), st.queue, InFlight(st.producer));
  }

  /** What JS is given is what was handed over, in order and from the first
      chunk on: unless the queue refused a chunk, the chunks sent are those JS has
      been given, the one in the callback, those in the queue and the one on its
      way there. When none is on its way, JS has been given all of them. */
  lemma {:induction false} ChunksArriveInOrder(run: seq<Action>, s: State, c: nat)
    requires IsRun(run, s, true) && HasStream(s, c) && s.ops[c].stream.value.refused == 0
    ensures var st := s.ops[c].stream.value;
      && st.js <= st.sent
      && st.sent == st.js + Contents(st.contents, Current(s.loop, c) + st.queue + InFlight(st.producer))
      && (Current(s.loop, c) + st.queue + InFlight(st.producer) == [] ==> st.js == st.sent)
  {
    SlotOutlivesLoop(run, s, c);
    RunInv(run, s, true);
    var st := s.ops[c].stream.value;
    assert ContentInv(st);
    Arrived(st, Current(s.loop, c) + st.queue + InFlight(st.producer));
  }

  lemma Arrived(st: Stream, underWay: seq<nat>)
    requires ContentInv(st) && st.emitted == st.delivered + underWay
    ensures st.sent == st.js + Contents(st.contents, underWay)
  {
  }

  /** The completion call an operation is settled by is its goroutine's own,
      and there is no other. */
  lemma OwnReply(run: seq<Action>, s: State, c: nat, k: nat)
    requires IsRun(run, s, true) && c in s.ops && k in s.completers && s.completers[k].target == c
    ensures s.ops[c].task.Reported?
    ensures s.ops[c].calls != [] ==> |s.ops[c].calls| == 1 && Answers(s.ops[c].calls[0], s.completers[k].msg)
    ensures forall j :: j in s.completers && s.completers[j].target == c ==> j == k
  {
    RunInv(run, s, true);
    assert OpInv(s, c);
  }

  /** Nothing is under way: the loop is idle with empty queues and every call
      has come to its end. */
  ghost predicate Quiet(s: State) {
    && s.loop.Idle?
    && (forall k :: k in s.completers ==> s.completers[k].stage.Finished?)
    && (forall c :: c in s.ops ==>
          && s.ops[c].task.Reported? && s.ops[c].queued == 0
          && (HasStream(s, c) ==> s.ops[c].stream.value.queue == []))
  }

  /** When everything has come to rest, every operation has been disposed of
      exactly once: op, function, slot, and every batch it ever allocated. Its
      callback has run once, unless its function refused the call. */
  lemma NothingLeftBehind(run: seq<Action>, s: State, c: nat)
    requires IsRun(run, s, true) && Quiet(s) && c in s.ops
    ensures s.ops[c].deletes == 1 && s.ops[c].fnReleases == 1 && c !in s.table
    ensures |s.ops[c].calls| == s.ops[c].enqueues
    ensures HasStream(s, c) ==>
      && s.ops[c].stream.value.releases == 1
      && forall b :: 0 <= b < |s.ops[c].stream.value.frees| ==> s.ops[c].stream.value.frees[b] == 1
  {
    RunInv(run, s, true);
    assert OpInv(s, c);
    var k :| k in s.completers && s.completers[k].target == c;
    if HasStream(s, c) {
      assert SlotInv(s, c) && StreamInv(s.ops[c].stream.value, s.loop, c);
      AllFreed(s.ops[c].stream.value, s.loop, c);
    }
  }

  lemma AllFreed(st: Stream, loop: Loop, c: nat)
    requires StreamInv(st, loop, c) && loop.Idle? && st.queue == [] && st.producer.NoBatch?
    ensures forall b :: 0 <= b < |st.frees| ==> st.frees[b] == 1
  {
    assert Live(st, loop, c) == [];
  }

  lemma {:induction false} Fresh(used: set<nat>) returns (k: nat)
    ensures k !in used
    ensures forall x :: x in used ==> x < k
    decreases |used|
  {
    if used == {} {
      return 0;
    }
    var x :| x in used;
    var j := Fresh(used - {x});
    k := if j <= x then x + 1 else j;
    forall y | y in used
      ensures y < k
    {
      assert y == x || y in used - {x};
    }
  }

  /** The rule is needed: one spurious completion, such as no caller here makes,
      and the op of a goroutine that is still inside the port call is gone. */
  lemma SpuriousCallBreaksBufferLifetime() returns (run: seq<Action>, s: State)
    ensures IsRun(run, s, false) && 1 in s.ops && s.ops[1].hasBuffer && s.ops[1].task.Busy? && s.ops[1].deletes == 1
  {
    run, s := [], INIT;
    run, s := ShowStep(run, s, Register(true, false));
    run, s := ShowStep(run, s, Begin(1));
    run, s := ShowStep(run, s, Call(0, 1, Num(0), false));
    run, s := ShowStep(run, s, OnComplete(0, Take));
    run, s := ShowStep(run, s, OnComplete(0, Fill));
    run, s := ShowStep(run, s, OnComplete(0, Enqueue(false)));
    run, s := ShowStep(run, s, OnComplete(0, CleanUp));
  }

  lemma {:induction false} ShowStep(run: seq<Action>, s: State, a: Action) returns (longer: seq<Action>, s': State)
    requires IsRun(run, s, false) && Enabled(s, a)
    ensures s' == Next(s, a) && IsRun(longer, s', false)
  {
    OneMore(run, s, a, false);
    longer, s' := run + [a], Next(s, a);
  }
}
