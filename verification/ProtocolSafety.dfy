/** What holds in every state the protocol can reach. */
module ProtocolSafety {
  import opened Basics
  import opened Protocol

  // ---- the invariant ----------------------------------------------------------

  /** The PendingOp has one owner at a time, and everything counted about it
      follows from where it is. */
  ghost predicate OpInv(s: State, c: nat)
    requires c in s.ops
  {
    var op := s.ops[c];
    && 0 < c < s.nextOp
    && (c in s.table <==> op.place.InTable?)
    && op.queued == (if op.place.InQueue? then 1 else 0)
    && op.enqueues == (if op.place.InQueue? || op.place.InCallback? || op.place == Gone(true) then 1 else 0)
    && op.calls == (if op.place.InCallback? || op.place == Gone(true) then [op.reply] else [])
    && op.deletes == (if op.place.Gone? then 1 else 0)
    && (op.place.InCallback? <==> s.loop == OnDone(c, true) || s.loop == OnDone(c, false))
    && (op.place.InCallback? ==> s.loop == OnDone(c, op.place.slotReleased))
    && (op.taker.None? <==> op.place.InTable?)
    && (op.taker.None? ==> op.fnReleases == 0)
    && (op.taker.Some? ==> TakerInv(s, c, op.taker.value))
  }

  ghost predicate TakerInv(s: State, c: nat, k: nat)
    requires c in s.ops
  {
    var op := s.ops[c];
    && k in s.completers
    && var q := s.completers[k];
    && q.target == c
    && !q.stage.Calling? && !q.stage.Unknown?
    && op.fnReleases == (if q.stage.Finished? then 1 else 0)
    && (q.stage.Taken? || q.stage.Filled? || q.stage.Refused? <==> op.place.With?)
    && (op.place.With? ==> op.place.completer == k)
    && (!q.stage.Taken? ==> op.reply == ReplyTo(q.msg))
  }

  function ErrStrings(m: Message): nat {
    if m.Strings? && m.err.Some? then 1 else 0
  }

  function JsonStrings(m: Message): nat {
    if m.Strings? && m.json.Some? then 1 else 0
  }

  ghost predicate CompleterInv(s: State, k: nat)
    requires k in s.completers
  {
    var q := s.completers[k];
    var early := q.stage.Calling? || q.stage.Unknown? || q.stage.Taken?;
    && (q.stage.Taken? || q.stage.Filled? || q.stage.Refused? || q.stage.Releasing? ==>
          q.target in s.ops && s.ops[q.target].taker == Some(k))
    && q.errFrees == (if early then 0 else ErrStrings(q.msg))
    && q.jsonFrees == (if early then 0 else JsonStrings(q.msg))
  }

  /** The op is through with its stream slot. */
  predicate Through(place: Place) {
    place.Gone? || place == InCallback(true)
  }

  /** The slot is released exactly when its op is through with it. */
  ghost predicate SlotInv(s: State, c: nat)
    requires HasStream(s, c)
  {
    var op, st := s.ops[c], s.ops[c].stream.value;
    && 0 < st.slot < s.nextSlot
    && (st.slot in s.slots <==> !Through(op.place))
    && st.releases == (if st.slot in s.slots then 0 else 1)
  }

  /** The chunk in a chunk callback of stream c. */
  function Current(loop: Loop, c: nat): seq<nat> {
    if loop.OnChunk? && loop.c == c then [loop.b] else []
  }

  /** The same, as long as its batch has not been freed. */
  function InHand(loop: Loop, c: nat): seq<nat> {
    if loop.OnChunk? && loop.c == c && !loop.freed then [loop.b] else []
  }

  function WithProducer(p: Producer): seq<nat> {
    if p.NoBatch? then [] else [p.b]
  }

  /** Handed to fsp_emit_chunk, and not in the queue yet. */
  function InFlight(p: Producer): seq<nat> {
    if p.Emitting? || p.Blocked? then [p.b] else []
  }

  /** All batches of a stream that are still allocated, the oldest first. */
  function Live(st: Stream, loop: Loop, c: nat): seq<nat> {
    InHand(loop, c) + st.queue + WithProducer(st.producer)
  }

  /** Batches not in `live` have been freed once, the others not at all. */
  ghost predicate Accounted(frees: seq<nat>, live: seq<nat>) {
    && NoDup(live)
    && (forall b :: b in live ==> b < |frees|)
    && (forall b :: 0 <= b < |frees| ==> frees[b] == if b in live then 0 else 1)
  }

  ghost predicate StreamInv(st: Stream, loop: Loop, c: nat) {
    && Accounted(st.frees, Live(st, loop, c))
    && |st.queue| <= CHUNK_QUEUE_DEPTH
    && st.pushed == st.delivered + Current(loop, c) + st.queue
    && (st.missed == 0 && st.refused == 0 ==> st.emitted == st.pushed + InFlight(st.producer))
  }

  /** What these batches hold. */
  function Contents(contents: seq<Bytes>, ids: seq<nat>): seq<Bytes> {
    seq(|ids|, i requires 0 <= i < |ids| => ContentOf(contents, ids[i]))
  }

  /** A batch keeps what it was handed over with: the chunks sent, and those JS
      has been given, are the contents of the batches that went that way. */
  ghost predicate ContentInv(st: Stream) {
    && |st.contents| == |st.frees|
    && (st.producer.Filling? ==> st.producer.b + 1 == |st.frees|)
    && (forall e :: e in st.emitted ==> e < if st.producer.Filling? then st.producer.b else |st.frees|)
    && (forall b :: b in InFlight(st.producer) || b in st.pushed ==> b in st.emitted)
    && st.sent == Contents(st.contents, st.emitted) && st.js == Contents(st.contents, st.delivered)
  }

  ghost predicate OpsInv(s: State) {
    && (forall c :: c in s.ops ==> OpInv(s, c))
    && (forall c :: c in s.table ==> c in s.ops)
    && (s.loop.OnDone? ==> s.loop.c in s.ops)
    && (s.loop.OnChunk? ==> HasStream(s, s.loop.c))
  }

  ghost predicate CompletersInv(s: State) {
    forall k :: k in s.completers ==> CompleterInv(s, k)
  }

  ghost predicate SlotsInv(s: State) {
    && (forall c :: HasStream(s, c) ==> SlotInv(s, c))
    && (forall c, d :: HasStream(s, c) && HasStream(s, d) && c != d ==>
          s.ops[c].stream.value.slot != s.ops[d].stream.value.slot)
    && (forall x :: x in s.slots ==> x < s.nextSlot)
    && 0 < s.nextSlot
  }

  ghost predicate StreamsInv(s: State) {
    forall c :: HasStream(s, c) ==>
      StreamInv(s.ops[c].stream.value, s.loop, c) && ContentInv(s.ops[c].stream.value)
  }

  /** What the Go side's rule adds. */
  ghost predicate RuleInv(s: State) {
    && (forall k :: k in s.completers ==>
          && s.completers[k].target in s.ops
          && s.ops[s.completers[k].target].task.Reported?
          && (!s.completers[k].stage.Calling? ==> s.ops[s.completers[k].target].taker == Some(k)))
    && (forall j, k :: j in s.completers && k in s.completers && s.completers[j].target == s.completers[k].target
          ==> j == k)
    && (forall c :: c in s.ops && s.ops[c].task.Reported? ==>
          exists k :: k in s.completers && s.completers[k].target == c)
    && (forall c :: HasStream(s, c) ==>
          && (!s.ops[c].task.Busy? ==> s.ops[c].stream.value.producer.NoBatch?)
          && s.ops[c].stream.value.missed == 0)
  }

  ghost predicate Inv(s: State, strict: bool) {
    && OpsInv(s)
    && CompletersInv(s)
    && SlotsInv(s)
    && StreamsInv(s)
    && s.nextOp > 0
    && (strict ==> RuleInv(s))
  }

  // ---- every step keeps it ----------------------------------------------------

  /** The part of an op the chunk stream and the goroutine do not touch. */
  function Core(op: PendingOp): PendingOp {
    op.(stream := None, task := Starting)
  }

  predicate OnDoneOf(s: State, c: nat) {
    s.loop == OnDone(c, true) || s.loop == OnDone(c, false)
  }

  /** s' differs from s only in op c and completer k. */
  ghost predicate Moved(s: State, s': State, c: nat, k: nat) {
    && s'.nextOp == s.nextOp && s'.ops.Keys == s.ops.Keys && s'.completers.Keys == s.completers.Keys
    && (forall d :: d in s.ops && d != c ==> Core(s'.ops[d]) == Core(s.ops[d]))
    && (forall j :: j in s.completers && j != k ==> s'.completers[j] == s.completers[j])
    && (forall d :: d != c ==> (d in s'.table <==> d in s.table))
    && (forall d, r :: d != c ==> (s'.loop == OnDone(d, r) <==> s.loop == OnDone(d, r)))
  }

  /** What others see of a move of completer k with op c. */
  lemma MoveKeeps(s: State, s': State, c: nat, k: nat)
    requires OpsInv(s) && CompletersInv(s) && Moved(s, s', c, k)
    requires c in s.ops ==> OpInv(s', c)
    requires k in s.completers ==>
      && s.completers[k].target == c == s'.completers[k].target
      && CompleterInv(s', k)
    requires c in s.ops ==> s'.ops[c].taker == s.ops[c].taker || s.ops[c].taker.None?
    ensures forall d :: d in s'.ops ==> OpInv(s', d)
    ensures CompletersInv(s')
  {
    forall d | d in s'.ops && d != c
      ensures OpInv(s', d)
    {
      assert OpInv(s, d);
      assert Core(s'.ops[d]) == Core(s.ops[d]);
    }
    forall j | j in s'.completers && j != k
      ensures CompleterInv(s', j)
    {
      assert CompleterInv(s, j);
      var d := s.completers[j].target;
      if d != c && d in s.ops {
        assert Core(s'.ops[d]) == Core(s.ops[d]);
      }
    }
  }

  lemma {:induction false} OnStreamKeepsOps(s: State, c: nat, step: ChunkStep)
    requires OpsInv(s) && CompletersInv(s) && Enabled(s, OnStream(c, step))
    ensures OpsInv(Next(s, OnStream(c, step))) && CompletersInv(Next(s, OnStream(c, step)))
  {
    var s' := Next(s, OnStream(c, step));
    OnStreamFrame(s, c, step);
    forall d | d in s'.ops
      ensures OpInv(s', d)
    {
      assert OpInv(s, d) && Core(s'.ops[d]) == Core(s.ops[d]);
    }
    forall k | k in s'.completers
      ensures CompleterInv(s', k)
    {
      assert CompleterInv(s, k);
      var d := s.completers[k].target;
      assert d in s.ops ==> Core(s'.ops[d]) == Core(s.ops[d]);
    }
  }

  lemma OnStreamFrame(s: State, c: nat, step: ChunkStep)
    requires Enabled(s, OnStream(c, step))
    ensures var s' := Next(s, OnStream(c, step));
      && s'.table == s.table && s'.completers == s.completers && s'.slots == s.slots
      && s'.nextOp == s.nextOp && s'.nextSlot == s.nextSlot && s'.ops.Keys == s.ops.Keys
      && (forall d :: d in s.ops ==> Core(s'.ops[d]) == Core(s.ops[d]))
      && (forall d, r :: s'.loop == OnDone(d, r) <==> s.loop == OnDone(d, r))
      && (s'.loop.OnChunk? ==> s'.loop.c == c || s'.loop == s.loop)
      && HasStream(s', c)
  {
  }

  lemma TakeKeeps(s: State, k: nat)
    requires OpsInv(s) && CompletersInv(s) && CompleteEnabled(s, k, Take)
    ensures OpsInv(CompleteNext(s, k, Take)) && CompletersInv(CompleteNext(s, k, Take))
  {
    var s', c := CompleteNext(s, k, Take), s.completers[k].target;
    assert CompleterInv(s, k);
    if c in s.ops {
      assert OpInv(s, c);
    }
    MoveKeeps(s, s', c, k);
  }

  lemma FreeUnknownKeeps(s: State, k: nat)
    requires OpsInv(s) && CompletersInv(s) && CompleteEnabled(s, k, FreeUnknown)
    ensures OpsInv(CompleteNext(s, k, FreeUnknown)) && CompletersInv(CompleteNext(s, k, FreeUnknown))
  {
    var s', c := CompleteNext(s, k, FreeUnknown), s.completers[k].target;
    assert CompleterInv(s, k);
    if c in s.ops {
      assert OpInv(s, c);
    }
    MoveKeeps(s, s', c, k);
  }

  lemma FillKeeps(s: State, k: nat)
    requires OpsInv(s) && CompletersInv(s) && CompleteEnabled(s, k, Fill)
    ensures OpsInv(CompleteNext(s, k, Fill)) && CompletersInv(CompleteNext(s, k, Fill))
  {
    var s', c := CompleteNext(s, k, Fill), s.completers[k].target;
    assert CompleterInv(s, k) && OpInv(s, c);
    MoveKeeps(s, s', c, k);
  }

  lemma {:induction false} EnqueueKeeps(s: State, k: nat, ok: bool)
    requires OpsInv(s) && CompletersInv(s) && CompleteEnabled(s, k, Enqueue(ok))
    ensures OpsInv(CompleteNext(s, k, Enqueue(ok))) && CompletersInv(CompleteNext(s, k, Enqueue(ok)))
  {
    var s', c := CompleteNext(s, k, Enqueue(ok)), s.completers[k].target;
    assert CompleterInv(s, k) && OpInv(s, c);
    MoveKeeps(s, s', c, k);
  }

  lemma {:induction false} CleanUpKeeps(s: State, k: nat)
    requires OpsInv(s) && CompletersInv(s) && CompleteEnabled(s, k, CleanUp)
    ensures OpsInv(CompleteNext(s, k, CleanUp)) && CompletersInv(CompleteNext(s, k, CleanUp))
  {
    var c := s.completers[k].target;
    assert CompleterInv(s, k) && OpInv(s, c);
    var s' := CleanUpMoves(s, k, c);
    assert OpInv(s', c);
    assert CompleterInv(s', k);
    MoveKeeps(s, s', c, k);
  }

  lemma CleanUpMoves(s: State, k: nat, c: nat) returns (s': State)
    requires CompleteEnabled(s, k, CleanUp) && c == s.completers[k].target
    ensures s' == CompleteNext(s, k, CleanUp)
    ensures s'.nextOp == s.nextOp && s'.table == s.table && s'.loop == s.loop && s'.ops.Keys == s.ops.Keys
    ensures Core(s'.ops[c]) == Core(s.ops[c].(deletes := s.ops[c].deletes + 1, place := Gone(false)))
    ensures forall d :: d in s.ops && d != c ==> s'.ops[d] == s.ops[d]
    ensures s'.completers == s.completers[k := s.completers[k].(stage := Releasing)]
  {
    s' := CompleteNext(s, k, CleanUp);
  }

  lemma ReleaseFnKeeps(s: State, k: nat)
    requires OpsInv(s) && CompletersInv(s) && CompleteEnabled(s, k, ReleaseFn)
    ensures OpsInv(CompleteNext(s, k, ReleaseFn)) && CompletersInv(CompleteNext(s, k, ReleaseFn))
  {
    var s', c := CompleteNext(s, k, ReleaseFn), s.completers[k].target;
    assert CompleterInv(s, k) && OpInv(s, c);
    MoveKeeps(s, s', c, k);
  }

  /** The op after a part of its callback, apart from its stream. */
  function Settled(op: PendingOp, part: SettleStep): PendingOp {
    match part
    case RunDone =>
      op.(queued := if op.queued > 0 then op.queued - 1 else 0, calls := op.calls + [op.reply],
          place := InCallback(false))
    case ReleaseSlot => op.(place := InCallback(true))
    case Delete => op.(deletes := op.deletes + 1, place := Gone(true))
  }

  lemma SettleMoves(s: State, c: nat, part: SettleStep) returns (s': State)
    requires SettleEnabled(s, c, part)
    ensures s' == SettleNext(s, c, part)
    ensures s'.nextOp == s.nextOp && s'.table == s.table && s'.completers == s.completers && s'.ops.Keys == s.ops.Keys
    ensures Core(s'.ops[c]) == Core(Settled(s.ops[c], part))
    ensures forall d :: d in s.ops && d != c ==> s'.ops[d] == s.ops[d]
    ensures s'.loop == if part.RunDone? then OnDone(c, false) else if part.ReleaseSlot? then OnDone(c, true) else Idle
  {
    s' := SettleNext(s, c, part);
  }

  lemma {:induction false} OnSettleKeeps(s: State, c: nat, part: SettleStep)
    requires OpsInv(s) && CompletersInv(s) && SettleEnabled(s, c, part)
    ensures OpsInv(SettleNext(s, c, part)) && CompletersInv(SettleNext(s, c, part))
  {
    var s' := SettleMoves(s, c, part);
    assert OpInv(s, c);
    assert OpInv(s', c);
    if s.ops[c].taker.Some? {
      var k := s.ops[c].taker.value;
      assert CompleterInv(s, k);
      MoveKeeps(s, s', c, k);
    }
  }

  lemma TaskKeeps(s: State, a: Action)
    requires OpsInv(s) && CompletersInv(s) && Enabled(s, a) && (a.Begin? || a.End?)
    ensures OpsInv(Next(s, a)) && CompletersInv(Next(s, a))
  {
    var s' := Next(s, a);
    forall d | d in s'.ops
      ensures OpInv(s', d)
    {
      assert OpInv(s, d) && Core(s'.ops[d]) == Core(s.ops[d]);
    }
    forall k | k in s'.completers
      ensures CompleterInv(s', k)
    {
      assert CompleterInv(s, k);
      var d := s.completers[k].target;
      assert d in s.ops ==> Core(s'.ops[d]) == Core(s.ops[d]);
    }
  }

  lemma CallKeeps(s: State, a: Action)
    requires OpsInv(s) && CompletersInv(s) && Enabled(s, a) && a.Call?
    ensures OpsInv(Next(s, a)) && CompletersInv(Next(s, a))
  {
    var s' := Next(s, a);
    forall d | d in s'.ops
      ensures OpInv(s', d)
    {
      assert OpInv(s, d) && Core(s'.ops[d]) == Core(s.ops[d]);
    }
    forall k | k in s'.completers
      ensures CompleterInv(s', k)
    {
      if k != a.k {
        assert CompleterInv(s, k);
        var d := s.completers[k].target;
        assert d in s.ops ==> Core(s'.ops[d]) == Core(s.ops[d]);
      }
    }
  }

  lemma RegisterKeeps(s: State, hasBuffer: bool, streams: bool)
    requires OpsInv(s) && CompletersInv(s) && s.nextOp > 0
    ensures OpsInv(Registered(s, hasBuffer, streams)) && CompletersInv(Registered(s, hasBuffer, streams))
  {
    var s' := Registered(s, hasBuffer, streams);
    assert s.nextOp in s.ops ==> OpInv(s, s.nextOp);
    forall d | d in s'.ops
      ensures OpInv(s', d)
    {
      assert d in s.ops ==> OpInv(s, d);
    }
    forall k | k in s'.completers
      ensures CompleterInv(s', k)
    {
      assert CompleterInv(s, k);
    }
  }

  lemma {:induction false} OpsStep(s: State, a: Action)
    requires OpsInv(s) && CompletersInv(s) && s.nextOp > 0 && Enabled(s, a)
    ensures OpsInv(Next(s, a)) && CompletersInv(Next(s, a)) && Next(s, a).nextOp > 0
  {
    match a
    case Register(hasBuffer, streams) => RegisterKeeps(s, hasBuffer, streams);
    case OnStream(c, step) => OnStreamKeepsOps(s, c, step); OnStreamFrame(s, c, step);
    case OnComplete(k, work) =>
      match work {
        case Take => TakeKeeps(s, k);
        case FreeUnknown => FreeUnknownKeeps(s, k);
        case Fill => FillKeeps(s, k);
        case Enqueue(ok) => EnqueueKeeps(s, k, ok);
        case CleanUp => CleanUpKeeps(s, k);
        case ReleaseFn => ReleaseFnKeeps(s, k);
      }
    case OnSettle(c, part) => OnSettleKeeps(s, c, part);
    case Call(_, _, _, _) => CallKeeps(s, a);
    case _ => TaskKeeps(s, a);
  }

  // ---- slots --------------------------------------------------------------------

  /** The slot of op d, with what SlotInv says about it, is as before. */
  predicate SlotSame(s: State, s': State, d: nat) {
    && (HasStream(s', d) <==> HasStream(s, d))
    && (HasStream(s, d) ==>
          && s'.ops[d].stream.value.slot == s.ops[d].stream.value.slot
          && s'.ops[d].stream.value.releases == s.ops[d].stream.value.releases
          && Through(s'.ops[d].place) == Through(s.ops[d].place))
  }

  lemma SlotsSame(s: State, s': State)
    requires SlotsInv(s) && s'.slots == s.slots && s'.nextSlot == s.nextSlot
    requires forall d :: SlotSame(s, s', d)
    ensures SlotsInv(s')
  {
    forall d | HasStream(s', d)
      ensures SlotInv(s', d)
    {
      assert SlotSame(s, s', d) && SlotInv(s, d);
    }
    forall c, d | HasStream(s', c) && HasStream(s', d) && c != d
      ensures s'.ops[c].stream.value.slot != s'.ops[d].stream.value.slot
    {
      assert SlotSame(s, s', d) && SlotSame(s, s', c);
    }
  }

  /** Op c gets through and its slot goes. */
  lemma SlotGoes(s: State, s': State, c: nat)
    requires SlotsInv(s) && s'.nextSlot == s.nextSlot
    requires c in s.ops && c in s'.ops && !Through(s.ops[c].place) && Through(s'.ops[c].place)
    requires s'.ops[c].stream == SlotReleased(s, c).ops[c].stream && s'.slots == SlotReleased(s, c).slots
    requires forall d :: d != c ==> SlotSame(s, s', d)
    ensures SlotsInv(s')
  {
    assert HasStream(s, c) ==> SlotInv(s, c);
    forall d | HasStream(s', d)
      ensures SlotInv(s', d)
    {
      if d != c {
        assert SlotSame(s, s', d) && SlotInv(s, d);
      }
    }
    forall b, d | HasStream(s', b) && HasStream(s', d) && b != d
      ensures s'.ops[b].stream.value.slot != s'.ops[d].stream.value.slot
    {
      assert b != c ==> SlotSame(s, s', b);
      assert d != c ==> SlotSame(s, s', d);
    }
  }

  lemma CompleteSlots(s: State, k: nat, work: CompleteStep)
    requires OpsInv(s) && CompletersInv(s) && SlotsInv(s) && CompleteEnabled(s, k, work)
    ensures SlotsInv(CompleteNext(s, k, work))
  {
    var s', c := CompleteNext(s, k, work), s.completers[k].target;
    assert CompleterInv(s, k);
    assert c in s.ops ==> OpInv(s, c);
    if work.CleanUp? {
      SlotGoes(s, s', c);
    } else {
      SlotsSame(s, s');
    }
  }

  lemma SettleSlots(s: State, c: nat, part: SettleStep)
    requires OpsInv(s) && CompletersInv(s) && SlotsInv(s) && SettleEnabled(s, c, part)
    ensures SlotsInv(SettleNext(s, c, part))
  {
    var s' := SettleNext(s, c, part);
    assert OpInv(s, c);
    if part.ReleaseSlot? {
      SlotGoes(s, s', c);
    } else {
      SlotsSame(s, s');
    }
  }

  lemma RegisterSlots(s: State, hasBuffer: bool, streams: bool)
    requires OpsInv(s) && SlotsInv(s)
    ensures SlotsInv(Registered(s, hasBuffer, streams))
  {
    var s' := Registered(s, hasBuffer, streams);
    assert s.nextOp in s.ops ==> OpInv(s, s.nextOp);
    forall d | HasStream(s', d)
      ensures SlotInv(s', d)
    {
      assert d != s.nextOp ==> HasStream(s, d) && SlotInv(s, d);
    }
    forall c, d | HasStream(s', c) && HasStream(s', d) && c != d
      ensures s'.ops[c].stream.value.slot != s'.ops[d].stream.value.slot
    {
      assert c != s.nextOp ==> HasStream(s, c) && SlotInv(s, c);
      assert d != s.nextOp ==> HasStream(s, d) && SlotInv(s, d);
    }
  }

  lemma ChunkFields(st: Stream, present: bool, loop: Loop, c: nat, step: ChunkStep)
    requires ChunkEnabled(st, true, loop, c, step)
    ensures ChunkNext(st, present, loop, c, step).slot == st.slot
    ensures ChunkNext(st, present, loop, c, step).releases == st.releases
    ensures ChunkNext(st, present, loop, c, step).missed == st.missed + (if step.Lookup? && !present then 1 else 0)
  {
  }

  lemma ChunkSlots(s: State, c: nat, step: ChunkStep)
    requires SlotsInv(s) && Enabled(s, OnStream(c, step))
    ensures SlotsInv(Next(s, OnStream(c, step)))
  {
    var st := s.ops[c].stream.value;
    ChunkFields(st, st.slot in s.slots, s.loop, c, step);
    SlotsSame(s, Next(s, OnStream(c, step)));
  }

  lemma {:induction false} SlotsStep(s: State, a: Action)
    requires OpsInv(s) && CompletersInv(s) && SlotsInv(s) && s.nextOp > 0 && Enabled(s, a)
    ensures SlotsInv(Next(s, a))
  {
    match a
    case OnComplete(k, work) => CompleteSlots(s, k, work);
    case OnSettle(c, part) => SettleSlots(s, c, part);
    case Register(hasBuffer, streams) => RegisterSlots(s, hasBuffer, streams);
    case OnStream(c, step) => ChunkSlots(s, c, step);
    case _ => SlotsSame(s, Next(s, a));
  }

  // ---- streams ------------------------------------------------------------------

  lemma FreeLast(frees: seq<nat>, rest: seq<nat>, b: nat)
    requires Accounted(frees, rest + [b])
    ensures b < |frees| && Accounted(frees[b := frees[b] + 1], rest)
  {
    var live := rest + [b];
    assert b == live[|rest|] && b in live;
    forall x | x in rest
      ensures x in live && x != b
    {
      var i :| 0 <= i < |rest| && rest[i] == x;
      assert live[i] == x;
    }
    assert forall i :: 0 <= i < |rest| ==> rest[i] == live[i];
  }

  lemma FreeFirst(frees: seq<nat>, rest: seq<nat>, b: nat)
    requires Accounted(frees, [b] + rest)
    ensures b < |frees| && Accounted(frees[b := frees[b] + 1], rest)
  {
    var live := [b] + rest;
    assert b == live[0] && b in live;
    forall x | x in rest
      ensures x in live && x != b
    {
      var i :| 0 <= i < |rest| && rest[i] == x;
      assert live[i + 1] == x;
    }
    assert forall i :: 0 <= i < |rest| ==> rest[i] == live[i + 1];
  }

  lemma AllocLast(frees: seq<nat>, rest: seq<nat>)
    requires Accounted(frees, rest)
    ensures Accounted(frees + [0], rest + [|frees|])
  {
    forall i | 0 <= i < |rest|
      ensures rest[i] < |frees|
    {
      assert rest[i] in rest;
    }
    forall b | 0 <= b < |frees|
      ensures b in rest + [|frees|] <==> b in rest
    {
    }
  }

  predicate OfLoop(step: ChunkStep) {
    step.RunChunk? || step.FreeChunk? || step.EndChunk?
  }

  /** The producer's batch is the last of the live ones ... */
  lemma ProducerKeeps(st: Stream, present: bool, loop: Loop, c: nat, step: ChunkStep)
    requires StreamInv(st, loop, c) && ChunkEnabled(st, true, loop, c, step) && !OfLoop(step)
    ensures StreamInv(ChunkNext(st, present, loop, c, step), loop, c)
  {
    var st' := ChunkNext(st, present, loop, c, step);
    var older := InHand(loop, c) + st.queue;
    match step
    case Alloc =>
      assert Live(st, loop, c) == older;
      AllocLast(st.frees, older);
    case Emit(_) =>
      assert Live(st', loop, c) == Live(st, loop, c);
    case Push =>
      assert Live(st', loop, c) == Live(st, loop, c);
    case FreeBatch =>
      FreeLast(st.frees, older, st.producer.b);
      assert Live(st', loop, c) == older;
    case PushFails =>
      FreeLast(st.frees, older, st.producer.b);
      assert Live(st', loop, c) == older;
    case Lookup =>
      if !present {
        FreeLast(st.frees, older, st.producer.b);
        assert Live(st', loop, c) == older;
      }
  }

  /** ... and the one in the callback the first; handing a chunk on leaves the
      live batches as they are. */
  lemma ConsumerKeeps(st: Stream, present: bool, loop: Loop, c: nat, step: ChunkStep)
    requires StreamInv(st, loop, c) && ChunkEnabled(st, true, loop, c, step) && OfLoop(step)
    ensures StreamInv(ChunkNext(st, present, loop, c, step), ChunkLoop(st, loop, c, step), c)
  {
    var st', loop' := ChunkNext(st, present, loop, c, step), ChunkLoop(st, loop, c, step);
    match step
    case RunChunk =>
      assert st.queue == [st.queue[0]] + st.queue[1..];
      assert Live(st', loop', c) == Live(st, loop, c);
    case FreeChunk =>
      var rest := st.queue + WithProducer(st.producer);
      assert Live(st, loop, c) == [loop.b] + rest && Live(st', loop', c) == rest;
      FreeFirst(st.frees, rest, loop.b);
    case EndChunk =>
      assert Live(st', loop', c) == Live(st, loop, c);
  }

  lemma ContentsSame(contents: seq<Bytes>, contents': seq<Bytes>, ids: seq<nat>)
    requires forall b :: b in ids ==> ContentOf(contents', b) == ContentOf(contents, b)
    ensures Contents(contents', ids) == Contents(contents, ids)
  {
    assert forall i :: 0 <= i < |ids| ==> ids[i] in ids;
  }

  lemma ContentsSnoc(contents: seq<Bytes>, ids: seq<nat>, b: nat)
    ensures Contents(contents, ids + [b]) == Contents(contents, ids) + [ContentOf(contents, b)]
  {
  }

  /** Every chunk JS is given has been handed over before. */
  lemma DeliveredEmitted(st: Stream, loop: Loop, c: nat)
    requires StreamInv(st, loop, c) && ContentInv(st)
    ensures forall b :: b in st.delivered ==> b in st.emitted
    ensures forall b :: b in Current(loop, c) ==> b in st.emitted
  {
    assert forall b :: b in st.delivered ==> b in st.pushed;
    assert forall b :: b in Current(loop, c) ==> b in st.pushed;
  }

  lemma ContentKept(st: Stream, present: bool, loop: Loop, c: nat, step: ChunkStep)
    requires StreamInv(st, loop, c) && ContentInv(st) && ChunkEnabled(st, true, loop, c, step)
    ensures ContentInv(ChunkNext(st, present, loop, c, step))
  {
    DeliveredEmitted(st, loop, c);
    var st' := ChunkNext(st, present, loop, c, step);
    match step
    case Alloc =>
      ContentsSame(st.contents, st'.contents, st.emitted);
      ContentsSame(st.contents, st'.contents, st.delivered);
    case Emit(data) =>
      ContentsSame(st.contents, st'.contents, st.emitted);
      ContentsSame(st.contents, st'.contents, st.delivered);
      ContentsSnoc(st'.contents, st.emitted, st.producer.b);
    case EndChunk =>
      ContentsSnoc(st.contents, st.delivered, loop.b);
    case _ =>
  }

  /** Stream c is as before, up to its slot's release. */
  predicate StreamSame(s: State, s': State, c: nat) {
    && (HasStream(s', c) <==> HasStream(s, c))
    && (HasStream(s, c) ==>
          s'.ops[c].stream.value.(releases := 0) == s.ops[c].stream.value.(releases := 0))
    && Current(s'.loop, c) == Current(s.loop, c) && InHand(s'.loop, c) == InHand(s.loop, c)
  }

  lemma StreamsSame(s: State, s': State)
    requires StreamsInv(s)
    requires forall c :: StreamSame(s, s', c)
    ensures StreamsInv(s')
  {
    forall c | HasStream(s', c)
      ensures StreamInv(s'.ops[c].stream.value, s'.loop, c) && ContentInv(s'.ops[c].stream.value)
    {
      assert StreamSame(s, s', c) && StreamInv(s.ops[c].stream.value, s.loop, c);
      var st, st' := s.ops[c].stream.value, s'.ops[c].stream.value;
      assert st'.(releases := 0).frees == st.(releases := 0).frees;
      assert Live(st', s'.loop, c) == Live(st, s.loop, c);
    }
  }

  lemma CompleteStreams(s: State, k: nat, work: CompleteStep)
    requires StreamsInv(s) && CompleteEnabled(s, k, work)
    ensures StreamsInv(CompleteNext(s, k, work))
  {
    StreamsSame(s, CompleteNext(s, k, work));
  }

  lemma SettleStreams(s: State, c: nat, part: SettleStep)
    requires StreamsInv(s) && SettleEnabled(s, c, part)
    ensures StreamsInv(SettleNext(s, c, part))
  {
    StreamsSame(s, SettleNext(s, c, part));
  }

  lemma RegisterStreams(s: State, hasBuffer: bool, streams: bool)
    requires OpsInv(s) && StreamsInv(s)
    ensures StreamsInv(Registered(s, hasBuffer, streams))
  {
    var s' := Registered(s, hasBuffer, streams);
    assert s.nextOp in s.ops ==> OpInv(s, s.nextOp);
    forall c | HasStream(s', c)
      ensures StreamInv(s'.ops[c].stream.value, s'.loop, c) && ContentInv(s'.ops[c].stream.value)
    {
      if c != s.nextOp {
        assert HasStream(s, c) && StreamInv(s.ops[c].stream.value, s.loop, c);
      }
    }
  }

  lemma ChunkStreams(s: State, c: nat, step: ChunkStep)
    requires StreamsInv(s) && Enabled(s, OnStream(c, step))
    ensures StreamsInv(Next(s, OnStream(c, step)))
  {
    var s', st := Next(s, OnStream(c, step)), s.ops[c].stream.value;
    forall d | HasStream(s', d)
      ensures StreamInv(s'.ops[d].stream.value, s'.loop, d) && ContentInv(s'.ops[d].stream.value)
    {
      if d == c {
        ContentKept(st, st.slot in s.slots, s.loop, c, step);
        if OfLoop(step) {
          ConsumerKeeps(st, st.slot in s.slots, s.loop, c, step);
        } else {
          ProducerKeeps(st, st.slot in s.slots, s.loop, c, step);
        }
      } else {
        assert HasStream(s, d) && s'.ops[d] == s.ops[d] && StreamInv(s.ops[d].stream.value, s.loop, d);
        assert Current(s'.loop, d) == Current(s.loop, d) && InHand(s'.loop, d) == InHand(s.loop, d);
      }
    }
  }

  lemma {:induction false} StreamsStep(s: State, a: Action)
    requires OpsInv(s) && StreamsInv(s) && Enabled(s, a)
    ensures StreamsInv(Next(s, a))
  {
    match a
    case OnComplete(k, work) => CompleteStreams(s, k, work);
    case OnSettle(c, part) => SettleStreams(s, c, part);
    case Register(hasBuffer, streams) => RegisterStreams(s, hasBuffer, streams);
    case OnStream(c, step) => ChunkStreams(s, c, step);
    case _ => StreamsSame(s, Next(s, a));
  }

  // ---- the Go side's rule ---------------------------------------------------------

  /** An operation that has not reported is still registered. */
  lemma UnreportedIsRegistered(s: State, c: nat)
    requires OpsInv(s) && RuleInv(s) && c in s.ops && !s.ops[c].task.Reported?
    ensures c in s.table && s.ops[c].place.InTable? && s.ops[c].deletes == 0
  {
    assert OpInv(s, c);
  }

  /** What the rule is about is as before in op d. */
  predicate RuleSame(s: State, s': State, d: nat)
    requires d in s.ops && d in s'.ops
  {
    && s'.ops[d].task == s.ops[d].task
    && (HasStream(s', d) <==> HasStream(s, d))
    && (HasStream(s, d) ==>
          && s'.ops[d].stream.value.producer == s.ops[d].stream.value.producer
          && s'.ops[d].stream.value.missed == s.ops[d].stream.value.missed)
  }

  /** Completer k, if it moves at all, ends up as the taker of its op. */
  lemma RuleMoves(s: State, s': State, k: nat)
    requires RuleInv(s) && s'.ops.Keys == s.ops.Keys && s'.completers.Keys == s.completers.Keys
    requires forall d :: d in s.ops ==> RuleSame(s, s', d)
    requires forall j :: j in s.completers ==> s'.completers[j].target == s.completers[j].target
    requires forall j :: j in s.completers && j != k ==>
      && s'.completers[j] == s.completers[j]
      && s'.ops[s.completers[j].target].taker == s.ops[s.completers[j].target].taker
    requires k in s.completers && !s'.completers[k].stage.Calling? ==>
      s'.ops[s.completers[k].target].taker == Some(k)
    ensures RuleInv(s')
  {
    forall j | j in s'.completers
      ensures s'.completers[j].target in s'.ops && s'.ops[s'.completers[j].target].task.Reported?
      ensures !s'.completers[j].stage.Calling? ==> s'.ops[s'.completers[j].target].taker == Some(j)
    {
      assert RuleSame(s, s', s.completers[j].target);
    }
    forall d | d in s'.ops && s'.ops[d].task.Reported?
      ensures exists j :: j in s'.completers && s'.completers[j].target == d
    {
      assert RuleSame(s, s', d);
      var j :| j in s.completers && s.completers[j].target == d;
      assert s'.completers[j].target == d;
    }
    forall d | HasStream(s', d)
      ensures (!s'.ops[d].task.Busy? ==> s'.ops[d].stream.value.producer.NoBatch?)
        && s'.ops[d].stream.value.missed == 0
    {
      assert RuleSame(s, s', d);
    }
  }

  lemma CompleteFrame(s: State, k: nat, work: CompleteStep)
    requires CompleteEnabled(s, k, work)
    ensures var s', c := CompleteNext(s, k, work), s.completers[k].target;
      && s'.ops.Keys == s.ops.Keys && s'.completers.Keys == s.completers.Keys
      && (forall d :: d in s.ops && d != c ==> s'.ops[d] == s.ops[d])
      && (forall j :: j in s.completers && j != k ==> s'.completers[j] == s.completers[j])
      && s'.completers[k].target == c
      && (c in s.ops ==> RuleSame(s, s', c))
  {
  }

  lemma CompleteTaker(s: State, k: nat, work: CompleteStep)
    requires OpsInv(s) && CompletersInv(s) && RuleInv(s) && CompleteEnabled(s, k, work)
    ensures CompleteNext(s, k, work).ops[s.completers[k].target].taker == Some(k)
  {
    assert OpInv(s, s.completers[k].target);
  }

  lemma RuleForCompleter(s: State, k: nat, work: CompleteStep)
    requires OpsInv(s) && CompletersInv(s) && RuleInv(s) && CompleteEnabled(s, k, work)
    ensures RuleInv(CompleteNext(s, k, work))
  {
    var s' := CompleteNext(s, k, work);
    CompleteFrame(s, k, work);
    CompleteTaker(s, k, work);
    RuleMoves(s, s', k);
  }

  lemma SettleFrame(s: State, c: nat, part: SettleStep)
    requires SettleEnabled(s, c, part)
    ensures var s' := SettleNext(s, c, part);
      && s'.ops.Keys == s.ops.Keys && s'.completers == s.completers
      && (forall d :: d in s.ops && d != c ==> s'.ops[d] == s.ops[d])
      && RuleSame(s, s', c) && s'.ops[c].taker == s.ops[c].taker
  {
  }

  lemma RuleForSettle(s: State, c: nat, part: SettleStep)
    requires OpsInv(s) && RuleInv(s) && SettleEnabled(s, c, part)
    ensures RuleInv(SettleNext(s, c, part))
  {
    SettleFrame(s, c, part);
    assert OpInv(s, c);
    RuleMoves(s, SettleNext(s, c, part), s.ops[c].taker.value);
  }

  lemma RuleForStream(s: State, c: nat, step: ChunkStep)
    requires OpsInv(s) && SlotsInv(s) && RuleInv(s) && Enabled(s, OnStream(c, step))
    ensures RuleInv(Next(s, OnStream(c, step)))
  {
    var st := s.ops[c].stream.value;
    var st' := ChunkNext(st, st.slot in s.slots, s.loop, c, step);
    ChunkFields(st, st.slot in s.slots, s.loop, c, step);
    assert SlotInv(s, c);
    if s.ops[c].task.Busy? {
      UnreportedIsRegistered(s, c);
    }
    assert (!s.ops[c].task.Busy? ==> st'.producer.NoBatch?) && st'.missed == 0;
    RuleOnStream(s, c, st', Next(s, OnStream(c, step)));
  }

  lemma RuleOnStream(s: State, c: nat, st': Stream, s': State)
    requires RuleInv(s) && HasStream(s, c)
    requires s'.ops == s.ops[c := s.ops[c].(stream := Some(st'))] && s'.completers == s.completers
    requires (!s.ops[c].task.Busy? ==> st'.producer.NoBatch?) && st'.missed == 0
    ensures RuleInv(s')
  {
  }

  lemma RuleForTask(s: State, a: Action)
    requires OpsInv(s) && RuleInv(s) && Enabled(s, a) && (a.Begin? || a.End? || a.Register?) && s.nextOp > 0
    ensures RuleInv(Next(s, a))
  {
    assert s.nextOp in s.ops ==> OpInv(s, s.nextOp);
  }

  lemma RuleForCall(s: State, a: Action)
    requires OpsInv(s) && RuleInv(s) && Enabled(s, a) && a.Call? && a.own
    ensures RuleInv(Next(s, a))
  {
    var s' := Next(s, a);
    forall d | d in s'.ops && s'.ops[d].task.Reported?
      ensures exists j :: j in s'.completers && s'.completers[j].target == d
    {
      if d == a.target {
        assert s'.completers[a.k].target == d;
      } else {
        var j :| j in s.completers && s.completers[j].target == d;
        assert s'.completers[j].target == d;
      }
    }
  }

  lemma {:induction false} RuleStep(s: State, a: Action)
    requires Inv(s, true) && Enabled(s, a) && Disciplined(a)
    ensures RuleInv(Next(s, a))
  {
    match a
    case OnComplete(k, work) => RuleForCompleter(s, k, work);
    case OnSettle(c, part) => RuleForSettle(s, c, part);
    case OnStream(c, step) => RuleForStream(s, c, step);
    case Call(_, _, _, _) => RuleForCall(s, a);
    case _ => RuleForTask(s, a);
  }

  lemma {:induction false} RunInv(run: seq<Action>, s: State, strict: bool)
    requires IsRun(run, s, strict)
    ensures Inv(s, strict)
  {
    if run != [] {
      var a := Last(run);
      var before :| IsRun(Front(run), before, strict) && Enabled(before, a) && (strict ==> Disciplined(a))
        && s == Next(before, a);
      RunInv(Front(run), before, strict);
      OpsStep(before, a);
      SlotsStep(before, a);
      StreamsStep(before, a);
      if strict {
        RuleStep(before, a);
      }
    }
  }
}
