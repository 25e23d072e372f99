/** The callback and ownership protocol between the Go backend and the addon,
    as a state machine over any number of operations, completion calls and
    streams.

    A step is one section of code between two points where another thread may
    run: a section under g_pending_mu or g_tsfn_mu, one call on a
    ThreadSafeFunction, one callback part on the loop thread. The fields
    `place`, `taker` and the counters only record what happened; no step
    depends on them. */
module Protocol {
  import opened Basics
  import PortModel

  type Bytes = seq<PortModel.byte>

  const CHUNK_QUEUE_DEPTH: nat := 64

  /** What a completion call carries: two optional C strings, or a number. */
  datatype Message = Strings(err: Option<string>, json: Option<string>) | Num(n: int)

  /** What the JS callback is given. */
  datatype Reply = Failure(text: string) | Number(n: int) | Json(text: string) | Empty

  function ReplyTo(m: Message): Reply {
    match m
    case Num(n) => Number(n)
    case Strings(err, json) =>
      if err.Some? then Failure(err.value) else if json.Some? then Json(json.value) else Empty
  }

  /** What this message must be answered with: an error as such an error and
      nothing else, whatever comes with it; a number as that number; a result as
      that result. */
  predicate Answers(r: Reply, m: Message) {
    && (r.Failure? <==> m.Strings? && m.err.Some?)
    && (r.Failure? ==> r.text == m.err.value)
    && (r.Number? <==> m.Num?) && (r.Number? ==> r.n == m.n)
    && (r.Json? <==> m.Strings? && m.err.None? && m.json.Some?) && (r.Json? ==> r.text == m.json.value)
    && (r.Empty? <==> m.Strings? && m.err.None? && m.json.None?)
  }

  /** The goroutine of an operation: not started (or never to be started, on
      the early error paths), inside the port call, back from it by return or
      panic, and its outcome handed to a completion call. */
  datatype Goroutine = Starting | Busy | Over | Reported

  /** Where the PendingOp is. */
  datatype Place = InTable | With(completer: nat) | InQueue | InCallback(slotReleased: bool) | Gone(delivered: bool)

  /** What the BufferedRead goroutine does with its batch: none, being filled,
      inside fsp_emit_chunk before the slot lookup, inside BlockingCall. */
  datatype Producer = NoBatch | Filling(b: nat) | Emitting(b: nat) | Blocked(b: nat)

  /** A chunk stream; batch b is freed frees[b] times and was handed over with
      contents[b]. `sent` is what has been handed over, `js` what the data
      callback has been given. `missed` counts the chunks without a consumer
      slot, `refused` those BlockingCall rejected. */
  datatype Stream = Stream(
    slot: nat, releases: nat, producer: Producer, queue: seq<nat>, frees: seq<nat>, contents: seq<Bytes>,
    emitted: seq<nat>, sent: seq<Bytes>, pushed: seq<nat>, delivered: seq<nat>, js: seq<Bytes>,
    missed: nat, refused: nat)

  function NewStream(slot: nat): Stream {
    Stream(slot, 0, NoBatch, [], [], [], [], [], [], [], [], 0, 0)
  }

  datatype PendingOp = PendingOp(
    hasBuffer: bool, stream: Option<Stream>, task: Goroutine, reply: Reply, queued: nat,
    place: Place, taker: Option<nat>, enqueues: nat, deletes: nat, fnReleases: nat, calls: seq<Reply>)

  datatype Stage = Calling | Unknown | Taken | Filled | Refused | Releasing | Finished

  datatype Completer = Completer(target: nat, msg: Message, stage: Stage, errFrees: nat, jsonFrees: nat) {
    function Freed(next: Stage): Completer {
      this.(stage := next,
            errFrees := errFrees + (if msg.Strings? && msg.err.Some? then 1 else 0),
            jsonFrees := jsonFrees + (if msg.Strings? && msg.json.Some? then 1 else 0))
    }
  }

  /** The JS loop thread runs one callback at a time. */
  datatype Loop = Idle | OnDone(c: nat, slotReleased: bool) | OnChunk(c: nat, b: nat, freed: bool)

  datatype State = State(
    table: set<nat>, slots: set<nat>, ops: map<nat, PendingOp>, nextOp: nat, nextSlot: nat,
    completers: map<nat, Completer>, loop: Loop)

  const INIT := State({}, {}, map[], 1, 1, map[], Idle)

  /** Steps of a chunk stream: of the goroutine that fills it, and of the loop
      thread in a chunk callback. */
  datatype ChunkStep =
    | Alloc | FreeBatch | Emit(data: Bytes) | Lookup | Push | PushFails
    | RunChunk | FreeChunk | EndChunk

  /** Steps of a call of fsp_complete or fsp_complete_num. */
  datatype CompleteStep = Take | FreeUnknown | Fill | Enqueue(ok: bool) | CleanUp | ReleaseFn

  /** Steps of the loop thread in a completion callback. */
  datatype SettleStep = RunDone | ReleaseSlot | Delete

  datatype Action =
    // JS thread: an operation is registered, with its stream slot first
    | Register(hasBuffer: bool, streams: bool)
    // the operation's goroutine enters and leaves the port call
    | Begin(c: nat)
    | End(c: nat)
    // a completion call comes in, from the operation's own goroutine or from
    // anywhere else
    | Call(k: nat, target: nat, msg: Message, own: bool)
    | OnStream(c: nat, step: ChunkStep)
    | OnComplete(k: nat, work: CompleteStep)
    | OnSettle(c: nat, part: SettleStep)

  predicate HasStream(s: State, c: nat) {
    c in s.ops && s.ops[c].stream.Some?
  }

  function WithOp(s: State, c: nat, op: PendingOp): State {
    s.(ops := s.ops[c := op])
  }

  // ---- streams ------------------------------------------------------------------

  predicate ChunkEnabled(st: Stream, busy: bool, loop: Loop, c: nat, step: ChunkStep) {
    match step
    case Alloc => busy && st.producer.NoBatch?
    case FreeBatch => st.producer.Filling?
    case Emit(_) => st.producer.Filling?
    case Lookup => st.producer.Emitting?
    case Push => st.producer.Blocked? && |st.queue| < CHUNK_QUEUE_DEPTH
    case PushFails => st.producer.Blocked?
    case RunChunk => loop.Idle? && st.queue != []
    case FreeChunk => loop.OnChunk? && loop.c == c && !loop.freed
    case EndChunk => loop.OnChunk? && loop.c == c && loop.freed
  }

  function FreeAt(st: Stream, b: nat): Stream {
    if b < |st.frees| then st.(frees := st.frees[b := st.frees[b] + 1]) else st
  }

  function WithContent(contents: seq<Bytes>, b: nat, data: Bytes): seq<Bytes> {
    if b < |contents| then contents[b := data] else contents
  }

  function ContentOf(contents: seq<Bytes>, b: nat): Bytes {
    if b < |contents| then contents[b] else []
  }

  /** `present` says whether the slot lookup finds the slot. */
  function ChunkNext(st: Stream, present: bool, loop: Loop, c: nat, step: ChunkStep): Stream
    requires ChunkEnabled(st, true, loop, c, step)
  {
    match step
    case Alloc =>
      st.(producer := Filling(|st.frees|), frees := st.frees + [0], contents := st.contents + [[]])
    case FreeBatch => FreeAt(st, st.producer.b).(producer := NoBatch)
    case Emit(data) =>
      st.(producer := Emitting(st.producer.b), contents := WithContent(st.contents, st.producer.b, data),
          emitted := st.emitted + [st.producer.b], sent := st.sent + [data])
    case Lookup =>
      if present then st.(producer := Blocked(st.producer.b))
      else FreeAt(st, st.producer.b).(producer := NoBatch, missed := st.missed + 1)
    case Push =>
      st.(producer := NoBatch, queue := st.queue + [st.producer.b], pushed := st.pushed + [st.producer.b])
    case PushFails => FreeAt(st, st.producer.b).(producer := NoBatch, refused := st.refused + 1)
    case RunChunk => st.(queue := st.queue[1..])
    case FreeChunk => FreeAt(st, loop.b)
    case EndChunk => st.(delivered := st.delivered + [loop.b], js := st.js + [ContentOf(st.contents, loop.b)])
  }

  function ChunkLoop(st: Stream, loop: Loop, c: nat, step: ChunkStep): Loop
    requires ChunkEnabled(st, true, loop, c, step)
  {
    match step
    case RunChunk => OnChunk(c, st.queue[0], false)
    case FreeChunk => loop.(freed := true)
    case EndChunk => Idle
    case _ => loop
  }

  // ---- completion -----------------------------------------------------------------

  /** releaseTsfn of the op's stream slot; a second release finds nothing. */
  function SlotReleased(s: State, c: nat): State
    requires c in s.ops
  {
    if HasStream(s, c) && s.ops[c].stream.value.slot in s.slots then
      var st := s.ops[c].stream.value;
      WithOp(s, c, s.ops[c].(stream := Some(st.(releases := st.releases + 1)))).(slots := s.slots - {st.slot})
    else s
  }

  /** Which stage a step belongs to; from Taken on the pointer to the op is in
      hand. */
  predicate CompleteEnabled(s: State, k: nat, work: CompleteStep) {
    && k in s.completers
    && var q := s.completers[k];
    match work
    case Take => q.stage.Calling?
    case FreeUnknown => q.stage.Unknown?
    case Fill => q.stage.Taken? && q.target in s.ops
    case Enqueue(_) => q.stage.Filled? && q.target in s.ops
    case CleanUp => q.stage.Refused? && q.target in s.ops
    case ReleaseFn => q.stage.Releasing? && q.target in s.ops
  }

  function WithCompleter(s: State, k: nat, q: Completer): State {
    s.(completers := s.completers[k := q])
  }

  function CompleteNext(s: State, k: nat, work: CompleteStep): State
    requires CompleteEnabled(s, k, work)
  {
    var q := s.completers[k];
    match work
    case Take =>
      if q.target in s.table && q.target in s.ops then
        var op := s.ops[q.target].(place := With(k), taker := Some(k));
        WithCompleter(WithOp(s, q.target, op), k, q.(stage := Taken)).(table := s.table - {q.target})
      else WithCompleter(s, k, q.(stage := Unknown))
    case FreeUnknown => WithCompleter(s, k, q.Freed(Finished))
    case Fill =>
      WithCompleter(WithOp(s, q.target, s.ops[q.target].(reply := ReplyTo(q.msg))), k, q.Freed(Filled))
    case Enqueue(ok) =>
      if ok then
        var op := s.ops[q.target];
        WithCompleter(WithOp(s, q.target, op.(queued := op.queued + 1, enqueues := op.enqueues + 1, place := InQueue)),
                      k, q.(stage := Releasing))
      else WithCompleter(s, k, q.(stage := Refused))
    case CleanUp =>
      var s1 := SlotReleased(s, q.target);
      var op := s1.ops[q.target];
      WithCompleter(WithOp(s1, q.target, op.(deletes := op.deletes + 1, place := Gone(false))),
                    k, q.(stage := Releasing))
    case ReleaseFn =>
      var op := s.ops[q.target];
      WithCompleter(WithOp(s, q.target, op.(fnReleases := op.fnReleases + 1)), k, q.(stage := Finished))
  }

  predicate SettleEnabled(s: State, c: nat, part: SettleStep) {
    && c in s.ops
    && match part
       case RunDone => s.loop.Idle? && s.ops[c].queued > 0
       case ReleaseSlot => s.loop == OnDone(c, false)
       case Delete => s.loop == OnDone(c, true)
  }

  function SettleNext(s: State, c: nat, part: SettleStep): State
    requires SettleEnabled(s, c, part)
  {
    match part
    case RunDone =>
      var op := s.ops[c];
      WithOp(s, c, op.(queued := op.queued - 1, calls := op.calls + [op.reply], place := InCallback(false)))
        .(loop := OnDone(c, false))
    case ReleaseSlot =>
      var s1 := SlotReleased(s, c);
      WithOp(s1, c, s1.ops[c].(place := InCallback(true))).(loop := OnDone(c, true))
    case Delete =>
      var op := s.ops[c];
      WithOp(s, c, op.(deletes := op.deletes + 1, place := Gone(true))).(loop := Idle)
  }

  // ---- all steps --------------------------------------------------------------------

  predicate Enabled(s: State, a: Action) {
    match a
    case Register(_, _) => true
    case Begin(c) => c in s.ops && s.ops[c].task.Starting?
    case End(c) => c in s.ops && s.ops[c].task.Busy? && (HasStream(s, c) ==> s.ops[c].stream.value.producer.NoBatch?)
    case Call(k, target, msg, own) =>
      k !in s.completers && (own ==> target in s.ops && (s.ops[target].task.Starting? || s.ops[target].task.Over?))
    case OnStream(c, step) =>
      HasStream(s, c) && ChunkEnabled(s.ops[c].stream.value, s.ops[c].task.Busy?, s.loop, c, step)
    case OnComplete(k, work) => CompleteEnabled(s, k, work)
    case OnSettle(c, part) => SettleEnabled(s, c, part)
  }

  function Registered(s: State, hasBuffer: bool, streams: bool): State {
    var st := if streams then Some(NewStream(s.nextSlot)) else None;
    State(s.table + {s.nextOp}, if streams then s.slots + {s.nextSlot} else s.slots,
          s.ops[s.nextOp := PendingOp(hasBuffer, st, Starting, Empty, 0, InTable, None, 0, 0, 0, [])],
          s.nextOp + 1, if streams then s.nextSlot + 1 else s.nextSlot, s.completers, s.loop)
  }

  function Next(s: State, a: Action): State
    requires Enabled(s, a)
  {
    match a
    case Register(hasBuffer, streams) => Registered(s, hasBuffer, streams)
    case Begin(c) => WithOp(s, c, s.ops[c].(task := Busy))
    case End(c) => WithOp(s, c, s.ops[c].(task := Over))
    case Call(k, target, msg, own) =>
      var s1 := if own then WithOp(s, target, s.ops[target].(task := Reported)) else s;
      WithCompleter(s1, k, Completer(target, msg, Calling, 0, 0))
    case OnStream(c, step) =>
      var st := s.ops[c].stream.value;
      WithOp(s, c, s.ops[c].(stream := Some(ChunkNext(st, st.slot in s.slots, s.loop, c, step))))
        .(loop := ChunkLoop(st, s.loop, c, step))
    case OnComplete(k, work) => CompleteNext(s, k, work)
    case OnSettle(c, part) => SettleNext(s, c, part)
  }

  /** The Go side's rule: a completion call comes from the operation's own
      goroutine only, which makes one: on an early error path, or when it is
      through with the port. */
  predicate Disciplined(a: Action) {
    a.Call? ==> a.own
  }

  ghost predicate IsRun(run: seq<Action>, s: State, strict: bool) {
    if run == [] then s == INIT
    else exists before ::
      && IsRun(Front(run), before, strict)
      && Enabled(before, Last(run))
      && (strict ==> Disciplined(Last(run)))
      && s == Next(before, Last(run))
  }

  lemma OneMore(run: seq<Action>, s: State, a: Action, strict: bool)
    requires IsRun(run, s, strict) && Enabled(s, a) && (strict ==> Disciplined(a))
    ensures IsRun(run + [a], Next(s, a), strict)
  {
    assert Front(run + [a]) == run && Last(run + [a]) == a;
  }

  /** A run under the rule is a run. */
  lemma {:induction false} AlsoARun(run: seq<Action>, s: State)
    requires IsRun(run, s, true)
    ensures IsRun(run, s, false)
  {
    if run != [] {
      var before :| IsRun(Front(run), before, true) && Enabled(before, Last(run)) && s == Next(before, Last(run));
      AlsoARun(Front(run), before);
    }
  }

  /** s' is reached from s by these steps. */
  predicate Leads(s: State, acts: seq<Action>, s': State)
    decreases acts
  {
    if acts == [] then s' == s
    else Enabled(s, acts[0]) && Leads(Next(s, acts[0]), acts[1..], s')
  }

  lemma Lead(s: State, a: Action, s1: State, rest: seq<Action>, s': State)
    requires Enabled(s, a) && s1 == Next(s, a) && Leads(s1, rest, s')
    ensures Leads(s, [a] + rest, s')
  {
    assert ([a] + rest)[1..] == rest;
  }

  lemma {:induction false} LeadsConcat(s: State, a: seq<Action>, s1: State, b: seq<Action>, s': State)
    requires Leads(s, a, s1) && Leads(s1, b, s')
    ensures Leads(s, a + b, s')
    decreases a
  {
    if a == [] {
      assert a + b == b;
    } else {
      LeadsConcat(Next(s, a[0]), a[1..], s1, b, s');
      assert (a + b)[1..] == a[1..] + b;
    }
  }

  /** A run goes on along steps that lead on. */
  lemma {:induction false} RunLeads(run: seq<Action>, s: State, acts: seq<Action>, s': State, strict: bool)
    requires IsRun(run, s, strict) && Leads(s, acts, s')
    requires strict ==> forall a :: a in acts ==> Disciplined(a)
    ensures IsRun(run + acts, s', strict)
    decreases acts
  {
    if acts == [] {
      assert run + acts == run;
    } else {
      OneMore(run, s, acts[0], strict);
      RunLeads(run + [acts[0]], Next(s, acts[0]), acts[1..], s', strict);
      assert run + [acts[0]] + acts[1..] == run + acts;
    }
  }

  // ---- the same, folded ----------------------------------------------------------------

  ghost predicate Reached(run: seq<Action>, s: State, strict: bool) {
    forall n: nat {:trigger Ask(n)} :: Ask(n) ==> IsRun(run, s, strict)
  }

  ghost predicate Led(s: State, acts: seq<Action>, s': State) {
    forall n: nat {:trigger Ask(n)} :: Ask(n) ==> Leads(s, acts, s')
  }

  lemma ReachedRun(run: seq<Action>, s: State, strict: bool)
    ensures Reached(run, s, strict) <==> IsRun(run, s, strict)
  {
    assert Ask(0);
  }

  lemma LedLeads(s: State, acts: seq<Action>, s': State)
    ensures Led(s, acts, s') <==> Leads(s, acts, s')
  {
    assert Ask(0);
  }

  lemma ReachedLed(run: seq<Action>, s: State, acts: seq<Action>, s': State, strict: bool)
    requires Reached(run, s, strict) && Led(s, acts, s')
    requires strict ==> forall a :: a in acts ==> Disciplined(a)
    ensures Reached(run + acts, s', strict)
  {
    ReachedRun(run, s, strict);
    LedLeads(s, acts, s');
    RunLeads(run, s, acts, s', strict);
    ReachedRun(run + acts, s', strict);
  }

  lemma LedConcat(s: State, a: seq<Action>, s1: State, b: seq<Action>, s': State)
    requires Led(s, a, s1) && Led(s1, b, s')
    ensures Led(s, a + b, s')
  {
    LedLeads(s, a, s1);
    LedLeads(s1, b, s');
    LeadsConcat(s, a, s1, b, s');
    LedLeads(s, a + b, s');
  }
}
