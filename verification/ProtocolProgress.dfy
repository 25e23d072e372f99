/** From every state of the protocol that the Go side's rule allows, work can
    come to rest: a measure bounds the steps. */
module ProtocolProgress {
  import opened Basics
  import opened Protocol
  import opened ProtocolSafety
  import opened ProtocolResults

  // ---- sums over a map ---------------------------------------------------------------

  ghost function Pick(m: map<nat, nat>): (k: nat)
    requires m != map[]
    ensures k in m
  {
    var k :| k in m;
    k
  }

  ghost function Sum(m: map<nat, nat>): nat {
    if m == map[] then 0 else m[Pick(m)] + Sum(m - {Pick(m)})
  }

  lemma {:induction false} SumWithout(m: map<nat, nat>, k: nat)
    requires k in m
    ensures Sum(m) == m[k] + Sum(m - {k})
    decreases |m|
  {
    var j := Pick(m);
    if j != k {
      SumWithout(m - {j}, k);
      SumWithout(m - {k}, j);
      assert m - {j} - {k} == m - {k} - {j};
    }
  }

  lemma SumUpdate(m: map<nat, nat>, k: nat, v: nat)
    ensures Sum(m[k := v]) + (if k in m then m[k] else 0) == Sum(m) + v
  {
    SumWithout(m[k := v], k);
    if k in m {
      SumWithout(m, k);
      assert m[k := v] - {k} == m - {k};
    } else {
      assert m[k := v] - {k} == m;
    }
  }

  // ---- how much is left to do ---------------------------------------------------------

  function TaskWeight(t: Goroutine): nat {
    match t
    case Starting => 10
    case Busy => 9
    case Over => 8
    case Reported => 0
  }

  function ProducerWeight(p: Producer): nat {
    match p
    case NoBatch => 0
    case Filling(_) => 6
    case Emitting(_) => 5
    case Blocked(_) => 4
  }

  function OpWeight(op: PendingOp): nat {
    TaskWeight(op.task) + 3 * op.queued
    + if op.stream.Some? then ProducerWeight(op.stream.value.producer) + 3 * |op.stream.value.queue| else 0
  }

  function StageWeight(stage: Stage): nat {
    match stage
    case Calling => 7
    case Taken => 6
    case Filled => 5
    case Refused => 2
    case Unknown => 1
    case Releasing => 1
    case Finished => 0
  }

  function LoopWeight(loop: Loop): nat {
    match loop
    case Idle => 0
    case OnDone(_, slotReleased) => if slotReleased then 1 else 2
    case OnChunk(_, _, freed) => if freed then 1 else 2
  }

  function OpWeights(s: State): map<nat, nat> {
    map c | c in s.ops :: OpWeight(s.ops[c])
  }

  function StageWeights(s: State): map<nat, nat> {
    map k | k in s.completers :: StageWeight(s.completers[k].stage)
  }

  /** A bound on the steps to rest. */
  ghost function Remaining(s: State): nat {
    LoopWeight(s.loop) + Sum(OpWeights(s)) + Sum(StageWeights(s))
  }

  /** A step that moves op c, the loop and no completion call. */
  lemma OpMoves(s: State, s': State, c: nat)
    requires c in s.ops && s'.ops.Keys == s.ops.Keys
    requires forall d :: d in s.ops && d != c ==> OpWeight(s'.ops[d]) == OpWeight(s.ops[d])
    requires StageWeights(s') == StageWeights(s)
    ensures Remaining(s') + LoopWeight(s.loop) + OpWeight(s.ops[c])
      == Remaining(s) + LoopWeight(s'.loop) + OpWeight(s'.ops[c])
  {
    SumUpdate(OpWeights(s), c, OpWeight(s'.ops[c]));
    assert OpWeights(s') == OpWeights(s)[c := OpWeight(s'.ops[c])];
  }

  /** A step of completion call k, which may be new, with its op c. */
  lemma StageMoves(s: State, s': State, k: nat, c: nat)
    requires s'.ops.Keys == s.ops.Keys && s'.loop == s.loop && k in s'.completers
    requires forall d :: d in s.ops && d != c ==> OpWeight(s'.ops[d]) == OpWeight(s.ops[d])
    requires s'.completers == s.completers[k := s'.completers[k]]
    ensures Remaining(s') + (if c in s.ops then OpWeight(s.ops[c]) else 0)
        + (if k in s.completers then StageWeight(s.completers[k].stage) else 0)
      == Remaining(s) + (if c in s.ops then OpWeight(s'.ops[c]) else 0) + StageWeight(s'.completers[k].stage)
  {
    SumUpdate(StageWeights(s), k, StageWeight(s'.completers[k].stage));
    assert StageWeights(s') == StageWeights(s)[k := StageWeight(s'.completers[k].stage)];
    if c in s.ops {
      SumUpdate(OpWeights(s), c, OpWeight(s'.ops[c]));
      assert OpWeights(s') == OpWeights(s)[c := OpWeight(s'.ops[c])];
    } else {
      assert OpWeights(s') == OpWeights(s);
    }
  }

  // ---- one step at a time ----------------------------------------------------------------

  /** A step of the work at hand. */
  predicate Working(s: State, a: Action) {
    Enabled(s, a) && Disciplined(a) && !a.Register?
  }

  lemma LoopNearer(s: State) returns (a: Action)
    requires Inv(s, true) && !s.loop.Idle?
    ensures Working(s, a) && Remaining(Next(s, a)) < Remaining(s)
  {
    var c := s.loop.c;
    if s.loop.OnDone? {
      assert OpInv(s, c);
      a := SettleNearer(s, c, if s.loop.slotReleased then Delete else ReleaseSlot);
    } else {
      a := StreamNearer(s, c, if s.loop.freed then EndChunk else FreeChunk);
    }
  }

  lemma SettleWeight(s: State, c: nat, part: SettleStep)
    requires SettleEnabled(s, c, part)
    ensures var s' := SettleNext(s, c, part);
      && s'.ops.Keys == s.ops.Keys && s'.completers == s.completers
      && (forall d :: d in s.ops && d != c ==> s'.ops[d] == s.ops[d])
      && OpWeight(s'.ops[c]) + (if part.RunDone? then 3 else 0) == OpWeight(s.ops[c])
      && LoopWeight(s'.loop) + (if part.RunDone? then 0 else 1) == LoopWeight(s.loop) + if part.RunDone? then 2 else 0
  {
  }

  /** The weights a step of a stream moves. */
  lemma ChunkWeight(s: State, c: nat, step: ChunkStep)
    requires Enabled(s, OnStream(c, step)) && !step.Alloc?
    ensures var s' := Next(s, OnStream(c, step));
      && s'.ops.Keys == s.ops.Keys && s'.completers == s.completers
      && (forall d :: d in s.ops && d != c ==> s'.ops[d] == s.ops[d])
      && LoopWeight(s'.loop) + OpWeight(s'.ops[c]) < LoopWeight(s.loop) + OpWeight(s.ops[c])
  {
  }

  lemma {:induction false} CompleterNearer(s: State, k: nat) returns (a: Action)
    requires Inv(s, true) && k in s.completers && !s.completers[k].stage.Finished?
    ensures Working(s, a) && Remaining(Next(s, a)) < Remaining(s)
  {
    var c := s.completers[k].target;
    var work := match s.completers[k].stage
      case Calling => Take
      case Unknown => FreeUnknown
      case Taken => Fill
      case Filled => Enqueue(true)
      case Refused => CleanUp
      case _ => ReleaseFn;
    a := OnComplete(k, work);
    assert CompleterInv(s, k);
    CompleteWeight(s, k, work);
    StageMoves(s, Next(s, a), k, c);
  }

  lemma CompleteWeight(s: State, k: nat, work: CompleteStep)
    requires CompleteEnabled(s, k, work) && (work.Enqueue? ==> work.ok)
    ensures var s', c := CompleteNext(s, k, work), s.completers[k].target;
      && s'.ops.Keys == s.ops.Keys && s'.loop == s.loop && k in s'.completers
      && s'.completers == s.completers[k := s'.completers[k]]
      && (forall d :: d in s.ops && d != c ==> s'.ops[d] == s.ops[d])
      && (c in s.ops ==> OpWeight(s'.ops[c]) == OpWeight(s.ops[c]) + if work.Enqueue? then 3 else 0)
      && StageWeight(s'.completers[k].stage) + (if work.Enqueue? then 3 else 0) < StageWeight(s.completers[k].stage)
  {
  }

  /** With the loop idle and op c not at rest. */
  lemma {:induction false} OpNearer(s: State, c: nat) returns (a: Action)
    requires Inv(s, true) && s.loop.Idle? && c in s.ops
    requires !(s.ops[c].task.Reported? && s.ops[c].queued == 0
      && (HasStream(s, c) ==> s.ops[c].stream.value.queue == []))
    ensures Working(s, a) && Remaining(Next(s, a)) < Remaining(s)
  {
    var op := s.ops[c];
    if op.queued > 0 {
      a := SettleNearer(s, c, RunDone);
    } else if HasStream(s, c) && op.stream.value.queue != [] {
      a := StreamNearer(s, c, RunChunk);
    } else if HasStream(s, c) && !op.stream.value.producer.NoBatch? {
      var step := match op.stream.value.producer
        case Filling(_) => Emit([])
        case Emitting(_) => Lookup
        case _ => Push;
      a := StreamNearer(s, c, step);
    } else {
      a := TaskNearer(s, c);
    }
  }

  /** The goroutine starts, comes back or reports. */
  lemma TaskNearer(s: State, c: nat) returns (a: Action)
    requires c in s.ops && !s.ops[c].task.Reported? && (HasStream(s, c) ==> s.ops[c].stream.value.producer.NoBatch?)
    ensures Working(s, a) && Remaining(Next(s, a)) < Remaining(s)
  {
    if s.ops[c].task.Over? {
      var k := Fresh(s.completers.Keys);
      a := Call(k, c, Num(0), true);
      StageMoves(s, Next(s, a), k, c);
    } else {
      a := if s.ops[c].task.Starting? then Begin(c) else End(c);
      OpMoves(s, Next(s, a), c);
    }
  }

  lemma SettleNearer(s: State, c: nat, part: SettleStep) returns (a: Action)
    requires SettleEnabled(s, c, part)
    ensures a == OnSettle(c, part) && Working(s, a) && Remaining(Next(s, a)) < Remaining(s)
  {
    a := OnSettle(c, part);
    SettleWeight(s, c, part);
    OpMoves(s, Next(s, a), c);
  }

  lemma StreamNearer(s: State, c: nat, step: ChunkStep) returns (a: Action)
    requires Enabled(s, OnStream(c, step)) && !step.Alloc?
    ensures a == OnStream(c, step) && Working(s, a) && Remaining(Next(s, a)) < Remaining(s)
  {
    a := OnStream(c, step);
    ChunkWeight(s, c, step);
    OpMoves(s, Next(s, a), c);
  }

  lemma {:induction false} OneNearer(run: seq<Action>, s: State) returns (a: Action, s': State)
    requires IsRun(run, s, true) && !Quiet(s)
    ensures Working(s, a) && s' == Next(s, a) && IsRun(run + [a], s', true) && Remaining(s') < Remaining(s)
  {
    RunInv(run, s, true);
    if !s.loop.Idle? {
      a := LoopNearer(s);
    } else if k :| k in s.completers && !s.completers[k].stage.Finished? {
      a := CompleterNearer(s, k);
    } else {
      var c :| c in s.ops && !(s.ops[c].task.Reported? && s.ops[c].queued == 0
        && (HasStream(s, c) ==> s.ops[c].stream.value.queue == []));
      a := OpNearer(s, c);
    }
    s' := Next(s, a);
    OneMore(run, s, a, true);
  }

  /** No operation gets stuck: until everything is at rest some step other than
      new work or a spurious call is enabled, and it brings rest nearer. */
  lemma NeverStuck(run: seq<Action>, s: State)
    requires IsRun(run, s, true) && !Quiet(s)
    ensures exists a: Action :: Working(s, a) && Remaining(Next(s, a)) < Remaining(s)
  {
    var a, s' := OneNearer(run, s);
  }

  /** Work that was under way. */
  predicate OldWork(acts: seq<Action>) {
    forall a :: a in acts ==> Disciplined(a) && !a.Register?
  }

  lemma OldWorkGrows(a: Action, acts: seq<Action>)
    requires Disciplined(a) && !a.Register? && OldWork(acts)
    ensures OldWork([a] + acts) && |[a] + acts| == |acts| + 1
  {
  }

  /** The next step of that work. */
  lemma NextOldStep(run: seq<Action>, s: State) returns (a: Action, s': State)
    requires IsRun(run, s, true) && !Quiet(s)
    ensures Disciplined(a) && !a.Register?
    ensures Leads(s, [a], s') && IsRun(run + [a], s', true) && Remaining(s') < Remaining(s)
  {
    a, s' := OneNearer(run, s);
    Lead(s, a, s', [], s');
    assert [a] + [] == [a];
  }

  /** Without a further operation the work can come to rest, in at most as many
      steps as the weights of what is under way say, and then NothingLeftBehind
      applies. */
  lemma {:induction false} QuietReachable(run: seq<Action>, s: State) returns (acts: seq<Action>, s': State)
    requires IsRun(run, s, true)
    ensures Leads(s, acts, s') && Quiet(s') && IsRun(run + acts, s', true)
    ensures OldWork(acts) && |acts| <= Remaining(s)
    decreases Remaining(s)
  {
    if Quiet(s) {
      acts, s' := [], s;
      assert run + acts == run;
    } else {
      var a, s1 := NextOldStep(run, s);
      var rest;
      rest, s' := QuietReachable(run + [a], s1);
      acts := [a] + rest;
      LeadsConcat(s, [a], s1, rest, s');
      OldWorkGrows(a, rest);
      Regroup(run, [a], rest);
    }
  }
}
