/** Any number of operations on one port, interleaved call by call.

    Every step is one atomic action of one goroutine: a channel operation, a
    call on the port, the decision to return, or a deferred send. What an
    operation may do while it holds its conches is `Permits`, which the loops
    of module SerialIO are proved to follow. */
module Conches {
  import opened Basics
  import opened PortModel

  datatype Phase = WaitingW | WaitingR | Running | Leaving | Ended

  /** hasW and hasR say which deferred sends are still due; `moves` records what
      has been done with the conches, no step depends on it. */
  datatype Task = Task(
    op: Op, deadline: Time, phase: Phase, hasW: bool, hasR: bool, calls: seq<Call>, moves: seq<Move>)
  {
    predicate Holds(c: ConchId) {
      if c.ReadConch? then hasR else hasW
    }

    function Moved(m: Move): Task {
      this.(moves := moves + [m])
    }
  }

  /** inForce is the port's read timeout at the moment of the call. */
  datatype Entry = Entry(task: nat, call: Call, inForce: Time)

  datatype State = State(
    readTok: nat, writeTok: nat, tasks: map<nat, Task>, log: seq<Entry>, timeout: Time, now: Time)

  datatype Action =
    | Spawn(t: nat, op: Op, deadline: Time)
    | AcquireW(t: nat)
    | AcquireR(t: nat)
    | GiveUp(t: nat)
    | Do(t: nat, call: Call)
    | Return(t: nat)
    | ReleaseR(t: nat)
    | ReleaseW(t: nat)
    | Finish(t: nat)
    | Tick(d: nat)

  predicate Needs(op: Op, c: ConchId) {
    match c
    case ReadConch => !op.WriteOp?
    case WriteConch => op.WriteOp? || op.EchoOp? || op.ModeOp?
  }

  /** The calls a conch protects. A mode change needs both. */
  predicate Uses(c: ConchId, call: Call) {
    if c.ReadConch? then !call.Write? else call.Write? || call.SetMode?
  }

  predicate Enabled(s: State, a: Action) {
    match a
    case Spawn(t, _, _) => t !in s.tasks
    case AcquireW(t) => t in s.tasks && s.tasks[t].phase.WaitingW? && s.writeTok > 0
    case AcquireR(t) => t in s.tasks && s.tasks[t].phase.WaitingR? && s.readTok > 0
    case GiveUp(t) =>
      t in s.tasks && (s.tasks[t].phase.WaitingW? || s.tasks[t].phase.WaitingR?) && s.tasks[t].deadline <= s.now
    case Do(t, call) => t in s.tasks && s.tasks[t].phase.Running? && Permits(s.tasks[t].op, s.tasks[t].calls, call)
    case Return(t) => t in s.tasks && s.tasks[t].phase.Running?
    case ReleaseR(t) => t in s.tasks && s.tasks[t].phase.Leaving? && s.tasks[t].hasR && s.readTok < 1
    case ReleaseW(t) =>
      t in s.tasks && s.tasks[t].phase.Leaving? && !s.tasks[t].hasR && s.tasks[t].hasW && s.writeTok < 1
    case Finish(t) => t in s.tasks && s.tasks[t].phase.Leaving? && !s.tasks[t].hasR && !s.tasks[t].hasW
    case Tick(_) => true
  }

  function GivenUp(k: Task): Task {
    k.Moved(GaveUp(if k.phase.WaitingW? then WriteConch else ReadConch, |k.calls|)).(phase := Leaving)
  }

  function Next(s: State, a: Action): State
    requires Enabled(s, a)
  {
    match a
    case Spawn(t, op, deadline) =>
      var phase := if Needs(op, WriteConch) then WaitingW else WaitingR;
      s.(tasks := s.tasks[t := Task(op, deadline, phase, false, false, [], [])])
    case AcquireW(t) =>
      var k := s.tasks[t].Moved(Got(WriteConch, |s.tasks[t].calls|));
      s.(writeTok := s.writeTok - 1,
         tasks := s.tasks[t := k.(hasW := true, phase := if Needs(k.op, ReadConch) then WaitingR else Running)])
    case AcquireR(t) =>
      var k := s.tasks[t].Moved(Got(ReadConch, |s.tasks[t].calls|));
      s.(readTok := s.readTok - 1, tasks := s.tasks[t := k.(hasR := true, phase := Running)])
    case GiveUp(t) => s.(tasks := s.tasks[t := GivenUp(s.tasks[t])])
    case Do(t, call) =>
      s.(tasks := s.tasks[t := s.tasks[t].(calls := s.tasks[t].calls + [call])],
         log := s.log + [Entry(t, call, s.timeout)],
         timeout := if call.SetTimeout? && call.end.Returned? then call.wait else s.timeout)
    case Return(t) => s.(tasks := s.tasks[t := s.tasks[t].(phase := Leaving)])
    case ReleaseR(t) =>
      var k := s.tasks[t].Moved(PutBack(ReadConch, |s.tasks[t].calls|));
      s.(readTok := s.readTok + 1, tasks := s.tasks[t := k.(hasR := false)])
    case ReleaseW(t) =>
      var k := s.tasks[t].Moved(PutBack(WriteConch, |s.tasks[t].calls|));
      s.(writeTok := s.writeTok + 1, tasks := s.tasks[t := k.(hasW := false)])
    case Finish(t) => s.(tasks := s.tasks[t := s.tasks[t].(phase := Ended)])
    case Tick(d) => s.(now := s.now + d)
  }

  const INIT := State(1, 1, map[], [], 0, 0)

  /** The state after a run, if every step of it was enabled. */
  ghost predicate IsRun(run: seq<Action>, s: State) {
    if run == [] then s == INIT
    else exists before :: IsRun(Front(run), before) && Enabled(before, Last(run)) && s == Next(before, Last(run))
  }

  // ---- projections of the log ------------------------------------------------

  function Calls(log: seq<Entry>): seq<Call> {
    if log == [] then [] else Calls(Front(log)) + [Last(log).call]
  }

  function Own(log: seq<Entry>, t: nat): seq<Call> {
    if log == [] then []
    else Own(Front(log), t) + (if Last(log).task == t then [Last(log).call] else [])
  }

  /** The byte stream a conch protects. */
  function Bytes(c: ConchId, calls: seq<Call>): seq<byte> {
    if c.ReadConch? then Received(calls) else Accepted(calls)
  }

  /** Once an operation has made calls under a conch, no other operation's call
      under the same conch falls between them. */
  predicate Exclusive(log: seq<Entry>, c: ConchId) {
    forall i, j, k :: 0 <= i < j < k < |log| && log[i].task == log[k].task
      && Uses(c, log[i].call) && Uses(c, log[j].call) && Uses(c, log[k].call)
      ==> log[j].task == log[i].task
  }

  /** The same, and the operation's turn is still going on. */
  predicate Open(log: seq<Entry>, t: nat, c: ConchId) {
    forall i, j :: 0 <= i < j < |log| && log[i].task == t && Uses(c, log[i].call) && Uses(c, log[j].call)
      ==> log[j].task == t
  }

  /** Every read ran under the timeout its own operation had just set. */
  predicate TimeoutsOwn(log: seq<Entry>) {
    forall i :: 0 <= i < |log| && log[i].call.Read? ==>
      var own := Own(log[..i], log[i].task);
      Armed(own) && log[i].inForce == Last(own).wait
  }

  lemma LogSnoc(log: seq<Entry>, e: Entry)
    ensures Calls(log + [e]) == Calls(log) + [e.call]
    ensures forall t :: Own(log + [e], t) == Own(log, t) + (if e.task == t then [e.call] else [])
  {
    assert Front(log + [e]) == log;
  }

  lemma {:induction false} OwnMembers(log: seq<Entry>, t: nat)
    ensures forall i :: 0 <= i < |log| && log[i].task == t ==> log[i].call in Own(log, t)
  {
    if log != [] {
      OwnMembers(Front(log), t);
    }
  }

  // ---- the invariant ---------------------------------------------------------

  ghost function Holders(s: State, c: ConchId): set<nat> {
    set t | t in s.tasks && s.tasks[t].Holds(c)
  }

  function Tokens(s: State, c: ConchId): nat {
    if c.ReadConch? then s.readTok else s.writeTok
  }

  /** A task holds exactly the conches its phase says. */
  predicate Coherent(k: Task) {
    && Follows(k.op, k.calls)
    && (k.hasW ==> Needs(k.op, WriteConch)) && (k.hasR ==> Needs(k.op, ReadConch))
    && match k.phase
       case WaitingW => !k.hasW && !k.hasR && Needs(k.op, WriteConch) && k.calls == []
       case WaitingR => !k.hasR && Needs(k.op, ReadConch) && k.hasW == Needs(k.op, WriteConch) && k.calls == []
       case Running => k.hasW == Needs(k.op, WriteConch) && k.hasR == Needs(k.op, ReadConch)
       case Leaving => true
       case Ended => !k.hasW && !k.hasR
  }

  /** What it has done with them so far, and what it still has to do. */
  predicate Behaved(k: Task) {
    match k.phase
    case WaitingW => k.moves == []
    case WaitingR => k.moves == Taken(k.hasW, false)
    case Running => k.moves == Taken(k.hasW, k.hasR)
    case Leaving => Conduct(k.op, k.moves + Returns(k), 0, |k.calls|)
    case Ended => Conduct(k.op, k.moves, 0, |k.calls|)
  }

  function Taken(w: bool, r: bool): seq<Move> {
    if !w then if r then [Got(ReadConch, 0)] else []
    else if r then [Got(WriteConch, 0), Got(ReadConch, 0)]
    else [Got(WriteConch, 0)]
  }

  /** The sends that are due. */
  function Returns(k: Task): seq<Move> {
    var n := |k.calls|;
    if !k.hasW then if k.hasR then [PutBack(ReadConch, n)] else []
    else if k.hasR then [PutBack(ReadConch, n), PutBack(WriteConch, n)]
    else [PutBack(WriteConch, n)]
  }

  ghost predicate TasksInv(s: State) {
    && (forall t :: t in s.tasks ==> Coherent(s.tasks[t]) && Own(s.log, t) == s.tasks[t].calls)
    && (forall t :: t !in s.tasks ==> Own(s.log, t) == [])
  }

  ghost predicate ConchInv(s: State, c: ConchId) {
    && Tokens(s, c) + |Holders(s, c)| == 1
    && Exclusive(s.log, c)
    && (forall t :: t in s.tasks && s.tasks[t].Holds(c) ==> Open(s.log, t, c))
  }

  ghost predicate TimeoutInv(s: State) {
    && TimeoutsOwn(s.log)
    && (forall t :: t in s.tasks && s.tasks[t].hasR && Armed(s.tasks[t].calls) ==>
          s.timeout == Last(s.tasks[t].calls).wait)
  }

  ghost predicate Inv(s: State) {
    TasksInv(s) && ConchInv(s, ReadConch) && ConchInv(s, WriteConch) && TimeoutInv(s)
  }

  lemma OneHolder(s: State, c: ConchId, t: nat, u: nat)
    requires Tokens(s, c) + |Holders(s, c)| == 1
    requires t in s.tasks && u in s.tasks && s.tasks[t].Holds(c) && s.tasks[u].Holds(c)
    ensures t == u && Tokens(s, c) == 0
  {
    if t != u {
      assert {t, u} <= Holders(s, c);
      Bigger({t, u}, Holders(s, c));
    } else {
      Bigger({t}, Holders(s, c));
    }
  }

  /** A step moves one task and keeps it coherent. */
  lemma TaskStep(s: State, a: Action) returns (k: Task)
    requires TasksInv(s) && Enabled(s, a) && !a.Tick?
    ensures Next(s, a).tasks == s.tasks[a.t := k] && Coherent(k)
    ensures k.calls == (if a.Spawn? then [] else s.tasks[a.t].calls) + (if a.Do? then [a.call] else [])
    ensures !a.Spawn? ==> k.op == s.tasks[a.t].op
  {
    k := Next(s, a).tasks[a.t];
    if !a.Spawn? {
      assert Coherent(s.tasks[a.t]);
    }
    if a.Do? {
      FollowsSnoc(s.tasks[a.t].op, s.tasks[a.t].calls, a.call);
    }
  }

  lemma OwnStep(s: State, a: Action)
    requires Enabled(s, a)
    ensures forall t :: Own(Next(s, a).log, t) == Own(s.log, t) + (if a.Do? && a.t == t then [a.call] else [])
  {
    if a.Do? {
      LogSnoc(s.log, Entry(a.t, a.call, s.timeout));
    } else {
      assert forall t :: Own(s.log, t) + [] == Own(s.log, t);
    }
  }

  lemma {:induction false} TasksStep(s: State, a: Action)
    requires TasksInv(s) && Enabled(s, a)
    ensures TasksInv(Next(s, a))
  {
    if !a.Tick? {
      var k := TaskStep(s, a);
      OwnStep(s, a);
      TasksInvMoves(s, a.t, k, Next(s, a), if a.Do? then [a.call] else []);
    }
  }

  lemma TasksInvMoves(s: State, t: nat, k: Task, s': State, more: seq<Call>)
    requires TasksInv(s) && s'.tasks == s.tasks[t := k] && Coherent(k)
    requires k.calls == (if t in s.tasks then s.tasks[t].calls else []) + more
    requires forall u :: Own(s'.log, u) == Own(s.log, u) + (if u == t then more else [])
    ensures TasksInv(s')
  {
  }

  predicate Takes(a: Action, c: ConchId) {
    if c.ReadConch? then a.AcquireR? else a.AcquireW?
  }

  predicate Gives(a: Action, c: ConchId) {
    if c.ReadConch? then a.ReleaseR? else a.ReleaseW?
  }

  /** How a step changes who holds a conch. */
  lemma HoldersStep(s: State, a: Action, c: ConchId)
    requires Enabled(s, a)
    ensures Holders(Next(s, a), c) ==
      if Takes(a, c) then Holders(s, c) + {a.t} else if Gives(a, c) then Holders(s, c) - {a.t} else Holders(s, c)
  {
  }

  lemma TokensStep(s: State, a: Action, c: ConchId)
    requires TasksInv(s) && Tokens(s, c) + |Holders(s, c)| == 1 && Enabled(s, a)
    ensures Tokens(Next(s, a), c) + |Holders(Next(s, a), c)| == 1
  {
    HoldersStep(s, a, c);
    if Takes(a, c) {
      assert Coherent(s.tasks[a.t]) && a.t !in Holders(s, c);
    } else if Gives(a, c) {
      assert a.t in Holders(s, c);
    }
  }

  lemma ExclusiveSnoc(log: seq<Entry>, e: Entry, c: ConchId)
    requires Exclusive(log, c) && (Uses(c, e.call) ==> Open(log, e.task, c))
    ensures Exclusive(log + [e], c)
    ensures Uses(c, e.call) ==> Open(log + [e], e.task, c)
    ensures !Uses(c, e.call) ==> forall t :: Open(log, t, c) ==> Open(log + [e], t, c)
  {
  }

  lemma ExclusiveStep(s: State, a: Action, c: ConchId)
    requires Inv(s) && Enabled(s, a)
    ensures Exclusive(Next(s, a).log, c)
    ensures forall t :: t in Next(s, a).tasks && Next(s, a).tasks[t].Holds(c) ==> Open(Next(s, a).log, t, c)
  {
    assert ConchInv(s, c);
    if a.Do? {
      CallIsOpen(s, a.t, a.call, c);
      ExclusiveSnoc(s.log, Entry(a.t, a.call, s.timeout), c);
    } else if a.AcquireR? || a.AcquireW? {
      OwnMembers(s.log, a.t);
    }
  }

  /** Who makes a call under a conch is the one who holds it. */
  lemma CallIsOpen(s: State, t: nat, call: Call, c: ConchId)
    requires TasksInv(s) && ConchInv(s, c) && Enabled(s, Do(t, call))
    ensures Uses(c, call) ==> Open(s.log, t, c)
    ensures Uses(c, call) ==> forall u :: u in s.tasks && s.tasks[u].Holds(c) ==> u == t
  {
    if Uses(c, call) {
      assert Coherent(s.tasks[t]) && s.tasks[t].Holds(c);
      forall u | u in s.tasks && s.tasks[u].Holds(c)
        ensures u == t
      {
        OneHolder(s, c, u, t);
      }
    }
  }

  lemma TimeoutsSnoc(log: seq<Entry>, e: Entry)
    requires TimeoutsOwn(log)
    requires e.call.Read? ==> Armed(Own(log, e.task)) && e.inForce == Last(Own(log, e.task)).wait
    ensures TimeoutsOwn(log + [e])
  {
    forall i | 0 <= i < |log + [e]| && (log + [e])[i].call.Read?
      ensures var own := Own((log + [e])[..i], (log + [e])[i].task);
              Armed(own) && (log + [e])[i].inForce == Last(own).wait
    {
      assert (log + [e])[..i] == if i < |log| then log[..i] else log;
    }
  }

  lemma TimeoutStep(s: State, a: Action)
    requires Inv(s) && Enabled(s, a)
    ensures TimeoutInv(Next(s, a))
  {
    var s' := Next(s, a);
    if a.Do? {
      assert Coherent(s.tasks[a.t]);
      TimeoutsSnoc(s.log, Entry(a.t, a.call, s.timeout));
      forall t | t in s'.tasks && s'.tasks[t].hasR && Armed(s'.tasks[t].calls)
        ensures s'.timeout == Last(s'.tasks[t].calls).wait
      {
        if t != a.t && a.call.SetTimeout? {
          OneHolder(s, ReadConch, t, a.t);
        }
      }
    }
  }

  ghost predicate MovesInv(s: State) {
    forall t :: t in s.tasks ==> Behaved(s.tasks[t])
  }

  lemma BehavedStep(s: State, a: Action)
    requires TasksInv(s) && MovesInv(s) && Enabled(s, a)
    ensures MovesInv(Next(s, a))
  {
    if !a.Tick? {
      if !a.Spawn? {
        assert Coherent(s.tasks[a.t]) && Behaved(s.tasks[a.t]);
      }
      var k := TaskStep(s, a);
      StaysBehaved(s, a, k);
    }
  }

  /** Each kind of step by itself. */
  lemma StaysBehaved(s: State, a: Action, k: Task)
    requires Enabled(s, a) && !a.Tick? && a.t in Next(s, a).tasks && k == Next(s, a).tasks[a.t]
    requires !a.Spawn? ==> Coherent(s.tasks[a.t]) && Behaved(s.tasks[a.t])
    ensures Behaved(k)
  {
    match a
    case ReleaseR(t) => ReturnsOne(s.tasks[t].moves, Returns(s.tasks[t]));
    case ReleaseW(t) => ReturnsOne(s.tasks[t].moves, Returns(s.tasks[t]));
    case Finish(t) => assert s.tasks[t].moves + [] == s.tasks[t].moves;
    case _ =>
  }

  lemma ReturnsOne(moves: seq<Move>, due: seq<Move>)
    ensures due != [] ==> moves + [due[0]] + due[1..] == moves + due
  {
  }

  lemma {:induction false} MovesInRuns(run: seq<Action>, s: State)
    requires IsRun(run, s)
    ensures MovesInv(s)
  {
    if run != [] {
      var before :| IsRun(Front(run), before) && Enabled(before, Last(run)) && s == Next(before, Last(run));
      RunInv(Front(run), before);
      MovesInRuns(Front(run), before);
      BehavedStep(before, Last(run));
    }
  }

  lemma {:induction false} RunInv(run: seq<Action>, s: State)
    requires IsRun(run, s)
    ensures Inv(s)
  {
    if run == [] {
      assert Holders(s, ReadConch) == {} && Holders(s, WriteConch) == {};
    } else {
      var before :| IsRun(Front(run), before) && Enabled(before, Last(run)) && s == Next(before, Last(run));
      RunInv(Front(run), before);
      TasksStep(before, Last(run));
      TimeoutStep(before, Last(run));
      TokensStep(before, Last(run), ReadConch);
      TokensStep(before, Last(run), WriteConch);
      ExclusiveStep(before, Last(run), ReadConch);
      ExclusiveStep(before, Last(run), WriteConch);
    }
  }

  // ---- what follows for every run --------------------------------------------

  lemma OneToken(run: seq<Action>, s: State)
    requires IsRun(run, s)
    ensures forall c :: Tokens(s, c) + |Holders(s, c)| == 1
    ensures forall t :: t in s.tasks && s.tasks[t].phase.Ended? ==> !s.tasks[t].hasR && !s.tasks[t].hasW
  {
    RunInv(run, s);
    assert forall t :: t in s.tasks ==> Coherent(s.tasks[t]);
    forall c: ConchId
      ensures Tokens(s, c) + |Holders(s, c)| == 1
    {
      assert c.ReadConch? || c.WriteConch?;
    }
  }

  /** What an operation holds is not in its channel. */
  lemma HeldNotFree(run: seq<Action>, s: State, t: nat)
    requires IsRun(run, s) && t in s.tasks
    ensures (s.tasks[t].hasR ==> s.readTok == 0) && (s.tasks[t].hasW ==> s.writeTok == 0)
  {
    OneToken(run, s);
    if s.tasks[t].hasR { OneHolder(s, ReadConch, t, t); }
    if s.tasks[t].hasW { OneHolder(s, WriteConch, t, t); }
  }

  /** A token is in its channel or with exactly one operation. So a deferred
      send never blocks, and an operation that has ended holds nothing. */
  lemma TokenConservation(run: seq<Action>, s: State, t: nat)
    requires IsRun(run, s)
    ensures forall c :: Tokens(s, c) + |Holders(s, c)| == 1
    ensures t in s.tasks && s.tasks[t].phase.Leaving? ==>
      Enabled(s, ReleaseR(t)) || Enabled(s, ReleaseW(t)) || Enabled(s, Finish(t))
    ensures t in s.tasks && s.tasks[t].phase.Ended? ==> forall c :: t !in Holders(s, c)
  {
    OneToken(run, s);
    if t in s.tasks {
      HeldNotFree(run, s, t);
    }
  }

  /** The operation that made the last call under the conch. */
  function Turn(log: seq<Entry>, c: ConchId): int {
    if log == [] then -1 else if Uses(c, Last(log).call) then Last(log).task else Turn(Front(log), c)
  }

  lemma {:induction false} TurnAt(log: seq<Entry>, c: ConchId, t: nat) returns (j: nat)
    requires exists i :: 0 <= i < |log| && log[i].task == t && Uses(c, log[i].call)
    ensures j < |log| && Uses(c, log[j].call) && log[j].task == Turn(log, c)
    ensures forall i :: j < i < |log| ==> !Uses(c, log[i].call)
  {
    if Uses(c, Last(log).call) {
      j := |log| - 1;
    } else {
      var i :| 0 <= i < |log| && log[i].task == t && Uses(c, log[i].call);
      assert Front(log)[i] == log[i];
      j := TurnAt(Front(log), c, t);
    }
  }

  /** What a call adds to the stream of a conch. */
  function Piece(c: ConchId, call: Call): seq<byte> {
    if (if c.ReadConch? then call.Read? else call.Write?) then call.data else []
  }

  lemma BytesStep(log: seq<Entry>, c: ConchId, t: nat)
    requires log != []
    ensures Bytes(c, Calls(log)) == Bytes(c, Calls(Front(log))) + Piece(c, Last(log).call)
    ensures Bytes(c, Own(log, t))
         == Bytes(c, Own(Front(log), t)) + (if Last(log).task == t then Piece(c, Last(log).call) else [])
    ensures Piece(c, Last(log).call) != [] ==> Uses(c, Last(log).call)
  {
    Snoc(Calls(Front(log)), Last(log).call);
    Snoc(Own(Front(log), t), Last(log).call);
    assert Own(Front(log), t) + [] == Own(Front(log), t);
  }

  lemma {:induction false} BytesComeFrom(log: seq<Entry>, c: ConchId, t: nat)
    requires Bytes(c, Own(log, t)) != []
    ensures exists i :: 0 <= i < |log| && log[i].task == t && Uses(c, log[i].call)
  {
    BytesStep(log, c, t);
    if Last(log).task == t && Uses(c, Last(log).call) {
      assert log[|log| - 1].task == t;
    } else {
      BytesComeFrom(Front(log), c, t);
      var i :| 0 <= i < |Front(log)| && Front(log)[i].task == t && Uses(c, Front(log)[i].call);
      assert log[i].task == t;
    }
  }

  lemma SliceGrows<T>(all: seq<T>, piece: seq<T>, lo: nat, hi: nat)
    requires lo <= hi <= |all|
    ensures (all + piece)[lo..hi] == all[lo..hi]
    ensures (all + piece)[lo..|all + piece|] == all[lo..|all|] + piece
    ensures (all + piece)[|all|..|all + piece|] == piece
  {
  }

  lemma {:induction false} FindSegment(log: seq<Entry>, t: nat, c: ConchId) returns (lo: nat, hi: nat)
    requires Exclusive(log, c)
    ensures lo <= hi <= |Bytes(c, Calls(log))|
    ensures Bytes(c, Calls(log))[lo..hi] == Bytes(c, Own(log, t))
    ensures Turn(log, c) == t ==> hi == |Bytes(c, Calls(log))|
  {
    if log == [] {
      return 0, 0;
    }
    var all, own, piece := Bytes(c, Calls(Front(log))), Bytes(c, Own(Front(log), t)), Piece(c, Last(log).call);
    lo, hi := FindSegment(Front(log), t, c);
    BytesStep(log, c, t);
    SliceGrows(all, piece, lo, hi);
    if Uses(c, Last(log).call) && Last(log).task == t {
      if own == [] {
        lo := |all|;
        assert own + piece == piece;
      } else {
        BytesComeFrom(Front(log), c, t);
        TurnIsOwn(log, c, t);
      }
      hi := |Bytes(c, Calls(log))|;
    }
  }

  lemma TurnIsOwn(log: seq<Entry>, c: ConchId, t: nat)
    requires log != [] && Exclusive(log, c) && Uses(c, Last(log).call) && Last(log).task == t
    requires exists i :: 0 <= i < |Front(log)| && Front(log)[i].task == t && Uses(c, Front(log)[i].call)
    ensures Turn(Front(log), c) == t
  {
    var front := Front(log);
    var i :| 0 <= i < |front| && front[i].task == t && Uses(c, front[i].call);
    var j := TurnAt(front, c, t);
    assert log[i] == front[i] && log[j] == front[j] && log[|log| - 1] == Last(log);
  }

  /** What an operation reads is one contiguous piece of everything the port
      returned, and what it writes one piece of everything the port accepted. */
  lemma StreamsAreSegments(run: seq<Action>, s: State, t: nat, c: ConchId)
    requires IsRun(run, s) && t in s.tasks
    ensures exists lo, hi ::
      && 0 <= lo <= hi <= |Bytes(c, Calls(s.log))|
      && Bytes(c, Calls(s.log))[lo..hi] == Bytes(c, s.tasks[t].calls)
  {
    RunInv(run, s);
    assert ConchInv(s, c);
    var lo, hi := FindSegment(s.log, t, c);
  }

  lemma {:induction false} FollowsKinds(op: Op, calls: seq<Call>)
    requires Follows(op, calls)
    ensures forall c :: c in calls ==>
      (c.SetMode? ==> op.ModeOp?) && (c.Read? || c.SetTimeout? || c.Write? ==> !op.ModeOp?)
  {
    if calls != [] {
      FollowsKinds(op, Front(calls));
    }
  }

  /** Between two calls of one operation under a conch there is no call of
      another operation under it, and no mode change at all. */
  lemma NothingBetween(run: seq<Action>, s: State, i: nat, j: nat, k: nat, c: ConchId)
    requires IsRun(run, s) && i < j < k < |s.log| && s.log[i].task == s.log[k].task
    requires Uses(c, s.log[i].call) && Uses(c, s.log[k].call) && Uses(c, s.log[j].call)
    ensures s.log[j].task == s.log[i].task
    ensures !s.log[i].call.SetMode? ==> !s.log[j].call.SetMode?
  {
    RunInv(run, s);
    assert ConchInv(s, c);
    var t := s.log[i].task;
    OwnMembers(s.log, t);
    assert s.log[i].call in Own(s.log, t) && s.log[j].call in Own(s.log, t);
    assert t in s.tasks;
    FollowsKinds(s.tasks[t].op, s.tasks[t].calls);
  }

  /** Every read runs under the timeout its own operation has just set. */
  lemma TimeoutInForce(run: seq<Action>, s: State, i: nat)
    requires IsRun(run, s) && i < |s.log| && s.log[i].call.Read?
    ensures var own := Own(s.log[..i], s.log[i].task);
      Armed(own) && Last(own).wait == s.log[i].inForce
  {
    RunInv(run, s);
  }

  // ---- no deadlock ------------------------------------------------------------

  /** t cannot go on before u puts a token back. */
  predicate WaitsFor(s: State, t: nat, u: nat) {
    && t in s.tasks && u in s.tasks
    && ((s.tasks[t].phase.WaitingW? && s.tasks[u].hasW) || (s.tasks[t].phase.WaitingR? && s.tasks[u].hasR))
  }

  predicate WaitChain(s: State, path: seq<nat>) {
    forall i :: 0 <= i < |path| - 1 ==> WaitsFor(s, path[i], path[i + 1])
  }

  lemma TwoLinks(s: State, t: nat, u: nat, v: nat, w: nat)
    requires TasksInv(s) && WaitsFor(s, t, u) && WaitsFor(s, u, v)
    ensures !WaitsFor(s, v, w)
  {
  }

  /** Whoever waits for the write conch holds nothing, and whoever waits for
      the read conch does not hold it: chains of waiting tasks have at most two
      links and never close. */
  lemma NoWaitCycle(run: seq<Action>, s: State, path: seq<nat>)
    requires IsRun(run, s) && |path| >= 2 && WaitChain(s, path)
    ensures |path| <= 3 && path[0] != Last(path)
  {
    RunInv(run, s);
    assert WaitsFor(s, path[0], path[1]);
    if |path| >= 3 {
      assert WaitsFor(s, path[1], path[2]);
      if |path| >= 4 {
        TwoLinks(s, path[0], path[1], path[2], path[3]);
      }
    }
  }

  /** As long as an operation has not ended, some operation can take a step
      that is not a timeout. */
  lemma Progress(run: seq<Action>, s: State, t: nat)
    requires IsRun(run, s) && t in s.tasks && !s.tasks[t].phase.Ended?
    ensures exists a: Action :: !a.Spawn? && !a.GiveUp? && !a.Tick? && Enabled(s, a)
  {
    RunInv(run, s);
    if u :| u in s.tasks && s.tasks[u].phase.Leaving? {
      TokenConservation(run, s, u);
    } else if u :| u in s.tasks && s.tasks[u].phase.Running? {
      assert Enabled(s, Return(u));
    } else if u :| u in s.tasks && s.tasks[u].phase.WaitingR? {
      assert Holders(s, ReadConch) == {};
      assert Enabled(s, AcquireR(u));
    } else {
      assert Holders(s, WriteConch) == {};
      assert Enabled(s, AcquireW(t));
    }
  }

  /** How a task that leaves ends. */
  function Ending(k: Task, t: nat): seq<Action> {
    (if k.hasR then [ReleaseR(t)] else []) + (if k.hasW then [ReleaseW(t)] else []) + [Finish(t)]
  }

  /** Where that takes it. */
  function Departed(k: Task): Task {
    k.(phase := Ended, hasW := false, hasR := false, moves := k.moves + Returns(k))
  }

  /** Nor does an operation depend on the others to end: from every reachable
      state a waiting one can let its deadline pass, give up, put back what it
      holds and end, whatever the others do not do. */
  lemma {:induction false} WaiterCanEnd(run: seq<Action>, s: State, t: nat) returns (d: nat, s': State)
    requires IsRun(run, s) && t in s.tasks && (s.tasks[t].phase.WaitingW? || s.tasks[t].phase.WaitingR?)
    ensures IsRun(run + [Tick(d)] + [GiveUp(t)] + Ending(s.tasks[t], t), s')
    ensures s'.tasks == s.tasks[t := Departed(GivenUp(s.tasks[t]))] && s'.log == s.log
  {
    RunInv(run, s);
    assert Coherent(s.tasks[t]);
    d := Max(0, s.tasks[t].deadline - s.now);
    OneMore(run, s, Tick(d));
    var waited := Next(s, Tick(d));
    OneMore(run + [Tick(d)], waited, GiveUp(t));
    s' := LeaverEnds(run + [Tick(d)] + [GiveUp(t)], Next(waited, GiveUp(t)), t);
  }

  lemma {:induction false} LeaverEnds(run: seq<Action>, s: State, t: nat) returns (s': State)
    requires IsRun(run, s) && t in s.tasks && s.tasks[t].phase.Leaving?
    ensures IsRun(run + Ending(s.tasks[t], t), s')
    ensures s'.tasks == s.tasks[t := Departed(s.tasks[t])] && s'.log == s.log
  {
    HeldNotFree(run, s, t);
    var k := s.tasks[t];
    if k.hasR {
      OneMore(run, s, ReleaseR(t));
      var freed := Next(s, ReleaseR(t));
      s' := WriterEnds(run + [ReleaseR(t)], freed, t);
      assert run + [ReleaseR(t)] + Ending(freed.tasks[t], t) == run + Ending(k, t);
      assert freed.tasks[t].moves + Returns(freed.tasks[t]) == k.moves + Returns(k);
    } else {
      s' := WriterEnds(run, s, t);
    }
  }

  lemma {:induction false} WriterEnds(run: seq<Action>, s: State, t: nat) returns (s': State)
    requires IsRun(run, s) && t in s.tasks && s.tasks[t].phase.Leaving? && !s.tasks[t].hasR
    ensures IsRun(run + Ending(s.tasks[t], t), s')
    ensures s'.tasks == s.tasks[t := Departed(s.tasks[t])] && s'.log == s.log
  {
    HeldNotFree(run, s, t);
    var k := s.tasks[t];
    if k.hasW {
      OneMore(run, s, ReleaseW(t));
      var freed := Next(s, ReleaseW(t));
      OneMore(run + [ReleaseW(t)], freed, Finish(t));
      s' := Next(freed, Finish(t));
      assert run + [ReleaseW(t)] + [Finish(t)] == run + Ending(k, t);
    } else {
      OneMore(run, s, Finish(t));
      s' := Next(s, Finish(t));
      assert k.moves + [] == k.moves && run + [Finish(t)] == run + Ending(k, t);
    }
  }

  lemma OneMore(run: seq<Action>, s: State, a: Action)
    requires IsRun(run, s) && Enabled(s, a)
    ensures IsRun(run + [a], Next(s, a))
  {
    assert Front(run + [a]) == run && Last(run + [a]) == a;
  }

  // ---- the interleaving model and the loops ------------------------------------------

  /** Every operation that has ended has dealt with its conches like the
      methods of module SerialIO: it took them in that order, made all its calls
      with them in hand, and returned what it had taken. */
  lemma EndedConduct(run: seq<Action>, s: State, t: nat)
    requires IsRun(run, s) && t in s.tasks && s.tasks[t].phase.Ended?
    ensures Conduct(s.tasks[t].op, s.tasks[t].moves, 0, |s.tasks[t].calls|)
    ensures Follows(s.tasks[t].op, s.tasks[t].calls)
  {
    RunInv(run, s);
    MovesInRuns(run, s);
    assert Coherent(s.tasks[t]) && Behaved(s.tasks[t]);
  }

  /** The conches a new operation needs are free; whoever has the others. */
  predicate FreeFor(s: State, op: Op) {
    (Needs(op, ReadConch) ==> s.readTok == 1) && (Needs(op, WriteConch) ==> s.writeTok == 1)
  }

  /** It gets them, whatever the others are at. */
  lemma {:induction false} NewcomerStarts(run0: seq<Action>, s0: State, t: nat, op: Op, deadline: Time)
      returns (run: seq<Action>, s: State)
    requires IsRun(run0, s0) && t !in s0.tasks && FreeFor(s0, op)
    ensures IsRun(run, s) && run0 <= run && s.log == s0.log
    ensures s.tasks == s0.tasks[t := Task(op, deadline, Running, Needs(op, WriteConch), Needs(op, ReadConch), [],
                                          Taken(Needs(op, WriteConch), Needs(op, ReadConch)))]
  {
    run, s := NewcomerComes(run0, s0, t, op, deadline);
    if Needs(op, WriteConch) {
      run, s := NewcomerTakes(run, s, t, WriteConch);
    }
    if Needs(op, ReadConch) {
      run, s := NewcomerTakes(run, s, t, ReadConch);
    }
    assert s.tasks[t].moves == Taken(Needs(op, WriteConch), Needs(op, ReadConch));
  }

  function Equipped(k: Task, c: ConchId): Task {
    var m := k.Moved(Got(c, |k.calls|));
    if c.ReadConch? then m.(hasR := true, phase := Running)
    else m.(hasW := true, phase := if Needs(k.op, ReadConch) then WaitingR else Running)
  }

  lemma {:induction false} NewcomerTakes(run: seq<Action>, s: State, t: nat, c: ConchId)
      returns (run': seq<Action>, s': State)
    requires IsRun(run, s) && t in s.tasks && Tokens(s, c) == 1
    requires s.tasks[t].phase == if c.ReadConch? then WaitingR else WaitingW
    ensures IsRun(run', s') && run <= run' && s'.log == s.log
    ensures s'.tasks == s.tasks[t := Equipped(s.tasks[t], c)]
    ensures forall d :: d != c ==> Tokens(s', d) == Tokens(s, d)
  {
    var a := if c.ReadConch? then AcquireR(t) else AcquireW(t);
    OneMore(run, s, a);
    run', s' := run + [a], Next(s, a);
  }

  lemma {:induction false} NewcomerComes(run0: seq<Action>, s0: State, t: nat, op: Op, deadline: Time)
      returns (run: seq<Action>, s: State)
    requires IsRun(run0, s0) && t !in s0.tasks
    ensures IsRun(run, s) && run0 <= run && s.readTok == s0.readTok && s.writeTok == s0.writeTok && s.log == s0.log
    ensures s.tasks == s0.tasks[t := Task(op, deadline, if Needs(op, WriteConch) then WaitingW else WaitingR,
                                          false, false, [], [])]
  {
    OneMore(run0, s0, Spawn(t, op, deadline));
    run, s := run0 + [Spawn(t, op, deadline)], Next(s0, Spawn(t, op, deadline));
  }

  /** Whatever call sequence the loops of module SerialIO may produce, a task
      here can make it, at any time at which the conches it needs are free: the
      runs leave none of their behaviour out, and operations that need different
      conches do not keep each other out. */
  lemma {:induction false} EverySequenceRuns(run0: seq<Action>, s0: State, t: nat, op: Op, deadline: Time,
      calls: seq<Call>) returns (run: seq<Action>, s: State)
    requires IsRun(run0, s0) && t !in s0.tasks && FreeFor(s0, op) && Follows(op, calls)
    ensures IsRun(run, s) && run0 <= run && Calls(s.log) == Calls(s0.log) + calls
    ensures s.tasks == s0.tasks[t := Task(op, deadline, Running, Needs(op, WriteConch), Needs(op, ReadConch), calls,
                                          Taken(Needs(op, WriteConch), Needs(op, ReadConch)))]
    decreases calls
  {
    if calls == [] {
      run, s := NewcomerStarts(run0, s0, t, op, deadline);
      assert Calls(s0.log) + [] == Calls(s0.log);
    } else {
      run, s := EverySequenceRuns(run0, s0, t, op, deadline, Front(calls));
      run, s := NewcomerCalls(run, s0, s, t, calls);
    }
  }

  lemma {:induction false} NewcomerCalls(run: seq<Action>, s0: State, s: State, t: nat, calls: seq<Call>)
      returns (run': seq<Action>, s': State)
    requires IsRun(run, s) && calls != [] && t in s.tasks && s.tasks[t].calls == Front(calls)
    requires s.tasks[t].phase.Running? && Permits(s.tasks[t].op, Front(calls), Last(calls))
    requires Calls(s.log) == Calls(s0.log) + Front(calls)
    ensures IsRun(run', s') && run <= run' && s'.tasks == s.tasks[t := s.tasks[t].(calls := calls)]
    ensures Calls(s'.log) == Calls(s0.log) + calls
  {
    OneMore(run, s, Do(t, Last(calls)));
    run', s' := run + [Do(t, Last(calls))], Next(s, Do(t, Last(calls)));
    LogSnoc(s.log, Entry(t, Last(calls), s.timeout));
    assert Front(calls) + [Last(calls)] == calls;
  }

  /** An operation may give up at its first conch, ... */
  lemma {:induction false} GivesUpFirst(run0: seq<Action>, s0: State, t: nat, op: Op, deadline: Time)
      returns (run: seq<Action>, s: State)
    requires IsRun(run0, s0) && t !in s0.tasks
    ensures IsRun(run, s) && run0 <= run && s.log == s0.log
    ensures s.tasks == s0.tasks[t := Task(op, deadline, Ended, false, false, [],
                                          [GaveUp(if Needs(op, WriteConch) then WriteConch else ReadConch, 0)])]
  {
    run, s := NewcomerComes(run0, s0, t, op, deadline);
    var d, k := 0, s.tasks[t];
    d, s := WaiterCanEnd(run, s, t);
    run := run + [Tick(d)] + [GiveUp(t)] + Ending(k, t);
    assert s.tasks[t].moves == [GaveUp(if Needs(op, WriteConch) then WriteConch else ReadConch, 0)];
  }

  /** ... or at its second one. */
  lemma {:induction false} GivesUpLater(run0: seq<Action>, s0: State, t: nat, op: Op, deadline: Time)
      returns (run: seq<Action>, s: State)
    requires IsRun(run0, s0) && t !in s0.tasks && s0.writeTok == 1
    requires Needs(op, WriteConch) && Needs(op, ReadConch)
    ensures IsRun(run, s) && run0 <= run && s.log == s0.log
    ensures s.tasks == s0.tasks[t := Task(op, deadline, Ended, false, false, [],
                                          [Got(WriteConch, 0), GaveUp(ReadConch, 0), PutBack(WriteConch, 0)])]
  {
    run, s := NewcomerComes(run0, s0, t, op, deadline);
    OneMore(run, s, AcquireW(t));
    run, s := run + [AcquireW(t)], Next(s, AcquireW(t));
    var d, k := 0, s.tasks[t];
    d, s := WaiterCanEnd(run, s, t);
    run := run + [Tick(d)] + [GiveUp(t)] + Ending(k, t);
    assert s.tasks[t].moves == [Got(WriteConch, 0), GaveUp(ReadConch, 0), PutBack(WriteConch, 0)];
  }

  /** Whatever the methods of module SerialIO may do, calls and conches, is what
      a new operation does in some run, from any reachable state on in which the
      conches it is to get are free, while the others stay where they are. */
  lemma {:induction false} EveryConductRuns(run0: seq<Action>, s0: State, t: nat, op: Op, deadline: Time,
      calls: seq<Call>, moves: seq<Move>) returns (run: seq<Action>, s: State)
    requires IsRun(run0, s0) && t !in s0.tasks && Follows(op, calls) && Conduct(op, moves, 0, |calls|)
    requires forall c :: Got(c, 0) in moves ==> Tokens(s0, c) == 1
    ensures IsRun(run, s) && run0 <= run && Calls(s.log) == Calls(s0.log) + calls
    ensures s.tasks == s0.tasks[t := Task(op, deadline, Ended, false, false, calls, moves)]
  {
    GotWhich(s0, op, moves, |calls|);
    if |moves| == 1 {
      run, s := GivesUpFirst(run0, s0, t, op, deadline);
    } else if |moves| == 3 {
      run, s := GivesUpLater(run0, s0, t, op, deadline);
    } else {
      run, s := FullConductRuns(run0, s0, t, op, deadline, calls, moves);
    }
    assert calls == [] ==> Calls(s0.log) + calls == Calls(s0.log);
  }

  lemma {:induction false} FullConductRuns(run0: seq<Action>, s0: State, t: nat, op: Op, deadline: Time,
      calls: seq<Call>, moves: seq<Move>) returns (run: seq<Action>, s: State)
    requires IsRun(run0, s0) && t !in s0.tasks && Follows(op, calls) && FreeFor(s0, op)
    requires Conduct(op, moves, 0, |calls|) && |moves| != 1 && |moves| != 3
    ensures IsRun(run, s) && run0 <= run && Calls(s.log) == Calls(s0.log) + calls
    ensures s.tasks == s0.tasks[t := Task(op, deadline, Ended, false, false, calls, moves)]
  {
    ConductFull(op, deadline, calls, moves);
    run, s := EverySequenceRuns(run0, s0, t, op, deadline, calls);
    run, s := RunnerEnds(run, s, t);
  }

  lemma {:induction false} RunnerEnds(run: seq<Action>, s: State, t: nat) returns (run': seq<Action>, s': State)
    requires IsRun(run, s) && t in s.tasks && s.tasks[t].phase.Running?
    ensures IsRun(run', s') && run <= run' && s'.log == s.log
    ensures s'.tasks == s.tasks[t := Departed(s.tasks[t].(phase := Leaving))]
  {
    OneMore(run, s, Return(t));
    var left := Next(s, Return(t));
    s' := LeaverEnds(run + [Return(t)], left, t);
    run' := run + [Return(t)] + Ending(left.tasks[t], t);
  }

  lemma GotWhich(s0: State, op: Op, moves: seq<Move>, n: nat)
    requires Conduct(op, moves, 0, n) && forall c :: Got(c, 0) in moves ==> Tokens(s0, c) == 1
    ensures |moves| == 3 ==> Needs(op, WriteConch) && Needs(op, ReadConch) && s0.writeTok == 1
    ensures |moves| != 1 && |moves| != 3 ==> FreeFor(s0, op)
  {
    if |moves| > 1 {
      assert moves[0] in moves;
    }
    if |moves| == 4 {
      assert moves[1] in moves;
    }
  }

  lemma ConductFull(op: Op, deadline: Time, calls: seq<Call>, moves: seq<Move>)
    requires Conduct(op, moves, 0, |calls|) && |moves| != 1 && |moves| != 3
    ensures var w, r := Needs(op, WriteConch), Needs(op, ReadConch);
      Departed(Task(op, deadline, Leaving, w, r, calls, Taken(w, r)))
        == Task(op, deadline, Ended, false, false, calls, moves)
  {
  }
}
