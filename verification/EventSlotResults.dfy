/** What holds of an events callback slot and its watcher, for every run.

    A run that is not strict may also close a port whose open has not been
    reported yet. */
module EventSlotResults {
  import opened Basics
  import opened Events
  import opened EventSlots

  // ---- under any closes ----------------------------------------------------------------

  /** Once a Stop has returned from its wait, the watcher is over: whatever
      happens next, it emits nothing more and opens no further event. */
  lemma SilentAfterStop(run: seq<Action>, s: State, k: nat, acts: seq<Action>, s': State)
    requires IsRun(run, s, false) && k in s.closers && Past(s.closers[k]) && Leads(s, acts, s')
    ensures s'.watch.pc.Done?
    ensures |s'.watch.reports| == |s.watch.reports| && s'.watch.handles == s.watch.handles
  {
    RunInv(run, s, false);
    DoneStays(s, acts, s');
  }

  lemma {:induction false} DoneStays(s: State, acts: seq<Action>, s': State)
    requires s.watch.pc.Done? && !s.opener.Opening? && !s.opener.Opened? && Leads(s, acts, s')
    ensures s'.watch.pc.Done?
    ensures |s'.watch.reports| == |s.watch.reports| && s'.watch.handles == s.watch.handles
    decreases acts
  {
    if acts != [] {
      DoneStays(Next(s, acts[0]), acts[1..], s');
    }
  }

  /** The event of an iteration is closed once, and only the current one is
      still open. */
  lemma HandlesClosedOnce(run: seq<Action>, s: State, h: nat)
    requires IsRun(run, s, false) && h < |s.watch.handles|
    ensures s.watch.handles[h] == if Current(s.watch.pc) == Some(h) then 0 else 1
    ensures s.watch.pc.Done? ==> s.watch.handles[h] == 1
  {
    RunInv(run, s, false);
  }

  /** A live watcher never waits on a stop event that has been closed. */
  lemma StopEventOpenWhileWatched(run: seq<Action>, s: State)
    requires IsRun(run, s, false) && !s.watch.pc.Done?
    ensures s.stopCloses == 0
  {
    RunInv(run, s, false);
    assert StopsClosed(s.closers) == {};
  }

  /** Every error string is freed once, when its report has been delivered or
      refused; nothing that is still queued has been freed. */
  lemma {:induction false} ReportsFreedOnce(run: seq<Action>, s: State, r: nat)
    requires IsRun(run, s, false) && r < |s.watch.reports|
    ensures s.watch.reports[r].frees == if s.watch.reports[r].text && r !in Held(s.watch) then 1 else 0
    ensures NoDup(s.watch.queue) && |s.watch.queue| <= 16
  {
    RunInv(run, s, false);
    assert s.watch.queue == Held(s.watch)[..|s.watch.queue|];
  }

  /** Every report of the watcher finds its slot. */
  lemma EmitFindsSlot(run: seq<Action>, s: State)
    requires IsRun(run, s, false)
    ensures s.watch.missed == 0
    ensures s.watch.pc.Emitting? || s.watch.pc.InCall? ==> s.slot
  {
    RunInv(run, s, false);
    if !s.slot && SomeReleased(s.closers) {
      var k :| k in s.closers && s.closers[k].hasSlot && s.closers[k].stage.Finished?;
      assert Past(s.closers[k]);
    }
  }

  /** The slot is released at most once, and exactly when the open has given it
      back, because it failed or started no watcher, or when a close that read
      its id has finished. */
  lemma SlotReleasedOnce(run: seq<Action>, s: State)
    requires IsRun(run, s, false)
    ensures s.releases == if s.slot then 0 else 1
    ensures !s.slot <==>
      || ((s.opener.Telling? || s.opener.Told?) && !s.watched)
      || exists k :: k in s.closers && s.closers[k].hasSlot && s.closers[k].stage.Finished?
  {
    RunInv(run, s, false);
    assert SomeReleased(s.closers) <==>
      exists k :: k in s.closers && s.closers[k].hasSlot && s.closers[k].stage.Finished?;
  }

  /** So when the open has been reported and all closes have finished, the slot
      of a watched port is gone if and only if some close read its id, that is,
      came in after the watcher had been attached. */
  lemma SlotGoneIff(run: seq<Action>, s: State)
    requires IsRun(run, s, false) && s.opener.Told?
    requires forall k :: k in s.closers ==> s.closers[k].stage.Finished?
    ensures !s.slot <==> !s.watched || exists k :: k in s.closers && s.closers[k].hasSlot
  {
    SlotReleasedOnce(run, s);
    RunInv(run, s, false);
    if k :| k in s.closers && s.closers[k].hasSlot {
      assert s.closers[k].stage.Finished?;
    }
  }

  /** A close reads the slot id exactly if the watcher is attached when it comes
      in; nothing changes that later. */
  lemma {:induction false} ReadsSlotIff(s: State, k: nat, acts: seq<Action>, s': State)
    requires Enabled(s, CloseCall(k)) && Leads(Next(s, CloseCall(k)), acts, s')
    ensures k in s'.closers && s'.closers[k].hasSlot == s.watched
  {
    KeepsRead(Next(s, CloseCall(k)), k, acts, s');
  }

  lemma {:induction false} KeepsRead(s: State, k: nat, acts: seq<Action>, s': State)
    requires k in s.closers && Leads(s, acts, s')
    ensures k in s'.closers && s'.closers[k].hasSlot == s.closers[k].hasSlot
    decreases acts
  {
    if acts != [] {
      OneRead(s, k, acts[0]);
      KeepsRead(Next(s, acts[0]), k, acts[1..], s');
    }
  }

  lemma OneRead(s: State, k: nat, a: Action)
    requires k in s.closers && Enabled(s, a)
    ensures k in Next(s, a).closers && Next(s, a).closers[k].hasSlot == s.closers[k].hasSlot
  {
    match a
    case OnClose(j) => assert Next(s, a).closers == s.closers[j := Advance(s.closers[j], s.watched)];
    case CloseCall(_) =>
    case _ => assert Next(s, a).closers == s.closers;
  }

  /** Otherwise the slot is left behind for good: the port is closed, so no
      close can come in any more. */
  lemma {:induction false} LeakIsForGood(s: State, acts: seq<Action>, s': State)
    requires s.slot && !s.table && s.opener.Told? && Leads(s, acts, s')
    requires forall k :: k in s.closers ==> s.closers[k].stage.Finished?
    ensures s'.slot && s'.closers == s.closers
    decreases acts
  {
    if acts != [] {
      LeakIsForGood(Next(s, acts[0]), acts[1..], s');
    }
  }

  /** Where every close follows the report of its open, none is left behind. */
  lemma ClosedPortKeepsNoSlot(run: seq<Action>, s: State)
    requires IsRun(run, s, true) && s.closers != map[]
    requires forall k :: k in s.closers ==> s.closers[k].stage.Finished?
    ensures !s.slot
  {
    RunInv(run, s, true);
    var k :| k in s.closers;
    assert s.closers[k].hasSlot == s.watched;
  }

  /** Every close that found a watcher closes its stop event: when all have
      finished it was closed as often as that. Where every close follows the
      report of its open this is as often as the port, so once if and only if
      one close came in. */
  lemma StopEventClosedPerClose(run: seq<Action>, s: State, strict: bool)
    requires IsRun(run, s, strict) && forall k :: k in s.closers ==> s.closers[k].stage.Finished?
    ensures s.stopCloses == |set k | k in s.closers && s.closers[k].stopped|
    ensures strict ==> s.stopCloses == if s.watched then |s.closers| else 0
  {
    RunInv(run, s, strict);
    assert StopsClosed(s.closers) == set k | k in s.closers && s.closers[k].stopped;
    if strict {
      assert StopsClosed(s.closers) == if s.watched then s.closers.Keys else {};
    }
  }

  // ---- when Stop comes to an end ---------------------------------------------------------------

  /** The loop has seen a result that ends it, and only has to report it. */
  predicate Over(w: Watch) {
    match w.pc
    case Closing(_, seen) => Ends(seen)
    case Emitting(_, last) => last
    case InCall(_, last) => last
    case Done => true
    case _ => false
  }

  predicate SeesEnd(a: Action) {
    a.OnWatch? && a.work.Sees? && Final(a.work.c)
  }

  /** The loop is over if and only if such a result has come, whether the stop
      event is signalled or not. */
  lemma {:induction false} OverIff(s: State, acts: seq<Action>, s': State)
    requires Leads(s, acts, s') && !s.watch.pc.Absent?
    requires !s.opener.Opening? && !s.opener.Opened?
    ensures Over(s'.watch) <==> Over(s.watch) || exists a :: a in acts && SeesEnd(a)
    decreases acts
  {
    if acts != [] {
      OneOver(s, acts[0]);
      OverIff(Next(s, acts[0]), acts[1..], s');
      assert forall a :: a in acts <==> a == acts[0] || a in acts[1..];
    }
  }

  /** One step of the watcher itself. */
  lemma WatchOver(w: Watch, slot: bool, work: WatchStep)
    requires WatchEnabled(w, true, work)
    ensures var w' := WatchNext(w, slot, work);
      && !w'.pc.Absent?
      && (Over(w') <==> Over(w) || (work.Sees? && Ends(work.c)))
      && (Over(w) ==> Left(w') < Left(w))
  {
  }

  lemma {:induction false} OneOver(s: State, a: Action)
    requires Enabled(s, a) && !s.watch.pc.Absent? && !s.opener.Opening? && !s.opener.Opened?
    ensures var s' := Next(s, a);
      && !s'.watch.pc.Absent? && !s'.opener.Opening? && !s'.opener.Opened?
      && (Over(s'.watch) <==> Over(s.watch) || SeesEnd(a))
      && (Over(s.watch) ==> Left(s'.watch) + (if a.OnWatch? then 1 else 0) <= Left(s.watch))
  {
    if a.OnWatch? {
      WatchOver(s.watch, s.slot, a.work);
      if a.work.Sees? {
        EndsFinal(a.work.c);
      }
    } else {
      assert Next(s, a).watch.pc == s.watch.pc;
    }
  }

  /** What is left to do once it is over. */
  function Left(w: Watch): nat {
    match w.pc
    case Closing(_, _) => 3
    case Emitting(_, _) => 2
    case InCall(_, _) => 1
    case _ => 0
  }

  function WatchSteps(acts: seq<Action>): nat {
    if acts == [] then 0 else (if acts[0].OnWatch? then 1 else 0) + WatchSteps(acts[1..])
  }

  /** Then at most three more steps of the watcher follow, whatever they are,
      and until it is done one of them is enabled, or the loop thread can make
      room for it. */
  lemma {:induction false} WindsDown(s: State, acts: seq<Action>, s': State)
    requires Over(s.watch) && !s.opener.Opening? && !s.opener.Opened? && Leads(s, acts, s')
    ensures Over(s'.watch) && WatchSteps(acts) + Left(s'.watch) <= Left(s.watch) <= 3
    ensures s'.watch.pc.Done? <==> Left(s'.watch) == 0
    ensures HandleInv(s'.watch) && !s'.watch.pc.Done? ==>
      Enabled(s', Deliver) || exists work :: Enabled(s', OnWatch(work))
    decreases acts
  {
    if acts != [] {
      OneOver(s, acts[0]);
      WindsDown(Next(s, acts[0]), acts[1..], s');
    } else if !s.watch.pc.Done? && HandleInv(s.watch) {
      var work := match s.watch.pc
        case Closing(_, _) => CloseEvent
        case Emitting(_, _) => Find
        case _ => Post(false);
      assert Enabled(s, OnWatch(work));
    }
  }

  /** Nothing says that such a result comes. The stop event is looked at only
      after ERROR_IO_PENDING, and behind the event of the iteration: for every n
      there is a run with the stop event signalled and a close waiting in which
      the watcher goes on for n more iterations. */
  lemma {:induction false} StopMayWait(n: nat) returns (run: seq<Action>, s: State)
    ensures IsRun(run, s, true) && s.signalled && s.closers == map[0 := Closer(Awaiting, true, true)]
    ensures s.watch.pc.Creating? && |s.watch.handles| == n + 1
  {
    if n == 0 {
      run, s := ShowWaiting();
    } else {
      run, s := StopMayWait(n - 1);
      run, s := ShowIteration(run, s);
    }
  }

  lemma ShowWaiting() returns (run: seq<Action>, s: State)
    ensures IsRun(run, s, true) && s.signalled && s.closers == map[0 := Closer(Awaiting, true, true)]
    ensures s.watch.pc.Creating? && |s.watch.handles| == 1
  {
    run, s := ShowOpen();
    run, s := Show(run, s, CloseCall(0), true);
    run, s := Show(run, s, OnClose(0), true);
    run, s := Show(run, s, OnWatch(Sees(Signalled)), true);
    run, s := Show(run, s, OnWatch(Sees(Overlapped(None, 0))), true);
    run, s := Show(run, s, OnWatch(CloseEvent), true);
  }

  /** An iteration in which WaitCommEvent completes at once. */
  lemma {:induction false} ShowIteration(run0: seq<Action>, s0: State) returns (run: seq<Action>, s: State)
    requires IsRun(run0, s0, true) && s0.watch.pc.Creating?
    ensures IsRun(run, s, true) && s.watch.pc.Creating? && |s.watch.handles| == |s0.watch.handles| + 1
    ensures s == s0.(watch := s.watch)
  {
    run, s := Show(run0, s0, OnWatch(Sees(Create(None))), true);
    run, s := Show(run, s, OnWatch(Sees(Comm(None, 0))), true);
    run, s := Show(run, s, OnWatch(CloseEvent), true);
  }

  /** How far a signalled watcher is from its end, if no further event gets in
      between. */
  function Distance(w: Watch): nat {
    match w.pc
    case Emitting(_, _) => 9
    case InCall(_, _) => if |w.queue| < EVENT_QUEUE_DEPTH then 7 else 8
    case Masking => 6
    case Creating => 5
    case Starting(_) => 4
    case Waiting(_) => 3
    case Collecting(_) => 7
    case Closing(_, seen) => if Due(seen) == [] && Ends(seen) then 1 else if Due(seen) == [] then 6 else 10
    case _ => 0
  }

  /** The step that takes a signalled watcher on. */
  function Onward(w: Watch): Action {
    match w.pc
    case Masking => OnWatch(Sees(SetMask(None)))
    case Creating => OnWatch(Sees(Create(None)))
    case Starting(_) => OnWatch(Sees(Pending))
    case Waiting(_) => OnWatch(Sees(StopSeen))
    case Collecting(_) => OnWatch(Sees(Overlapped(None, 0)))
    case Closing(_, _) => OnWatch(CloseEvent)
    case Emitting(_, _) => OnWatch(Find)
    case _ => if |w.queue| < EVENT_QUEUE_DEPTH then OnWatch(Post(true)) else Deliver
  }

  lemma OnwardKeeps(s: State, strict: bool)
    requires Inv(s, strict) && Enabled(s, Onward(s.watch))
    ensures var s' := Next(s, Onward(s.watch));
      Inv(s', strict) && s' == s.(watch := s'.watch)
  {
    match Onward(s.watch)
    case OnWatch(work) => WatchKeeps(s, work, strict);
    case Deliver => DeliverKeeps(s, strict);
  }

  lemma OnwardNearer(s: State)
    requires HandleInv(s.watch) && ReportInv(s.watch) && s.signalled && !s.watch.pc.Absent? && !s.watch.pc.Done?
    ensures Enabled(s, Onward(s.watch))
    ensures var w := Next(s, Onward(s.watch)).watch;
      !w.pc.Absent? && Distance(w) < Distance(s.watch)
  {
  }

  /** If the system answers that way, a signalled watcher reaches its end within
      ten steps of its own and of the loop thread, even from a full queue. */
  lemma {:induction false} StopEnds(s: State, strict: bool) returns (acts: seq<Action>, s': State)
    requires Inv(s, strict) && s.signalled && !s.watch.pc.Absent?
    ensures Leads(s, acts, s') && |acts| <= Distance(s.watch) <= 10
    ensures forall a :: a in acts ==> a.OnWatch? || a.Deliver?
    ensures Inv(s', strict) && s'.watch.pc.Done? && s'.closers == s.closers
    decreases Distance(s.watch)
  {
    if s.watch.pc.Done? {
      return [], s;
    }
    OnwardNearer(s);
    OnwardKeeps(s, strict);
    var rest;
    rest, s' := StopEnds(Next(s, Onward(s.watch)), strict);
    acts := [Onward(s.watch)] + rest;
    assert acts[1..] == rest;
  }

  function Remaining(stage: Stage): nat {
    match stage
    case Called => 6
    case Awaiting => 5
    case ClosingStop => 4
    case PortClosing => 3
    case Removing => 2
    case Releasing => 1
    case Finished => 0
  }

  /** No state shuts a close out from finishing: there are at most sixteen steps
      that lead to it, without another close or a new open. Whether the system
      gives the results they need is another matter, see StopMayWait. */
  lemma {:induction false} CloseCanFinish(run: seq<Action>, s: State, k: nat) returns (acts: seq<Action>, s': State)
    requires IsRun(run, s, false) && k in s.closers
    ensures Leads(s, acts, s') && |acts| <= 16
    ensures forall a :: a in acts ==> a.OnWatch? || a.Deliver? || a == OnClose(k)
    ensures k in s'.closers && s'.closers[k].stage.Finished?
  {
    RunInv(run, s, false);
    acts, s' := CloseEnds(s, k);
  }

  lemma CloseOne(s: State, k: nat) returns (s': State)
    requires Inv(s, false) && CloseEnabled(s, k)
    ensures Enabled(s, OnClose(k)) && s' == Next(s, OnClose(k)) && Inv(s', false)
    ensures k in s'.closers && Remaining(s'.closers[k].stage) < Remaining(s.closers[k].stage)
  {
    s' := Next(s, OnClose(k));
    CloseKeeps(s, k, false);
  }

  /** How many steps a close needs. */
  function Needed(s: State, stage: Stage): nat {
    Remaining(stage) + if stage.Called? then 10 else if stage.Awaiting? then Distance(s.watch) else 0
  }

  lemma {:induction false} CloseEnds(s: State, k: nat) returns (acts: seq<Action>, s': State)
    requires Inv(s, false) && k in s.closers
    ensures Leads(s, acts, s') && |acts| <= Needed(s, s.closers[k].stage)
    ensures forall a :: a in acts ==> a.OnWatch? || a.Deliver? || a == OnClose(k)
    ensures k in s'.closers && s'.closers[k].stage.Finished?
    decreases Remaining(s.closers[k].stage), Distance(s.watch)
  {
    if s.closers[k].stage.Finished? {
      return [], s;
    }
    var a, s1 := OnClose(k), s;
    if CloseEnabled(s, k) {
      s1 := CloseOne(s, k);
    } else {
      OnwardNearer(s);
      OnwardKeeps(s, false);
      a, s1 := Onward(s.watch), Next(s, Onward(s.watch));
    }
    var rest;
    rest, s' := CloseEnds(s1, k);
    acts := [a] + rest;
    assert acts[1..] == rest;
  }

  // ---- what the code does not promise ----------------------------------------------------------

  lemma {:induction false} Show(run: seq<Action>, s: State, a: Action, strict: bool)
      returns (longer: seq<Action>, s': State)
    requires IsRun(run, s, strict) && Enabled(s, a) && (strict ==> Disciplined(s, a))
    ensures s' == Next(s, a) && IsRun(longer, s', strict)
  {
    longer, s' := run + [a], Next(s, a);
    assert Front(longer) == run && Last(longer) == a;
  }

  /** A port is open and watched, and the watcher waits. */
  lemma ShowOpen() returns (run: seq<Action>, s: State)
    ensures IsRun(run, s, true) && s.watched && s.table && s.slot && s.opener == Told(true)
    ensures s.watch == Watch(Waiting(0), [0], [], [], 0) && s.closers == map[] && !s.signalled && s.stopCloses == 0
  {
    run, s := [], INIT;
    run, s := Show(run, s, OnOpen(Open), true);
    run, s := Show(run, s, OnOpen(Start(true)), true);
    run, s := Show(run, s, OnOpen(Attach), true);
    run, s := Show(run, s, OnOpen(Tell), true);
    run, s := Show(run, s, OnWatch(Sees(SetMask(None))), true);
    run, s := Show(run, s, OnWatch(Sees(Create(None))), true);
    run, s := Show(run, s, OnWatch(Sees(Pending)), true);
  }

  /** Two closes have come in before the first one stops the watcher. */
  lemma ShowTwoCloses() returns (run: seq<Action>, s: State)
    ensures IsRun(run, s, true) && s.watched && s.slot && s.watch.pc.Done? && s.stopCloses == 0
    ensures s.closers == map[0 := Closer(Awaiting, true, true), 1 := Closer(Called, true, false)]
  {
    run, s := ShowOpen();
    run, s := Show(run, s, CloseCall(0), true);
    run, s := Show(run, s, CloseCall(1), true);
    run, s := Show(run, s, OnClose(0), true);
    run, s := Show(run, s, OnWatch(Sees(StopSeen)), true);
    run, s := Show(run, s, OnWatch(CloseEvent), true);
  }

  /** Two closes that overlap close the stop event twice. */
  lemma DoubleCloseClosesTwice() returns (run: seq<Action>, s: State)
    ensures IsRun(run, s, true) && s.stopCloses == 2
  {
    run, s := ShowTwoCloses();
    run, s := Show(run, s, OnClose(0), true);
    run, s := Show(run, s, OnClose(0), true);
    run, s := Show(run, s, OnClose(1), true);
    run, s := Show(run, s, OnClose(1), true);
    run, s := Show(run, s, OnClose(1), true);
  }

  /** A close comes in between manager.Open and StartEvents, and goes on when
      the watcher is attached. */
  lemma ShowEarlyClose() returns (run: seq<Action>, s: State)
    ensures IsRun(run, s, false) && s.watched && s.table && s.slot && s.opener == Told(true) && s.signalled
    ensures s.watch == Watch(Masking, [], [], [], 0) && s.closers == map[0 := Closer(Awaiting, false, true)]
  {
    run, s := [], INIT;
    run, s := Show(run, s, OnOpen(Open), false);
    run, s := Show(run, s, CloseCall(0), false);
    run, s := Show(run, s, OnOpen(Start(true)), false);
    run, s := Show(run, s, OnOpen(Attach), false);
    run, s := Show(run, s, OnOpen(Tell), false);
    run, s := Show(run, s, OnClose(0), false);
  }

  /** An instance of what SlotGoneIff shuts out: such a close reads no slot id,
      stops the watcher and leaves the slot behind. */
  lemma EarlyCloseLeaksSlot() returns (run: seq<Action>, s: State)
    ensures IsRun(run, s, false) && s.slot && !s.table && s.opener == Told(true) && s.watch.pc.Done?
    ensures s.closers == map[0 := Closer(Finished, false, true)]
  {
    run, s := ShowEarlyClose();
    run, s := Show(run, s, OnWatch(Sees(SetMask(None))), false);
    run, s := Show(run, s, OnWatch(Sees(Create(None))), false);
    run, s := Show(run, s, OnWatch(Sees(Pending)), false);
    run, s := Show(run, s, OnWatch(Sees(StopSeen)), false);
    run, s := Show(run, s, OnWatch(CloseEvent), false);
    run, s := ShowRest(run, s);
  }

  lemma ShowRest(run0: seq<Action>, s0: State) returns (run: seq<Action>, s: State)
    requires IsRun(run0, s0, false) && s0.watch.pc.Done? && s0.closers == map[0 := Closer(Awaiting, false, true)]
    ensures IsRun(run, s, false) && s.closers == map[0 := Closer(Finished, false, true)]
    ensures s.watch == s0.watch && s.slot == s0.slot && s.opener == s0.opener && !s.table
  {
    run, s := ShowStopped(run0, s0);
    run, s := ShowClose(run, s);
    run, s := ShowClose(run, s);
    run, s := ShowClose(run, s);
  }

  lemma {:induction false} ShowStopped(run0: seq<Action>, s0: State) returns (run: seq<Action>, s: State)
    requires IsRun(run0, s0, false) && s0.watch.pc.Done? && s0.closers == map[0 := Closer(Awaiting, false, true)]
    ensures IsRun(run, s, false) && s.closers == map[0 := Closer(PortClosing, false, true)]
    ensures s.watch == s0.watch && s.slot == s0.slot && s.opener == s0.opener
  {
    run, s := ShowClose(run0, s0);
    run, s := ShowClose(run, s);
  }

  lemma {:induction false} ShowClose(run: seq<Action>, s: State) returns (longer: seq<Action>, s': State)
    requires IsRun(run, s, false) && CloseEnabled(s, 0) && !s.closers[0].hasSlot
    ensures IsRun(longer, s', false) && s'.closers == s.closers[0 := Advance(s.closers[0], s.watched)]
    ensures s'.watch == s.watch && s'.slot == s.slot && s'.opener == s.opener
    ensures s'.table == (s.table && !s.closers[0].stage.Removing?)
  {
    longer, s' := Show(run, s, OnClose(0), false);
  }
}
