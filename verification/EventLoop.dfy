/** The comm-event watcher loop against an abstract operating system. Whatever
    the system does, the loop moves as the watcher of module EventSlots may. */
module EventLoop {
  import opened Basics
  import opened Events
  import opened EventSlots
  import EventSlotResults

  /** A step of the watcher, with what it found, or the delivery of a report by
      the loop thread. */
  datatype Move = Own(work: WatchStep, signalled: bool, slot: bool) | Delivery

  predicate CanMove(w: Watch, m: Move) {
    match m
    case Own(work, signalled, _) => WatchEnabled(w, signalled, work)
    case Delivery => w.queue != []
  }

  function Moved(w: Watch, m: Move): Watch
    requires CanMove(w, m)
  {
    match m
    case Own(work, _, slot) => WatchNext(w, slot, work)
    case Delivery => Delivered(w)
  }

  /** Where these moves take a watcher that starts, if it can make them. */
  function After(path: seq<Move>): Option<Watch> {
    if path == [] then Some(Watch(Masking, [], [], [], 0))
    else
      var w := After(Front(path));
      if w.Some? && CanMove(w.value, Last(path)) then Some(Moved(w.value, Last(path))) else None
  }

  /** What the results seen on the way demand to be reported. */
  function Demands(path: seq<Move>): seq<Report> {
    if path == [] then [] else Demands(Front(path)) + DueAt(Last(path))
  }

  function DueAt(m: Move): seq<Report> {
    if m.Own? && m.work.Sees? then Due(m.work.c) else []
  }

  /** The results seen on the way. */
  function Seen(path: seq<Move>): seq<OsCall> {
    if path == [] then [] else Seen(Front(path)) + SeenAt(Last(path))
  }

  function SeenAt(m: Move): seq<OsCall> {
    if m.Own? && m.work.Sees? then [m.work.c] else []
  }

  /** The loop is over if and only if the last result is a final one, and no
      earlier one is. */
  predicate FinalAt(seen: seq<OsCall>, over: bool) {
    && (over <==> seen != [] && Final(Last(seen)))
    && forall i :: 0 <= i < |seen| - 1 ==> !Final(seen[i])
  }

  /** The watcher is over after a final result, and sees none after it. */
  lemma {:induction false} OverAfterFinal(path: seq<Move>)
    requires After(path).Some?
    ensures !After(path).value.pc.Absent? && FinalAt(Seen(path), EventSlotResults.Over(After(path).value))
    decreases path
  {
    if path != [] {
      OverAfterFinal(Front(path));
      OneFinal(After(Front(path)).value, Last(path), Seen(Front(path)));
    }
  }

  lemma OneFinal(w: Watch, m: Move, seen: seq<OsCall>)
    requires CanMove(w, m) && !w.pc.Absent?
    requires FinalAt(seen, EventSlotResults.Over(w))
    ensures !Moved(w, m).pc.Absent? && FinalAt(seen + SeenAt(m), EventSlotResults.Over(Moved(w, m)))
  {
    if m.Own? {
      EventSlotResults.WatchOver(w, m.slot, m.work);
      if m.work.Sees? {
        EndsFinal(m.work.c);
      }
    }
    if SeenAt(m) == [] {
      assert seen + SeenAt(m) == seen;
    }
  }

  lemma AfterOne(path: seq<Move>, m: Move)
    requires After(path).Some? && CanMove(After(path).value, m)
    ensures After(path + [m]) == Some(Moved(After(path).value, m))
    ensures Demands(path + [m]) == Demands(path) + DueAt(m)
  {
    assert Front(path + [m]) == path;
  }

  /** In every run of EventSlots the watcher, once started, has made such
      moves. */
  lemma {:induction false} RunIsPath(run: seq<Action>, s: State, strict: bool) returns (path: seq<Move>)
    requires IsRun(run, s, strict)
    ensures s.opener.Opening? || s.opener.Opened? ==> s.watch == INIT.watch
    ensures s.watch == INIT.watch || After(path) == Some(s.watch)
    decreases run
  {
    path := [];
    if run != [] {
      var a := Last(run);
      var before :| IsRun(Front(run), before, strict) && Enabled(before, a) && s == Next(before, a);
      var path0 := RunIsPath(Front(run), before, strict);
      path := StepIsPath(before, a, path0);
    }
  }

  lemma StepIsPath(s: State, a: Action, path: seq<Move>) returns (path': seq<Move>)
    requires Enabled(s, a)
    requires s.opener.Opening? || s.opener.Opened? ==> s.watch == INIT.watch
    requires s.watch == INIT.watch || After(path) == Some(s.watch)
    ensures var s' := Next(s, a);
      && (s'.opener.Opening? || s'.opener.Opened? ==> s'.watch == INIT.watch)
      && (s'.watch == INIT.watch || After(path') == Some(s'.watch))
  {
    match a
    case OnWatch(work) =>
      AfterOne(path, Own(work, s.signalled, s.slot));
      path' := path + [Own(work, s.signalled, s.slot)];
    case Deliver =>
      AfterOne(path, Delivery);
      path' := path + [Delivery];
    case OnOpen(step) => path' := if step.Start? then [] else path;
    case _ => path' := path;
  }

  // ---- the loop as code -----------------------------------------------------------------

  /** The reports of the model carry an error string where these do. */
  predicate Aligned(due: seq<Report>, reports: seq<Emitted>) {
    |due| == |reports| && forall i :: 0 <= i < |due| ==> reports[i].text == due[i].Trouble?
  }

  /** The system as one watcher uses it: `path` is what the watcher of the model
      has done so far, `due` what the results on it demand to be reported,
      `turns` counts the iterations. A call can be made only where the model has
      it. */
  class Os {
    var nextHandle: nat
    var turns: nat
    ghost var reports: seq<Report>
    ghost var path: seq<Move>
    ghost var due: seq<Report>
    ghost var watch: Watch

    ghost predicate OnPath()
      reads this`path, this`due, this`watch
    {
      After(path) == Some(watch) && due == Demands(path) && HandleInv(watch)
    }

    ghost predicate Valid()
      reads this
    {
      OnPath() && nextHandle == |watch.handles|
    }

    ghost method Go(m: Move)
      requires OnPath() && CanMove(watch, m)
      modifies this`path, this`due, this`watch
      ensures OnPath() && watch == Moved(old(watch), m) && due == old(due) + DueAt(m)
      ensures DueAt(m) == [] ==> due == old(due)
    {
      AfterOne(path, m);
      if m.Own? {
        WatchKeepsHandles(watch, m.slot, m.work);
      }
      path, due, watch := path + [m], due + DueAt(m), Moved(watch, m);
    }

    /** Everything the results demand is reported, and the watcher of the model
        is here. */
    ghost predicate At(pc: Watcher)
      reads this
    {
      Valid() && due == reports && Aligned(due, watch.reports) && watch.pc == pc
    }

    /** All but what this result demands, and first its event is to be closed. */
    ghost predicate Facing(h: nat, c: OsCall)
      reads this
    {
      Valid() && due == reports + Due(c) && Aligned(reports, watch.reports) && watch.pc == Closing(h, c)
    }

    /** All but what this result demands; the watcher of the model is about to
        report it as well, and then over or at its next iteration. */
    ghost predicate Owes(c: OsCall)
      reads this
    {
      && Valid() && due == reports + Due(c) && Aligned(due, watch.reports)
      && watch.pc == if Due(c) == [] then Around(Ends(c)) else Emitting(|reports|, Ends(c))
    }

    /** This result has come in. */
    ghost method Give(c: OsCall)
      requires OnPath() && WatchEnabled(watch, true, Sees(c))
      modifies this`path, this`due, this`watch
      ensures OnPath() && due == old(due) + Due(c) && (Due(c) == [] ==> due == old(due))
      ensures watch == WatchNext(old(watch), true, Sees(c))
    {
      Go(Own(Sees(c), true, true));
    }

    method SetCommMask() returns (err: Option<OsError>)
      requires At(Masking)
      modifies this`path, this`due, this`watch
      ensures due == old(due) + Due(SetMask(err)) && Owes(SetMask(err))
    {
      err := *;
      Give(SetMask(err));
    }

    /** A new handle is open until CloseHandle. */
    method CreateEvent() returns (h: nat, err: Option<OsError>)
      requires At(Creating)
      modifies this`path, this`due, this`watch, this`turns, this`nextHandle
      ensures due == old(due) + Due(Create(err)) && turns == old(turns) + 1
      ensures if err.Some? then Owes(Create(err)) else At(Starting(h))
    {
      err := *;
      h := nextHandle;
      turns := turns + 1;
      Give(Create(err));
      if !err.Some? {
        nextHandle := nextHandle + 1;
      }
    }

    /** What was seen through the event is dealt with next. */
    method CloseHandle(h: nat, ghost c: OsCall)
      requires Facing(h, c)
      modifies this`path, this`due, this`watch
      ensures Owes(c)
    {
      Go(Own(CloseEvent, false, true));
    }

    /** Waits on an event of an open handle; may complete at once. */
    method WaitCommEvent(h: nat) returns (pending: bool, err: Option<OsError>, mask: nat)
      requires At(Starting(h))
      modifies this`path, this`due, this`watch
      ensures due == old(due) + Due(if pending then Pending else Comm(err, mask))
      ensures if pending then At(Waiting(h)) else Facing(h, Comm(err, mask))
    {
      pending, err, mask := *, *, *;
      Give(if pending then Pending else Comm(err, mask));
    }

    method WaitForMultipleObjects(h: nat) returns (stop: bool, err: Option<OsError>)
      requires At(Waiting(h))
      modifies this`path, this`due, this`watch
      ensures due == old(due) + if err.Some? then Due(WaitFailed(err.value)) else []
      ensures if err.Some? then Facing(h, WaitFailed(err.value))
              else if stop then Facing(h, StopSeen)
              else At(Collecting(h))
    {
      err, stop := *, *;
      Give(if err.Some? then WaitFailed(err.value) else if stop then StopSeen else Signalled);
    }

    method GetOverlappedResult(h: nat) returns (err: Option<OsError>, mask: nat)
      requires At(Collecting(h))
      modifies this`path, this`due, this`watch
      ensures due == old(due) + Due(Overlapped(err, mask)) && Facing(h, Overlapped(err, mask))
    {
      err, mask := *, *;
      Give(Overlapped(err, mask));
    }

    /** A move of the watcher or of the loop thread that opens and closes no event
        and sees no result keeps what is due. */
    ghost method Pass(m: Move)
      requires Valid() && CanMove(watch, m) && Aligned(due, watch.reports)
      requires m.Own? ==> m.work.Find? || m.work.Post?
      modifies this`path, this`due, this`watch
      ensures Valid() && Aligned(due, watch.reports) && due == old(due) && watch == Moved(old(watch), m)
    {
      Go(m);
    }

    /** The loop thread may deliver what is queued. */
    ghost method Meanwhile()
      requires Valid() && Aligned(due, watch.reports)
      modifies this`path, this`due, this`watch
      ensures Valid() && Aligned(due, watch.reports) && due == old(due) && watch.pc == old(watch).pc
      decreases |watch.queue|
    {
      var some: bool := *;
      if some && watch.queue != [] {
        Pass(Delivery);
        Meanwhile();
      }
    }

    /** fsp_emit_event with what c demands. */
    method Emit(r: Report, ghost c: OsCall)
      requires Owes(c) && Due(c) == [r]
      modifies this`reports, this`path, this`due, this`watch
      ensures reports == old(reports) + [r] && At(Around(Ends(c)))
    {
      ghost var slot: bool, ok: bool := *, *;
      Meanwhile();
      Pass(Own(Find, false, slot));
      if slot {
        Meanwhile();
        Pass(Own(Post(ok && |watch.queue| < EVENT_QUEUE_DEPTH), false, true));
      }
      reports := reports + [r];
    }
  }

  lemma Concluded(os: Os, done: bool)
    requires os.At(Around(done))
    ensures FinalAt(Seen(os.path), done)
  {
    OverAfterFinal(os.path);
  }

  /** run, up to any number of iterations: what is emitted is exactly what the
      results demand, in order, and the watcher of the model has done the same.
      Every handle it creates is closed once. It ends with the first result that
      says so, and if none does it goes on. */
  method Run(os: Os, limit: nat) returns (done: bool)
    requires os.At(Masking)
    modifies os
    ensures os.At(Around(done))
    ensures forall h :: 0 <= h < |os.watch.handles| ==> os.watch.handles[h] == 1
    ensures FinalAt(Seen(os.path), done)
    ensures os.turns <= old(os.turns) + limit && (!done ==> os.turns == old(os.turns) + limit)
  {
    var err := os.SetCommMask();
    if err.Some? {
      os.Emit(Trouble(Errno(err.value)), SetMask(err));
      Concluded(os, true);
      return true;
    }
    done := false;
    var end := os.turns + limit;
    while !done && os.turns < end
      invariant os.At(Around(done)) && os.turns <= old(os.turns) + limit
      decreases end - os.turns
    {
      done := Turn(os);
    }
    Concluded(os, done);
  }

  /** One iteration. */
  method Turn(os: Os) returns (done: bool)
    requires os.At(Creating)
    modifies os
    ensures os.At(Around(done)) && os.turns == old(os.turns) + 1
    ensures FinalAt(Seen(os.path), done)
  {
    var hEvent, err := os.CreateEvent();
    if err.Some? {
      os.Emit(Trouble(Errno(err.value)), Create(err));
      Concluded(os, true);
      return true;
    }
    done := Await(os, hEvent);
    Concluded(os, done);
  }

  /** The wait on this event. */
  method Await(os: Os, hEvent: nat) returns (done: bool)
    requires os.At(Starting(hEvent))
    modifies os`reports, os`path, os`due, os`watch
    ensures os.At(Around(done))
  {
    var pending, err, mask := os.WaitCommEvent(hEvent);
    if pending {
      done := AwaitSignal(os, hEvent);
    } else {
      done := Conclude(os, hEvent, err, mask, Comm(err, mask));
    }
  }

  /** The same when it did not complete at once: until the event or the stop
      event is signalled. */
  method AwaitSignal(os: Os, hEvent: nat) returns (done: bool)
    requires os.At(Waiting(hEvent))
    modifies os`reports, os`path, os`due, os`watch
    ensures os.At(Around(done))
  {
    var stop, werr := os.WaitForMultipleObjects(hEvent);
    if werr.Some? {
      os.CloseHandle(hEvent, WaitFailed(werr.value));
      os.Emit(Trouble(Errno(werr.value)), WaitFailed(werr.value));
      return true;
    }
    if stop {
      os.CloseHandle(hEvent, StopSeen);
      return true;
    }
    var err, mask := os.GetOverlappedResult(hEvent);
    done := Conclude(os, hEvent, err, mask, Overlapped(err, mask));
  }

  /** The end of it: the wait came back with `seen`. */
  method Conclude(os: Os, hEvent: nat, err: Option<OsError>, mask: nat, ghost seen: OsCall) returns (done: bool)
    requires os.Facing(hEvent, seen) && (seen == Comm(err, mask) || seen == Overlapped(err, mask))
    modifies os`reports, os`path, os`due, os`watch
    ensures os.At(Around(done))
  {
    os.CloseHandle(hEvent, seen);
    if err.Some? {
      os.Emit(Trouble(Errno(err.value)), seen);
      return IsFatal(err.value);
    }
    if mask != 0 {
      os.Emit(Event(mask), seen);
    } else {
      assert os.reports + [] == os.reports;
    }
    return false;
  }
}
