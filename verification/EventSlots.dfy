/** The life of one port's events callback slot: the open that registers it,
    the watcher that emits through it, and any number of closes. */
module EventSlots {
  import opened Basics
  import opened Events

  const EVENT_QUEUE_DEPTH := 16

  /** fsp_open_async: inside manager.Open, before the watcher is started, before
      it is attached to the handle, before the slot is released because it is
      not needed, before the completion call, after it. The handle is looked up
      before Start; when the watcher starts, a close may have removed its id. */
  datatype Opener = Opening | Opened | Attaching | Giving(ok: bool) | Telling(ok: bool) | Told(ok: bool)

  datatype OpenStep = Fail | Open | Start(ok: bool) | Attach | GiveBack | Tell

  /** The watcher goroutine, with the event of its current iteration. `Done`
      also means that the done channel is closed. */
  datatype Watcher =
    | Absent | Masking | Creating | Starting(h: nat) | Waiting(h: nat) | Collecting(h: nat)
    | Closing(h: nat, seen: OsCall) | Emitting(r: nat, last: bool) | InCall(r: nat, last: bool) | Done

  datatype WatchStep = Sees(c: OsCall) | CloseEvent | Find | Post(ok: bool)

  /** An emitted report: whether it carries an error string, and how often that
      was freed. */
  datatype Emitted = Emitted(text: bool, frees: nat)

  datatype Stage = Called | Awaiting | ClosingStop | PortClosing | Removing | Releasing | Finished

  /** fsp_close_async: `hasSlot` is eventCbID != 0 as read at the call,
      `stopped` that there was a watcher to stop. */
  datatype Closer = Closer(stage: Stage, hasSlot: bool, stopped: bool)

  /** The watcher's side: where it is, how often each event of an iteration was
      closed, what was emitted and is still queued, and how many reports found
      no slot. */
  datatype Watch = Watch(pc: Watcher, handles: seq<nat>, reports: seq<Emitted>, queue: seq<nat>, missed: nat)

  /** `table` is the manager's entry for the port, `slot` the entry of g_tsfns
      for its events, `watched` that the handle has its watcher and slot id. */
  datatype State = State(
    opener: Opener, table: bool, slot: bool, releases: nat, watched: bool, signalled: bool, stopCloses: nat,
    watch: Watch, closers: map<nat, Closer>)

  const INIT := State(Opening, false, true, 0, false, false, 0, Watch(Absent, [], [], [], 0), map[])

  datatype Action = OnOpen(step: OpenStep) | OnWatch(work: WatchStep) | Deliver | CloseCall(k: nat) | OnClose(k: nat)

  predicate OpenEnabled(s: State, step: OpenStep) {
    match step
    case Fail => s.opener.Opening?
    case Open => s.opener.Opening?
    case Start(_) => s.opener.Opened?
    case Attach => s.opener.Attaching?
    case GiveBack => s.opener.Giving?
    case Tell => s.opener.Telling?
  }

  /** releaseTsfn: a second release finds nothing. */
  function Release(s: State): State {
    if s.slot then s.(slot := false, releases := s.releases + 1) else s
  }

  function OpenNext(s: State, step: OpenStep): State
    requires OpenEnabled(s, step)
  {
    match step
    case Fail => s.(opener := Giving(false))
    case Open => s.(opener := Opened, table := true)
    case Start(ok) =>
      if ok then s.(opener := Attaching, watch := s.watch.(pc := Masking)) else s.(opener := Giving(true))
    case Attach => s.(opener := Telling(true), watched := true)
    case GiveBack => Release(s).(opener := Telling(s.opener.ok))
    case Tell => s.(opener := Told(s.opener.ok))
  }

  predicate WatchEnabled(w: Watch, signalled: bool, work: WatchStep) {
    match work
    case Sees(c) =>
      (match w.pc
       case Masking => c.SetMask?
       case Creating => c.Create?
       case Starting(_) => c.Pending? || c.Comm?
       case Waiting(_) => c.WaitFailed? || c.Signalled? || (c.StopSeen? && signalled)
       case Collecting(_) => c.Overlapped?
       case _ => false)
    case CloseEvent => w.pc.Closing? && w.pc.h < |w.handles|
    case Find => w.pc.Emitting?
    case Post(ok) => w.pc.InCall? && (ok ==> |w.queue| < EVENT_QUEUE_DEPTH)
  }

  /** After a result has been dealt with up to its report. */
  function Follow(w: Watch, c: OsCall): Watch {
    if Due(c) != [] then
      w.(pc := Emitting(|w.reports|, Ends(c)), reports := w.reports + [Emitted(Due(c)[0].Trouble?, 0)])
    else w.(pc := Around(Ends(c)))
  }

  function Around(last: bool): Watcher {
    if last then Done else Creating
  }

  function FreeText(reports: seq<Emitted>, r: nat): (after: seq<Emitted>)
    ensures |after| == |reports|
  {
    if r < |reports| && reports[r].text then reports[r := reports[r].(frees := reports[r].frees + 1)] else reports
  }

  function WatchNext(w: Watch, slot: bool, work: WatchStep): Watch
    requires WatchEnabled(w, true, work)
  {
    match work
    case Sees(c) =>
      (match w.pc
       case Masking => Follow(w, c)
       case Creating =>
         if c.err.Some? then Follow(w, c) else w.(pc := Starting(|w.handles|), handles := w.handles + [0])
       case Starting(h) => w.(pc := if c.Pending? then Waiting(h) else Closing(h, c))
       case Waiting(h) => w.(pc := if c.Signalled? then Collecting(h) else Closing(h, c))
       case Collecting(h) => w.(pc := Closing(h, c)))
    case CloseEvent => Follow(w.(handles := w.handles[w.pc.h := w.handles[w.pc.h] + 1]), w.pc.seen)
    case Find =>
      if slot then w.(pc := InCall(w.pc.r, w.pc.last))
      else w.(pc := Around(w.pc.last), reports := FreeText(w.reports, w.pc.r), missed := w.missed + 1)
    case Post(ok) =>
      if ok then w.(pc := Around(w.pc.last), queue := w.queue + [w.pc.r])
      else w.(pc := Around(w.pc.last), reports := FreeText(w.reports, w.pc.r))
  }

  /** The loop thread reports the oldest one to JS. */
  function Delivered(w: Watch): Watch
    requires w.queue != []
  {
    w.(queue := w.queue[1..], reports := FreeText(w.reports, w.queue[0]))
  }

  predicate CloseEnabled(s: State, k: nat) {
    && k in s.closers && !s.closers[k].stage.Finished?
    && (s.closers[k].stage.Awaiting? ==> s.watch.pc.Done?)
  }

  function Advance(q: Closer, watched: bool): Closer {
    match q.stage
    case Called => if watched then q.(stage := Awaiting, stopped := true) else q.(stage := PortClosing)
    case Awaiting => q.(stage := ClosingStop)
    case ClosingStop => q.(stage := PortClosing)
    case PortClosing => q.(stage := Removing)
    case Removing => q.(stage := Releasing)
    case _ => q.(stage := Finished)
  }

  function CloseNext(s: State, k: nat): State
    requires CloseEnabled(s, k)
  {
    var q := s.closers[k];
    var s1 := s.(closers := s.closers[k := Advance(q, s.watched)],
                 signalled := s.signalled || (q.stage.Called? && s.watched),
                 stopCloses := s.stopCloses + (if q.stage.ClosingStop? then 1 else 0),
                 table := s.table && !q.stage.Removing?);
    if q.stage.Releasing? && q.hasSlot then Release(s1) else s1
  }

  predicate Enabled(s: State, a: Action) {
    match a
    case OnOpen(step) => OpenEnabled(s, step)
    case OnWatch(work) => WatchEnabled(s.watch, s.signalled, work)
    case Deliver => s.watch.queue != []
    case CloseCall(k) => k !in s.closers && s.table
    case OnClose(k) => CloseEnabled(s, k)
  }

  function Next(s: State, a: Action): State
    requires Enabled(s, a)
  {
    match a
    case OnOpen(step) => OpenNext(s, step)
    case OnWatch(work) => s.(watch := WatchNext(s.watch, s.slot, work))
    case Deliver => s.(watch := Delivered(s.watch))
    case CloseCall(k) => s.(closers := s.closers[k := Closer(Called, s.watched, false)])
    case OnClose(k) => CloseNext(s, k)
  }

  /** A caller closes only an id that an open has reported to it. */
  predicate Disciplined(s: State, a: Action) {
    a.CloseCall? ==> s.opener.Told?
  }

  ghost predicate IsRun(run: seq<Action>, s: State, strict: bool) {
    if run == [] then s == INIT
    else exists before ::
      && IsRun(Front(run), before, strict)
      && Enabled(before, Last(run))
      && (strict ==> Disciplined(before, Last(run)))
      && s == Next(before, Last(run))
  }

  /** s' is reached from s by these steps. */
  predicate Leads(s: State, acts: seq<Action>, s': State)
    decreases acts
  {
    if acts == [] then s' == s
    else Enabled(s, acts[0]) && Leads(Next(s, acts[0]), acts[1..], s')
  }

  // ---- what every step keeps ---------------------------------------------------------

  /** The event of the current iteration. */
  function Current(w: Watcher): Option<nat> {
    match w
    case Starting(h) => Some(h)
    case Waiting(h) => Some(h)
    case Collecting(h) => Some(h)
    case Closing(h, _) => Some(h)
    case _ => None
  }

  ghost predicate HandleInv(w: Watch) {
    && (Current(w.pc).Some? ==> |w.handles| > 0 && Current(w.pc).value == |w.handles| - 1)
    && forall h :: 0 <= h < |w.handles| ==> w.handles[h] == if Current(w.pc) == Some(h) then 0 else 1
  }

  /** The reports that are still to be delivered. */
  function Held(w: Watch): seq<nat> {
    w.queue + if w.pc.Emitting? || w.pc.InCall? then [w.pc.r] else []
  }

  /** A report that is still to be delivered keeps its string, any other has
      freed it. */
  ghost predicate ReportInv(w: Watch) {
    && OwnsReports(Held(w), w.reports) && |w.queue| <= EVENT_QUEUE_DEPTH
  }

  ghost predicate OwnsReports(held: seq<nat>, reports: seq<Emitted>) {
    && NoDup(held)
    && (forall r :: r in held ==> r < |reports|)
    && forall r :: 0 <= r < |reports| ==> reports[r].frees == if reports[r].text && r !in held then 1 else 0
  }

  /** A close that has stopped the watcher is past the wait for it. */
  predicate Past(q: Closer) {
    q.stopped && !q.stage.Called? && !q.stage.Awaiting?
  }

  predicate ClosedStop(q: Closer) {
    Past(q) && !q.stage.ClosingStop?
  }

  /** The closes that have closed the stop event. */
  function StopsClosed(closers: map<nat, Closer>): set<nat> {
    set k | k in closers && ClosedStop(closers[k])
  }

  ghost predicate StopInv(s: State) {
    && (s.opener.Opening? || s.opener.Opened? ==> s.watch.pc.Absent? && !s.watched)
    && (s.opener.Attaching? ==> !s.watch.pc.Absent?)
    && (s.watched ==> !s.watch.pc.Absent? && (s.opener.Telling? || s.opener.Told?))
    && forall k :: k in s.closers ==>
         && (s.closers[k].stopped ==> s.watched && s.signalled && !s.closers[k].stage.Called?)
         && (s.closers[k].stage.Awaiting? || s.closers[k].stage.ClosingStop? ==> s.closers[k].stopped)
         && (Past(s.closers[k]) ==> s.watch.pc.Done?)
  }

  /** Some close has released the slot. */
  ghost predicate SomeReleased(closers: map<nat, Closer>) {
    exists k :: k in closers && closers[k].hasSlot && closers[k].stage.Finished?
  }

  /** Steps of closes keep that one has released it. */
  lemma StillReleased(closers: map<nat, Closer>, k: nat, q: Closer)
    requires SomeReleased(closers)
    requires k in closers && closers[k].hasSlot && closers[k].stage.Finished? ==> q.hasSlot && q.stage.Finished?
    ensures SomeReleased(closers[k := q])
  {
    var j :| j in closers && closers[j].hasSlot && closers[j].stage.Finished?;
    assert j in closers[k := q];
  }

  /** The slot goes when the open gives it back or a close that read its id has
      finished, and such a close has stopped the watcher before. */
  ghost predicate SlotInv(s: State) {
    && s.releases == (if s.slot then 0 else 1)
    && (s.opener.Giving? ==> s.slot && !s.watched && s.watch.pc.Absent?)
    && (s.opener.Opening? || s.opener.Opened? || s.opener.Attaching? ==> s.slot && !s.watched)
    && ((s.opener.Telling? || s.opener.Told?) && !s.watched ==> !s.slot && s.watch.pc.Absent?)
    && (s.watched ==> s.slot || SomeReleased(s.closers))
    && s.watch.missed == 0
    && forall k :: k in s.closers && s.closers[k].hasSlot ==>
         && s.watched
         && s.closers[k].stopped == !s.closers[k].stage.Called?
         && (s.closers[k].stage.Finished? ==> !s.slot)
  }

  /** What the rule about closing adds: every close knows the slot and the
      watcher, if there are any. */
  ghost predicate RuleInv(s: State) {
    && (s.closers != map[] ==> s.opener.Told?)
    && forall k :: k in s.closers ==>
         && s.closers[k].hasSlot == s.watched
         && s.closers[k].stopped == (s.watched && !s.closers[k].stage.Called?)
  }

  ghost predicate Inv(s: State, strict: bool) {
    && HandleInv(s.watch) && ReportInv(s.watch) && StopInv(s)
    && s.stopCloses == |StopsClosed(s.closers)|
    && SlotInv(s)
    && (strict ==> RuleInv(s))
  }

  lemma OneMoreReport(held: seq<nat>, reports: seq<Emitted>, text: bool)
    requires OwnsReports(held, reports)
    ensures OwnsReports(held + [|reports|], reports + [Emitted(text, 0)])
  {
    forall i | 0 <= i < |held|
      ensures held[i] < |reports|
    {
      assert held[i] in held;
    }
  }

  /** A string is freed when its report leaves the hands of the watcher or the
      queue. */
  lemma FreeOne(held: seq<nat>, reports: seq<Emitted>, before: seq<nat>, r: nat, after: seq<nat>)
    requires OwnsReports(held, reports) && held == before + [r] + after
    ensures OwnsReports(before + after, FreeText(reports, r))
  {
    var rest := before + after;
    assert held[|before|] == r;
    forall i | 0 <= i < |rest|
      ensures rest[i] == held[if i < |before| then i else i + 1] && rest[i] in held
    {
    }
    forall x | x in held && x != r
      ensures x in rest
    {
      var i :| 0 <= i < |held| && held[i] == x;
      assert rest[if i < |before| then i else i - 1] == x;
    }
  }

  lemma FollowKeeps(w: Watch, c: OsCall)
    requires ReportInv(w) && Held(w) == w.queue
    ensures ReportInv(Follow(w, c))
  {
    if Due(c) != [] {
      OneMoreReport(w.queue, w.reports, Due(c)[0].Trouble?);
    } else {
      assert Held(Follow(w, c)) == w.queue;
    }
  }

  lemma WatchKeepsReports(w: Watch, slot: bool, work: WatchStep)
    requires ReportInv(w) && WatchEnabled(w, true, work)
    ensures ReportInv(WatchNext(w, slot, work))
  {
    var w' := WatchNext(w, slot, work);
    match work
    case Sees(c) =>
      assert Held(w) == w.queue;
      if w.pc.Masking? || (w.pc.Creating? && c.err.Some?) {
        FollowKeeps(w, c);
      } else {
        assert Held(w') == w.queue;
      }
    case CloseEvent =>
      assert Held(w) == w.queue;
      FollowKeeps(w.(handles := w'.handles), w.pc.seen);
    case _ =>
      if w'.reports != w.reports || Held(w') != Held(w) {
        assert Held(w) == w.queue + [w.pc.r] + [];
        assert Held(w') == w.queue + [];
        FreeOne(Held(w), w.reports, w.queue, w.pc.r, []);
      }
  }

  lemma WatchKeepsHandles(w: Watch, slot: bool, work: WatchStep)
    requires HandleInv(w) && WatchEnabled(w, true, work)
    ensures HandleInv(WatchNext(w, slot, work))
  {
  }

  /** Where a watcher step may lead. */
  lemma WatchMoves(w: Watch, slot: bool, work: WatchStep) returns (w': Watch)
    requires WatchEnabled(w, true, work)
    ensures w' == WatchNext(w, slot, work)
    ensures !w.pc.Done? && !w.pc.Absent? && !w'.pc.Absent? && (slot ==> w'.missed == w.missed)
  {
    w' := WatchNext(w, slot, work);
  }

  lemma WatchKeeps(s: State, work: WatchStep, strict: bool)
    requires Inv(s, strict) && WatchEnabled(s.watch, s.signalled, work)
    ensures Inv(Next(s, OnWatch(work)), strict)
  {
    WatchKeepsHandles(s.watch, s.slot, work);
    WatchKeepsReports(s.watch, s.slot, work);
    var w' := WatchMoves(s.watch, s.slot, work);
  }

  lemma OpenKeeps(s: State, step: OpenStep, strict: bool)
    requires Inv(s, strict) && OpenEnabled(s, step)
    ensures Inv(OpenNext(s, step), strict)
  {
    assert OpenNext(s, step).watch == s.watch || Held(OpenNext(s, step).watch) == Held(s.watch);
  }

  lemma DeliverKeeps(s: State, strict: bool)
    requires Inv(s, strict) && s.watch.queue != []
    ensures Inv(Next(s, Deliver), strict)
  {
    var w, w' := s.watch, Next(s, Deliver).watch;
    assert Held(w) == [] + [w.queue[0]] + Held(w');
    assert [] + Held(w') == Held(w');
    FreeOne(Held(w), w.reports, [], w.queue[0], Held(w'));
  }

  lemma CallKeeps(s: State, k: nat, strict: bool)
    requires Inv(s, strict) && Enabled(s, CloseCall(k)) && (strict ==> Disciplined(s, CloseCall(k)))
    ensures Inv(Next(s, CloseCall(k)), strict)
  {
    var s' := Next(s, CloseCall(k));
    assert StopsClosed(s'.closers) == StopsClosed(s.closers);
    if SomeReleased(s.closers) {
      StillReleased(s.closers, k, s'.closers[k]);
    }
  }

  lemma CloseKeepsStop(s: State, k: nat)
    requires StopInv(s) && CloseEnabled(s, k)
    ensures StopInv(CloseNext(s, k))
  {
  }

  lemma CloseKeepsCount(s: State, k: nat)
    requires StopInv(s) && CloseEnabled(s, k) && s.stopCloses == |StopsClosed(s.closers)|
    ensures CloseNext(s, k).stopCloses == |StopsClosed(CloseNext(s, k).closers)|
  {
    var q, q' := s.closers[k], Advance(s.closers[k], s.watched);
    assert CloseNext(s, k).closers == s.closers[k := q'];
    assert ClosedStop(q') == (ClosedStop(q) || q.stage.ClosingStop?) && (q.stage.ClosingStop? ==> !ClosedStop(q));
    CountClosed(s.closers, k, q');
  }

  lemma CountClosed(closers: map<nat, Closer>, k: nat, q: Closer)
    requires k in closers && (ClosedStop(closers[k]) ==> ClosedStop(q))
    ensures |StopsClosed(closers[k := q])| ==
      |StopsClosed(closers)| + if ClosedStop(q) && !ClosedStop(closers[k]) then 1 else 0
  {
    assert StopsClosed(closers[k := q]) == StopsClosed(closers) + if ClosedStop(q) then {k} else {};
  }

  lemma CloseKeepsSlot(s: State, k: nat)
    requires StopInv(s) && SlotInv(s) && CloseEnabled(s, k)
    ensures SlotInv(CloseNext(s, k))
  {
    if SomeReleased(s.closers) {
      StillReleased(s.closers, k, Advance(s.closers[k], s.watched));
    }
    assert s.closers[k].stage.Releasing? ==> CloseNext(s, k).closers[k].stage.Finished?;
  }

  lemma CloseKeepsRule(s: State, k: nat)
    requires RuleInv(s) && CloseEnabled(s, k)
    ensures RuleInv(CloseNext(s, k))
  {
  }

  lemma CloseKeeps(s: State, k: nat, strict: bool)
    requires Inv(s, strict) && CloseEnabled(s, k)
    ensures Inv(CloseNext(s, k), strict)
  {
    CloseKeepsStop(s, k);
    CloseKeepsCount(s, k);
    CloseKeepsSlot(s, k);
    if strict {
      CloseKeepsRule(s, k);
    }
  }

  lemma {:induction false} RunInv(run: seq<Action>, s: State, strict: bool)
    requires IsRun(run, s, strict)
    ensures Inv(s, strict)
    decreases run
  {
    if run == [] {
      assert StopsClosed(s.closers) == {};
    } else {
      var before :| IsRun(Front(run), before, strict) && Enabled(before, Last(run))
        && (strict ==> Disciplined(before, Last(run))) && s == Next(before, Last(run));
      RunInv(Front(run), before, strict);
      match Last(run)
      case OnOpen(step) => OpenKeeps(before, step, strict);
      case OnWatch(work) => WatchKeeps(before, work, strict);
      case Deliver => DeliverKeeps(before, strict);
      case CloseCall(k) => CallKeeps(before, k, strict);
      case OnClose(k) => CloseKeeps(before, k, strict);
    }
  }
}
