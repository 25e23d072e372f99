/** What the comm-event watcher sees of the operating system, and what it must
    make of it. */
module Events {
  import opened Basics

  const ERROR_ACCESS_DENIED := 5
  const ERROR_INVALID_HANDLE := 6
  const ERROR_OPERATION_ABORTED := 995

  /** An error with the Win32 code found in its chain, if there is one. */
  datatype OsError = OsError(code: Option<int>)

  function Errno(e: OsError): int {
    if e.code.Some? then e.code.value else 0
  }

  /** The device was removed or the handle was closed. */
  predicate IsFatal(e: OsError) {
    || Errno(e) == ERROR_ACCESS_DENIED
    || Errno(e) == ERROR_INVALID_HANDLE
    || Errno(e) == ERROR_OPERATION_ABORTED
  }

  /** What the events callback is given: an error code or an EV_* mask. */
  datatype Report = Trouble(errorCode: int) | Event(mask: nat)

  /** The system calls of the loop with their results. `Pending` is
      ERROR_IO_PENDING from WaitCommEvent. */
  datatype OsCall =
    | SetMask(err: Option<OsError>)
    | Create(err: Option<OsError>)
    | Comm(err: Option<OsError>, mask: nat)
    | Pending
    | WaitFailed(why: OsError)
    | StopSeen
    | Signalled
    | Overlapped(err: Option<OsError>, mask: nat)

  /** What a result must be reported as. */
  function Due(c: OsCall): seq<Report> {
    match c
    case SetMask(err) => if err.Some? then [Trouble(Errno(err.value))] else []
    case Create(err) => if err.Some? then [Trouble(Errno(err.value))] else []
    case Comm(err, mask) => if err.Some? then [Trouble(Errno(err.value))] else if mask != 0 then [Event(mask)] else []
    case Overlapped(err, mask) =>
      if err.Some? then [Trouble(Errno(err.value))] else if mask != 0 then [Event(mask)] else []
    case WaitFailed(why) => [Trouble(Errno(why))]
    case _ => []
  }

  /** After which results the loop is over. */
  predicate Ends(c: OsCall) {
    match c
    case SetMask(err) => err.Some?
    case Create(err) => err.Some?
    case Comm(err, _) => err.Some? && IsFatal(err.value)
    case Overlapped(err, _) => err.Some? && IsFatal(err.value)
    case WaitFailed(_) => true
    case StopSeen => true
    case _ => false
  }

  // ---- the same in plain codes ------------------------------------------------------

  /** The error a result carries. */
  function ErrorOf(c: OsCall): Option<OsError> {
    match c
    case SetMask(err) => err
    case Create(err) => err
    case Comm(err, _) => err
    case Overlapped(err, _) => err
    case WaitFailed(why) => Some(why)
    case _ => None
  }

  /** The loop is over after a failure of anything but the wait for an event,
      after the stop event, and after a wait that failed because the device was
      removed or its handle closed; any other error, with another code or none,
      lets it go on. */
  predicate Final(c: OsCall) {
    || c.StopSeen? || c.WaitFailed?
    || (c.SetMask? && c.err.Some?)
    || (c.Create? && c.err.Some?)
    || ((c.Comm? || c.Overlapped?) && c.err.Some?
        && (c.err.value.code == Some(5) || c.err.value.code == Some(6) || c.err.value.code == Some(995)))
  }

  lemma EndsFinal(c: OsCall)
    ensures Ends(c) <==> Final(c)
  {
  }

  /** An error is reported with its code, or 0 if it has none, an event with its
      mask, and nothing else is. */
  lemma DueIs(c: OsCall)
    ensures forall e :: ErrorOf(c) == Some(e) ==> Due(c) == [Trouble(if e.code.Some? then e.code.value else 0)]
    ensures ErrorOf(c).None? && (c.Comm? || c.Overlapped?) && c.mask != 0 ==> Due(c) == [Event(c.mask)]
    ensures ErrorOf(c).None? && !((c.Comm? || c.Overlapped?) && c.mask != 0) ==> Due(c) == []
  {
  }
}
