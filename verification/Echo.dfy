/** Echo writing as a protocol over the call log: one byte goes out, and the
    next one only after the same byte has been read back. */
module Echo {
  import opened Basics
  import opened PortModel

  /** How many bytes have been read back, and whether one more is out. */
  datatype EchoState = EchoState(confirmed: nat, waiting: bool) | Broken

  function EchoStep(data: seq<byte>, st: EchoState, c: Call): EchoState {
    match st
    case Broken => Broken
    case EchoState(confirmed, waiting) =>
      if confirmed >= |data| then Broken else
      match c
      case Write(offered, sent, _, _, _) =>
        if waiting || offered != [data[confirmed]] then Broken
        else if sent == [] then st
        else if sent == [data[confirmed]] then EchoState(confirmed, true)
        else Broken
      case SetTimeout(_, _, _) => if waiting then st else Broken
      case Read(_, got, _, _) =>
        if !waiting then Broken
        else if got == [data[confirmed]] then EchoState(confirmed + 1, false)
        else st
      case SetMode(_, _) => Broken
  }

  function EchoRun(data: seq<byte>, calls: seq<Call>): EchoState {
    if calls == [] then EchoState(0, false)
    else EchoStep(data, EchoRun(data, Front(calls)), Last(calls))
  }

  lemma EchoSnoc(data: seq<byte>, calls: seq<Call>, c: Call)
    ensures EchoRun(data, calls + [c]) == EchoStep(data, EchoRun(data, calls), c)
  {
    assert Front(calls + [c]) == calls;
  }

  /** A protocol run has accepted exactly the confirmed bytes and at most the
      one in flight, and it has been a protocol run at every earlier moment. */
  lemma {:induction false} StopAndWait(data: seq<byte>, calls: seq<Call>, k: nat)
    requires !EchoRun(data, calls).Broken? && k <= |calls|
    ensures var st := EchoRun(data, calls[..k]);
      && !st.Broken?
      && st.confirmed + (if st.waiting then 1 else 0) <= |data|
      && Accepted(calls[..k]) == data[..st.confirmed + (if st.waiting then 1 else 0)]
    decreases |calls|
  {
    if calls == [] {
    } else if k < |calls| {
      StopAndWait(data, Front(calls), k);
      assert Front(calls)[..k] == calls[..k];
    } else {
      StopAndWait(data, Front(calls), k - 1);
      assert Front(calls)[..k - 1] == Front(calls) && calls[..k] == calls;
    }
  }

  lemma {:induction false} EchoSeen(data: seq<byte>, calls: seq<Call>, i: nat, j: nat, c: nat)
      returns (r: nat)
    requires i < j <= |calls| && c < |data| && !EchoRun(data, calls).Broken?
    requires EchoRun(data, calls[..i + 1]) == EchoState(c, true)
    requires EchoRun(data, calls[..j]) != EchoState(c, true)
    ensures i < r < j && calls[r].Read? && calls[r].data == [data[c]]
    decreases j
  {
    assert j != i + 1;
    assert Front(calls[..j]) == calls[..j - 1];
    StopAndWait(data, calls, j - 1);
    if EchoRun(data, calls[..j - 1]) == EchoState(c, true) {
      StopAndWait(data, calls, j);
      r := j - 1;
    } else {
      r := EchoSeen(data, calls, i, j - 1, c);
    }
  }

  /** Between two bytes that go out, the first one has been read back. */
  lemma ConfirmedBeforeNext(data: seq<byte>, calls: seq<Call>, i: nat, j: nat)
    requires !EchoRun(data, calls).Broken? && i < j < |calls|
    requires calls[i].Write? && calls[i].data != [] && calls[j].Write? && calls[j].data != []
    ensures exists r :: i < r < j && calls[r].Read? && calls[r].data == calls[i].data
  {
    StopAndWait(data, calls, i);
    StopAndWait(data, calls, i + 1);
    StopAndWait(data, calls, j);
    StopAndWait(data, calls, j + 1);
    assert Front(calls[..i + 1]) == calls[..i] && Front(calls[..j + 1]) == calls[..j];
    var r := EchoSeen(data, calls, i, j, EchoRun(data, calls[..i]).confirmed);
  }
}
