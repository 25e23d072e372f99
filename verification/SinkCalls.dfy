/** What a goroutine does with native batches, as a sequence of calls on its
    chunk sink. */
module SinkCalls {
  import opened Basics
  import opened PortModel

  /** newBatch, emit with what it hands over, free. */
  datatype SinkCall = Took | Gave(data: seq<byte>) | Dropped

  /** Whether the caller has a claim on a batch; Broken when it took a second
      one or disposed of one it did not have. */
  datatype Claim = NoClaim | Claimed | Broken

  function ClaimStep(claim: Claim, c: SinkCall): Claim {
    match c
    case Took => if claim.NoClaim? then Claimed else Broken
    case _ => if claim.Claimed? then NoClaim else Broken
  }

  /** The claim after these calls, from none. */
  function ClaimAfter(calls: seq<SinkCall>): Claim {
    if calls == [] then NoClaim else ClaimStep(ClaimAfter(Front(calls)), Last(calls))
  }

  /** What has been handed over, in order. */
  function Gifts(calls: seq<SinkCall>): seq<seq<byte>> {
    if calls == [] then []
    else Gifts(Front(calls)) + (if Last(calls).Gave? then [Last(calls).data] else [])
  }

  lemma SinkSnoc(calls: seq<SinkCall>, c: SinkCall)
    ensures ClaimAfter(calls + [c]) == ClaimStep(ClaimAfter(calls), c)
    ensures Gifts(calls + [c]) == Gifts(calls) + (if c.Gave? then [c.data] else [])
  {
    assert Front(calls + [c]) == calls;
  }

  /** Calls made without a claim to begin with are judged by themselves. */
  lemma {:induction false} SinkConcat(a: seq<SinkCall>, b: seq<SinkCall>)
    ensures Gifts(a + b) == Gifts(a) + Gifts(b)
    ensures ClaimAfter(a).NoClaim? ==> ClaimAfter(a + b) == ClaimAfter(b)
  {
    if b == [] {
      assert a + b == a;
    } else {
      SinkConcat(a, Front(b));
      assert a + b == a + Front(b) + [Last(b)];
      SinkSnoc(a + Front(b), Last(b));
    }
  }

  /** What was called since: begun and ended without a claim. */
  lemma SinkSince(before: seq<SinkCall>, now: seq<SinkCall>)
    requires before <= now && ClaimAfter(before).NoClaim? && ClaimAfter(now).NoClaim?
    ensures ClaimAfter(now[|before|..]).NoClaim?
    ensures Gifts(before) <= Gifts(now) && Gifts(now[|before|..]) == Gifts(now)[|Gifts(before)|..]
  {
    SinkConcat(before, now[|before|..]);
    assert before + now[|before|..] == now;
  }

  lemma GiftsGrow(a: seq<SinkCall>, b: seq<SinkCall>)
    requires a <= b
    ensures Gifts(a) <= Gifts(b)
  {
    SinkConcat(a, b[|a|..]);
    assert a + b[|a|..] == b;
  }
}
