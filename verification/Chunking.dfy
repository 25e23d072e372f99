/** What BufferedRead is meant to deliver, said without its loop: the results
    of the successful reads are split into gap-free runs at every empty result,
    and every run is cut into pieces of exactly `size` bytes and one non-empty
    remainder. */
module Chunking {
  import opened Basics
  import opened PortModel

  /** Pieces of exactly `size` bytes and a non-empty rest. */
  function Cut(run: seq<byte>, size: nat): (pieces: seq<seq<byte>>)
    requires 0 < size
  {
    if run == [] then []
    else if |run| <= size then [run]
    else [run[..size]] + Cut(run[size..], size)
  }

  function Flatten<T>(parts: seq<seq<T>>): seq<T> {
    if parts == [] then [] else Flatten(Front(parts)) + Last(parts)
  }

  /** The maximal runs of results without an empty one; the last run is still
      open. */
  function Runs(results: seq<seq<byte>>): (runs: seq<seq<byte>>)
    ensures runs != []
  {
    if results == [] then [[]]
    else
      Extended(Runs(Front(results)), Last(results))
  }

  /** A gap opens a new run, data makes the open one longer. */
  function Extended(runs: seq<seq<byte>>, data: seq<byte>): (longer: seq<seq<byte>>)
    requires runs != []
    ensures longer != []
  {
    if data == [] then runs + [[]] else Front(runs) + [Last(runs) + data]
  }

  function CutAll(runs: seq<seq<byte>>, size: nat): seq<seq<byte>>
    requires 0 < size
  {
    if runs == [] then [] else CutAll(Front(runs), size) + Cut(Last(runs), size)
  }

  /** The chunks the consumer is to receive. */
  function Chunks(results: seq<seq<byte>>, size: nat): seq<seq<byte>>
    requires 0 < size
  {
    CutAll(Runs(results), size)
  }

  /** The pieces of exactly `size` bytes alone. */
  function FullPieces(run: seq<byte>, size: nat): seq<seq<byte>>
    requires 0 < size
  {
    if |run| < size then [] else [run[..size]] + FullPieces(run[size..], size)
  }

  /** The chunks without a remainder of the open run. */
  function FullChunks(results: seq<seq<byte>>, size: nat): seq<seq<byte>>
    requires 0 < size
  {
    CutAll(Front(Runs(results)), size) + FullPieces(Last(Runs(results)), size)
  }

  /** What the loop keeps: the chunks handed over and the bytes in the batch. */
  datatype Batching = Batching(sent: seq<seq<byte>>, held: seq<byte>) {
    function Flushed(): Batching {
      if held == [] then this else Batching(sent + [held], [])
    }

    /** The effect of one successful read. */
    function Fed(data: seq<byte>, size: nat): Batching {
      if data == [] then Flushed()
      else
        var b := this.(held := held + data);
        if |b.held| >= size then b.Flushed() else b
    }
  }

  /** The batching state after some results. */
  function Fold(results: seq<seq<byte>>, size: nat): Batching {
    if results == [] then Batching([], []) else Fold(Front(results), size).Fed(Last(results), size)
  }

  /** Every result fits into the room left in the batch it is read into. */
  predicate Fits(results: seq<seq<byte>>, size: nat) {
    results == [] ||
    (Fits(Front(results), size) && |Fold(Front(results), size).held| + |Last(results)| <= size)
  }

  lemma FoldSnoc(results: seq<seq<byte>>, data: seq<byte>, size: nat)
    ensures Fold(results + [data], size) == Fold(results, size).Fed(data, size)
    ensures Fits(results + [data], size) <==>
            Fits(results, size) && |Fold(results, size).held| + |data| <= size
  {
    assert Front(results + [data]) == results;
  }

  lemma {:induction false} FlattenSnoc<T>(parts: seq<seq<T>>, p: seq<T>)
    ensures Flatten(parts + [p]) == Flatten(parts) + p
  {
    assert Front(parts + [p]) == parts;
  }

  lemma {:induction false} FlattenConcat<T>(a: seq<seq<T>>, b: seq<seq<T>>)
    ensures Flatten(a + b) == Flatten(a) + Flatten(b)
  {
    if b == [] {
      assert a + b == a;
    } else {
      FlattenConcat(a, Front(b));
      assert a + b == a + Front(b) + [Last(b)];
      FlattenSnoc(a + Front(b), Last(b));
    }
  }

  lemma FlattenCons<T>(head: seq<T>, tail: seq<seq<T>>)
    ensures Flatten([head] + tail) == head + Flatten(tail)
  {
    FlattenConcat([head], tail);
    FlattenSnoc([], head);
    assert [] + [head] == [head];
  }

  lemma {:induction false} CutSizes(run: seq<byte>, size: nat)
    requires 0 < size
    ensures forall k :: 0 <= k < |Cut(run, size)| ==> 0 < |Cut(run, size)[k]| <= size
    ensures forall k :: 0 <= k < |Cut(run, size)| - 1 ==> |Cut(run, size)[k]| == size
  {
    if |run| > size {
      CutSizes(run[size..], size);
    }
  }

  /** Cutting loses nothing, and every piece but the last is a full one. */
  lemma {:induction false} CutFlatten(run: seq<byte>, size: nat)
    requires 0 < size
    ensures Flatten(Cut(run, size)) == run
    ensures forall k :: 0 <= k < |Cut(run, size)| ==> 0 < |Cut(run, size)[k]| <= size
    ensures forall k :: 0 <= k < |Cut(run, size)| - 1 ==> |Cut(run, size)[k]| == size
  {
    CutSizes(run, size);
    if run == [] {
    } else if |run| <= size {
      FlattenCons(run, []);
      assert [run] + [] == [run];
    } else {
      CutFlatten(run[size..], size);
      FlattenCons(run[..size], Cut(run[size..], size));
      assert run == run[..size] + run[size..];
    }
  }

  lemma CutCons(head: seq<byte>, rest: seq<byte>, size: nat)
    requires 0 < size == |head| && rest != []
    ensures Cut(head + rest, size) == [head] + Cut(rest, size)
  {
    assert (head + rest)[..size] == head && (head + rest)[size..] == rest;
  }

  /** There is no other way to cut a run into full pieces and a non-empty
      remainder. */
  lemma {:induction false} CutUnique(pieces: seq<seq<byte>>, size: nat)
    requires 0 < size
    requires forall k :: 0 <= k < |pieces| ==> 0 < |pieces[k]| <= size
    requires forall k :: 0 <= k < |pieces| - 1 ==> |pieces[k]| == size
    ensures Cut(Flatten(pieces), size) == pieces
  {
    if pieces != [] {
      var head, tail := pieces[0], pieces[1..];
      FlattenCons(head, tail);
      assert pieces == [head] + tail;
      CutUnique(tail, size);
      if tail != [] {
        FlattenCons(tail[0], tail[1..]);
        assert tail == [tail[0]] + tail[1..];
        CutCons(head, Flatten(tail), size);
      } else {
        assert head + Flatten(tail) == head;
      }
    }
  }

  /** A run that is cut into full pieces only. */
  predicate Whole(run: seq<byte>, size: nat)
    requires 0 < size
  {
    run == [] || (size <= |run| && Whole(run[size..], size))
  }

  /** Whole pieces stay as they are when a run grows. */
  lemma {:induction false} CutGrows(whole: seq<byte>, rest: seq<byte>, size: nat)
    requires 0 < size && Whole(whole, size)
    ensures Cut(whole + rest, size) == Cut(whole, size) + Cut(rest, size)
    ensures |rest| == size ==> Whole(whole + rest, size)
  {
    if whole == [] {
      assert whole + rest == rest;
    } else {
      var tail := whole[size..];
      CutGrows(tail, rest, size);
      assert (whole + rest)[size..] == tail + rest;
      assert (whole + rest)[..size] == whole[..size];
      if tail == [] {
        assert whole[..size] == whole;
        assert rest == [] ==> whole + rest == whole;
      }
    }
  }

  lemma CutAllSnoc(runs: seq<seq<byte>>, run: seq<byte>, size: nat)
    requires 0 < size
    ensures CutAll(runs + [run], size) == CutAll(runs, size) + Cut(run, size)
  {
    assert Front(runs + [run]) == runs;
  }

  /** How the batching state relates to the runs seen so far: `whole` is the
      part of the open run that has been handed over. */
  ghost predicate SplitBy(b: Batching, runs: seq<seq<byte>>, size: nat, whole: seq<byte>)
    requires 0 < size && runs != []
  {
    && |b.held| < size
    && Whole(whole, size)
    && Last(runs) == whole + b.held
    && b.sent == CutAll(Front(runs), size) + Cut(whole, size)
  }

  ghost predicate Split(results: seq<seq<byte>>, size: nat, whole: seq<byte>)
    requires 0 < size
  {
    SplitBy(Fold(results, size), Runs(results), size, whole)
  }

  /** A gap closes the open run ... */
  lemma GapSplits(b: Batching, runs: seq<seq<byte>>, size: nat, whole: seq<byte>)
    requires 0 < size && runs != [] && SplitBy(b, runs, size, whole)
    ensures SplitBy(b.Fed([], size), runs + [[]], size, [])
  {
    assert runs == Front(runs) + [Last(runs)];
    CutAllSnoc(Front(runs), Last(runs), size);
    CutGrows(whole, b.held, size);
    assert Front(runs + [[]]) == runs;
  }

  /** ... and data makes it longer. */
  lemma DataSplits(b: Batching, runs: seq<seq<byte>>, size: nat, whole: seq<byte>, data: seq<byte>)
      returns (whole': seq<byte>)
    requires 0 < size && runs != [] && SplitBy(b, runs, size, whole) && data != [] && |b.held| + |data| <= size
    ensures SplitBy(b.Fed(data, size), Front(runs) + [Last(runs) + data], size, whole')
  {
    var grown := b.held + data;
    assert Last(runs) + data == whole + grown;
    assert Front(Front(runs) + [Last(runs) + data]) == Front(runs);
    if |grown| == size {
      CutGrows(whole, grown, size);
      whole' := whole + grown;
    } else {
      whole' := whole;
    }
  }

  lemma {:induction false} FoldSplits(results: seq<seq<byte>>, size: nat) returns (whole: seq<byte>)
    requires 0 < size && Fits(results, size)
    ensures Split(results, size, whole)
  {
    if results == [] {
      whole := [];
    } else {
      var w := FoldSplits(Front(results), size);
      var b, runs := Fold(Front(results), size), Runs(Front(results));
      if Last(results) == [] {
        GapSplits(b, runs, size, w);
        whole := [];
      } else {
        whole := DataSplits(b, runs, size, w, Last(results));
      }
    }
  }

  /** The loop's batching meets the specification: once the batch is flushed,
      what was sent is the chunking of everything read. */
  lemma FoldRefinesChunks(results: seq<seq<byte>>, size: nat)
    requires 0 < size && Fits(results, size)
    ensures Fold(results, size).Flushed().sent == Chunks(results, size)
    ensures |Fold(results, size).held| < size
  {
    var whole := FoldSplits(results, size);
    GapSplits(Fold(results, size), Runs(results), size, whole);
    assert Front(Runs(results) + [[]]) == Runs(results);
  }

  lemma {:induction false} FullPiecesOfWhole(whole: seq<byte>, rest: seq<byte>, size: nat)
    requires 0 < size && Whole(whole, size) && |rest| < size
    ensures FullPieces(whole + rest, size) == Cut(whole, size)
    decreases |whole|
  {
    if whole == [] {
      assert whole + rest == rest;
    } else {
      var tail := whole[size..];
      FullPiecesOfWhole(tail, rest, size);
      assert (whole + rest)[size..] == tail + rest && (whole + rest)[..size] == whole[..size];
      if tail == [] {
        assert whole[..size] == whole;
      }
    }
  }

  /** What has been sent at any moment: all chunks but a remainder. */
  lemma FoldRefinesFull(results: seq<seq<byte>>, size: nat)
    requires 0 < size && Fits(results, size)
    ensures Fold(results, size).sent == FullChunks(results, size)
  {
    var whole := FoldSplits(results, size);
    FullPiecesOfWhole(whole, Fold(results, size).held, size);
  }

  /** All pieces are full ones but a remainder. */
  lemma {:induction false} CutIsFull(run: seq<byte>, size: nat) returns (rest: seq<byte>)
    requires 0 < size
    ensures |rest| < size && Cut(run, size) == FullPieces(run, size) + if rest == [] then [] else [rest]
    decreases |run|
  {
    if |run| < size {
      rest := run;
    } else {
      rest := CutIsFull(run[size..], size);
      assert |run| == size ==> run[..size] == run && Cut(run[size..], size) == [];
      Regroup([run[..size]], FullPieces(run[size..], size), if rest == [] then [] else [rest]);
    }
  }

  /** At most one chunk is missing, and less than a full one. */
  lemma FullMissesRest(results: seq<seq<byte>>, size: nat) returns (rest: seq<byte>)
    requires 0 < size
    ensures |rest| < size && Chunks(results, size) == FullChunks(results, size) + if rest == [] then [] else [rest]
  {
    var runs := Runs(results);
    rest := CutIsFull(Last(runs), size);
    assert runs == Front(runs) + [Last(runs)];
    CutAllSnoc(Front(runs), Last(runs), size);
    Regroup(CutAll(Front(runs), size), FullPieces(Last(runs), size), if rest == [] then [] else [rest]);
  }

  // ---- the chunks, by two laws --------------------------------------------------

  lemma {:induction false} RunsAtGap(a: seq<seq<byte>>, b: seq<seq<byte>>)
    ensures Runs(a + [[]] + b) == Runs(a) + Runs(b)
  {
    if b == [] {
      assert a + [[]] + b == a + [[]] && Front(a + [[]]) == a;
    } else {
      RunsAtGap(a, Front(b));
      assert Front(a + [[]] + b) == a + [[]] + Front(b) && Last(a + [[]] + b) == Last(b);
      ExtendedBehind(Runs(a), Runs(Front(b)), Last(b));
    }
  }

  lemma ExtendedBehind(x: seq<seq<byte>>, y: seq<seq<byte>>, data: seq<byte>)
    requires y != []
    ensures Extended(x + y, data) == x + Extended(y, data)
  {
    assert Front(x + y) == x + Front(y) && Last(x + y) == Last(y);
    Regroup(x, Front(y), [Last(y) + data]);
  }

  lemma {:induction false} CutAllConcat(a: seq<seq<byte>>, b: seq<seq<byte>>, size: nat)
    requires 0 < size
    ensures CutAll(a + b, size) == CutAll(a, size) + CutAll(b, size)
  {
    if b == [] {
      assert a + b == a;
    } else {
      CutAllConcat(a, Front(b), size);
      assert Front(a + b) == a + Front(b) && Last(a + b) == Last(b);
    }
  }

  /** A gap always ends a chunk: what comes before and behind it is cut up by
      itself. */
  lemma ChunksAtGap(a: seq<seq<byte>>, b: seq<seq<byte>>, size: nat)
    requires 0 < size
    ensures Chunks(a + [[]] + b, size) == Chunks(a, size) + Chunks(b, size)
  {
    RunsAtGap(a, b);
    CutAllConcat(Runs(a), Runs(b), size);
  }

  lemma {:induction false} RunsWithoutGap(results: seq<seq<byte>>)
    requires forall k :: 0 <= k < |results| ==> results[k] != []
    ensures Runs(results) == [Flatten(results)]
  {
    if results != [] {
      RunsWithoutGap(Front(results));
      var all := Flatten(Front(results));
      assert Extended([all], Last(results)) == [] + [all + Last(results)];
    }
  }

  /** Nothing else does: without a gap, the chunks are those of all the bytes in
      one. The two laws leave no other way to chunk. */
  lemma ChunksWithoutGap(results: seq<seq<byte>>, size: nat)
    requires 0 < size && forall k :: 0 <= k < |results| ==> results[k] != []
    ensures Chunks(results, size) == Cut(Flatten(results), size)
  {
    RunsWithoutGap(results);
    CutAllSnoc([], Flatten(results), size);
    assert [] + [Flatten(results)] == [Flatten(results)];
  }

  lemma {:induction false} RunsFlatten(results: seq<seq<byte>>)
    ensures Flatten(Runs(results)) == Flatten(results)
  {
    if results == [] {
      FlattenSnoc<byte>([], []);
      assert Runs(results) == [] + [[]];
    } else {
      var before := Runs(Front(results));
      RunsFlatten(Front(results));
      if Last(results) == [] {
        FlattenSnoc(before, []);
      } else {
        var open := Last(before) + Last(results);
        calc {
          Flatten(Runs(results));
        == { FlattenSnoc(Front(before), open); }
          Flatten(Front(before)) + (Last(before) + Last(results));
        ==
          (Flatten(Front(before)) + Last(before)) + Last(results);
        ==
          Flatten(results);
        }
      }
    }
  }

  lemma {:induction false} CutAllFlatten(runs: seq<seq<byte>>, size: nat)
    requires 0 < size
    ensures Flatten(CutAll(runs, size)) == Flatten(runs)
    ensures forall k :: 0 <= k < |CutAll(runs, size)| ==> 0 < |CutAll(runs, size)[k]| <= size
  {
    if runs != [] {
      CutAllFlatten(Front(runs), size);
      CutFlatten(Last(runs), size);
      FlattenConcat(CutAll(Front(runs), size), Cut(Last(runs), size));
    }
  }

  /** The chunks hold exactly the bytes read, in order, and none is empty or
      too large. */
  lemma ChunksConserve(results: seq<seq<byte>>, size: nat)
    requires 0 < size
    ensures Flatten(Chunks(results, size)) == Flatten(results)
    ensures forall c :: c in Chunks(results, size) ==> 0 < |c| <= size
  {
    RunsFlatten(results);
    CutAllFlatten(Runs(results), size);
  }

  /** The bytes an operation received are those of its successful reads. */
  lemma {:induction false} ReceivedIsResults(op: Op, log: seq<Call>)
    requires Follows(op, log)
    ensures Received(log) == Flatten(Results(log))
  {
    if log != [] {
      ReceivedIsResults(op, Front(log));
      var c := Last(log);
      if c.Read? && c.end.Returned? {
        FlattenSnoc(Results(Front(log)), c.data);
      } else {
        assert Results(log) == Results(Front(log));
        assert Received(log) == Received(Front(log));
      }
    }
  }
}
