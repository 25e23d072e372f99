/** The sink BufferedRead fills: it hands out native buffers and takes every
    one of them back exactly once, by emit or by free. */
module ChunkSinks {
  import opened Basics
  import opened PortModel
  import opened SinkCalls

  /** A buffer is disposed of by emit, which keeps it in order, or by free.
      `chunks[k]` is the content of `emitted[k]` at the moment it was handed
      over; `maxBlock` bounds how long one emit may block. `trace` is everything
      that was called, `held` the batch that is out, of which there is one at a
      time, and `panics` says of every call that panicked how many calls the port
      had seen by then. */
  class ChunkSink {
    const maxBlock: nat
    ghost var issued: set<array<byte>>
    ghost var emitted: seq<array<byte>>
    ghost var freed: set<array<byte>>
    ghost var chunks: seq<seq<byte>>
    ghost var trace: seq<SinkCall>
    ghost var held: array?<byte>
    ghost var panics: seq<nat>

    ghost predicate Valid()
      reads this, emitted
    {
      forall n: nat {:trigger Ask(n)} :: Ask(n) ==> Accounted()
    }

    /** Nothing is disposed of twice, only what is held is still owed, and no
        buffer changed after its handoff. */
    ghost predicate Accounted()
      reads this, emitted
    {
      && |chunks| == |emitted|
      && NoDup(emitted)
      && (forall b :: b in emitted ==> b in issued && b !in freed)
      && freed <= issued
      && (forall k :: 0 <= k < |emitted| ==>
            0 < |chunks[k]| <= emitted[k].Length && emitted[k][..|chunks[k]|] == chunks[k])
      && (held != null ==> held in issued)
      && (forall b :: b in issued ==> (Owes(b) <==> b == held))
      && chunks == Gifts(trace) && ClaimAfter(trace) == if held == null then NoClaim else Claimed
    }

    /** Allocated, and neither emitted nor freed yet. */
    ghost predicate Owes(b: array<byte>)
      reads this
    {
      b in issued && b !in emitted && b !in freed
    }

    ghost predicate Settled()
      reads this`held
    {
      held == null
    }

    lemma Unfold()
      requires Valid()
      ensures Accounted() && held !in emitted
    {
      assert Ask(0);
    }

    constructor (maxBlock: nat)
      ensures Valid() && Settled() && chunks == [] && trace == [] && panics == []
    {
      this.maxBlock := maxBlock;
      issued, emitted, freed, chunks := {}, [], {}, [];
      trace, held, panics := [], null, [];
    }

    /** null when the allocation panicked. */
    method NewBatch(size: nat, ghost port: Port) returns (buf: array?<byte>)
      requires Valid() && Settled() && 0 < size
      modifies this`issued, this`held, this`trace, this`panics
      ensures Valid() && held == buf
      ensures trace == if buf == null then old(trace) else old(trace) + [Took]
      ensures panics == if buf == null then old(panics) + [|port.log|] else old(panics)
      ensures buf == null ==> issued == old(issued)
      ensures buf != null ==> fresh(buf) && buf.Length == size && issued == old(issued) + {buf}
    {
      Unfold();
      var fits: bool := *;
      if fits {
        buf := new byte[size];
        SinkSnoc(trace, Took);
        issued, held, trace := issued + {buf}, buf, trace + [Took];
      } else {
        buf := null;
        panics := panics + [|port.log|];
      }
    }

    /** Takes the buffer over, also when it panics. */
    method Emit(buf: array<byte>, n: nat, port: Port) returns (panicked: bool)
      requires Valid() && held == buf && 0 < n <= buf.Length
      modifies this`emitted, this`chunks, this`held, this`trace, this`panics, port`clock
      ensures Valid() && Settled()
      ensures panics == if panicked then old(panics) + [|port.log|] else old(panics)
      ensures emitted == old(emitted) + [buf] && chunks == old(chunks) + [buf[..n]]
      ensures trace == old(trace) + [Gave(buf[..n])]
      ensures old(port.clock) <= port.clock <= old(port.clock) + maxBlock
    {
      Unfold();
      SinkSnoc(trace, Gave(buf[..n]));
      emitted, chunks := emitted + [buf], chunks + [buf[..n]];
      held, trace := null, trace + [Gave(buf[..n])];
      var d: int := *;
      port.clock := port.clock + Max(0, Min(d, maxBlock));
      panicked := *;
      panics := if panicked then panics + [|port.log|] else panics;
    }

    method Free(buf: array<byte>)
      requires Valid() && held == buf
      modifies this`freed, this`held, this`trace
      ensures Valid() && Settled() && freed == old(freed) + {buf}
      ensures trace == old(trace) + [Dropped]
    {
      Unfold();
      SinkSnoc(trace, Dropped);
      freed, held, trace := freed + {buf}, null, trace + [Dropped];
    }
  }
}
