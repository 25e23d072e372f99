/** The functions of the addon that work on its global tables.

    The ghost field `run` is a run of the protocol that leads to the present
    state `s`. Every entry point appends to it the protocol steps its sections
    of code are: run without interruption, it is that sequence of steps. Module
    Protocol is about all interleavings of them, so what holds of every run
    there holds of a registry. */
module Addon {
  import opened Basics
  import opened PortModel
  import opened AddonTables
  import P = Protocol
  import S = ProtocolSafety
  import R = ProtocolResults
  import T = StreamPaths
  import SinkCalls

  class Registry {
    var pending: map<nat, OpRecord>
    var nextPendingId: nat
    /** The ThreadSafeFunction of each operation, by its queue. */
    var doneQueues: map<nat, seq<OpRecord>>
    /** The stream slots that are present ... */
    var tsfns: set<nat>
    /** ... and the queue of the ThreadSafeFunction behind each slot id, which
        outlasts the slot. */
    var chunkQueues: map<nat, seq<Chunk>>
    var nextCbId: nat

    /** The protocol state, and a run that leads to it; `strict` as long as every
        completion call was an operation's own. */
    ghost var s: P.State
    ghost var run: seq<P.Action>
    ghost var strict: bool
    ghost var nextCall: nat
    /** The buffers in the chunk queues, and which batch each one is. */
    ghost var homes: map<Native, Home>
    /** How the calls on ThreadSafeFunctions came back. */
    ghost var statuses: seq<bool>

    ghost function Now(): Tables
      reads this
    {
      Tables(pending, nextPendingId, doneQueues, tsfns, ChunkTable(chunkQueues, homes), nextCbId)
    }

    /** The tables are those of the reachable state s. */
    ghost predicate Matched()
      reads this
    {
      Sound(Now(), s, run, strict, nextCall)
    }

    /** Besides, nothing that is queued has been freed. */
    ghost predicate Valid()
      reads this, homes.Keys
    {
      Matched() && forall b :: b in homes ==> !b.freed
    }

    constructor ()
      ensures Valid() && s == P.INIT && run == [] && strict && homes == map[]
    {
      pending, nextPendingId, doneQueues, tsfns, chunkQueues, nextCbId := map[], 1, map[], {}, map[], 1;
      s, run, strict, nextCall, homes, statuses := P.INIT, [], true, 0, map[], [];
      InitSound();
    }

    /** These protocol steps have been taken. */
    twostate predicate Went(acts: seq<P.Action>)
      reads this
    {
      run == old(run) + acts && P.Led(old(s), acts, s)
    }

    // ---- what holds of every registry ----------------------------------------------

    lemma IsAnyRun()
      requires Valid()
      ensures P.IsRun(run, s, strict) && P.IsRun(run, s, false)
    {
      Unfold(Now(), s, run, strict, nextCall);
      P.ReachedRun(run, s, strict);
      if strict {
        P.AlsoARun(run, s);
      }
    }

    /** However it has been used, an operation's callback has been enqueued and
        run at most once, its op deleted and its function released at most once,
        and the callback was given what one completion call carried. */
    lemma SettledOnce(c: nat)
      requires Valid() && c in s.ops
      ensures var op := s.ops[c];
        && op.enqueues <= 1 && op.deletes <= 1 && op.fnReleases <= 1 && |op.calls| <= op.enqueues
        && (op.calls != [] ==>
              op.taker.Some? && op.taker.value in s.completers && s.completers[op.taker.value].target == c
              && |op.calls| == 1 && P.Answers(op.calls[0], s.completers[op.taker.value].msg))
      ensures c in doneQueues && |doneQueues[c]| + |s.ops[c].calls| <= 1
    {
      IsAnyRun();
      R.SettledAtMostOnce(run, s, c);
      S.RunInv(run, s, false);
      Unfold(Now(), s, run, strict, nextCall);
      assert S.OpInv(s, c) && Waits(doneQueues[c], s.ops[c]);
    }

    /** If only the operations' own goroutines have called, the callback was
        given what that goroutine reported. */
    lemma OwnReplies(c: nat, k: nat)
      requires Valid() && strict && c in s.ops && k in s.completers && s.completers[k].target == c
      ensures s.ops[c].calls != [] ==> |s.ops[c].calls| == 1 && P.Answers(s.ops[c].calls[0], s.completers[k].msg)
      ensures forall j :: j in s.completers && s.completers[j].target == c ==> j == k
    {
      IsAnyRun();
      R.OwnReply(run, s, c, k);
    }

    /** Then the op of a goroutine that is inside its port call, and with it the
        buffer reference, is in the table, and a stream's slot is present. */
    lemma BufferKept(c: nat)
      requires Valid() && strict && c in s.ops && s.ops[c].task.Busy?
      ensures c in pending && pending[c].hasBuffer == s.ops[c].hasBuffer
      ensures P.HasStream(s, c) ==> s.ops[c].stream.value.slot in tsfns
    {
      IsAnyRun();
      TableFacts(Now(), s, run, strict, nextCall, c);
      R.BufferOutlivesGoroutine(run, s, c);
      if P.HasStream(s, c) {
        R.SlotOutlivesLoop(run, s, c);
      }
    }

    /** Between two entry points the loop thread is idle. */
    lemma StreamIsIdle(c: nat)
      requires Valid() && P.HasStream(s, c)
      ensures s.loop.Idle? && tsfns == s.slots
    {
      StreamFacts(Now(), s, run, strict, nextCall, c);
    }

    // ---- the functions of the addon -----------------------------------------------------

    method RegisterTsfn() returns (id: nat)
      requires forall x :: x in tsfns ==> x < nextCbId
      modifies this`tsfns, this`chunkQueues, this`nextCbId
      ensures id == old(nextCbId) && id !in old(tsfns) && nextCbId == old(nextCbId) + 1
      ensures tsfns == old(tsfns) + {id} && chunkQueues == old(chunkQueues)[id := []]
    {
      id := nextCbId;
      nextCbId := nextCbId + 1;
      tsfns := tsfns + {id};
      chunkQueues := chunkQueues[id := []];
    }

    method RegisterPending(hasBuffer: bool, streamCbId: nat) returns (id: nat)
      modifies this`pending, this`nextPendingId, this`doneQueues
      ensures id == old(nextPendingId) && nextPendingId == old(nextPendingId) + 1
      ensures pending == old(pending)[id := NewRecord(hasBuffer, streamCbId)]
      ensures doneQueues == old(doneQueues)[id := []]
    {
      id := nextPendingId;
      nextPendingId := nextPendingId + 1;
      pending := pending[id := NewRecord(hasBuffer, streamCbId)];
      doneQueues := doneQueues[id := []];
    }

    /** What the JS-facing functions do before they call into Go: makeCbId, and
        for bufferedRead the stream slot before it. */
    method StartOp(hasBuffer: bool, streams: bool) returns (cbId: nat, streamCbId: nat)
      requires Valid()
      modifies this
      ensures Valid() && strict == old(strict) && Went([P.Register(hasBuffer, streams)])
      ensures cbId !in old(s.ops) && cbId in s.ops && s.ops == old(s.ops)[cbId := s.ops[cbId]]
      ensures s.ops[cbId].task.Starting? && s.ops[cbId].hasBuffer == hasBuffer
      ensures s.ops[cbId].stream == if streams then Some(P.NewStream(streamCbId)) else None
      ensures pending == old(pending)[cbId := NewRecord(hasBuffer, streamCbId)] && pending[cbId].hasBuffer == hasBuffer
      ensures streams ==> 0 < streamCbId && streamCbId !in old(tsfns) && tsfns == old(tsfns) + {streamCbId}
      ensures !streams ==> streamCbId == 0 && tsfns == old(tsfns)
    {
      ghost var was := Now();
      ghost var next := StartSound(was, s, run, strict, nextCall, hasBuffer, streams);
      streamCbId := 0;
      if streams {
        streamCbId := RegisterTsfn();
      }
      cbId := RegisterPending(hasBuffer, streamCbId);
      assert Now() == Started(was, hasBuffer, streams);
      run, s := run + [P.Register(hasBuffer, streams)], next;
    }

    /** releaseTsfn: unknown ids are ignored. */
    method ReleaseTsfn(id: nat)
      modifies this`tsfns
      ensures tsfns == old(tsfns) - {id}
    {
      if id in tsfns {
        tsfns := tsfns - {id};
      }
    }

    /** takePending: nothing for an id that is unknown or already completed. */
    method TakePending(cbId: nat) returns (op: Option<OpRecord>)
      modifies this`pending
      ensures op == (if cbId in old(pending) then Some(old(pending)[cbId]) else None)
      ensures pending == old(pending) - {cbId}
    {
      if cbId !in pending {
        return None;
      }
      op := Some(pending[cbId]);
      pending := pending - {cbId};
    }

    /** NonBlockingCall or, once there is room, BlockingCall: whether it came back
        with napi_ok. */
    method CallFunction() returns (ok: bool)
      modifies this`statuses
      ensures statuses == old(statuses) + [ok]
    {
      ok := *;
      statuses := statuses + [ok];
    }

    /** resolvePending: enqueues the filled-in op, or disposes of it when its
        function refuses the call. */
    method ResolvePending(cbId: nat, op: OpRecord) returns (ok: bool)
      requires cbId in doneQueues && 0 !in tsfns
      modifies this`doneQueues, this`tsfns, this`statuses
      ensures statuses == old(statuses) + [ok]
      ensures doneQueues == if ok then old(doneQueues)[cbId := old(doneQueues)[cbId] + [op]] else old(doneQueues)
      ensures doneQueues.Keys == old(doneQueues.Keys)
      ensures tsfns == if ok then old(tsfns) else old(tsfns) - {op.streamCbId}
    {
      ok := CallFunction();
      if ok {
        doneQueues := doneQueues[cbId := doneQueues[cbId] + [op]];
      } else if op.streamCbId != 0 {
        ReleaseTsfn(op.streamCbId);
      }
    }

    /** A completion call comes in; `own` says whether it is that of the
        operation's goroutine. */
    ghost method ComeIn(cbId: nat, msg: P.Message, own: bool) returns (k: nat)
      requires Valid()
      requires own ==> cbId in s.ops && (s.ops[cbId].task.Starting? || s.ops[cbId].task.Over?)
      modifies this`s, this`run, this`strict, this`nextCall
      ensures Valid() && strict == (old(strict) && own) && Went([P.Call(k, cbId, msg, own)])
      ensures k !in old(s.completers) && k in s.completers
      ensures s.completers[k].stage.Calling? && s.completers[k].target == cbId && s.completers[k].msg == msg
      ensures s.ops.Keys == old(s.ops.Keys) && s.table == old(s.table)
      ensures forall d :: d in s.ops ==>
        && s.ops[d].task == (if own && d == cbId then P.Reported else old(s).ops[d].task)
        && JsOf(s.ops[d]) == JsOf(old(s).ops[d])
      ensures s.completers.Keys == old(s.completers.Keys) + {k}
    {
      k := nextCall;
      ghost var next := CallSound(Now(), s, run, strict, k, cbId, msg, own);
      strict, nextCall := strict && own, nextCall + 1;
      run, s := run + [P.Call(k, cbId, msg, own)], next;
    }

    /** The call comes in and takes the op, if it is there. */
    method ComeAndTake(cbId: nat, ghost msg: P.Message, ghost own: bool)
        returns (op: Option<OpRecord>, ghost k: nat)
      requires Valid()
      requires own ==> cbId in s.ops && (s.ops[cbId].task.Starting? || s.ops[cbId].task.Over?)
      modifies this`pending, this`s, this`run, this`strict, this`nextCall
      ensures Sound(Now().(pending := old(pending)), s, run, strict, nextCall) && pending == old(pending) - {cbId}
      ensures strict == (old(strict) && own) && Went([P.Call(k, cbId, msg, own)])
      ensures op == if cbId in old(pending) then Some(old(pending)[cbId]) else None
      ensures op.Some? ==> op.value.Reply() == P.Empty
      ensures k in s.completers && s.completers[k].stage.Calling?
      ensures CameIn(old(s), s, k, cbId, msg, own)
    {
      TableFacts(Now(), s, run, strict, nextCall, cbId);
      k := ComeIn(cbId, msg, own);
      op := TakePending(cbId);
    }

    /** Resolves the op, if there is one. */
    method PassOn(cbId: nat, op: Option<OpRecord>, ghost before: map<nat, OpRecord>, ghost reply: P.Reply)
        returns (ghost ok: bool)
      requires pending == before - {cbId} && 0 !in tsfns
      requires if op.Some? then cbId in before && cbId in doneQueues else cbId !in before
      requires op.Some? ==> op.value.streamCbId == before[cbId].streamCbId && op.value.Reply() == reply
      modifies this`doneQueues, this`tsfns, this`statuses
      ensures statuses == old(statuses) + if op.Some? then [ok] else []
      ensures Now() == Ended(old(Now()).(pending := before), cbId, op, ok)
      ensures Settled(cbId, before, old(doneQueues), old(tsfns), doneQueues, tsfns, reply, ok)
    {
      ok := false;
      if op.Some? {
        var sent := ResolvePending(cbId, op.value);
        ok := sent;
      } else {
        assert statuses + [] == statuses;
      }
    }

    /** Finishes a completion call that came in when the state was s0, with the
        filled-in op, if there was one. Ties the tables to the protocol steps of
        the call. */
    method Finish(cbId: nat, op: Option<OpRecord>, ghost k: nat, ghost before: map<nat, OpRecord>,
        ghost s0: P.State, ghost msg: P.Message, ghost own: bool) returns (ghost ok: bool)
      requires Sound(Now().(pending := before), s, run, strict, nextCall) && pending == before - {cbId}
      requires k in s.completers && s.completers[k].stage.Calling?
      requires P.Led(s0, [P.Call(k, cbId, msg, own)], s) && CameIn(s0, s, k, cbId, msg, own)
      requires op.Some? <==> cbId in before
      requires op.Some? ==> op.value.streamCbId == before[cbId].streamCbId && op.value.Reply() == P.ReplyTo(msg)
      modifies this`doneQueues, this`tsfns, this`statuses, this`s, this`run
      ensures statuses == old(statuses) + if op.Some? then [ok] else []
      ensures Matched() && run == old(run) + CallPath(k, op.Some?, ok)
      ensures Completed(s0, s, k, cbId, msg, own, op.Some?, ok)
      ensures Settled(cbId, before, old(doneQueues), old(tsfns), doneQueues, tsfns, P.ReplyTo(msg), ok)
    {
      ghost var was, s1 := Now().(pending := before), s;
      TableFacts(was, s, run, strict, nextCall, cbId);
      ok := PassOn(cbId, op, before, P.ReplyTo(msg));
      ghost var next := EndSound(was, s, run, strict, nextCall, k, cbId, op, ok);
      run, s := run + CallPath(k, op.Some?, ok), next;
      CompletedBy(s0, s1, s, k, cbId, msg, own, op.Some?, ok);
    }

    /** Moves the strings into the op, if there is one, and frees them. */
    static method FillOp(op: Option<OpRecord>, err: Native?, json: Native?) returns (filled: Option<OpRecord>)
      requires (err != null ==> !err.freed) && (json != null ==> !json.freed) && (err == json ==> err == null)
      requires op.Some? ==> op.value.Reply() == P.Empty
      modifies err, json
      ensures (err != null ==> err.freed) && (json != null ==> json.freed)
      ensures filled.Some? <==> op.Some?
      ensures filled.Some? ==>
        && filled.value.streamCbId == op.value.streamCbId
        && filled.value.Reply() == P.ReplyTo(P.Strings(Text(err), Text(json)))
    {
      filled := op;
      if err != null {
        filled := if op.Some? then Some(filled.value.(err := err.text, isError := true)) else None;
        err.Free();
      }
      if json != null {
        filled := if op.Some? then Some(filled.value.(result := json.text, hasResult := true)) else None;
        json.Free();
      }
    }

    /** The operation's goroutine enters the port call, ... */
    ghost method Begin(c: nat)
      requires Valid() && c in s.ops && s.ops[c].task.Starting?
      modifies this`s, this`run
      ensures Valid() && Went([P.Begin(c)])
      ensures s == old(s).(ops := old(s).ops[c := old(s).ops[c].(task := P.Busy)])
    {
      ghost var next := TaskSound(Now(), s, run, strict, nextCall, c, P.Begin(c));
      run, s := run + [P.Begin(c)], next;
    }

    /** ... and is through with it, by return or panic. */
    ghost method End(c: nat)
      requires Valid() && c in s.ops && s.ops[c].task.Busy?
      requires P.HasStream(s, c) ==> s.ops[c].stream.value.producer.NoBatch?
      modifies this`s, this`run
      ensures Valid() && Went([P.End(c)])
      ensures s == old(s).(ops := old(s).ops[c := old(s).ops[c].(task := P.Over)])
    {
      ghost var next := TaskSound(Now(), s, run, strict, nextCall, c, P.End(c));
      run, s := run + [P.End(c)], next;
    }

    /** What a whole BufferedRead does with its batches, in the schedule in which
        the loop thread delivers every chunk as it comes. */
    ghost method Stream(c: nat, trace: seq<SinkCalls.SinkCall>)
      requires Valid() && T.Drained(s, c) && s.ops[c].stream.value.producer.NoBatch?
      requires SinkCalls.ClaimAfter(trace).NoClaim?
      modifies this`s, this`run
      ensures Valid() && Went(T.PathSteps(c, trace)) && T.SinkTrace(T.PathSteps(c, trace), c) == trace
      ensures T.Brought(old(s), s, c, SinkCalls.Gifts(trace)) && T.Drained(s, c)
      ensures s.ops[c].stream.value.producer.NoBatch?
    {
      ghost var next := PathSound(Now(), s, run, strict, nextCall, c, trace);
      T.PathIsTrace(c, trace);
      run, s := run + T.PathSteps(c, trace), next;
    }

    /** fsp_complete: takes ownership of both strings. */
    method Complete(cbId: nat, err: Native?, json: Native?, ghost own: bool) returns (ghost k: nat, ghost ok: bool)
      requires Valid()
      requires own ==> cbId in s.ops && (s.ops[cbId].task.Starting? || s.ops[cbId].task.Over?)
      requires (err != null ==> !err.freed && err !in homes) && (json != null ==> !json.freed && json !in homes)
      requires err == json ==> err == null
      modifies this, err, json
      ensures Valid() && (err != null ==> err.freed) && (json != null ==> json.freed)
      ensures strict == (old(strict) && own)
      ensures run == old(run) + ([P.Call(k, cbId, P.Strings(Text(err), Text(json)), own)]
                                 + CallPath(k, cbId in old(pending), ok))
      ensures Completed(old(s), s, k, cbId, P.Strings(Text(err), Text(json)), own, cbId in old(pending), ok)
      ensures statuses == old(statuses) + if cbId in old(pending) then [ok] else []
      ensures pending == old(pending) - {cbId}
      ensures Settled(cbId, old(pending), old(doneQueues), old(tsfns), doneQueues, tsfns,
                      P.ReplyTo(P.Strings(Text(err), Text(json))), ok)
    {
      ghost var msg := P.Strings(Text(err), Text(json));
      ghost var s0, before := s, pending;
      var op;
      op, k := ComeAndTake(cbId, msg, own);
      op := FillOp(op, err, json);
      ok := Finish(cbId, op, k, before, s0, msg, own);
      Regroup(old(run), [P.Call(k, cbId, msg, own)], CallPath(k, op.Some?, ok));
    }

    /** fsp_complete_num. */
    method CompleteNum(cbId: nat, value: int, ghost own: bool) returns (ghost k: nat, ghost ok: bool)
      requires Valid()
      requires own ==> cbId in s.ops && (s.ops[cbId].task.Starting? || s.ops[cbId].task.Over?)
      modifies this
      ensures strict == (old(strict) && own)
      ensures run == old(run) + ([P.Call(k, cbId, P.Num(value), own)] + CallPath(k, cbId in old(pending), ok))
      ensures Valid() && Completed(old(s), s, k, cbId, P.Num(value), own, cbId in old(pending), ok)
      ensures statuses == old(statuses) + if cbId in old(pending) then [ok] else []
      ensures pending == old(pending) - {cbId}
      ensures Settled(cbId, old(pending), old(doneQueues), old(tsfns), doneQueues, tsfns, P.Number(value), ok)
    {
      ghost var s0, before := s, pending;
      var op;
      op, k := ComeAndTake(cbId, P.Num(value), own);
      if op.Some? {
        op := Some(op.value.(numResult := value, hasNum := true));
      }
      ok := Finish(cbId, op, k, before, s0, P.Num(value), own);
      Regroup(old(run), [P.Call(k, cbId, P.Num(value), own)], CallPath(k, op.Some?, ok));
    }

    /** The callback resolvePending enqueues, on the loop thread: passes the
        reply to JS, releases the stream slot and deletes the op. */
    method RunCallback(cbId: nat) returns (reply: P.Reply)
      requires Valid() && cbId in doneQueues && doneQueues[cbId] != []
      modifies this`doneQueues, this`tsfns, this`s, this`run
      ensures Valid() && strict == old(strict) && Went(CallbackPath(cbId)) && cbId in old(s.ops) && cbId in s.ops
      ensures reply == old(doneQueues)[cbId][0].Reply() && s.ops[cbId].calls == old(s).ops[cbId].calls + [reply]
      ensures doneQueues == old(doneQueues)[cbId := old(doneQueues)[cbId][1..]]
      ensures tsfns == old(tsfns) - {old(doneQueues)[cbId][0].streamCbId}
      ensures s.ops[cbId].deletes == old(s).ops[cbId].deletes + 1
      ensures var k := s.ops[cbId].taker;
        && k.Some? && k.value in s.completers && s.completers[k.value].target == cbId
        && P.Answers(reply, s.completers[k.value].msg)
    {
      TableFacts(Now(), s, run, strict, nextCall, cbId);
      ghost var next := CallbackSound(Now(), s, run, strict, nextCall, cbId);
      reply := Settle(cbId);
      run, s := run + CallbackPath(cbId), next;
      SettledOnce(cbId);
    }

    /** What of it is done to the tables. */
    method Settle(cbId: nat) returns (reply: P.Reply)
      requires cbId in doneQueues && doneQueues[cbId] != [] && 0 !in tsfns
      modifies this`doneQueues, this`tsfns
      ensures Now() == CalledBack(old(Now()), cbId) && reply == old(doneQueues)[cbId][0].Reply()
    {
      var op := doneQueues[cbId][0];
      doneQueues := doneQueues[cbId := doneQueues[cbId][1..]];
      reply := op.Reply();
      if op.streamCbId != 0 {
        ReleaseTsfn(op.streamCbId);
      } else {
        assert tsfns - {0} == tsfns;
      }
    }

    /** The goroutine of stream c takes a batch, ... */
    ghost method Take(c: nat)
      requires Valid() && P.HasStream(s, c) && s.ops[c].task.Busy? && s.ops[c].stream.value.producer.NoBatch?
      modifies this`s, this`run
      ensures Valid() && Went([P.OnStream(c, P.Alloc)]) && s.ops.Keys == old(s.ops.Keys)
      ensures P.HasStream(s, c) && s.ops[c].stream.value.producer.Filling?
    {
      ghost var next := BatchSound(Now(), s, run, strict, nextCall, c, P.Alloc);
      run, s := run + [P.OnStream(c, P.Alloc)], next;
    }

    /** ... and frees one it has not handed over. */
    ghost method Drop(c: nat)
      requires Valid() && P.HasStream(s, c) && s.ops[c].stream.value.producer.Filling?
      modifies this`s, this`run
      ensures Valid() && Went([P.OnStream(c, P.FreeBatch)]) && s.ops.Keys == old(s.ops.Keys)
      ensures P.HasStream(s, c) && s.ops[c].stream.value.producer.NoBatch?
    {
      ghost var next := BatchSound(Now(), s, run, strict, nextCall, c, P.FreeBatch);
      run, s := run + [P.OnStream(c, P.FreeBatch)], next;
    }

    /** The callback of stream c's oldest chunk: copies the bytes out and frees
        the buffer. */
    method RunChunkCallback(cbId: nat, ghost c: nat) returns (copy: seq<byte>)
      requires Valid() && P.HasStream(s, c) && s.ops[c].stream.value.slot == cbId
      requires cbId in chunkQueues && chunkQueues[cbId] != []
      modifies this`chunkQueues, this`homes, this`s, this`run, chunkQueues[cbId][0].data
      ensures Valid() && Went(T.Delivery(c))
      ensures copy == old(chunkQueues)[cbId][0].Bytes() && old(chunkQueues)[cbId][0].data.freed
      ensures chunkQueues == old(chunkQueues)[cbId := old(chunkQueues)[cbId][1..]]
      ensures homes == old(homes) - {old(chunkQueues)[cbId][0].data}
      ensures P.HasStream(s, c) && s.ops[c].stream.value.slot == cbId
      ensures s.ops[c].stream.value.producer == old(s).ops[c].stream.value.producer
      ensures s.ops[c].stream.value.sent == old(s).ops[c].stream.value.sent
      ensures s.ops[c].stream.value.js == old(s).ops[c].stream.value.js + [copy]
    {
      ghost var next := DeliverySound(Now(), s, run, strict, nextCall, c);
      ghost var after := Now().(chunks := Unqueueing(Now().chunks, cbId));
      var chunk := chunkQueues[cbId][0];
      chunkQueues := chunkQueues[cbId := chunkQueues[cbId][1..]];
      copy := chunk.data.bytes[..chunk.len];
      homes := homes - {chunk.data};
      chunk.data.Free();
      assert Now() == after;
      run, s := run + T.Delivery(c), next;
    }

    /** What BlockingCall does with a chunk when there is room, and what comes of
        it when the slot is gone. */
    method Offer(cbId: nat, data: Native, len: nat, ghost c: nat) returns (queued: bool)
      requires Valid() && !data.freed && data !in homes && len <= |data.bytes|
      requires P.HasStream(s, c) && s.ops[c].stream.value.slot == cbId && s.ops[c].stream.value.producer.Filling?
      requires cbId in chunkQueues && cbId in tsfns ==> |chunkQueues[cbId]| < P.CHUNK_QUEUE_DEPTH
      modifies this`chunkQueues, this`homes, this`statuses, this`s, this`run, data
      ensures statuses == old(statuses) + if cbId in tsfns then [queued] else []
      ensures Valid() && Went(T.HandOff(c, data.bytes[..len], cbId in tsfns, queued))
      ensures data.freed == !queued && (queued ==> cbId in tsfns)
      ensures cbId in old(chunkQueues) && cbId in chunkQueues
      ensures chunkQueues == if queued then old(chunkQueues)[cbId := old(chunkQueues)[cbId] + [Chunk(data, len)]]
                             else old(chunkQueues)
      ensures P.HasStream(s, c) && s.ops[c].stream.value.producer.NoBatch?
      ensures s.ops[c].stream.value.sent == old(s).ops[c].stream.value.sent + [data.bytes[..len]]
    {
      StreamFacts(Now(), s, run, strict, nextCall, c);
      ghost var was, st := Now(), s.ops[c].stream.value;
      queued := Accept(cbId, data, len, Home(c, st.producer.b));
      ghost var next := HandOffSound(was, s, run, strict, nextCall, c, Chunk(data, len), queued);
      run, s := run + T.HandOff(c, data.bytes[..len], cbId in tsfns, queued), next;
    }

    /** What of it is done to the tables and the buffer. */
    method Accept(cbId: nat, data: Native, len: nat, ghost home: Home) returns (queued: bool)
      requires cbId in chunkQueues && !data.freed && data !in homes && forall b :: b in homes ==> !b.freed
      modifies this`chunkQueues, this`homes, this`statuses, data
      ensures statuses == old(statuses) + if cbId in tsfns then [queued] else []
      ensures data.freed == !queued && (queued ==> cbId in tsfns)
      ensures chunkQueues == if queued then old(chunkQueues)[cbId := old(chunkQueues)[cbId] + [Chunk(data, len)]]
                             else old(chunkQueues)
      ensures forall b :: b in homes ==> !b.freed
      ensures Now() == if !queued then old(Now())
                       else old(Now()).(chunks := Queueing(old(Now()).chunks, cbId, Chunk(data, len), home.c, home.b))
    {
      queued := false;
      if cbId in tsfns {
        queued := CallFunction();
      } else {
        assert statuses + [] == statuses;
      }
      if queued {
        chunkQueues := chunkQueues[cbId := chunkQueues[cbId] + [Chunk(data, len)]];
        homes := homes[data := home];
      } else {
        data.Free();
      }
    }

    /** The buffer of the oldest chunk behind a slot. */
    ghost function Oldest(cbId: nat): set<Native>
      reads this
    {
      if cbId in chunkQueues && chunkQueues[cbId] != [] then {chunkQueues[cbId][0].data} else {}
    }

    ghost predicate Full(cbId: nat)
      reads this
    {
      cbId in tsfns && cbId in chunkQueues && |chunkQueues[cbId]| == P.CHUNK_QUEUE_DEPTH
    }

    /** fsp_emit_chunk, called by the goroutine of op c with its batch: takes
        ownership of the buffer. On a full queue BlockingCall waits until the loop
        thread has taken the oldest chunk out of it. */
    method EmitChunk(cbId: nat, data: Native, len: nat, ghost c: nat) returns (queued: bool)
      requires Valid() && !data.freed && data !in homes && len <= |data.bytes|
      requires P.HasStream(s, c) && s.ops[c].stream.value.slot == cbId && s.ops[c].stream.value.producer.Filling?
      modifies this`chunkQueues, this`homes, this`statuses, this`s, this`run, data, Oldest(cbId)
      ensures statuses == old(statuses) + if cbId in tsfns then [queued] else []
      ensures Valid() && data.freed == !queued && (queued ==> cbId in tsfns)
      ensures Went((if old(Full(cbId)) then T.Delivery(c) else [])
                   + T.HandOff(c, data.bytes[..len], cbId in tsfns, queued))
      ensures cbId in old(chunkQueues) && cbId in chunkQueues
      ensures var left := if old(Full(cbId)) then old(chunkQueues)[cbId][1..] else old(chunkQueues)[cbId];
        chunkQueues == old(chunkQueues)[cbId := if queued then left + [Chunk(data, len)] else left]
      ensures P.HasStream(s, c) && s.ops[c].stream.value.producer.NoBatch?
      ensures s.ops[c].stream.value.sent == old(s).ops[c].stream.value.sent + [data.bytes[..len]]
    {
      StreamFacts(Now(), s, run, strict, nextCall, c);
      ghost var s0, before := s, run;
      ghost var first := if Full(cbId) then T.Delivery(c) else [];
      if cbId in tsfns && |chunkQueues[cbId]| == P.CHUNK_QUEUE_DEPTH {
        var _ := RunChunkCallback(cbId, c);
      } else {
        P.LedLeads(s, [], s);
        assert run + [] == run;
      }
      ghost var s1 := s;
      assert P.Led(s0, first, s1) && run == before + first;
      queued := Offer(cbId, data, len, c);
      ghost var second := T.HandOff(c, data.bytes[..len], cbId in tsfns, queued);
      P.LedConcat(s0, first, s1, second, s);
      Regroup(before, first, second);
    }

    /** One completion call, from coming in to its end. */
    static ghost predicate Completed(s: P.State, s': P.State, k: nat, cbId: nat, msg: P.Message, own: bool,
        known: bool, ok: bool)
    {
      && P.Led(s, [P.Call(k, cbId, msg, own)] + CallPath(k, known, ok), s')
      && k !in s.completers && s'.completers.Keys == s.completers.Keys + {k}
      && s'.completers[k].stage.Finished? && s'.completers[k].target == cbId && s'.completers[k].msg == msg
      && s'.ops.Keys == s.ops.Keys
      && (forall d :: d in s'.ops ==>
            && s'.ops[d].task == (if own && d == cbId then P.Reported else s.ops[d].task)
            && JsOf(s'.ops[d]) == JsOf(s.ops[d]))
    }

    static ghost predicate CameIn(s0: P.State, s1: P.State, k: nat, cbId: nat, msg: P.Message, own: bool) {
      && k !in s0.completers && s1.completers.Keys == s0.completers.Keys + {k}
      && s1.completers[k].target == cbId && s1.completers[k].msg == msg && s1.ops.Keys == s0.ops.Keys
      && forall d :: d in s1.ops ==>
           && s1.ops[d].task == (if own && d == cbId then P.Reported else s0.ops[d].task)
           && JsOf(s1.ops[d]) == JsOf(s0.ops[d])
    }

    static lemma CompletedBy(s0: P.State, s1: P.State, s: P.State, k: nat, cbId: nat, msg: P.Message, own: bool,
        known: bool, ok: bool)
      requires P.Led(s0, [P.Call(k, cbId, msg, own)], s1) && P.Led(s1, CallPath(k, known, ok), s)
      requires CameIn(s0, s1, k, cbId, msg, own)
      requires Steady(s1, s, k) && s.completers[k].stage.Finished?
      requires forall d :: d in s.ops ==> JsOf(s.ops[d]) == JsOf(s1.ops[d])
      ensures Completed(s0, s, k, cbId, msg, own, known, ok)
    {
      P.LedConcat(s0, [P.Call(k, cbId, msg, own)], s1, CallPath(k, known, ok), s);
    }

    /** What a completion call leaves in the tables: nothing changes for an
        unknown id; otherwise the op waits for the loop with its reply, or is
        disposed of together with its slot. */
    static ghost predicate Settled(cbId: nat, pending0: map<nat, OpRecord>, queues0: map<nat, seq<OpRecord>>,
        tsfns0: set<nat>, queues: map<nat, seq<OpRecord>>, tsfns: set<nat>, reply: P.Reply,
        ok: bool)
    {
      if cbId !in pending0 then queues == queues0 && tsfns == tsfns0
      else
        && cbId in queues0 && cbId in queues
        && (ok ==>
              && tsfns == tsfns0
              && queues == queues0[cbId := queues[cbId]]
              && queues[cbId] != [] && Front(queues[cbId]) == queues0[cbId] && Last(queues[cbId]).Reply() == reply)
        && (!ok ==> queues == queues0 && tsfns == tsfns0 - {pending0[cbId].streamCbId})
    }

    static function Text(p: Native?): Option<string> {
      if p == null then None else Some(p.text)
    }
  }
}
