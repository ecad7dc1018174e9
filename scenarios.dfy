/**
 * Client runs of the reader that follow the repository's own tests, each stated as
 * the exact callbacks it leads to. Where a test splits its bytes into chunks at
 * random, the run delivers them as one chunk; the `Valid` invariant covers any
 * chunking.
 */
module Scenarios {
  import opened Wrappers
  import opened Bytes
  import opened Demand
  import opened PullReader

  /** The drains of "read twice from a stream", on one 64-byte chunk. */
  lemma ReadTwiceDrains(data: seq<byte>)
    requires |data| == 64
    ensures Demand.Drain([], [], None, false) == Drained([], [], [], true)
    ensures Demand.Drain([], data, None, false) == Drained([], data, [], false)
    ensures Demand.Drain([Task(Some(32), 0)], data, None, false)
      == Drained([], data[32..], [Delivery(TaskCb(0), Data(data[..32]))], false)
    ensures Demand.Drain([Task(Some(16), 1)], data[32..], None, false)
      == Drained([], data[48..], [Delivery(TaskCb(1), Data(data[32..48]))], false)
  {
    assert Resolve(Task(Some(32), 0), data, None) == Some((Data(data[..32]), data[32..]));
    assert data[32..][..16] == data[32..48] && data[32..][16..] == data[48..];
  }

  /**
   * "read twice from a stream": upstream answers the first pull with one 64-byte
   * chunk, so the bytes are held when `read(32)` is made; it is answered with the
   * first half, and the `read(16)` made in its callback with the next sixteen
   * bytes, without another pull.
   */
  method ReadTwice(data: seq<byte>) returns (r: Reader)
    requires |data| == 64
    ensures r.Valid()
    ensures r.log == [Delivery(TaskCb(0), Data(data[..32])), Delivery(TaskCb(1), Data(data[32..48]))]
    ensures r.store.Contents() == data[48..] && r.queue == [] && !r.reading
  {
    ReadTwiceDrains(data);
    r := HoldingChunk(data);
    var pulling := r.Read(Some(32), 0);
    assert r.log == [Delivery(TaskCb(0), Data(data[..32]))] && r.store.Contents() == data[32..] && !r.reading;
    pulling := r.Read(Some(16), 1);
  }

  /** Attaching pulls once; upstream answers with `data`, which is held, and no pull follows. */
  method HoldingChunk(data: seq<byte>) returns (r: Reader)
    requires |data| == 64
    ensures fresh(r) && fresh(r.store) && r.Valid()
    ensures r.queue == [] && r.store.Contents() == data && r.log == []
    ensures !r.reading && !r.pullPending && r.attached && !r.streaming
    ensures r.ended.None? && r.abort.None?
  {
    ReadTwiceDrains(data);
    r := new Reader();
    var pulling := r.Attach();
    assert pulling;
    assert r.store.Contents() + data == data;
    pulling := r.OnPullResult(Chunk(data));
  }

  /** A `read(32)` made right after attaching: the first pull is in flight and the read waits for it. */
  method OneWaitingRead() returns (r: Reader)
    ensures fresh(r) && fresh(r.store) && r.Valid()
    ensures r.queue == [Task(Some(32), 0)] && r.store.Contents() == [] && r.log == []
    ensures r.reading && r.pullPending && r.attached && !r.streaming
    ensures r.ended.None? && r.abort.None?
  {
    r := new Reader();
    var pulling := r.Attach();
    assert pulling;
    WaitingRead(r, 0);
  }

  /** The abort flush of those three reads. */
  lemma RejectThree(err: Signal)
    ensures Reject([Task(Some(32), 0), Task(Some(32), 1), Task(Some(32), 2)], err)
      == [Delivery(TaskCb(0), Error(err)), Delivery(TaskCb(1), Error(err)), Delivery(TaskCb(2), Error(err))]
  {
    var q := [Task(Some(32), 0), Task(Some(32), 1), Task(Some(32), 2)];
    RejectAll(q, err);
    var r := Reject(q, err);
    assert r[0] == Delivery(TaskCb(0), Error(err)) && r[1] == Delivery(TaskCb(1), Error(err));
    assert r[2] == Delivery(TaskCb(2), Error(err));
  }

  /** Three `read(32)` calls waiting on an attached upstream that has not answered. */
  method ThreeWaitingReads() returns (r: Reader)
    ensures fresh(r) && fresh(r.store) && r.Valid()
    ensures r.attached && r.abort.None? && r.acks == [] && r.log == []
    ensures r.queue == [Task(Some(32), 0), Task(Some(32), 1), Task(Some(32), 2)]
  {
    r := OneWaitingRead();
    WaitingRead(r, 1);
    WaitingRead(r, 2);
  }

  /** A `read(32)` while no byte is held and the stream has not ended: it only queues. */
  method WaitingRead(r: Reader, id: TaskId)
    requires r.Valid() && r.store.Contents() == [] && r.ended.None? && r.reading
    requires forall i :: 0 <= i < |r.queue| ==> r.queue[i].length == Some(32)
    modifies r`queue, r`submitted, r`log, r`reading, r`pullPending, r.store
    ensures r.Valid() && r.store.Contents() == [] && r.reading && r.pullPending == old(r.pullPending)
    ensures r.queue == old(r.queue) + [Task(Some(32), id)] && r.log == old(r.log)
    ensures forall i :: 0 <= i < |r.queue| ==> r.queue[i].length == Some(32)
  {
    ghost var q := r.queue + [Task(Some(32), id)];
    assert Resolve(q[0], [], None).None?;
    var pulling := r.Read(Some(32), id);
  }

  /**
   * "abort the stream and a read": three `read(32)` calls wait on an upstream that
   * never answers; `abort(err, cb)` and upstream's acknowledgement call each of
   * them with `err`, in order, and then `cb` with `err`.
   */
  method AbortQueuedReads(err: Signal) returns (r: Reader)
    ensures r.Valid()
    ensures r.log == [
      Delivery(TaskCb(0), Error(err)), Delivery(TaskCb(1), Error(err)),
      Delivery(TaskCb(2), Error(err)), Delivery(AbortCb(3), Error(err))]
    ensures r.queue == [] && r.acks == []
  {
    RejectThree(err);
    r := ThreeWaitingReads();
    r.Abort(Some(err), Some(3));
    assert r.abort == Some(err) && r.acks == [Some(3)] && r.log == [];
    r.OnAbortAck();
  }
}
