/**
 * The reader factory of `src/index.ts`: a FIFO of read requests resolved against
 * the byte accumulator, a demand loop that keeps at most one upstream pull in
 * flight, and abort handling. Callbacks are recorded in `log`; an upstream pull is
 * an explicit step (`More` answers "pull requested", `OnPullResult` is the pull's
 * callback) and so is upstream's acknowledgement of an abort (`OnAbortAck`).
 */
module PullReader {
  import opened Wrappers
  import opened Bytes
  import opened Demand
  import Accumulator

  /** What upstream's callback is called with: a chunk, or an end-or-error value. */
  datatype PullResult = Chunk(data: seq<byte>) | Stop(signal: Signal)

  /** Where a streaming-mode pull goes: into the request queue, or straight upstream. */
  datatype Route = Queued | Direct

  class Reader {
    /** `state`: the bytes received and not yet handed out. */
    const store: Accumulator.State
    /** `requestQueue`: pending reads, oldest first. */
    var queue: seq<Task>
    /** `reading`: the lock that keeps a second pull from starting. */
    var reading: bool
    /** `ended`: the end-or-error value upstream finished with. */
    var ended: Option<Signal>
    /** `streaming`: set once `read` is called without a callback. */
    var streaming: bool
    /** `abort`: the reason given to `reader.abort`. */
    var abort: Option<Signal>
    /** `rawRead` is set: an upstream source is attached. */
    var attached: bool
    /** The callbacks of `abort` calls whose upstream acknowledgement is still owed, oldest first. */
    var acks: seq<Option<TaskId>>
    /** Every callback called so far, in order. */
    var log: seq<Delivery>

    /** Every read callback ever queued, in submission order. */
    ghost var submitted: seq<TaskId>
    /** Every chunk upstream has delivered, in order. */
    ghost var pulled: seq<seq<byte>>
    /** A pull has been issued and its callback has not run yet. */
    ghost var pullPending: bool

    /**
     * The reader's invariant: each queued read is called back exactly once and in
     * submission order; the bytes handed out followed by those held are exactly the
     * bytes received, whatever the chunking; a pending pull holds the lock.
     */
    ghost predicate Valid()
      reads this, store
    {
      && store.Valid()
      && TaskIds(log) + Ids(queue) == submitted
      && DataOf(log) + store.Contents() == Concat(pulled)
      && (pullPending ==> reading && attached)
      && (acks != [] ==> abort.Some?)
    }

    /** The factory: an empty reader with nothing attached. */
    constructor ()
      ensures Valid() && fresh(store)
      ensures queue == [] && store.Contents() == [] && log == [] && acks == []
      ensures !reading && ended.None? && !streaming && abort.None? && !attached
      ensures submitted == [] && pulled == [] && !pullPending
    {
      store := new Accumulator.State();
      queue := [];
      reading := false;
      ended := None;
      streaming := false;
      abort := None;
      attached := false;
      acks := [];
      log := [];
      submitted := [];
      pulled := [];
      pullPending := false;
    }

    /** `drain()`: resolves queued reads as `Demand.Drain` says and answers whether to pull. */
    method Drain() returns (wantMore: bool)
      requires Valid()
      modifies this`queue, this`log, store
      ensures Valid()
      ensures var d := Demand.Drain(old(queue), old(store.Contents()), ended, abort.Some?);
        && queue == d.queue && store.Contents() == d.buf && log == old(log) + d.delivered
        && wantMore == d.wantMore
    {
      ghost var q0, buf0, log0 := queue, store.Contents(), log;
      wantMore := DrainLoop();
      DrainKeepsInvariant(log0, q0, buf0, ended, abort.Some?);
    }

    /** The `while` loop of `drain()`, against the accumulator alone. */
    method DrainLoop() returns (wantMore: bool)
      requires store.Valid()
      modifies this`queue, this`log, store
      ensures store.Valid()
      ensures var d := Demand.Drain(old(queue), old(store.Contents()), ended, abort.Some?);
        && queue == d.queue && store.Contents() == d.buf && log == old(log) + d.delivered
        && wantMore == d.wantMore
    {
      ghost var log0 := log;
      ghost var goal := Demand.Drain(queue, store.Contents(), ended, abort.Some?);
      ghost var done: seq<Delivery> := [];
      while queue != []
        invariant store.Valid()
        invariant log == log0 + done
        invariant goal == Prepend(done, Demand.Drain(queue, store.Contents(), ended, abort.Some?))
        decreases |queue|
      {
        var head := queue[0];
        ghost var q, buf := queue, store.Contents();
        var resolved := ResolveHead(head);
        if resolved.None? {
          break;
        }
        var o := resolved.value;
        queue := queue[1..];
        log := log + [Delivery(TaskCb(head.id), o)];
        DrainStep(q, buf, ended, abort.Some?, done, o, store.Contents());
        done := done + [Delivery(TaskCb(head.id), o)];
      }
      wantMore := |queue| > 0 || !store.Has(Some(1)) || abort.Some?;
      assert done + [] == done;
      assert goal.delivered == done && goal.queue == queue && goal.buf == store.Contents();
    }

    /**
     * One turn of the `drain` loop on the head task `head`: the outcome its callback
     * gets, taking bytes from the accumulator, or `None` when it must wait.
     */
    method ResolveHead(head: Task) returns (resolved: Option<Outcome>)
      requires store.Valid()
      modifies store
      ensures store.Valid()
      ensures Resolve(head, old(store.Contents()), ended)
        == if resolved.None? then None else Some((resolved.value, store.Contents()))
      ensures resolved.None? ==> store.Contents() == old(store.Contents())
    {
      ghost var buf := store.Contents();
      if WantsAny(head) && store.Has(Some(1)) {
        var r := store.Get(None);
        assert buf[..|buf|] == buf && buf[|buf|..] == [];
        resolved := Some(Data(r.value));
      } else if store.Has(head.length) {
        var r := store.Get(head.length);
        resolved := Some(Data(r.value));
      } else if ended == Some(End) && head.length.Some? && head.length.value > 0
          && store.Length() < head.length.value {
        resolved := Some(Shortfall(store.Length(), head.length.value));
      } else if ended.Some? {
        resolved := Some(Error(ended.value));
      } else {
        resolved := None;
      }
    }

    /**
     * `more()`: drains, then issues one upstream pull when more data is wanted, the
     * lock is free, upstream is attached and the reader is not streaming.
     */
    method More() returns (pulling: bool)
      requires Valid()
      modifies this`queue, this`log, this`reading, this`pullPending, store
      ensures Valid()
      ensures var d := Demand.Drain(old(queue), old(store.Contents()), ended, abort.Some?);
        && queue == d.queue && store.Contents() == d.buf && log == old(log) + d.delivered
        && pulling == (d.wantMore && !old(reading) && attached && !streaming)
      // only one pull is ever outstanding
      ensures pulling ==> !old(pullPending)
      ensures reading == (old(reading) || pulling) && pullPending == (old(pullPending) || pulling)
    {
      pulling := false;
      var drained := Drain();
      if drained && !reading {
        if attached && !reading && !streaming {
          reading := true;
          pullPending := true;
          pulling := true;
        }
      }
    }

    /**
     * The callback of an upstream pull. A chunk is kept and the demand loop runs
     * again; an end or error is recorded, the queue is drained and no pull follows.
     */
    method OnPullResult(result: PullResult) returns (pulling: bool)
      requires Valid() && pullPending
      modifies this`queue, this`log, this`reading, this`pullPending, this`ended, this`pulled, store
      ensures Valid()
      ensures result.Stop? ==>
        var d := Demand.Drain(old(queue), old(store.Contents()), Some(result.signal), abort.Some?);
        && ended == Some(result.signal) && pulled == old(pulled)
        && queue == d.queue && store.Contents() == d.buf && log == old(log) + d.delivered
        && !pulling && !reading && !pullPending
      ensures result.Chunk? ==>
        var d := Demand.Drain(old(queue), old(store.Contents()) + result.data, ended, abort.Some?);
        && ended == old(ended) && pulled == old(pulled) + [result.data]
        && queue == d.queue && store.Contents() == d.buf && log == old(log) + d.delivered
        && pulling == (d.wantMore && attached && !streaming)
        && reading == pulling && pullPending == pulling
    {
      reading := false;
      pullPending := false;
      if result.Stop? {
        EndWith(result.signal);
        pulling := false;
      } else {
        pulling := Accept(result.data);
      }
    }

    /** The end-or-error branch of the pull callback: `ended = err; drain()`. */
    method EndWith(signal: Signal)
      requires Valid()
      modifies this`ended, this`queue, this`log, store
      ensures Valid()
      ensures var d := Demand.Drain(old(queue), old(store.Contents()), Some(signal), abort.Some?);
        && queue == d.queue && store.Contents() == d.buf && log == old(log) + d.delivered
      ensures ended == Some(signal)
    {
      ended := Some(signal);
      var _ := Drain();
    }

    /** The chunk branch of the pull callback: `state.add(data); more()`. */
    method Accept(data: seq<byte>) returns (pulling: bool)
      requires Valid() && !reading
      modifies this`pulled, this`queue, this`log, this`reading, this`pullPending, store
      ensures Valid()
      ensures var d := Demand.Drain(old(queue), old(store.Contents()) + data, ended, abort.Some?);
        && queue == d.queue && store.Contents() == d.buf && log == old(log) + d.delivered
        && pulling == (d.wantMore && attached && !streaming)
      ensures reading == pulling && pullPending == (old(pullPending) || pulling)
      ensures pulled == old(pulled) + [data]
    {
      ghost var before := pulled;
      store.Add(data);
      pulled := pulled + [data];
      ConcatAppend(before, [data]);
      ConcatSingle(data);
      assert DataOf(log) + store.Contents() == Concat(pulled);
      pulling := More();
    }

    /** Calls every queued read's callback with `reason`, front to back. */
    method Flush(reason: Signal)
      requires Valid()
      modifies this`queue, this`log
      ensures Valid()
      ensures queue == [] && log == old(log) + Reject(old(queue), reason)
    {
      ghost var q0, log0 := queue, log;
      FlushLoop(reason);
      RejectAll(q0, reason);
      Bookkeeping(log0, Reject(q0, reason), [], q0, store.Contents(), store.Contents());
    }

    /** The loop of `Flush`, against the queue and the log alone. */
    method FlushLoop(reason: Signal)
      modifies this`queue, this`log
      ensures queue == [] && log == old(log) + Reject(old(queue), reason)
    {
      ghost var q0, log0 := queue, log;
      ghost var done: seq<Task> := [];
      while queue != []
        invariant q0 == done + queue
        invariant log == log0 + Reject(done, reason)
        decreases |queue|
      {
        var entry := Delivery(TaskCb(queue[0].id), Error(reason));
        RejectAppend(done, [queue[0]], reason);
        assert Reject([queue[0]], reason) == [entry];
        Assoc(log0, Reject(done, reason), [entry]);
        log := log + [entry];
        done := done + [queue[0]];
        queue := queue[1..];
      }
      assert done == q0;
    }

    /**
     * `reader(read)`: attaches upstream and starts the demand loop; after an abort
     * it only flushes the queue with the abort reason and attaches nothing.
     */
    method Attach() returns (pulling: bool)
      requires Valid()
      modifies this`attached, this`queue, this`log, this`reading, this`pullPending, store
      ensures Valid()
      ensures old(abort).Some? ==>
        && queue == [] && log == old(log) + Reject(old(queue), old(abort).value)
        && store.Contents() == old(store.Contents()) && !pulling
        && attached == old(attached) && reading == old(reading) && pullPending == old(pullPending)
      ensures old(abort).None? ==>
        var d := Demand.Drain(old(queue), old(store.Contents()), ended, false);
        && attached && queue == d.queue && store.Contents() == d.buf && log == old(log) + d.delivered
        && pulling == (d.wantMore && !old(reading) && !streaming)
        && reading == (old(reading) || pulling) && pullPending == (old(pullPending) || pulling)
    {
      if abort.Some? {
        Flush(abort.value);
        pulling := false;
        return;
      }
      attached := true;
      pulling := More();
    }

    /**
     * `reader.abort(err, cb)`: records the reason (`true` when none is given). With
     * upstream attached it takes the `reading` lock and asks upstream to stop, the
     * rest waiting for `OnAbortAck`; the lock stays taken until a pending pull
     * completes (`OnPullResult` frees it; the acknowledgement does not). Without
     * upstream it calls `cb(null)`.
     */
    method Abort(reason: Option<Signal>, cb: Option<TaskId>)
      requires Valid()
      modifies this`abort, this`reading, this`acks, this`log
      ensures Valid()
      ensures abort == Some(reason.GetOr(End))
      ensures old(attached) ==> reading && acks == old(acks) + [cb] && log == old(log)
      ensures !old(attached) ==>
        && reading == old(reading) && acks == old(acks)
        && log == old(log) + (if cb.Some? then [Delivery(AbortCb(cb.value), NoError)] else [])
    {
      abort := Some(reason.GetOr(End));
      if attached {
        reading := true;
        acks := acks + [cb];
      } else if cb.Some? {
        LogAbortCallback(Delivery(AbortCb(cb.value), NoError));
      }
    }

    /**
     * Upstream acknowledges the oldest outstanding abort: every queued read is
     * called back with the current abort reason, in order, and then that abort's
     * own callback.
     */
    method OnAbortAck()
      requires Valid() && acks != []
      modifies this`acks, this`queue, this`log
      ensures Valid()
      ensures acks == old(acks)[1..] && queue == []
      ensures old(abort).Some?
      ensures old(acks)[0].None? ==> log == old(log) + Reject(old(queue), old(abort).value)
      ensures old(acks)[0].Some? ==>
        log == old(log) + Reject(old(queue), old(abort).value) + [Delivery(AbortCb(old(acks)[0].value), Error(old(abort).value))]
    {
      var cb := acks[0];
      acks := acks[1..];
      Flush(abort.value);
      ghost var flushed := log;
      assert flushed == old(log) + Reject(old(queue), old(abort).value);
      if cb.Some? {
        LogAbortCallback(Delivery(AbortCb(cb.value), Error(abort.value)));
      }
    }

    /** Records a call of an abort callback, which hands out no bytes. */
    method LogAbortCallback(entry: Delivery)
      requires Valid() && entry.target.AbortCb? && !entry.outcome.Data?
      modifies this`log
      ensures Valid() && log == old(log) + [entry]
    {
      assert [entry][1..] == [];
      assert TaskIds([entry]) == [] && DataOf([entry]) == [];
      Bookkeeping(log, [entry], queue, queue, store.Contents(), store.Contents());
      log := log + [entry];
    }

    /**
     * A batch `read(len, cb)`: queues the request and runs the demand loop. `len` is
     * absent when it is not a finite number. The abort flag is not consulted.
     */
    method Read(len: Option<nat>, id: TaskId) returns (pulling: bool)
      requires Valid()
      modifies this`queue, this`submitted, this`log, this`reading, this`pullPending, store
      ensures Valid()
      ensures submitted == old(submitted) + [id]
      ensures var d := Demand.Drain(old(queue) + [Task(len, id)], old(store.Contents()), ended, abort.Some?);
        && queue == d.queue && store.Contents() == d.buf && log == old(log) + d.delivered
        && pulling == (d.wantMore && !old(reading) && attached && !streaming)
      ensures pulling ==> !old(pullPending)
      ensures reading == (old(reading) || pulling) && pullPending == (old(pullPending) || pulling)
    {
      Enqueue(Task(len, id));
      pulling := More();
    }

    /** `requestQueue.push(task)`. */
    method Enqueue(t: Task)
      requires Valid()
      modifies this`queue, this`submitted
      ensures Valid()
      ensures queue == old(queue) + [t] && submitted == old(submitted) + [t.id]
    {
      IdsAppend(queue, [t]);
      queue := queue + [t];
      submitted := submitted + [t.id];
    }

    /** `read()` without a callback: switches to streaming mode for good. */
    method StartStreaming()
      requires Valid()
      modifies this`streaming
      ensures Valid() && streaming
    {
      streaming := true;
    }

    /**
     * One pull on the streaming source `read()` returned; `aborting` says whether the
     * pull carries an abort. Without one, while the `reading` lock is held (a pull in
     * flight, or an abort made with upstream attached) or bytes are held, it queues a
     * request for whatever is there and drains (no new pull is made, the reader being
     * in streaming mode). A pull with an abort, and any pull made while neither is
     * held, goes straight to upstream, and nothing here changes.
     */
    method StreamPull(id: TaskId, aborting: bool) returns (route: Route)
      requires Valid() && streaming
      modifies this`queue, this`submitted, this`log, this`reading, this`pullPending, store
      ensures Valid()
      ensures route == Queued <==> !aborting && (old(reading) || |old(store.Contents())| > 0)
      ensures route == Queued ==>
        var d := Demand.Drain(old(queue) + [Task(None, id)], old(store.Contents()), ended, abort.Some?);
        && submitted == old(submitted) + [id]
        && queue == d.queue && store.Contents() == d.buf && log == old(log) + d.delivered
      ensures route == Direct ==>
        && queue == old(queue) && store.Contents() == old(store.Contents())
        && log == old(log) && submitted == old(submitted)
      ensures reading == old(reading) && pullPending == old(pullPending)
    {
      if (reading || store.Has(Some(1))) && !aborting {
        Enqueue(Task(None, id));
        var pulling := More();
        route := Queued;
      } else {
        route := Direct;
      }
    }
  }

  /**
   * A drain keeps the reader's bookkeeping: read callbacks called plus reads
   * still queued, and bytes handed out plus bytes held, are as before.
   */
  lemma DrainKeepsInvariant(log: seq<Delivery>, q: seq<Task>, buf: seq<byte>, ended: Option<Signal>, aborted: bool)
    ensures var d := Demand.Drain(q, buf, ended, aborted);
      && TaskIds(log + d.delivered) + Ids(d.queue) == TaskIds(log) + Ids(q)
      && DataOf(log + d.delivered) + d.buf == DataOf(log) + buf
  {
    var d := Demand.Drain(q, buf, ended, aborted);
    DrainFifo(q, buf, ended, aborted);
    DrainConservesBytes(q, buf, ended, aborted);
    Bookkeeping(log, d.delivered, d.queue, q, d.buf, buf);
  }

  /** Appending `dd` to a log keeps the bookkeeping when `dd` accounts for the queue and bytes it consumed. */
  lemma Bookkeeping(log: seq<Delivery>, dd: seq<Delivery>, q2: seq<Task>, q: seq<Task>, b2: seq<byte>, b: seq<byte>)
    requires TaskIds(dd) + Ids(q2) == Ids(q) && DataOf(dd) + b2 == b
    ensures TaskIds(log + dd) + Ids(q2) == TaskIds(log) + Ids(q)
    ensures DataOf(log + dd) + b2 == DataOf(log) + b
  {
    TaskIdsAppend(log, dd);
    DataOfAppend(log, dd);
    Assoc(TaskIds(log), TaskIds(dd), Ids(q2));
    Assoc(DataOf(log), DataOf(dd), b2);
  }

  lemma {:induction false} IdsAppend(a: seq<Task>, b: seq<Task>)
    ensures Ids(a + b) == Ids(a) + Ids(b)
  {
    if a == [] {
      assert a + b == b;
    } else {
      assert (a + b)[1..] == a[1..] + b;
      IdsAppend(a[1..], b);
    }
  }

  /** One resolved head task moves from the pending drain to the deliveries already made. */
  lemma DrainStep(q: seq<Task>, buf: seq<byte>, ended: Option<Signal>, aborted: bool,
                  done: seq<Delivery>, o: Outcome, rest: seq<byte>)
    requires q != [] && Resolve(q[0], buf, ended) == Some((o, rest))
    ensures Prepend(done, Demand.Drain(q, buf, ended, aborted))
         == Prepend(done + [Delivery(TaskCb(q[0].id), o)], Demand.Drain(q[1..], rest, ended, aborted))
  {
    var e := Demand.Drain(q[1..], rest, ended, aborted);
    assert Demand.Drain(q, buf, ended, aborted) == Prepend([Delivery(TaskCb(q[0].id), o)], e);
    Assoc(done, [Delivery(TaskCb(q[0].id), o)], e.delivered);
  }

  /** `Drain` results with `ds` called before those it records. */
  function Prepend(ds: seq<Delivery>, d: Drained): Drained
  {
    d.(delivered := ds + d.delivered)
  }
}
