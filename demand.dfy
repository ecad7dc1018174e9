/**
 * The request queue of `src/index.ts` and a reference definition of what one
 * `drain` does to it, stated on values: the queue, the bytes held and the
 * end/abort flags.
 */
module Demand {
  import opened Wrappers
  import opened Bytes
  import Text

  /** Stands for one completion callback supplied by a caller. */
  type TaskId = nat

  /**
   * An end-or-error value of the pull-stream protocol: `true` (a clean end) or
   * an error object, identified here by its message.
   */
  datatype Signal = End | Failure(message: string)

  /**
   * What a callback is called with. A `Shortfall(have, wanted)` is an `Error` whose
   * message is `ShortfallMessage(have, wanted)`.
   */
  datatype Outcome =
    | Data(bytes: seq<byte>)                  // cb(null, bytes)
    | Error(signal: Signal)                   // cb(signal)
    | Shortfall(have: nat, wanted: nat)       // cb(new Error(ShortfallMessage(have, wanted)))
    | NoError                                 // cb(null)

  /** Whose callback is called: a read's, or an `abort` caller's. */
  datatype Target = TaskCb(id: TaskId) | AbortCb(id: TaskId)

  /** One callback invocation. */
  datatype Delivery = Delivery(target: Target, outcome: Outcome)

  /** A queued read: the number of bytes it wants (absent for "whatever is there") and its callback. */
  datatype Task = Task(length: Option<nat>, id: TaskId)

  /** The text of the error a shortfall is delivered as. */
  function ShortfallMessage(have: nat, wanted: nat): string
  {
    "stream ended with:" + Text.Decimal(have) + " but wanted:" + Text.Decimal(wanted)
  }

  /** The shortfall message names both numbers, and each can be read back from it. */
  lemma ShortfallMessageNames(have: nat, wanted: nat)
    ensures var m, h := ShortfallMessage(have, wanted), Text.Decimal(have);
      && m[..18] == "stream ended with:"
      && m[18..18 + |h|] == h && Text.DecimalValue(m[18..18 + |h|]) == have
      && m[18 + |h|..30 + |h|] == " but wanted:"
      && m[30 + |h|..] == Text.Decimal(wanted) && Text.DecimalValue(m[30 + |h|..]) == wanted
  {
    var h, w := Text.Decimal(have), Text.Decimal(wanted);
    Parts("stream ended with:", h, " but wanted:", w);
    Text.DecimalRoundTrip(have);
    Text.DecimalRoundTrip(wanted);
  }

  /** The callbacks of queued reads, front to back. */
  function Ids(q: seq<Task>): seq<TaskId>
  {
    if q == [] then [] else [q[0].id] + Ids(q[1..])
  }

  /** The read callback one log entry calls, if it is a read's. */
  function TaskIdOf(e: Delivery): seq<TaskId>
  {
    if e.target.TaskCb? then [e.target.id] else []
  }

  /** The bytes one log entry hands out. */
  function BytesOf(e: Delivery): seq<byte>
  {
    if e.outcome.Data? then e.outcome.bytes else []
  }

  /** The read callbacks a log has called, in order. */
  function TaskIds(log: seq<Delivery>): seq<TaskId>
  {
    if log == [] then [] else TaskIdOf(log[0]) + TaskIds(log[1..])
  }

  /** The bytes a log has handed out, in order. */
  function DataOf(log: seq<Delivery>): seq<byte>
  {
    if log == [] then [] else BytesOf(log[0]) + DataOf(log[1..])
  }

  lemma {:induction false} TaskIdsAppend(a: seq<Delivery>, b: seq<Delivery>)
    ensures TaskIds(a + b) == TaskIds(a) + TaskIds(b)
  {
    if a == [] {
      assert a + b == b;
    } else {
      assert (a + b)[1..] == a[1..] + b;
      TaskIdsAppend(a[1..], b);
    }
  }

  lemma {:induction false} DataOfAppend(a: seq<Delivery>, b: seq<Delivery>)
    ensures DataOf(a + b) == DataOf(a) + DataOf(b)
  {
    if a == [] {
      assert a + b == b;
    } else {
      assert (a + b)[1..] == a[1..] + b;
      DataOfAppend(a[1..], b);
    }
  }

  /** `!task.length`: no length, or length 0, asks for whatever is buffered. */
  predicate WantsAny(t: Task)
  {
    t.length.None? || t.length == Some(0)
  }

  /** `State.has` on the bytes held: `Accumulator.State.Has` read on `Contents()` (tied by `Reader.ResolveHead`). */
  predicate Has(n: Option<nat>, buf: seq<byte>)
  {
    if n.None? then |buf| > 0 else |buf| >= n.value
  }

  /**
   * `State.get` on the bytes held, when `Has` allows it: the bytes handed out and
   * those kept. It is `Accumulator.State.Get` read on `Contents()` (tied by `Reader.ResolveHead`).
   */
  function Take(n: Option<nat>, buf: seq<byte>): (seq<byte>, seq<byte>)
    requires n.Some? ==> n.value <= |buf|
  {
    if n.None? then (buf, []) else (buf[..n.value], buf[n.value..])
  }

  /**
   * One turn of the `drain` loop on the head task: the outcome for it and the
   * bytes still held, or `None` when the head must wait for more data.
   */
  function Resolve(t: Task, buf: seq<byte>, ended: Option<Signal>): Option<(Outcome, seq<byte>)>
  {
    if WantsAny(t) && Has(Some(1), buf) then
      var (out, rest) := Take(None, buf); Some((Data(out), rest))
    else if Has(t.length, buf) then
      var (out, rest) := Take(t.length, buf); Some((Data(out), rest))
    else if ended == Some(End) && t.length.Some? && t.length.value > 0 && |buf| < t.length.value then
      Some((Shortfall(|buf|, t.length.value), buf))
    else if ended.Some? then
      Some((Error(ended.value), buf))
    else
      None
  }

  /** The state `drain` leaves: the queue, the bytes held, the callbacks called, and its return value. */
  datatype Drained = Drained(queue: seq<Task>, buf: seq<byte>, delivered: seq<Delivery>, wantMore: bool)

  /**
   * `drain()`: resolves head tasks while it can, then answers whether another
   * upstream pull is wanted (`requestQueue.length || !state.has(1) || abort`).
   */
  function Drain(q: seq<Task>, buf: seq<byte>, ended: Option<Signal>, aborted: bool): Drained
    decreases |q|
  {
    if q == [] then
      Drained([], buf, [], !Has(Some(1), buf) || aborted)
    else
      match Resolve(q[0], buf, ended)
      case None => Drained(q, buf, [], true)
      case Some((o, rest)) =>
        var d := Drain(q[1..], rest, ended, aborted);
        d.(delivered := [Delivery(TaskCb(q[0].id), o)] + d.delivered)
  }

  /**
   * `drain` only ever removes the head: the callbacks it calls are those of a
   * prefix of the queue, in queue order, and the rest of the queue is left as it was.
   */
  lemma {:induction false} DrainFifo(q: seq<Task>, buf: seq<byte>, ended: Option<Signal>, aborted: bool)
    ensures var d := Drain(q, buf, ended, aborted);
      && |d.delivered| <= |q|
      && d.queue == q[|d.delivered|..]
      && (forall i :: 0 <= i < |d.delivered| ==> d.delivered[i].target == TaskCb(q[i].id))
      && TaskIds(d.delivered) + Ids(d.queue) == Ids(q)
    decreases |q|
  {
    var d := Drain(q, buf, ended, aborted);
    if q != [] {
      match Resolve(q[0], buf, ended)
      case None =>
      case Some((o, rest)) =>
        var e := Drain(q[1..], rest, ended, aborted);
        DrainFifo(q[1..], rest, ended, aborted);
        assert d.delivered == [Delivery(TaskCb(q[0].id), o)] + e.delivered;
        assert d.delivered[1..] == e.delivered;
        assert q[1..][|e.delivered|..] == q[|d.delivered|..];
        forall i | 0 <= i < |d.delivered|
          ensures d.delivered[i].target == TaskCb(q[i].id)
        {
          if i > 0 {
            assert d.delivered[i] == e.delivered[i - 1];
          }
        }
    }
  }

  /** The bytes `drain` hands out, followed by those it keeps, are the bytes it was given. */
  lemma {:induction false} DrainConservesBytes(q: seq<Task>, buf: seq<byte>, ended: Option<Signal>, aborted: bool)
    ensures var d := Drain(q, buf, ended, aborted); DataOf(d.delivered) + d.buf == buf
    decreases |q|
  {
    if q != [] {
      match Resolve(q[0], buf, ended)
      case None =>
      case Some((o, rest)) =>
        var d := Drain(q, buf, ended, aborted);
        var e := Drain(q[1..], rest, ended, aborted);
        DrainConservesBytes(q[1..], rest, ended, aborted);
        assert d.delivered == [Delivery(TaskCb(q[0].id), o)] + e.delivered;
        assert d.delivered[1..] == e.delivered;
        if o.Data? {
          assert o.bytes + rest == buf;
        } else {
          assert rest == buf;
        }
    }
  }

  /**
   * `drain` stops only at a head it cannot resolve before the stream has ended:
   * the stream has not ended and too few bytes are held; its return value says
   * whether more data is wanted.
   */
  lemma {:induction false} DrainStops(q: seq<Task>, buf: seq<byte>, ended: Option<Signal>, aborted: bool)
    ensures var d := Drain(q, buf, ended, aborted);
      && (d.queue != [] ==>
            && ended.None?
            && (d.queue[0].length.None? ==> |d.buf| == 0)
            && (d.queue[0].length.Some? ==> |d.buf| < d.queue[0].length.value))
      && d.wantMore == (d.queue != [] || |d.buf| == 0 || aborted)
    decreases |q|
  {
    if q != [] {
      match Resolve(q[0], buf, ended)
      case None =>
      case Some((o, rest)) =>
        DrainStops(q[1..], rest, ended, aborted);
    }
  }

  /** What a read's callback may receive, given the task and the end state. */
  ghost predicate Fits(t: Task, o: Outcome, ended: Option<Signal>)
  {
    match o
    case Data(b) =>
      && (t.length.None? ==> |b| >= 1)
      && (t.length.Some? && t.length.value > 0 ==> |b| == t.length.value)
    case Shortfall(have, wanted) => ended == Some(End) && t.length == Some(wanted) && have < wanted
    case Error(s) => ended == Some(s)
    case NoError => false
  }

  /**
   * Every callback `drain` calls gets what its task asked for: exactly `L` bytes
   * for a length `L > 0`, at least one byte for no length; a shortfall only after
   * a clean end, naming the wanted length; otherwise the recorded end signal itself.
   */
  lemma {:induction false} DrainOutcomes(q: seq<Task>, buf: seq<byte>, ended: Option<Signal>, aborted: bool)
    ensures var d := Drain(q, buf, ended, aborted);
      && |d.delivered| <= |q|
      && forall i :: 0 <= i < |d.delivered| ==> Fits(q[i], d.delivered[i].outcome, ended)
    decreases |q|
  {
    if q != [] {
      match Resolve(q[0], buf, ended)
      case None =>
      case Some((o, rest)) =>
        var d := Drain(q, buf, ended, aborted);
        var e := Drain(q[1..], rest, ended, aborted);
        DrainOutcomes(q[1..], rest, ended, aborted);
        assert d.delivered == [Delivery(TaskCb(q[0].id), o)] + e.delivered;
        forall i | 0 <= i < |d.delivered|
          ensures Fits(q[i], d.delivered[i].outcome, ended)
        {
          if i > 0 {
            assert d.delivered[i] == e.delivered[i - 1];
            assert q[i] == q[1..][i - 1];
          }
        }
    }
  }

  /** Before the stream ends, every callback `drain` calls receives data. */
  lemma {:induction false} DrainBeforeEnd(q: seq<Task>, buf: seq<byte>, aborted: bool)
    ensures var d := Drain(q, buf, None, aborted);
      forall i :: 0 <= i < |d.delivered| ==> d.delivered[i].outcome.Data?
  {
    DrainOutcomes(q, buf, None, aborted);
  }

  /** Once the stream has ended, `drain` never leaves a task waiting. */
  lemma {:induction false} DrainAfterEnd(q: seq<Task>, buf: seq<byte>, ended: Option<Signal>, aborted: bool)
    requires ended.Some?
    ensures Drain(q, buf, ended, aborted).queue == []
    ensures |Drain(q, buf, ended, aborted).delivered| == |q|
  {
    DrainStops(q, buf, ended, aborted);
    DrainFifo(q, buf, ended, aborted);
  }

  /** A second `drain` right after one does nothing. */
  lemma {:induction false} DrainIdempotent(q: seq<Task>, buf: seq<byte>, ended: Option<Signal>, aborted: bool)
    ensures var d := Drain(q, buf, ended, aborted);
      Drain(d.queue, d.buf, ended, aborted) == Drained(d.queue, d.buf, [], d.wantMore)
  {
    DrainStops(q, buf, ended, aborted);
  }

  /**
   * A head task with no length (or length 0) takes every buffered byte at once,
   * even while more are on the way; nothing is held afterwards.
   */
  lemma DrainAnyTakesAll(q: seq<Task>, buf: seq<byte>, ended: Option<Signal>, aborted: bool)
    requires q != [] && WantsAny(q[0]) && |buf| >= 1
    ensures var d := Drain(q, buf, ended, aborted);
      && d.delivered != [] && d.delivered[0] == Delivery(TaskCb(q[0].id), Data(buf))
      && d.buf == []
  {
    DrainConservesBytes(q[1..], [], ended, aborted);
  }

  /**
   * The answer `drain` owes a head task `t` when `held` are the bytes held and
   * `ended` the end state: data exactly when enough bytes are held (any byte for
   * no length or length 0, all of them taken; `L` bytes, the oldest, for a length
   * `L`), whatever the end state; otherwise, after a clean end, the shortfall naming
   * the bytes held and the length wanted; otherwise the end value itself.
   */
  ghost predicate Answers(t: Task, held: seq<byte>, ended: Option<Signal>, o: Outcome)
  {
    var enough := (WantsAny(t) && |held| >= 1) || (t.length.Some? && |held| >= t.length.value);
    var short := ended == Some(End) && t.length.Some? && t.length.value > 0;
    && !o.NoError?
    && (o.Data? <==> enough)
    && (o.Data? ==> |o.bytes| == (if WantsAny(t) then |held| else t.length.value) && o.bytes <= held)
    && (o.Shortfall? <==> !enough && short)
    && (o.Shortfall? ==> o == Shortfall(|held|, t.length.value))
    && (o.Error? <==> !enough && !short && ended.Some?)
    && (o.Error? ==> o.signal == ended.value)
  }

  /**
   * One turn of the loop gives the head the answer `Answers` requires and keeps the
   * bytes it does not hand out; it waits exactly when too few bytes are held and the
   * stream has not ended.
   */
  lemma ResolveAnswers(t: Task, buf: seq<byte>, ended: Option<Signal>)
    ensures Resolve(t, buf, ended).None? <==>
      ended.None? && !((WantsAny(t) && |buf| >= 1) || (t.length.Some? && |buf| >= t.length.value))
    ensures Resolve(t, buf, ended).Some? ==>
      var (o, rest) := Resolve(t, buf, ended).value;
      Answers(t, buf, ended, o) && BytesOf(Delivery(TaskCb(t.id), o)) + rest == buf
  {
  }

  /**
   * The answers of a drain, front to back: each goes to the next task in the
   * queue and is the one `Answers` requires given the bytes still held at that
   * point, which are what is left after the earlier answers took theirs.
   */
  ghost predicate AnsweredInTurn(q: seq<Task>, buf: seq<byte>, ended: Option<Signal>, ds: seq<Delivery>)
    decreases |ds|
  {
    ds == [] ||
      (&& q != []
       && ds[0].target == TaskCb(q[0].id)
       && Answers(q[0], buf, ended, ds[0].outcome)
       && |BytesOf(ds[0])| <= |buf|
       && AnsweredInTurn(q[1..], buf[|BytesOf(ds[0])|..], ended, ds[1..]))
  }

  /** Every answer `drain` gives is exactly the one its task is owed, for every end state. */
  lemma {:induction false} DrainAnswers(q: seq<Task>, buf: seq<byte>, ended: Option<Signal>, aborted: bool)
    ensures AnsweredInTurn(q, buf, ended, Drain(q, buf, ended, aborted).delivered)
    decreases |q|
  {
    if q != [] {
      ResolveAnswers(q[0], buf, ended);
      match Resolve(q[0], buf, ended)
      case None =>
      case Some((o, rest)) =>
        var d := Drain(q, buf, ended, aborted);
        var e := Drain(q[1..], rest, ended, aborted);
        DrainAnswers(q[1..], rest, ended, aborted);
        assert d.delivered == [Delivery(TaskCb(q[0].id), o)] + e.delivered;
        assert d.delivered[0] == Delivery(TaskCb(q[0].id), o) && d.delivered[1..] == e.delivered;
        assert buf[|BytesOf(d.delivered[0])|..] == rest;
    }
  }

  /** The callbacks of the queued reads, each called with `reason` (an abort flush). */
  function Reject(q: seq<Task>, reason: Signal): seq<Delivery>
  {
    if q == [] then [] else [Delivery(TaskCb(q[0].id), Error(reason))] + Reject(q[1..], reason)
  }

  lemma {:induction false} RejectAppend(a: seq<Task>, b: seq<Task>, reason: Signal)
    ensures Reject(a + b, reason) == Reject(a, reason) + Reject(b, reason)
  {
    if a == [] {
      assert a + b == b;
    } else {
      assert (a + b)[1..] == a[1..] + b;
      RejectAppend(a[1..], b, reason);
    }
  }

  /** A flush calls every queued read's callback once, in queue order, and hands out no bytes. */
  lemma {:induction false} RejectAll(q: seq<Task>, reason: Signal)
    ensures |Reject(q, reason)| == |q|
    ensures forall i :: 0 <= i < |q| ==> Reject(q, reason)[i] == Delivery(TaskCb(q[i].id), Error(reason))
    ensures TaskIds(Reject(q, reason)) == Ids(q)
    ensures DataOf(Reject(q, reason)) == []
  {
    if q != [] {
      RejectAll(q[1..], reason);
      var r := Reject(q, reason);
      forall i | 0 <= i < |q|
        ensures r[i] == Delivery(TaskCb(q[i].id), Error(reason))
      {
        if i > 0 {
          assert r[i] == Reject(q[1..], reason)[i - 1];
        }
      }
    }
  }
}
