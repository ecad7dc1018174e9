# pull-reader, modelled in Dafny

pull-reader is a pull-stream sink that also acts as a source. It turns a stream of
arbitrarily sized byte chunks into answers to `read(n, cb)` requests for exact byte
counts. The model covers the two source files that hold its logic (`src/state.ts`,
`src/index.ts`).

- **`src/state.ts`, the byte accumulator.** `Accumulator.State` is a class whose
  fields are the retained chunks and their cached total length. Its methods are
  `add`, `has`, `get` and the `length` getter. `get` is split into its three
  slicing branches, and the branch that spans several chunks keeps its `while`
  loop.
- **`src/index.ts`, the reader.** `PullReader.Reader` is a class with the request
  queue, the `reading` lock, the `ended`, `streaming` and `abort` flags, and
  whether upstream is attached. Its methods model:
  - `drain` and `more`, and the callback of an upstream pull;
  - `reader(read)`, `reader.abort` and upstream's acknowledgement of an abort;
  - a batch `read`, the switch into streaming mode, and one pull on the streaming
    source.

  Every callback the reader calls is appended to the `log` field, so "what was
  called, with what, in which order" is part of the state. An upstream pull is
  two steps:
  - `More` answers whether a pull was issued;
  - `OnPullResult` is the pull's callback, taking a chunk or an end-or-error value.

  In the same way, upstream's answer to an abort is the separate step `OnAbortAck`.
- **`Demand`, a pure reference definition of one `drain`.** It works on values:
  the queue, the bytes held, and the end and abort flags. `Reader.Drain` is proved
  equal to it. The lemmas about it state what the reader promises:
  - requests are answered in FIFO order, each exactly once;
  - bytes are handed out in arrival order, and none is lost or duplicated;
  - each request gets exactly the answer it is owed: its bytes whenever enough are
    held, even after the end; otherwise, after a clean end, the shortfall naming the
    bytes held and the length wanted; otherwise the end value;
  - `drain` stops only at a request it cannot yet answer;
  - a second `drain` does nothing.

  The reader's invariant `Reader.Valid` says that:
  - read callbacks called, followed by the reads still queued, are exactly the
    reads submitted;
  - bytes handed out, followed by the bytes held, are exactly the bytes upstream
    delivered, whatever the chunking;
  - a pending pull holds the lock.

  Every public operation of the reader keeps this invariant. Inside `drain` the
  loop step `ResolveHead` briefly breaks it, taking bytes before they are logged.
- **`Scenarios`, client runs that mirror the repository's tests.** They read twice
  from 64 bytes, and they abort three waiting reads. Each run's exact callback log
  is proved. The test splits its 64 bytes into chunks at random; the run delivers
  them as one chunk, and the `Valid` invariant covers any chunking.

Other modules:
- `Bytes` holds bytes and chunk lists, with `Buffer.concat` as `Concat`.
- `Text` renders the decimal numbers in the two error messages.
- `Demand.Has` and `Demand.Take` are `Accumulator.State.Has` and `Get` read on the
  bytes held (`Contents()`); `Reader.ResolveHead` is the proof that ties the two.
- `Wrappers` holds `Option` and `Result`.

Values of the system and their counterparts in the model:
- A JavaScript length that is not a finite number is read as "no length". This is
  `None` in `Task.length`.
- The end-or-error value `true` is `Signal.End`, and an error object is
  `Signal.Failure(message)`.
- A callback is identified by a `TaskId`.

## Model

| member | source | states |
|---|---|---|
| Bytes.CalcLength | src/state.ts:67-70 | the left-fold sum of the chunk lengths is the number of bytes the chunks hold |
| Text.Decimal | src/state.ts:63 | the rendering of a count is a non-empty run of decimal digits without a leading zero |
| Text.DecimalRoundTrip | src/index.ts:71 | reading back the digits rendered for a count gives the count, so the messages lose nothing |
| Accumulator.CouldNotGet | src/state.ts:63 | the text of the error `get` throws for more bytes than are held |
| Accumulator.State.Valid | src/state.ts:66-70 | the invariant of the accumulator: the cached `_length` equals what `calcLength()` sums over `_buffers` |
| Accumulator.State.constructor | src/state.ts:1-3 | a new accumulator holds no chunk and no byte |
| Accumulator.State.Length | src/state.ts:5-7 | the cached length is the number of bytes held |
| Accumulator.State.Has | src/state.ts:18-23 | `has()` holds iff some byte is held; `has(n)` holds iff at least n bytes are held |
| Accumulator.State.Add | src/state.ts:9-16 | the chunk becomes the newest one, the length grows by its size, and the held bytes gain it at the end; the cached length stays the sum |
| Accumulator.State.Get | src/state.ts:25-65 | all bytes (no n, or n equal to the length), or exactly the first n, are returned and removed, keeping the rest in order; n above the length fails with "could not get n bytes" and leaves the state unchanged; taking everything clears the chunk list; a cut inside the first of several chunks touches only that chunk; any other cut drops whole front chunks, which together fall short of n, keeps only a tail of the next one (an empty one when the cut lands on its boundary) and leaves the rest untouched; the chunk list never grows |
| Accumulator.State.TakeAll | src/state.ts:27-35 | every held byte is returned in order and nothing is left |
| Accumulator.State.CutFirst | src/state.ts:36-45 | a cut inside the first of several chunks returns its first n bytes and touches only that chunk, which is dropped when used up |
| Accumulator.State.CutAcross | src/state.ts:46-61 | a cut across chunk boundaries returns the first n bytes and keeps the rest in order, with the length reduced by n; the whole chunks in front are dropped, and together they fall short of n; the next one keeps only a tail, which is empty when the cut lands on its boundary; the chunks after it are untouched |
| Accumulator.State.DropShort | src/state.ts:47-55 | the loop moves whole front chunks out while they fall short of n, and so stops at a chunk that reaches n: `out` is a proper prefix of the old chunk list and the chunks held are the rest of it; the bytes moved plus those held are the bytes held before |
| Accumulator.GetTwice | test/state.test.ts:36-45 | two successive gets return consecutive slices of the held bytes, wherever the chunk boundaries fall |
| Demand.ShortfallMessage | src/index.ts:71 | the text of the shortfall error; `Demand.ShortfallMessageNames` states its layout |
| Demand.ShortfallMessageNames | src/index.ts:64-72 | the shortfall message is "stream ended with:" and the bytes held, then " but wanted:" and the length wanted, and both numbers read back from it |
| Demand.DrainFifo | src/index.ts:56-78 | drain answers a prefix of the queue in queue order, only ever from the head; the rest of the queue is untouched; answered plus remaining ids are the queued ids |
| Demand.DrainConservesBytes | src/index.ts:58-63 | the bytes drain hands out, followed by those it keeps, are the bytes it was given |
| Demand.DrainStops | src/index.ts:75-80 | drain stops with requests left only before the end, at a head wanting more bytes than are held; it returns "queue non-empty or no byte held or aborted" |
| Demand.DrainOutcomes | src/index.ts:58-74 | by queue position, what kind of answer a callback may get: a length L > 0 gets exactly L bytes and no length gets at least one byte; a shortfall comes only after a clean end and names the length wanted; any other answer is the recorded end value (which answer is owed is `Demand.DrainAnswers`) |
| Demand.WantsAny | src/index.ts:58 | `!task.length`: a missing length or a length of 0 asks for whatever is held |
| Demand.Resolve | src/index.ts:58-77 | one turn of the drain loop on the head task, branch by branch; `Demand.ResolveAnswers` states what it gives |
| Demand.Answers | src/index.ts:58-74 | the answer owed to a head task given the bytes held and the end state, stated outcome by outcome as "iff" conditions independent of the branch order of `Resolve`: data iff enough bytes are held (all of them for no length or 0, the oldest L for a length L), whatever the end state; a shortfall `Shortfall(held, L)` iff not enough are held, the end was clean and L > 0; the end value itself iff not enough are held, the stream has ended and no shortfall applies; never `cb(null)` |
| Demand.ResolveAnswers | src/index.ts:58-77 | the head waits exactly when the stream has not ended and too few bytes are held; otherwise it gets the answer `Answers` requires (data iff enough bytes are held, whatever the end state; else after a clean end the shortfall with the bytes held; else the end value), and the bytes not handed out are kept |
| Demand.Drain | src/index.ts:56-81 | the reference drain: resolves head tasks while `Resolve` allows, then returns "queue non-empty or no byte held or aborted"; its properties are the Drain lemmas |
| Demand.DrainAnswers | src/index.ts:56-78 | every answer of a drain, front to back, goes to the next queued task and is exactly the one `Answers` requires given the bytes still held at that point, for every end state |
| Demand.DrainBeforeEnd | src/index.ts:58-63 | before the stream ends every answer drain gives is data |
| Demand.DrainAfterEnd | src/index.ts:64-74 | once the stream has ended, drain answers every queued request and leaves none waiting |
| Demand.DrainIdempotent | src/index.ts:56-81 | a second drain right after one answers nothing and changes nothing |
| Demand.DrainAnyTakesAll | src/index.ts:58-59 | a head request with no length (or length 0) takes every held byte in one answer, leaving none |
| Demand.RejectAll | src/index.ts:107-109 | the abort flush answers every queued request once, in queue order, with the abort reason, and hands out no bytes |
| PullReader.DrainKeepsInvariant | src/index.ts:56-81 | a drain keeps the bookkeeping: ids answered plus ids queued, and bytes handed out plus bytes held, are as before |
| PullReader.Reader.Valid | src/index.ts:42-54 | the reader's invariant: callbacks called plus reads queued are the reads submitted; bytes handed out plus bytes held are the bytes delivered; a pending pull holds the lock and implies upstream is attached; an awaited abort acknowledgement implies an abort reason |
| PullReader.Reader.constructor | src/index.ts:41-54 | a new reader has an empty queue and accumulator, no flag set, and nothing attached |
| PullReader.Reader.Drain | src/index.ts:56-81 | the queue, the bytes held, the callbacks called and the return value are those of the reference drain; the invariant is kept |
| PullReader.Reader.DrainLoop | src/index.ts:57-80 | the loop of drain, step by step against the accumulator, ends in the state the reference drain gives |
| PullReader.Reader.ResolveHead | src/index.ts:58-77 | one loop turn gives the head the reference answer and takes its bytes, and takes nothing when the head must wait |
| PullReader.Reader.More | src/index.ts:84-102 | drains, then pulls iff drain wants more, the lock was free, upstream is attached and the reader is not streaming; a pull is never issued while one is pending |
| PullReader.Reader.OnPullResult | src/index.ts:89-99 | frees the lock; an end or error is recorded and drained without a new pull; a chunk is appended and more() runs again on the enlarged buffer |
| PullReader.Reader.EndWith | src/index.ts:91-95 | the end value is recorded and the queue is drained against it |
| PullReader.Reader.Accept | src/index.ts:96-98 | the chunk is added at the end of the held bytes and the demand loop runs again |
| PullReader.Reader.Flush | src/index.ts:106-110 | every queued read is called back with the reason, in order, and the queue is left empty; the invariant is kept |
| PullReader.Reader.FlushLoop | src/index.ts:107-109 | the `while` loop of the flush (also index.ts lines 123-125): the log gains one error callback per queued read, in queue order, and the queue ends empty |
| PullReader.Reader.Attach | src/index.ts:105-115 | after an abort only the queue is flushed with the abort reason and nothing is attached; otherwise upstream is attached and more() runs |
| PullReader.Reader.Abort | src/index.ts:117-131 | the reason, or `true` when none is given, is recorded; when attached the `reading` lock is taken (a pending pull's completion frees it, the acknowledgement does not) and the acknowledgement is awaited; otherwise the callback is called with no error |
| PullReader.Reader.OnAbortAck | src/index.ts:121-127 | upstream's acknowledgement answers every queued read with the abort reason, in order, then the abort's own callback with it |
| PullReader.Reader.Read | src/index.ts:150-152 | the request joins the back of the queue and more() runs: the state is the reference drain's over the longer queue |
| PullReader.Reader.Enqueue | src/index.ts:151 | the request is appended to the queue and to the submitted ids |
| PullReader.Reader.StartStreaming | src/index.ts:153-155 | streaming mode is switched on, nothing else changes, and the invariant is kept |
| PullReader.Reader.StreamPull | src/index.ts:157-170 | queued (and drained, never pulling) iff the pull carries no abort and the `reading` lock is held (a pull in flight, or an abort made with upstream attached, which keeps the lock until a pending pull completes) or a byte is held; otherwise sent straight upstream with nothing here changed |
| Scenarios.ReadTwice | test/basic.test.ts:20-33 | upstream answers the first pull with one 64-byte chunk; read(32) then gets bytes 0 to 31 and the read(16) made in its callback gets bytes 32 to 47, with no further pull |
| Scenarios.AbortQueuedReads | test/basic.test.ts:90-114 | three waiting reads and then the abort's own callback are all called with the abort's error, in that order |

## Left out

- The `maxDelay` timeout wrapper (`src/index.ts:15-32`) and the `timeout` parameters of the factory and of `read` are not modelled, because the model has no clock. A timed-out pull looks to the model like `OnPullResult(Stop(Failure(...)))`, and the upstream abort the wrapper makes on timeout is not modelled.
- The argument shuffling of `read` (`isFunction`, a timeout passed in place of the callback) is not modelled. `Read` stands for a call with a callback, and `StartStreaming` for a call without one.
- `isInteger` is modelled only as "no length" for a non-finite value. Negative and fractional lengths are not modelled, because in JavaScript they slice oddly.
- The type check in `State.add`, which throws for a non-`Buffer`, is not modelled. The model's chunks are byte sequences by type, so that error path cannot arise.
- The streaming source's abort branch (`rawRead(abort, cb)`, `src/index.ts:160-162`) and its direct pass-through to upstream (`src/index.ts:166-168`) call upstream without touching the reader's state. `StreamPull` reports both as `Direct` with nothing changed; the upstream call itself is outside the model.
- Upstream itself is outside the model. Its pulls and acknowledgements are the explicit steps `OnPullResult` and `OnAbortAck`, and acknowledgements are assumed to come in the order the aborts were made.
- A callback that calls the reader again from inside the loop is not modelled. Such a call is modelled as a later call, as the scenarios do.
- `Buffer` memory sharing is not modelled. `get` may return a stored chunk itself, and `slice` does not copy. The model works on values, so it says nothing about aliasing.
- JavaScript numbers are doubles. Lengths in the model are unbounded naturals.
- A callback is identified only by a number. Uniqueness of those numbers is not required.
- `examples/ex1.ts` is not part of this model.

Behaviour of the code that a caller might not expect, which the model follows:
- Calling `reader.abort` again overwrites the recorded reason: `abort = err || true`. The reason is not kept from the first call.
- With no reason given, the reason is the end value `true`.
- A batch `read` made after an abort is queued like any other request, not rejected at once.
- Once streaming, a length-based `read` is accepted, not refused.
- `read(0)` while bytes are held returns all of them, because `!length` holds for 0.
- Only the end value `true` produces the shortfall message. An error end is passed on to the callback as it is.
- A pull still in flight when an abort is made frees the lock when it completes. A later end overwrites the recorded end value.
