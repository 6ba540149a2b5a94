# WaterCrawl client: the crawl-status bridge, modelled in Dafny

`WaterCrawlAPIClient.monitorCrawlRequest` opens the status stream of a crawl
request and turns the events the stream pushes into `processEvent` into an async
generator the caller pulls from. The bridge between the two sides has four pieces
of state: the `events` buffer, the `resolveNext` waiter slot, the `isDone` flag and
the stored `streamError`. `scrapeUrl` builds on it. It creates a crawl request
and, when asked to wait, consumes the generator until the first `result` event.

JavaScript runs all of this on one thread. So the bridge is modelled as a
deterministic transition system over an explicit trace of actions:

- `Produce(e)` is the stream calling `processEvent(e)`.
- `Complete` is the `finally` handler.
- `Fail(r)` is the `catch` handler followed by `finally`.
- `Pull` is one iteration of the generator's loop, or the code after it once
  the loop condition fails.

Each action is a pure step on an immutable `Bridge.State`. `Bridge.Run` folds a
trace into the final state and one `Signal` per action. The signal says whether
the event was buffered or handed to the waiter, what the generator yielded,
whether it parked, and whether it returned or threw.

The model follows the code as written. Two behaviours of the code differ from
what the code itself evidently intends:

- The value passed to the waiter is dropped. Line 57 resolves the waiter with
  `{ value: event, done: false }`, an iterator result meant for the consumer.
  The bare `await` at line 81 discards it, so an event that arrives while the
  consumer is parked is never yielded.
- Completion and failure never resume a parked consumer. The handlers at lines
  68-73 set `isDone` but do not call `resolveNext`. The comment at line 87
  expects the generator to carry on after the stream ends, but a generator parked
  at line 81 never gets there.

Both are proved below and listed under "Findings". The code has no
cancellation, so the model has none. The second drain loop (`src/index.ts:88-90`)
can never run: the first loop only exits with an empty buffer, and no await sits
between the two. The model's exit branch therefore goes straight to the error
check.

Files:

- `wrappers.dfy`: `Option` and `Result`.
- `crawl_events.dfy`: events, payloads, rejection reasons.
- `bridge.dfy`: the state machine, and `RunWith`, the fold of a step function over a trace.
- `bridge_properties.dfy`: trace theorems.
- `scrape.dfy`: `scrapeUrl`.
- `corrected_bridge.dfy`: the intended bridge, used for the findings.

## Model

| member | source | states |
|---|---|---|
| Bridge.OnEvent | src/index.ts:55-62 | With a waiter present, the event is handed off, the waiter slot is cleared and the buffer is unchanged. Without one, the event is appended at the buffer tail. In both cases `isDone` and `streamError` are untouched. |
| Bridge.OnComplete | src/index.ts:71-73 | Sets done. Buffer, error and generator position are unchanged, so a parked generator stays parked. |
| Bridge.OnFail | src/index.ts:68-70 | Records the reason as the stored error and sets done. Buffer and generator position are unchanged. |
| Bridge.Next | src/index.ts:77-95 | A pull yields iff the generator is runnable and the buffer is non-empty, and then it yields the head, removes it, and leaves the generator runnable (paused at the `yield`). It parks iff the buffer is empty and the stream is not done. It raises only when the buffer is empty, the stream is done and the stored error is truthy, and it raises that error. Done with no truthy error and an empty buffer ends normally. A parked generator is blocked, and that pull changes nothing, so the generator stays suspended. A finished one keeps ending. Done and error are never changed. |
| Bridge.Step | src/index.ts:55-95 | Every action keeps the reachable-state invariant. A parked generator has an empty buffer, and a stored error implies done. Done is never cleared. A finished generator stays finished. |
| BridgeProperties.RunKeepsValid | src/index.ts:51-60 | Over any trace, a parked generator has an empty buffer, and a stored error implies done. |
| BridgeProperties.DoneIsAbsorbing | src/index.ts:68-73 | Once `isDone` is set, no trace clears it. |
| BridgeProperties.YieldsFollowBuffer | src/index.ts:60-79 | Over any trace, the events yielded followed by the events still buffered equal the initial buffer followed by every event appended by the callback, in arrival order. |
| BridgeProperties.YieldsArePrefixOfKept | src/index.ts:77-79 | From the initial state, the yielded events are a prefix of the buffered events, so there is no reordering and nothing is yielded that was not buffered. |
| BridgeProperties.ProducedIsKeptOrHandedOff | src/index.ts:55-62 | Every produced event is either buffered or handed to the waiter, exactly once, as multisets. |
| BridgeProperties.NoDuplicateYields | src/index.ts:60-79 | No event is yielded more often than the stream produced it. |
| BridgeProperties.HandedOffNeverYielded | src/index.ts:56-81 | On every trace from the start, the yielded events plus the events handed to the waiter never exceed the produced events, as multisets. So each hand-off costs one delivery of that event. |
| BridgeProperties.ErrorAfterDrain | src/index.ts:77-95 | When a trace ends by throwing the stored error, the buffer is empty and every event ever buffered has already been yielded. |
| BridgeProperties.EndIsFinal | src/index.ts:92-95 | After the generator has returned or thrown, every later pull reports the end and nothing more is yielded. |
| BridgeProperties.ParkedAfterSettleHangs | src/index.ts:68-83 | A parked generator whose stream has settled is never resumed. With no further event, every pull stays blocked and nothing is yielded. |
| BridgeProperties.HandedOffEventIsDropped | src/index.ts:56-58 | The trace pull, produce e, pull, complete, pull gives park, hand-off, park, settled, blocked. `e` was handed off but nothing is yielded, and the generator ends parked with done set. |
| BridgeProperties.CompletionLeavesConsumerParked | src/index.ts:71-83 | After pull then complete, the generator is parked with done set. Any event-free continuation keeps every pull blocked. |
| BridgeProperties.BufferedThenFailure | src/index.ts:68-95 | Pull, then three events (the first handed off, two buffered), one pull, a failure, three pulls: the buffered events are yielded in order, then the error is raised, then the end. |
| BridgeProperties.FalsyRejectionEndsCleanly | src/index.ts:93-95 | After a buffered event is yielded, a rejection with a falsy reason is recorded, and the next pulls end without throwing. |
| Scrape.FirstResult | src/index.ts:124-128 | The result is absent iff no event has type `result`. Otherwise it is the `data` of an event with type `result` that has no such event before it. |
| Scrape.ScrapeUrl | src/index.ts:120-130 | Without `sync`, the created request is returned. With `sync`, the call succeeds iff the stream holds a `result` event, and then returns the data of the first one. Otherwise it fails with the generator's error, or with "No result received from crawl" when the generator returned. The generator's error is truthy, as line 93 only throws a truthy one. |
| Scrape.HandedOffResultsNeverReachScrape | src/index.ts:56-128 | On every trace, if every produced `result` event was handed to the waiter, the generator yields no `result` event, so `scrapeUrl`'s loop finds none. |
| Scrape.ScrapeMissesHandedOffResult | src/index.ts:56-130 | On the trace pull, produce a `result` event, pull, complete, pull, and on every event-free continuation after it, no `result` reaches `scrapeUrl`'s loop and every later pull stays blocked, so the call never settles. |

## Left out

- HTTP calls (`get`, `post`, `delete`, `streamEvents` in the base client) and `axios.get` in `downloadResult`: network I/O in code outside this model. The stream's callbacks are the `Produce`, `Complete` and `Fail` actions. The created request is a parameter of `Scrape.ScrapeUrl`.
- The request wrappers `getCrawlRequestsList`, `getCrawlRequest`, `createCrawlRequest`, `stopCrawlRequest`, `downloadCrawlRequest`, `getCrawlRequestResults` and the URL templates: marshalling with no behaviour of their own.
- `finally { await streamPromise }` (src/index.ts:96-99), and the generator's `return()` when `scrapeUrl` leaves the `for await` early: promise scheduling. Interleavings are explicit trace steps instead.
- Cancellation: the code has no `cancel()` or `close()`.
- Payload shapes from `types.js`, which is not part of this model: `data` is an opaque `Payload`, and an event is its `type` tag and `data`.
- Promise scheduling order: the source calls `processEvent` only after the first pull has started the stream and not after the stream settles, and a resumed generator runs before a later completion handler. The step functions accept every action in every state, as the code has no guard. So the all-trace theorems also cover orders the runtime never produces, and the concrete traces are chosen among those it does.
- Scrape.ScrapeUrl: takes the generator's output as a finite sequence plus how it ended. A generator that never finishes, as in `BridgeProperties.ParkedAfterSettleHangs`, corresponds to a `scrapeUrl` call that never settles, and no result value represents that.

## Findings

| source | as written | input that shows it | evidently intended | confidence | as-written member | corrected member |
|---|---|---|---|---|---|---|
| src/index.ts:56-58 | The event is passed to `resolveNext`, but the bare `await` at line 81 discards it. The loop then finds an empty buffer and parks again. | pull, produce `e`, pull, complete, pull: `e` is never yielded, and the last pull stays pending (`BridgeProperties.HandedOffEventIsDropped`) | An event that arrives while the consumer waits is yielded to it | high (not executed) | BridgeProperties.HandedOffNeverYielded | CorrectedBridge.NoOmission |
| src/index.ts:68-73 | The `catch` and `finally` handlers set `isDone` but never call `resolveNext`, so a generator parked at line 81 is never resumed | pull, complete, pull: the generator is still parked and every further pull stays pending | Completion or failure resumes the parked generator, which then ends or throws | high (not executed) | BridgeProperties.ParkedAfterSettleHangs | CorrectedBridge.DrainsAfterSettle |

`CorrectedBridge` appends every event to the buffer. The event callback, completion and failure each resume a parked generator, and the generator loop is `Bridge.Next` unchanged.

- `CorrectedBridge.NoOmission` proves that the yielded events followed by the buffer are exactly the produced events.
- `CorrectedBridge.DrainsAfterSettle` proves that once the stream settles, `|buffer| + 1` pulls yield the buffer and then end or raise.
- `CorrectedBridge.ParkedConsumerReceivesEvent` replays the first finding's trace and shows the event delivered and the generator ending.
