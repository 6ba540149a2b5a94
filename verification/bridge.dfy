/**
 * The push-to-pull bridge of `monitorCrawlRequest`, exactly as written: a FIFO
 * buffer, a single waiter slot, a done flag and a stored stream error.  The
 * callback side (`processEvent`, the `catch` and `finally` handlers) and the
 * generator side (one iteration of its loop per `Pull`) are pure steps over an
 * immutable state, run on one thread in the order a trace of actions gives.
 */
module Bridge {
  import opened Wrappers
  import opened CrawlEvents

  /**
   * Where the generator is.  `Parked` is the generator suspended on the promise
   * whose resolver sits in `resolveNext`, so `Parked` holds exactly when that slot
   * is non-null.  `Running` covers "at the loop head" and "paused at a `yield`,
   * waiting for the consumer's next pull".  `Finished` is after `return` or `throw`.
   */
  datatype Phase = Running | Parked | Finished

  datatype State = State(
    buffer: seq<CrawlEvent>,   // `events`
    phase: Phase,              // generator position; Parked iff `resolveNext` is set
    done: bool,                // `isDone`
    err: Option<Rejection>     // `streamError`
  )

  /** The state right after the generator has started the stream. */
  function Init(): State {
    State([], Running, false, None)
  }

  datatype Action =
    | Produce(event: CrawlEvent)   // the stream calls `processEvent(event)`
    | Complete                     // the stream promise settles; its `finally` handler runs
    | Fail(reason: Rejection)      // the stream promise rejects; `catch` then `finally` run
    | Pull                         // the generator runs one iteration of its loop

  /** What each action did, as the producer or the consumer sees it. */
  datatype Signal =
    | Buffered(event: CrawlEvent)   // appended to the buffer
    | HandedOff(event: CrawlEvent)  // passed to the waiter's resolver
    | Settled                       // completion or failure was recorded
    | Yield(event: CrawlEvent)      // the generator yielded this event to the consumer
    | Park                          // the generator suspended on a fresh waiter
    | Blocked                       // the generator is suspended; nothing happens
    | End                           // the generator returned (or had already finished)
    | Raise(reason: Rejection)      // the generator threw the stored error

  /** Facts that hold in every state reachable from `Init`. */
  predicate Valid(s: State) {
    && (s.phase == Parked ==> s.buffer == [])
    && (s.err.Some? ==> s.done)
  }

  /** `processEvent`: hand the event to a waiting resolver, or append it to the buffer. */
  function OnEvent(s: State, e: CrawlEvent): (r: (State, Signal))
    ensures s.phase == Parked ==>
      && r.1 == HandedOff(e)
      && r.0.phase == Running
      && r.0.buffer == s.buffer
    ensures s.phase != Parked ==>
      && r.1 == Buffered(e)
      && r.0.phase == s.phase
      && r.0.buffer == s.buffer + [e]
    ensures r.0.done == s.done && r.0.err == s.err
  {
    if s.phase == Parked then
      // the resolver is called and cleared; the generator may resume
      (s.(phase := Running), HandedOff(e))
    else
      (s.(buffer := s.buffer + [e]), Buffered(e))
  }

  /** The `finally` handler: mark the stream done; a parked generator is not resumed. */
  function OnComplete(s: State): (r: State)
    ensures r.done
    ensures r.buffer == s.buffer && r.phase == s.phase && r.err == s.err
  {
    s.(done := true)
  }

  /** The `catch` handler (followed by `finally`): record the reason and mark done. */
  function OnFail(s: State, reason: Rejection): (r: State)
    ensures r.done && r.err == Some(reason)
    ensures r.buffer == s.buffer && r.phase == s.phase
  {
    s.(done := true, err := Some(reason))
  }

  /**
   * One iteration of the generator's first loop, or, once its condition
   * `!isDone || events.length > 0` is false, the code after it.  The second drain
   * loop never runs: the first loop only exits with an empty buffer, and nothing
   * can append to it before the second loop's test.
   */
  function Next(s: State): (r: (State, Signal))
    ensures r.0.done == s.done && r.0.err == s.err
    ensures r.1.Yield? <==> s.phase == Running && s.buffer != []
    ensures r.1.Yield? ==>
      r.1.event == s.buffer[0] && r.0.buffer == s.buffer[1..] && r.0.phase == Running
    ensures r.1.Park? <==> s.phase == Running && s.buffer == [] && !s.done
    ensures r.1.Park? ==> r.0.phase == Parked && r.0.buffer == []
    ensures r.1.Blocked? <==> s.phase == Parked
    ensures r.1.Blocked? ==> r.0 == s
    ensures r.1.Raise? <==>
      s.phase == Running && s.buffer == [] && s.done && s.err.Some? && Truthy(s.err.value)
    ensures r.1.Raise? ==> Some(r.1.reason) == s.err
    ensures r.1.End? <==>
      s.phase == Finished ||
      (s.phase == Running && s.buffer == [] && s.done && (s.err.None? || !Truthy(s.err.value)))
    ensures (r.1.End? || r.1.Raise?) ==> r.0.phase == Finished
    ensures !r.1.Yield? ==> r.0.buffer == s.buffer
  {
    match s.phase
    case Parked =>
      (s, Blocked)
    case Finished =>
      // an async generator that has returned or thrown answers every later pull
      // with `done: true`, whatever a late `processEvent` appended meanwhile
      (s, End)
    case Running =>
      if !s.done || |s.buffer| > 0 then
        if |s.buffer| > 0 then
          (s.(buffer := s.buffer[1..]), Yield(s.buffer[0]))
        else
          (s.(phase := Parked), Park)
      else if s.err.Some? && Truthy(s.err.value) then
        (s.(phase := Finished), Raise(s.err.value))
      else
        (s.(phase := Finished), End)
  }

  function Step(s: State, a: Action): (r: (State, Signal))
    ensures Valid(s) ==> Valid(r.0)
    ensures s.done ==> r.0.done
    ensures s.phase == Finished ==> r.0.phase == Finished
  {
    match a
    case Produce(e) => OnEvent(s, e)
    case Complete => (OnComplete(s), Settled)
    case Fail(reason) => (OnFail(s, reason), Settled)
    case Pull => Next(s)
  }

  /**
   * Runs a trace of actions through a step function, returning the final state
   * and one signal per action.
   */
  function RunWith(step: (State, Action) -> (State, Signal), s: State, t: seq<Action>)
    : (r: (State, seq<Signal>))
    ensures |r.1| == |t|
    decreases |t|
  {
    if t == [] then (s, [])
    else
      var (s1, g) := step(s, t[0]);
      var (s2, log) := RunWith(step, s1, t[1..]);
      (s2, [g] + log)
  }

  /** Unfolds a run by its first action. */
  lemma RunCons(step: (State, Action) -> (State, Signal), s: State, t: seq<Action>)
    requires t != []
    ensures RunWith(step, s, t).0 == RunWith(step, step(s, t[0]).0, t[1..]).0
    ensures RunWith(step, s, t).1 == [step(s, t[0]).1] + RunWith(step, step(s, t[0]).0, t[1..]).1
  {
  }

  /** Runs a trace through the bridge as written. */
  function Run(s: State, t: seq<Action>): (State, seq<Signal>) {
    RunWith(Step, s, t)
  }

  /** The event a single signal handed to the consumer, if any. */
  function YieldOf(g: Signal): seq<CrawlEvent> {
    if g.Yield? then [g.event] else []
  }

  /** The event a single signal appended to the buffer, if any. */
  function KeptOf(g: Signal): seq<CrawlEvent> {
    if g.Buffered? then [g.event] else []
  }

  /** The event a single signal passed to a waiting resolver, if any. */
  function HandedOffOf(g: Signal): seq<CrawlEvent> {
    if g.HandedOff? then [g.event] else []
  }

  /** The event a single action delivers from the stream, if any. */
  function ProducedOf(a: Action): seq<CrawlEvent> {
    if a.Produce? then [a.event] else []
  }

  /** The events the consumer received, in order. */
  function Yields(log: seq<Signal>): seq<CrawlEvent> {
    if log == [] then [] else YieldOf(log[0]) + Yields(log[1..])
  }

  /** The events `processEvent` appended to the buffer, in order. */
  function Kept(log: seq<Signal>): seq<CrawlEvent> {
    if log == [] then [] else KeptOf(log[0]) + Kept(log[1..])
  }

  /** The events `processEvent` passed to a waiting resolver, in order. */
  function HandedOffEvents(log: seq<Signal>): seq<CrawlEvent> {
    if log == [] then [] else HandedOffOf(log[0]) + HandedOffEvents(log[1..])
  }

  /** The events the stream delivered, in order. */
  function Produced(t: seq<Action>): seq<CrawlEvent> {
    if t == [] then [] else ProducedOf(t[0]) + Produced(t[1..])
  }
}
