/**
 * The bridge as the code evidently intends: no event is lost
 * and a settled stream always resumes a parked consumer.  Every event is
 * appended to the buffer (the generator then yields it from there), and the
 * event callback, completion and failure each resume a parked generator.  The
 * generator's loop itself is unchanged (`Bridge.Next`).
 */
module CorrectedBridge {
  import opened Wrappers
  import opened CrawlEvents
  import Bridge
  import BridgeProperties

  /** Resolving the waiter: a parked generator becomes runnable again. */
  function Wake(p: Bridge.Phase): (q: Bridge.Phase)
    ensures q != Bridge.Parked
    ensures p != Bridge.Parked ==> q == p
  {
    if p == Bridge.Parked then Bridge.Running else p
  }

  /** Reachable states: a parked generator always has an empty buffer and a live stream. */
  predicate Inv(s: Bridge.State) {
    && Bridge.Valid(s)
    && (s.phase == Bridge.Parked ==> !s.done)
  }

  function Step(s: Bridge.State, a: Bridge.Action): (r: (Bridge.State, Bridge.Signal))
    ensures Inv(s) ==> Inv(r.0)
    ensures s.done ==> r.0.done
    ensures a.Produce? ==> r.1 == Bridge.Buffered(a.event) && r.0.buffer == s.buffer + [a.event]
    ensures !a.Pull? ==> r.0.phase != Bridge.Parked
  {
    match a
    case Produce(e) => (s.(buffer := s.buffer + [e], phase := Wake(s.phase)), Bridge.Buffered(e))
    case Complete => (s.(done := true, phase := Wake(s.phase)), Bridge.Settled)
    case Fail(reason) =>
      (s.(done := true, err := Some(reason), phase := Wake(s.phase)), Bridge.Settled)
    case Pull => Bridge.Next(s)
  }

  /** Runs a trace through the corrected bridge. */
  function Run(s: Bridge.State, t: seq<Bridge.Action>): (Bridge.State, seq<Bridge.Signal>) {
    Bridge.RunWith(Step, s, t)
  }

  lemma {:induction false} RunKeepsInv(s: Bridge.State, t: seq<Bridge.Action>)
    requires Inv(s)
    ensures Inv(Run(s, t).0)
    decreases |t|
  {
    if t != [] {
      RunKeepsInv(Step(s, t[0]).0, t[1..]);
    }
  }

  lemma StepFollowsStream(s: Bridge.State, a: Bridge.Action)
    ensures Bridge.YieldOf(Step(s, a).1) + Step(s, a).0.buffer == s.buffer + Bridge.ProducedOf(a)
  {
  }

  /**
   * No omission: what the consumer received, followed by what is still buffered,
   * is exactly every event the stream produced, in order.
   */
  lemma {:induction false} NoOmission(s: Bridge.State, t: seq<Bridge.Action>)
    ensures Bridge.Yields(Run(s, t).1) + Run(s, t).0.buffer == s.buffer + Bridge.Produced(t)
    decreases |t|
  {
    if t != [] {
      var s1 := Step(s, t[0]).0;
      var g := Step(s, t[0]).1;
      var s2 := Run(s1, t[1..]).0;
      var log := Run(s1, t[1..]).1;
      assert Run(s, t).1 == [g] + log;
      BridgeProperties.LogCons(g, log);
      StepFollowsStream(s, t[0]);
      NoOmission(s1, t[1..]);
      assert Bridge.Produced(t) == Bridge.ProducedOf(t[0]) + Bridge.Produced(t[1..]);
      BridgeProperties.Regroup(Bridge.YieldOf(g), Bridge.Yields(log), s2.buffer, s1.buffer,
                               Bridge.Produced(t[1..]), s.buffer, Bridge.ProducedOf(t[0]));
    }
  }

  /** `n` consecutive pulls. */
  function Pulls(n: nat): (t: seq<Bridge.Action>)
    ensures |t| == n && forall i :: 0 <= i < n ==> t[i] == Bridge.Pull
  {
    if n == 0 then [] else [Bridge.Pull] + Pulls(n - 1)
  }

  /** One `Yield` signal per event, in order. */
  function YieldAll(events: seq<CrawlEvent>): (log: seq<Bridge.Signal>)
    ensures |log| == |events|
    ensures forall i :: 0 <= i < |events| ==> log[i] == Bridge.Yield(events[i])
  {
    if events == [] then [] else [Bridge.Yield(events[0])] + YieldAll(events[1..])
  }

  /** How the generator ends once the buffer is drained: the stored error if truthy. */
  function Terminal(err: Option<Rejection>): Bridge.Signal {
    if err.Some? && Truthy(err.value) then Bridge.Raise(err.value) else Bridge.End
  }

  /**
   * Once the stream has settled, a live generator is never blocked: the next
   * `|buffer| + 1` pulls yield the buffer in order and then end, raising the
   * stored error if there is one.
   */
  lemma {:induction false} DrainsAfterSettle(s: Bridge.State)
    requires Inv(s) && s.done && s.phase == Bridge.Running
    ensures Run(s, Pulls(|s.buffer| + 1)).1 == YieldAll(s.buffer) + [Terminal(s.err)]
    ensures Run(s, Pulls(|s.buffer| + 1)).0.phase == Bridge.Finished
    decreases |s.buffer|
  {
    var t := Pulls(|s.buffer| + 1);
    assert t[0] == Bridge.Pull && t[1..] == Pulls(|s.buffer|);
    var (s1, g) := Step(s, Bridge.Pull);
    if s.buffer == [] {
      assert g == Terminal(s.err);
      assert Run(s1, []) == (s1, []);
    } else {
      assert g == Bridge.Yield(s.buffer[0]) && s1 == s.(buffer := s.buffer[1..]);
      DrainsAfterSettle(s1);
      assert YieldAll(s.buffer) == [g] + YieldAll(s.buffer[1..]);
    }
  }

  /**
   * The trace on which the as-written bridge drops an event and then hangs
   * delivers the event here, and the generator then ends normally.
   */
  lemma ParkedConsumerReceivesEvent(e: CrawlEvent)
    ensures Run(Bridge.Init(), [Bridge.Pull, Bridge.Produce(e), Bridge.Pull, Bridge.Complete, Bridge.Pull]).1
         == [Bridge.Park, Bridge.Buffered(e), Bridge.Yield(e), Bridge.Settled, Bridge.End]
  {
    var parked := Bridge.State([], Bridge.Parked, false, None);
    var woken := Bridge.State([e], Bridge.Running, false, None);
    var drained := Bridge.State([], Bridge.Running, false, None);
    var done := Bridge.State([], Bridge.Running, true, None);
    var fin := Bridge.State([], Bridge.Finished, true, None);
    assert Run(drained, [Bridge.Complete, Bridge.Pull]).1 == [Bridge.Settled, Bridge.End] by {
      assert Step(done, Bridge.Pull) == (fin, Bridge.End);
      Bridge.RunCons(Step, done, [Bridge.Pull]);
      assert [Bridge.Pull][1..] == [];
      assert Step(drained, Bridge.Complete) == (done, Bridge.Settled);
      Bridge.RunCons(Step, drained, [Bridge.Complete, Bridge.Pull]);
      assert [Bridge.Complete, Bridge.Pull][1..] == [Bridge.Pull];
    }
    assert [e][1..] == [];
    assert Step(woken, Bridge.Pull) == (drained, Bridge.Yield(e));
    Bridge.RunCons(Step, woken, [Bridge.Pull, Bridge.Complete, Bridge.Pull]);
    assert [Bridge.Pull, Bridge.Complete, Bridge.Pull][1..] == [Bridge.Complete, Bridge.Pull];
    assert [] + [e] == [e];
    assert Step(parked, Bridge.Produce(e)) == (woken, Bridge.Buffered(e));
    Bridge.RunCons(Step, parked, [Bridge.Produce(e), Bridge.Pull, Bridge.Complete, Bridge.Pull]);
    assert [Bridge.Produce(e), Bridge.Pull, Bridge.Complete, Bridge.Pull][1..]
        == [Bridge.Pull, Bridge.Complete, Bridge.Pull];
    assert Step(Bridge.Init(), Bridge.Pull) == (parked, Bridge.Park);
    Bridge.RunCons(Step, Bridge.Init(), [Bridge.Pull, Bridge.Produce(e), Bridge.Pull, Bridge.Complete, Bridge.Pull]);
    assert [Bridge.Pull, Bridge.Produce(e), Bridge.Pull, Bridge.Complete, Bridge.Pull][1..]
        == [Bridge.Produce(e), Bridge.Pull, Bridge.Complete, Bridge.Pull];
  }
}
