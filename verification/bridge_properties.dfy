/**
 * Properties of the as-written bridge over whole traces: FIFO delivery of the
 * buffered events, the ordering of a stored error after them, the absorbing
 * flags, and the two behaviours the code shows when a consumer is parked:
 * an event handed to the waiter is never yielded, and a completion or failure
 * never resumes it.
 */
module BridgeProperties {
  import opened Wrappers
  import opened CrawlEvents
  import opened Bridge

  lemma {:induction false} RunKeepsValid(s: State, t: seq<Action>)
    requires Valid(s)
    ensures Valid(Run(s, t).0)
    decreases |t|
  {
    if t != [] {
      RunKeepsValid(Step(s, t[0]).0, t[1..]);
    }
  }

  /** Once `isDone` is set it is never cleared. */
  lemma {:induction false} DoneIsAbsorbing(s: State, t: seq<Action>)
    requires s.done
    ensures Run(s, t).0.done
    decreases |t|
  {
    if t != [] {
      DoneIsAbsorbing(Step(s, t[0]).0, t[1..]);
    }
  }

  /** The log projections split over a signal prepended to a log. */
  lemma LogCons(g: Signal, log: seq<Signal>)
    ensures Yields([g] + log) == YieldOf(g) + Yields(log)
    ensures Kept([g] + log) == KeptOf(g) + Kept(log)
    ensures HandedOffEvents([g] + log) == HandedOffOf(g) + HandedOffEvents(log)
  {
  }

  /** A run of one action is that action's step. */
  lemma RunSingle(s: State, a: Action)
    ensures Run(s, [a]) == (Step(s, a).0, [Step(s, a).1])
  {
    RunCons(Step, s, [a]);
    assert [a][1..] == [];
    assert Run(Step(s, a).0, []) == (Step(s, a).0, []);
    assert [Step(s, a).1] + [] == [Step(s, a).1];
  }

  /** A run that starts with a known step continues from that step's state. */
  lemma RunStep(s: State, a: Action, rest: seq<Action>, s1: State, g: Signal)
    requires Step(s, a) == (s1, g)
    ensures Run(s, [a] + rest).0 == Run(s1, rest).0
    ensures Run(s, [a] + rest).1 == [g] + Run(s1, rest).1
  {
  }

  /** One step keeps "yielded, then buffered" equal to "buffered before, then kept". */
  lemma StepFollowsBuffer(s: State, a: Action)
    ensures YieldOf(Step(s, a).1) + Step(s, a).0.buffer == s.buffer + KeptOf(Step(s, a).1)
  {
  }

  /** Chains two "yielded + buffered" equations across one step. */
  lemma Regroup(y: seq<CrawlEvent>, ys: seq<CrawlEvent>, b2: seq<CrawlEvent>,
                b1: seq<CrawlEvent>, ks: seq<CrawlEvent>, b0: seq<CrawlEvent>, k: seq<CrawlEvent>)
    requires ys + b2 == b1 + ks
    requires y + b1 == b0 + k
    ensures y + ys + b2 == b0 + (k + ks)
  {
    calc {
      y + ys + b2;
      y + (ys + b2);
      y + (b1 + ks);
      (y + b1) + ks;
      (b0 + k) + ks;
    }
  }

  /**
   * FIFO delivery: what the consumer has received, followed by what is still
   * buffered, is the initial buffer followed by every event `processEvent`
   * appended, in arrival order.  So events are yielded only from the buffer's
   * head, never reordered and never twice.
   */
  lemma {:induction false} YieldsFollowBuffer(s: State, t: seq<Action>)
    ensures Yields(Run(s, t).1) + Run(s, t).0.buffer == s.buffer + Kept(Run(s, t).1)
    decreases |t|
  {
    if t != [] {
      var s1 := Step(s, t[0]).0;
      var g := Step(s, t[0]).1;
      var s2 := Run(s1, t[1..]).0;
      var log := Run(s1, t[1..]).1;
      RunCons(Step, s, t);
      LogCons(g, log);
      StepFollowsBuffer(s, t[0]);
      YieldsFollowBuffer(s1, t[1..]);
      Regroup(YieldOf(g), Yields(log), s2.buffer, s1.buffer, Kept(log), s.buffer, KeptOf(g));
    }
  }

  /** The consumer has received a prefix of the buffered events. */
  lemma {:induction false} YieldsArePrefixOfKept(t: seq<Action>)
    ensures Yields(Run(Init(), t).1) <= Kept(Run(Init(), t).1)
  {
    YieldsFollowBuffer(Init(), t);
    var y := Yields(Run(Init(), t).1);
    var k := Kept(Run(Init(), t).1);
    assert k == y + Run(Init(), t).0.buffer;
    assert k[..|y|] == y;
  }

  /** A produce step either buffers its event or hands it off; other steps do neither. */
  lemma StepKeepsOrHandsOff(s: State, a: Action)
    ensures KeptOf(Step(s, a).1) + HandedOffOf(Step(s, a).1) == ProducedOf(a)
  {
  }

  lemma MultisetRegroup(k: seq<CrawlEvent>, ks: seq<CrawlEvent>, h: seq<CrawlEvent>,
                        hs: seq<CrawlEvent>, p: seq<CrawlEvent>, ps: seq<CrawlEvent>)
    requires k + h == p
    requires multiset(ks) + multiset(hs) == multiset(ps)
    ensures multiset(k + ks) + multiset(h + hs) == multiset(p + ps)
  {
  }

  /** Every produced event is either buffered or handed to the waiter, exactly once. */
  lemma {:induction false} ProducedIsKeptOrHandedOff(s: State, t: seq<Action>)
    ensures multiset(Kept(Run(s, t).1)) + multiset(HandedOffEvents(Run(s, t).1))
         == multiset(Produced(t))
    decreases |t|
  {
    if t != [] {
      var s1 := Step(s, t[0]).0;
      var g := Step(s, t[0]).1;
      var log := Run(s1, t[1..]).1;
      RunCons(Step, s, t);
      LogCons(g, log);
      ProducedIsKeptOrHandedOff(s1, t[1..]);
      StepKeepsOrHandsOff(s, t[0]);
      assert Produced(t) == ProducedOf(t[0]) + Produced(t[1..]);
      MultisetRegroup(KeptOf(g), Kept(log), HandedOffOf(g), HandedOffEvents(log),
                      ProducedOf(t[0]), Produced(t[1..]));
    }
  }

  /** No event reaches the consumer more often than the stream delivered it. */
  lemma {:induction false} NoDuplicateYields(t: seq<Action>)
    ensures multiset(Yields(Run(Init(), t).1)) <= multiset(Produced(t))
  {
    var log := Run(Init(), t).1;
    YieldsFollowBuffer(Init(), t);
    ProducedIsKeptOrHandedOff(Init(), t);
    assert Yields(log) + Run(Init(), t).0.buffer == Kept(log);
    assert multiset(Kept(log)) == multiset(Yields(log)) + multiset(Run(Init(), t).0.buffer);
  }

  /**
   * Events handed to a waiting resolver are missing from the output: together
   * with what was yielded they never exceed what the stream produced, so every
   * hand-off costs one delivery of that event.
   */
  lemma {:induction false} HandedOffNeverYielded(t: seq<Action>)
    ensures multiset(Yields(Run(Init(), t).1)) + multiset(HandedOffEvents(Run(Init(), t).1))
         <= multiset(Produced(t))
  {
    var log := Run(Init(), t).1;
    YieldsFollowBuffer(Init(), t);
    ProducedIsKeptOrHandedOff(Init(), t);
    assert Yields(log) + Run(Init(), t).0.buffer == Kept(log);
    assert multiset(Kept(log)) == multiset(Yields(log)) + multiset(Run(Init(), t).0.buffer);
  }

  /**
   * A stored error is thrown only once the buffer is empty: when a trace ends in
   * `Raise`, every event ever buffered has already been yielded.
   */
  lemma {:induction false} ErrorAfterDrain(s: State, t: seq<Action>)
    requires |t| > 0 && Run(s, t).1[|t| - 1].Raise?
    ensures Run(s, t).0.buffer == []
    ensures Yields(Run(s, t).1) == s.buffer + Kept(Run(s, t).1)
    decreases |t|
  {
    var (s1, g) := Step(s, t[0]);
    var (s2, log) := Run(s1, t[1..]);
    assert Run(s, t).1 == [g] + log;
    if |t| == 1 {
      assert g.Raise?;
    } else {
      assert log[|t[1..]| - 1] == Run(s, t).1[|t| - 1];
      ErrorAfterDrain(s1, t[1..]);
    }
    YieldsFollowBuffer(s, t);
  }

  /**
   * End of stream is final: once the generator has returned or thrown, every
   * later pull reports the end and nothing more is yielded.
   */
  lemma {:induction false} EndIsFinal(s: State, t: seq<Action>)
    requires s.phase == Finished
    ensures Run(s, t).0.phase == Finished
    ensures forall i :: 0 <= i < |t| && t[i].Pull? ==> Run(s, t).1[i] == End
    ensures Yields(Run(s, t).1) == []
    decreases |t|
  {
    if t != [] {
      var (s1, g) := Step(s, t[0]);
      var (s2, log) := Run(s1, t[1..]);
      EndIsFinal(s1, t[1..]);
      assert Run(s, t).1 == [g] + log;
      assert ([g] + log)[1..] == log;
      forall i | 0 <= i < |t| && t[i].Pull?
        ensures Run(s, t).1[i] == End
      {
        if i > 0 {
          assert t[1..][i - 1] == t[i];
        }
      }
    }
  }

  /**
   * A parked generator whose stream has settled is never resumed: with no further
   * event, every pull stays blocked and nothing is yielded, whatever else happens.
   */
  lemma {:induction false} ParkedAfterSettleHangs(s: State, t: seq<Action>)
    requires s.phase == Parked && s.done
    requires forall i :: 0 <= i < |t| ==> !t[i].Produce?
    ensures Run(s, t).0.phase == Parked
    ensures forall i :: 0 <= i < |t| && t[i].Pull? ==> Run(s, t).1[i] == Blocked
    ensures Yields(Run(s, t).1) == []
    decreases |t|
  {
    if t != [] {
      var (s1, g) := Step(s, t[0]);
      var (s2, log) := Run(s1, t[1..]);
      assert !t[0].Produce?;
      ParkedAfterSettleHangs(s1, t[1..]);
      assert Run(s, t).1 == [g] + log;
      assert ([g] + log)[1..] == log;
      forall i | 0 <= i < |t| && t[i].Pull?
        ensures Run(s, t).1[i] == Blocked
      {
        if i > 0 {
          assert t[1..][i - 1] == t[i];
        }
      }
    }
  }

  /**
   * An event delivered while the consumer is parked is handed to the resolver,
   * and the bare `await` throws the value away. The resumed loop finds the buffer
   * empty and parks again. When the stream then completes, nothing resumes it:
   * the event was never yielded and the next pull stays pending.
   */
  lemma HandedOffEventIsDropped(e: CrawlEvent)
    ensures Run(Init(), [Pull, Produce(e), Pull, Complete, Pull]).1
         == [Park, HandedOff(e), Park, Settled, Blocked]
    ensures Run(Init(), [Pull, Produce(e), Pull, Complete, Pull]).0 == State([], Parked, true, None)
    ensures Yields(Run(Init(), [Pull, Produce(e), Pull, Complete, Pull]).1) == []
    ensures HandedOffEvents(Run(Init(), [Pull, Produce(e), Pull, Complete, Pull]).1) == [e]
  {
    var parked := State([], Parked, false, None);
    var woken := State([], Running, false, None);
    var hung := State([], Parked, true, None);
    assert Run(woken, [Pull, Complete, Pull]) == (hung, [Park, Settled, Blocked]) by {
      RunSingle(hung, Pull);
      assert Step(hung, Pull) == (hung, Blocked);
      assert Run(hung, [Pull]) == (hung, [Blocked]);
      RunStep(parked, Complete, [Pull], hung, Settled);
      assert [Complete] + [Pull] == [Complete, Pull];
      assert [Settled] + [Blocked] == [Settled, Blocked];
      assert Run(parked, [Complete, Pull]) == (hung, [Settled, Blocked]);
      RunStep(woken, Pull, [Complete, Pull], parked, Park);
      assert [Pull] + [Complete, Pull] == [Pull, Complete, Pull];
      assert [Park] + [Settled, Blocked] == [Park, Settled, Blocked];
      assert Run(woken, [Pull, Complete, Pull]).1 == [Park, Settled, Blocked];
    }
    assert [Produce(e)] + [Pull, Complete, Pull] == [Produce(e), Pull, Complete, Pull];
    assert [Pull] + [Produce(e), Pull, Complete, Pull] == [Pull, Produce(e), Pull, Complete, Pull];
    RunStep(parked, Produce(e), [Pull, Complete, Pull], woken, HandedOff(e));
    RunStep(Init(), Pull, [Produce(e), Pull, Complete, Pull], parked, Park);
    var log := [Park, HandedOff(e), Park, Settled, Blocked];
    assert Yields(log) == [] && HandedOffEvents(log) == [e] by {
      LogCons(Blocked, []);
      LogCons(Settled, [Blocked]);
      LogCons(Park, [Settled, Blocked]);
      LogCons(HandedOff(e), [Park, Settled, Blocked]);
      LogCons(Park, [HandedOff(e), Park, Settled, Blocked]);
    }
  }

  /**
   * A consumer parked when the stream completes is never resumed: after
   * `[Pull, Complete]`, any continuation without further events leaves every pull
   * blocked and yields nothing.
   */
  lemma CompletionLeavesConsumerParked(t: seq<Action>)
    requires forall i :: 0 <= i < |t| ==> !t[i].Produce?
    ensures Run(Init(), [Pull, Complete]).0 == State([], Parked, true, None)
    ensures forall i :: 0 <= i < |t| && t[i].Pull? ==>
      Run(Run(Init(), [Pull, Complete]).0, t).1[i] == Blocked
  {
    assert [Pull, Complete][1..] == [Complete];
    assert [Complete][1..] == [];
    ParkedAfterSettleHangs(State([], Parked, true, None), t);
  }

  /**
   * Events buffered before a failure come out first, then the failure. The first
   * event is handed to the parked consumer (and dropped); two more are buffered,
   * one is yielded, the stream fails, and the following pulls give the second
   * buffered event, then the error, then the end.
   */
  lemma BufferedThenFailure(e0: CrawlEvent, e1: CrawlEvent, e2: CrawlEvent, msg: string)
    ensures Run(Init(), [Pull, Produce(e0), Produce(e1), Produce(e2), Pull, Fail(Error(msg)), Pull, Pull, Pull]).1
         == [Park, HandedOff(e0), Buffered(e1), Buffered(e2), Yield(e1), Settled,
             Yield(e2), Raise(Error(msg)), End]
  {
    var err := Some(Error(msg));
    var parked := State([], Parked, false, None);
    var woken := State([], Running, false, None);
    var one := State([e1], Running, false, None);
    var two := State([e1, e2], Running, false, None);
    var rest := State([e2], Running, false, None);
    var failed := State([e2], Running, true, err);
    var drained := State([], Running, true, err);
    var fin := State([], Finished, true, err);
    var tail := [Fail(Error(msg)), Pull, Pull, Pull];
    assert Run(rest, tail).1 == [Settled, Yield(e2), Raise(Error(msg)), End] by {
      RunSingle(fin, Pull);
      RunStep(drained, Pull, [Pull], fin, Raise(Error(msg)));
      assert [e2][1..] == [];
      RunStep(failed, Pull, [Pull, Pull], drained, Yield(e2));
      RunStep(rest, Fail(Error(msg)), [Pull, Pull, Pull], failed, Settled);
    }
    assert Run(woken, [Produce(e1), Produce(e2), Pull] + tail).1
        == [Buffered(e1), Buffered(e2), Yield(e1)] + Run(rest, tail).1 by {
      assert [e1, e2][1..] == [e2];
      RunStep(two, Pull, tail, rest, Yield(e1));
      assert [e1] + [e2] == [e1, e2];
      RunStep(one, Produce(e2), [Pull] + tail, two, Buffered(e2));
      assert [Pull] + tail == [Pull, Fail(Error(msg)), Pull, Pull, Pull];
      assert [] + [e1] == [e1];
      RunStep(woken, Produce(e1), [Produce(e2), Pull] + tail, one, Buffered(e1));
      assert [Produce(e2)] + ([Pull] + tail) == [Produce(e2), Pull] + tail;
      assert [Produce(e1)] + ([Produce(e2), Pull] + tail) == [Produce(e1), Produce(e2), Pull] + tail;
    }
    var body := [Produce(e1), Produce(e2), Pull] + tail;
    RunStep(parked, Produce(e0), body, woken, HandedOff(e0));
    RunStep(Init(), Pull, [Produce(e0)] + body, parked, Park);
    assert [Pull] + ([Produce(e0)] + body)
        == [Pull, Produce(e0), Produce(e1), Produce(e2), Pull, Fail(Error(msg)), Pull, Pull, Pull];
  }

  /**
   * A rejection with a falsy reason is recorded, but the generator returns without
   * throwing once the buffer is drained.
   */
  lemma FalsyRejectionEndsCleanly(e0: CrawlEvent, e1: CrawlEvent)
    ensures Run(Init(), [Pull, Produce(e0), Produce(e1), Pull, Fail(FalsyReason), Pull, Pull]).1
         == [Park, HandedOff(e0), Buffered(e1), Yield(e1), Settled, End, End]
  {
    var falsy := Some(FalsyReason);
    var parked := State([], Parked, false, None);
    var woken := State([], Running, false, None);
    var one := State([e1], Running, false, None);
    var failed := State([], Running, true, falsy);
    var fin := State([], Finished, true, falsy);
    RunSingle(fin, Pull);
    RunStep(failed, Pull, [Pull], fin, End);
    RunStep(woken, Fail(FalsyReason), [Pull, Pull], failed, Settled);
    assert [e1][1..] == [];
    RunStep(one, Pull, [Fail(FalsyReason), Pull, Pull], woken, Yield(e1));
    assert [] + [e1] == [e1];
    RunStep(woken, Produce(e1), [Pull, Fail(FalsyReason), Pull, Pull], one, Buffered(e1));
    RunStep(parked, Produce(e0), [Produce(e1), Pull, Fail(FalsyReason), Pull, Pull], woken, HandedOff(e0));
    RunStep(Init(), Pull, [Produce(e0), Produce(e1), Pull, Fail(FalsyReason), Pull, Pull], parked, Park);
  }
}
