/** What the pacing of a node keeps to over all its runs: the period and the suppression time stay in
    range, the queue of sent numbers stays in order, and the delay estimates are estimates of round
    trips that the run really made. */
module TimerRuns {
  import opened Nodes
  import opened VersionVectors
  import opened Settings
  import opened Timing
  import opened TimingFacts
  import opened Core

  // ---- Ranges ----

  ghost predicate Regular(cfg: Settings, f: Feedback) {
    InRange(f.timer) && NetworkBounds(cfg, f.timer) && Queued(f.pending)
  }

  /** What a step can do to the feedback: note a sending, take in an echo, adjust the timer. */
  lemma NotingIsRegular(cfg: Settings, f: Feedback, seqNo: nat, now: int)
    requires Regular(cfg, f)
    ensures Regular(cfg, f.(pending := NoteSend(cfg, f.pending, seqNo, now)))
  {
    NoteSendQueued(cfg, f.pending, seqNo, now);
  }

  lemma EchoIsRegular(cfg: Settings, f: Feedback, echoed: nat, now: int)
    requires Regular(cfg, f)
    ensures Regular(cfg, Observe(cfg, f, echoed, now))
  {
    ObserveInRange(cfg, f, echoed, now);
    ObserveQueued(cfg, f, echoed, now);
  }

  lemma AdjustmentIsRegular(cfg: Settings, f: Feedback, n: nat, signal: SyncSignal, now: int)
    requires Regular(cfg, f)
    ensures Regular(cfg, f.(timer := Adjust(cfg, f.timer, n, signal, now)))
  {
    AdjustInRange(cfg, f.timer, n, signal, now);
  }

  lemma FireIsRegular(cfg: Settings, s: NodeState, clock: Clock, draws: Draws)
    requires Regular(cfg, s.feedback)
    ensures Regular(cfg, Fire(cfg, s, clock, draws).state.feedback)
  {
    FireFeedback(cfg, s, clock, draws);
    var r := Fire(cfg, s, clock, draws);
    if r.sent.Some? { NotingIsRegular(cfg, s.feedback, r.sent.value.Get(cfg.id), clock.steady); }
  }

  /** A timer that fires touches the feedback only to note what it sends. */
  lemma FireFeedback(cfg: Settings, s: NodeState, clock: Clock, draws: Draws)
    ensures var r := Fire(cfg, s, clock, draws);
            r.state.feedback ==
            if r.sent.None? then s.feedback
            else s.feedback.(pending := NoteSend(cfg, s.feedback.pending, r.sent.value.Get(cfg.id), clock.steady))
  {
  }

  function Echoed(cfg: Settings, s: NodeState, other: VersionVector, clock: Clock): Feedback {
    Observe(cfg, s.feedback, other.Get(cfg.id), clock.steady)
  }

  lemma HearFeedback(cfg: Settings, s: NodeState, other: VersionVector, face: nat, clock: Clock, draws: Draws)
    returns (n: nat, signal: SyncSignal)
    ensures var f := Echoed(cfg, s, other, clock);
            Hear(cfg, s, other, face, clock, draws).state.feedback ==
            f.(timer := Adjust(cfg, f.timer, n, signal, clock.steady))
  {
    var learned := Learn(cfg, s, other, clock);
    n, signal := Size(learned.0.vv), SignalOf(learned.1);
  }

  lemma UpdateFeedback(cfg: Settings, s: NodeState, seqNo: SeqNo, nid: NodeID, clock: Clock, draws: Draws)
    returns (n: nat)
    ensures var f := Update(cfg, s, seqNo, nid, clock, draws).feedback;
            f == s.feedback || f == s.feedback.(timer := Adjust(cfg, s.feedback.timer, n, LocalUpdate, clock.steady))
  {
    n := Size(s.vv.Set(TargetNode(cfg, nid), seqNo, clock.wall));
  }

  lemma StepIsRegular(cfg: Settings, s: NodeState, i: Input)
    requires Regular(cfg, s.feedback)
    ensures Regular(cfg, Step(cfg, s, i).state.feedback)
  {
    match i.event {
      case Started => FireIsRegular(cfg, s.(initialized := true), i.clock, i.draws);
      case TimedOut => FireIsRegular(cfg, s, i.clock, i.draws);
      case Received(other, face) =>
        var n, signal := HearFeedback(cfg, s, other, face, i.clock, i.draws);
        EchoIsRegular(cfg, s.feedback, other.Get(cfg.id), i.clock.steady);
        AdjustmentIsRegular(cfg, Echoed(cfg, s, other, i.clock), n, signal, i.clock.steady);
      case Updated(seqNo, nid) =>
        var n := UpdateFeedback(cfg, s, seqNo, nid, i.clock, i.draws);
        AdjustmentIsRegular(cfg, s.feedback, n, LocalUpdate, i.clock.steady);
    }
  }

  lemma {:induction false} StaysRegular(cfg: Settings, tr: Trace, i: nat)
    requires IsTrace(cfg, tr) && i <= |tr.inputs| && Regular(cfg, tr.states[0].feedback)
    ensures Regular(cfg, tr.states[i].feedback)
    decreases i
  {
    if i > 0 {
      StaysRegular(cfg, tr, i - 1);
      assert StepAt(cfg, tr, i - 1);
      StepIsRegular(cfg, tr.states[i - 1], tr.inputs[i - 1]);
    }
  }

  /** In every reachable state of a node the period lies between its minimum and thirty seconds, the
      suppression time between 40 and 1200 milliseconds, the minimum within five seconds, and the
      activity between zero and one. */
  lemma PeriodInRange(cfg: Settings, tr: Trace, i: nat)
    requires IsRun(cfg, tr) && i <= |tr.inputs|
    ensures var t := tr.states[i].feedback.timer;
            && 0 <= t.minPeriod <= t.period <= 30000 && t.minPeriod <= 5000
            && 40 <= t.maxSuppression <= 1200 && 0.0 <= t.activity <= 1.0
    ensures NetworkBounds(cfg, tr.states[i].feedback.timer)
  {
    InitialInRange(cfg);
    StaysRegular(cfg, tr, i);
  }

  /** In every reachable state the pending numbers increase strictly, and there are at most 32. */
  lemma PendingStaysQueued(cfg: Settings, tr: Trace, i: nat)
    requires IsRun(cfg, tr) && i <= |tr.inputs|
    ensures var pending := tr.states[i].feedback.pending;
            |pending| <= 32 && forall j, k | 0 <= j < k < |pending| :: pending[j].seqNo < pending[k].seqNo
  {
    InitialInRange(cfg);
    StaysRegular(cfg, tr, i);
  }

  /** Hearing a vector, unless the timer was adjusted only just before, leaves the period at or above
      the floor for the number of entries then known, except where vectors are sent whole and have 1589
      entries or more. */
  lemma HearingRespectsFloor(cfg: Settings, s: NodeState, other: VersionVector, face: nat, clock: Clock, draws: Draws)
    requires Regular(cfg, s.feedback) && !cfg.timerMode.Fixed?
    requires !RateLimited(Echoed(cfg, s, other, clock).timer, clock.steady)
    ensures var s' := Hear(cfg, s, other, face, clock, draws).state;
            var n := |s'.vv.entries|;
            s'.feedback.timer.period >= FloorFor(cfg, s'.feedback.timer.minPeriod, n) <==>
            !cfg.strategy.Full? || n <= 1588
  {
    var learned := Learn(cfg, s, other, clock);
    var t := learned.0.feedback.timer;
    var n, signal := Size(learned.0.vv), SignalOf(learned.1);
    EchoIsRegular(cfg, s.feedback, other.Get(cfg.id), clock.steady);
    SizeIs(learned.0.vv);
    FloorRespected(cfg, t, n, signal, clock.steady);
    FloorWithin(cfg, t.minPeriod, n);
    AdjustKeepsFloor(cfg, t, n, signal, clock.steady);
    HearAdjusts(cfg, s, other, face, clock, draws);
  }

  lemma HearAdjusts(cfg: Settings, s: NodeState, other: VersionVector, face: nat, clock: Clock, draws: Draws)
    ensures var learned := Learn(cfg, s, other, clock);
            var s' := Hear(cfg, s, other, face, clock, draws).state;
            && s'.vv == learned.0.vv
            && s'.feedback.timer ==
               Adjust(cfg, learned.0.feedback.timer, Size(learned.0.vv), SignalOf(learned.1), clock.steady)
  {
  }

  lemma AdjustKeepsFloor(cfg: Settings, t: Timer, n: nat, signal: SyncSignal, now: int)
    ensures Adjust(cfg, t, n, signal, now).minPeriod == t.minPeriod
  {
  }

  // ---- Estimates ----

  /** The delay an echo lets the node observe, if any. */
  function ObservedIn(cfg: Settings, f: Feedback, echoed: nat, now: int): seq<real> {
    var k := Confirmed(f.pending, echoed);
    if !cfg.timerMode.NetworkAware? || echoed == 0 || k == 0
       || f.pending[k - 1].sentAt == 0 || now <= f.pending[k - 1].sentAt
    then []
    else [ObservedDelay(f.pending[k - 1].sentAt, now)]
  }

  /** The delays observed in one step. */
  function ObservedBy(cfg: Settings, s: NodeState, i: Input): seq<real> {
    match i.event
    case Received(other, _) => ObservedIn(cfg, s.feedback, other.Get(cfg.id), i.clock.steady)
    case _ => []
  }

  /** The delays observed in the first n steps of a run. */
  function Observations(cfg: Settings, tr: Trace, n: nat): seq<real>
    requires n <= |tr.inputs| < |tr.states|
  {
    if n == 0 then []
    else Observations(cfg, tr, n - 1) + ObservedBy(cfg, tr.states[n - 1], tr.inputs[n - 1])
  }

  predicate SameEstimates(t: Timer, u: Timer) {
    t.delay == u.delay && t.jitter == u.jitter && t.samples == u.samples
  }

  lemma AdjustKeepsEstimates(cfg: Settings, t: Timer, n: nat, signal: SyncSignal, now: int)
    ensures SameEstimates(Adjust(cfg, t, n, signal, now), t)
  {
  }

  lemma ObserveSamples(cfg: Settings, f: Feedback, echoed: nat, now: int)
    ensures SameEstimates(Observe(cfg, f, echoed, now).timer, Sampled(f.timer, ObservedIn(cfg, f, echoed, now)))
  {
    var observed := ObservedIn(cfg, f, echoed, now);
    if observed != [] { assert Sampled(f.timer, observed[..0]) == f.timer; }
  }

  /** A step changes the estimates by what it observes, and by nothing else. */
  lemma StepSamples(cfg: Settings, s: NodeState, i: Input)
    ensures SameEstimates(Step(cfg, s, i).state.feedback.timer, Sampled(s.feedback.timer, ObservedBy(cfg, s, i)))
  {
    match i.event {
      case Started => FireFeedback(cfg, s.(initialized := true), i.clock, i.draws);
      case TimedOut => FireFeedback(cfg, s, i.clock, i.draws);
      case Received(other, face) =>
        var n, signal := HearFeedback(cfg, s, other, face, i.clock, i.draws);
        ObserveSamples(cfg, s.feedback, other.Get(cfg.id), i.clock.steady);
        AdjustKeepsEstimates(cfg, Echoed(cfg, s, other, i.clock).timer, n, signal, i.clock.steady);
      case Updated(seqNo, nid) =>
        var n := UpdateFeedback(cfg, s, seqNo, nid, i.clock, i.draws);
        AdjustKeepsEstimates(cfg, s.feedback.timer, n, LocalUpdate, i.clock.steady);
    }
  }

  lemma {:induction false} SampledMore(t: Timer, u: Timer, before: seq<real>, observed: seq<real>)
    requires SameEstimates(u, Sampled(t, before))
    ensures SameEstimates(Sampled(u, observed), Sampled(t, before + observed))
    decreases |observed|
  {
    if observed == [] {
      assert before + observed == before;
    } else {
      var rest := observed[..|observed| - 1];
      SampledMore(t, u, before, rest);
      assert (before + observed)[..|before + observed| - 1] == before + rest;
    }
  }

  lemma SamplesAt(cfg: Settings, tr: Trace, i: nat)
    requires IsTrace(cfg, tr) && i < |tr.inputs|
    ensures SameEstimates(tr.states[i + 1].feedback.timer,
                          Sampled(tr.states[i].feedback.timer, ObservedBy(cfg, tr.states[i], tr.inputs[i])))
  {
    assert StepAt(cfg, tr, i);
    StepSamples(cfg, tr.states[i], tr.inputs[i]);
  }

  lemma EstimatesNext(t: Timer, u: Timer, v: Timer, before: seq<real>, observed: seq<real>)
    requires SameEstimates(u, Sampled(t, before)) && SameEstimates(v, Sampled(u, observed))
    ensures SameEstimates(v, Sampled(t, before + observed))
  {
    SampledMore(t, u, before, observed);
  }

  /** The estimates after n steps are those of the delays observed in them. */
  ghost predicate EstimatesAt(cfg: Settings, tr: Trace, n: nat)
    requires IsTrace(cfg, tr) && n <= |tr.inputs|
  {
    SameEstimates(tr.states[n].feedback.timer, Sampled(tr.states[0].feedback.timer, Observations(cfg, tr, n)))
  }

  lemma NothingEstimated(cfg: Settings, tr: Trace)
    requires IsTrace(cfg, tr)
    ensures EstimatesAt(cfg, tr, 0)
  {
  }

  lemma EstimatesAfter(cfg: Settings, tr: Trace, n: nat)
    requires IsTrace(cfg, tr) && 0 < n <= |tr.inputs| && EstimatesAt(cfg, tr, n - 1)
    ensures EstimatesAt(cfg, tr, n)
  {
    SamplesAt(cfg, tr, n - 1);
    EstimatesNext(tr.states[0].feedback.timer, tr.states[n - 1].feedback.timer, tr.states[n].feedback.timer,
                  Observations(cfg, tr, n - 1), ObservedBy(cfg, tr.states[n - 1], tr.inputs[n - 1]));
  }

  lemma {:induction false} EstimatesAre(cfg: Settings, tr: Trace, n: nat)
    requires IsTrace(cfg, tr) && n <= |tr.inputs|
    ensures EstimatesAt(cfg, tr, n)
    decreases n
  {
    if n == 0 {
      NothingEstimated(cfg, tr);
    } else {
      EstimatesAre(cfg, tr, n - 1);
      EstimatesAfter(cfg, tr, n);
    }
  }

  /** In every reachable state the number of samples is that of the delays observed; once there is
      one, the delay estimate lies between the smallest and the largest, and the jitter is at least
      ten milliseconds. */
  lemma EstimatesWithinObserved(cfg: Settings, tr: Trace, n: nat)
    requires IsRun(cfg, tr) && n <= |tr.inputs|
    ensures var t := tr.states[n].feedback.timer;
            var observed := Observations(cfg, tr, n);
            && t.samples == |observed|
            && (observed != [] ==> Between(t.delay, observed) && t.jitter >= 10.0)
  {
    EstimatesAre(cfg, tr, n);
    if Observations(cfg, tr, n) != [] { SampledWithin(tr.states[0].feedback.timer, Observations(cfg, tr, n)); }
  }

  // ---- Observed delays are round trips ----

  /** The step at which this number of one's own went out at this time. */
  ghost predicate SentAt(cfg: Settings, tr: Trace, j: nat, p: Pending) {
    && j < |tr.inputs| && j < |tr.outputs| && tr.outputs[j].sent.Some?
    && tr.outputs[j].sent.value.Get(cfg.id) == p.seqNo && tr.inputs[j].clock.steady == p.sentAt
  }

  ghost predicate SentBefore(cfg: Settings, tr: Trace, n: nat, p: Pending) {
    exists j: nat :: j < n && SentAt(cfg, tr, j, p)
  }

  ghost predicate AllSent(cfg: Settings, tr: Trace, n: nat, pending: seq<Pending>) {
    forall p | p in pending :: SentBefore(cfg, tr, n, p)
  }

  lemma NoteSendAdds(cfg: Settings, pending: seq<Pending>, seqNo: nat, now: int, p: Pending)
    requires p in NoteSend(cfg, pending, seqNo, now)
    ensures p in pending || p == Pending(seqNo, now)
  {
  }

  /** A step drops pending numbers, or adds the one it sends. */
  ghost predicate PendingStep(cfg: Settings, s: NodeState, i: Input, r: Stepped) {
    forall p | p in r.state.feedback.pending && p !in s.feedback.pending ::
      r.output.sent.Some? && p == Pending(r.output.sent.value.Get(cfg.id), i.clock.steady)
  }

  lemma FirePending(cfg: Settings, s: NodeState, clock: Clock, draws: Draws, p: Pending)
    requires p in Fire(cfg, s, clock, draws).state.feedback.pending && p !in s.feedback.pending
    ensures var r := Fire(cfg, s, clock, draws);
            r.sent.Some? && p == Pending(r.sent.value.Get(cfg.id), clock.steady)
  {
    FireFeedback(cfg, s, clock, draws);
    var r := Fire(cfg, s, clock, draws);
    if r.sent.Some? { NoteSendAdds(cfg, s.feedback.pending, r.sent.value.Get(cfg.id), clock.steady, p); }
  }

  lemma StepPending(cfg: Settings, s: NodeState, i: Input)
    ensures PendingStep(cfg, s, i, Step(cfg, s, i))
  {
    forall p | p in Step(cfg, s, i).state.feedback.pending && p !in s.feedback.pending
      ensures var r := Step(cfg, s, i);
              r.output.sent.Some? && p == Pending(r.output.sent.value.Get(cfg.id), i.clock.steady)
    {
      match i.event {
        case Started => FirePending(cfg, s.(initialized := true), i.clock, i.draws, p);
        case TimedOut => FirePending(cfg, s, i.clock, i.draws, p);
        case Received(other, face) => var n, signal := HearFeedback(cfg, s, other, face, i.clock, i.draws);
        case Updated(seqNo, nid) => var n := UpdateFeedback(cfg, s, seqNo, nid, i.clock, i.draws);
      }
    }
  }

  /** Every pending number was sent, at the time noted. */
  lemma {:induction false} PendingWasSent(cfg: Settings, tr: Trace, n: nat)
    requires IsRun(cfg, tr) && n <= |tr.inputs|
    ensures AllSent(cfg, tr, n, tr.states[n].feedback.pending)
    decreases n
  {
    if n > 0 {
      var s, s' := tr.states[n - 1], tr.states[n];
      PendingWasSent(cfg, tr, n - 1);
      assert StepAt(cfg, tr, n - 1);
      StepPending(cfg, s, tr.inputs[n - 1]);
      forall p | p in s'.feedback.pending ensures SentBefore(cfg, tr, n, p) {
        if p in s.feedback.pending {
          assert SentBefore(cfg, tr, n - 1, p);
        } else {
          assert SentAt(cfg, tr, n - 1, p);
        }
      }
    }
  }

  /** An observed delay is a round trip: the time from a step at which the node sent a number of its
      own to this one, which brings the number back, or a higher one. */
  lemma ObservedIsRoundTrip(cfg: Settings, tr: Trace, i: nat) returns (j: nat)
    requires IsRun(cfg, tr) && i < |tr.inputs| && ObservedBy(cfg, tr.states[i], tr.inputs[i]) != []
    ensures j < i && tr.outputs[j].sent.Some? && tr.inputs[i].event.Received?
    ensures tr.outputs[j].sent.value.Get(cfg.id) <= tr.inputs[i].event.other.Get(cfg.id)
    ensures ObservedBy(cfg, tr.states[i], tr.inputs[i])
         == [ObservedDelay(tr.inputs[j].clock.steady, tr.inputs[i].clock.steady)]
  {
    var pending := tr.states[i].feedback.pending;
    var echoed := tr.inputs[i].event.other.Get(cfg.id);
    var k := Confirmed(pending, echoed);
    PendingWasSent(cfg, tr, i);
    assert SentBefore(cfg, tr, i, pending[k - 1]);
    j :| j < i && SentAt(cfg, tr, j, pending[k - 1]);
    PendingStaysQueued(cfg, tr, i);
    ConfirmedIs(pending, echoed, k - 1);
  }
}
