/** Runs of a node from its construction on in which it publishes once, hears of other nodes twice, is
    started, and then has nothing to do but send: they show that the runs the fairness results speak
    about exist. */
module StartedRuns {
  import opened Nodes
  import opened Orders
  import opened VersionVectors
  import opened Selection
  import opened Settings
  import opened Scheduler
  import opened Merging
  import opened Timing
  import opened Core
  import opened CoreFacts
  import opened NodeRuns
  import opened NodeFairness

  // ---- The run that given inputs lead to ----

  function StateAfter(cfg: Settings, s: NodeState, inputs: seq<Input>, n: nat): NodeState
    requires n <= |inputs|
  {
    if n == 0 then s else Step(cfg, StateAfter(cfg, s, inputs, n - 1), inputs[n - 1]).state
  }

  /** The trace whose i-th state and output are given. */
  function TraceWith(states: nat -> NodeState, outputs: nat -> Output, inputs: seq<Input>): Trace {
    Trace(seq(|inputs| + 1, i requires 0 <= i <= |inputs| => states(i)),
          inputs,
          seq(|inputs|, i requires 0 <= i < |inputs| => outputs(i)))
  }

  lemma TraceWithAt(cfg: Settings, states: nat -> NodeState, outputs: nat -> Output, inputs: seq<Input>, i: nat)
    requires i < |inputs| ==> Stepped(states(i + 1), outputs(i)) == Step(cfg, states(i), inputs[i])
    ensures StepAt(cfg, TraceWith(states, outputs, inputs), i)
  {
  }

  function TraceOf(cfg: Settings, s: NodeState, inputs: seq<Input>): Trace {
    TraceWith((i: nat) => if i <= |inputs| then StateAfter(cfg, s, inputs, i) else s,
              (i: nat) => if i < |inputs| then Step(cfg, StateAfter(cfg, s, inputs, i), inputs[i]).output
                          else Output([], None),
              inputs)
  }

  lemma NextState(cfg: Settings, s: NodeState, inputs: seq<Input>, i: nat)
    requires i < |inputs|
    ensures StateAfter(cfg, s, inputs, i + 1) == Step(cfg, StateAfter(cfg, s, inputs, i), inputs[i]).state
  {
  }

  lemma TraceOfAt(cfg: Settings, s: NodeState, inputs: seq<Input>, i: nat)
    ensures StepAt(cfg, TraceOf(cfg, s, inputs), i)
  {
    if i < |inputs| { NextState(cfg, s, inputs, i); }
    TraceWithAt(cfg, (j: nat) => if j <= |inputs| then StateAfter(cfg, s, inputs, j) else s,
                (j: nat) => if j < |inputs| then Step(cfg, StateAfter(cfg, s, inputs, j), inputs[j]).output
                            else Output([], None),
                inputs, i);
  }

  lemma TraceOfIs(cfg: Settings, s: NodeState, inputs: seq<Input>)
    ensures IsTrace(cfg, TraceOf(cfg, s, inputs)) && TraceOf(cfg, s, inputs).states[0] == s
  {
    var tr := TraceOf(cfg, s, inputs);
    forall i: nat ensures StepAt(cfg, tr, i) { TraceOfAt(cfg, s, inputs, i); }
  }

  // ---- Coming to know the others ----

  /** Nothing ever keeps the node from sending: no least interval, and a period that stays as it is. */
  predicate Unhindered(cfg: Settings) {
    cfg.timerMode.Fixed? && cfg.minSendMs == 0 && !cfg.strategy.Full? && !cfg.coordinated
  }

  const EARLY := Clock(0, 1)
  const LATE := Clock(1, 1)

  /** What the node then knows: itself and the first vector at time 0, the second vector at time 1. */
  function KnownVector(cfg: Settings, first: VersionVector, second: VersionVector): VersionVector {
    Merged(Merged(EMPTY.Set(cfg.id, 1, 0), first, 0), second, 1)
  }

  /** Every entry is stamped, and not long ago. */
  ghost predicate Young(vv: VersionVector) {
    forall x | x in vv.entries :: x in vv.stamps && vv.stamps[x] >= 0
  }

  lemma MergedIsYoung(vv: VersionVector, other: VersionVector, now: Time)
    requires Young(vv) && now >= 0
    ensures Young(Merged(vv, other, now))
  {
  }

  lemma YoungIsQuiet(vv: VersionVector, other: VersionVector, now: Time)
    requires Young(vv) && now <= 1
    ensures !MyVectorNew(vv, other, now, 500000)
  {
    MyVectorNewIff(vv, other, now, 500000);
  }

  /** Not suppressed, and with the timer as configured. */
  predicate Listening(cfg: Settings, s: NodeState, vv: VersionVector) {
    s.vv == vv && s.recorded.None? && s.feedback.timer.maxSuppression == 500 && s.sched == FRESH
  }

  lemma HearingYoung(cfg: Settings, s: NodeState, vv: VersionVector, other: VersionVector, clock: Clock, draws: Draws)
    requires Unhindered(cfg) && Listening(cfg, s, vv) && Young(vv) && 0 <= clock.wall <= 1
    ensures Listening(cfg, Hear(cfg, s, other, 0, clock, draws).state, Merged(vv, other, clock.wall))
    ensures Young(Merged(vv, other, clock.wall))
  {
    MergedIsYoung(vv, other, clock.wall);
    YoungIsQuiet(Merged(vv, other, clock.wall), other, clock.wall);
    HearVector(cfg, s, other, 0, clock, draws);
  }

  lemma PublishingYoung(cfg: Settings, s: NodeState, clock: Clock, draws: Draws)
    requires Unhindered(cfg) && Listening(cfg, s, EMPTY) && 0 <= clock.wall
    ensures Listening(cfg, Update(cfg, s, 1, cfg.id, clock, draws), EMPTY.Set(cfg.id, 1, clock.wall))
    ensures Young(EMPTY.Set(cfg.id, 1, clock.wall))
  {
  }

  // ---- Sending again and again ----

  /** Ready to send the same vector. */
  predicate Ready(s: NodeState, vv: VersionVector) {
    s.vv == vv && s.recorded.None? && s.initialized
  }

  lemma FiringReady(cfg: Settings, s: NodeState, clock: Clock, draws: Draws)
    requires Unhindered(cfg) && Ready(s, s.vv)
    ensures Ready(Fire(cfg, s, clock, draws).state, s.vv) && Fire(cfg, s, clock, draws).sent.Some?
  {
  }

  // ---- The run ----

  /** What happens: publish, hear, hear, start, and then one timeout after the other. */
  function EventNo(cfg: Settings, first: VersionVector, second: VersionVector, i: nat): Event {
    if i == 0 then Updated(1, cfg.id)
    else if i == 1 then Received(first, 0)
    else if i == 2 then Received(second, 0)
    else if i == 3 then Started
    else TimedOut
  }

  function InputsOf(cfg: Settings, first: VersionVector, second: VersionVector, draws: Draws, n: nat): seq<Input> {
    seq(n, i requires 0 <= i < n => Input(EventNo(cfg, first, second, i), if i < 2 then EARLY else LATE, draws))
  }

  /** What holds before step i: nothing sent yet, or ready. */
  ghost predicate Before(cfg: Settings, first: VersionVector, second: VersionVector, s: NodeState, i: nat) {
    if i == 0 then Listening(cfg, s, EMPTY)
    else if i == 1 then Listening(cfg, s, EMPTY.Set(cfg.id, 1, 0)) && Young(s.vv)
    else if i == 2 then Listening(cfg, s, Merged(EMPTY.Set(cfg.id, 1, 0), first, 0)) && Young(s.vv)
    else if i == 3 then Listening(cfg, s, KnownVector(cfg, first, second)) && Young(s.vv)
    else Ready(s, KnownVector(cfg, first, second))
  }

  lemma FirstStep(cfg: Settings, first: VersionVector, second: VersionVector, draws: Draws, s: NodeState)
    requires Unhindered(cfg) && Before(cfg, first, second, s, 0)
    ensures var r := Step(cfg, s, Input(Updated(1, cfg.id), EARLY, draws));
            Before(cfg, first, second, r.state, 1) && r.output.sent.None?
  {
    PublishingYoung(cfg, s, EARLY, draws);
  }

  lemma SecondStep(cfg: Settings, first: VersionVector, second: VersionVector, draws: Draws, s: NodeState)
    requires Unhindered(cfg) && Before(cfg, first, second, s, 1)
    ensures var r := Step(cfg, s, Input(Received(first, 0), EARLY, draws));
            Before(cfg, first, second, r.state, 2) && r.output.sent.None?
  {
    HearingYoung(cfg, s, s.vv, first, EARLY, draws);
  }

  lemma ThirdStep(cfg: Settings, first: VersionVector, second: VersionVector, draws: Draws, s: NodeState)
    requires Unhindered(cfg) && Before(cfg, first, second, s, 2)
    ensures var r := Step(cfg, s, Input(Received(second, 0), LATE, draws));
            Before(cfg, first, second, r.state, 3) && r.output.sent.None?
  {
    HearingYoung(cfg, s, s.vv, second, LATE, draws);
  }

  lemma StartingStep(cfg: Settings, first: VersionVector, second: VersionVector, draws: Draws, s: NodeState)
    requires Unhindered(cfg) && Before(cfg, first, second, s, 3)
    ensures var r := Step(cfg, s, Input(Started, LATE, draws));
            Before(cfg, first, second, r.state, 4) && r.output.sent.Some?
  {
    FiringReady(cfg, s.(initialized := true), LATE, draws);
  }

  lemma LaterStep(cfg: Settings, first: VersionVector, second: VersionVector, draws: Draws, s: NodeState, i: nat)
    requires Unhindered(cfg) && Before(cfg, first, second, s, i) && i >= 4
    ensures var r := Step(cfg, s, Input(TimedOut, LATE, draws));
            Before(cfg, first, second, r.state, i + 1) && r.output.sent.Some?
  {
    FiringReady(cfg, s, LATE, draws);
  }

  /** One step: what it leaves, and whether it sends. */
  lemma StartedStep(cfg: Settings, first: VersionVector, second: VersionVector, draws: Draws, s: NodeState, i: nat,
                    input: Input)
    requires Unhindered(cfg) && Before(cfg, first, second, s, i)
    requires input == Input(EventNo(cfg, first, second, i), if i < 2 then EARLY else LATE, draws)
    ensures Before(cfg, first, second, Step(cfg, s, input).state, i + 1)
    ensures Step(cfg, s, input).output.sent.Some? <==> i >= 3
  {
    if i == 0 {
      FirstStep(cfg, first, second, draws, s);
    } else if i == 1 {
      SecondStep(cfg, first, second, draws, s);
    } else if i == 2 {
      ThirdStep(cfg, first, second, draws, s);
    } else if i == 3 {
      StartingStep(cfg, first, second, draws, s);
    } else {
      LaterStep(cfg, first, second, draws, s, i);
    }
  }

  lemma InitiallyListening(cfg: Settings)
    requires Unhindered(cfg)
    ensures Listening(cfg, InitialState(cfg, 0), EMPTY)
  {
  }

  lemma InputAt(cfg: Settings, first: VersionVector, second: VersionVector, draws: Draws, n: nat, i: nat)
    requires i < n
    ensures InputsOf(cfg, first, second, draws, n)[i]
         == Input(EventNo(cfg, first, second, i), if i < 2 then EARLY else LATE, draws)
  {
  }

  /** The run from the construction that these inputs lead to. */
  ghost predicate IsStarted(cfg: Settings, first: VersionVector, second: VersionVector, draws: Draws, n: nat, tr: Trace)
  {
    && IsTrace(cfg, tr) && tr.states[0] == InitialState(cfg, 0)
    && tr.inputs == InputsOf(cfg, first, second, draws, n) && |tr.inputs| == n
  }

  /** There is one. */
  lemma StartedRun(cfg: Settings, first: VersionVector, second: VersionVector, draws: Draws, n: nat)
    returns (tr: Trace)
    ensures IsStarted(cfg, first, second, draws, n, tr)
  {
    tr := TraceOf(cfg, InitialState(cfg, 0), InputsOf(cfg, first, second, draws, n));
    TraceOfIs(cfg, InitialState(cfg, 0), InputsOf(cfg, first, second, draws, n));
  }

  lemma {:induction false} StartedBefore(cfg: Settings, first: VersionVector, second: VersionVector, draws: Draws,
                                         n: nat, tr: Trace, i: nat)
    requires Unhindered(cfg) && IsStarted(cfg, first, second, draws, n, tr) && i <= n
    ensures Before(cfg, first, second, tr.states[i], i)
    decreases i
  {
    if i == 0 {
      InitiallyListening(cfg);
    } else {
      StartedBefore(cfg, first, second, draws, n, tr, i - 1);
      StartedNext(cfg, first, second, draws, n, tr, i - 1);
    }
  }

  lemma StartedNext(cfg: Settings, first: VersionVector, second: VersionVector, draws: Draws, n: nat, tr: Trace, i: nat)
    requires Unhindered(cfg) && IsStarted(cfg, first, second, draws, n, tr) && i < n
    requires Before(cfg, first, second, tr.states[i], i)
    ensures Before(cfg, first, second, tr.states[i + 1], i + 1) && (tr.outputs[i].sent.Some? <==> i >= 3)
  {
    InputAt(cfg, first, second, draws, n, i);
    assert StepAt(cfg, tr, i);
    StartedStep(cfg, first, second, draws, tr.states[i], i, tr.inputs[i]);
  }

  /** It sends from the fourth step on, always the same vector. */
  lemma StartedSends(cfg: Settings, first: VersionVector, second: VersionVector, draws: Draws, n: nat, tr: Trace,
                     i: nat)
    requires Unhindered(cfg) && IsStarted(cfg, first, second, draws, n, tr) && i < n
    ensures tr.outputs[i].sent.Some? <==> i >= 3
    ensures tr.outputs[i].sent.Some? ==> tr.states[i].vv == KnownVector(cfg, first, second)
  {
    StartedBefore(cfg, first, second, draws, n, tr, i);
    StartedNext(cfg, first, second, draws, n, tr, i);
  }

  lemma StartedRaises(cfg: Settings, first: VersionVector, second: VersionVector, draws: Draws, n: nat, tr: Trace,
                      i: nat)
    requires Unhindered(cfg) && IsStarted(cfg, first, second, draws, n, tr) && i < n
    ensures Raises(cfg, tr.states[i], tr.inputs[i])
  {
    InputAt(cfg, first, second, draws, n, i);
    StartedBefore(cfg, first, second, draws, n, tr, i);
  }

  lemma StartedIsOrderly(cfg: Settings, first: VersionVector, second: VersionVector, draws: Draws, n: nat, tr: Trace)
    requires Unhindered(cfg) && IsStarted(cfg, first, second, draws, n, tr)
    requires ValidOutside(KnownVector(cfg, first, second), draws.chance.outside)
    ensures Orderly(cfg, tr)
  {
    forall i | 0 <= i < |tr.inputs| ensures Raises(cfg, tr.states[i], tr.inputs[i]) {
      StartedRaises(cfg, first, second, draws, n, tr, i);
    }
    forall i: nat ensures ShuffleAt(tr, i) {
      if i < n {
        InputAt(cfg, first, second, draws, n, i);
        StartedSends(cfg, first, second, draws, n, tr, i);
      }
    }
  }

  lemma {:induction false} SendingsCount(tr: Trace, m: nat)
    requires m <= |tr.outputs| && forall i | 0 <= i < m :: tr.outputs[i].sent.Some? <==> i >= 3
    ensures |Sendings(tr, m)| == if m <= 3 then 0 else m - 3
    decreases m
  {
    if m > 0 { SendingsCount(tr, m - 1); }
  }

  lemma StartedSendings(cfg: Settings, first: VersionVector, second: VersionVector, draws: Draws, n: nat, tr: Trace)
    requires Unhindered(cfg) && IsStarted(cfg, first, second, draws, n, tr)
    ensures |Sendings(tr, n)| == if n <= 3 then 0 else n - 3
  {
    forall i | 0 <= i < n ensures tr.outputs[i].sent.Some? <==> i >= 3 {
      StartedSends(cfg, first, second, draws, n, tr, i);
    }
    SendingsCount(tr, n);
  }

  /** The node knows these entries, and may send k of them. */
  ghost predicate Fits(cfg: Settings, first: VersionVector, second: VersionVector, draws: Draws, keys: set<NodeID>,
                       k: nat)
  {
    && ValidOutside(KnownVector(cfg, first, second), draws.chance.outside)
    && KnownVector(cfg, first, second).entries.Keys == keys && 1 <= k < |keys|
    && k == Limit(cfg, Load(HOTSPOT_SCORE, 0.0), |keys|)
  }

  ghost predicate AllPositive(vv: VersionVector) {
    forall x | x in vv.entries :: vv.entries[x] > 0
  }

  lemma KnownKeys(cfg: Settings, first: VersionVector, second: VersionVector)
    requires AllPositive(first) && AllPositive(second)
    ensures KnownVector(cfg, first, second).entries.Keys == {cfg.id} + first.entries.Keys + second.entries.Keys
  {
    var own := EMPTY.Set(cfg.id, 1, 0);
    MergedKeys(own, first, 0);
    MergedKeys(Merged(own, first, 0), second, 1);
  }

  lemma MergedKeys(vv: VersionVector, other: VersionVector, now: Time)
    requires AllPositive(other)
    ensures Merged(vv, other, now).entries.Keys == vv.entries.Keys + other.entries.Keys
  {
  }

  /** When the node learned of an entry. */
  lemma KnownStamp(cfg: Settings, first: VersionVector, second: VersionVector, x: NodeID)
    requires AllPositive(first) && AllPositive(second)
    requires x == cfg.id || x in first.entries || x in second.entries
    ensures x !in second.entries ==> KnownVector(cfg, first, second).GetLastUpdate(x) == 0
    ensures x in second.entries && x !in first.entries && x != cfg.id ==>
              KnownVector(cfg, first, second).GetLastUpdate(x) == 1
  {
  }

  lemma FitsKeys(cfg: Settings, first: VersionVector, second: VersionVector, draws: Draws, keys: set<NodeID>, k: nat)
    requires AllPositive(first) && AllPositive(second)
    requires keys == {cfg.id} + first.entries.Keys + second.entries.Keys
    requires Elements(draws.chance.outside.shuffled) == keys && |draws.chance.outside.shuffled| == |keys|
    requires 1 <= k < |keys| && k == Limit(cfg, Load(HOTSPOT_SCORE, 0.0), |keys|)
    ensures Fits(cfg, first, second, draws, keys, k)
  {
    KnownKeys(cfg, first, second);
    assert |KnownVector(cfg, first, second).entries| == |KnownVector(cfg, first, second).entries.Keys|;
  }

  /** Such a run is steady and has a Sync Interest in every step from the fourth on: there are steady
      runs of any length for any entries and any number of slots. */
  lemma StartedIsSteady(cfg: Settings, first: VersionVector, second: VersionVector, draws: Draws, n: nat, tr: Trace,
                        keys: set<NodeID>, k: nat)
    requires Unhindered(cfg) && IsStarted(cfg, first, second, draws, n, tr) && Fits(cfg, first, second, draws, keys, k)
    ensures IsRun(cfg, tr) && SteadyNode(cfg, keys, k, tr)
    ensures |Sendings(tr, n)| == if n <= 3 then 0 else n - 3
  {
    StartedIsOrderly(cfg, first, second, draws, n, tr);
    StartedSendings(cfg, first, second, draws, n, tr);
    forall i: nat ensures ChoosesIn(cfg, keys, k, tr, i) {
      if i < n {
        StartedSends(cfg, first, second, draws, n, tr, i);
        LoadIrrelevant(cfg, tr.states[i].Load(), Load(HOTSPOT_SCORE, 0.0), |keys|);
      }
    }
  }

  lemma LoadIrrelevant(cfg: Settings, load: Load, load': Load, n: nat)
    requires !cfg.coordinated
    ensures Limit(cfg, load, n) == Limit(cfg, load', n)
  {
  }
}
