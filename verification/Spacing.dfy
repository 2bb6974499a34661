/** Transmissions keep their distance. */
module Spacing {
  import opened VersionVectors
  import opened Settings
  import opened Merging
  import opened Timing
  import opened TimingFacts
  import opened Core

  /** What the spacing rests on: an activity in range, and no transmission in the future. */
  predicate Paced(s: NodeState) {
    InRange(s.feedback.timer) && s.lastTx >= 0
  }

  function Gap(cfg: Settings): nat { cfg.minSendMs * 1000 }

  lemma InitiallyPaced(cfg: Settings, nextSync: int)
    ensures Paced(InitialState(cfg, nextSync))
  {
    InitialInRange(cfg);
  }

  /** The least distance kept by a step: what it sends, it sends late enough after the last time. */
  ghost predicate PacedStep(cfg: Settings, s: NodeState, i: Input, r: Stepped) {
    && Paced(r.state)
    && r.state.lastTx == (if r.output.sent.Some? then i.clock.steady else s.lastTx)
    && (r.output.sent.Some? && s.lastTx > 0 && Gap(cfg) > 0 ==> i.clock.steady >= s.lastTx + Gap(cfg))
  }

  lemma FirePaced(cfg: Settings, s: NodeState, clock: Clock, draws: Draws)
    requires Paced(s) && clock.steady > 0
    ensures var r := Fire(cfg, s, clock, draws);
            && Paced(r.state)
            && r.state.lastTx == (if r.sent.Some? then clock.steady else s.lastTx)
            && (r.sent.Some? && s.lastTx > 0 && Gap(cfg) > 0 ==> clock.steady >= s.lastTx + Gap(cfg))
  {
    GapIsConfigured(cfg, s.feedback.timer.activity);
  }

  lemma HearPaced(cfg: Settings, s: NodeState, other: VersionVector, face: nat, clock: Clock, draws: Draws)
    requires Paced(s)
    ensures var r := Hear(cfg, s, other, face, clock, draws).state; Paced(r) && r.lastTx == s.lastTx
  {
    var f := Observe(cfg, s.feedback, other.Get(cfg.id), clock.steady);
    var report := Report(s.vv, other, clock.wall, f.timer.maxSuppression * 1000);
    ObserveInRange(cfg, s.feedback, other.Get(cfg.id), clock.steady);
    AdjustInRange(cfg, f.timer, Size(Merged(s.vv, other, clock.wall)), SignalOf(report), clock.steady);
  }

  lemma UpdatePaced(cfg: Settings, s: NodeState, seqNo: SeqNo, nid: Nodes.NodeID, clock: Clock, draws: Draws)
    requires Paced(s)
    ensures var r := Update(cfg, s, seqNo, nid, clock, draws); Paced(r) && r.lastTx == s.lastTx
  {
    var s1 := s.(vv := s.vv.Set(TargetNode(cfg, nid), seqNo, clock.wall));
    AdjustInRange(cfg, s.feedback.timer, Size(s1.vv), LocalUpdate, clock.steady);
  }

  lemma StepPaced(cfg: Settings, s: NodeState, i: Input)
    requires Paced(s) && i.clock.steady > 0
    ensures PacedStep(cfg, s, i, Step(cfg, s, i))
  {
    match i.event {
      case Started => FirePaced(cfg, s.(initialized := true), i.clock, i.draws);
      case TimedOut => FirePaced(cfg, s, i.clock, i.draws);
      case Received(other, face) => HearPaced(cfg, s, other, face, i.clock, i.draws);
      case Updated(seqNo, nid) => UpdatePaced(cfg, s, seqNo, nid, i.clock, i.draws);
    }
  }

  /** The steady clock never goes back. */
  ghost predicate Clocked(tr: Trace) {
    && (forall i | 0 <= i < |tr.inputs| :: tr.inputs[i].clock.steady > 0)
    && (forall i, j | 0 <= i < j < |tr.inputs| :: tr.inputs[i].clock.steady <= tr.inputs[j].clock.steady)
  }

  lemma PacedAt(cfg: Settings, tr: Trace, i: nat)
    requires IsTrace(cfg, tr) && i < |tr.inputs| && Paced(tr.states[i]) && tr.inputs[i].clock.steady > 0
    ensures PacedStep(cfg, tr.states[i], tr.inputs[i], Stepped(tr.states[i + 1], tr.outputs[i]))
  {
    assert StepAt(cfg, tr, i);
    StepPaced(cfg, tr.states[i], tr.inputs[i]);
  }

  lemma {:induction false} RunPaced(cfg: Settings, tr: Trace, i: nat)
    requires IsTrace(cfg, tr) && Clocked(tr) && Paced(tr.states[0]) && i <= |tr.inputs|
    ensures Paced(tr.states[i])
    decreases i
  {
    if i > 0 {
      RunPaced(cfg, tr, i - 1);
      PacedAt(cfg, tr, i - 1);
    }
  }

  /** Once something is sent at time t, the last transmission is never before t again. */
  lemma {:induction false} LastTxRemembers(cfg: Settings, tr: Trace, i: nat, j: nat)
    requires IsTrace(cfg, tr) && Clocked(tr) && Paced(tr.states[0]) && i < j <= |tr.inputs|
    requires tr.outputs[i].sent.Some?
    ensures tr.states[j].lastTx >= tr.inputs[i].clock.steady
    decreases j
  {
    RunPaced(cfg, tr, j - 1);
    PacedAt(cfg, tr, j - 1);
    if i < j - 1 { LastTxRemembers(cfg, tr, i, j - 1); }
  }

  /** Any two Sync Interests of a run are at least the configured interval apart. */
  lemma TransmissionsSpaced(cfg: Settings, tr: Trace, i: nat, j: nat)
    requires IsRun(cfg, tr) && Clocked(tr) && i < j < |tr.inputs|
    requires tr.outputs[i].sent.Some? && tr.outputs[j].sent.Some?
    ensures tr.inputs[j].clock.steady >= tr.inputs[i].clock.steady + Gap(cfg)
  {
    var nextSync :| tr.states[0] == InitialState(cfg, nextSync);
    InitiallyPaced(cfg, nextSync);
    RunPaced(cfg, tr, j);
    LastTxRemembers(cfg, tr, i, j);
    PacedAt(cfg, tr, j);
  }

  /** A deferred transmission is put off to a time at which, unless another one comes first, it is
      not deferred again. */
  lemma DeferredOnce(cfg: Settings, s: NodeState, clock: Clock, draws: Draws, later: NodeState, now: int)
    requires Paced(s) && Deferred(cfg, s, clock.steady)
    requires Paced(later) && later.lastTx == s.lastTx && now >= Fire(cfg, s, clock, draws).state.nextSync
    ensures !Deferred(cfg, later, now)
  {
    GapIsConfigured(cfg, s.feedback.timer.activity);
    GapIsConfigured(cfg, later.feedback.timer.activity);
  }
}
