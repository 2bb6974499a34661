/** When the next Sync Interest is due: what each step makes of the time, and how soon a suppressed node
    answers. */
module Dues {
  import opened Numbers
  import opened Nodes
  import opened VersionVectors
  import opened Settings
  import opened Timing
  import opened TimingFacts
  import opened Core
  import opened CoreFacts
  import opened Spacing
  import TimerRuns

  /** A raised number: the next Interest is to announce it. */
  predicate RaisesNumber(cfg: Settings, s: NodeState, seqNo: SeqNo, nid: NodeID) {
    seqNo > s.vv.Get(TargetNode(cfg, nid))
  }

  /** The earliest whole number of milliseconds from now at which the gap since the last transmission is
      kept. */
  predicate EarliestAfterGap(cfg: Settings, s: NodeState, now: int, due: int) {
    && s.lastTx + Gap(cfg) <= due < s.lastTx + Gap(cfg) + 1000
    && (due - now) % 1000 == 0
  }

  /** When the next Interest is due after a timer has fired: when the gap allows it, or a period later. */
  predicate DueAfterFiring(cfg: Settings, s: NodeState, i: Input, due: int) {
    if Gap(cfg) > 0 && s.lastTx > 0 && i.clock.steady < s.lastTx + Gap(cfg)
    then EarliestAfterGap(cfg, s, i.clock.steady, due)
    else due == i.clock.steady + 1000 * i.draws.periodDelay
  }

  /** After a vector was heard. One that is recorded in suppression leaves the time alone. One that leads to
      suppression moves it forward to the reply delay drawn, or leaves it if it is earlier; no delay counts
      as a period. Any other vector says all there is to say, and puts the Interest off by a period. */
  predicate DueAfterHearing(s: NodeState, i: Input, s': NodeState) {
    if s.recorded.Some? then s'.nextSync == s.nextSync
    else if s'.recorded.None? then s'.nextSync == i.clock.steady + 1000 * i.draws.periodDelay
    else if i.draws.replyDelay > 0
    then s'.nextSync == Min(s.nextSync, i.clock.steady + 1000 * i.draws.replyDelay)
    else s'.nextSync == if i.clock.steady < s.nextSync then i.clock.steady + 1000 * i.draws.periodDelay else s.nextSync
  }

  /** After a number was set: announced after the local delay if raised. */
  predicate DueAfterUpdate(cfg: Settings, s: NodeState, i: Input, seqNo: SeqNo, nid: NodeID, due: int) {
    due == if RaisesNumber(cfg, s, seqNo, nid) then i.clock.steady + 1000 * Max(1, cfg.localDelayMs) else s.nextSync
  }

  predicate DueAfter(cfg: Settings, s: NodeState, i: Input, s': NodeState) {
    match i.event
    case Started => DueAfterFiring(cfg, s, i, s'.nextSync)
    case TimedOut => DueAfterFiring(cfg, s, i, s'.nextSync)
    case Received(_, _) => DueAfterHearing(s, i, s')
    case Updated(seqNo, nid) => DueAfterUpdate(cfg, s, i, seqNo, nid, s'.nextSync)
  }

  lemma WaitIsEarliest(last: int, gap: int, now: int)
    requires now < last + gap
    ensures var wait := Max(1, (last + gap - now + 999) / 1000);
            last + gap <= now + 1000 * wait < last + gap + 1000 && (now + 1000 * wait - now) % 1000 == 0
  {
  }

  lemma FiringDue(cfg: Settings, s: NodeState, i: Input)
    requires s.feedback.timer.activity <= 1.0
    ensures DueAfterFiring(cfg, s, i, Fire(cfg, s, i.clock, i.draws).state.nextSync)
  {
    GapIsConfigured(cfg, s.feedback.timer.activity);
    if Deferred(cfg, s, i.clock.steady) { WaitIsEarliest(s.lastTx, Gap(cfg), i.clock.steady); }
  }

  lemma HearingDue(cfg: Settings, s: NodeState, i: Input)
    requires i.event.Received?
    ensures DueAfterHearing(s, i, Step(cfg, s, i).state)
  {
    HearVector(cfg, s, i.event.other, i.event.face, i.clock, i.draws);
  }

  lemma UpdateDue(cfg: Settings, s: NodeState, i: Input)
    requires i.event.Updated? && InRange(s.feedback.timer)
    ensures DueAfterUpdate(cfg, s, i, i.event.seqNo, i.event.nid, Step(cfg, s, i).state.nextSync)
  {
    var n := Size(s.vv.Set(TargetNode(cfg, i.event.nid), i.event.seqNo, i.clock.wall));
    AdjustInRange(cfg, s.feedback.timer, n, LocalUpdate, i.clock.steady);
    GapIsConfigured(cfg, Adjust(cfg, s.feedback.timer, n, LocalUpdate, i.clock.steady).activity);
  }

  /** Every step leaves the next Interest due when it should be. */
  lemma StepDue(cfg: Settings, s: NodeState, i: Input)
    requires InRange(s.feedback.timer)
    ensures DueAfter(cfg, s, i, Step(cfg, s, i).state)
  {
    match i.event {
      case Started => FiringDue(cfg, s.(initialized := true), i);
      case TimedOut => FiringDue(cfg, s, i);
      case Received(other, face) => HearingDue(cfg, s, i);
      case Updated(seqNo, nid) => UpdateDue(cfg, s, i);
    }
  }

  // ---- How soon a suppressed node answers ----

  /** Neither a timer that fires nor a raised number. */
  predicate Waits(cfg: Settings, tr: Trace, m: nat) {
    m < |tr.inputs| && m < |tr.states| ==>
    match tr.inputs[m].event
    case Received(_, _) => true
    case Updated(seqNo, nid) => !RaisesNumber(cfg, tr.states[m], seqNo, nid)
    case _ => false
  }

  /** The step at which a vector leads to suppression. */
  predicate Enters(tr: Trace, a: nat)
    requires a < |tr.inputs| && |tr.states| == |tr.inputs| + 1
  {
    tr.inputs[a].event.Received? && tr.states[a].recorded.None? && tr.states[a + 1].recorded.Some?
  }

  lemma WaitingStep(cfg: Settings, s: NodeState, i: Input)
    requires s.recorded.Some? && InRange(s.feedback.timer)
    requires i.event.Received? || (i.event.Updated? && !RaisesNumber(cfg, s, i.event.seqNo, i.event.nid))
    ensures Step(cfg, s, i).state.recorded.Some? && Step(cfg, s, i).state.nextSync == s.nextSync
  {
    StepDue(cfg, s, i);
    if i.event.Received? {
      HearVector(cfg, s, i.event.other, i.event.face, i.clock, i.draws);
    } else {
      UpdateVector(cfg, s, i.event.seqNo, i.event.nid, i.clock, i.draws);
    }
  }

  lemma InRangeAt(cfg: Settings, tr: Trace, i: nat)
    requires IsRun(cfg, tr) && i <= |tr.inputs|
    ensures InRange(tr.states[i].feedback.timer)
  {
    TimerRuns.PeriodInRange(cfg, tr, i);
  }

  lemma DueAt(cfg: Settings, tr: Trace, i: nat)
    requires IsRun(cfg, tr) && i < |tr.inputs|
    ensures DueAfter(cfg, tr.states[i], tr.inputs[i], tr.states[i + 1])
  {
    InRangeAt(cfg, tr, i);
    assert StepAt(cfg, tr, i);
    StepDue(cfg, tr.states[i], tr.inputs[i]);
  }

  lemma WaitingAt(cfg: Settings, tr: Trace, i: nat)
    requires IsRun(cfg, tr) && i < |tr.inputs| && Waits(cfg, tr, i) && tr.states[i].recorded.Some?
    ensures tr.states[i + 1].recorded.Some? && tr.states[i + 1].nextSync == tr.states[i].nextSync
  {
    InRangeAt(cfg, tr, i);
    assert StepAt(cfg, tr, i);
    WaitingStep(cfg, tr.states[i], tr.inputs[i]);
  }

  /** A node that heard something stale sends, or decides not to, after the reply delay it drew, or when it
      would have sent anyway if that is earlier; whatever else it hears until then. */
  lemma {:induction false} AnswersSoon(cfg: Settings, tr: Trace, a: nat, b: nat)
    requires IsRun(cfg, tr) && a < b <= |tr.inputs| && Enters(tr, a) && tr.inputs[a].draws.replyDelay > 0
    requires forall m: nat | a < m < b :: Waits(cfg, tr, m)
    ensures tr.states[b].recorded.Some?
    ensures tr.states[b].nextSync ==
            Min(tr.states[a].nextSync, tr.inputs[a].clock.steady + 1000 * tr.inputs[a].draws.replyDelay)
    decreases b
  {
    if b == a + 1 {
      DueAt(cfg, tr, a);
    } else {
      AnswersSoon(cfg, tr, a, b - 1);
      WaitingAt(cfg, tr, b - 1);
    }
  }
}
