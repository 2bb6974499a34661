/** core.cpp: the steps of one node, as functions of its state. SyncNode.dfy has the methods. */
module Core {
  import opened Nodes
  import opened Numbers
  import opened VersionVectors
  import opened Settings
  import opened Scheduler
  import opened Merging
  import opened Timing

  datatype Option<T> = None | Some(value: T)

  /** The two clocks a step reads: the system clock stamps updates, the steady clock times sending. */
  datatype Clock = Clock(wall: Time, steady: int)

  /** What chance contributes to a step: to the selection, to the period (sampleSyncDelay) and to
      the reply delay (m_intrReplyDist put through suppressionCurve). */
  datatype Draws = Draws(chance: Chance, periodDelay: nat, replyDelay: nat)

  datatype NodeState = NodeState(
    vv: VersionVector,
    recorded: Option<VersionVector>,
    sched: Sched,
    feedback: Feedback,
    lastTx: int,
    nextSync: int,
    initialized: bool)
  {
    function Load(): Load { Scheduler.Load(HOTSPOT_SCORE, feedback.timer.activity) }

    /** m_maxSuppressionTime in the unit of the clocks. */
    function Suppression(): Time { feedback.timer.maxSuppression * 1000 }

    function WithTimer(t: Timer): NodeState { this.(feedback := feedback.(timer := t)) }
  }

  /** The state the constructor leaves; when the next Interest is due is not set yet. */
  function InitialState(cfg: Settings, nextSync: int): NodeState {
    NodeState(EMPTY, None, FRESH, Feedback(InitialTimer(cfg), []), 0, nextSync, false)
  }

  // ---- Sending ----

  datatype Sending = Sending(state: NodeState, sent: Option<VersionVector>)

  /** sendSyncInterest, from the vector to the bookkeeping of its transmission. */
  function SendSync(cfg: Settings, s: NodeState, clock: Clock, draws: Draws): Sending {
    if !s.initialized then Sending(s, None)
    else
      var (sent, sched) := Build(cfg, s.Load(), s.vv, s.sched, draws.chance);
      Sending(s.(sched := sched,
                 lastTx := clock.steady,
                 feedback := s.feedback.(pending := NoteSend(cfg, s.feedback.pending, sent.Get(cfg.id), clock.steady))),
              Some(sent))
  }

  /** Too little time has passed since the last transmission. */
  predicate Deferred(cfg: Settings, s: NodeState, now: int) {
    var gap := MinGap(cfg, s.feedback.timer.activity);
    gap > 0 && s.lastTx > 0 && now < s.lastTx + gap
  }

  /** Milliseconds until a deferred transmission may go ahead. */
  function DeferredDelay(cfg: Settings, s: NodeState, now: int): nat {
    Max(1, (s.lastTx + MinGap(cfg, s.feedback.timer.activity) - now + 999) / 1000)
  }

  function Schedule(s: NodeState, delay: nat, clock: Clock, draws: Draws): NodeState {
    s.(nextSync := clock.steady + 1000 * (if delay == 0 then draws.periodDelay else delay))
  }

  /** Send, unless others have said it all; either way, leave the suppression state. */
  function SendUnlessSuppressed(cfg: Settings, s: NodeState, clock: Clock, draws: Draws): Sending {
    match s.recorded
    case None => SendSync(cfg, s, clock, draws)
    case Some(recorded) =>
      var merged := s.(vv := Merged(s.vv, recorded, clock.wall), recorded := None);
      if Report(s.vv, recorded, clock.wall, s.Suppression()).myVectorNew
      then SendSync(cfg, merged, clock, draws)
      else Sending(merged, None)
  }

  /** retxSyncInterest(true, 0): the timer of the next Interest has fired. */
  function Fire(cfg: Settings, s: NodeState, clock: Clock, draws: Draws): Sending {
    if Deferred(cfg, s, clock.steady)
    then Sending(Schedule(s, DeferredDelay(cfg, s, clock.steady), clock, draws), None)
    else
      var r := SendUnlessSuppressed(cfg, s, clock, draws);
      r.(state := Schedule(r.state, 0, clock, draws))
  }

  // ---- Receiving ----

  datatype Hearing = Hearing(state: NodeState, reported: seq<MissingDataInfo>)

  function SignalOf(report: MergeResult): SyncSignal {
    if report.missingInfo != [] then RepairNeeded
    else if report.myVectorNew || report.otherVectorNew then RemoteUpdate
    else Idle
  }

  function OnFace(infos: seq<MissingDataInfo>, face: nat): (r: seq<MissingDataInfo>)
    ensures |r| == |infos|
  {
    seq(|infos|, i requires 0 <= i < |infos| => infos[i].(incomingFace := face))
  }

  /** Take in a vector: feedback, then the merge. */
  function Learn(cfg: Settings, s: NodeState, other: VersionVector, clock: Clock): (NodeState, MergeResult) {
    var f := Observe(cfg, s.feedback, other.Get(cfg.id), clock.steady);
    (s.(vv := Merged(s.vv, other, clock.wall), feedback := f),
     Report(s.vv, other, clock.wall, f.timer.maxSuppression * 1000))
  }

  /** Then pace the timer by what was learned. */
  function Absorb(cfg: Settings, s: NodeState, other: VersionVector, clock: Clock): (NodeState, MergeResult) {
    var learned := Learn(cfg, s, other, clock);
    var paced := Adjust(cfg, learned.0.feedback.timer, Size(learned.0.vv), SignalOf(learned.1), clock.steady);
    (learned.0.WithTimer(paced), learned.1)
  }

  /** What follows: record if suppressed, otherwise rest or become suppressed. */
  function Respond(s: NodeState, other: VersionVector, myVectorNew: bool, clock: Clock, draws: Draws): NodeState {
    match s.recorded
    case Some(recorded) => s.(recorded := Some(Merged(recorded, other, clock.wall)))
    case None =>
      if !myVectorNew then Schedule(s, 0, clock, draws)
      else
        var suppressed := s.(recorded := Some(other));
        if clock.steady + draws.replyDelay * 1000 < s.nextSync
        then Schedule(suppressed, draws.replyDelay, clock, draws)
        else suppressed
  }

  /** onSyncInterestValidated, once the vector is decoded. */
  function Hear(cfg: Settings, s: NodeState, other: VersionVector, face: nat, clock: Clock, draws: Draws): Hearing {
    var a := Absorb(cfg, s, other, clock);
    Hearing(Respond(a.0, other, a.1.myVectorNew, clock, draws), OnFace(a.1.missingInfo, face))
  }

  // ---- Publishing ----

  function TargetNode(cfg: Settings, nid: NodeID): NodeID {
    if nid == EMPTY_NODE_ID then cfg.id else nid
  }

  /** getSeqNo */
  function SeqNoOf(cfg: Settings, s: NodeState, nid: NodeID): SeqNo {
    s.vv.Get(TargetNode(cfg, nid))
  }

  /** updateSeqNo */
  function Update(cfg: Settings, s: NodeState, seqNo: SeqNo, nid: NodeID, clock: Clock, draws: Draws): NodeState {
    var t := TargetNode(cfg, nid);
    var s1 := s.(vv := s.vv.Set(t, seqNo, clock.wall));
    if seqNo > s.vv.Get(t) then
      var s2 := s1.WithTimer(Adjust(cfg, s1.feedback.timer, Size(s1.vv), LocalUpdate, clock.steady));
      Schedule(s2, LocalDelay(cfg, s2.feedback.timer.activity), clock, draws)
    else s1
  }

  // ---- Runs ----

  datatype Event = Started | TimedOut | Received(other: VersionVector, face: nat) | Updated(seqNo: SeqNo, nid: NodeID)

  datatype Input = Input(event: Event, clock: Clock, draws: Draws)

  datatype Output = Output(reported: seq<MissingDataInfo>, sent: Option<VersionVector>)

  datatype Stepped = Stepped(state: NodeState, output: Output)

  function Step(cfg: Settings, s: NodeState, i: Input): Stepped {
    match i.event
    case Started =>
      var r := Fire(cfg, s.(initialized := true), i.clock, i.draws);
      Stepped(r.state, Output([], r.sent))
    case TimedOut =>
      var r := Fire(cfg, s, i.clock, i.draws);
      Stepped(r.state, Output([], r.sent))
    case Received(other, face) =>
      var r := Hear(cfg, s, other, face, i.clock, i.draws);
      Stepped(r.state, Output(r.reported, None))
    case Updated(seqNo, nid) =>
      Stepped(Update(cfg, s, seqNo, nid, i.clock, i.draws), Output([], None))
  }

  /** A run: the states passed through, what each step got and what it put out. */
  datatype Trace = Trace(states: seq<NodeState>, inputs: seq<Input>, outputs: seq<Output>)

  predicate StepAt(cfg: Settings, tr: Trace, i: nat)
    requires |tr.states| == |tr.inputs| + 1 && |tr.outputs| == |tr.inputs|
  {
    i < |tr.inputs| ==> Stepped(tr.states[i + 1], tr.outputs[i]) == Step(cfg, tr.states[i], tr.inputs[i])
  }

  ghost predicate IsTrace(cfg: Settings, tr: Trace) {
    && |tr.states| == |tr.inputs| + 1 && |tr.outputs| == |tr.inputs|
    && forall i: nat :: StepAt(cfg, tr, i)
  }

  /** A run of a node from its construction. */
  ghost predicate IsRun(cfg: Settings, tr: Trace) {
    IsTrace(cfg, tr) && exists nextSync :: tr.states[0] == InitialState(cfg, nextSync)
  }
}
