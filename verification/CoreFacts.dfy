/** What every step of a node keeps, and what every run of one guarantees. */
module CoreFacts {
  import opened Nodes
  import opened VersionVectors
  import opened Settings
  import opened Merging
  import opened Core

  // ---- The recorded vector never runs ahead ----

  ghost predicate RecordedBehind(s: NodeState) {
    s.recorded.Some? ==> AtMost(s.recorded.value, s.vv)
  }

  /** updateSeqNo is only called to raise a number. */
  predicate Raises(cfg: Settings, s: NodeState, i: Input) {
    match i.event
    case Updated(seqNo, nid) => seqNo >= s.vv.Get(TargetNode(cfg, nid))
    case _ => true
  }

  /** A run in which no number is ever lowered. */
  ghost predicate Rising(cfg: Settings, tr: Trace) {
    IsTrace(cfg, tr) && forall i | 0 <= i < |tr.inputs| :: Raises(cfg, tr.states[i], tr.inputs[i])
  }

  lemma MergeNothing(vv: VersionVector, other: VersionVector, now: Time)
    requires AtMost(other, vv)
    ensures Merged(vv, other, now) == vv && MissingInfo(vv, other) == [] && News(vv, other) == {}
  {
    assert News(vv, other) == {};
    InfosNone(vv, other, OrderedNodes(other));
  }

  lemma {:induction false} InfosNone(vv: VersionVector, other: VersionVector, nodes: seq<NodeID>)
    requires AtMost(other, vv)
    ensures Infos(vv, other, nodes) == []
  {
    if nodes != [] {
      InfosNone(vv, other, nodes[..|nodes| - 1]);
      assert other.Get(nodes[|nodes| - 1]) <= vv.Get(nodes[|nodes| - 1]);
    }
  }

  /** The merge inside retxSyncInterest, whose report nobody sees, has nothing to report. */
  lemma HiddenMergeIdle(s: NodeState, now: Time)
    requires RecordedBehind(s) && s.recorded.Some?
    ensures Merged(s.vv, s.recorded.value, now) == s.vv
    ensures Report(s.vv, s.recorded.value, now, s.Suppression()).missingInfo == []
    ensures !Report(s.vv, s.recorded.value, now, s.Suppression()).otherVectorNew
  {
    MergeNothing(s.vv, s.recorded.value, now);
  }

  /** How a step changes the vector, when nothing is hidden. */
  function VectorAfter(cfg: Settings, vv: VersionVector, i: Input): VersionVector {
    match i.event
    case Received(other, _) => Merged(vv, other, i.clock.wall)
    case Updated(seqNo, nid) => vv.Set(TargetNode(cfg, nid), seqNo, i.clock.wall)
    case _ => vv
  }

  lemma FireVector(cfg: Settings, s: NodeState, clock: Clock, draws: Draws)
    requires RecordedBehind(s)
    ensures Fire(cfg, s, clock, draws).state.vv == s.vv
    ensures Fire(cfg, s, clock, draws).state.recorded == if Deferred(cfg, s, clock.steady) then s.recorded else None
  {
    if s.recorded.Some? { HiddenMergeIdle(s, clock.wall); }
  }

  lemma HearVector(cfg: Settings, s: NodeState, other: VersionVector, face: nat, clock: Clock, draws: Draws)
    ensures Hear(cfg, s, other, face, clock, draws).state.vv == Merged(s.vv, other, clock.wall)
    ensures var r := Hear(cfg, s, other, face, clock, draws).state.recorded;
            match s.recorded
            case Some(recorded) => r == Some(Merged(recorded, other, clock.wall))
            case None => r == if Absorb(cfg, s, other, clock).1.myVectorNew then Some(other) else None
  {
  }

  lemma UpdateVector(cfg: Settings, s: NodeState, seqNo: SeqNo, nid: NodeID, clock: Clock, draws: Draws)
    ensures Update(cfg, s, seqNo, nid, clock, draws).vv == s.vv.Set(TargetNode(cfg, nid), seqNo, clock.wall)
    ensures Update(cfg, s, seqNo, nid, clock, draws).recorded == s.recorded
  {
  }

  lemma StepVector(cfg: Settings, s: NodeState, i: Input)
    requires RecordedBehind(s)
    ensures Step(cfg, s, i).state.vv == VectorAfter(cfg, s.vv, i)
  {
    match i.event {
      case Started => FireVector(cfg, s.(initialized := true), i.clock, i.draws);
      case TimedOut => FireVector(cfg, s, i.clock, i.draws);
      case Received(other, face) => HearVector(cfg, s, other, face, i.clock, i.draws);
      case Updated(seqNo, nid) => UpdateVector(cfg, s, seqNo, nid, i.clock, i.draws);
    }
  }

  lemma MergedAtMost(v: VersionVector, w: VersionVector, other: VersionVector, now: Time)
    requires AtMost(v, w)
    ensures AtMost(Merged(v, other, now), Merged(w, other, now))
    ensures AtMost(other, Merged(w, other, now)) && AtMost(w, Merged(w, other, now))
  {
    forall nid ensures Merged(v, other, now).Get(nid) <= Merged(w, other, now).Get(nid)
      ensures other.Get(nid) <= Merged(w, other, now).Get(nid) && w.Get(nid) <= Merged(w, other, now).Get(nid)
    {
      MergedGet(v, other, now, nid);
      MergedGet(w, other, now, nid);
    }
  }

  lemma RaisingGrows(cfg: Settings, vv: VersionVector, seqNo: SeqNo, nid: NodeID, now: Time)
    requires seqNo >= vv.Get(nid)
    ensures AtMost(vv, vv.Set(nid, seqNo, now))
  {
  }

  lemma HearKeepsBehind(cfg: Settings, s: NodeState, other: VersionVector, face: nat, clock: Clock, draws: Draws)
    requires RecordedBehind(s)
    ensures RecordedBehind(Hear(cfg, s, other, face, clock, draws).state)
  {
    HearVector(cfg, s, other, face, clock, draws);
    MergedAtMost(if s.recorded.Some? then s.recorded.value else s.vv, s.vv, other, clock.wall);
  }

  lemma UpdateKeepsBehind(cfg: Settings, s: NodeState, seqNo: SeqNo, nid: NodeID, clock: Clock, draws: Draws)
    requires RecordedBehind(s) && seqNo >= s.vv.Get(TargetNode(cfg, nid))
    ensures RecordedBehind(Update(cfg, s, seqNo, nid, clock, draws))
  {
    UpdateVector(cfg, s, seqNo, nid, clock, draws);
    RaisingGrows(cfg, s.vv, seqNo, TargetNode(cfg, nid), clock.wall);
  }

  /** Every step keeps the recorded vector behind one's own, as long as no number is lowered. */
  lemma StepKeepsBehind(cfg: Settings, s: NodeState, i: Input)
    requires RecordedBehind(s) && Raises(cfg, s, i)
    ensures RecordedBehind(Step(cfg, s, i).state)
  {
    match i.event {
      case Started => FireVector(cfg, s.(initialized := true), i.clock, i.draws);
      case TimedOut => FireVector(cfg, s, i.clock, i.draws);
      case Received(other, face) => HearKeepsBehind(cfg, s, other, face, i.clock, i.draws);
      case Updated(seqNo, nid) => UpdateKeepsBehind(cfg, s, seqNo, nid, i.clock, i.draws);
    }
  }

  lemma BehindAfter(cfg: Settings, tr: Trace, i: nat)
    requires Rising(cfg, tr) && i < |tr.inputs| && RecordedBehind(tr.states[i])
    ensures RecordedBehind(tr.states[i + 1])
  {
    assert StepAt(cfg, tr, i);
    StepKeepsBehind(cfg, tr.states[i], tr.inputs[i]);
  }

  /** So the recorded vector is behind throughout a run that starts that way. */
  lemma {:induction false} RunKeepsBehind(cfg: Settings, tr: Trace, i: nat)
    requires Rising(cfg, tr) && RecordedBehind(tr.states[0]) && i <= |tr.inputs|
    ensures RecordedBehind(tr.states[i])
    decreases i
  {
    if i > 0 {
      RunKeepsBehind(cfg, tr, i - 1);
      BehindAfter(cfg, tr, i - 1);
    }
  }
}
