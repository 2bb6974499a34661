/** Suppression: a node that hears others speak stays silent, and only when they have said it all. */
module Suppression {
  import opened Nodes
  import opened VersionVectors
  import opened Settings
  import opened Merging
  import opened Core
  import opened CoreFacts

  /** The vectors heard since the suppression state was entered. */
  function Episode(tr: Trace, i: nat): seq<Heard>
    requires |tr.states| == |tr.inputs| + 1 && i <= |tr.inputs|
  {
    if i == 0 || tr.states[i].recorded.None? then []
    else
      match tr.inputs[i - 1].event
      case Received(other, _) =>
        (if tr.states[i - 1].recorded.None? then [] else Episode(tr, i - 1)) +
        [Heard(other, tr.inputs[i - 1].clock.wall)]
      case _ => Episode(tr, i - 1)
  }

  /** The recorded vector is the pointwise maximum of a list of vectors. */
  ghost predicate IsMaximum(v: VersionVector, heard: seq<Heard>) {
    forall nid :: v.Get(nid) == MaxHeard(0, heard, nid)
  }

  ghost predicate RecordsEpisode(tr: Trace, i: nat)
    requires |tr.states| == |tr.inputs| + 1 && i <= |tr.inputs|
  {
    tr.states[i].recorded.Some? ==> IsMaximum(tr.states[i].recorded.value, Episode(tr, i))
  }

  /** What a step does to the recorded vector. */
  ghost predicate RecordStep(s: NodeState, i: Input, s': NodeState) {
    match i.event
    case Received(other, _) =>
      if s.recorded.Some? then s'.recorded == Some(Merged(s.recorded.value, other, i.clock.wall))
      else s'.recorded == None || s'.recorded == Some(other)
    case Updated(_, _) => s'.recorded == s.recorded
    case _ => s'.recorded == None || s'.recorded == s.recorded
  }

  lemma StepRecords(cfg: Settings, s: NodeState, i: Input)
    requires RecordedBehind(s)
    ensures RecordStep(s, i, Step(cfg, s, i).state)
  {
    match i.event {
      case Started => FireVector(cfg, s.(initialized := true), i.clock, i.draws);
      case TimedOut => FireVector(cfg, s, i.clock, i.draws);
      case Received(other, face) => HearVector(cfg, s, other, face, i.clock, i.draws);
      case Updated(seqNo, nid) => UpdateVector(cfg, s, seqNo, nid, i.clock, i.draws);
    }
  }

  lemma MaximumGrows(v: VersionVector, heard: seq<Heard>, h: Heard)
    requires IsMaximum(v, heard)
    ensures IsMaximum(Merged(v, h.vector, h.at), heard + [h])
  {
    forall nid ensures Merged(v, h.vector, h.at).Get(nid) == MaxHeard(0, heard + [h], nid) {
      MergedGet(v, h.vector, h.at, nid);
      assert (heard + [h])[..|heard|] == heard;
    }
  }

  lemma MaximumOfOne(h: Heard)
    ensures IsMaximum(h.vector, [h])
  {
    forall nid ensures h.vector.Get(nid) == MaxHeard(0, [h], nid) {
      assert [h][..0] == [];
    }
  }

  lemma StepKeepsRecord(tr: Trace, i: nat)
    requires |tr.states| == |tr.inputs| + 1 && i < |tr.inputs|
    requires RecordStep(tr.states[i], tr.inputs[i], tr.states[i + 1]) && RecordsEpisode(tr, i)
    ensures RecordsEpisode(tr, i + 1)
  {
    if tr.states[i + 1].recorded.Some? && tr.inputs[i].event.Received? {
      var h := Heard(tr.inputs[i].event.other, tr.inputs[i].clock.wall);
      if tr.states[i].recorded.Some? {
        MaximumGrows(tr.states[i].recorded.value, Episode(tr, i), h);
      } else {
        MaximumOfOne(h);
        assert [] + [h] == [h];
      }
    }
  }

  lemma RecordAt(cfg: Settings, tr: Trace, i: nat)
    requires Rising(cfg, tr) && i < |tr.inputs| && RecordedBehind(tr.states[i])
    ensures RecordStep(tr.states[i], tr.inputs[i], tr.states[i + 1])
  {
    assert StepAt(cfg, tr, i);
    StepRecords(cfg, tr.states[i], tr.inputs[i]);
  }

  /** Throughout a run the recorded vector is the pointwise maximum of the vectors of the episode. */
  lemma {:induction false} RecordedIsMaximum(cfg: Settings, tr: Trace, i: nat)
    requires Rising(cfg, tr) && tr.states[0].recorded.None? && i <= |tr.inputs|
    ensures RecordsEpisode(tr, i)
    decreases i
  {
    if i > 0 {
      RecordedIsMaximum(cfg, tr, i - 1);
      RunKeepsBehind(cfg, tr, i - 1);
      RecordAt(cfg, tr, i - 1);
      StepKeepsRecord(tr, i - 1);
    }
  }

  /** An entry the node may speak about: not updated within the suppression time. */
  predicate Settled(s: NodeState, nid: NodeID, now: Time) {
    nid in s.vv.entries && now - s.vv.GetLastUpdate(nid) >= s.Suppression()
  }

  /** The node may speak about an entry of which the vector knows less. */
  ghost predicate HasNews(s: NodeState, other: VersionVector, now: Time) {
    exists nid :: Settled(s, nid, now) && other.Get(nid) < s.vv.Get(nid)
  }

  /** A vector leads to suppression if the node, once it has merged it, may speak about an entry of which
      the vector knows less; and not otherwise. */
  lemma HearingSuppresses(cfg: Settings, s: NodeState, other: VersionVector, face: nat, clock: Clock, draws: Draws)
    requires s.recorded.None?
    ensures var s' := Hear(cfg, s, other, face, clock, draws).state;
            s'.recorded == if HasNews(s', other, clock.wall) then Some(other) else None
  {
    var s' := Hear(cfg, s, other, face, clock, draws).state;
    HearVector(cfg, s, other, face, clock, draws);
    HearingKeepsTime(cfg, s, other, face, clock, draws);
    MyVectorNewIff(s'.vv, other, clock.wall, s'.Suppression());
    NewsIff(s', other, clock.wall);
  }

  lemma NewsIff(s: NodeState, other: VersionVector, now: Time)
    ensures HasNews(s, other, now) <==>
            exists nid :: nid in s.vv.entries && Speaks(s.vv, other, nid, now, s.Suppression())
  {
    if nid :| Settled(s, nid, now) && other.Get(nid) < s.vv.Get(nid) {
      assert Speaks(s.vv, other, nid, now, s.Suppression());
    }
    if nid :| nid in s.vv.entries && Speaks(s.vv, other, nid, now, s.Suppression()) {
      assert Settled(s, nid, now);
    }
  }

  /** The suppression time is the one in force once the echo was taken in. */
  lemma HearingKeepsTime(cfg: Settings, s: NodeState, other: VersionVector, face: nat, clock: Clock, draws: Draws)
    ensures var s' := Hear(cfg, s, other, face, clock, draws).state;
            Absorb(cfg, s, other, clock).1.myVectorNew == MyVectorNew(s'.vv, other, clock.wall, s'.Suppression())
  {
    HearVector(cfg, s, other, face, clock, draws);
  }

  /** A timer that fires in the suppression state and is not deferred sends unless every settled
      entry is recorded with its number or a higher one. */
  lemma FireDecides(cfg: Settings, s: NodeState, clock: Clock, draws: Draws)
    requires RecordedBehind(s) && s.recorded.Some? && s.initialized && !Deferred(cfg, s, clock.steady)
    ensures Fire(cfg, s, clock, draws).sent.None? <==>
            forall nid | Settled(s, nid, clock.wall) :: s.vv.Get(nid) <= s.recorded.value.Get(nid)
  {
    HiddenMergeIdle(s, clock.wall);
    var rec := s.recorded.value;
    MyVectorNewIff(s.vv, rec, clock.wall, s.Suppression());
    if forall nid | Settled(s, nid, clock.wall) :: s.vv.Get(nid) <= rec.Get(nid) {
      forall nid | nid in s.vv.entries ensures !Speaks(s.vv, rec, nid, clock.wall, s.Suppression()) {
        assert Settled(s, nid, clock.wall) ==> s.vv.Get(nid) <= rec.Get(nid);
      }
    }
  }

  /** Carried by some vector of the list with this number or a higher one. */
  ghost predicate Carried(heard: seq<Heard>, nid: NodeID, seqNo: nat) {
    seqNo == 0 || exists i :: 0 <= i < |heard| && heard[i].vector.Get(nid) >= seqNo
  }

  lemma {:induction false} CarriedIffMaximum(heard: seq<Heard>, nid: NodeID, seqNo: nat)
    ensures Carried(heard, nid, seqNo) <==> seqNo <= MaxHeard(0, heard, nid)
    decreases |heard|
  {
    if heard != [] {
      var rest, last := heard[..|heard| - 1], heard[|heard| - 1];
      CarriedIffMaximum(rest, nid, seqNo);
      if seqNo > 0 && Carried(rest, nid, seqNo) {
        var i :| 0 <= i < |rest| && rest[i].vector.Get(nid) >= seqNo;
        assert heard[i] == rest[i];
      }
      if seqNo > 0 && Carried(heard, nid, seqNo) {
        var i :| 0 <= i < |heard| && heard[i].vector.Get(nid) >= seqNo;
        if i < |rest| { assert heard[i] == rest[i]; }
      }
    }
  }

  /** Suppression is sound and complete: an initialized node whose timer fires in the suppression
      state, without being deferred, stays silent exactly when every settled entry was carried by
      some vector heard in the episode, with its number or a higher one. */
  lemma SilentIffAllCarried(cfg: Settings, tr: Trace, i: nat)
    requires Rising(cfg, tr) && tr.states[0].recorded.None? && i < |tr.inputs|
    requires tr.inputs[i].event.TimedOut? && tr.states[i].recorded.Some? && tr.states[i].initialized
    requires !Deferred(cfg, tr.states[i], tr.inputs[i].clock.steady)
    ensures tr.outputs[i].sent.None? <==>
            forall nid | Settled(tr.states[i], nid, tr.inputs[i].clock.wall) ::
              Carried(Episode(tr, i), nid, tr.states[i].vv.Get(nid))
  {
    var s, now := tr.states[i], tr.inputs[i].clock.wall;
    RunKeepsBehind(cfg, tr, i);
    RecordedIsMaximum(cfg, tr, i);
    forall nid ensures Carried(Episode(tr, i), nid, s.vv.Get(nid)) <==> s.vv.Get(nid) <= s.recorded.value.Get(nid) {
      CarriedIffMaximum(Episode(tr, i), nid, s.vv.Get(nid));
    }
    assert StepAt(cfg, tr, i);
    FireDecides(cfg, s, tr.inputs[i].clock, tr.inputs[i].draws);
  }
}
