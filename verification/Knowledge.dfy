/** What a node knows of the others is what it was told: over every run the greatest number heard. */
module Knowledge {
  import opened Nodes
  import opened Numbers
  import opened Settings
  import opened Merging
  import opened Core
  import opened CoreFacts
  import opened Reporting

  /** The vectors received in the first n steps of a run. */
  function HeardBy(tr: Trace, n: nat): seq<Heard>
    requires n <= |tr.inputs|
  {
    if n == 0 then [] else HeardBy(tr, n - 1) + HeardIn(tr.inputs[n - 1])
  }

  function HeardIn(i: Input): seq<Heard> {
    match i.event
    case Received(other, _) => [Heard(other, i.clock.wall)]
    case _ => []
  }

  lemma MaxHeardMore(seqNo: nat, heard: seq<Heard>, h: Heard, p: NodeID)
    ensures MaxHeard(seqNo, heard + [h], p) == Max(MaxHeard(seqNo, heard, p), h.vector.Get(p))
  {
    assert (heard + [h])[..|heard|] == heard;
  }

  /** A step raises what is known of a remote producer to what it hears, if that is more. */
  lemma StepLearns(cfg: Settings, s: NodeState, i: Input, p: NodeID)
    requires RecordedBehind(s) && Remote(cfg, i, p)
    ensures Step(cfg, s, i).state.vv.Get(p) == MaxHeard(s.vv.Get(p), HeardIn(i), p)
  {
    StepVector(cfg, s, i);
    if i.event.Received? {
      MergedGet(s.vv, i.event.other, i.clock.wall, p);
      MaxHeardMore(s.vv.Get(p), [], Heard(i.event.other, i.clock.wall), p);
      assert [] + HeardIn(i) == HeardIn(i);
    }
  }

  lemma HeardMore(seqNo: nat, heard: seq<Heard>, i: Input, p: NodeID)
    ensures MaxHeard(MaxHeard(seqNo, heard, p), HeardIn(i), p) == MaxHeard(seqNo, heard + HeardIn(i), p)
  {
    if i.event.Received? {
      var h := Heard(i.event.other, i.clock.wall);
      MaxHeardMore(seqNo, heard, h, p);
      MaxHeardMore(MaxHeard(seqNo, heard, p), [], h, p);
      assert [] + [h] == [h];
    } else {
      assert heard + [] == heard;
    }
  }

  /** Along every run, what is known of a remote producer is the greatest number heard of it. */
  lemma {:induction false} KnowsMaximum(cfg: Settings, tr: Trace, n: nat, p: NodeID)
    requires Rising(cfg, tr) && RecordedBehind(tr.states[0]) && n <= |tr.inputs|
    requires forall i | 0 <= i < n :: Remote(cfg, tr.inputs[i], p)
    ensures tr.states[n].vv.Get(p) == MaxHeard(tr.states[0].vv.Get(p), HeardBy(tr, n), p)
    decreases n
  {
    if n > 0 {
      KnowsMaximum(cfg, tr, n - 1, p);
      RunKeepsBehind(cfg, tr, n - 1);
      assert StepAt(cfg, tr, n - 1);
      StepLearns(cfg, tr.states[n - 1], tr.inputs[n - 1], p);
      HeardMore(tr.states[0].vv.Get(p), HeardBy(tr, n - 1), tr.inputs[n - 1], p);
    }
  }

  /** Two nodes that from their construction on heard the same vectors, in whatever order and however
      often, and whatever else happened to them, know the same of every producer remote to both. */
  lemma SameHeardSameKnown(cfg: Settings, tr: Trace, cfg': Settings, tr': Trace, p: NodeID)
    requires IsRun(cfg, tr) && Rising(cfg, tr) && IsRun(cfg', tr') && Rising(cfg', tr')
    requires forall i | 0 <= i < |tr.inputs| :: Remote(cfg, tr.inputs[i], p)
    requires forall i | 0 <= i < |tr'.inputs| :: Remote(cfg', tr'.inputs[i], p)
    requires Includes(HeardBy(tr, |tr.inputs|), HeardBy(tr', |tr'.inputs|))
    requires Includes(HeardBy(tr', |tr'.inputs|), HeardBy(tr, |tr.inputs|))
    ensures tr.states[|tr.inputs|].vv.Get(p) == tr'.states[|tr'.inputs|].vv.Get(p)
  {
    KnowsMaximum(cfg, tr, |tr.inputs|, p);
    KnowsMaximum(cfg', tr', |tr'.inputs|, p);
    IncludesMax(0, HeardBy(tr, |tr.inputs|), HeardBy(tr', |tr'.inputs|), p);
    IncludesMax(0, HeardBy(tr', |tr'.inputs|), HeardBy(tr, |tr.inputs|), p);
  }
}
