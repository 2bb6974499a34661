/** When the entries of a node's vector were last updated: the stamps that decide what a node may speak
    about, and which entries are recent. */
module Stamps {
  import opened Nodes
  import opened VersionVectors
  import opened Settings
  import opened Merging
  import opened Core
  import opened CoreFacts

  /** The step sets this entry: it hears more of it, or is told its number. */
  predicate Sets(cfg: Settings, s: NodeState, i: Input, nid: NodeID) {
    match i.event
    case Received(other, _) => other.Get(nid) > s.vv.Get(nid)
    case Updated(_, target) => TargetNode(cfg, target) == nid
    case _ => false
  }

  /** A step stamps the entries it sets with the time of the system clock, and no others. */
  lemma StepStamps(cfg: Settings, s: NodeState, i: Input, nid: NodeID)
    requires RecordedBehind(s)
    ensures Step(cfg, s, i).state.vv.GetLastUpdate(nid) ==
            if Sets(cfg, s, i, nid) then i.clock.wall else s.vv.GetLastUpdate(nid)
  {
    StepVector(cfg, s, i);
    if i.event.Received? { MergedStamp(s.vv, i.event.other, i.clock.wall, nid); }
  }

  lemma MergedStamp(vv: VersionVector, other: VersionVector, now: Time, nid: NodeID)
    ensures Merged(vv, other, now).GetLastUpdate(nid) ==
            if other.Get(nid) > vv.Get(nid) then now else vv.GetLastUpdate(nid)
  {
  }

  /** The last of the first n steps that set the entry. */
  function LastSet(cfg: Settings, tr: Trace, n: nat, nid: NodeID): Option<nat>
    requires n <= |tr.inputs| && n <= |tr.states|
  {
    if n == 0 then None
    else if Sets(cfg, tr.states[n - 1], tr.inputs[n - 1], nid) then Some(n - 1)
    else LastSet(cfg, tr, n - 1, nid)
  }

  lemma StampAt(cfg: Settings, tr: Trace, i: nat, nid: NodeID)
    requires Rising(cfg, tr) && i < |tr.inputs| && RecordedBehind(tr.states[i])
    ensures tr.states[i + 1].vv.GetLastUpdate(nid) ==
            if Sets(cfg, tr.states[i], tr.inputs[i], nid) then tr.inputs[i].clock.wall
            else tr.states[i].vv.GetLastUpdate(nid)
  {
    assert StepAt(cfg, tr, i);
    StepStamps(cfg, tr.states[i], tr.inputs[i], nid);
  }

  /** Throughout a run the stamp of an entry is the time of the last step that set it; an entry never set
      keeps the stamp it had. */
  lemma {:induction false} StampsAre(cfg: Settings, tr: Trace, n: nat, nid: NodeID)
    requires Rising(cfg, tr) && RecordedBehind(tr.states[0]) && n <= |tr.inputs|
    ensures var last := LastSet(cfg, tr, n, nid);
            && (last.Some? ==> last.value < n)
            && tr.states[n].vv.GetLastUpdate(nid) ==
               if last.Some? then tr.inputs[last.value].clock.wall else tr.states[0].vv.GetLastUpdate(nid)
    decreases n
  {
    if n > 0 {
      StampsAre(cfg, tr, n - 1, nid);
      RunKeepsBehind(cfg, tr, n - 1);
      StampAt(cfg, tr, n - 1, nid);
    }
  }
}
