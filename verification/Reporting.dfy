/** What the application is told: for every remote producer each number exactly once, in order. */
module Reporting {
  import opened Nodes
  import opened Orders
  import opened VersionVectors
  import opened Settings
  import opened Merging
  import opened Core
  import opened CoreFacts

  datatype Range = Range(low: nat, high: nat)

  /** The ranges of one producer among those reported. */
  function RangesOf(infos: seq<MissingDataInfo>, p: NodeID): seq<Range> {
    if infos == [] then []
    else
      var last := infos[|infos| - 1];
      RangesOf(infos[..|infos| - 1], p) + if last.nodeId == p then [Range(last.low, last.high)] else []
  }

  /** All ranges of one producer reported by the first n steps of a run. */
  function Reported(outputs: seq<Output>, n: nat, p: NodeID): seq<Range>
    requires n <= |outputs|
  {
    if n == 0 then [] else Reported(outputs, n - 1, p) + RangesOf(outputs[n - 1].reported, p)
  }

  /** The ranges are not empty, follow each other without gap or overlap, and cover from+1..to. */
  ghost predicate Tiles(ranges: seq<Range>, from: nat, to: nat) {
    if ranges == [] then from == to
    else
      var last := ranges[|ranges| - 1];
      last.low <= last.high && last.high == to && last.low > 0 && Tiles(ranges[..|ranges| - 1], from, last.low - 1)
  }

  /** The ranges reported are the numbers by which the entry grew. */
  predicate ReportsGrowth(before: nat, after: nat, ranges: seq<Range>) {
    before <= after && ranges == if before < after then [Range(before + 1, after)] else []
  }

  lemma RangesAppend(infos: seq<MissingDataInfo>, info: MissingDataInfo, p: NodeID)
    ensures RangesOf(infos + [info], p) ==
            RangesOf(infos, p) + if info.nodeId == p then [Range(info.low, info.high)] else []
  {
    assert (infos + [info])[..|infos|] == infos;
  }

  /** The range reported of a producer the vector is ahead of. */
  function NewRange(vv: VersionVector, other: VersionVector, p: NodeID): seq<Range> {
    if Later(vv, other, p) then [Range(vv.Get(p) + 1, other.Get(p))] else []
  }

  lemma InfosStep(vv: VersionVector, other: VersionVector, rest: seq<NodeID>, last: NodeID)
    ensures Infos(vv, other, rest + [last]) ==
            Infos(vv, other, rest) + if Later(vv, other, last) then [InfoOf(vv, other, last)] else []
  {
    assert (rest + [last])[..|rest|] == rest;
  }

  lemma RangesStep(vv: VersionVector, other: VersionVector, rest: seq<NodeID>, last: NodeID, p: NodeID)
    ensures RangesOf(Infos(vv, other, rest + [last]), p) ==
            RangesOf(Infos(vv, other, rest), p) + if last == p then NewRange(vv, other, p) else []
  {
    var infos := Infos(vv, other, rest);
    InfosStep(vv, other, rest, last);
    if Later(vv, other, last) {
      RangesAppend(infos, InfoOf(vv, other, last), p);
    } else {
      assert infos + [] == infos;
    }
  }

  lemma {:induction false} RangesOfInfos(vv: VersionVector, other: VersionVector, nodes: seq<NodeID>, p: NodeID)
    requires Distinct(nodes)
    ensures RangesOf(Infos(vv, other, nodes), p) == if p in nodes then NewRange(vv, other, p) else []
  {
    if nodes != [] {
      var rest, last := nodes[..|nodes| - 1], nodes[|nodes| - 1];
      assert nodes == rest + [last] && last !in rest;
      RangesOfInfos(vv, other, rest, p);
      RangesStep(vv, other, rest, last, p);
    }
  }

  lemma {:induction false} RangesOnFace(infos: seq<MissingDataInfo>, face: nat, p: NodeID)
    ensures RangesOf(OnFace(infos, face), p) == RangesOf(infos, p)
  {
    if infos != [] {
      RangesOnFace(infos[..|infos| - 1], face, p);
      assert OnFace(infos, face)[..|infos| - 1] == OnFace(infos[..|infos| - 1], face);
    }
  }

  lemma RangesMissing(vv: VersionVector, other: VersionVector, p: NodeID)
    ensures RangesOf(MissingInfo(vv, other), p) == NewRange(vv, other, p)
  {
    var nodes := OrderedNodes(other);
    ListingFacts(BY_NAME, other.entries.Keys);
    RangesOfInfos(vv, other, nodes, p);
    assert p !in nodes ==> p !in other.entries;
  }

  lemma NewRangeIsGrowth(vv: VersionVector, other: VersionVector, now: Time, p: NodeID)
    ensures ReportsGrowth(vv.Get(p), Merged(vv, other, now).Get(p), NewRange(vv, other, p))
  {
    MergedGet(vv, other, now, p);
  }

  /** What hearing a vector reports of a producer is the growth of its number. */
  lemma HearReports(cfg: Settings, s: NodeState, other: VersionVector, face: nat, clock: Clock, draws: Draws, p: NodeID)
    ensures var r := Hear(cfg, s, other, face, clock, draws);
            ReportsGrowth(s.vv.Get(p), r.state.vv.Get(p), RangesOf(r.reported, p))
  {
    HearVector(cfg, s, other, face, clock, draws);
    RangesOnFace(MissingInfo(s.vv, other), face, p);
    RangesMissing(s.vv, other, p);
    NewRangeIsGrowth(s.vv, other, clock.wall, p);
  }

  /** Every range reported names the face its vector came in on. */
  lemma FacesReported(cfg: Settings, s: NodeState, i: Input, k: nat)
    requires i.event.Received? && k < |Step(cfg, s, i).output.reported|
    ensures Step(cfg, s, i).output.reported[k].incomingFace == i.event.face
  {
  }

  /** A producer whose number the node never sets itself. */
  predicate Remote(cfg: Settings, i: Input, p: NodeID) {
    i.event.Updated? ==> TargetNode(cfg, i.event.nid) != p
  }

  lemma StepReports(cfg: Settings, s: NodeState, i: Input, p: NodeID)
    requires RecordedBehind(s) && Remote(cfg, i, p)
    ensures var r := Step(cfg, s, i);
            ReportsGrowth(s.vv.Get(p), r.state.vv.Get(p), RangesOf(r.output.reported, p))
  {
    match i.event {
      case Received(other, face) => HearReports(cfg, s, other, face, i.clock, i.draws, p);
      case _ => StepVector(cfg, s, i);
    }
  }

  lemma TilesOneMore(ranges: seq<Range>, last: Range, from: nat, before: nat)
    requires Tiles(ranges, from, before) && last.low == before + 1 <= last.high
    ensures Tiles(ranges + [last], from, last.high)
  {
    assert (ranges + [last])[..|ranges|] == ranges;
  }

  lemma TilesAppend(ranges: seq<Range>, more: seq<Range>, from: nat, before: nat, after: nat)
    requires Tiles(ranges, from, before) && ReportsGrowth(before, after, more)
    ensures Tiles(ranges + more, from, after)
  {
    if before < after {
      TilesOneMore(ranges, Range(before + 1, after), from, before);
    } else {
      assert ranges + more == ranges;
    }
  }

  lemma ReportsAt(cfg: Settings, tr: Trace, i: nat, p: NodeID)
    requires Rising(cfg, tr) && i < |tr.inputs| && RecordedBehind(tr.states[i]) && Remote(cfg, tr.inputs[i], p)
    ensures ReportsGrowth(tr.states[i].vv.Get(p), tr.states[i + 1].vv.Get(p), RangesOf(tr.outputs[i].reported, p))
  {
    assert StepAt(cfg, tr, i);
    StepReports(cfg, tr.states[i], tr.inputs[i], p);
  }

  lemma ReportedStep(outputs: seq<Output>, n: nat, p: NodeID, from: nat, before: nat, after: nat)
    requires 0 < n <= |outputs| && Tiles(Reported(outputs, n - 1, p), from, before)
    requires ReportsGrowth(before, after, RangesOf(outputs[n - 1].reported, p))
    ensures Tiles(Reported(outputs, n, p), from, after)
  {
    TilesAppend(Reported(outputs, n - 1, p), RangesOf(outputs[n - 1].reported, p), from, before, after);
  }

  lemma ReportedNext(cfg: Settings, tr: Trace, n: nat, p: NodeID, from: nat)
    requires Rising(cfg, tr) && RecordedBehind(tr.states[0]) && 0 < n <= |tr.inputs|
    requires Remote(cfg, tr.inputs[n - 1], p)
    requires Tiles(Reported(tr.outputs, n - 1, p), from, tr.states[n - 1].vv.Get(p))
    ensures Tiles(Reported(tr.outputs, n, p), from, tr.states[n].vv.Get(p))
  {
    RunKeepsBehind(cfg, tr, n - 1);
    ReportsAt(cfg, tr, n - 1, p);
    ReportedStep(tr.outputs, n, p, from, tr.states[n - 1].vv.Get(p), tr.states[n].vv.Get(p));
  }

  /** Over any run the ranges reported of a remote producer tile the numbers from the one known at
      the start to the one known at the end: each exactly once, in order. */
  lemma {:induction false} ReportedOnce(cfg: Settings, tr: Trace, n: nat, p: NodeID)
    requires Rising(cfg, tr) && RecordedBehind(tr.states[0]) && n <= |tr.inputs|
    requires forall i | 0 <= i < n :: Remote(cfg, tr.inputs[i], p)
    ensures Tiles(Reported(tr.outputs, n, p), tr.states[0].vv.Get(p), tr.states[n].vv.Get(p))
    decreases n
  {
    if n > 0 {
      ReportedOnce(cfg, tr, n - 1, p);
      ReportedNext(cfg, tr, n, p, tr.states[0].vv.Get(p));
    }
  }

  /** From the beginning: exactly 1 up to the number now known. */
  lemma ReportedFromOne(cfg: Settings, tr: Trace, p: NodeID)
    requires IsRun(cfg, tr) && Rising(cfg, tr)
    requires forall i | 0 <= i < |tr.inputs| :: Remote(cfg, tr.inputs[i], p)
    ensures Tiles(Reported(tr.outputs, |tr.outputs|, p), 0, tr.states[|tr.inputs|].vv.Get(p))
  {
    ReportedOnce(cfg, tr, |tr.inputs|, p);
  }

  /** What tiling means for one number: it lies in exactly one of the ranges. */
  lemma {:induction false} TilesOnce(ranges: seq<Range>, from: nat, to: nat, x: nat)
    requires Tiles(ranges, from, to)
    ensures from <= to
    ensures from < x <= to <==> exists i :: 0 <= i < |ranges| && ranges[i].low <= x <= ranges[i].high
    ensures forall i, j | 0 <= i < |ranges| && 0 <= j < |ranges| ::
              ranges[i].low <= x <= ranges[i].high && ranges[j].low <= x <= ranges[j].high ==> i == j
  {
    if ranges != [] {
      var rest, last := ranges[..|ranges| - 1], ranges[|ranges| - 1];
      TilesOnce(rest, from, last.low - 1, x);
      assert forall i | 0 <= i < |rest| :: rest[i] == ranges[i];
      if last.low <= x <= last.high { assert ranges[|rest|].low <= x <= ranges[|rest|].high; }
    }
  }
}
