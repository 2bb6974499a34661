/** The vectors a node sends in the course of a run, as a series of builds: every Sync Interest is
    one call of buildSyncVector on the vector and the scheduler state of that moment, and nothing
    else touches the scheduler. */
module NodeRuns {
  import opened Nodes
  import opened VersionVectors
  import opened Selection
  import opened Settings
  import opened Scheduler
  import opened Core
  import opened CoreFacts
  import opened Runs

  // ---- The vector grows ----

  /** Neither a number nor an entry is ever lost. */
  ghost predicate Extends(v: VersionVector, w: VersionVector) {
    AtMost(v, w) && forall x | x in v.entries :: x in w.entries
  }

  lemma StepExtends(cfg: Settings, s: NodeState, i: Input)
    requires RecordedBehind(s) && Raises(cfg, s, i)
    ensures Extends(s.vv, Step(cfg, s, i).state.vv)
  {
    StepVector(cfg, s, i);
    match i.event {
      case Received(other, _) => MergedAtMost(s.vv, s.vv, other, i.clock.wall);
      case Updated(seqNo, nid) => RaisingGrows(cfg, s.vv, seqNo, TargetNode(cfg, nid), i.clock.wall);
      case _ =>
    }
  }

  lemma ExtendsTransitive(u: VersionVector, v: VersionVector, w: VersionVector)
    requires Extends(u, v) && Extends(v, w)
    ensures Extends(u, w)
  {
    forall x ensures u.Get(x) <= w.Get(x) { assert u.Get(x) <= v.Get(x) <= w.Get(x); }
  }

  lemma {:induction false} RunExtends(cfg: Settings, tr: Trace, i: nat, j: nat)
    requires Rising(cfg, tr) && RecordedBehind(tr.states[0]) && i <= j <= |tr.inputs|
    ensures Extends(tr.states[i].vv, tr.states[j].vv)
    decreases j
  {
    if i < j {
      RunExtends(cfg, tr, i, j - 1);
      RunKeepsBehind(cfg, tr, j - 1);
      assert StepAt(cfg, tr, j - 1);
      StepExtends(cfg, tr.states[j - 1], tr.inputs[j - 1]);
      ExtendsTransitive(tr.states[i].vv, tr.states[j - 1].vv, tr.states[j].vv);
    }
  }

  // ---- Every sending is a build ----

  /** A timer that fires either leaves the scheduler alone or performs one build. */
  lemma FireBuilds(cfg: Settings, s: NodeState, clock: Clock, draws: Draws)
    requires RecordedBehind(s)
    ensures var r := Fire(cfg, s, clock, draws);
            if r.sent.None? then r.state.sched == s.sched
            else (r.sent.value, r.state.sched) == Build(cfg, s.Load(), s.vv, s.sched, draws.chance)
  {
    if s.recorded.Some? { HiddenMergeIdle(s, clock.wall); }
  }

  /** The build a node performs in a state. */
  function RoundOf(cfg: Settings, s: NodeState, i: Input, sent: VersionVector): Round {
    Round(s.Load(), s.vv, s.sched, i.draws.chance, Limit(cfg, s.Load(), |s.vv.entries|), sent)
  }

  lemma FireBuilt(cfg: Settings, s: NodeState, i: Input, r: Sending)
    requires RecordedBehind(s) && r == Fire(cfg, s, i.clock, i.draws) && r.sent.Some?
    requires ValidOutside(s.vv, i.draws.chance.outside)
    ensures Performs(cfg, RoundOf(cfg, s, i, r.sent.value), r.state.sched)
  {
    FireBuilds(cfg, s, i.clock, i.draws);
    RoundIsBuild(cfg, RoundOf(cfg, s, i, r.sent.value));
  }

  lemma HearSched(cfg: Settings, s: NodeState, other: VersionVector, face: nat, clock: Clock, draws: Draws)
    ensures Hear(cfg, s, other, face, clock, draws).state.sched == s.sched
  {
  }

  lemma UpdateSched(cfg: Settings, s: NodeState, seqNo: SeqNo, nid: NodeID, clock: Clock, draws: Draws)
    ensures Update(cfg, s, seqNo, nid, clock, draws).sched == s.sched
  {
  }

  /** A step that sends nothing leaves the scheduler alone. */
  lemma StepQuiet(cfg: Settings, s: NodeState, i: Input)
    requires RecordedBehind(s) && Step(cfg, s, i).output.sent.None?
    ensures Step(cfg, s, i).state.sched == s.sched
  {
    match i.event {
      case Started => FireBuilds(cfg, s.(initialized := true), i.clock, i.draws);
      case TimedOut => FireBuilds(cfg, s, i.clock, i.draws);
      case Received(other, face) => HearSched(cfg, s, other, face, i.clock, i.draws);
      case Updated(seqNo, nid) => UpdateSched(cfg, s, seqNo, nid, i.clock, i.draws);
    }
  }

  /** A step that sends something performs one build. */
  lemma StepBuilds(cfg: Settings, s: NodeState, i: Input)
    requires RecordedBehind(s) && Step(cfg, s, i).output.sent.Some?
    requires ValidOutside(s.vv, i.draws.chance.outside)
    ensures var r := Step(cfg, s, i); Performs(cfg, RoundOf(cfg, s, i, r.output.sent.value), r.state.sched)
  {
    match i.event {
      case Started => FireBuilt(cfg, s.(initialized := true), i, Fire(cfg, s.(initialized := true), i.clock, i.draws));
      case TimedOut => FireBuilt(cfg, s, i, Fire(cfg, s, i.clock, i.draws));
    }
  }

  // ---- The builds of a run ----

  ghost predicate Shaped(tr: Trace) {
    |tr.states| == |tr.inputs| + 1 && |tr.outputs| == |tr.inputs|
  }

  /** Those of the first n steps that send something. */
  function Sendings(tr: Trace, n: nat): seq<nat>
    requires n <= |tr.outputs|
  {
    if n == 0 then []
    else Sendings(tr, n - 1) + if tr.outputs[n - 1].sent.Some? then [n - 1] else []
  }

  lemma {:induction false} SendingAt(tr: Trace, n: nat, m: nat)
    requires n <= |tr.outputs| && m < |Sendings(tr, n)|
    ensures Sendings(tr, n)[m] < n && tr.outputs[Sendings(tr, n)[m]].sent.Some?
    decreases n
  {
    if m < |Sendings(tr, n - 1)| { SendingAt(tr, n - 1, m); }
  }

  lemma {:induction false} SendingsIncrease(tr: Trace, n: nat, l: nat, m: nat)
    requires n <= |tr.outputs| && l < m < |Sendings(tr, n)|
    ensures Sendings(tr, n)[l] < Sendings(tr, n)[m]
    decreases n
  {
    if m < |Sendings(tr, n - 1)| { SendingsIncrease(tr, n - 1, l, m); } else { SendingAt(tr, n - 1, l); }
  }

  lemma {:induction false} SendingNumber(tr: Trace, n: nat, i: nat) returns (m: nat)
    requires i < n <= |tr.outputs| && tr.outputs[i].sent.Some?
    ensures m < |Sendings(tr, n)| && Sendings(tr, n)[m] == i
    decreases n
  {
    if i < n - 1 { m := SendingNumber(tr, n - 1, i); } else { m := |Sendings(tr, n)| - 1; }
  }

  /** Before the first sending, and between one and the next, nothing is sent. */
  lemma QuietBetween(tr: Trace, n: nat, m: nat, i: nat)
    requires n <= |tr.outputs| && m < |Sendings(tr, n)| && i < n
    requires (m == 0 || Sendings(tr, n)[m - 1] < i) && i < Sendings(tr, n)[m]
    ensures tr.outputs[i].sent.None?
  {
    if tr.outputs[i].sent.Some? {
      var l := SendingNumber(tr, n, i);
      if l < m - 1 { SendingsIncrease(tr, n, l, m - 1); }
      if m < l { SendingsIncrease(tr, n, m, l); }
    }
  }

  function RoundNo(cfg: Settings, tr: Trace, i: nat): Round
    requires i < |tr.inputs| < |tr.states| && |tr.outputs| == |tr.inputs| && tr.outputs[i].sent.Some?
  {
    RoundOf(cfg, tr.states[i], tr.inputs[i], tr.outputs[i].sent.value)
  }

  /** The builds behind the Sync Interests sent in the first n steps. */
  ghost function Rounds(cfg: Settings, tr: Trace, n: nat): (rs: seq<Round>)
    requires Shaped(tr) && n <= |tr.inputs|
    ensures |rs| == |Sendings(tr, n)|
  {
    seq(|Sendings(tr, n)|, m requires 0 <= m < |Sendings(tr, n)| =>
      SendingAt(tr, n, m);
      RoundNo(cfg, tr, Sendings(tr, n)[m]))
  }

  /** The m-th build is that of the m-th sending. */
  lemma RoundIs(cfg: Settings, tr: Trace, n: nat, m: nat)
    requires Shaped(tr) && n <= |tr.inputs| && m < |Rounds(cfg, tr, n)|
    ensures Sendings(tr, n)[m] < n && tr.outputs[Sendings(tr, n)[m]].sent.Some?
    ensures Rounds(cfg, tr, n)[m] == RoundNo(cfg, tr, Sendings(tr, n)[m])
  {
    SendingAt(tr, n, m);
  }

  /** Wherever a vector is sent, the shuffled nodes are the nodes of the vector. */
  ghost predicate ShuffleAt(tr: Trace, i: nat)
    requires Shaped(tr)
  {
    i < |tr.inputs| && tr.outputs[i].sent.Some? ==> ValidOutside(tr.states[i].vv, tr.inputs[i].draws.chance.outside)
  }

  /** A run of a node in which no number is lowered and shuffles do what they should. */
  ghost predicate Orderly(cfg: Settings, tr: Trace) {
    Rising(cfg, tr) && RecordedBehind(tr.states[0]) && forall i: nat :: ShuffleAt(tr, i)
  }

  lemma QuietAt(cfg: Settings, tr: Trace, i: nat)
    requires Orderly(cfg, tr) && i < |tr.inputs| && tr.outputs[i].sent.None?
    ensures tr.states[i + 1].sched == tr.states[i].sched
  {
    RunKeepsBehind(cfg, tr, i);
    assert StepAt(cfg, tr, i);
    StepQuiet(cfg, tr.states[i], tr.inputs[i]);
  }

  lemma BuiltAt(cfg: Settings, tr: Trace, i: nat, rs: seq<Round>, m: nat)
    requires Orderly(cfg, tr) && i < |tr.inputs| && tr.outputs[i].sent.Some?
    requires Placed(rs, m, RoundNo(cfg, tr, i), tr.states[i + 1].sched)
    ensures BuildAt(cfg, rs, m)
  {
    RunKeepsBehind(cfg, tr, i);
    assert StepAt(cfg, tr, i) && ShuffleAt(tr, i);
    StepBuilds(cfg, tr.states[i], tr.inputs[i]);
    PlacedBuilds(cfg, rs, m, RoundNo(cfg, tr, i), tr.states[i + 1].sched);
  }

  lemma {:induction false} SchedStays(cfg: Settings, tr: Trace, i: nat, j: nat)
    requires Orderly(cfg, tr) && i <= j <= |tr.inputs| && forall k | i <= k < j :: tr.outputs[k].sent.None?
    ensures tr.states[j].sched == tr.states[i].sched
    decreases j
  {
    if i < j {
      SchedStays(cfg, tr, i, j - 1);
      QuietAt(cfg, tr, j - 1);
    }
  }

  /** The first build finds the scheduler as the run found it. */
  lemma FirstFinds(cfg: Settings, tr: Trace, n: nat)
    requires Orderly(cfg, tr) && n <= |tr.inputs| && Sendings(tr, n) != []
    ensures Sendings(tr, n)[0] < n && tr.states[Sendings(tr, n)[0]].sched == tr.states[0].sched
  {
    var i := Sendings(tr, n)[0];
    SendingAt(tr, n, 0);
    forall k | 0 <= k < i ensures tr.outputs[k].sent.None? { QuietBetween(tr, n, 0, k); }
    SchedStays(cfg, tr, 0, i);
  }

  /** A later one finds it as the build before it left it. */
  lemma NextFinds(cfg: Settings, tr: Trace, n: nat, m: nat)
    requires Orderly(cfg, tr) && n <= |tr.inputs| && m + 1 < |Sendings(tr, n)|
    ensures Sendings(tr, n)[m] < Sendings(tr, n)[m + 1] < n
    ensures tr.states[Sendings(tr, n)[m + 1]].sched == tr.states[Sendings(tr, n)[m] + 1].sched
  {
    var i, j := Sendings(tr, n)[m], Sendings(tr, n)[m + 1];
    SendingAt(tr, n, m + 1);
    SendingsIncrease(tr, n, m, m + 1);
    forall k | i + 1 <= k < j ensures tr.outputs[k].sent.None? { QuietBetween(tr, n, m + 1, k); }
    SchedStays(cfg, tr, i + 1, j);
  }

  lemma RoundLinks(cfg: Settings, tr: Trace, n: nat, m: nat)
    requires Orderly(cfg, tr) && n <= |tr.inputs| && m + 1 < |Rounds(cfg, tr, n)|
    ensures Sendings(tr, n)[m] < n
    ensures Rounds(cfg, tr, n)[m + 1].before == tr.states[Sendings(tr, n)[m] + 1].sched
  {
    RoundIs(cfg, tr, n, m + 1);
    NextFinds(cfg, tr, n, m);
  }

  lemma RoundFollows(cfg: Settings, tr: Trace, n: nat, m: nat)
    requires Orderly(cfg, tr) && n <= |tr.inputs| && m < |Rounds(cfg, tr, n)|
    ensures BuildAt(cfg, Rounds(cfg, tr, n), m)
  {
    RoundIs(cfg, tr, n, m);
    var i := Sendings(tr, n)[m];
    var rs := Rounds(cfg, tr, n);
    if m + 1 < |rs| { RoundLinks(cfg, tr, n, m); }
    BuiltAt(cfg, tr, i, rs, m);
  }

  /** The vectors a node sends are those of consecutive builds; the first finds the scheduler as the
      run found it. */
  lemma RoundsAreConsecutive(cfg: Settings, tr: Trace, n: nat)
    requires Orderly(cfg, tr) && n <= |tr.inputs|
    ensures Consecutive(cfg, Rounds(cfg, tr, n))
    ensures Rounds(cfg, tr, n) != [] ==> Rounds(cfg, tr, n)[0].before == tr.states[0].sched
  {
    forall m: nat ensures BuildAt(cfg, Rounds(cfg, tr, n), m) {
      if m < |Rounds(cfg, tr, n)| { RoundFollows(cfg, tr, n, m); }
    }
    if Rounds(cfg, tr, n) != [] {
      RoundIs(cfg, tr, n, 0);
      FirstFinds(cfg, tr, n);
    }
  }

  /** The vectors built from grow from build to build. */
  lemma RoundsGrow(cfg: Settings, tr: Trace, n: nat, l: nat, m: nat)
    requires Orderly(cfg, tr) && n <= |tr.inputs| && l <= m < |Rounds(cfg, tr, n)|
    ensures Extends(Rounds(cfg, tr, n)[l].vv, Rounds(cfg, tr, n)[m].vv)
  {
    RoundIs(cfg, tr, n, l);
    RoundIs(cfg, tr, n, m);
    if l < m { SendingsIncrease(tr, n, l, m); }
    RunExtends(cfg, tr, Sendings(tr, n)[l], Sendings(tr, n)[m]);
  }

  lemma RoundsWithin(cfg: Settings, tr: Trace, n: nat, m: nat)
    requires Orderly(cfg, tr) && n <= |tr.inputs| && m < |Rounds(cfg, tr, n)|
    ensures Extends(tr.states[0].vv, Rounds(cfg, tr, n)[m].vv) && Extends(Rounds(cfg, tr, n)[m].vv, tr.states[n].vv)
  {
    RoundIs(cfg, tr, n, m);
    RunExtends(cfg, tr, 0, Sendings(tr, n)[m]);
    RunExtends(cfg, tr, Sendings(tr, n)[m], n);
  }
}
