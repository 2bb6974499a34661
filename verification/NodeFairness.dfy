/** Fairness of a node: what taking turns and ageing give over the Sync Interests it sends in a run,
    whatever it hears and publishes meanwhile. */
module NodeFairness {
  import opened Nodes
  import opened Numbers
  import opened VersionVectors
  import opened Settings
  import opened Scheduler
  import opened Core
  import opened CoreFacts
  import opened Runs
  import opened NodeRuns
  import opened BuildLaws
  import opened RoundRobinFairness
  import opened CursorFairness
  import opened ScoreFairness

  /** All builds of a stretch of a run. */
  ghost function AllRounds(cfg: Settings, tr: Trace): seq<Round>
    requires Shaped(tr)
  {
    Rounds(cfg, tr, |tr.inputs|)
  }

  /** Some Sync Interest of the stretch carries this entry. */
  ghost predicate Travels(tr: Trace, x: NodeID) {
    exists i :: 0 <= i < |tr.outputs| && tr.outputs[i].sent.Some? && x in tr.outputs[i].sent.value.entries
  }

  lemma TravelsIffSent(cfg: Settings, tr: Trace, x: NodeID)
    requires Shaped(tr)
    ensures Travels(tr, x) <==> SentSome(AllRounds(cfg, tr), x)
  {
    var rs := AllRounds(cfg, tr);
    if Travels(tr, x) {
      var i: nat :| i < |tr.outputs| && tr.outputs[i].sent.Some? && x in tr.outputs[i].sent.value.entries;
      var m := SendingNumber(tr, |tr.inputs|, i);
      RoundIs(cfg, tr, |tr.inputs|, m);
      assert x in rs[m].sent.entries.Keys;
    }
    if SentSome(rs, x) {
      var m: nat :| m < |rs| && x in rs[m].sent.entries.Keys;
      RoundIs(cfg, tr, |tr.inputs|, m);
    }
  }

  // ---- Taking turns ----

  /** Whatever is sent at this step is k entries out of these keys. */
  ghost predicate ChoosesIn(cfg: Settings, keys: set<NodeID>, k: nat, tr: Trace, i: nat)
    requires Shaped(tr)
  {
    i < |tr.inputs| && tr.outputs[i].sent.Some? ==> Chooses(cfg, keys, k, RoundNo(cfg, tr, i))
  }

  /** A stretch over which neither the entries of the vector nor the number of slots change when
      something is sent. */
  ghost predicate SteadyNode(cfg: Settings, keys: set<NodeID>, k: nat, tr: Trace) {
    Orderly(cfg, tr) && forall i: nat :: ChoosesIn(cfg, keys, k, tr, i)
  }

  lemma NodeIsSteady(cfg: Settings, keys: set<NodeID>, k: nat, tr: Trace)
    requires SteadyNode(cfg, keys, k, tr)
    ensures Steady(cfg, keys, k, AllRounds(cfg, tr))
  {
    var rs := AllRounds(cfg, tr);
    RoundsAreConsecutive(cfg, tr, |tr.inputs|);
    forall m: nat ensures ChoosesAt(cfg, keys, k, rs, m) {
      if m < |rs| {
        RoundIs(cfg, tr, |tr.inputs|, m);
        assert ChoosesIn(cfg, keys, k, tr, Sendings(tr, |tr.inputs|)[m]);
      }
    }
  }

  /** RoundRobin without an own entry: everything travels in ceil(n / k) Sync Interests. */
  lemma NodeFreeCoverage(cfg: Settings, keys: set<NodeID>, k: nat, tr: Trace)
    requires SteadyNode(cfg, keys, k, tr) && cfg.strategy.RoundRobin? && Pinned(cfg, keys) == {}
    requires 0 < k && |Sendings(tr, |tr.inputs|)| >= CeilDiv(|keys|, k)
    ensures forall x | x in keys :: Travels(tr, x)
  {
    NodeIsSteady(cfg, keys, k, tr);
    forall x | x in keys ensures Travels(tr, x) {
      var i := FreeCoverage(cfg, keys, k, AllRounds(cfg, tr), x);
      TravelsIffSent(cfg, tr, x);
    }
  }

  /** RoundRobin with the own entry in the vector: everything travels in two tours of Sync Interests if
      and only if the number of slots does not divide the number of entries. */
  lemma NodeCoverageExactly(cfg: Settings, keys: set<NodeID>, k: nat, tr: Trace)
    requires SteadyNode(cfg, keys, k, tr) && cfg.strategy.RoundRobin? && Pinned(cfg, keys) != {}
    requires 0 < k && Sendings(tr, |tr.inputs|) != [] && |Sendings(tr, |tr.inputs|)| >= 2 * CeilDiv(|keys|, k)
    ensures (forall x | x in keys :: Travels(tr, x)) <==> |keys| % k != 0
  {
    NodeIsSteady(cfg, keys, k, tr);
    PinnedCoverageExactly(cfg, keys, k, AllRounds(cfg, tr));
    forall x ensures Travels(tr, x) <==> SentSome(AllRounds(cfg, tr), x) { TravelsIffSent(cfg, tr, x); }
  }

  /** The strategies that serve the cursor: everything travels in n Sync Interests if the number of
      slots and the number of entries have no common divisor larger than the number of places served
      from the cursor on. */
  lemma NodeCursorCoverage(cfg: Settings, keys: set<NodeID>, k: nat, places: nat, tr: Trace)
    requires SteadyNode(cfg, keys, k, tr) && ServesPlaces(cfg, k, places) && Gcd(k, |keys|) <= places
    requires Sendings(tr, |tr.inputs|) != [] && |Sendings(tr, |tr.inputs|)| >= |keys|
    ensures forall x | x in keys :: Travels(tr, x)
  {
    NodeIsSteady(cfg, keys, k, tr);
    forall x | x in keys ensures Travels(tr, x) {
      var i := CursorCoverage(cfg, keys, k, AllRounds(cfg, tr), places, x);
      TravelsIffSent(cfg, tr, x);
    }
  }

  // ---- Bursts ----

  lemma NeverHot(cfg: Settings, tr: Trace, m: nat)
    requires Shaped(tr) && m < |AllRounds(cfg, tr)|
    ensures AllRounds(cfg, tr)[m].load.hotspot == 0.0
  {
    RoundIs(cfg, tr, |tr.inputs|, m);
  }

  /** A node under AdaptiveRecentScore scores in every Sync Interest of such a stretch or in none. */
  lemma NodeAlwaysOrNever(cfg: Settings, keys: set<NodeID>, k: nat, tr: Trace, m: nat)
    requires SteadyNode(cfg, keys, k, tr) && cfg.strategy.AdaptiveRecentScore? && 0 < k <= |keys|
    requires m < |AllRounds(cfg, tr)| && AllRounds(cfg, tr)[0].before.burst == 0
    ensures AllRounds(cfg, tr)[m].vv.entries != map[]
    ensures var strategy := StrategyOf(cfg, k, AllRounds(cfg, tr)[m]);
            if Pressing(cfg, Load(0.0, 0.0), |keys|, k) then strategy.Score? else strategy.Recent?
  {
    NodeIsSteady(cfg, keys, k, tr);
    forall j | 0 <= j < |AllRounds(cfg, tr)| ensures AllRounds(cfg, tr)[j].load.hotspot == 0.0 { NeverHot(cfg, tr, j); }
    AlwaysOrNever(cfg, keys, k, AllRounds(cfg, tr), m);
  }

  // ---- Ageing ----

  /** What follows step a of a run. */
  function From(tr: Trace, a: nat): Trace
    requires a < |tr.states| && a <= |tr.inputs| && a <= |tr.outputs|
  {
    Trace(tr.states[a..], tr.inputs[a..], tr.outputs[a..])
  }

  lemma FromIsOrderly(cfg: Settings, tr: Trace, a: nat)
    requires Orderly(cfg, tr) && a <= |tr.inputs|
    ensures Orderly(cfg, From(tr, a))
  {
    var after := From(tr, a);
    RunKeepsBehind(cfg, tr, a);
    forall i: nat ensures StepAt(cfg, after, i) && ShuffleAt(after, i) {
      assert StepAt(cfg, tr, a + i) && ShuffleAt(tr, a + i);
    }
    forall i | 0 <= i < |after.inputs| ensures Raises(cfg, after.states[i], after.inputs[i]) {
      assert Raises(cfg, tr.states[a + i], tr.inputs[a + i]);
    }
  }

  /** No entry has missed a build, and only entries of the vector are counted. */
  ghost predicate Idling(s: NodeState) {
    NobodyWaits(s.sched.missed) && s.sched.missed.Keys <= KeysOf(s.vv)
  }

  /** Until step a, every Sync Interest carries the whole vector. */
  ghost predicate WholeUntil(tr: Trace, a: nat)
    requires Shaped(tr)
  {
    forall i | 0 <= i < a && i < |tr.inputs| && tr.outputs[i].sent.Some? :: tr.outputs[i].sent.value == tr.states[i].vv
  }

  lemma WholeLeavesNobody(vv: VersionVector, missed: map<NodeID, nat>)
    ensures NobodyWaits(MissedAfter(vv, missed, vv)) && MissedAfter(vv, missed, vv).Keys == KeysOf(vv)
  {
  }

  lemma WholeBuild(cfg: Settings, r: Round, after: Sched)
    requires Performs(cfg, r, after) && r.sent == r.vv
    ensures after.missed == MissedAfter(r.vv, r.before.missed, r.vv)
  {
  }

  lemma IdlingStep(cfg: Settings, tr: Trace, i: nat)
    requires Orderly(cfg, tr) && i < |tr.inputs| && Idling(tr.states[i])
    requires tr.outputs[i].sent.Some? ==> tr.outputs[i].sent.value == tr.states[i].vv
    ensures Idling(tr.states[i + 1])
  {
    RunExtends(cfg, tr, i, i + 1);
    if tr.outputs[i].sent.None? {
      QuietAt(cfg, tr, i);
    } else {
      MissedAt(cfg, tr, i);
      WholeLeavesNobody(tr.states[i].vv, tr.states[i].sched.missed);
    }
  }

  lemma MissedAt(cfg: Settings, tr: Trace, i: nat)
    requires Orderly(cfg, tr) && i < |tr.inputs|
    requires tr.outputs[i].sent.Some? && tr.outputs[i].sent.value == tr.states[i].vv
    ensures tr.states[i + 1].sched.missed == MissedAfter(tr.states[i].vv, tr.states[i].sched.missed, tr.states[i].vv)
  {
    RunKeepsBehind(cfg, tr, i);
    assert StepAt(cfg, tr, i) && ShuffleAt(tr, i);
    StepBuilds(cfg, tr.states[i], tr.inputs[i]);
    WholeBuild(cfg, RoundNo(cfg, tr, i), tr.states[i + 1].sched);
  }

  lemma {:induction false} IdlesUntil(cfg: Settings, tr: Trace, a: nat)
    requires Orderly(cfg, tr) && Idling(tr.states[0]) && a <= |tr.inputs| && WholeUntil(tr, a)
    ensures Idling(tr.states[a])
    decreases a
  {
    if a > 0 {
      IdlesUntil(cfg, tr, a - 1);
      IdlingStep(cfg, tr, a - 1);
    }
  }

  lemma NodeKeysGrow(cfg: Settings, tr: Trace, i: nat)
    requires Orderly(cfg, tr)
    ensures KeysGrowAt(AllRounds(cfg, tr), i)
  {
    if i + 1 < |AllRounds(cfg, tr)| { RoundsGrow(cfg, tr, |tr.inputs|, i, i + 1); }
  }

  lemma IdleNodeGrows(cfg: Settings, tr: Trace, k: nat)
    requires Orderly(cfg, tr) && FairOnly(cfg) && Idling(tr.states[0]) && k > 0
    requires AllRounds(cfg, tr) != [] && AllRounds(cfg, tr)[0].limit >= k + 1
    ensures GrowingRun(cfg, AllRounds(cfg, tr), k)
  {
    var rs := AllRounds(cfg, tr);
    RoundsAreConsecutive(cfg, tr, |tr.inputs|);
    RoundsWithin(cfg, tr, |tr.inputs|, 0);
    forall i: nat ensures KeysGrowAt(rs, i) { NodeKeysGrow(cfg, tr, i); }
    IdleRunGrows(cfg, rs, k);
  }

  /** Score with compensation only, from the construction of a node on: as soon as the vector no
      longer fits, and k slots are left besides the own one, every entry x known at the i-th of the
      Sync Interests that follow is carried by one of any ceil(m / k) from there on, m being the
      number of entries to serve by then. The vector may grow all the while. */
  lemma NodeScoreCoverage(cfg: Settings, tr: Trace, a: nat, k: nat, i: nat, j: nat, x: NodeID) returns (l: nat)
    requires IsRun(cfg, tr) && Orderly(cfg, tr) && FairOnly(cfg) && k > 0
    requires a <= |tr.inputs| && WholeUntil(tr, a)
    requires var rs := AllRounds(cfg, From(tr, a));
             && i <= j < |rs| && rs[0].limit >= k + 1
             && x in Others(cfg, KeysOf(rs[i].vv))
             && j - i + 1 >= CeilDiv(|Others(cfg, KeysOf(rs[j].vv))|, k)
    ensures i <= l <= j && x in AllRounds(cfg, From(tr, a))[l].sent.entries
  {
    IdlesUntil(cfg, tr, a);
    FromIsOrderly(cfg, tr, a);
    IdleNodeGrows(cfg, From(tr, a), k);
    l := ScoreCoverage(cfg, AllRounds(cfg, From(tr, a)), k, i, j, x);
  }
}
