/** How long the Score strategy can pass an entry over when only the compensation for missed rounds
    counts: all entries are served before any waits longer than it takes to serve them one by one. */
module ScoreFairness {
  import opened Collections
  import opened Nodes
  import opened Numbers
  import opened VersionVectors
  import opened Selection
  import opened Scoring
  import opened ScoringFacts
  import opened Settings
  import opened Scheduler
  import opened Runs

  /** Score ranks by missed rounds alone: no coordination, no weight on activity or recency. */
  predicate FairOnly(cfg: Settings) {
    cfg.strategy.Score? && !cfg.coordinated && cfg.seqWeight <= 0.0 && cfg.recentWeight <= 0.0 && cfg.fairWeight > 0.0
  }

  function KeysOf(vv: VersionVector): set<NodeID> {
    set k | k in vv.entries
  }

  lemma KeysOfIs(vv: VersionVector)
    ensures KeysOf(vv) == vv.entries.Keys && |KeysOf(vv)| == |vv.entries|
  {
    assert KeysOf(vv) == vv.entries.Keys;
  }

  // ---- Whoever missed more rounds goes first ----

  lemma OnlyFairWeighs(seqWeight: real, recentWeight: real, fairWeight: real, p: Parts)
    requires seqWeight <= 0.0 && recentWeight <= 0.0 && fairWeight > 0.0
    ensures Weigh(EffectiveWeights(seqWeight, recentWeight, fairWeight), p) == p.compensation
  {
    ZeroDivided(fairWeight);
    assert EffectiveWeights(seqWeight, recentWeight, fairWeight) == Weights(0.0, 0.0, 1.0);
  }

  lemma DivideStrict(a: real, b: real, d: real)
    requires a < b && d > 0.0
    ensures a / d < b / d
  {
    assert b / d - a / d == (b - a) / d;
  }

  lemma MissedMoreScoresMore(vv: VersionVector, req: Request, tune: Tuning, x: NodeID, y: NodeID)
    requires tune.seqWeight <= 0.0 && tune.recentWeight <= 0.0 && tune.fairWeight > 0.0
    requires x in vv.entries && y in vv.entries && x != req.preferred && y != req.preferred
    requires Missed(tune.missedRounds, x) > Missed(tune.missedRounds, y)
    ensures WeightedScore(vv, req, tune, x) > WeightedScore(vv, req, tune, y)
  {
    OnlyFairWeighs(tune.seqWeight, tune.recentWeight, tune.fairWeight, PartsOf(vv, tune.missedRounds, x));
    OnlyFairWeighs(tune.seqWeight, tune.recentWeight, tune.fairWeight, PartsOf(vv, tune.missedRounds, y));
    CompensationIs(vv, tune.missedRounds, x);
    CompensationIs(vv, tune.missedRounds, y);
    DivideStrict(Missed(tune.missedRounds, y) as real, Missed(tune.missedRounds, x) as real,
                 MaxMissed(vv, tune.missedRounds) as real + COMPENSATION_EPSILON);
  }

  lemma HigherScoreFirst(vv: VersionVector, fig: Figures, sel: set<NodeID>, x: NodeID, y: NodeID)
    requires x in fig.weighted && y in fig.weighted && x !in sel && y !in sel && fig.weighted[x] > fig.weighted[y]
    ensures ScoreOrder(vv, fig, sel).Before(x, y)
  {
  }

  lemma MissedMoreFirst(vv: VersionVector, req: Request, tune: Tuning, env: Outside, x: NodeID, y: NodeID)
    requires 0 < req.maxEntries && req.strategy.Score?
    requires tune.seqWeight <= 0.0 && tune.recentWeight <= 0.0 && tune.fairWeight > 0.0
    requires x in vv.entries && y in vv.entries && x !in Preselected(vv, req) && y !in Preselected(vv, req)
    requires x != req.preferred && y != req.preferred
    requires Missed(tune.missedRounds, x) > Missed(tune.missedRounds, y)
    ensures y in SelectKeys(vv, req, FiguresOf(vv, req, tune), env) ==>
            x in SelectKeys(vv, req, FiguresOf(vv, req, tune), env)
  {
    var fig := FiguresOf(vv, req, tune);
    MissedMoreScoresMore(vv, req, tune, x, y);
    HigherScoreFirst(vv, fig, Preselected(vv, req), x, y);
    ScoreSelectsPrefix(vv, req, fig, env, x, y);
  }

  /** The nodes that have to wait for their turn. */
  function Others(cfg: Settings, keys: set<NodeID>): set<NodeID> {
    keys - {cfg.id}
  }

  lemma FairRequest(cfg: Settings, k: nat, r: Round)
    requires FairOnly(cfg) && r.vv.entries != map[]
    ensures var req := RoundRequest(cfg, k, r);
            req.maxEntries == k && req.strategy.Score? && req.preferred == cfg.id
  {
  }

  lemma FairTuning(cfg: Settings, k: nat, r: Round)
    requires FairOnly(cfg) && r.vv.entries != map[]
    ensures var tune := RoundTuning(cfg, k, r);
            tune.seqWeight <= 0.0 && tune.recentWeight <= 0.0 && tune.fairWeight > 0.0 &&
            tune.missedRounds == Known(r.before.missed, r.vv)
  {
  }

  lemma KnownMissed(missed: map<NodeID, nat>, vv: VersionVector, x: NodeID)
    requires x in vv.entries
    ensures Missed(Known(missed, vv), x) == Missed(missed, x)
  {
  }

  lemma MissedMoreChosen(cfg: Settings, k: nat, r: Round, x: NodeID, y: NodeID)
    requires FairOnly(cfg) && k > 0 && r.vv.entries != map[]
    requires x in Others(cfg, KeysOf(r.vv)) && y in Others(cfg, KeysOf(r.vv))
    requires Missed(r.before.missed, x) > Missed(r.before.missed, y)
    ensures y in RoundKeys(cfg, k, r) ==> x in RoundKeys(cfg, k, r)
  {
    FairRequest(cfg, k, r);
    FairTuning(cfg, k, r);
    KnownMissed(r.before.missed, r.vv, x);
    KnownMissed(r.before.missed, r.vv, y);
    MissedMoreFirst(r.vv, RoundRequest(cfg, k, r), RoundTuning(cfg, k, r), r.chance.outside, x, y);
  }

  lemma PriorityByMissed(cfg: Settings, k: nat, r: Round, x: NodeID, y: NodeID)
    requires FairOnly(cfg) && IsBuild(cfg, r) && Chooses(cfg, r.vv.entries.Keys, k, r)
    requires x in Others(cfg, KeysOf(r.vv)) && y in Others(cfg, KeysOf(r.vv))
    requires Missed(r.before.missed, x) > Missed(r.before.missed, y)
    ensures y in KeysOf(r.sent) ==> x in KeysOf(r.sent)
  {
    BuildChooses(cfg, r.vv.entries.Keys, k, r);
    MissedMoreChosen(cfg, k, r, x, y);
  }

  // ---- How many entries wait how long ----

  /** The builds each entry has missed in a row once the round is over. */
  function Waited(r: Round): map<NodeID, nat> {
    MissedAfter(r.vv, r.before.missed, r.sent)
  }

  lemma NextBefore(cfg: Settings, rs: seq<Round>, i: nat)
    requires Consecutive(cfg, rs) && i + 1 < |rs|
    ensures rs[i + 1].before.missed == Waited(rs[i])
  {
    assert BuildAt(cfg, rs, i);
  }

  /** The entries that have missed j rounds or more. */
  function Late(cfg: Settings, keys: set<NodeID>, missed: map<NodeID, nat>, j: nat): set<NodeID> {
    set x | x in Others(cfg, keys) && Missed(missed, x) >= j
  }

  /** m entries, k slots a round: who may still wait after j rounds. */
  function MayWait(m: nat, k: nat, j: nat): nat {
    if j == 0 then m else Max(0, MayWait(m, k, j - 1) - k)
  }

  lemma {:induction false} MayWaitIs(m: nat, k: nat, j: nat)
    ensures MayWait(m, k, j) == Max(0, m - j * k)
  {
    if j > 0 {
      MayWaitIs(m, k, j - 1);
      assert (j - 1) * k == j * k - k;
    }
  }

  lemma {:induction false} MayWaitMonotone(m: nat, m': nat, k: nat, j: nat)
    requires m <= m'
    ensures MayWait(m, k, j) <= MayWait(m', k, j)
  {
    if j > 0 { MayWaitMonotone(m, m', k, j - 1); }
  }

  predicate Bounded(cfg: Settings, keys: set<NodeID>, missed: map<NodeID, nat>, k: nat, j: nat) {
    |Late(cfg, keys, missed, j)| <= MayWait(|Others(cfg, keys)|, k, j)
  }

  /** The bound on all waiting times at once. */
  ghost predicate FewWait(cfg: Settings, keys: set<NodeID>, missed: map<NodeID, nat>, k: nat) {
    forall j: nat :: Bounded(cfg, keys, missed, k, j)
  }

  /** One round serves the longest waiting. */
  lemma ServedOfLate(late: set<NodeID>, served: set<NodeID>, rank: map<NodeID, nat>, j: nat, others: set<NodeID>)
    requires served <= others && late == set x | x in others && Missed(rank, x) >= j
    requires forall x, y | x in others && y in served && Missed(rank, x) > Missed(rank, y) :: x in served
    ensures |late - served| == Max(0, |late| - |served|)
  {
    if late <= served {
      assert late - served == {};
      PartSize(served, late);
    } else {
      var x :| x in late && x !in served;
      assert served <= late;
      PartSize(late, served);
    }
  }

  lemma SlotsFor(cfg: Settings, sent: set<NodeID>, limit: nat, k: nat)
    requires |sent| == limit && k + (if cfg.id in sent then 1 else 0) <= limit
    ensures |sent - {cfg.id}| >= k
  {
    if cfg.id in sent { PartSize(sent, {cfg.id}); } else { assert sent - {cfg.id} == sent; }
  }

  /** Whoever is late after a build was late before and was not served. */
  lemma LateAfter(cfg: Settings, r: Round, j: nat)
    requires j > 0
    ensures Late(cfg, KeysOf(r.vv), Waited(r), j)
         == Late(cfg, KeysOf(r.vv), r.before.missed, j - 1) - KeysOf(r.sent)
  {
    var keys := KeysOf(r.vv);
    forall x | x in keys
      ensures Missed(Waited(r), x) == if x in r.sent.entries then 0 else Missed(r.before.missed, x) + 1
    {
    }
  }

  lemma SlotsOfCarried(cfg: Settings, vv: VersionVector, limit: nat, sent: VersionVector, k: nat)
    requires Carries(cfg, vv, limit, sent) && k + (if cfg.id in vv.entries then 1 else 0) <= limit
    ensures |KeysOf(sent) - {cfg.id}| >= k && KeysOf(sent) - {cfg.id} <= Others(cfg, KeysOf(vv))
  {
    KeysOfIs(sent);
    SlotsFor(cfg, KeysOf(sent), limit, k);
  }

  lemma SlotsLeft(cfg: Settings, limit: nat, r: Round, k: nat)
    requires IsBuild(cfg, r) && limit == r.limit
    requires k + (if cfg.id in r.vv.entries then 1 else 0) <= limit
    ensures |KeysOf(r.sent) - {cfg.id}| >= k && KeysOf(r.sent) - {cfg.id} <= Others(cfg, KeysOf(r.vv))
  {
    BuildContract(cfg, r);
    SlotsOfCarried(cfg, r.vv, limit, r.sent, k);
  }

  lemma ServesByMissed(cfg: Settings, limit: nat, r: Round, j: nat)
    requires FairOnly(cfg) && IsBuild(cfg, r) && Chooses(cfg, r.vv.entries.Keys, limit, r)
    requires KeysOf(r.sent) - {cfg.id} <= Others(cfg, KeysOf(r.vv))
    ensures var late, served := Late(cfg, KeysOf(r.vv), r.before.missed, j), KeysOf(r.sent) - {cfg.id};
            |late - served| == Max(0, |late| - |served|)
  {
    var keys := KeysOf(r.vv);
    var late, served := Late(cfg, keys, r.before.missed, j), KeysOf(r.sent) - {cfg.id};
    forall x, y | x in Others(cfg, keys) && y in served && Missed(r.before.missed, x) > Missed(r.before.missed, y)
      ensures x in served
    {
      PriorityByMissed(cfg, limit, r, x, y);
    }
    ServedOfLate(late, served, r.before.missed, j, Others(cfg, keys));
  }

  lemma FewerLeft(late: set<NodeID>, sent: set<NodeID>, own: NodeID, k: nat)
    requires own !in late && |sent - {own}| >= k
    requires |late - (sent - {own})| == Max(0, |late| - |sent - {own}|)
    ensures |late - sent| <= Max(0, |late| - k)
  {
    assert late - sent == late - (sent - {own});
  }

  /** Of those who wait, a build serves k, or all if they are fewer. */
  lemma ServesLongestWaiting(cfg: Settings, limit: nat, r: Round, k: nat, j: nat)
    requires FairOnly(cfg) && IsBuild(cfg, r) && Chooses(cfg, r.vv.entries.Keys, limit, r)
    requires k + (if cfg.id in r.vv.entries then 1 else 0) <= limit
    ensures var late := Late(cfg, KeysOf(r.vv), r.before.missed, j);
            |late - KeysOf(r.sent)| <= Max(0, |late| - k)
  {
    SlotsLeft(cfg, limit, r, k);
    ServesByMissed(cfg, limit, r, j);
    FewerLeft(Late(cfg, KeysOf(r.vv), r.before.missed, j), KeysOf(r.sent), cfg.id, k);
  }

  /** Every build leaves at least k slots for entries other than the sender's. */
  predicate LeavesSlots(cfg: Settings, r: Round, k: nat) {
    k + (if cfg.id in r.vv.entries then 1 else 0) <= r.limit
  }

  lemma ServesAt(cfg: Settings, rs: seq<Round>, i: nat, k: nat, j: nat)
    requires FairOnly(cfg) && Consecutive(cfg, rs) && i < |rs|
    requires LeavesSlots(cfg, rs[i], k) && k > 0
    ensures var late := Late(cfg, KeysOf(rs[i].vv), rs[i].before.missed, j);
            |late - KeysOf(rs[i].sent)| <= Max(0, |late| - k)
  {
    assert BuildAt(cfg, rs, i);
    if SendsAll(cfg, rs[i].vv, rs[i].limit) {
      assert Late(cfg, KeysOf(rs[i].vv), rs[i].before.missed, j) - KeysOf(rs[i].sent) == {};
    } else {
      ServesLongestWaiting(cfg, rs[i].limit, rs[i], k, j);
    }
  }

  lemma LateShrinks(cfg: Settings, rs: seq<Round>, i: nat, k: nat, j: nat)
    requires FairOnly(cfg) && Consecutive(cfg, rs) && i < |rs|
    requires LeavesSlots(cfg, rs[i], k) && k > 0 && j > 0
    ensures |Late(cfg, KeysOf(rs[i].vv), Waited(rs[i]), j)| <=
            Max(0, |Late(cfg, KeysOf(rs[i].vv), rs[i].before.missed, j - 1)| - k)
  {
    ServesAt(cfg, rs, i, k, j - 1);
    LateAfter(cfg, rs[i], j);
  }

  lemma BoundShrinks(m: nat, k: nat, j: nat, before: nat, after: nat)
    requires j > 0 && before <= MayWait(m, k, j - 1) && after <= Max(0, before - k)
    ensures after <= MayWait(m, k, j)
  {
  }

  /** A build keeps the bound, as long as k slots are left for the others. */
  lemma BuildKeepsBound(cfg: Settings, rs: seq<Round>, i: nat, k: nat, j: nat)
    requires FairOnly(cfg) && Consecutive(cfg, rs) && i < |rs|
    requires LeavesSlots(cfg, rs[i], k) && k > 0 && j > 0
    requires Bounded(cfg, KeysOf(rs[i].vv), rs[i].before.missed, k, j - 1)
    ensures Bounded(cfg, KeysOf(rs[i].vv), Waited(rs[i]), k, j)
  {
    var keys := KeysOf(rs[i].vv);
    LateShrinks(cfg, rs, i, k, j);
    BoundShrinks(|Others(cfg, keys)|, k, j, |Late(cfg, keys, rs[i].before.missed, j - 1)|,
                 |Late(cfg, keys, Waited(rs[i]), j)|);
  }

  lemma NobodyMissesLess(cfg: Settings, keys: set<NodeID>, missed: map<NodeID, nat>, k: nat)
    ensures Bounded(cfg, keys, missed, k, 0)
  {
    assert Late(cfg, keys, missed, 0) == Others(cfg, keys);
  }

  lemma RoundKeepsBound(cfg: Settings, rs: seq<Round>, i: nat, k: nat)
    requires FairOnly(cfg) && Consecutive(cfg, rs) && i < |rs|
    requires LeavesSlots(cfg, rs[i], k) && k > 0
    requires FewWait(cfg, KeysOf(rs[i].vv), rs[i].before.missed, k)
    ensures FewWait(cfg, KeysOf(rs[i].vv), Waited(rs[i]), k)
  {
    forall j: nat ensures Bounded(cfg, KeysOf(rs[i].vv), Waited(rs[i]), k, j) {
      if j == 0 {
        NobodyMissesLess(cfg, KeysOf(rs[i].vv), Waited(rs[i]), k);
      } else {
        assert Bounded(cfg, KeysOf(rs[i].vv), rs[i].before.missed, k, j - 1);
        BuildKeepsBound(cfg, rs, i, k, j);
      }
    }
  }

  /** So does the arrival of new entries, of which no round has been missed yet. */
  lemma GrowthKeepsBound(cfg: Settings, keys: set<NodeID>, keys': set<NodeID>, missed: map<NodeID, nat>, k: nat)
    requires keys <= keys' && missed.Keys <= keys && FewWait(cfg, keys, missed, k)
    ensures FewWait(cfg, keys', missed, k)
  {
    PartSize(Others(cfg, keys'), Others(cfg, keys));
    forall j: nat ensures Bounded(cfg, keys', missed, k, j) {
      NobodyMissesLess(cfg, keys', missed, k);
      assert Bounded(cfg, keys, missed, k, j);
      if j > 0 {
        assert Late(cfg, keys', missed, j) == Late(cfg, keys, missed, j);
        MayWaitMonotone(|Others(cfg, keys)|, |Others(cfg, keys')|, k, j);
      }
    }
  }

  // ---- Whole runs ----

  /** Builds while the vector grows. */
  ghost predicate GrowingRun(cfg: Settings, rs: seq<Round>, k: nat) {
    && Consecutive(cfg, rs) && rs != [] && k > 0
    && rs[0].before.missed.Keys <= KeysOf(rs[0].vv)
    && FewWait(cfg, KeysOf(rs[0].vv), rs[0].before.missed, k)
    && (forall i: nat :: GrowsAt(cfg, rs, i, k))
  }

  predicate GrowsAt(cfg: Settings, rs: seq<Round>, i: nat, k: nat) {
    && (i < |rs| ==> LeavesSlots(cfg, rs[i], k))
    && (i + 1 < |rs| ==> KeysOf(rs[i].vv) <= KeysOf(rs[i + 1].vv))
  }

  lemma RoundAt(cfg: Settings, rs: seq<Round>, i: nat, k: nat)
    requires FairOnly(cfg) && GrowingRun(cfg, rs, k) && i < |rs|
    requires FewWait(cfg, KeysOf(rs[i].vv), rs[i].before.missed, k)
    ensures FewWait(cfg, KeysOf(rs[i].vv), Waited(rs[i]), k)
  {
    assert GrowsAt(cfg, rs, i, k);
    RoundKeepsBound(cfg, rs, i, k);
  }

  lemma NextRound(cfg: Settings, rs: seq<Round>, i: nat, k: nat)
    requires FairOnly(cfg) && GrowingRun(cfg, rs, k) && i + 1 < |rs|
    requires FewWait(cfg, KeysOf(rs[i].vv), rs[i].before.missed, k)
    ensures FewWait(cfg, KeysOf(rs[i + 1].vv), rs[i + 1].before.missed, k)
  {
    RoundAt(cfg, rs, i, k);
    NextBefore(cfg, rs, i);
    assert GrowsAt(cfg, rs, i, k);
    GrowthKeepsBound(cfg, KeysOf(rs[i].vv), KeysOf(rs[i + 1].vv), Waited(rs[i]), k);
  }

  lemma {:induction false} WaitingBoundBefore(cfg: Settings, rs: seq<Round>, k: nat, i: nat)
    requires FairOnly(cfg) && GrowingRun(cfg, rs, k) && i < |rs|
    ensures FewWait(cfg, KeysOf(rs[i].vv), rs[i].before.missed, k)
    decreases i
  {
    if i > 0 {
      WaitingBoundBefore(cfg, rs, k, i - 1);
      NextRound(cfg, rs, i - 1, k);
    }
  }

  /** In every run, at most m - j * k entries have missed j rounds or more. */
  lemma WaitingBound(cfg: Settings, rs: seq<Round>, k: nat, i: nat, j: nat)
    requires FairOnly(cfg) && GrowingRun(cfg, rs, k) && i < |rs|
    ensures |Late(cfg, KeysOf(rs[i].vv), Waited(rs[i]), j)|
         <= Max(0, |Others(cfg, KeysOf(rs[i].vv))| - j * k)
  {
    WaitingBoundBefore(cfg, rs, k, i);
    RoundAt(cfg, rs, i, k);
    assert Bounded(cfg, KeysOf(rs[i].vv), Waited(rs[i]), k, j);
    MayWaitIs(|Others(cfg, KeysOf(rs[i].vv))|, k, j);
  }

  /** No entry goes unsent for ceil(m / k) builds in a row. */
  lemma NobodyStarves(cfg: Settings, rs: seq<Round>, k: nat, i: nat, x: NodeID)
    requires FairOnly(cfg) && GrowingRun(cfg, rs, k) && i < |rs| && k > 0
    requires x in Others(cfg, KeysOf(rs[i].vv))
    ensures Missed(Waited(rs[i]), x) < CeilDiv(|Others(cfg, KeysOf(rs[i].vv))|, k)
  {
    var m := |Others(cfg, KeysOf(rs[i].vv))|;
    var j := CeilDiv(m, k);
    WaitingBound(cfg, rs, k, i, j);
    assert Late(cfg, KeysOf(rs[i].vv), Waited(rs[i]), j) == {};
    assert x !in Late(cfg, KeysOf(rs[i].vv), Waited(rs[i]), j);
  }

  /** The counters count: an entry not sent by any of the builds from the i-th to the j-th has
      missed at least that many. */
  lemma {:induction false} CountersCount(cfg: Settings, rs: seq<Round>, i: nat, j: nat, x: NodeID)
    requires Consecutive(cfg, rs) && i <= j < |rs|
    requires forall l | i <= l <= j :: x !in rs[l].sent.entries && x in rs[l].vv.entries
    ensures Missed(Waited(rs[j]), x) >= j - i + 1
    decreases j
  {
    if i < j {
      CountersCount(cfg, rs, i, j - 1, x);
      NextBefore(cfg, rs, j - 1);
    }
  }

  /** Every entry is sent at least once in any ceil(m / k) consecutive builds, m being the number of
      entries to serve at their end. */
  lemma ScoreCoverage(cfg: Settings, rs: seq<Round>, k: nat, i: nat, j: nat, x: NodeID) returns (l: nat)
    requires FairOnly(cfg) && GrowingRun(cfg, rs, k) && k > 0 && i <= j < |rs|
    requires j - i + 1 >= CeilDiv(|Others(cfg, KeysOf(rs[j].vv))|, k)
    requires x in Others(cfg, KeysOf(rs[i].vv))
    ensures i <= l <= j && x in rs[l].sent.entries
  {
    KeysGrow(cfg, rs, k, i, j, x);
    if forall l | i <= l <= j :: x !in rs[l].sent.entries {
      CountersCount(cfg, rs, i, j, x);
      NobodyStarves(cfg, rs, k, j, x);
      assert false;
    }
    l :| i <= l <= j && x in rs[l].sent.entries;
  }

  lemma {:induction false} KeysGrow(cfg: Settings, rs: seq<Round>, k: nat, i: nat, j: nat, x: NodeID)
    requires GrowingRun(cfg, rs, k) && i <= j < |rs| && x in rs[i].vv.entries
    ensures forall l | i <= l <= j :: x in rs[l].vv.entries
    decreases j
  {
    if i < j {
      KeysGrow(cfg, rs, k, i, j - 1, x);
      assert GrowsAt(cfg, rs, j - 1, k) && x in KeysOf(rs[j - 1].vv);
    }
  }

  /** The limit only grows with the vector, so the slots of the first build are always there. */
  lemma SlotsRemain(cfg: Settings, first: Round, r: Round, k: nat)
    requires FairOnly(cfg) && KeysOf(first.vv) <= KeysOf(r.vv)
    requires LimitApplies(cfg, first) && LimitApplies(cfg, r) && first.limit >= k + 1
    ensures LeavesSlots(cfg, r, k)
  {
    KeysOfIs(first.vv);
    KeysOfIs(r.vv);
    SubsetSize(KeysOf(first.vv), KeysOf(r.vv));
    LimitMonotone(cfg, first.load, |first.vv.entries|, |r.vv.entries|);
  }

  /** No entry has missed a build. */
  ghost predicate NobodyWaits(missed: map<NodeID, nat>) {
    forall x :: Missed(missed, x) == 0
  }

  lemma NobodyIsLate(cfg: Settings, keys: set<NodeID>, missed: map<NodeID, nat>, k: nat)
    requires NobodyWaits(missed)
    ensures FewWait(cfg, keys, missed, k)
  {
    forall j: nat ensures Bounded(cfg, keys, missed, k, j) {
      if j == 0 {
        NobodyMissesLess(cfg, keys, missed, k);
      } else {
        forall x ensures x !in Late(cfg, keys, missed, j) { assert Missed(missed, x) == 0; }
        assert Late(cfg, keys, missed, j) == {};
      }
    }
  }

  predicate KeysGrowAt(rs: seq<Round>, i: nat) {
    i + 1 < |rs| ==> KeysOf(rs[i].vv) <= KeysOf(rs[i + 1].vv)
  }

  lemma {:induction false} FirstKeysStay(rs: seq<Round>, i: nat)
    requires i < |rs| && forall j: nat :: KeysGrowAt(rs, j)
    ensures KeysOf(rs[0].vv) <= KeysOf(rs[i].vv)
    decreases i
  {
    if i > 0 {
      FirstKeysStay(rs, i - 1);
      assert KeysGrowAt(rs, i - 1);
    }
  }

  /** A node that keeps nobody waiting, and whose next build leaves k slots besides the sender's own,
      is in such a run, however its vector grows. */
  lemma IdleRunGrows(cfg: Settings, rs: seq<Round>, k: nat)
    requires FairOnly(cfg) && Consecutive(cfg, rs) && rs != [] && k > 0
    requires NobodyWaits(rs[0].before.missed) && rs[0].before.missed.Keys <= KeysOf(rs[0].vv)
    requires rs[0].limit >= k + 1 && forall i: nat :: KeysGrowAt(rs, i)
    ensures GrowingRun(cfg, rs, k)
  {
    NobodyIsLate(cfg, KeysOf(rs[0].vv), rs[0].before.missed, k);
    forall i: nat ensures GrowsAt(cfg, rs, i, k) {
      assert KeysGrowAt(rs, i) && BuildAt(cfg, rs, i) && BuildAt(cfg, rs, 0);
      if i < |rs| {
        FirstKeysStay(rs, i);
        SlotsRemain(cfg, rs[0], rs[i], k);
      }
    }
  }
}
