/** core.cpp, getStateVectorLimit and buildSyncVector: how many entries the next Sync Interest
    carries, which ones, and what the node remembers of the choice. */
module Scheduler {
  import opened Nodes
  import opened Numbers
  import opened VersionVectors
  import opened Selection
  import opened Scoring
  import opened Settings

  /** The smoothed estimates the selection reads. */
  datatype Load = Load(hotspot: real, activity: real)

  // ---- How many entries ----

  function TopologyPressure(cfg: Settings): real {
    MinReal(1.0, cfg.diameterMs / 250.0)
  }

  function LimitPressure(cfg: Settings, load: Load): real {
    var hotness := ClampReal(0.6 * load.hotspot + 0.4 * cfg.hotNodeRatio, 0.0, 1.0);
    ClampReal(0.55 * cfg.lossRate + 0.25 * TopologyPressure(cfg) + 0.35 * hotness, 0.0, 1.0)
  }

  function Scaled(cfg: Settings, n: nat): nat {
    if cfg.ratio > 0.0 then ScaledBy(n, cfg.ratio) else Max(cfg.recentEntries, CeilTwoSqrt(n))
  }

  function ScaledBy(n: nat, factor: real): nat
    requires factor >= 0.0
  {
    assert n as real * factor >= 0.0;
    Ceil(n as real * factor)
  }

  function FloorEntries(cfg: Settings, n: nat): nat {
    Min(n, Max(cfg.recentEntries + cfg.minFairEntries, Min(cfg.maxEntries, 8)))
  }

  function Coordinated(cfg: Settings, load: Load, n: nat, scaled: nat): nat {
    if cfg.coordinated
    then ScaledBy(Max(scaled, FloorEntries(cfg, n)), 1.0 + 0.22 * LimitPressure(cfg, load))
    else scaled
  }

  /** getStateVectorLimit */
  function Limit(cfg: Settings, load: Load, n: nat): nat {
    if n == 0 then 0
    else if cfg.strategy.Full? then n
    else Min(n, Min(cfg.maxEntries, Coordinated(cfg, load, n, Max(1, Scaled(cfg, n)))))
  }

  // ---- Which entries ----

  /** What a node carries from one Sync Interest to the next. */
  datatype Sched = Sched(cursor: nat, missed: map<NodeID, nat>, lastSelected: seq<NodeID>, burst: nat)

  const FRESH := Sched(0, map[], [], 0)

  function RepairPressure(cfg: Settings, load: Load, n: nat, limit: nat): real
    requires n > 0
  {
    var coverage := 1.0 - MinReal(1.0, limit as real / n as real);
    var stress := 1.0 - ClampReal(load.hotspot, 0.0, 1.0);
    ClampReal(0.55 * coverage + 0.25 * cfg.lossRate + 0.20 * stress, 0.0, 1.0)
  }

  /** The strategy used this time and the rounds of a score burst still to come. */
  function Effective(cfg: Settings, load: Load, n: nat, limit: nat, burst: nat): (r: (Strategy, nat))
    requires n > 0
  {
    if !cfg.strategy.AdaptiveRecentScore? then (cfg.strategy, burst)
    else if burst > 0 then (Score, burst - 1)
    else if RepairPressure(cfg, load, n, limit) >= ClampReal(cfg.adaptiveThreshold, 0.0, 1.0) then
      (Score, if cfg.adaptiveRounds > 0 then cfg.adaptiveRounds - 1 else 0)
    else (Recent, burst)
  }

  predicate UsesHotRatio(strategy: Strategy) { strategy.Hybrid? || strategy.ClusterHybrid? }

  predicate UsesWeights(strategy: Strategy) {
    strategy.Score? || strategy.ClusterScore? || strategy.AgeScore? || strategy.DeficitScore?
  }

  function Hotness(cfg: Settings, load: Load): real {
    ClampReal(0.6 * load.hotspot + 0.25 * load.activity + 0.15 * cfg.hotNodeRatio, 0.0, 1.0)
  }

  function FairEntries(cfg: Settings, load: Load, strategy: Strategy, limit: nat): nat {
    if cfg.coordinated && (UsesHotRatio(strategy) || UsesWeights(strategy)) && Hotness(cfg, load) < 0.35
    then Min(Max(1, cfg.minFairEntries + 1), Max(1, limit / 3))
    else cfg.minFairEntries
  }

  function TuningOf(cfg: Settings, load: Load, strategy: Strategy, missed: map<NodeID, nat>): Tuning {
    var hotness := Hotness(cfg, load);
    if cfg.coordinated && UsesHotRatio(strategy) then
      Tuning(ClampReal(cfg.hotRatio + 0.12 * hotness + 0.08 * cfg.lossRate - 0.03 * TopologyPressure(cfg), 0.55, 0.92),
             cfg.seqWeight, cfg.recentWeight, cfg.fairWeight, cfg.preferredBoost, missed)
    else if cfg.coordinated && UsesWeights(strategy) then
      Tuning(cfg.hotRatio,
             ClampReal(cfg.seqWeight + 0.10 * hotness, 0.10, 0.70),
             ClampReal(cfg.recentWeight + 0.08 * cfg.lossRate + 0.05 * TopologyPressure(cfg), 0.15, 0.75),
             ClampReal(cfg.fairWeight + (if hotness < 0.35 then 0.10 else 0.03), 0.10, 0.50),
             ClampReal(cfg.preferredBoost + 0.15 * hotness, 0.20, 1.20),
             missed)
    else Tuning(cfg.hotRatio, cfg.seqWeight, cfg.recentWeight, cfg.fairWeight, cfg.preferredBoost, missed)
  }

  /** A share of the slots, at least `least` of them, never all. */
  function Share(limit: nat, least: nat, ratio: real): nat
    requires limit > 1
  {
    assert ClampReal(ratio, 0.0, 1.0) >= 0.0;
    Min(limit - 1, Max(Min(least, limit - 1), ScaledBy(limit, ClampReal(ratio, 0.0, 1.0))))
  }

  function RequestOf(cfg: Settings, load: Load, s: Sched, limit: nat, strategy: Strategy, selector: nat): Request {
    var keepsSticky := cfg.strategy.StickyRecent? && s.lastSelected != [] && limit > 1;
    var keepsQuota := (cfg.strategy.RecentNoveltyQuota? || cfg.strategy.RecentRandomQuota?) && limit > 1;
    Request(limit, cfg.recentEntries, selector, cfg.id, strategy,
            FairEntries(cfg, load, strategy, limit),
            if keepsSticky then s.lastSelected else [],
            if keepsSticky then Share(limit, cfg.stickyMinHold, cfg.stickyHoldRatio) else 0,
            if keepsQuota then s.lastSelected else [],
            if keepsQuota then Share(limit, cfg.quotaMinEntries, cfg.quotaRatio) else 0)
  }

  /** Counters of nodes no longer in the vector are dropped. */
  function Known(missed: map<NodeID, nat>, vv: VersionVector): map<NodeID, nat> {
    map k | k in missed && k in vv.entries :: missed[k]
  }

  /** Consecutive builds an entry has missed: none if it has just been sent. */
  function MissedAfter(vv: VersionVector, missed: map<NodeID, nat>, sent: VersionVector): map<NodeID, nat> {
    map k | k in vv.entries :: if k in sent.entries then 0 else Missed(missed, k) + 1
  }

  /** One vector sent: the load it was built under, what chance contributed (a random number and
      the outcome of a shuffle) and how nodes fall into clusters. */
  datatype Chance = Chance(roll: nat, outside: Outside)

  function PartialVector(cfg: Settings, load: Load, vv: VersionVector, s: Sched, chance: Chance,
                         limit: nat): VersionVector
    requires vv.entries != map[]
  {
    var strategy := Effective(cfg, load, |vv.entries|, limit, s.burst).0;
    var selector := if cfg.strategy.Random? then chance.roll else s.cursor;
    Subset(vv, RequestOf(cfg, load, s, limit, strategy, selector),
           TuningOf(cfg, load, strategy, Known(s.missed, vv)), chance.outside)
  }

  predicate SendsAll(cfg: Settings, vv: VersionVector, limit: nat) {
    limit >= |vv.entries| || cfg.strategy.Full?
  }

  /** The vector to send when it may have so many entries. */
  function VectorWithin(cfg: Settings, load: Load, vv: VersionVector, s: Sched, chance: Chance,
                        limit: nat): VersionVector
  {
    if SendsAll(cfg, vv, limit) then vv else PartialVector(cfg, load, vv, s, chance, limit)
  }

  /** What is remembered of having sent it. */
  function Remember(cfg: Settings, load: Load, vv: VersionVector, s: Sched, sent: VersionVector, limit: nat): Sched {
    if SendsAll(cfg, vv, limit) then s.(missed := MissedAfter(vv, s.missed, sent))
    else
      var n := |vv.entries|;
      var effective := Effective(cfg, load, n, limit, s.burst);
      Sched(if effective.0.Random? then s.cursor else (s.cursor + limit) % n,
            MissedAfter(vv, s.missed, sent),
            RecentNodes(sent),
            effective.1)
  }

  /** buildSyncVector: the vector returned and the state kept for the next time. */
  function Build(cfg: Settings, load: Load, vv: VersionVector, s: Sched, chance: Chance): (VersionVector, Sched) {
    var limit := Limit(cfg, load, |vv.entries|);
    var sent := VectorWithin(cfg, load, vv, s, chance, limit);
    (sent, Remember(cfg, load, vv, s, sent, limit))
  }
}
