/** core.hpp: what a node is configured with and never changes. */
module Settings {
  import opened Nodes
  import opened Selection

  datatype TimerMode = Fixed | Adaptive | NetworkAware

  /** The loss rate, a fraction the constructor clamps. */
  type LossRate = r: real | 0.0 <= r <= 0.95 witness 0.0

  type Ratio = r: real | 0.0 <= r <= 1.0 witness 0.0

  datatype Settings = Settings(
    id: NodeID,
    // partial vectors
    strategy: Strategy,
    ratio: real,
    recentEntries: nat,
    maxEntries: nat,
    hotRatio: real,
    minFairEntries: nat,
    seqWeight: real,
    recentWeight: real,
    fairWeight: real,
    preferredBoost: real,
    stickyHoldRatio: real,
    stickyMinHold: nat,
    quotaRatio: real,
    quotaMinEntries: nat,
    adaptiveThreshold: real,
    adaptiveRounds: nat,
    coordinated: bool,
    // environment
    diameterMs: real,
    diameterHops: nat,
    lossRate: LossRate,
    hotNodeRatio: Ratio,
    // timers
    timerMode: TimerMode,
    eventAlpha: bool,
    fixedIntervalMs: nat,
    networkAwareMinMs: nat,
    minSendMs: nat,
    localDelayMs: nat)
}
