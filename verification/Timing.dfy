/** core.cpp, updateSyncInterval, refreshNetworkAwareTimerState, recordPropagationFeedbackSend and
    observePropagationFeedback: how a node paces its periodic Sync Interests, and how it estimates
    the propagation delay from the echoes of its own sequence numbers. */
module Timing {
  import opened Numbers
  import opened Settings

  datatype SyncSignal = LocalUpdate | RemoteUpdate | RepairNeeded | Idle

  const MAX_PERIOD_MS: int := 30000
  const ADJUST_GAP_US: int := 220000
  const MAX_PENDING: nat := 32

  /** m_hotspotScore, which nothing ever changes. */
  const HOTSPOT_SCORE: real := 0.0

  /** Periods and the suppression time in milliseconds, the time of the last adjustment in
      microseconds of the steady clock (zero: never), the delay estimates in milliseconds. */
  datatype Timer = Timer(
    period: int,
    minPeriod: int,
    maxSuppression: int,
    activity: real,
    lastAdjust: int,
    delay: real,
    jitter: real,
    samples: nat)

  // ---- The floor of the period that the network suggests ----

  function SuppressionFor(cfg: Settings, delay: real, jitter: real): int {
    ClampInt(Round(delay + 1.4 * jitter + 60.0 * cfg.lossRate), 40, 1200)
  }

  function MinPeriodFor(cfg: Settings, delay: real, jitter: real): int {
    ClampInt(Round(2.2 * delay + 1.8 * jitter + 160.0 + 120.0 * cfg.lossRate), cfg.networkAwareMinMs, 5000)
  }

  function InBounds(period: int, minPeriod: int): int {
    var p := if period < minPeriod then minPeriod else period;
    if p > MAX_PERIOD_MS then MAX_PERIOD_MS else p
  }

  /** refreshNetworkAwareTimerState, which is always asked to clamp the current period. */
  function Refresh(cfg: Settings, t: Timer): Timer {
    if !cfg.timerMode.NetworkAware? then t
    else
      var delay, jitter := MaxReal(40.0, t.delay), MaxReal(15.0, t.jitter);
      var minPeriod := MinPeriodFor(cfg, delay, jitter);
      t.(maxSuppression := SuppressionFor(cfg, delay, jitter),
         minPeriod := minPeriod,
         period := InBounds(t.period, minPeriod))
  }

  function InitialDelay(cfg: Settings): real {
    ClampReal(cfg.diameterMs * (1.3 + 1.4 * cfg.lossRate) + cfg.diameterHops as real * 12.0 + 60.0, 40.0, 1800.0)
  }

  /** The timer as configured; only the network-aware mode starts with estimates. */
  function ConfiguredTimer(cfg: Settings): Timer {
    if cfg.timerMode.NetworkAware?
    then Timer(cfg.fixedIntervalMs, 1000, 500, 0.0, 0,
               InitialDelay(cfg), MaxReal(20.0, InitialDelay(cfg) * (0.18 + 0.25 * cfg.lossRate)), 0)
    else Timer(cfg.fixedIntervalMs, 1000, 500, 0.0, 0, 0.0, 0.0, 0)
  }

  /** The timer as the constructor leaves it. */
  function InitialTimer(cfg: Settings): Timer {
    var t := Refresh(cfg, ConfiguredTimer(cfg));
    t.(period := InBounds(t.period, t.minPeriod))
  }

  // ---- updateSyncInterval ----

  function FloorFor(cfg: Settings, minPeriod: int, n: nat): int {
    if cfg.strategy.Full? then Max(minPeriod, 1400 + n * 18)
    else if n > 0 then Max(minPeriod, 650 + Min(n, 64) * 9)
    else minPeriod
  }

  predicate RateLimited(t: Timer, now: int) {
    t.lastAdjust != 0 && now - t.lastAdjust < ADJUST_GAP_US
  }

  function Activity(activity: real, signal: SyncSignal): real {
    match signal
    case LocalUpdate => MinReal(1.0, activity * 0.85 + 0.18)
    case RepairNeeded => MinReal(1.0, activity * 0.75 + 0.30)
    case RemoteUpdate => MinReal(1.0, activity * 0.80 + 0.08)
    case Idle => activity * 0.65
  }

  /** Truncating division, as the program's `/` on signed numbers. */
  function Quot(a: int, b: nat): int
    requires b > 0
  {
    if a >= 0 then a / b else -(-a / b)
  }

  function AdaptiveStep(current: int, floor: int, signal: SyncSignal): int {
    match signal
    case LocalUpdate => Max(floor, current - Max(200, Quot(current, 8)))
    case RepairNeeded => Max(floor, current - Max(350, Quot(current, 4)))
    case RemoteUpdate => Min(MAX_PERIOD_MS, current + Max(100, Quot(current, 16)))
    case Idle => Min(MAX_PERIOD_MS, current + Max(400, Quot(current, 5)))
  }

  function AdaptivePeriod(t: Timer, floor: int, signal: SyncSignal): int {
    var weighted := floor + Round(Activity(t.activity, signal) * 250.0);
    Min(MAX_PERIOD_MS, Max(t.minPeriod, Max(weighted, AdaptiveStep(t.period, floor, signal))))
  }

  function FeedbackTarget(cfg: Settings, t: Timer, floor: int): int {
    ClampInt(Round(3.0 * MaxReal(40.0, t.delay) + 2.2 * MaxReal(15.0, t.jitter) + 320.0 + 220.0 * cfg.lossRate), floor,
             MAX_PERIOD_MS)
  }

  function Alpha(cfg: Settings, signal: SyncSignal): (a: real)
    ensures 0.04 <= a <= 0.16
  {
    if !cfg.eventAlpha then 0.06
    else
      match signal
      case RepairNeeded => 0.16
      case LocalUpdate => 0.10
      case RemoteUpdate => 0.07
      case Idle => 0.04
  }

  /** A step of length alpha from the current period towards the target. */
  function Approach(current: int, target: int, alpha: real, floor: int): int {
    ClampInt(Round((1.0 - alpha) * current as real + alpha * target as real), floor, MAX_PERIOD_MS)
  }

  /** updateSyncInterval for a vector of n entries. */
  function Adjust(cfg: Settings, t: Timer, n: nat, signal: SyncSignal, now: int): Timer {
    var floor := FloorFor(cfg, t.minPeriod, n);
    if cfg.timerMode.Fixed? then t
    else if RateLimited(t, now) then
      if signal.RepairNeeded? && t.period > floor
      then t.(period := floor + Max(0, Quot(t.period - floor, 2)))
      else t
    else if cfg.timerMode.Adaptive? then
      t.(lastAdjust := now, activity := Activity(t.activity, signal), period := AdaptivePeriod(t, floor, signal))
    else
      t.(lastAdjust := now, period := Approach(t.period, FeedbackTarget(cfg, t, floor), Alpha(cfg, signal), floor))
  }

  // ---- Feedback ----

  /** A sequence number of one's own on its way through the network, and when it was sent. */
  datatype Pending = Pending(seqNo: nat, sentAt: int)

  function LastOf(pending: seq<Pending>, max: nat): seq<Pending> {
    if |pending| > max then pending[|pending| - max..] else pending
  }

  /** recordPropagationFeedbackSend */
  function NoteSend(cfg: Settings, pending: seq<Pending>, seqNo: nat, now: int): seq<Pending> {
    if !cfg.timerMode.NetworkAware? || seqNo == 0 then pending
    else if pending != [] && pending[|pending| - 1].seqNo >= seqNo then pending
    else LastOf(pending + [Pending(seqNo, now)], MAX_PENDING)
  }

  /** How many entries at the front an echo confirms. */
  function Confirmed(pending: seq<Pending>, echoed: nat): (k: nat)
    ensures k <= |pending|
  {
    if pending == [] || pending[0].seqNo > echoed then 0 else 1 + Confirmed(pending[1..], echoed)
  }

  function ObservedDelay(sentAt: int, now: int): real {
    MaxReal(1.0, (now - sentAt) as real / 1000.0)
  }

  function Abs(x: real): real { if x < 0.0 then -x else x }

  /** The estimates after one more observation. */
  function Sample(t: Timer, observed: real): Timer {
    if t.samples == 0 then t.(delay := observed, jitter := MaxReal(15.0, observed * 0.15), samples := 1)
    else
      t.(delay := (1.0 - 0.18) * t.delay + 0.18 * observed,
         jitter := MaxReal(10.0, (1.0 - 0.22) * t.jitter + 0.22 * Abs(observed - MaxReal(1.0, t.delay))),
         samples := t.samples + 1)
  }

  datatype Feedback = Feedback(timer: Timer, pending: seq<Pending>)

  /** observePropagationFeedback */
  function Observe(cfg: Settings, f: Feedback, echoed: nat, now: int): Feedback {
    if !cfg.timerMode.NetworkAware? || echoed == 0 then f
    else
      var k := Confirmed(f.pending, echoed);
      var rest := f.(pending := f.pending[k..]);
      if k == 0 || f.pending[k - 1].sentAt == 0 || now <= f.pending[k - 1].sentAt then rest
      else rest.(timer := Refresh(cfg, Sample(f.timer, ObservedDelay(f.pending[k - 1].sentAt, now))))
  }

  // ---- What a transmission has to wait for ----

  function TimerHotness(activity: real): real {
    ClampReal(0.65 * HOTSPOT_SCORE + 0.35 * activity, 0.0, 1.0)
  }

  /** The least time between two transmissions, in microseconds. */
  function MinGap(cfg: Settings, activity: real): int {
    var gap := cfg.minSendMs * 1000;
    if gap > 0 && cfg.coordinated && TimerHotness(activity) > 0.72 then Max(8000, gap / 2) else gap
  }

  /** How long updateSeqNo waits for further updates before it announces them, in milliseconds. */
  function LocalDelay(cfg: Settings, activity: real): int {
    var delay := Max(1, cfg.localDelayMs);
    if cfg.coordinated && TimerHotness(activity) > 0.72 then Max(1, delay / 2) else delay
  }
}
