/** How fast a node goes, in figures: what its timer settles at, how far each adjustment moves it, and what
    it makes of the delays it observes. */
module TimerFigures {
  import opened Numbers
  import opened VersionVectors
  import opened Settings
  import opened Merging
  import opened Timing
  import opened TimingFacts
  import opened Core
  import opened CoreFacts
  import opened Suppression
  import opened TimerRuns

  /** The number between these bounds that is nearest; the upper bound prevails. */
  function Bounded(x: real, lo: int, hi: int): real { MinReal(MaxReal(x, lo as real), hi as real) }

  /** A whole number half a unit away or nearer. */
  predicate Near(k: int, x: real) { -0.5 <= k as real - x <= 0.5 }

  lemma RoundedBounded(x: real, lo: int, hi: int)
    ensures Near(ClampInt(Round(x), lo, hi), Bounded(x, lo, hi))
  {
  }

  /** The estimates, no smaller than these. */
  function DelayOf(t: Timer): real { MaxReal(40.0, t.delay) }

  function JitterOf(t: Timer): real { MaxReal(15.0, t.jitter) }

  // ---- What the floor is ----

  /** A vector sent whole takes eighteen milliseconds an entry on top of 1400; others nine on top of 650, up
      to 64 entries. */
  lemma FloorByEntries(cfg: Settings, minPeriod: int, n: nat)
    requires minPeriod <= 659
    ensures FloorFor(cfg, minPeriod, 0) == if cfg.strategy.Full? then 1400 else minPeriod
    ensures FloorFor(cfg, minPeriod, 1) == if cfg.strategy.Full? then 1418 else 659
    ensures n > 0 ==> FloorFor(cfg, minPeriod, n + 1) - FloorFor(cfg, minPeriod, n) ==
                      if cfg.strategy.Full? then 18 else if n < 64 then 9 else 0
  {
  }

  /** The least period configured or suggested by the network is respected, and nothing else counts. */
  lemma FloorIsGreater(cfg: Settings, minPeriod: int, n: nat)
    ensures FloorFor(cfg, minPeriod, n) == Max(minPeriod, FloorFor(cfg, Min(minPeriod, 0), n))
  {
  }

  // ---- What the network-aware timer settles at ----

  /** Three times the delay, and 2.2 times the jitter, and a margin for losses. */
  function Aim(cfg: Settings, t: Timer, floor: int): real {
    Bounded(3.0 * DelayOf(t) + 2.2 * JitterOf(t) + 320.0 + 220.0 * cfg.lossRate, floor, 30000)
  }

  function Away(x: real, y: real): real { if x < y then y - x else x - y }

  lemma TargetNearAim(cfg: Settings, t: Timer, n: nat)
    ensures Near(TargetOf(cfg, t, n), Aim(cfg, t, FloorFor(cfg, t.minPeriod, n)))
  {
    var floor := FloorFor(cfg, t.minPeriod, n);
    RoundedBounded(3.0 * DelayOf(t) + 2.2 * JitterOf(t) + 320.0 + 220.0 * cfg.lossRate, floor, 30000);
  }

  lemma {:induction false} ShrunkAdds(d: real, e: real, r: nat)
    requires 0.0 <= e
    ensures Shrunk(d, r) <= Shrunk(d + e, r) <= Shrunk(d, r) + e
  {
    if r > 0 { ShrunkAdds(d, e, r - 1); }
  }

  lemma NearAway(p: int, target: int, aim: real)
    requires Near(target, aim)
    ensures Distance(p, target) as real - 0.5 <= Away(p as real, aim) <= Distance(p, target) as real + 0.5
  {
  }

  /** Without new feedback, adjustments that are not rate-limited bring the period within 0.96 to their number
      times the first distance, plus 13.5 milliseconds, of what the figures say. */
  lemma SettlesAtAim(cfg: Settings, t: Timer, n: nat, signals: seq<(SyncSignal, int)>, aim: real)
    requires cfg.timerMode.NetworkAware? && NeverLimited(cfg, t, n, signals)
    requires aim == Aim(cfg, t, FloorFor(cfg, t.minPeriod, n))
    ensures Away(Adjusted(cfg, t, n, signals).period as real, aim) <=
            Shrunk(Away(t.period as real, aim), |signals|) + 13.5
  {
    var target := TargetOf(cfg, t, n);
    var last := Adjusted(cfg, t, n, signals).period;
    TargetNearAim(cfg, t, n);
    Converges(cfg, t, n, signals, target);
    assert signals[..|signals|] == signals && signals[..0] == [];
    NearAway(last, target, aim);
    NearAway(t.period, target, aim);
    ShrinksNear(Distance(t.period, target) as real, Away(t.period as real, aim), |signals|);
  }

  lemma ShrinksNear(d: real, d': real, r: nat)
    requires d' - 0.5 <= d <= d' + 0.5
    ensures Shrunk(d, r) <= Shrunk(d', r) + 0.5
  {
    if d >= d' { ShrunkAdds(d', d - d', r); } else { ShrunkAdds(d, d' - d, r); }
  }

  /** The share of the way to its aim that an adjustment covers. */
  predicate Covers(cfg: Settings, signal: SyncSignal, share: real) {
    share == if !cfg.eventAlpha then 0.06 else
             match signal
             case RepairNeeded => 0.16
             case LocalUpdate => 0.10
             case RemoteUpdate => 0.07
             case Idle => 0.04
  }

  lemma SmallShare(share: real, e: real)
    requires 0.0 <= share <= 0.16 && 0.0 <= e <= 0.5
    ensures 0.0 <= share * e <= 0.08
  {
    NonNegative(share, e);
    NonNegative(0.16 - share, e);
  }

  lemma OnTheWay(p: real, target: real, aim: real, share: real, x: real, y: real)
    requires 0.0 <= share <= 0.16 && -0.5 <= target - aim <= 0.5
    requires x == (1.0 - share) * p + share * target && y == p + share * (aim - p)
    ensures -0.08 <= x - y <= 0.08
  {
    assert x - y == share * (target - aim);
    if target >= aim {
      SmallShare(share, target - aim);
    } else {
      SmallShare(share, aim - target);
      assert share * (target - aim) == -(share * (aim - target));
    }
  }

  lemma BoundedNear(k: int, x: real, y: real, lo: int, hi: int)
    requires Near(k, x) && -0.08 <= x - y <= 0.08
    ensures Away(ClampInt(k, lo, hi) as real, Bounded(y, lo, hi)) <= 0.58
  {
  }

  lemma ApproachIs(p: int, target: int, share: real, floor: int, x: real)
    requires x == (1.0 - share) * p as real + share * target as real
    ensures Approach(p, target, share, floor) == ClampInt(Round(x), floor, 30000) && Near(Round(x), x)
  {
  }

  lemma ApproachNear(p: int, target: int, aim: real, share: real, floor: int, y: real)
    requires 0.0 <= share <= 0.16 && Near(target, aim) && y == p as real + share * (aim - p as real)
    ensures Away(Approach(p, target, share, floor) as real, Bounded(y, floor, 30000)) <= 0.58
  {
    var x := (1.0 - share) * p as real + share * target as real;
    OnTheWay(p as real, target as real, aim, share, x, y);
    ApproachIs(p, target, share, floor, x);
    BoundedNear(Round(x), x, y, floor, 30000);
  }

  /** One adjustment of the network-aware timer goes its share of the way, up to rounding. */
  lemma OneAdjustment(cfg: Settings, t: Timer, n: nat, signal: SyncSignal, now: int, share: real, aim: real, y: real)
    requires cfg.timerMode.NetworkAware? && !RateLimited(t, now) && Covers(cfg, signal, share)
    requires aim == Aim(cfg, t, FloorFor(cfg, t.minPeriod, n))
    requires y == t.period as real + share * (aim - t.period as real)
    ensures Away(Adjust(cfg, t, n, signal, now).period as real,
                 Bounded(y, FloorFor(cfg, t.minPeriod, n), 30000)) <= 0.58
  {
    TargetNearAim(cfg, t, n);
    ApproachNear(t.period, TargetOf(cfg, t, n), aim, share, FloorFor(cfg, t.minPeriod, n), y);
  }

  /** Within 220 milliseconds of an adjustment only a repair counts, and takes half of what the period has
      above the floor. */
  lemma LimitedAdjustment(cfg: Settings, t: Timer, n: nat, signal: SyncSignal, now: int)
    requires !cfg.timerMode.Fixed? && t.lastAdjust != 0 && now < t.lastAdjust + 220000
    ensures var floor, t' := FloorFor(cfg, t.minPeriod, n), Adjust(cfg, t, n, signal, now);
            t' == t.(period := if signal.RepairNeeded? && t.period > floor then (floor + t.period) / 2 else t.period)
  {
  }

  // ---- The adaptive timer ----

  /** What the activity tends to with a signal, and how much of the distance is left each time. */
  predicate Tends(signal: SyncSignal, goal: real, keep: real) {
    match signal
    case LocalUpdate => goal == 1.2 && keep == 0.85
    case RepairNeeded => goal == 1.2 && keep == 0.75
    case RemoteUpdate => goal == 0.4 && keep == 0.80
    case Idle => goal == 0.0 && keep == 0.65
  }

  /** An adaptive adjustment brings the activity closer to its goal, but never beyond one. */
  lemma ActivityTends(cfg: Settings, t: Timer, n: nat, signal: SyncSignal, now: int, goal: real, keep: real)
    requires cfg.timerMode.Adaptive? && !RateLimited(t, now) && InRange(t) && Tends(signal, goal, keep)
    ensures var a := Adjust(cfg, t, n, signal, now).activity;
            a == 1.0 || (a <= 1.0 && goal - a == keep * (goal - t.activity))
  {
  }

  /** News shortens the period by an eighth, a repair by a quarter; remote news lengthens it by a sixteenth,
      quiet by a fifth; each by at least so much. */
  predicate Paces(signal: SyncSignal, shortens: bool, part: nat, least: nat) {
    match signal
    case LocalUpdate => shortens && part == 8 && least == 200
    case RepairNeeded => shortens && part == 4 && least == 350
    case RemoteUpdate => !shortens && part == 16 && least == 100
    case Idle => !shortens && part == 5 && least == 400
  }

  /** An adaptive adjustment moves the period by its length, within a floor that rises by up to 250
      milliseconds with the activity and the greatest period. */
  lemma PeriodPaces(cfg: Settings, t: Timer, n: nat, signal: SyncSignal, now: int, shortens: bool, part: nat,
                    least: nat)
    requires cfg.timerMode.Adaptive? && !RateLimited(t, now) && InRange(t)
    requires part > 0 && Paces(signal, shortens, part, least)
    ensures var t' := Adjust(cfg, t, n, signal, now);
            var length := Max(least, t.period / part);
            var floor := FloorFor(cfg, t.minPeriod, n) + Round(250.0 * t'.activity);
            t'.period == Min(30000, Max(floor, if shortens then t.period - length else t.period + length))
  {
    ActivityInRange(t.activity, signal);
    FloorAbove(cfg, t.minPeriod, n);
  }

  // ---- What is estimated, and what follows for suppression and the least period ----

  /** The suppression time and the least period are those the current estimates call for. */
  predicate Fitted(cfg: Settings, t: Timer) {
    cfg.timerMode.NetworkAware? ==>
    && Near(t.maxSuppression, Bounded(DelayOf(t) + 1.4 * JitterOf(t) + 60.0 * cfg.lossRate, 40, 1200))
    && Near(t.minPeriod, Bounded(2.2 * DelayOf(t) + 1.8 * JitterOf(t) + 160.0 + 120.0 * cfg.lossRate,
                                 cfg.networkAwareMinMs, 5000))
  }

  lemma RefreshFits(cfg: Settings, t: Timer)
    ensures Fitted(cfg, Refresh(cfg, t))
  {
    var d, j := DelayOf(t), JitterOf(t);
    RoundedBounded(d + 1.4 * j + 60.0 * cfg.lossRate, 40, 1200);
    RoundedBounded(2.2 * d + 1.8 * j + 160.0 + 120.0 * cfg.lossRate, cfg.networkAwareMinMs, 5000);
  }

  lemma InitiallyFitted(cfg: Settings)
    ensures Fitted(cfg, InitialTimer(cfg))
  {
    RefreshFits(cfg, ConfiguredTimer(cfg));
  }

  lemma AdjustFits(cfg: Settings, t: Timer, n: nat, signal: SyncSignal, now: int)
    requires Fitted(cfg, t)
    ensures Fitted(cfg, Adjust(cfg, t, n, signal, now))
  {
  }

  lemma ObserveFits(cfg: Settings, f: Feedback, echoed: nat, now: int)
    requires Fitted(cfg, f.timer)
    ensures Fitted(cfg, Observe(cfg, f, echoed, now).timer)
  {
    var k := Confirmed(f.pending, echoed);
    if k > 0 { RefreshFits(cfg, Sample(f.timer, ObservedDelay(f.pending[k - 1].sentAt, now))); }
  }

  lemma StepFits(cfg: Settings, s: NodeState, i: Input)
    requires Fitted(cfg, s.feedback.timer)
    ensures Fitted(cfg, Step(cfg, s, i).state.feedback.timer)
  {
    match i.event {
      case Started => FireFeedback(cfg, s.(initialized := true), i.clock, i.draws);
      case TimedOut => FireFeedback(cfg, s, i.clock, i.draws);
      case Received(other, face) =>
        var n, signal := HearFeedback(cfg, s, other, face, i.clock, i.draws);
        ObserveFits(cfg, s.feedback, other.Get(cfg.id), i.clock.steady);
        AdjustFits(cfg, Echoed(cfg, s, other, i.clock).timer, n, signal, i.clock.steady);
      case Updated(seqNo, nid) =>
        var n := UpdateFeedback(cfg, s, seqNo, nid, i.clock, i.draws);
        AdjustFits(cfg, s.feedback.timer, n, LocalUpdate, i.clock.steady);
    }
  }

  lemma FittedAt(cfg: Settings, tr: Trace, i: nat)
    requires IsTrace(cfg, tr) && i < |tr.inputs| && Fitted(cfg, tr.states[i].feedback.timer)
    ensures Fitted(cfg, tr.states[i + 1].feedback.timer)
  {
    assert StepAt(cfg, tr, i);
    StepFits(cfg, tr.states[i], tr.inputs[i]);
  }

  lemma {:induction false} StaysFitted(cfg: Settings, tr: Trace, i: nat)
    requires IsTrace(cfg, tr) && Fitted(cfg, tr.states[0].feedback.timer) && i <= |tr.inputs|
    ensures Fitted(cfg, tr.states[i].feedback.timer)
    decreases i
  {
    if i > 0 {
      StaysFitted(cfg, tr, i - 1);
      FittedAt(cfg, tr, i - 1);
    }
  }

  /** In every reachable state of a network-aware node the suppression time and the least period are those
      that its current estimates of delay and jitter call for. */
  lemma FitsEstimates(cfg: Settings, tr: Trace, i: nat)
    requires IsRun(cfg, tr) && i <= |tr.inputs|
    ensures Fitted(cfg, tr.states[i].feedback.timer)
  {
    InitiallyFitted(cfg);
    StaysFitted(cfg, tr, i);
  }

  lemma DelayFromDiameter(cfg: Settings)
    ensures InitialDelay(cfg) ==
            Bounded(cfg.diameterMs * (1.3 + 1.4 * cfg.lossRate) + cfg.diameterHops as real * 12.0 + 60.0, 40, 1800)
  {
    ClampIsBounded(cfg.diameterMs * (1.3 + 1.4 * cfg.lossRate) + cfg.diameterHops as real * 12.0 + 60.0, 40, 1800);
  }

  /** Before the first observation the delay is taken from the diameter of the network, the jitter from the
      delay. */
  lemma InitialEstimates(cfg: Settings, delay: real)
    requires cfg.timerMode.NetworkAware?
    requires delay == Bounded(cfg.diameterMs * (1.3 + 1.4 * cfg.lossRate) + cfg.diameterHops as real * 12.0 + 60.0,
                              40, 1800)
    ensures InitialTimer(cfg).samples == 0 && InitialTimer(cfg).delay == delay
    ensures InitialTimer(cfg).jitter == MaxReal(20.0, delay * (0.18 + 0.25 * cfg.lossRate))
  {
    DelayFromDiameter(cfg);
    RefreshKeepsEstimates(cfg, ConfiguredTimer(cfg));
  }

  /** The period a node starts with is the one configured, within its least period and thirty seconds. */
  lemma InitialPeriod(cfg: Settings)
    ensures var t := InitialTimer(cfg);
            t.period == if cfg.fixedIntervalMs < t.minPeriod then t.minPeriod else Min(cfg.fixedIntervalMs, 30000)
  {
    InitialInRange(cfg);
  }

  /** When the least period changes the period is kept if it may be. */
  lemma RefreshKeepsPeriod(cfg: Settings, t: Timer)
    requires 0 <= t.period <= 30000
    ensures var r := Refresh(cfg, t);
            cfg.timerMode.NetworkAware? ==> r.period == if t.period < r.minPeriod then r.minPeriod else t.period
  {
  }

  lemma RefreshKeepsEstimates(cfg: Settings, t: Timer)
    ensures var r := Refresh(cfg, t); r.delay == t.delay && r.jitter == t.jitter && r.samples == t.samples
  {
  }

  lemma ClampIsBounded(x: real, lo: int, hi: int)
    requires lo <= hi
    ensures ClampReal(x, lo as real, hi as real) == Bounded(x, lo, hi)
  {
  }

  /** 0.82 to the power of r, times d. */
  function Closer(d: real, r: nat): real { if r == 0 then d else 0.82 * Closer(d, r - 1) }

  lemma SampleTracks(t: Timer, observed: real)
    requires t.samples > 0
    ensures Sample(t, observed).delay - observed == 0.82 * (t.delay - observed)
    ensures Sample(t, observed).samples > 0
  {
  }

  /** While the delay observed stays the same, the estimate comes 18 percent closer to it each time. */
  lemma {:induction false} DelayTracks(t: Timer, observed: seq<real>, o: real)
    requires t.samples > 0 && forall i | 0 <= i < |observed| :: observed[i] == o
    ensures Sampled(t, observed).delay - o == Closer(t.delay - o, |observed|)
    ensures Sampled(t, observed).samples > 0
    decreases |observed|
  {
    if observed != [] {
      var rest := observed[..|observed| - 1];
      DelayTracks(t, rest, o);
      SampleTracks(Sampled(t, rest), o);
    }
  }

  /** The jitter estimate comes 22 percent closer to how far the observation is from the estimate, but does not
      fall below ten milliseconds. */
  lemma JitterTracks(t: Timer, observed: real)
    requires t.samples > 0
    ensures var surprise := Away(observed, MaxReal(1.0, t.delay));
            var j := Sample(t, observed).jitter;
            j == 10.0 || (j >= 10.0 && j - surprise == 0.78 * (t.jitter - surprise))
  {
  }

  /** The first observation is taken as it is, its jitter as 15 percent of it or 15 milliseconds. */
  lemma FirstSample(t: Timer, observed: real)
    requires t.samples == 0
    ensures Sample(t, observed).delay == observed
    ensures Sample(t, observed).jitter >= 15.0 && Sample(t, observed).jitter >= 0.15 * observed
    ensures Sample(t, observed).jitter == 15.0 || Sample(t, observed).jitter == 0.15 * observed
  {
  }

  // ---- What a vector heard does to the timer ----

  /** What a vector signals: a repair if ranges were reported, remote news if the node may speak about more
      than the vector knows, and quiet otherwise. */
  ghost predicate Signals(s': NodeState, other: VersionVector, reported: seq<MissingDataInfo>, now: Time,
                          signal: SyncSignal)
  {
    signal == if reported != [] then RepairNeeded else if HasNews(s', other, now) then RemoteUpdate else Idle
  }

  /** Hearing a vector takes in its echo and adjusts the timer by what the vector signals. */
  lemma HearingAdjusts(cfg: Settings, s: NodeState, other: VersionVector, face: nat, clock: Clock, draws: Draws,
                       signal: SyncSignal)
    requires var r := Hear(cfg, s, other, face, clock, draws);
             Signals(r.state, other, r.reported, clock.wall, signal)
    ensures var f := Observe(cfg, s.feedback, other.Get(cfg.id), clock.steady);
            var s' := Hear(cfg, s, other, face, clock, draws).state;
            s'.feedback == f.(timer := Adjust(cfg, f.timer, |s'.vv.entries|, signal, clock.steady))
  {
    var s' := Hear(cfg, s, other, face, clock, draws).state;
    HearVector(cfg, s, other, face, clock, draws);
    HearingKeepsTime(cfg, s, other, face, clock, draws);
    MyVectorNewIff(s'.vv, other, clock.wall, s'.Suppression());
    NewsIff(s', other, clock.wall);
    SizeIs(s'.vv);
  }
}
