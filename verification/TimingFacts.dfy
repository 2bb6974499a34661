/** What the pacing of a node keeps to, step by step; TimerRuns.dfy has what follows for its runs. */
module TimingFacts {
  import opened Numbers
  import opened Settings
  import opened Timing

  // ---- Bounds ----

  predicate InRange(t: Timer) {
    0 <= t.minPeriod <= t.period <= MAX_PERIOD_MS && 0.0 <= t.activity <= 1.0
  }

  /** Only the network-aware mode moves the suppression time and the least period, and only so far. */
  predicate NetworkBounds(cfg: Settings, t: Timer) {
    if cfg.timerMode.NetworkAware?
    then 40 <= t.maxSuppression <= 1200 && Min(cfg.networkAwareMinMs, 5000) <= t.minPeriod <= 5000
    else t.maxSuppression == 500 && t.minPeriod == 1000
  }

  lemma RefreshInRange(cfg: Settings, t: Timer)
    requires 0.0 <= t.activity <= 1.0 && cfg.timerMode.NetworkAware?
    ensures InRange(Refresh(cfg, t)) && NetworkBounds(cfg, Refresh(cfg, t))
  {
  }

  lemma InitialInRange(cfg: Settings)
    ensures InRange(InitialTimer(cfg)) && NetworkBounds(cfg, InitialTimer(cfg))
  {
    if cfg.timerMode.NetworkAware? { RefreshInRange(cfg, ConfiguredTimer(cfg)); }
  }

  lemma ActivityInRange(activity: real, signal: SyncSignal)
    requires 0.0 <= activity <= 1.0
    ensures 0.0 <= Activity(activity, signal) <= 1.0
  {
  }

  lemma FloorAbove(cfg: Settings, minPeriod: int, n: nat)
    ensures FloorFor(cfg, minPeriod, n) >= minPeriod
  {
  }

  lemma HalfWayInRange(t: Timer, floor: int)
    requires InRange(t) && t.minPeriod <= floor
    ensures t.period > floor ==> InRange(t.(period := floor + Max(0, Quot(t.period - floor, 2))))
  {
  }

  lemma AdaptiveInRange(t: Timer, floor: int, signal: SyncSignal, now: int)
    requires InRange(t)
    ensures InRange(t.(lastAdjust := now, activity := Activity(t.activity, signal),
                       period := AdaptivePeriod(t, floor, signal)))
  {
    ActivityInRange(t.activity, signal);
  }

  lemma ApproachInRange(t: Timer, floor: int, target: int, alpha: real)
    requires InRange(t) && t.minPeriod <= floor
    ensures t.minPeriod <= Approach(t.period, target, alpha, floor) <= MAX_PERIOD_MS
  {
  }

  /** Whatever the signal, the strategy and the size of the vector. */
  lemma AdjustInRange(cfg: Settings, t: Timer, n: nat, signal: SyncSignal, now: int)
    requires InRange(t)
    ensures InRange(Adjust(cfg, t, n, signal, now))
    ensures NetworkBounds(cfg, t) ==> NetworkBounds(cfg, Adjust(cfg, t, n, signal, now))
  {
    var floor := FloorFor(cfg, t.minPeriod, n);
    FloorAbove(cfg, t.minPeriod, n);
    if !cfg.timerMode.Fixed? {
      if RateLimited(t, now) { HalfWayInRange(t, floor); }
      else if cfg.timerMode.Adaptive? { AdaptiveInRange(t, floor, signal, now); }
      else { ApproachInRange(t, floor, FeedbackTarget(cfg, t, floor), Alpha(cfg, signal)); }
    }
  }

  lemma ObserveInRange(cfg: Settings, f: Feedback, echoed: nat, now: int)
    requires InRange(f.timer)
    ensures InRange(Observe(cfg, f, echoed, now).timer)
    ensures NetworkBounds(cfg, f.timer) ==> NetworkBounds(cfg, Observe(cfg, f, echoed, now).timer)
  {
    var k := Confirmed(f.pending, echoed);
    if cfg.timerMode.NetworkAware? && k > 0 {
      RefreshInRange(cfg, Sample(f.timer, ObservedDelay(f.pending[k - 1].sentAt, now)));
    }
  }

  /** An adjustment respects the floor that the size of the vector sets exactly when the floor does
      not exceed the maximum; in the network-aware mode the clamp is undefined otherwise. */
  lemma FloorRespected(cfg: Settings, t: Timer, n: nat, signal: SyncSignal, now: int)
    requires InRange(t) && !cfg.timerMode.Fixed? && !RateLimited(t, now)
    ensures Adjust(cfg, t, n, signal, now).period >= FloorFor(cfg, t.minPeriod, n) <==>
            FloorFor(cfg, t.minPeriod, n) <= MAX_PERIOD_MS
  {
    ActivityInRange(t.activity, signal);
  }

  /** Only a vector sent whole, of 1589 entries or more, sets a floor beyond the maximum. */
  lemma FloorWithin(cfg: Settings, minPeriod: int, n: nat)
    requires minPeriod <= MAX_PERIOD_MS
    ensures FloorFor(cfg, minPeriod, n) <= MAX_PERIOD_MS <==> !cfg.strategy.Full? || n <= 1588
  {
  }

  /** The adaptive timer moves the right way: news shortens the period, unless the floor that goes
      with the activity is higher, and quiet never does. */
  lemma AdaptiveDirection(cfg: Settings, t: Timer, n: nat, signal: SyncSignal, now: int)
    requires cfg.timerMode.Adaptive? && InRange(t) && !RateLimited(t, now)
    ensures var t' := Adjust(cfg, t, n, signal, now);
            if signal.LocalUpdate? || signal.RepairNeeded?
            then t'.period <= Max(t.period, FloorFor(cfg, t.minPeriod, n) + Round(t'.activity * 250.0))
            else t'.period >= t.period
  {
    ActivityInRange(t.activity, signal);
  }

  // ---- Convergence ----

  function Distance(a: int, b: int): int { if a < b then b - a else a - b }

  lemma ClampNonexpansive(x: int, y: int, lo: int, hi: int)
    ensures Distance(ClampInt(x, lo, hi), ClampInt(y, lo, hi)) <= Distance(x, y)
  {
  }

  lemma ScaledDistance(current: int, target: int, alpha: real, next: int)
    requires 0.04 <= alpha <= 1.0
    requires next as real - ((1.0 - alpha) * current as real + alpha * target as real) <= 0.5
    requires next as real - ((1.0 - alpha) * current as real + alpha * target as real) >= -0.5
    ensures Distance(next, target) as real <= 0.96 * Distance(current, target) as real + 0.5
  {
    var d := (current - target) as real;
    var e := (1.0 - alpha) * d;
    assert (1.0 - alpha) * current as real + alpha * target as real == target as real + e;
    assert e - 0.5 <= (next - target) as real <= e + 0.5;
    if d >= 0.0 {
      ScaleDown(alpha, d);
    } else {
      ScaleDown(alpha, -d);
      assert (1.0 - alpha) * (-d) == -e;
      assert Distance(current, target) as real == -d;
    }
  }

  lemma ScaleDown(alpha: real, d: real)
    requires 0.04 <= alpha <= 1.0 && d >= 0.0
    ensures 0.0 <= (1.0 - alpha) * d <= 0.96 * d
  {
    assert (alpha - 0.04) * d >= 0.0;
  }

  /** One adjustment takes at least four hundredths off the distance, up to rounding. */
  lemma ApproachesTarget(current: int, target: int, alpha: real, floor: int)
    requires 0.04 <= alpha <= 1.0 && ClampInt(target, floor, MAX_PERIOD_MS) == target
    ensures Distance(Approach(current, target, alpha, floor), target) as real <=
            0.96 * Distance(current, target) as real + 0.5
  {
    var next := Round((1.0 - alpha) * current as real + alpha * target as real);
    ClampNonexpansive(next, target, floor, MAX_PERIOD_MS);
    ScaledDistance(current, target, alpha, next);
  }

  /** Adjustments none of which comes too soon after the one before. */
  function Adjusted(cfg: Settings, t: Timer, n: nat, signals: seq<(SyncSignal, int)>): Timer {
    if signals == [] then t
    else Adjust(cfg, Adjusted(cfg, t, n, signals[..|signals| - 1]), n, signals[|signals| - 1].0,
                signals[|signals| - 1].1)
  }

  ghost predicate NeverLimited(cfg: Settings, t: Timer, n: nat, signals: seq<(SyncSignal, int)>) {
    forall i | 0 <= i < |signals| :: !RateLimited(Adjusted(cfg, t, n, signals[..i]), signals[i].1)
  }

  function TargetOf(cfg: Settings, t: Timer, n: nat): int {
    FeedbackTarget(cfg, t, FloorFor(cfg, t.minPeriod, n))
  }

  lemma {:induction false} TargetStays(cfg: Settings, t: Timer, n: nat, signals: seq<(SyncSignal, int)>)
    requires cfg.timerMode.NetworkAware?
    ensures TargetOf(cfg, Adjusted(cfg, t, n, signals), n) == TargetOf(cfg, t, n)
  {
    if signals != [] { TargetStays(cfg, t, n, signals[..|signals| - 1]); }
  }

  lemma AdjustApproaches(cfg: Settings, t: Timer, n: nat, signal: SyncSignal, now: int, target: int)
    requires cfg.timerMode.NetworkAware? && !RateLimited(t, now) && target == TargetOf(cfg, t, n)
    ensures Distance(Adjust(cfg, t, n, signal, now).period, target) as real <=
            0.96 * Distance(t.period, target) as real + 0.5
  {
    ApproachesTarget(t.period, target, Alpha(cfg, signal), FloorFor(cfg, t.minPeriod, n));
  }

  /** What is left of a distance after r adjustments. */
  function Remaining(d: real, r: nat): real {
    if r == 0 then d else 0.96 * Remaining(d, r - 1) + 0.5
  }

  /** 0.96 to the power of r, times d. */
  function Shrunk(d: real, r: nat): real {
    if r == 0 then d else 0.96 * Shrunk(d, r - 1)
  }

  lemma {:induction false} RemainingIs(d: real, r: nat)
    ensures Remaining(d, r) <= Shrunk(d, r) + 12.5
  {
    if r > 0 { RemainingIs(d, r - 1); }
  }

  /** The distance from the target after the first i adjustments. */
  function DistanceAt(cfg: Settings, t: Timer, n: nat, signals: seq<(SyncSignal, int)>, target: int, i: nat): real
    requires i <= |signals|
  {
    Distance(Adjusted(cfg, t, n, signals[..i]).period, target) as real
  }

  lemma DistanceShrinks(cfg: Settings, t: Timer, n: nat, signals: seq<(SyncSignal, int)>, target: int, i: nat)
    requires cfg.timerMode.NetworkAware? && NeverLimited(cfg, t, n, signals) && target == TargetOf(cfg, t, n) &&
             i < |signals|
    ensures DistanceAt(cfg, t, n, signals, target, i + 1) <= 0.96 * DistanceAt(cfg, t, n, signals, target, i) + 0.5
  {
    assert signals[..i + 1][..i] == signals[..i] && signals[..i + 1][i] == signals[i];
    TargetStays(cfg, t, n, signals[..i]);
    AdjustApproaches(cfg, Adjusted(cfg, t, n, signals[..i]), n, signals[i].0, signals[i].1, target);
  }

  predicate ShrinksAt(ds: seq<real>, i: nat) {
    i + 1 < |ds| ==> ds[i + 1] <= 0.96 * ds[i] + 0.5
  }

  lemma {:induction false} Shrinks(ds: seq<real>, i: nat)
    requires i < |ds| && forall j: nat :: ShrinksAt(ds, j)
    ensures ds[i] <= Remaining(ds[0], i)
  {
    if i > 0 {
      Shrinks(ds, i - 1);
      assert ShrinksAt(ds, i - 1);
    }
  }

  /** Without new feedback the period converges geometrically to the feedback target, up to the
      12.5 milliseconds that rounding to whole milliseconds may leave. */
  lemma Converges(cfg: Settings, t: Timer, n: nat, signals: seq<(SyncSignal, int)>, target: int)
    requires cfg.timerMode.NetworkAware? && NeverLimited(cfg, t, n, signals) && target == TargetOf(cfg, t, n)
    ensures DistanceAt(cfg, t, n, signals, target, |signals|) <=
            Shrunk(DistanceAt(cfg, t, n, signals, target, 0), |signals|) + 12.5
  {
    var ds := seq(|signals| + 1, i requires 0 <= i <= |signals| => DistanceAt(cfg, t, n, signals, target, i));
    forall j: nat ensures ShrinksAt(ds, j) {
      if j < |signals| { DistanceShrinks(cfg, t, n, signals, target, j); }
    }
    Shrinks(ds, |signals|);
    RemainingIs(ds[0], |signals|);
  }

  // ---- Feedback ----

  /** Sequence numbers wait in strictly increasing order, at most 32 of them. */
  ghost predicate Queued(pending: seq<Pending>) {
    |pending| <= MAX_PENDING && forall i, j | 0 <= i < j < |pending| :: pending[i].seqNo < pending[j].seqNo
  }

  lemma NoteSendQueued(cfg: Settings, pending: seq<Pending>, seqNo: nat, now: int)
    requires Queued(pending)
    ensures Queued(NoteSend(cfg, pending, seqNo, now))
  {
  }

  /** A number that is new joins the queue last, and of the others the latest 31 stay. */
  lemma NotesLatest(cfg: Settings, pending: seq<Pending>, seqNo: nat, now: int)
    requires cfg.timerMode.NetworkAware? && seqNo > 0 && (pending == [] || pending[|pending| - 1].seqNo < seqNo)
    ensures var noted := NoteSend(cfg, pending, seqNo, now);
            && |noted| == Min(32, |pending| + 1) && noted[|noted| - 1] == Pending(seqNo, now)
            && noted[..|noted| - 1] == pending[|pending| - (|noted| - 1)..]
  {
  }

  /** Any other leaves the queue alone. */
  lemma NotesNothing(cfg: Settings, pending: seq<Pending>, seqNo: nat, now: int)
    requires !cfg.timerMode.NetworkAware? || seqNo == 0 || (pending != [] && pending[|pending| - 1].seqNo >= seqNo)
    ensures NoteSend(cfg, pending, seqNo, now) == pending
  {
  }

  lemma {:induction false} ConfirmedIs(pending: seq<Pending>, echoed: nat, i: nat)
    requires i < |pending| && forall i, j | 0 <= i < j < |pending| :: pending[i].seqNo < pending[j].seqNo
    ensures i < Confirmed(pending, echoed) <==> pending[i].seqNo <= echoed
  {
    if pending[0].seqNo <= echoed && i > 0 {
      ConfirmedIs(pending[1..], echoed, i - 1);
      assert pending[i] == pending[1..][i - 1];
    }
  }

  lemma Increases(pending: seq<Pending>, i: nat, j: nat)
    requires Queued(pending) && i < j < |pending|
    ensures pending[i].seqNo < pending[j].seqNo
  {
  }

  lemma EchoLeaves(pending: seq<Pending>, echoed: nat, p: Pending)
    requires Queued(pending) && p in pending && p.seqNo > echoed
    ensures p in pending[Confirmed(pending, echoed)..]
  {
    var k := Confirmed(pending, echoed);
    var i :| 0 <= i < |pending| && pending[i] == p;
    ConfirmedIs(pending, echoed, i);
    assert pending[k..][i - k] == p;
  }

  /** An echo removes exactly the numbers up to the one echoed. */
  lemma EchoRemoves(pending: seq<Pending>, echoed: nat, p: Pending)
    requires Queued(pending)
    ensures p in pending[Confirmed(pending, echoed)..] <==> p in pending && p.seqNo > echoed
  {
    var k := Confirmed(pending, echoed);
    var rest := pending[k..];
    if p in rest {
      var i :| 0 <= i < |rest| && rest[i] == p;
      ConfirmedIs(pending, echoed, k + i);
    } else if p in pending && p.seqNo > echoed {
      EchoLeaves(pending, echoed, p);
    }
  }

  /** The number whose sending time is used is the largest that the echo confirms. */
  lemma EchoUsesLargest(pending: seq<Pending>, echoed: nat, i: nat)
    requires Queued(pending) && i < |pending| && pending[i].seqNo <= echoed
    ensures var k := Confirmed(pending, echoed); k > 0 && pending[i].seqNo <= pending[k - 1].seqNo <= echoed
  {
    var k := Confirmed(pending, echoed);
    ConfirmedIs(pending, echoed, i);
    ConfirmedIs(pending, echoed, k - 1);
    if i < k - 1 { Increases(pending, i, k - 1); }
  }

  /** What an echo does to the queue and, if it confirms something sent before, to the estimates. */
  lemma EchoConfirms(cfg: Settings, f: Feedback, echoed: nat, now: int, p: Pending)
    requires Queued(f.pending) && cfg.timerMode.NetworkAware? && echoed > 0
    ensures Queued(Observe(cfg, f, echoed, now).pending)
    ensures p in Observe(cfg, f, echoed, now).pending <==> p in f.pending && p.seqNo > echoed
  {
    EchoRemoves(f.pending, echoed, p);
  }

  lemma ObserveQueued(cfg: Settings, f: Feedback, echoed: nat, now: int)
    requires Queued(f.pending)
    ensures Queued(Observe(cfg, f, echoed, now).pending)
  {
  }

  /** The timer after a series of observed delays. */
  function Sampled(t: Timer, observed: seq<real>): Timer {
    if observed == [] then t else Sample(Sampled(t, observed[..|observed| - 1]), observed[|observed| - 1])
  }

  ghost predicate Between(x: real, observed: seq<real>) {
    && (exists i :: 0 <= i < |observed| && observed[i] <= x)
    && (exists i :: 0 <= i < |observed| && x <= observed[i])
  }

  lemma BetweenMore(a: real, observed: seq<real>, b: real)
    requires Between(a, observed)
    ensures Between((1.0 - 0.18) * a + 0.18 * b, observed + [b])
  {
    var all := observed + [b];
    var i :| 0 <= i < |observed| && observed[i] <= a;
    var j :| 0 <= j < |observed| && a <= observed[j];
    assert all[i] == observed[i] && all[j] == observed[j] && all[|observed|] == b;
    var m := (1.0 - 0.18) * a + 0.18 * b;
    if b <= a {
      assert all[|observed|] <= m && m <= all[j];
    } else {
      assert all[i] <= m && m <= all[|observed|];
    }
  }

  /** The delay estimate never leaves the range of the delays observed, and the jitter estimate
      never drops below ten milliseconds. */
  lemma {:induction false} SampledWithin(t: Timer, observed: seq<real>)
    requires t.samples == 0 && observed != []
    ensures Between(Sampled(t, observed).delay, observed)
    ensures Sampled(t, observed).jitter >= 10.0 && Sampled(t, observed).samples == |observed|
  {
    var rest, last := observed[..|observed| - 1], observed[|observed| - 1];
    assert observed == rest + [last];
    if rest == [] {
      assert Sampled(t, observed) == Sample(t, last);
    } else {
      SampledWithin(t, rest);
      BetweenMore(Sampled(t, rest).delay, rest, last);
    }
  }

  // ---- The gap between transmissions ----

  /** The gap is never halved: activity alone cannot make the timer hot. */
  lemma GapIsConfigured(cfg: Settings, activity: real)
    requires activity <= 1.0
    ensures MinGap(cfg, activity) == cfg.minSendMs * 1000
    ensures LocalDelay(cfg, activity) == Max(1, cfg.localDelayMs)
  {
  }
}
