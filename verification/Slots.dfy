/** How many slots a node grants its Sync Interests, said without the way they are computed. */
module Slots {
  import opened Numbers
  import opened Settings
  import opened Scheduler

  /** The least number, but no less than this one, whose square is at least four times as much. */
  predicate Rooted(n: nat, least: nat, k: nat) {
    k >= least && k * k >= 4 * n && (k > least ==> (k - 1) * (k - 1) < 4 * n)
  }

  /** Without coordination: the configured share of the entries; or if none is configured, as many as
      configured for recent entries, and enough for their square to be four times the number of entries. */
  ghost predicate PlainSlots(cfg: Settings, n: nat, k: nat) {
    if cfg.ratio > 0.0 then RaisedBy(n, cfg.ratio, k) else Rooted(n, cfg.recentEntries, k)
  }

  /** Nearest number between zero and one. */
  function Unit(x: real): real { if x < 0.0 then 0.0 else if x > 1.0 then 1.0 else x }

  function Pressure(cfg: Settings, load: Load): real {
    Unit(0.55 * cfg.lossRate + 0.25 * (if cfg.diameterMs < 250.0 then cfg.diameterMs / 250.0 else 1.0)
         + 0.35 * Unit(0.6 * load.hotspot + 0.4 * cfg.hotNodeRatio))
  }

  /** Up to 22 percent more under pressure. */
  function Raise(cfg: Settings, load: Load): real { 1.0 + 0.22 * Pressure(cfg, load) }

  function Floor(cfg: Settings, n: nat): nat {
    Min(n, Max(cfg.recentEntries + cfg.minFairEntries, Min(cfg.maxEntries, 8)))
  }

  /** Coordination grants no less than a floor, and more under pressure. */
  ghost predicate Granted(cfg: Settings, load: Load, n: nat, wanted: nat, k: nat) {
    if cfg.coordinated then RaisedBy(Max(wanted, Floor(cfg, n)), Raise(cfg, load), k) else k == wanted
  }

  lemma RootUnique(m: nat, a: nat, b: nat)
    requires a * a >= m && b * b >= m && (a > 0 ==> (a - 1) * (a - 1) < m) && (b > 0 ==> (b - 1) * (b - 1) < m)
    ensures a == b
  {
    if a < b { SquareMonotone(a, b - 1); }
    if b < a { SquareMonotone(b, a - 1); }
  }

  lemma RootWanted(n: nat, least: nat, k: nat)
    requires Rooted(n, least, k)
    ensures Max(least, CeilTwoSqrt(n)) == k
  {
    var root := CeilTwoSqrt(n);
    if k < root { SquareMonotone(k, root - 1); }
    if k > least { RootUnique(4 * n, k, root); }
  }

  lemma RootExists(n: nat, least: nat)
    ensures Rooted(n, least, Max(least, CeilTwoSqrt(n)))
  {
    if CeilTwoSqrt(n) < least { SquareMonotone(CeilTwoSqrt(n), least); }
  }

  lemma RootPositive(n: nat, least: nat, k: nat)
    requires n > 0 && Rooted(n, least, k)
    ensures k > 0
  {
  }

  lemma SharePositive(n: nat, ratio: real, k: nat)
    requires n > 0 && ratio > 0.0 && RaisedBy(n, ratio, k)
    ensures k > 0
  {
    var x := n as real * ratio;
    assert IsProduct(n, ratio, x) && x > 0.0;
  }

  lemma PlainSlotsAre(cfg: Settings, n: nat, k: nat)
    requires n > 0
    ensures PlainSlots(cfg, n, k) <==> Max(1, Scheduler.Scaled(cfg, n)) == k
  {
    if cfg.ratio > 0.0 {
      RaisedIs(n, cfg.ratio, ScaledBy(n, cfg.ratio));
      SharePositive(n, cfg.ratio, ScaledBy(n, cfg.ratio));
      RaisedIs(n, cfg.ratio, k);
    } else {
      RootExists(n, cfg.recentEntries);
      RootPositive(n, cfg.recentEntries, Max(cfg.recentEntries, CeilTwoSqrt(n)));
      if Rooted(n, cfg.recentEntries, k) { RootWanted(n, cfg.recentEntries, k); }
    }
  }

  lemma PressureIs(cfg: Settings, load: Load)
    ensures LimitPressure(cfg, load) == Pressure(cfg, load) && 0.0 <= Pressure(cfg, load) <= 1.0
  {
  }

  lemma RaisedIs(base: nat, factor: real, k: nat)
    requires factor >= 0.0
    ensures RaisedBy(base, factor, k) <==> ScaledBy(base, factor) == k
  {
    var x := base as real * factor;
    assert IsProduct(base, factor, x);
    CeilIs(x, k);
  }

  lemma CoordinatedIs(cfg: Settings, load: Load, n: nat, wanted: nat)
    requires cfg.coordinated
    ensures 1.0 <= Raise(cfg, load) <= 1.22
    ensures Scheduler.Coordinated(cfg, load, n, wanted) == ScaledBy(Max(wanted, Floor(cfg, n)), Raise(cfg, load))
  {
    PressureIs(cfg, load);
  }

  lemma GrantedIs(cfg: Settings, load: Load, n: nat, wanted: nat, k: nat)
    ensures Granted(cfg, load, n, wanted, k) <==> Scheduler.Coordinated(cfg, load, n, wanted) == k
  {
    if cfg.coordinated {
      CoordinatedIs(cfg, load, n, wanted);
      RaisedIs(Max(wanted, Floor(cfg, n)), Raise(cfg, load), k);
    }
  }

  /** The number of slots: what is granted, but no more than configured, nor than there are entries. */
  lemma LimitIs(cfg: Settings, load: Load, n: nat, wanted: nat, granted: nat)
    requires n > 0 && !cfg.strategy.Full? && PlainSlots(cfg, n, wanted) && Granted(cfg, load, n, wanted, granted)
    ensures Limit(cfg, load, n) == Min(n, Min(cfg.maxEntries, granted))
  {
    PlainSlotsAre(cfg, n, wanted);
    GrantedIs(cfg, load, n, wanted, granted);
  }

  lemma GrantedExists(cfg: Settings, load: Load, n: nat) returns (wanted: nat, granted: nat)
    requires n > 0
    ensures PlainSlots(cfg, n, wanted) && Granted(cfg, load, n, wanted, granted)
  {
    wanted := Max(1, Scheduler.Scaled(cfg, n));
    granted := Scheduler.Coordinated(cfg, load, n, wanted);
    GrantedIs(cfg, load, n, wanted, granted);
    PlainSlotsAre(cfg, n, wanted);
  }

  lemma LeastSlots(n: nat, limit: nat, wanted: nat, max: nat)
    requires limit == Min(n, Min(max, wanted))
    ensures limit == n || limit == max || limit == wanted
  {
  }

  /** Without a share configured and without coordination, the limit is the number of entries, the configured
      maximum, or the least number that is no smaller than configured for recent entries and whose square is
      no smaller than four times the number of entries. */
  lemma WithoutCoordination(cfg: Settings, load: Load, n: nat)
    requires n > 0 && !cfg.strategy.Full? && !cfg.coordinated && cfg.ratio <= 0.0
    ensures var l := Limit(cfg, load, n);
            l == n || l == cfg.maxEntries || Rooted(n, cfg.recentEntries, l)
  {
    var wanted, granted := GrantedExists(cfg, load, n);
    LimitIs(cfg, load, n, wanted, granted);
    LeastSlots(n, Limit(cfg, load, n), wanted, cfg.maxEntries);
  }

  lemma PlainIs(cfg: Settings, load: Load, n: nat, wanted: nat)
    requires n > 0 && !cfg.strategy.Full? && PlainSlots(cfg, n, wanted)
    ensures Limit(cfg.(coordinated := false), load, n) == Min(n, Min(cfg.maxEntries, wanted))
  {
    PlainSlotsAre(cfg, n, wanted);
  }

  /** Coordination never takes slots away, and adds less than 22 percent and one slot to what is wanted or
      the floor. */
  lemma CoordinationAdds(cfg: Settings, load: Load, n: nat, wanted: nat)
    requires n > 0 && !cfg.strategy.Full? && cfg.coordinated && PlainSlots(cfg, n, wanted)
    ensures Limit(cfg.(coordinated := false), load, n) <= Limit(cfg, load, n)
    ensures Limit(cfg, load, n) as real < 1.22 * Max(wanted, Floor(cfg, n)) as real + 1.0
  {
    var granted := Scheduler.Coordinated(cfg, load, n, wanted);
    GrantedIs(cfg, load, n, wanted, granted);
    LimitIs(cfg, load, n, wanted, granted);
    PlainIs(cfg, load, n, wanted);
    CoordinatedIs(cfg, load, n, wanted);
    RaisedWithin(Max(wanted, Floor(cfg, n)), Raise(cfg, load), granted);
  }

  lemma RaisedWithin(base: nat, factor: real, k: nat)
    requires 1.0 <= factor <= 1.22 && RaisedBy(base, factor, k)
    ensures base <= k && k as real < 1.22 * base as real + 1.0
  {
    var x := base as real * factor;
    assert IsProduct(base, factor, x);
    NonNegative(base as real, factor - 1.0);
    NonNegative(base as real, 1.22 - factor);
  }

  // ---- Parts of the slots ----

  /** The slots kept for previous or for new entries: the configured share, but no fewer than configured,
      and never all. */
  predicate IsShare(limit: nat, least: nat, ratio: real, k: nat)
    requires limit > 1
  {
    && k < limit && (k >= least || k == limit - 1)
    && (k as real >= limit as real * Unit(ratio) || k == limit - 1)
    && (k <= Min(least, limit - 1) || (k - 1) as real < limit as real * Unit(ratio))
  }

  lemma ShareIs(limit: nat, least: nat, ratio: real)
    requires limit > 1
    ensures IsShare(limit, least, ratio, Share(limit, least, ratio))
  {
  }

  lemma ShareUnique(limit: nat, least: nat, ratio: real, j: nat, k: nat)
    requires limit > 1 && IsShare(limit, least, ratio, j) && IsShare(limit, least, ratio, k)
    ensures j == k
  {
  }
}
