/** The strategies whose every selection includes the entries from the cursor on, and what follows for
    the entries the cursor comes to, or near to. */
module CursorFairness {
  import opened Nodes
  import opened Orders
  import opened Numbers
  import opened Selection
  import opened SelectionFacts
  import opened Scoring
  import opened Settings
  import opened Scheduler
  import opened Runs
  import opened Rotation
  import opened RoundRobinFairness

  /** The least fairness reserve, with coordination or without. */
  function LeastReserve(cfg: Settings, k: nat): nat {
    if cfg.coordinated then Min(Max(1, cfg.minFairEntries), Max(1, k / 3)) else Max(1, cfg.minFairEntries)
  }

  /** Enough slots for the sender, the guaranteed recent or scored entries, and r entries from the
      cursor on, which the fairness reserve provides. */
  predicate ServesPlaces(cfg: Settings, k: nat, r: nat) {
    var inReserve := k >= 4 && r <= LeastReserve(cfg, k) && r < k;
    var afterScored := Max(1, cfg.minFairEntries) + 2 <= k;
    var afterRecent := 1 + Max(1, cfg.recentEntries) + r <= k;
    match cfg.strategy
    case RoundRobin => r < k
    case AgeScore => inReserve && afterScored
    case DeficitScore => inReserve && afterScored
    case ClusterScore => inReserve && afterScored
    case Hybrid => inReserve && afterRecent
    case ClusterHybrid => inReserve && afterRecent && afterScored
    case _ => false
  }

  lemma FairEntriesFit(cfg: Settings, load: Load, strategy: Strategy, k: nat)
    requires k >= 4 && Max(1, cfg.minFairEntries) + 2 <= k
    ensures Max(1, FairEntries(cfg, load, strategy, k)) + 2 <= k
  {
  }

  lemma FairEntriesLeast(cfg: Settings, load: Load, strategy: Strategy, k: nat)
    ensures Max(1, FairEntries(cfg, load, strategy, k)) >= LeastReserve(cfg, k)
  {
  }

  /** The first pass leaves r slots that the reserve may use. */
  lemma FirstBudgetFits(cfg: Settings, load: Load, req: Request, hotTarget: nat, size: nat, r: nat)
    requires ServesPlaces(cfg, req.maxEntries, r)
    requires req.strategy == cfg.strategy && KeepsReserve(req.strategy) && size <= 1
    requires req.recentEntries == cfg.recentEntries
    requires req.minFairEntries == FairEntries(cfg, load, req.strategy, req.maxEntries)
    ensures Reserve(req) >= r && size + FirstBudget(req, hotTarget, size) + r <= req.maxEntries
  {
    FairEntriesLeast(cfg, load, req.strategy, req.maxEntries);
    if !req.strategy.Hybrid? { FairEntriesFit(cfg, load, req.strategy, req.maxEntries); }
  }

  lemma PlaceInReserve(cfg: Settings, keys: set<NodeID>, k: nat, r: Round, places: nat, d: nat)
    requires Chooses(cfg, keys, k, r) && KeepsReserve(cfg.strategy) && ServesPlaces(cfg, k, places) && d < places
    requires d < |Listing(BY_NAME, keys)|
    ensures NodeAt(Listing(BY_NAME, keys), r.before.cursor, d) in RoundKeys(cfg, k, r)
  {
    var req := RoundRequest(cfg, k, r);
    var fig := FiguresOf(r.vv, req, RoundTuning(cfg, k, r));
    FirstBudgetFits(cfg, r.load, req, fig.hotTarget, |Preselected(r.vv, req)|, places);
    CursorEntrySelected(r.vv, req, fig, r.chance.outside, d);
  }

  lemma PlaceInRoundRobin(cfg: Settings, keys: set<NodeID>, k: nat, r: Round, d: nat)
    requires Chooses(cfg, keys, k, r) && cfg.strategy.RoundRobin? && d + 1 < k && d < |Listing(BY_NAME, keys)|
    ensures NodeAt(Listing(BY_NAME, keys), r.before.cursor, d) in RoundKeys(cfg, k, r)
  {
    var req := RoundRequest(cfg, k, r);
    CursorEntryAdded(r.vv, req, Preselected(r.vv, req), k, d);
    RoundRobinKeys(r.vv, req, FiguresOf(r.vv, req, RoundTuning(cfg, k, r)), r.chance.outside);
  }

  /** Every build sends the entries from the cursor on for as many places as are served. */
  lemma PlacesSent(cfg: Settings, keys: set<NodeID>, k: nat, r: Round, places: nat, d: nat)
    requires Chooses(cfg, keys, k, r) && IsBuild(cfg, r) && ServesPlaces(cfg, k, places) && d < places
    requires d < |Listing(BY_NAME, keys)|
    ensures NodeAt(Listing(BY_NAME, keys), r.before.cursor, d) in r.sent.entries.Keys
  {
    BuildChooses(cfg, keys, k, r);
    if cfg.strategy.RoundRobin? {
      PlaceInRoundRobin(cfg, keys, k, r, d);
    } else {
      PlaceInReserve(cfg, keys, k, r, places, d);
    }
  }

  lemma PlacesSentAt(cfg: Settings, keys: set<NodeID>, k: nat, rs: seq<Round>, i: nat, places: nat, d: nat)
    requires Steady(cfg, keys, k, rs) && ServesPlaces(cfg, k, places) && i < |rs| && d < places && d < |keys|
    ensures d < |Listing(BY_NAME, keys)|
    ensures NodeAt(Listing(BY_NAME, keys), rs[i].before.cursor, d) in rs[i].sent.entries.Keys
  {
    ListingSize(BY_NAME, keys);
    SteadyAt(cfg, keys, k, rs, i);
    PlacesSent(cfg, keys, k, rs[i], places, d);
  }

  // ---- Steps that visit every place ----

  function Gcd(a: nat, b: nat): nat
    decreases b
  {
    if b == 0 then a else Gcd(b, a % b)
  }

  lemma {:induction false} Bezout(a: nat, b: nat) returns (x: int, y: int)
    ensures a * x + b * y == Gcd(a, b)
    decreases b
  {
    if b == 0 {
      x, y := 1, 0;
    } else {
      var u, v := Bezout(b, a % b);
      BezoutStep(a, b, a / b, a % b, u, v);
      x, y := v, u - (a / b) * v;
    }
  }

  lemma BezoutStep(a: nat, b: nat, q: nat, r: nat, u: int, v: int)
    requires a == q * b + r
    ensures a * v + b * (u - q * v) == b * u + r * v
  {
    assert a * v == (q * b) * v + r * v;
    assert b * (u - q * v) == b * u - b * (q * v);
    assert b * (q * v) == (q * b) * v;
  }

  lemma {:induction false} GcdPositive(a: nat, b: nat)
    requires a > 0 || b > 0
    ensures Gcd(a, b) > 0
    decreases b
  {
    if b > 0 { GcdPositive(b, a % b); }
  }

  /** Some number of steps of length k, fewer than n, ends t times the common divisor places on. */
  lemma StepsTo(k: nat, n: nat, t: nat) returns (i: nat, z: int)
    requires n > 0
    ensures i < n && i * k == t * Gcd(k, n) + z * n
  {
    var x, y := Bezout(k, n);
    var q := (x * t) / n;
    i := (x * t) % n;
    z := -(y * t) - q * k;
    assert x * t == q * n + i;
    StepsArithmetic(k, n, Gcd(k, n), t, x, y, q, i);
  }

  lemma StepsArithmetic(k: nat, n: nat, g: nat, t: nat, x: int, y: int, q: int, i: nat)
    requires k * x + n * y == g && x * t == q * n + i
    ensures i * k == t * g + (-(y * t) - q * k) * n
  {
    assert i * k == (x * t) * k - (q * n) * k;
    assert (x * t) * k == (k * x) * t;
    assert (k * x) * t == g * t - (n * y) * t;
    assert (n * y) * t == (y * t) * n;
    assert (q * n) * k == (q * k) * n;
    assert (-(y * t) - q * k) * n == -((y * t) * n) - (q * k) * n;
  }

  lemma {:induction false} CursorSum(start: nat, k: nat, n: nat, i: nat)
    requires n > 0
    ensures CursorAt(start, k, n, i) % n == (start + i * k) % n
  {
    if i > 0 {
      CursorSum(start, k, n, i - 1);
      AddMod(CursorAt(start, k, n, i - 1), k, n);
      AddMod(start + (i - 1) * k, k, n);
      assert (i - 1) * k + k == i * k;
      var c := CursorAt(start, k, n, i);
      ModUnique(c, 0, c, n);
    }
  }

  /** Going d places round the ring from c, and some rounds more. */
  lemma VisitArithmetic(start: nat, steps: int, z: int, d: nat, n: nat)
    requires d < n && steps == d + z * n && start + steps >= 0
    ensures (start + steps) % n == if start % n + d < n then start % n + d else start % n + d - n
  {
    var p, c := start / n, start % n;
    assert start == p * n + c;
    if c + d < n {
      VisitedAt(start + steps, p + z, c + d, n, p, z);
    } else {
      VisitedAt(start + steps, p + z + 1, c + d - n, n, p, z + 1);
    }
  }

  lemma VisitedAt(x: int, q: int, r: nat, n: nat, p: int, z: int)
    requires r < n && q == p + z && x == p * n + z * n + r
    ensures x % n == r
  {
    assert q * n == p * n + z * n;
    ModUnique(x, q, r, n);
  }

  /** Part of the way round the ring leaves the rest of it. */
  lemma RestOfTheWay(c: nat, e: nat, n: nat, d: nat)
    requires c < n && e < n && d <= Dist(c, e, n)
    ensures Dist(if c + d < n then c + d else c + d - n, e, n) == Dist(c, e, n) - d
  {
  }

  lemma Multiple(d: nat, g: nat) returns (t: nat, far: nat)
    requires g > 0
    ensures far == t * g && far <= d < far + g
  {
    t := d / g;
    far := t * g;
  }

  /** Steps that end at a place on the way to e. */
  lemma ComesNear(start: nat, steps: int, z: int, far: nat, n: nat, e: nat)
    requires e < n && far <= Dist(start % n, e, n) && steps == far + z * n && start + steps >= 0
    ensures Dist((start + steps) % n, e, n) == Dist(start % n, e, n) - far
  {
    VisitArithmetic(start, steps, z, far, n);
    RestOfTheWay(start % n, e, n, far);
  }

  /** The cursor comes to every place, or to within less than the common divisor of its step and the
      ring of it. */
  lemma CursorVisits(start: nat, k: nat, n: nat, e: nat) returns (i: nat)
    requires 0 < n && e < n
    ensures i < n && Dist(CursorAt(start, k, n, i) % n, e, n) < Gcd(k, n)
  {
    GcdPositive(k, n);
    var t, far := Multiple(Dist(start % n, e, n), Gcd(k, n));
    var z;
    i, z := StepsTo(k, n, t);
    CursorSum(start, k, n, i);
    ComesNear(start, i * k, z, far, n, e);
  }

  lemma CursorVisitsNode(keys: set<NodeID>, start: nat, k: nat, e: nat) returns (i: nat, d: nat)
    requires e < |keys|
    ensures i < |keys| && d < Gcd(k, |keys|) && d < |keys| == |Listing(BY_NAME, keys)|
    ensures NodeAt(Listing(BY_NAME, keys), CursorAt(start, k, |keys|, i), d) == NodeNo(keys, e)
  {
    i := CursorVisits(start, k, |keys|, e);
    d := Dist(CursorAt(start, k, |keys|, i) % |keys|, e, |keys|);
    ListingSize(BY_NAME, keys);
    NodeAtDist(Listing(BY_NAME, keys), CursorAt(start, k, |keys|, i), e);
  }

  /** If the limit and the number of entries have no common divisor larger than the number of places
      served from the cursor on, every entry is sent within n builds. */
  lemma CursorCoverage(cfg: Settings, keys: set<NodeID>, k: nat, rs: seq<Round>, places: nat, x: NodeID)
    returns (i: nat)
    requires Steady(cfg, keys, k, rs) && ServesPlaces(cfg, k, places) && Gcd(k, |keys|) <= places
    requires rs != [] && |rs| >= |keys| && x in keys
    ensures i < |keys| && x in rs[i].sent.entries.Keys
  {
    var e := NodeNumber(keys, x);
    var d;
    i, d := CursorVisitsNode(keys, rs[0].before.cursor, k, e);
    CursorIs(cfg, keys, k, rs, i);
    PlacesSentAt(cfg, keys, k, rs, i, places, d);
  }
}
