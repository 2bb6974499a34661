/** Runs of buildSyncVector: the vectors a node sends one after another. */
module Runs {
  import opened Nodes
  import opened Numbers
  import opened VersionVectors
  import opened Selection
  import opened Scoring
  import opened ScoringFacts
  import opened Settings
  import opened Scheduler

  /** One call of buildSyncVector: what it finds, how many entries it may send, what it returns. */
  datatype Round = Round(load: Load, vv: VersionVector, before: Sched, chance: Chance, limit: nat, sent: VersionVector)

  ghost predicate IsBuild(cfg: Settings, r: Round) {
    && ValidOutside(r.vv, r.chance.outside)
    && r.limit <= |r.vv.entries| && (cfg.strategy.Full? ==> r.limit == |r.vv.entries|)
    && r.sent == VectorWithin(cfg, r.load, r.vv, r.before, r.chance, r.limit)
  }

  function After(cfg: Settings, r: Round): Sched {
    Remember(cfg, r.load, r.vv, r.before, r.sent, r.limit)
  }

  predicate LimitApplies(cfg: Settings, r: Round) {
    r.limit == Limit(cfg, r.load, |r.vv.entries|)
  }

  /** Rounds are what buildSyncVector does. */
  lemma RoundIsBuild(cfg: Settings, r: Round)
    requires ValidOutside(r.vv, r.chance.outside) && LimitApplies(cfg, r)
    requires r.sent == Build(cfg, r.load, r.vv, r.before, r.chance).0
    ensures IsBuild(cfg, r) && After(cfg, r) == Build(cfg, r.load, r.vv, r.before, r.chance).1
  {
  }

  /** The i-th build leaves what the next one finds. */
  ghost predicate BuildAt(cfg: Settings, rs: seq<Round>, i: nat) {
    i < |rs| ==>
    IsBuild(cfg, rs[i]) && LimitApplies(cfg, rs[i]) && (i + 1 < |rs| ==> rs[i + 1].before == After(cfg, rs[i]))
  }

  /** Builds one after another; in between, the vector may change. */
  ghost predicate Consecutive(cfg: Settings, rs: seq<Round>) {
    forall i: nat :: BuildAt(cfg, rs, i)
  }

  /** A build under the limit that applies, and what it leaves. */
  ghost predicate Performs(cfg: Settings, r: Round, after: Sched) {
    IsBuild(cfg, r) && LimitApplies(cfg, r) && after == After(cfg, r)
  }

  /** The build stands in the series at this place, and the next one finds what it leaves. */
  ghost predicate Placed(rs: seq<Round>, m: nat, r: Round, after: Sched) {
    m < |rs| && rs[m] == r && (m + 1 < |rs| ==> rs[m + 1].before == after)
  }

  lemma PlacedBuilds(cfg: Settings, rs: seq<Round>, m: nat, r: Round, after: Sched)
    requires Placed(rs, m, r, after) && Performs(cfg, r, after)
    ensures BuildAt(cfg, rs, m)
  {
  }

  /** A build that must choose k of the given keys. */
  predicate Chooses(cfg: Settings, keys: set<NodeID>, k: nat, r: Round) {
    1 <= k < |keys| && !cfg.strategy.Full? && r.vv.entries.Keys == keys && r.limit == k
  }

  /** A run over which the keys and the number of entries sent stay the same, while sequence
      numbers, update times, load and random choices may change. */
  ghost predicate Steady(cfg: Settings, keys: set<NodeID>, k: nat, rs: seq<Round>) {
    Consecutive(cfg, rs) && forall i: nat :: ChoosesAt(cfg, keys, k, rs, i)
  }

  predicate ChoosesAt(cfg: Settings, keys: set<NodeID>, k: nat, rs: seq<Round>, i: nat) {
    i < |rs| ==> Chooses(cfg, keys, k, rs[i])
  }

  lemma SteadyAt(cfg: Settings, keys: set<NodeID>, k: nat, rs: seq<Round>, i: nat)
    requires Steady(cfg, keys, k, rs) && i < |rs|
    ensures Chooses(cfg, keys, k, rs[i]) && IsBuild(cfg, rs[i])
  {
    assert BuildAt(cfg, rs, i) && ChoosesAt(cfg, keys, k, rs, i);
  }

  lemma SteadyNext(cfg: Settings, keys: set<NodeID>, k: nat, rs: seq<Round>, i: nat)
    requires Steady(cfg, keys, k, rs) && i + 1 < |rs|
    ensures rs[i + 1].before == After(cfg, rs[i])
  {
    assert BuildAt(cfg, rs, i);
  }

  lemma SteadySizes(cfg: Settings, keys: set<NodeID>, k: nat, rs: seq<Round>)
    requires Steady(cfg, keys, k, rs) && rs != []
    ensures 1 <= k < |keys| && rs[0].vv.entries.Keys == keys
  {
    assert ChoosesAt(cfg, keys, k, rs, 0);
  }

  /** The call of selectSubset a build makes. */
  function RoundRequest(cfg: Settings, k: nat, r: Round): Request
    requires r.vv.entries != map[]
  {
    RequestOf(cfg, r.load, r.before, k, Effective(cfg, r.load, |r.vv.entries|, k, r.before.burst).0,
              if cfg.strategy.Random? then r.chance.roll else r.before.cursor)
  }

  function RoundTuning(cfg: Settings, k: nat, r: Round): Tuning
    requires r.vv.entries != map[]
  {
    TuningOf(cfg, r.load, Effective(cfg, r.load, |r.vv.entries|, k, r.before.burst).0, Known(r.before.missed, r.vv))
  }

  function RoundFigures(cfg: Settings, k: nat, r: Round): Figures
    requires r.vv.entries != map[]
  {
    FiguresOf(r.vv, RoundRequest(cfg, k, r), RoundTuning(cfg, k, r))
  }

  function RoundKeys(cfg: Settings, k: nat, r: Round): set<NodeID>
    requires 0 < k && r.vv.entries != map[]
  {
    SelectKeys(r.vv, RoundRequest(cfg, k, r), RoundFigures(cfg, k, r), r.chance.outside)
  }

  /** A build that must choose sends the keys the selector picks. */
  lemma BuildChooses(cfg: Settings, keys: set<NodeID>, k: nat, r: Round)
    requires Chooses(cfg, keys, k, r) && IsBuild(cfg, r)
    ensures r.sent.entries.Keys == RoundKeys(cfg, k, r)
  {
    SubsetKeys(r.vv, RoundRequest(cfg, k, r), RoundTuning(cfg, k, r), r.chance.outside);
  }

  /** It moves the cursor past as many nodes as it sends. */
  lemma CursorMoves(cfg: Settings, keys: set<NodeID>, k: nat, r: Round)
    requires Chooses(cfg, keys, k, r) && !cfg.strategy.Random?
    ensures After(cfg, r).cursor == (r.before.cursor + k) % |keys|
  {
  }

  lemma CursorNext(cfg: Settings, keys: set<NodeID>, k: nat, rs: seq<Round>, i: nat)
    requires Steady(cfg, keys, k, rs) && i + 1 < |rs| && !cfg.strategy.Random?
    ensures keys != {} && rs[i + 1].before.cursor == (rs[i].before.cursor + k) % |keys|
  {
    assert ChoosesAt(cfg, keys, k, rs, i);
    SteadyNext(cfg, keys, k, rs, i);
    CursorMoves(cfg, keys, k, rs[i]);
  }

  /** The cursor after i builds that each move it k places. */
  function CursorAt(start: nat, k: nat, n: nat, i: nat): nat
    requires n > 0
  {
    if i == 0 then start else (CursorAt(start, k, n, i - 1) + k) % n
  }

  predicate CursorMoved(cursors: seq<nat>, k: nat, n: nat, j: nat) {
    n > 0 && j + 1 < |cursors| && cursors[j + 1] == (cursors[j] + k) % n
  }

  lemma CursorStep(cursors: seq<nat>, k: nat, n: nat, i: nat)
    requires 0 < i < |cursors| && CursorMoved(cursors, k, n, i - 1)
    requires cursors[i - 1] == CursorAt(cursors[0], k, n, i - 1)
    ensures cursors[i] == CursorAt(cursors[0], k, n, i)
  {
  }

  lemma {:induction false} CursorsAre(cursors: seq<nat>, k: nat, n: nat, i: nat)
    requires n > 0 && i < |cursors| && forall j | 0 <= j < |cursors| - 1 :: CursorMoved(cursors, k, n, j)
    ensures cursors[i] == CursorAt(cursors[0], k, n, i)
  {
    if i > 0 {
      CursorsAre(cursors, k, n, i - 1);
      CursorStep(cursors, k, n, i);
    }
  }

  lemma CursorIs(cfg: Settings, keys: set<NodeID>, k: nat, rs: seq<Round>, i: nat)
    requires Steady(cfg, keys, k, rs) && i < |rs| && !cfg.strategy.Random? && keys != {}
    ensures rs[i].before.cursor == CursorAt(rs[0].before.cursor, k, |keys|, i)
  {
    var cursors := seq(|rs|, j requires 0 <= j < |rs| => rs[j].before.cursor);
    forall j | 0 <= j < |rs| - 1 ensures CursorMoved(cursors, k, |keys|, j) {
      CursorNext(cfg, keys, k, rs, j);
    }
    CursorsAre(cursors, k, |keys|, i);
  }

  /** The nodes sent whether or not their turn has come: the sender itself, if it has an entry. */
  function Pinned(cfg: Settings, keys: set<NodeID>): set<NodeID> {
    if cfg.id != EMPTY_NODE_ID && cfg.id in keys then {cfg.id} else {}
  }

  /** Known entries with their current numbers, as many as the limit allows, the sender's own entry
      among them. */
  ghost predicate Carries(cfg: Settings, vv: VersionVector, limit: nat, sent: VersionVector) {
    && (forall x | x in sent.entries :: x in vv.entries && sent.entries[x] == vv.entries[x])
    && |sent.entries| == limit
    && (limit > 0 ==> Pinned(cfg, vv.entries.Keys) <= sent.entries.Keys)
  }

  lemma CutDownCarries(cfg: Settings, vv: VersionVector, req: Request, sent: VersionVector)
    requires CutDown(vv, req, sent) && req.preferred == cfg.id && req.maxEntries <= |vv.entries|
    requires req.strategy.Full? ==> req.maxEntries == |vv.entries|
    ensures Carries(cfg, vv, req.maxEntries, sent)
  {
  }

  lemma BuildContract(cfg: Settings, r: Round)
    requires IsBuild(cfg, r)
    ensures Carries(cfg, r.vv, r.limit, r.sent)
  {
    if !SendsAll(cfg, r.vv, r.limit) {
      SubsetContract(r.vv, RoundRequest(cfg, r.limit, r), RoundTuning(cfg, r.limit, r), r.chance.outside);
      CutDownCarries(cfg, r.vv, RoundRequest(cfg, r.limit, r), r.sent);
    }
  }

  // ---- The limit ----

  lemma ScaledByMonotone(a: nat, b: nat, factor: real)
    requires a <= b && factor >= 0.0
    ensures ScaledBy(a, factor) <= ScaledBy(b, factor)
  {
    ProductMonotone(factor, a as real, b as real);
  }

  /** A larger vector is never granted fewer slots. */
  lemma LimitMonotone(cfg: Settings, load: Load, a: nat, b: nat)
    requires a <= b
    ensures Limit(cfg, load, a) <= Limit(cfg, load, b)
  {
    if a > 0 {
      if cfg.ratio > 0.0 { ScaledByMonotone(a, b, cfg.ratio); } else { CeilTwoSqrtMonotone(a, b); }
      var sa, sb := Max(1, Scaled(cfg, a)), Max(1, Scaled(cfg, b));
      if cfg.coordinated {
        ScaledByMonotone(Max(sa, FloorEntries(cfg, a)), Max(sb, FloorEntries(cfg, b)),
                         1.0 + 0.22 * LimitPressure(cfg, load));
      }
    }
  }

  lemma ScaledByPositive(a: nat, factor: real)
    requires factor >= 1.0
    ensures ScaledBy(a, factor) >= a
  {
    assert a as real * factor >= a as real;
  }

  /** Something is sent unless the configured maximum forbids it. */
  lemma LimitPositive(cfg: Settings, load: Load, n: nat)
    requires n > 0 && cfg.maxEntries > 0
    ensures 1 <= Limit(cfg, load, n) <= n
  {
    if cfg.coordinated {
      ScaledByPositive(Max(Max(1, Scaled(cfg, n)), FloorEntries(cfg, n)), 1.0 + 0.22 * LimitPressure(cfg, load));
    }
  }
}
