/** What a node makes of its configuration when it builds a vector: the strategy it uses, the weights and the
    reserve under coordination, and what it keeps or renews of its last choice. */
module BuildLaws {
  import opened Numbers
  import opened Nodes
  import opened Orders
  import opened VersionVectors
  import opened Selection
  import opened StrategyFacts
  import opened Scoring
  import opened Settings
  import opened Scheduler
  import opened Runs
  import opened Slots
  import opened Tradeoffs
  import opened Choices

  // ---- Bursts of scoring ----

  /** Scores are called for: few of the entries travel, many Interests are lost, or nothing is hot. */
  predicate Pressing(cfg: Settings, load: Load, n: nat, k: nat)
    requires 0 < k <= n
  {
    0.55 * (1.0 - k as real / n as real) + 0.25 * cfg.lossRate + 0.20 * (1.0 - Unit(load.hotspot)) >=
    Unit(cfg.adaptiveThreshold)
  }

  lemma ShareOfAll(k: nat, n: nat)
    requires 0 < k <= n
    ensures 0.0 < k as real / n as real <= 1.0
  {
  }

  lemma PressingIs(cfg: Settings, load: Load, n: nat, k: nat)
    requires 0 < k <= n
    ensures RepairPressure(cfg, load, n, k) >= ClampReal(cfg.adaptiveThreshold, 0.0, 1.0) <==>
            Pressing(cfg, load, n, k)
  {
    ShareOfAll(k, n);
    PressureBounds(k as real / n as real, cfg.lossRate, load.hotspot);
  }

  lemma PressureBounds(share: real, loss: real, hotspot: real)
    requires 0.0 < share <= 1.0 && 0.0 <= loss <= 0.95
    ensures 0.0 <= 0.55 * (1.0 - share) + 0.25 * loss + 0.20 * (1.0 - Unit(hotspot)) < 1.0
  {
  }

  /** How many builds in a row a burst takes. */
  function BurstLength(cfg: Settings): nat { Max(1, cfg.adaptiveRounds) }

  /** The strategy a build uses. */
  function StrategyOf(cfg: Settings, k: nat, r: Round): Strategy
    requires r.vv.entries != map[]
  {
    RoundRequest(cfg, k, r).strategy
  }

  lemma OtherStrategies(cfg: Settings, k: nat, r: Round)
    requires r.vv.entries != map[] && !cfg.strategy.AdaptiveRecentScore?
    ensures StrategyOf(cfg, k, r) == cfg.strategy
  {
  }

  lemma BurstStep(cfg: Settings, keys: set<NodeID>, k: nat, r: Round)
    requires Chooses(cfg, keys, k, r) && cfg.strategy.AdaptiveRecentScore?
    ensures StrategyOf(cfg, k, r) ==
            if r.before.burst > 0 || Pressing(cfg, r.load, |keys|, k) then Score else Recent
    ensures After(cfg, r).burst ==
            if r.before.burst > 0 then r.before.burst - 1
            else if Pressing(cfg, r.load, |keys|, k) then BurstLength(cfg) - 1 else 0
  {
    PressingIs(cfg, r.load, |keys|, k);
  }

  lemma BurstAt(cfg: Settings, keys: set<NodeID>, k: nat, rs: seq<Round>, i: nat)
    requires Steady(cfg, keys, k, rs) && cfg.strategy.AdaptiveRecentScore? && i < |rs| && 0 < k <= |keys|
    ensures rs[i].vv.entries != map[]
    ensures StrategyOf(cfg, k, rs[i]) ==
            if rs[i].before.burst > 0 || Pressing(cfg, rs[i].load, |keys|, k) then Score else Recent
    ensures i + 1 < |rs| ==>
              rs[i + 1].before.burst == if rs[i].before.burst > 0 then rs[i].before.burst - 1
                                        else if Pressing(cfg, rs[i].load, |keys|, k) then BurstLength(cfg) - 1 else 0
  {
    SteadyAt(cfg, keys, k, rs, i);
    BurstStep(cfg, keys, k, rs[i]);
    if i + 1 < |rs| { SteadyNext(cfg, keys, k, rs, i); }
  }

  /** A burst that starts at the i-th build scores for its whole length, and then is over. */
  lemma {:induction false} BurstRuns(cfg: Settings, keys: set<NodeID>, k: nat, rs: seq<Round>, i: nat, d: nat)
    requires Steady(cfg, keys, k, rs) && cfg.strategy.AdaptiveRecentScore? && i + d < |rs| && 0 < k <= |keys|
    requires rs[i].before.burst == 0 && Pressing(cfg, rs[i].load, |keys|, k) && d <= BurstLength(cfg)
    ensures rs[i + d].vv.entries != map[] && d < BurstLength(cfg) ==> StrategyOf(cfg, k, rs[i + d]) == Score
    ensures rs[i + d].before.burst == if d == 0 then 0 else BurstLength(cfg) - d
    decreases d
  {
    if d > 0 {
      BurstRuns(cfg, keys, k, rs, i, d - 1);
      BurstAt(cfg, keys, k, rs, i + d - 1);
    }
    BurstAt(cfg, keys, k, rs, i + d);
  }

  /** Outside a burst the most recent entries are sent unless scores are called for. */
  lemma NoBurst(cfg: Settings, keys: set<NodeID>, k: nat, rs: seq<Round>, i: nat)
    requires Steady(cfg, keys, k, rs) && cfg.strategy.AdaptiveRecentScore? && i < |rs| && 0 < k <= |keys|
    requires rs[i].before.burst == 0 && !Pressing(cfg, rs[i].load, |keys|, k)
    ensures rs[i].vv.entries != map[] && StrategyOf(cfg, k, rs[i]) == Recent
    ensures i + 1 < |rs| ==> rs[i + 1].before.burst == 0
  {
    BurstAt(cfg, keys, k, rs, i);
  }

  /** Where nothing is ever hot: from a fresh start, as long as the vector has the same entries, scores are
      used always or never, whatever the length of a burst. */
  lemma {:induction false} AlwaysOrNever(cfg: Settings, keys: set<NodeID>, k: nat, rs: seq<Round>, i: nat)
    requires Steady(cfg, keys, k, rs) && cfg.strategy.AdaptiveRecentScore? && i < |rs| && 0 < k <= |keys|
    requires rs[0].before.burst == 0 && forall j | 0 <= j < |rs| :: rs[j].load.hotspot == 0.0
    ensures rs[i].vv.entries != map[]
    ensures StrategyOf(cfg, k, rs[i]) == if Pressing(cfg, Load(0.0, 0.0), |keys|, k) then Score else Recent
    ensures !Pressing(cfg, Load(0.0, 0.0), |keys|, k) ==> rs[i].before.burst == 0
  {
    BurstAt(cfg, keys, k, rs, i);
    if i > 0 {
      AlwaysOrNever(cfg, keys, k, rs, i - 1);
      BurstAt(cfg, keys, k, rs, i - 1);
    }
  }

  // ---- What coordination shifts ----

  function Heat(cfg: Settings, load: Load): real {
    Unit(0.6 * load.hotspot + 0.25 * load.activity + 0.15 * cfg.hotNodeRatio)
  }

  /** The nearest number between these. */
  function Within(x: real, lo: real, hi: real): real { MinReal(hi, MaxReal(lo, x)) }

  /** Under coordination heat favours activity; losses and distance favour recency; what has waited gains a
      tenth while little is hot, and three hundredths otherwise. */
  function ShiftedMix(cfg: Settings, load: Load): Mix {
    Mix(Within(cfg.seqWeight + 0.10 * Heat(cfg, load), 0.10, 0.70), 0.0,
        Within(cfg.recentWeight + 0.08 * cfg.lossRate + 0.05 * MinReal(1.0, cfg.diameterMs / 250.0), 0.15, 0.75), 0.0,
        0.0,
        Within(cfg.fairWeight + (if Heat(cfg, load) < 0.35 then 0.10 else 0.03), 0.10, 0.50))
  }

  /** The mix by which a Score node compares its entries. */
  function BuildMix(cfg: Settings, load: Load): Mix {
    if cfg.coordinated then ShiftedMix(cfg, load)
    else if cfg.seqWeight <= 0.0 && cfg.recentWeight <= 0.0 && cfg.fairWeight <= 0.0
    then Mix(0.35, 0.0, 0.45, 0.0, 0.0, 0.20)
    else Mix(MaxReal(0.0, cfg.seqWeight), 0.0, MaxReal(0.0, cfg.recentWeight), 0.0, 0.0, MaxReal(0.0, cfg.fairWeight))
  }

  lemma BuildMixIs(cfg: Settings, k: nat, r: Round)
    requires r.vv.entries != map[] && cfg.strategy.Score?
    ensures ScoreMix(RoundTuning(cfg, k, r)) == BuildMix(cfg, r.load)
  {
  }

  lemma RoundParts(cfg: Settings, k: nat, r: Round)
    requires r.vv.entries != map[] && cfg.strategy.Score?
    ensures var req, tune := RoundRequest(cfg, k, r), RoundTuning(cfg, k, r);
            && req.maxEntries == k && req.strategy.Score? && req.preferred == cfg.id
            && tune.missedRounds == Known(r.before.missed, r.vv)
  {
  }

  lemma OwnIs(cfg: Settings, vv: VersionVector, req: Request)
    requires req.preferred == cfg.id
    ensures Preselected(vv, req) == Pinned(cfg, vv.entries.Keys)
  {
  }

  /** The call of selectSubset a Score node makes. */
  lemma ScoreCall(cfg: Settings, keys: set<NodeID>, k: nat, r: Round) returns (req: Request, tune: Tuning)
    requires IsBuild(cfg, r) && Chooses(cfg, keys, k, r) && cfg.strategy.Score?
    ensures req.maxEntries == k && req.strategy.Score? && Preselected(r.vv, req) == Pinned(cfg, keys)
    ensures ScoreMix(tune) == BuildMix(cfg, r.load) && tune.missedRounds == Known(r.before.missed, r.vv)
    ensures r.sent.entries.Keys == SelectKeys(r.vv, req, FiguresOf(r.vv, req, tune), r.chance.outside)
  {
    req, tune := RoundRequest(cfg, k, r), RoundTuning(cfg, k, r);
    BuildChooses(cfg, keys, k, r);
    RoundParts(cfg, k, r);
    BuildMixIs(cfg, k, r);
    OwnIs(cfg, r.vv, req);
  }

  /** What a Score node sends: its own entry, and each entry that fewer others beat than there are slots
      left. */
  lemma ScoreBuild(cfg: Settings, keys: set<NodeID>, k: nat, r: Round, rule: Rule, own: set<NodeID>)
    requires IsBuild(cfg, r) && Chooses(cfg, keys, k, r) && cfg.strategy.Score? && own == Pinned(cfg, keys)
    requires rule.mix == BuildMix(cfg, r.load) && rule.missed == Known(r.before.missed, r.vv) && !rule.stalerFirst
    requires Measures(r.vv, rule)
    ensures |own| <= k && r.sent.entries.Keys == own + Winners(r.vv, rule, r.vv.entries.Keys - own, k - |own|)
  {
    var req, tune := ScoreCall(cfg, keys, k, r);
    ScoreExact(r.vv, req, tune, r.chance.outside, rule, own);
  }

  // ---- The reserve and the hot share ----

  /** Under coordination one more slot is kept for the nodes whose turn it is while little is hot, but no more
      than a third. */
  function FairShare(cfg: Settings, load: Load, k: nat): nat {
    if cfg.coordinated && Heat(cfg, load) < 0.35 then Min(cfg.minFairEntries + 1, Max(1, k / 3)) else cfg.minFairEntries
  }

  /** Heat and losses favour recent entries, distance those whose turn it is. */
  function HotRatio(cfg: Settings, load: Load): real {
    if cfg.coordinated
    then Within(cfg.hotRatio + 0.12 * Heat(cfg, load) + 0.08 * cfg.lossRate
                - 0.03 * MinReal(1.0, cfg.diameterMs / 250.0), 0.55, 0.92)
    else Within(cfg.hotRatio, 0.50, 0.95)
  }

  /** The slots kept for the nodes nearest to the cursor. */
  predicate BuildReserve(cfg: Settings, load: Load, k: nat, reserve: nat) {
    if k < 4 then reserve == 0 else reserve == Min(k - 1, Max(1, FairShare(cfg, load, k)))
  }

  lemma FairEntriesAre(cfg: Settings, load: Load, k: nat)
    requires UsesHotRatio(cfg.strategy) || UsesWeights(cfg.strategy)
    ensures FairEntries(cfg, load, cfg.strategy, k) == FairShare(cfg, load, k)
  {
  }

  lemma HybridParts(cfg: Settings, k: nat, r: Round)
    requires r.vv.entries != map[] && cfg.strategy.Hybrid?
    ensures var req, tune := RoundRequest(cfg, k, r), RoundTuning(cfg, k, r);
            && req.maxEntries == k && req.strategy.Hybrid? && req.preferred == cfg.id
            && req.startIndex == r.before.cursor && req.recentEntries == cfg.recentEntries
            && req.minFairEntries == FairShare(cfg, r.load, k)
            && ClampReal(tune.hotRatio, 0.50, 0.95) == HotRatio(cfg, r.load)
  {
    FairEntriesAre(cfg, r.load, k);
  }

  lemma SlotsFrom(cfg: Settings, load: Load, req: Request, tune: Tuning, k: nat, own: nat, reserve: nat, share: nat,
                  first: nat)
    requires req.maxEntries == k && req.strategy.Hybrid? && req.recentEntries == cfg.recentEntries
    requires ClampReal(tune.hotRatio, 0.50, 0.95) == HotRatio(cfg, load) && RaisedBy(k, HotRatio(cfg, load), share)
    requires own + first == Max(Min(share, k - reserve), Min(k, own + Max(1, cfg.recentEntries)))
    ensures FirstSlots(req, tune, own, reserve, share, first)
  {
  }

  /** The call of selectSubset a Hybrid node makes. */
  lemma HybridCall(cfg: Settings, keys: set<NodeID>, k: nat, r: Round) returns (req: Request, tune: Tuning)
    requires IsBuild(cfg, r) && Chooses(cfg, keys, k, r) && cfg.strategy.Hybrid?
    ensures req.maxEntries == k && req.strategy.Hybrid? && Preselected(r.vv, req) == Pinned(cfg, keys)
    ensures req.startIndex == r.before.cursor && req.recentEntries == cfg.recentEntries
    ensures req.minFairEntries == FairShare(cfg, r.load, k)
    ensures ClampReal(tune.hotRatio, 0.50, 0.95) == HotRatio(cfg, r.load)
    ensures r.sent.entries.Keys == SelectKeys(r.vv, req, FiguresOf(r.vv, req, tune), r.chance.outside)
  {
    req, tune := RoundRequest(cfg, k, r), RoundTuning(cfg, k, r);
    BuildChooses(cfg, keys, k, r);
    HybridParts(cfg, k, r);
    OwnIs(cfg, r.vv, req);
  }

  /** What a Hybrid node sends: its own entry and the most recent ones, up to the hot share; those nearest to
      the cursor, as many as are kept free; and the most recent of the rest. */
  lemma HybridBuild(cfg: Settings, keys: set<NodeID>, k: nat, r: Round, own: set<NodeID>, reserve: nat, share: nat,
                    first: nat)
    returns (recent: set<NodeID>, served: set<NodeID>)
    requires IsBuild(cfg, r) && Chooses(cfg, keys, k, r) && cfg.strategy.Hybrid? && own == Pinned(cfg, keys)
    requires BuildReserve(cfg, r.load, k, reserve) && RaisedBy(k, HotRatio(cfg, r.load), share)
    requires |own| + first == Max(Min(share, k - reserve), Min(k, |own| + Max(1, cfg.recentEntries)))
    ensures HybridStages(r.vv, r.before.cursor, k, own, first, reserve, recent, served, r.sent.entries.Keys)
  {
    var req, tune := HybridCall(cfg, keys, k, r);
    SlotsFrom(cfg, r.load, req, tune, k, |own|, reserve, share, first);
    recent, served := HybridExact(r.vv, req, tune, r.chance.outside, own, reserve, share, first);
  }

  // ---- What is kept, and what is renewed ----

  /** The build after a partial one. */
  predicate Follows(cfg: Settings, keys: set<NodeID>, k: nat, r: Round, next: Round) {
    Chooses(cfg, keys, k, r) && next.before == After(cfg, r) && r.sent.entries != map[]
  }

  lemma Remembered(cfg: Settings, keys: set<NodeID>, k: nat, r: Round, next: Round)
    requires Follows(cfg, keys, k, r, next)
    ensures next.before.lastSelected == RecentNodes(r.sent) && next.before.lastSelected != []
    ensures Elements(next.before.lastSelected) == r.sent.entries.Keys
  {
    ListingFacts(RecencyOrder(r.sent), r.sent.entries.Keys);
    ListingSize(RecencyOrder(r.sent), r.sent.entries.Keys);
  }

  lemma StickyParts(cfg: Settings, k: nat, r: Round, share: nat)
    requires r.vv.entries != map[] && cfg.strategy.StickyRecent? && r.before.lastSelected != [] && k > 1
    requires IsShare(k, cfg.stickyMinHold, cfg.stickyHoldRatio, share)
    ensures var req := RoundRequest(cfg, k, r);
            && req.maxEntries == k && req.strategy.StickyRecent? && req.preferred == cfg.id
            && req.sticky == r.before.lastSelected && req.stickyBudget == share
  {
    ShareIs(k, cfg.stickyMinHold, cfg.stickyHoldRatio);
    ShareUnique(k, cfg.stickyMinHold, cfg.stickyHoldRatio, share, Share(k, cfg.stickyMinHold, cfg.stickyHoldRatio));
  }

  /** A StickyRecent node sends again, of the entries it sent last, at least the configured share of its slots,
      or all it still knows. */
  lemma StickyHolds(cfg: Settings, keys: set<NodeID>, k: nat, r: Round, next: Round, share: nat)
    requires IsBuild(cfg, next) && Follows(cfg, keys, k, r, next) && Chooses(cfg, keys, k, next)
    requires cfg.strategy.StickyRecent? && k > 1 && IsShare(k, cfg.stickyMinHold, cfg.stickyHoldRatio, share)
    ensures |next.sent.entries.Keys * (r.sent.entries.Keys * keys)| >=
            Min(Min(share, k - |Pinned(cfg, keys)|), |r.sent.entries.Keys * keys|)
  {
    Remembered(cfg, keys, k, r, next);
    var req, fig := StickyCall(cfg, keys, k, next, share);
    KeepsSticky(next.vv, req, fig, next.chance.outside, r.sent.entries.Keys);
  }

  lemma StickyCall(cfg: Settings, keys: set<NodeID>, k: nat, r: Round, share: nat)
    returns (req: Request, fig: Figures)
    requires IsBuild(cfg, r) && Chooses(cfg, keys, k, r) && cfg.strategy.StickyRecent? && r.before.lastSelected != []
    requires k > 1 && IsShare(k, cfg.stickyMinHold, cfg.stickyHoldRatio, share)
    ensures req.maxEntries == k && req.strategy.StickyRecent? && Preselected(r.vv, req) == Pinned(cfg, keys)
    ensures req.sticky == r.before.lastSelected && req.stickyBudget == share
    ensures r.sent.entries.Keys == SelectKeys(r.vv, req, fig, r.chance.outside)
  {
    req, fig := RoundRequest(cfg, k, r), RoundFigures(cfg, k, r);
    StickyParts(cfg, k, r, share);
    BuildChooses(cfg, keys, k, r);
    OwnIs(cfg, r.vv, req);
  }

  lemma KeepsSticky(vv: VersionVector, req: Request, fig: Figures, env: Outside, last: set<NodeID>)
    requires 0 < req.maxEntries <= |vv.entries| && req.strategy.StickyRecent? && Elements(req.sticky) == last
    ensures |Preselected(vv, req)| <= 1
    ensures Keeps(SelectKeys(vv, req, fig, env), last * vv.entries.Keys,
                  Min(req.stickyBudget, req.maxEntries - |Preselected(vv, req)|))
  {
    OwnPartial(vv, req);
    StickySelects(vv, req, fig, env);
    StickyKept(vv, req, Preselected(vv, req));
    WantedAre(vv.entries.Keys, req.sticky);
  }

  lemma WantedAre(known: set<NodeID>, order: seq<NodeID>)
    ensures Wanted(known, order) == Elements(order) * known
  {
  }

  lemma NoveltyParts(cfg: Settings, k: nat, r: Round, share: nat)
    requires r.vv.entries != map[] && cfg.strategy.RecentNoveltyQuota? && k > 1
    requires IsShare(k, cfg.quotaMinEntries, cfg.quotaRatio, share)
    ensures var req := RoundRequest(cfg, k, r);
            && req.maxEntries == k && req.strategy.RecentNoveltyQuota? && req.preferred == cfg.id
            && req.noveltyBase == r.before.lastSelected && req.noveltyBudget == share
  {
    ShareIs(k, cfg.quotaMinEntries, cfg.quotaRatio);
    ShareUnique(k, cfg.quotaMinEntries, cfg.quotaRatio, share, Share(k, cfg.quotaMinEntries, cfg.quotaRatio));
  }

  /** A RecentNoveltyQuota node sends at least the configured share of entries it did not send last, or all
      there are. */
  lemma NoveltyBrings(cfg: Settings, keys: set<NodeID>, k: nat, r: Round, next: Round, share: nat)
    requires IsBuild(cfg, next) && Follows(cfg, keys, k, r, next) && Chooses(cfg, keys, k, next)
    requires cfg.strategy.RecentNoveltyQuota? && k > 1 && IsShare(k, cfg.quotaMinEntries, cfg.quotaRatio, share)
    ensures |next.sent.entries.Keys * (keys - r.sent.entries.Keys)| >=
            Min(Min(share, k - |Pinned(cfg, keys)|), |keys - r.sent.entries.Keys|)
  {
    Remembered(cfg, keys, k, r, next);
    var req, fig := NoveltyCall(cfg, keys, k, next, share);
    KeepsNovel(next.vv, req, fig, next.chance.outside, r.sent.entries.Keys);
  }

  lemma NoveltyCall(cfg: Settings, keys: set<NodeID>, k: nat, r: Round, share: nat)
    returns (req: Request, fig: Figures)
    requires IsBuild(cfg, r) && Chooses(cfg, keys, k, r) && cfg.strategy.RecentNoveltyQuota?
    requires k > 1 && IsShare(k, cfg.quotaMinEntries, cfg.quotaRatio, share)
    ensures req.maxEntries == k && req.strategy.RecentNoveltyQuota? && Preselected(r.vv, req) == Pinned(cfg, keys)
    ensures req.noveltyBase == r.before.lastSelected && req.noveltyBudget == share
    ensures r.sent.entries.Keys == SelectKeys(r.vv, req, fig, r.chance.outside)
  {
    req, fig := RoundRequest(cfg, k, r), RoundFigures(cfg, k, r);
    NoveltyParts(cfg, k, r, share);
    BuildChooses(cfg, keys, k, r);
    OwnIs(cfg, r.vv, req);
  }

  lemma KeepsNovel(vv: VersionVector, req: Request, fig: Figures, env: Outside, last: set<NodeID>)
    requires 0 < req.maxEntries <= |vv.entries| && req.strategy.RecentNoveltyQuota? && Elements(req.noveltyBase) == last
    ensures |Preselected(vv, req)| <= 1
    ensures Keeps(SelectKeys(vv, req, fig, env), vv.entries.Keys - last,
                  Min(req.noveltyBudget, req.maxEntries - |Preselected(vv, req)|))
  {
    OwnPartial(vv, req);
    NoveltySelects(vv, req, fig, env);
    QuotaKept(vv, req, NoveltyNodes(vv, req), Preselected(vv, req));
    NoveltyIs(vv, req);
    WantedAre(vv.entries.Keys, NoveltyNodes(vv, req));
    assert Elements(NoveltyNodes(vv, req)) * vv.entries.Keys == vv.entries.Keys - last;
  }
}
