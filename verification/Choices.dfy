/** Exactly which entries each strategy selects, in terms of who comes before whom: the recency of
    entries, their distance from the cursor, and the trade-offs the scores stand for. */
module Choices {
  import opened Nodes
  import opened Orders
  import opened Numbers
  import opened VersionVectors
  import opened Selection
  import opened SelectionFacts
  import opened StrategyFacts
  import opened Scoring
  import opened Ranks
  import opened Tradeoffs
  import opened ClusterLaws

  /** These nodes, and the most recent k of the others. */
  function WithRecent(vv: VersionVector, sel: set<NodeID>, k: nat): set<NodeID> {
    sel + FirstOf(RecencyOrder(vv), vv.entries.Keys - sel, k)
  }

  /** These nodes, and the k of the others nearest to the cursor. */
  function WithNearest(vv: VersionVector, startIndex: nat, sel: set<NodeID>, k: nat): set<NodeID> {
    sel + FirstOf(TurnOrder(vv, startIndex), vv.entries.Keys - sel, k)
  }

  lemma RoomFits(max: nat, sel: set<NodeID>, k: nat)
    requires |sel| + k <= max
    ensures Room(max, sel, k) == k
  {
  }

  lemma WholeRoom(max: nat, sel: set<NodeID>)
    requires |sel| <= max
    ensures Room(max, sel, max) == max - |sel|
  {
  }

  /** When maxEntries are selected, a pass with nothing left adds nothing. */
  lemma NothingLeft(vv: VersionVector, req: Request, sel: set<NodeID>)
    requires |sel| == req.maxEntries
    ensures AddRoundRobin(vv, req, sel, Left(req, sel)) == sel
  {
  }

  // ---- Recency and turn ----

  lemma RecentCompletes(vv: VersionVector, req: Request, sel: set<NodeID>)
    requires Partial(vv, req, sel)
    ensures AddRecent(vv, req, sel, Left(req, sel)) == WithRecent(vv, sel, req.maxEntries - |sel|)
    ensures |WithRecent(vv, sel, req.maxEntries - |sel|)| == req.maxEntries
  {
    RecentAdded(vv, req, sel, Left(req, sel));
    RoomFits(req.maxEntries, sel, req.maxEntries - |sel|);
    RecentPass(vv, req, sel, Left(req, sel));
  }

  lemma TopUpExact(vv: VersionVector, req: Request, sel: set<NodeID>)
    requires Partial(vv, req, sel)
    ensures TopUp(vv, req, sel) == WithRecent(vv, sel, req.maxEntries - |sel|)
  {
    RecentCompletes(vv, req, sel);
    NothingLeft(vv, req, WithRecent(vv, sel, req.maxEntries - |sel|));
  }

  lemma OwnPartial(vv: VersionVector, req: Request)
    requires 0 < req.maxEntries <= |vv.entries|
    ensures Partial(vv, req, Preselected(vv, req)) && |Preselected(vv, req)| <= 1
  {
  }

  lemma RoundRobinSelects(vv: VersionVector, req: Request, fig: Figures, env: Outside)
    requires 0 < req.maxEntries && req.strategy.RoundRobin?
    ensures SelectKeys(vv, req, fig, env) == AddRoundRobin(vv, req, Preselected(vv, req), req.maxEntries)
  {
  }

  /** RoundRobin selects the preferred node and the nodes nearest to the cursor. */
  lemma RoundRobinExact(vv: VersionVector, req: Request, fig: Figures, env: Outside, own: set<NodeID>)
    requires 0 < req.maxEntries <= |vv.entries| && req.strategy.RoundRobin? && own == Preselected(vv, req)
    ensures |own| <= req.maxEntries
    ensures SelectKeys(vv, req, fig, env) == WithNearest(vv, req.startIndex, own, req.maxEntries - |own|)
  {
    OwnPartial(vv, req);
    RoundRobinSelects(vv, req, fig, env);
    TurnAdded(vv, req, own, req.maxEntries);
    WholeRoom(req.maxEntries, own);
  }

  lemma AdaptiveSelects(vv: VersionVector, req: Request, fig: Figures, env: Outside)
    requires 0 < req.maxEntries && req.strategy.AdaptiveRecentScore?
    ensures SelectKeys(vv, req, fig, env) == AddRecent(vv, req, Preselected(vv, req), req.maxEntries)
  {
  }

  /** AdaptiveRecentScore, when selectSubset is asked for it, the most recent ones. */
  lemma AdaptiveExact(vv: VersionVector, req: Request, fig: Figures, env: Outside, own: set<NodeID>)
    requires 0 < req.maxEntries <= |vv.entries| && req.strategy.AdaptiveRecentScore? && own == Preselected(vv, req)
    ensures |own| <= req.maxEntries
    ensures SelectKeys(vv, req, fig, env) == WithRecent(vv, own, req.maxEntries - |own|)
  {
    OwnPartial(vv, req);
    AdaptiveSelects(vv, req, fig, env);
    RecentAdded(vv, req, own, req.maxEntries);
    WholeRoom(req.maxEntries, own);
  }

  /** What is kept of the previous entries: as many of those still known as the budget allows. */
  ghost predicate Kept(vv: VersionVector, req: Request, own: set<NodeID>, kept: set<NodeID>)
    requires |own| <= req.maxEntries
  {
    Gains(kept, own, Wanted(vv.entries.Keys, req.sticky) - own, Min(req.stickyBudget, req.maxEntries - |own|))
  }

  lemma StickyKeeps(vv: VersionVector, req: Request, own: set<NodeID>)
    requires Partial(vv, req, own)
    ensures var kept := AddSticky(vv, req, own, Min(req.stickyBudget, Left(req, own)));
            Kept(vv, req, own, kept) && Partial(vv, req, kept)
  {
    var budget := Min(req.stickyBudget, req.maxEntries - |own|);
    RoomFits(req.maxEntries, own, budget);
    FillGains(vv.entries.Keys, req.sticky, 0, own, budget);
    MissingIs(vv.entries.Keys, req.sticky, own);
    PartPass(vv, req, req.sticky, own, budget);
  }

  lemma RecentRest(vv: VersionVector, req: Request, kept: set<NodeID>)
    requires Partial(vv, req, kept)
    ensures AddRecent(vv, req, kept, req.maxEntries) == WithRecent(vv, kept, req.maxEntries - |kept|)
  {
    RecentAdded(vv, req, kept, req.maxEntries);
    WholeRoom(req.maxEntries, kept);
  }

  lemma StickySelects(vv: VersionVector, req: Request, fig: Figures, env: Outside)
    requires 0 < req.maxEntries && req.strategy.StickyRecent?
    ensures SelectKeys(vv, req, fig, env) == SelectStickyRecent(vv, req, Preselected(vv, req))
  {
  }

  /** Recent and StickyRecent select what is kept of the previous entries, and the most recent others. */
  lemma RecentExact(vv: VersionVector, req: Request, fig: Figures, env: Outside, own: set<NodeID>)
    returns (kept: set<NodeID>)
    requires 0 < req.maxEntries <= |vv.entries| && (req.strategy.Recent? || req.strategy.StickyRecent?)
    requires own == Preselected(vv, req)
    ensures |own| <= req.maxEntries && Kept(vv, req, own, kept) && |kept| <= req.maxEntries
    ensures SelectKeys(vv, req, fig, env) == WithRecent(vv, kept, req.maxEntries - |kept|)
  {
    OwnPartial(vv, req);
    kept := AddSticky(vv, req, own, Min(req.stickyBudget, Left(req, own)));
    StickyKeeps(vv, req, own);
    if req.strategy.Recent? {
      RecentKeys(vv, req, fig, env);
      RecentRest(vv, req, kept);
    } else {
      StickySelects(vv, req, fig, env);
      TopUpExact(vv, req, kept);
    }
  }

  // ---- The quota for novelty ----

  /** The k most recent of these entries that were not selected the last time. */
  function WithNovel(vv: VersionVector, base: set<NodeID>, sel: set<NodeID>, k: nat): set<NodeID> {
    sel + FirstOf(RecencyOrder(vv), vv.entries.Keys - base - sel, k)
  }

  lemma NovelAdded(vv: VersionVector, req: Request, sel: set<NodeID>, k: nat)
    requires |sel| + k <= req.maxEntries
    ensures Fill(vv.entries.Keys, NoveltyNodes(vv, req), sel, Room(req.maxEntries, sel, k)) ==
            WithNovel(vv, Elements(req.noveltyBase), sel, k)
  {
    RoomFits(req.maxEntries, sel, k);
    FirstAdded(vv.entries.Keys, vv.entries.Keys - Elements(req.noveltyBase), RecencyOrder(vv), sel, k);
  }

  lemma NoveltySelects(vv: VersionVector, req: Request, fig: Figures, env: Outside)
    requires 0 < req.maxEntries && req.strategy.RecentNoveltyQuota?
    ensures SelectKeys(vv, req, fig, env) ==
            SelectRecentQuota(vv, req, NoveltyNodes(vv, req), Preselected(vv, req))
  {
  }

  lemma RecentStep(vv: VersionVector, req: Request, sel: set<NodeID>, k: nat)
    requires Partial(vv, req, sel) && |sel| + k <= req.maxEntries
    ensures AddRecent(vv, req, sel, k) == WithRecent(vv, sel, k)
    ensures |WithRecent(vv, sel, k)| == |sel| + k && WithRecent(vv, sel, k) <= vv.entries.Keys
  {
    RecentAdded(vv, req, sel, k);
    RoomFits(req.maxEntries, sel, k);
    RecentPass(vv, req, sel, k);
  }

  lemma QuotaSlots(req: Request, own: set<NodeID>, k: nat, quota: nat, first: set<NodeID>)
    requires |own| + k + quota == req.maxEntries && quota == Min(req.noveltyBudget, k + quota)
    requires |first| == |own| + k
    ensures Min(req.noveltyBudget, Left(req, own)) == quota && Min(quota, Left(req, first)) == quota
    ensures k == if req.maxEntries > |own| + quota then req.maxEntries - |own| - quota else 0
  {
  }

  lemma QuotaStages(vv: VersionVector, req: Request, extra: seq<NodeID>, own: set<NodeID>, k: nat, quota: nat,
                    first: set<NodeID>, second: set<NodeID>)
    requires |own| + k + quota == req.maxEntries && quota == Min(req.noveltyBudget, k + quota)
    requires first == AddRecent(vv, req, own, k) && |first| == |own| + k
    requires second == Fill(vv.entries.Keys, extra, first, Room(req.maxEntries, first, quota))
    ensures SelectRecentQuota(vv, req, extra, own) == TopUp(vv, req, second)
  {
    QuotaSlots(req, own, k, quota, first);
    var recentBudget := if req.maxEntries > |own| + quota then req.maxEntries - |own| - quota else 0;
    assert AddRecent(vv, req, own, recentBudget) == first;
  }

  lemma NovelStage(vv: VersionVector, req: Request, first: set<NodeID>, quota: nat, second: set<NodeID>)
    requires Partial(vv, req, first) && |first| + quota == req.maxEntries
    requires second == WithNovel(vv, Elements(req.noveltyBase), first, quota)
    ensures second == Fill(vv.entries.Keys, NoveltyNodes(vv, req), first, Room(req.maxEntries, first, quota))
    ensures Partial(vv, req, second)
  {
    NovelAdded(vv, req, first, quota);
    PartPass(vv, req, NoveltyNodes(vv, req), first, quota);
  }

  lemma QuotaExact(vv: VersionVector, req: Request, own: set<NodeID>, k: nat, quota: nat, first: set<NodeID>,
                   second: set<NodeID>)
    requires Partial(vv, req, own) && |own| + k + quota == req.maxEntries && quota == Min(req.noveltyBudget, k + quota)
    requires first == WithRecent(vv, own, k) && second == WithNovel(vv, Elements(req.noveltyBase), first, quota)
    ensures |second| <= req.maxEntries
    ensures SelectRecentQuota(vv, req, NoveltyNodes(vv, req), own) ==
            WithRecent(vv, second, req.maxEntries - |second|)
  {
    RecentStep(vv, req, own, k);
    NovelStage(vv, req, first, quota, second);
    QuotaStages(vv, req, NoveltyNodes(vv, req), own, k, quota, first, second);
    TopUpExact(vv, req, second);
  }

  /** RecentNoveltyQuota fills the slots outside its quota by recency, the quota with the most recent of
      those not selected the last time, and what is left by recency. */
  lemma NoveltyExact(vv: VersionVector, req: Request, fig: Figures, env: Outside, own: set<NodeID>, quota: nat)
    returns (first: set<NodeID>, second: set<NodeID>)
    requires 0 < req.maxEntries <= |vv.entries| && req.strategy.RecentNoveltyQuota? && own == Preselected(vv, req)
    requires |own| <= req.maxEntries ==> quota == Min(req.noveltyBudget, req.maxEntries - |own|)
    ensures |own| + quota <= req.maxEntries && first == WithRecent(vv, own, req.maxEntries - |own| - quota)
    ensures second == WithNovel(vv, Elements(req.noveltyBase), first, quota) && |second| <= req.maxEntries
    ensures SelectKeys(vv, req, fig, env) == WithRecent(vv, second, req.maxEntries - |second|)
  {
    OwnPartial(vv, req);
    NoveltySelects(vv, req, fig, env);
    first := WithRecent(vv, own, req.maxEntries - |own| - quota);
    second := WithNovel(vv, Elements(req.noveltyBase), first, quota);
    QuotaExact(vv, req, own, req.maxEntries - |own| - quota, quota, first, second);
  }

  // ---- The strategies with a fairness reserve ----

  /** What the scoring pass of the strategy adds to a selection with k slots. */
  ghost predicate Adds(vv: VersionVector, req: Request, env: Outside, rule: Rule, sel: set<NodeID>, k: nat,
                       out: set<NodeID>)
    requires sel <= vv.entries.Keys
  {
    match req.strategy
    case Hybrid => out == WithRecent(vv, sel, k)
    case AgeScore => out == sel + Winners(vv, rule, vv.entries.Keys - sel, k)
    case DeficitScore => out == sel + Winners(vv, rule, vv.entries.Keys - sel, k)
    case ClusterScore => exists picks :: |picks| == k && Greedy(vv, env, rule, sel, picks) && Makes(out, sel, picks)
    case ClusterHybrid =>
      var led := sel + FirstOf(RecencyOrder(vv), Newcomers(vv, env, sel), k);
      |led| <= |sel| + k && out == WithRecent(vv, led, |sel| + k - |led|)
    case _ => false
  }

  /** The rule the strategy compares by, if it has one. */
  predicate IsRuleFor(req: Request, rule: Rule) {
    match req.strategy
    case AgeScore => IsAgeRule(req, rule)
    case DeficitScore => IsDeficitRule(req, rule)
    case ClusterScore => IsClusterRule(req, rule)
    case _ => true
  }

  lemma ClusterHybridAdds(vv: VersionVector, req: Request, tune: Tuning, env: Outside, rule: Rule, sel: set<NodeID>,
                          k: nat)
    requires Partial(vv, req, sel) && |sel| + k <= req.maxEntries && req.strategy.ClusterHybrid?
    ensures Adds(vv, req, env, rule, sel, k, AddRanked(vv, req, FiguresOf(vv, req, tune), env, sel, k))
  {
    RoomFits(req.maxEntries, sel, k);
    var led, left := ClusterRecentAdded(vv, req, env, sel, k);
  }

  lemma ClusterScoreAdds(vv: VersionVector, req: Request, tune: Tuning, env: Outside, rule: Rule, sel: set<NodeID>,
                         k: nat)
    requires Partial(vv, req, sel) && |sel| + k <= req.maxEntries && req.strategy.ClusterScore?
    requires Preselected(vv, req) <= sel && IsClusterRule(req, rule) && Measures(vv, rule)
    ensures Adds(vv, req, env, rule, sel, k, AddRanked(vv, req, FiguresOf(vv, req, tune), env, sel, k))
  {
    RoomFits(req.maxEntries, sel, k);
    var picks := ClusterScoreAdded(vv, req, tune, env, rule, sel, k);
    assert Makes(AddClusterScore(vv, req, FiguresOf(vv, req, tune), env, sel, k), sel, picks);
  }

  lemma RankedAdds(vv: VersionVector, req: Request, tune: Tuning, env: Outside, rule: Rule, sel: set<NodeID>, k: nat)
    requires Partial(vv, req, sel) && |sel| + k <= req.maxEntries && KeepsReserve(req.strategy)
    requires Preselected(vv, req) <= sel && IsRuleFor(req, rule) && Measures(vv, rule)
    ensures Adds(vv, req, env, rule, sel, k, AddRanked(vv, req, FiguresOf(vv, req, tune), env, sel, k))
  {
    RoomFits(req.maxEntries, sel, k);
    match req.strategy {
      case Hybrid => RecentStep(vv, req, sel, k);
      case AgeScore => AgeScoreAdded(vv, req, tune, rule, sel, k);
      case DeficitScore => DeficitScoreAdded(vv, req, tune, rule, sel, k);
      case ClusterScore => ClusterScoreAdds(vv, req, tune, env, rule, sel, k);
      case ClusterHybrid => ClusterHybridAdds(vv, req, tune, env, rule, sel, k);
    }
  }

  lemma NearestStep(vv: VersionVector, req: Request, sel: set<NodeID>, k: nat)
    requires Partial(vv, req, sel) && |sel| + k <= req.maxEntries
    ensures AddRoundRobin(vv, req, sel, k) == WithNearest(vv, req.startIndex, sel, k)
    ensures |WithNearest(vv, req.startIndex, sel, k)| == |sel| + k
    ensures sel <= WithNearest(vv, req.startIndex, sel, k) <= vv.entries.Keys
  {
    TurnAdded(vv, req, sel, k);
    RoomFits(req.maxEntries, sel, k);
    RoundRobinPass(vv, req, sel, k);
  }

  /** The slots kept for the nodes nearest to the cursor: as many as configured, at least one, but never
      all, and none if there are fewer than four. */
  predicate KeptFree(req: Request, reserve: nat) {
    if req.maxEntries < 4 then reserve == 0 else reserve == Min(req.maxEntries - 1, Max(1, req.minFairEntries))
  }

  /** The slots of the first pass. Scored candidates get what the reserve leaves, or everything if it leaves
      nothing; recent entries get the hot share of all slots, less what the reserve needs of it, but at least
      as many slots as configured. */
  ghost predicate FirstSlots(req: Request, tune: Tuning, own: nat, reserve: nat, share: nat, first: nat) {
    var max := req.maxEntries;
    var scored := if max > own + reserve then max - own - reserve else max - own;
    match req.strategy
    case Hybrid =>
      && RaisedBy(max, ClampReal(tune.hotRatio, 0.50, 0.95), share)
      && own + first == Max(Min(share, max - reserve), Min(max, own + Max(1, req.recentEntries)))
    case ClusterHybrid => first == Min(max - own, Max(scored, Min(max, Max(1, req.recentEntries))))
    case _ => first == scored
  }

  lemma HotFigureIs(req: Request, tune: Tuning, share: nat)
    requires RaisedBy(req.maxEntries, ClampReal(tune.hotRatio, 0.50, 0.95), share)
    ensures HotFigure(req, tune) == share
  {
    RaisedUp(req.maxEntries, ClampReal(tune.hotRatio, 0.50, 0.95), share,
             req.maxEntries as real * ClampReal(tune.hotRatio, 0.50, 0.95));
  }

  lemma HotTargetIs(req: Request, share: nat, own: nat, reserve: nat)
    requires 0 < req.maxEntries && own <= 1 && reserve == Reserve(req)
    ensures HotTarget(req, share, own) ==
            Max(Min(share, req.maxEntries - reserve), Min(req.maxEntries, own + Max(1, req.recentEntries)))
  {
  }

  lemma FirstSlotsAre(req: Request, tune: Tuning, own: nat, reserve: nat, share: nat, first: nat)
    requires 0 < req.maxEntries && own <= 1 && KeptFree(req, reserve) && KeepsReserve(req.strategy)
    requires FirstSlots(req, tune, own, reserve, share, first)
    ensures own + first <= req.maxEntries && reserve == Reserve(req)
    ensures first == Min(req.maxEntries - own, FirstBudget(req, HotFigure(req, tune), own))
  {
    if req.strategy.Hybrid? {
      HotFigureIs(req, tune, share);
      HotTargetIs(req, share, own, reserve);
    }
  }

  lemma FewerSlots(vv: VersionVector, req: Request, fig: Figures, env: Outside, sel: set<NodeID>, budget: nat)
    requires |sel| <= req.maxEntries
    ensures AddRanked(vv, req, fig, env, sel, budget) ==
            AddRanked(vv, req, fig, env, sel, Min(req.maxEntries - |sel|, budget))
  {
    assert Room(req.maxEntries, sel, budget) == Room(req.maxEntries, sel, Min(req.maxEntries - |sel|, budget));
  }

  lemma ReservedUnfolds(vv: VersionVector, req: Request, fig: Figures, env: Outside, own: set<NodeID>, budget: nat,
                        k: nat, scored: set<NodeID>, served: set<NodeID>, all: set<NodeID>)
    requires scored == AddRanked(vv, req, fig, env, own, budget)
    requires k == Min(Reserve(req), Left(req, scored)) && served == AddRoundRobin(vv, req, scored, k)
    requires all == AddRanked(vv, req, fig, env, served, Left(req, served)) && |all| == req.maxEntries
    ensures SelectReserved(vv, req, fig, env, own, budget) == all
  {
    NothingLeft(vv, req, all);
  }

  lemma ScoredStage(vv: VersionVector, req: Request, tune: Tuning, env: Outside, rule: Rule, sel: set<NodeID>,
                    budget: nat, k: nat) returns (out: set<NodeID>)
    requires Partial(vv, req, sel) && KeepsReserve(req.strategy) && Preselected(vv, req) <= sel
    requires IsRuleFor(req, rule) && Measures(vv, rule) && k == Min(req.maxEntries - |sel|, budget)
    ensures out == AddRanked(vv, req, FiguresOf(vv, req, tune), env, sel, budget)
    ensures Adds(vv, req, env, rule, sel, k, out)
    ensures Partial(vv, req, out) && sel <= out && |out| == |sel| + k
  {
    out := AddRanked(vv, req, FiguresOf(vv, req, tune), env, sel, k);
    FewerSlots(vv, req, FiguresOf(vv, req, tune), env, sel, budget);
    RankedAdds(vv, req, tune, env, rule, sel, k);
    RankedFills(vv, req, FiguresOf(vv, req, tune), env, sel, k);
  }

  lemma LeftIs(req: Request, sel: set<NodeID>)
    requires |sel| <= req.maxEntries
    ensures Left(req, sel) == req.maxEntries - |sel|
  {
  }

  lemma SlotsServed(req: Request, scored: set<NodeID>, reserve: nat, k: nat)
    requires |scored| <= req.maxEntries && reserve == Reserve(req) && k == Min(reserve, req.maxEntries - |scored|)
    ensures k == Min(Reserve(req), Left(req, scored)) && |scored| + k <= req.maxEntries
  {
  }

  lemma ServedStage(vv: VersionVector, req: Request, scored: set<NodeID>, k: nat, served: set<NodeID>)
    requires Partial(vv, req, scored) && |scored| + k <= req.maxEntries
    requires served == WithNearest(vv, req.startIndex, scored, k)
    ensures served == AddRoundRobin(vv, req, scored, k) && Partial(vv, req, served) && scored <= served
  {
    NearestStep(vv, req, scored, k);
  }

  lemma ReservedStages(vv: VersionVector, req: Request, tune: Tuning, env: Outside, rule: Rule, own: set<NodeID>,
                       reserve: nat, budget: nat, first: nat)
    returns (scored: set<NodeID>, served: set<NodeID>, all: set<NodeID>)
    requires Partial(vv, req, own) && KeepsReserve(req.strategy) && own == Preselected(vv, req)
    requires IsRuleFor(req, rule) && Measures(vv, rule)
    requires reserve == Reserve(req) && first == Min(req.maxEntries - |own|, budget)
    ensures Adds(vv, req, env, rule, own, first, scored) && |scored| == |own| + first <= req.maxEntries
    ensures served == WithNearest(vv, req.startIndex, scored, Min(reserve, req.maxEntries - |scored|))
    ensures served <= vv.entries.Keys && |served| <= req.maxEntries
    ensures Adds(vv, req, env, rule, served, req.maxEntries - |served|, all)
    ensures SelectReserved(vv, req, FiguresOf(vv, req, tune), env, own, budget) == all
  {
    scored := ScoredStage(vv, req, tune, env, rule, own, budget, first);
    var k := Min(reserve, req.maxEntries - |scored|);
    served := WithNearest(vv, req.startIndex, scored, k);
    SlotsServed(req, scored, reserve, k);
    ServedStage(vv, req, scored, k, served);
    LeftIs(req, served);
    all := ScoredStage(vv, req, tune, env, rule, served, Left(req, served), req.maxEntries - |served|);
    ReservedUnfolds(vv, req, FiguresOf(vv, req, tune), env, own, budget, k, scored, served, all);
  }

  lemma RankedFills(vv: VersionVector, req: Request, fig: Figures, env: Outside, sel: set<NodeID>, k: nat)
    requires Partial(vv, req, sel) && |sel| + k <= req.maxEntries
    ensures sel <= AddRanked(vv, req, fig, env, sel, k) <= vv.entries.Keys
    ensures |AddRanked(vv, req, fig, env, sel, k)| == |sel| + k
  {
    RoomFits(req.maxEntries, sel, k);
    RankedPass(vv, req, fig, env, sel, k);
  }

  lemma ReservedSelects(vv: VersionVector, req: Request, fig: Figures, env: Outside)
    requires 0 < req.maxEntries <= |vv.entries| && KeepsReserve(req.strategy)
    ensures |Preselected(vv, req)| <= req.maxEntries
    ensures SelectKeys(vv, req, fig, env) ==
            SelectReserved(vv, req, fig, env, Preselected(vv, req),
                           FirstBudget(req, fig.hotTarget, |Preselected(vv, req)|))
  {
  }

  /** The strategies with a fairness reserve: the first pass, the nodes nearest to the cursor, and the
      scoring pass again for what is left. */
  lemma ReservedExact(vv: VersionVector, req: Request, tune: Tuning, env: Outside, rule: Rule, own: set<NodeID>,
                      reserve: nat, share: nat, first: nat)
    returns (scored: set<NodeID>, served: set<NodeID>, all: set<NodeID>)
    requires 0 < req.maxEntries <= |vv.entries| && KeepsReserve(req.strategy) && own == Preselected(vv, req)
    requires IsRuleFor(req, rule) && Measures(vv, rule)
    requires KeptFree(req, reserve) && FirstSlots(req, tune, |own|, reserve, share, first)
    ensures own <= vv.entries.Keys && Adds(vv, req, env, rule, own, first, scored) && |scored| == |own| + first
    ensures |scored| <= req.maxEntries
    ensures served == WithNearest(vv, req.startIndex, scored, Min(reserve, req.maxEntries - |scored|))
    ensures served <= vv.entries.Keys && |served| <= req.maxEntries
    ensures Adds(vv, req, env, rule, served, req.maxEntries - |served|, all)
    ensures SelectKeys(vv, req, FiguresOf(vv, req, tune), env) == all
  {
    OwnPartial(vv, req);
    FirstSlotsAre(req, tune, |own|, reserve, share, first);
    ReservedSelects(vv, req, FiguresOf(vv, req, tune), env);
    scored, served, all := ReservedStages(vv, req, tune, env, rule, own, reserve,
                                          FirstBudget(req, HotFigure(req, tune), |own|), first);
  }

  /** Hybrid: the most recent entries up to the hot share, those nearest to the cursor, the most recent of the
      rest. */
  predicate HybridStages(vv: VersionVector, cursor: nat, max: nat, own: set<NodeID>, first: nat, reserve: nat,
                         recent: set<NodeID>, served: set<NodeID>, all: set<NodeID>)
  {
    && recent == WithRecent(vv, own, first) && |recent| == |own| + first <= max
    && served == WithNearest(vv, cursor, recent, Min(reserve, max - |recent|)) && |served| <= max
    && all == WithRecent(vv, served, max - |served|)
  }

  lemma HybridExact(vv: VersionVector, req: Request, tune: Tuning, env: Outside, own: set<NodeID>, reserve: nat,
                    share: nat, first: nat)
    returns (recent: set<NodeID>, served: set<NodeID>)
    requires 0 < req.maxEntries <= |vv.entries| && req.strategy.Hybrid? && own == Preselected(vv, req)
    requires KeptFree(req, reserve) && FirstSlots(req, tune, |own|, reserve, share, first)
    ensures HybridStages(vv, req.startIndex, req.maxEntries, own, first, reserve, recent, served,
                         SelectKeys(vv, req, FiguresOf(vv, req, tune), env))
  {
    var rule := MeasuresExist(vv, AGE_MIX, map[], 0, false);
    var all;
    recent, served, all := ReservedExact(vv, req, tune, env, rule, own, reserve, share, first);
  }
}
