/** What the scores decide: which node wins under Score, and what the boost of the preferred node
    does not change. */
module ScoringFacts {
  import opened Collections
  import opened Nodes
  import opened Orders
  import opened Numbers
  import opened VersionVectors
  import opened Selection
  import opened SelectionFacts
  import opened Scoring

  /** Known entries with their own numbers, as many as allowed, the preferred node among them. */
  ghost predicate CutDown(vv: VersionVector, req: Request, r: VersionVector) {
    && (forall x | x in r.entries :: x in vv.entries && r.entries[x] == vv.entries[x])
    && |r.entries| == (if req.maxEntries == 0 then 0
                       else if req.strategy.Full? then |vv.entries|
                       else Min(req.maxEntries, |vv.entries|))
    && (req.maxEntries > 0 && req.preferred != EMPTY_NODE_ID && req.preferred in vv.entries ==>
        req.preferred in r.entries)
  }

  /** The contract of selectSubset, for all strategies, budgets, ratios and weights. */
  lemma SubsetContract(vv: VersionVector, req: Request, tune: Tuning, env: Outside)
    requires ValidOutside(vv, env)
    ensures CutDown(vv, req, Subset(vv, req, tune, env))
  {
    if 0 < req.maxEntries < |vv.entries| && !req.strategy.Full? {
      var fig := FiguresOf(vv, req, tune);
      SelectorContract(vv, req, fig, env);
      RestrictKeys(vv, SelectKeys(vv, req, fig, env));
    }
  }

  lemma RestrictKeys(vv: VersionVector, keys: set<NodeID>)
    requires keys <= vv.entries.Keys
    ensures vv.Restrict(keys).entries.Keys == keys && |vv.Restrict(keys).entries| == |keys|
  {
  }

  /** Whatever is selected keeps its time of update. */
  lemma SubsetStamps(vv: VersionVector, req: Request, tune: Tuning, env: Outside, x: NodeID)
    requires x in Subset(vv, req, tune, env).entries
    ensures Subset(vv, req, tune, env).GetLastUpdate(x) == vv.GetLastUpdate(x)
  {
  }

  /** A vector that does not fit is cut down to the selected keys. */
  lemma SubsetKeys(vv: VersionVector, req: Request, tune: Tuning, env: Outside)
    requires 0 < req.maxEntries < |vv.entries| && !req.strategy.Full? && ValidOutside(vv, env)
    ensures Subset(vv, req, tune, env).entries.Keys == SelectKeys(vv, req, FiguresOf(vv, req, tune), env)
  {
    SelectorContract(vv, req, FiguresOf(vv, req, tune), env);
    RestrictKeys(vv, SelectKeys(vv, req, FiguresOf(vv, req, tune), env));
  }

  // ---- Score ----

  lemma DivideMonotone(a: real, b: real, d: real)
    requires a <= b && d > 0.0
    ensures a / d <= b / d
  {
    assert b / d - a / d == (b - a) / d;
  }

  lemma NormalizeMonotone(i: nat, j: nat, n: nat)
    requires i <= j
    ensures NormalizeRankScore(i, n) >= NormalizeRankScore(j, n)
  {
    if n > 1 { DivideMonotone(i as real, j as real, (n - 1) as real); }
  }

  lemma ProductMonotone(w: real, a: real, b: real)
    requires w >= 0.0 && a <= b
    ensures w * a <= w * b
  {
  }

  predicate NoSmaller(p: Parts, q: Parts) {
    p.seqNo >= q.seqNo && p.recent >= q.recent && p.compensation >= q.compensation
  }

  lemma PartsMonotone(vv: VersionVector, missedRounds: map<NodeID, nat>, x: NodeID, y: NodeID)
    requires x in vv.entries && y in vv.entries && RecencyOrder(vv).Before(x, y)
    requires vv.Get(x) >= vv.Get(y) && Missed(missedRounds, x) >= Missed(missedRounds, y)
    ensures NoSmaller(PartsOf(vv, missedRounds, x), PartsOf(vv, missedRounds, y))
  {
    if MaxSeq(vv) > 0 { DivideMonotone(vv.entries[y] as real, vv.entries[x] as real, MaxSeq(vv) as real); }
    RankSorted(RecencyOrder(vv), vv.entries.Keys, x, y);
    NormalizeMonotone(IndexOf(RecentNodes(vv), x), IndexOf(RecentNodes(vv), y), |vv.entries|);
    CompensationMonotone(vv, missedRounds, x, y);
  }

  lemma WeighMonotone(w: Weights, p: Parts, q: Parts)
    requires w.seqNo >= 0.0 && w.recent >= 0.0 && w.fair >= 0.0 && NoSmaller(p, q)
    ensures Weigh(w, p) >= Weigh(w, q)
  {
    ProductMonotone(w.seqNo, q.seqNo, p.seqNo);
    ProductMonotone(w.recent, q.recent, p.recent);
    ProductMonotone(w.fair, q.compensation, p.compensation);
  }

  lemma ScoreMonotone(vv: VersionVector, req: Request, tune: Tuning, x: NodeID, y: NodeID)
    requires x in vv.entries && y in vv.entries && x != req.preferred && y != req.preferred
    requires vv.Get(x) >= vv.Get(y) && Missed(tune.missedRounds, x) >= Missed(tune.missedRounds, y)
    requires RecencyOrder(vv).Before(x, y)
    ensures WeightedScore(vv, req, tune, x) >= WeightedScore(vv, req, tune, y)
  {
    PartsMonotone(vv, tune.missedRounds, x, y);
    WeighMonotone(EffectiveWeights(tune.seqWeight, tune.recentWeight, tune.fairWeight),
                  PartsOf(vv, tune.missedRounds, x), PartsOf(vv, tune.missedRounds, y));
  }

  lemma CompensationIs(vv: VersionVector, missedRounds: map<NodeID, nat>, x: NodeID)
    ensures CompensationScore(vv, missedRounds, x) ==
            Missed(missedRounds, x) as real / (MaxMissed(vv, missedRounds) as real + COMPENSATION_EPSILON)
  {
    ZeroDivided(MaxMissed(vv, missedRounds) as real + COMPENSATION_EPSILON);
  }

  lemma ZeroDivided(d: real)
    requires d > 0.0
    ensures 0.0 / d == 0.0
  {
  }

  lemma CompensationMonotone(vv: VersionVector, missedRounds: map<NodeID, nat>, x: NodeID, y: NodeID)
    requires Missed(missedRounds, x) >= Missed(missedRounds, y)
    ensures CompensationScore(vv, missedRounds, x) >= CompensationScore(vv, missedRounds, y)
  {
    CompensationIs(vv, missedRounds, x);
    CompensationIs(vv, missedRounds, y);
    DivideMonotone(Missed(missedRounds, y) as real, Missed(missedRounds, x) as real,
                   MaxMissed(vv, missedRounds) as real + COMPENSATION_EPSILON);
  }

  /** Selecting by score takes a prefix of the score order. */
  lemma ScoreSelectsPrefix(vv: VersionVector, req: Request, fig: Figures, env: Outside, x: NodeID, y: NodeID)
    requires 0 < req.maxEntries && req.strategy == Score
    requires x in vv.entries && y in vv.entries && x !in Preselected(vv, req) && y !in Preselected(vv, req)
    requires ScoreOrder(vv, fig, Preselected(vv, req)).Before(x, y)
    ensures y in SelectKeys(vv, req, fig, env) ==> x in SelectKeys(vv, req, fig, env)
  {
    var sel0 := Preselected(vv, req);
    FillPrefix(vv.entries.Keys, ScoreOrder(vv, fig, sel0), sel0, Room(req.maxEntries, sel0, Left(req, sel0)), x, y);
  }

  lemma NoLowerScoreFirst(vv: VersionVector, req: Request, tune: Tuning, sel: set<NodeID>, x: NodeID, y: NodeID)
    requires x in vv.entries && y in vv.entries && x !in sel && y !in sel
    requires WeightedScore(vv, req, tune, x) >= WeightedScore(vv, req, tune, y) && RecencyOrder(vv).Before(x, y)
    ensures ScoreOrder(vv, FiguresOf(vv, req, tune), sel).Before(x, y)
  {
  }

  /** Whatever the weights: a node that is no older, no less active and no less starved wins. */
  lemma ScoreDominance(vv: VersionVector, req: Request, tune: Tuning, env: Outside, x: NodeID, y: NodeID)
    requires 0 < req.maxEntries && req.strategy == Score
    requires x in vv.entries && y in vv.entries && x != req.preferred && y != req.preferred
    requires vv.Get(x) >= vv.Get(y) && Missed(tune.missedRounds, x) >= Missed(tune.missedRounds, y)
    requires RecencyOrder(vv).Before(x, y)
    ensures y in SelectKeys(vv, req, FiguresOf(vv, req, tune), env) ==>
            x in SelectKeys(vv, req, FiguresOf(vv, req, tune), env)
  {
    ScoreMonotone(vv, req, tune, x, y);
    NoLowerScoreFirst(vv, req, tune, Preselected(vv, req), x, y);
    ScoreSelectsPrefix(vv, req, FiguresOf(vv, req, tune), env, x, y);
  }

  // ---- The boost never matters: the preferred node is never a candidate ----

  /** Figures that agree on every node that is not selected. */
  ghost predicate SameOutside(sel: set<NodeID>, fig: Figures, fig': Figures) {
    && fig.weighted - sel == fig'.weighted - sel
    && fig.aged - sel == fig'.aged - sel
    && fig.deficit - sel == fig'.deficit - sel
    && fig.clustered - sel == fig'.clustered - sel
    && fig.hotTarget == fig'.hotTarget
  }

  lemma RemoveMore(m: map<NodeID, real>, m': map<NodeID, real>, sel: set<NodeID>, more: set<NodeID>)
    requires m - sel == m' - sel && sel <= more
    ensures m - more == m' - more
  {
    assert forall k | k in m && k !in more :: k in m - sel;
    assert forall k | k in m' && k !in more :: k in m' - sel;
  }

  lemma SameOutsideMore(sel: set<NodeID>, more: set<NodeID>, fig: Figures, fig': Figures)
    requires SameOutside(sel, fig, fig') && sel <= more
    ensures SameOutside(more, fig, fig')
  {
    RemoveMore(fig.weighted, fig'.weighted, sel, more);
    RemoveMore(fig.aged, fig'.aged, sel, more);
    RemoveMore(fig.deficit, fig'.deficit, sel, more);
    RemoveMore(fig.clustered, fig'.clustered, sel, more);
  }

  lemma SameClusterOrder(vv: VersionVector, fig: Figures, fig': Figures, env: Outside, p: Picks)
    requires SameOutside(p.nodes, fig, fig')
    ensures ClusterScoreOrder(vv, fig, env, p) == ClusterScoreOrder(vv, fig', env, p)
  {
    forall k ensures k in fig.clustered && k !in p.nodes <==> k in fig'.clustered && k !in p.nodes
      ensures k in fig.clustered && k !in p.nodes ==> fig.clustered[k] == fig'.clustered[k]
    {
      assert k in fig.clustered - p.nodes <==> k in fig'.clustered - p.nodes;
      assert k in fig.clustered - p.nodes ==> (fig.clustered - p.nodes)[k] == (fig'.clustered - p.nodes)[k];
    }
  }

  lemma {:induction false} GreedyAgrees(known: set<NodeID>, best: Picks -> NodeID, best': Picks -> NodeID,
                                        cluster: NodeID -> ClusterKey, p: Picks, room: nat)
    requires forall q: Picks | p.nodes <= q.nodes :: best(q) == best'(q)
    ensures GreedyFill(known, best, cluster, p, room) == GreedyFill(known, best', cluster, p, room)
    decreases room
  {
    if room > 0 && known - p.nodes != {} {
      GreedyAgrees(known, best, best', cluster, p.Add(best(p), cluster(best(p))), room - 1);
    }
  }

  lemma ClusterScoreAgrees(vv: VersionVector, req: Request, fig: Figures, fig': Figures, env: Outside, sel: set<NodeID>,
                           budget: nat)
    requires SameOutside(sel, fig, fig')
    ensures AddClusterScore(vv, req, fig, env, sel, budget) == AddClusterScore(vv, req, fig', env, sel, budget)
  {
    forall q: Picks | sel <= q.nodes ensures BestByCluster(vv, fig, env)(q) == BestByCluster(vv, fig', env)(q) {
      SameOutsideMore(sel, q.nodes, fig, fig');
      SameClusterOrder(vv, fig, fig', env, q);
    }
    GreedyAgrees(vv.entries.Keys, BestByCluster(vv, fig, env), BestByCluster(vv, fig', env), env.cluster,
                 Counted(env, sel), Room(req.maxEntries, sel, budget));
  }

  lemma AgeAgrees(vv: VersionVector, req: Request, fig: Figures, fig': Figures, sel: set<NodeID>, budget: nat)
    requires SameOutside(sel, fig, fig')
    ensures AddAgeScore(vv, req, fig, sel, budget) == AddAgeScore(vv, req, fig', sel, budget)
  {
    assert AgeScoreOrder(vv, fig, sel) == AgeScoreOrder(vv, fig', sel);
  }

  lemma DeficitAgrees(vv: VersionVector, req: Request, fig: Figures, fig': Figures, sel: set<NodeID>, budget: nat)
    requires SameOutside(sel, fig, fig')
    ensures AddDeficitScore(vv, req, fig, sel, budget) == AddDeficitScore(vv, req, fig', sel, budget)
  {
    assert DeficitOrder(vv, fig, sel) == DeficitOrder(vv, fig', sel);
  }

  /** The two figures lead to the same pass. */
  ghost predicate SamePass(vv: VersionVector, req: Request, fig: Figures, fig': Figures, env: Outside, sel: set<NodeID>,
                           budget: nat)
  {
    AddRanked(vv, req, fig, env, sel, budget) == AddRanked(vv, req, fig', env, sel, budget)
  }

  lemma ScoredAgrees(vv: VersionVector, req: Request, fig: Figures, fig': Figures, env: Outside, sel: set<NodeID>,
                     budget: nat)
    requires SameOutside(sel, fig, fig') && (req.strategy.AgeScore? || req.strategy.DeficitScore?)
    ensures SamePass(vv, req, fig, fig', env, sel, budget)
  {
    if req.strategy.AgeScore? {
      AgeAgrees(vv, req, fig, fig', sel, budget);
    } else {
      DeficitAgrees(vv, req, fig, fig', sel, budget);
    }
  }

  lemma ClusteredPassAgrees(vv: VersionVector, req: Request, fig: Figures, fig': Figures, env: Outside,
                            sel: set<NodeID>, budget: nat)
    requires SameOutside(sel, fig, fig') && req.strategy.ClusterScore?
    ensures SamePass(vv, req, fig, fig', env, sel, budget)
  {
    ClusterScoreAgrees(vv, req, fig, fig', env, sel, budget);
  }

  lemma UnscoredAgrees(vv: VersionVector, req: Request, fig: Figures, fig': Figures, env: Outside, sel: set<NodeID>,
                       budget: nat)
    requires !req.strategy.AgeScore? && !req.strategy.DeficitScore? && !req.strategy.ClusterScore?
    ensures SamePass(vv, req, fig, fig', env, sel, budget)
  {
  }

  lemma RankedAgrees(vv: VersionVector, req: Request, fig: Figures, fig': Figures, env: Outside, sel: set<NodeID>,
                     budget: nat)
    requires SameOutside(sel, fig, fig')
    ensures SamePass(vv, req, fig, fig', env, sel, budget)
  {
    match req.strategy {
      case AgeScore => ScoredAgrees(vv, req, fig, fig', env, sel, budget);
      case DeficitScore => ScoredAgrees(vv, req, fig, fig', env, sel, budget);
      case ClusterScore => ClusteredPassAgrees(vv, req, fig, fig', env, sel, budget);
      case _ => UnscoredAgrees(vv, req, fig, fig', env, sel, budget);
    }
  }

  lemma ReservedAgrees(vv: VersionVector, req: Request, fig: Figures, fig': Figures, env: Outside, sel0: set<NodeID>,
                       first: nat)
    requires SameOutside(sel0, fig, fig') && Partial(vv, req, sel0)
    ensures SelectReserved(vv, req, fig, env, sel0, first) == SelectReserved(vv, req, fig', env, sel0, first)
  {
    var sel1 := AddRanked(vv, req, fig, env, sel0, first);
    RankedAgrees(vv, req, fig, fig', env, sel0, first);
    RankedPass(vv, req, fig, env, sel0, first);
    var sel2 := AddRoundRobin(vv, req, sel1, Min(Reserve(req), Left(req, sel1)));
    RoundRobinPass(vv, req, sel1, Min(Reserve(req), Left(req, sel1)));
    SameOutsideMore(sel0, sel2, fig, fig');
    RankedAgrees(vv, req, fig, fig', env, sel2, Left(req, sel2));
  }

  lemma SelectionAgrees(vv: VersionVector, req: Request, fig: Figures, fig': Figures, env: Outside)
    requires 0 < req.maxEntries <= |vv.entries| && SameOutside(Preselected(vv, req), fig, fig')
    ensures SelectKeys(vv, req, fig, env) == SelectKeys(vv, req, fig', env)
  {
    if KeepsReserve(req.strategy) {
      var sel0 := Preselected(vv, req);
      ReservedAgrees(vv, req, fig, fig', env, sel0, FirstBudget(req, fig.hotTarget, |sel0|));
    }
  }

  lemma SameScores(vv: VersionVector, req: Request, tune: Tuning, tune': Tuning, x: NodeID)
    requires tune' == tune.(preferredBoost := tune'.preferredBoost)
    requires x in vv.entries && x !in Preselected(vv, req)
    ensures AgedScore(vv, req, tune, x) == AgedScore(vv, req, tune', x)
    ensures DeficitScoreOf(vv, req, tune, x) == DeficitScoreOf(vv, req, tune', x)
    ensures WeightedScore(vv, req, tune, x) == WeightedScore(vv, req, tune', x)
    ensures ClusteredScore(vv, req, tune, x) == ClusteredScore(vv, req, tune', x)
  {
  }

  lemma SameAfterRemoval(m: map<NodeID, real>, m': map<NodeID, real>, sel: set<NodeID>)
    requires m.Keys == m'.Keys && forall k | k in m && k !in sel :: m[k] == m'[k]
    ensures m - sel == m' - sel
  {
  }

  lemma WeightedAgree(vv: VersionVector, req: Request, tune: Tuning, tune': Tuning)
    requires tune' == tune.(preferredBoost := tune'.preferredBoost)
    ensures FiguresOf(vv, req, tune).weighted - Preselected(vv, req) ==
            FiguresOf(vv, req, tune').weighted - Preselected(vv, req)
  {
    var m, m', sel := FiguresOf(vv, req, tune).weighted, FiguresOf(vv, req, tune').weighted, Preselected(vv, req);
    forall x | x in m && x !in sel ensures m[x] == m'[x] { SameScores(vv, req, tune, tune', x); }
    SameAfterRemoval(m, m', sel);
  }

  lemma AgedAgree(vv: VersionVector, req: Request, tune: Tuning, tune': Tuning)
    requires tune' == tune.(preferredBoost := tune'.preferredBoost)
    ensures FiguresOf(vv, req, tune).aged - Preselected(vv, req) ==
            FiguresOf(vv, req, tune').aged - Preselected(vv, req)
  {
    var m, m', sel := FiguresOf(vv, req, tune).aged, FiguresOf(vv, req, tune').aged, Preselected(vv, req);
    forall x | x in m && x !in sel ensures m[x] == m'[x] { SameScores(vv, req, tune, tune', x); }
    SameAfterRemoval(m, m', sel);
  }

  lemma DeficitAgree(vv: VersionVector, req: Request, tune: Tuning, tune': Tuning)
    requires tune' == tune.(preferredBoost := tune'.preferredBoost)
    ensures FiguresOf(vv, req, tune).deficit - Preselected(vv, req) ==
            FiguresOf(vv, req, tune').deficit - Preselected(vv, req)
  {
    var m, m', sel := FiguresOf(vv, req, tune).deficit, FiguresOf(vv, req, tune').deficit, Preselected(vv, req);
    forall x | x in m && x !in sel ensures m[x] == m'[x] { SameScores(vv, req, tune, tune', x); }
    SameAfterRemoval(m, m', sel);
  }

  lemma ClusteredAgree(vv: VersionVector, req: Request, tune: Tuning, tune': Tuning)
    requires tune' == tune.(preferredBoost := tune'.preferredBoost)
    ensures FiguresOf(vv, req, tune).clustered - Preselected(vv, req) ==
            FiguresOf(vv, req, tune').clustered - Preselected(vv, req)
  {
    var m, m', sel := FiguresOf(vv, req, tune).clustered, FiguresOf(vv, req, tune').clustered, Preselected(vv, req);
    forall x | x in m && x !in sel ensures m[x] == m'[x] { SameScores(vv, req, tune, tune', x); }
    SameAfterRemoval(m, m', sel);
  }

  lemma FiguresAgree(vv: VersionVector, req: Request, tune: Tuning, tune': Tuning)
    requires tune' == tune.(preferredBoost := tune'.preferredBoost)
    ensures SameOutside(Preselected(vv, req), FiguresOf(vv, req, tune), FiguresOf(vv, req, tune'))
  {
    WeightedAgree(vv, req, tune, tune');
    AgedAgree(vv, req, tune, tune');
    DeficitAgree(vv, req, tune, tune');
    ClusteredAgree(vv, req, tune, tune');
  }

  /** In no strategy does the selection depend on the score boost of the preferred node. */
  lemma BoostIrrelevance(vv: VersionVector, req: Request, tune: Tuning, boost: real, env: Outside)
    ensures Subset(vv, req, tune, env) == Subset(vv, req, tune.(preferredBoost := boost), env)
  {
    if 0 < req.maxEntries <= |vv.entries| {
      FiguresAgree(vv, req, tune, tune.(preferredBoost := boost));
      SelectionAgrees(vv, req, FiguresOf(vv, req, tune), FiguresOf(vv, req, tune.(preferredBoost := boost)), env);
    }
  }
}
