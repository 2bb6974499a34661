/** version-vector.cpp, VersionVector::selectSubset: the passes as they run, growing `selected`
    entry by entry under a falling budget. Sorted node lists come from Orders.Listing. */
module Selector {
  import opened Collections
  import opened Nodes
  import opened Orders
  import opened Numbers
  import opened VersionVectors
  import opened Selection
  import opened SelectionFacts
  import opened Scoring
  import opened ScoringFacts

  method AddEntry(vv: VersionVector, selected: set<NodeID>, nid: NodeID) returns (grown: set<NodeID>, added: bool)
    ensures added <==> nid in vv.entries && nid !in selected
    ensures grown == if added then selected + {nid} else selected
  {
    if nid !in vv.entries || nid in selected {
      return selected, false;
    }
    return selected + {nid}, true;
  }

  lemma RoomSpent(max: nat, sel: set<NodeID>, x: NodeID, budget: nat)
    requires |sel| < max && budget > 0 && x !in sel
    ensures Room(max, sel, budget) > 0
    ensures Room(max, sel + {x}, budget - 1) == Room(max, sel, budget) - 1
  {
  }

  /** One turn of a fill. */
  lemma FillStep(known: set<NodeID>, order: seq<NodeID>, i: nat, max: nat, sel: set<NodeID>, budget: nat,
                 sel': set<NodeID>, budget': int)
    requires i < |order| && |sel| < max && budget > 0
    requires if order[i] in known && order[i] !in sel then sel' == sel + {order[i]} && budget' == budget - 1
             else sel' == sel && budget' == budget
    ensures FillFrom(known, order, i, sel, Room(max, sel, budget)) ==
            FillFrom(known, order, i + 1, sel', Room(max, sel', budget'))
  {
    if order[i] in known && order[i] !in sel { RoomSpent(max, sel, order[i], budget); }
  }

  /** The loop body of every pass: add the node if it can be added, and pay for it. */
  method Take(vv: VersionVector, nid: NodeID, selected: set<NodeID>, budget: nat, ghost order: seq<NodeID>,
              ghost i: nat, ghost max: nat)
    returns (grown: set<NodeID>, left: nat)
    requires |selected| < max && budget > 0
    requires i < |order| && order[i] == nid
    ensures FillFrom(vv.entries.Keys, order, i, selected, Room(max, selected, budget))
         == FillFrom(vv.entries.Keys, order, i + 1, grown, Room(max, grown, left))
  {
    var added;
    grown, added := AddEntry(vv, selected, nid);
    left := if added then budget - 1 else budget;
    FillStep(vv.entries.Keys, order, i, max, selected, budget, grown, left);
  }

  /** The loop shared by all passes that walk a prepared list of nodes. */
  method AddInOrder(vv: VersionVector, max: nat, order: seq<NodeID>, start: set<NodeID>, allowance: nat)
    returns (selected: set<NodeID>)
    ensures selected ==
            Fill(vv.entries.Keys, order, start, Room(max, start, allowance))
  {
    selected := start;
    var budget := allowance;
    var i := 0;
    while i < |order| && |selected| < max && budget > 0
      invariant i <= |order|
      invariant Fill(vv.entries.Keys, order, start, Room(max, start, allowance))
             == FillFrom(vv.entries.Keys, order, i, selected, Room(max, selected, budget))
    {
      selected, budget := Take(vv, order[i], selected, budget, order, i, max);
      i := i + 1;
    }
  }

  /** Walk the nodes round from the cursor. */
  method AddFromCursor(vv: VersionVector, max: nat, nodes: seq<NodeID>, startIndex: nat, start: set<NodeID>,
                       allowance: nat)
    returns (selected: set<NodeID>)
    ensures selected ==
            Fill(vv.entries.Keys, Rotated(nodes, startIndex), start, Room(max, start, allowance))
  {
    selected := start;
    if allowance == 0 || nodes == [] {
      return;
    }
    var budget := allowance;
    ghost var order := Rotated(nodes, startIndex);
    RotatedAt(nodes, startIndex, 0);
    var i := 0;
    while i < |nodes| && |selected| < max && budget > 0
      invariant i <= |nodes| == |order|
      invariant Fill(vv.entries.Keys, order, start, Room(max, start, allowance))
             == FillFrom(vv.entries.Keys, order, i, selected, Room(max, selected, budget))
    {
      RotatedAt(nodes, startIndex, i);
      selected, budget := Take(vv, NodeAt(nodes, startIndex, i), selected, budget, order, i, max);
      i := i + 1;
    }
  }

  method AddRoundRobinEntries(vv: VersionVector, req: Request, start: set<NodeID>, allowance: nat)
    returns (selected: set<NodeID>)
    ensures selected == AddRoundRobin(vv, req, start, allowance)
  {
    selected := AddFromCursor(vv, req.maxEntries, OrderedNodes(vv), req.startIndex, start, allowance);
  }

  method AddRecentEntries(vv: VersionVector, req: Request, start: set<NodeID>, allowance: nat)
    returns (selected: set<NodeID>)
    ensures selected == AddRecent(vv, req, start, allowance)
  {
    selected := AddInOrder(vv, req.maxEntries, RecentNodes(vv), start, allowance);
  }

  /** One turn of the walk over clusters. */
  lemma ClusterFillStep(cluster: NodeID -> ClusterKey, order: seq<NodeID>, i: nat, max: nat, sel: set<NodeID>,
                        seen: set<ClusterKey>, budget: nat,
                        sel': set<NodeID>, seen': set<ClusterKey>, budget': int)
    requires i < |order| && |sel| < max && budget > 0
    requires if cluster(order[i]) in seen then sel' == sel && seen' == seen && budget' == budget
             else
               && order[i] !in sel && sel' == sel + {order[i]}
               && seen' == seen + {cluster(order[i])} && budget' == budget - 1
    ensures ClusterFill(cluster, order, i, sel, seen, Room(max, sel, budget))
         == ClusterFill(cluster, order, i + 1, sel', seen', Room(max, sel', budget'))
  {
  }

  /** The loop body of the cluster pass: a node of an unseen cluster is added and paid for. */
  method TakeNewCluster(vv: VersionVector, env: Outside, selected: set<NodeID>, seen: set<ClusterKey>, budget: nat,
                        order: seq<NodeID>, i: nat, ghost max: nat)
    returns (grown: set<NodeID>, seen': set<ClusterKey>, left: nat)
    requires |selected| < max && budget > 0
    requires i < |order| && order[i] in vv.entries && seen == Clusters(env, selected)
    ensures seen' == Clusters(env, grown)
    ensures ClusterFill(env.cluster, order, i, selected, seen, Room(max, selected, budget))
         == ClusterFill(env.cluster, order, i + 1, grown, seen', Room(max, grown, left))
  {
    grown, seen', left := selected, seen, budget;
    var cluster := env.cluster(order[i]);
    NewCluster(env, selected, order[i]);
    if cluster !in seen {
      var added;
      grown, added := AddEntry(vv, selected, order[i]);
      if added {
        seen' := seen + {cluster};
        left := budget - 1;
      }
    }
    ClusterFillStep(env.cluster, order, i, max, selected, seen, budget, grown, seen', left);
  }

  method AddClusterRecentEntries(vv: VersionVector, req: Request, env: Outside, start: set<NodeID>, allowance: nat)
    returns (selected: set<NodeID>)
    ensures selected == AddClusterRecent(vv, req, env, start, allowance)
  {
    var recentNodes := RecentNodes(vv);
    var seenClusters := Clusters(env, start);
    selected := start;
    var budget := allowance;
    var i := 0;
    while i < |recentNodes| && |selected| < req.maxEntries && budget > 0
      invariant i <= |recentNodes|
      invariant seenClusters == Clusters(env, selected)
      invariant ClusterRound(vv, env, start, Room(req.maxEntries, start, allowance))
             == ClusterFill(env.cluster, recentNodes, i, selected, seenClusters, Room(req.maxEntries, selected, budget))
    {
      ListingAt(RecencyOrder(vv), vv.entries.Keys, i);
      selected, seenClusters, budget :=
        TakeNewCluster(vv, env, selected, seenClusters, budget, recentNodes, i, req.maxEntries);
      i := i + 1;
    }
    if budget > 0 {
      selected := AddRecentEntries(vv, req, selected, budget);
    }
  }

  /** What the scan of addClusterScoreEntries remembers: the best node met, if any. */
  datatype Best = NoneYet | Found(nid: NodeID, score: real, ts: Time)

  /** A node met later wins only by a higher score, or by the same score and a later update. */
  function Challenge(best: Best, nid: NodeID, score: real, ts: Time): Best {
    match best
    case NoneYet => if score > -1.0 then Found(nid, score, ts) else NoneYet
    case Found(_, bestScore, bestTs) =>
      if score > bestScore || (score == bestScore && ts > bestTs) then Found(nid, score, ts) else best
  }

  /** The scan has found the first of the unselected nodes among xs[..i]. */
  ghost predicate Leads(r: Ranking, xs: seq<NodeID>, i: nat, sel: set<NodeID>, best: Best)
    requires i <= |xs|
  {
    match best
    case NoneYet => forall k | 0 <= k < i :: xs[k] in sel
    case Found(nid, score, ts) =>
      && nid !in sel && score == r.Primary(nid) && ts == r.Secondary(nid)
      && (exists b :: 0 <= b < i && xs[b] == nid)
      && forall k | 0 <= k < i :: xs[k] in sel || xs[k] == nid || r.Before(nid, xs[k])
  }

  lemma ScanSkips(r: Ranking, xs: seq<NodeID>, i: nat, sel: set<NodeID>, best: Best)
    requires i < |xs| && Leads(r, xs, i, sel, best) && xs[i] in sel
    ensures Leads(r, xs, i + 1, sel, best)
  {
  }

  lemma ScanStep(r: Ranking, xs: seq<NodeID>, i: nat, sel: set<NodeID>, best: Best)
    requires i < |xs| && SortedBy(BY_NAME, xs) && Leads(r, xs, i, sel, best) && xs[i] !in sel
    requires r.Primary(xs[i]) > -1.0
    ensures Leads(r, xs, i + 1, sel, Challenge(best, xs[i], r.Primary(xs[i]), r.Secondary(xs[i])))
  {
    if best.Found? {
      var b :| 0 <= b < i && xs[b] == best.nid;
      assert BY_NAME.Before(best.nid, xs[i]);
    }
  }

  lemma ScanEnds(r: Ranking, s: set<NodeID>, xs: seq<NodeID>, sel: set<NodeID>, best: Best)
    requires (forall x | x in s :: x in xs) && (forall k | 0 <= k < |xs| :: xs[k] in s)
    requires Leads(r, xs, |xs|, sel, best)
    ensures best.NoneYet? <==> s - sel == {}
    ensures best.Found? ==> best.nid == First(r, s - sel)
  {
    if best.Found? {
      assert best.nid in s - sel;
      assert IsFirst(r, s - sel, best.nid);
      FirstIsFirst(r, s - sel);
      FirstUnique(r, s - sel, best.nid, First(r, s - sel));
    }
  }

  /** Scores the scan of addClusterScoreEntries can find: every node has one and none is below the
      scan's starting value. */
  ghost predicate Scannable(vv: VersionVector, fig: Figures) {
    fig.clustered.Keys == vv.entries.Keys && forall k | k in fig.clustered :: fig.clustered[k] >= 0.0
  }

  /** The inner scan of addClusterScoreEntries: the best remaining node, in name order on ties. */
  method BestRemaining(vv: VersionVector, fig: Figures, env: Outside, p: Picks) returns (best: Best)
    requires Scannable(vv, fig)
    ensures best.NoneYet? <==> vv.entries.Keys - p.nodes == {}
    ensures best.Found? ==> best.nid == First(ClusterScoreOrder(vv, fig, env, p), vv.entries.Keys - p.nodes)
  {
    var orderedNodes := OrderedNodes(vv);
    ghost var r := ClusterScoreOrder(vv, fig, env, p);
    best := NoneYet;
    var i := 0;
    while i < |orderedNodes|
      invariant i <= |orderedNodes| && Leads(r, orderedNodes, i, p.nodes, best)
    {
      var nid := orderedNodes[i];
      ListingAt(BY_NAME, vv.entries.Keys, i);
      if nid in p.nodes {
        ScanSkips(r, orderedNodes, i, p.nodes, best);
      } else {
        ScoreIsRank(vv, fig, env, p, nid);
        ScanStep(r, orderedNodes, i, p.nodes, best) by { ListingFacts(BY_NAME, vv.entries.Keys); }
        var score := fig.clustered[nid] + ClusterBonus(p.Count(env.cluster(nid)));
        best := Challenge(best, nid, score, vv.GetLastUpdate(nid));
      }
      i := i + 1;
    }
    ScanEnds(r, vv.entries.Keys, orderedNodes, p.nodes, best) by { ListingFacts(BY_NAME, vv.entries.Keys); }
  }

  lemma ScoreIsRank(vv: VersionVector, fig: Figures, env: Outside, p: Picks, nid: NodeID)
    requires Scannable(vv, fig) && nid in vv.entries && nid !in p.nodes
    ensures ClusterScoreOrder(vv, fig, env, p).Primary(nid) ==
            fig.clustered[nid] + ClusterBonus(p.Count(env.cluster(nid))) > -1.0
    ensures ClusterScoreOrder(vv, fig, env, p).Secondary(nid) == vv.GetLastUpdate(nid)
  {
  }

  /** The best node was added and counted, unless none is left. */
  ghost predicate Picked(known: set<NodeID>, best: NodeID, cluster: NodeID -> ClusterKey, p: Picks, added: bool,
                         grown: Picks)
  {
    && (added <==> known - p.nodes != {})
    && if added then best !in p.nodes && grown == p.Add(best, cluster(best)) else grown == p
  }

  /** A choice that is the best one, whatever is selected already. */
  ghost predicate FindsBest(best: Picks -> NodeID, vv: VersionVector, fig: Figures, env: Outside) {
    forall p: Picks :: FindsBestAt(best, vv, fig, env, p)
  }

  ghost predicate FindsBestAt(best: Picks -> NodeID, vv: VersionVector, fig: Figures, env: Outside, p: Picks) {
    best(p) == BestByCluster(vv, fig, env)(p)
  }

  /** What the greedy loop has still to do. */
  ghost predicate ToFill(goal: Picks, known: set<NodeID>, best: Picks -> NodeID, cluster: NodeID -> ClusterKey,
                         max: nat, p: Picks, budget: nat)
  {
    goal == GreedyFill(known, best, cluster, p, Room(max, p.nodes, budget))
  }

  lemma NothingToFill(goal: Picks, known: set<NodeID>, best: Picks -> NodeID, cluster: NodeID -> ClusterKey, max: nat,
                      p: Picks, budget: nat)
    requires ToFill(goal, known, best, cluster, max, p, budget) && (budget == 0 || |p.nodes| >= max)
    ensures p == goal
  {
  }

  /** One turn of the greedy loop. */
  lemma GreedyStep(goal: Picks, known: set<NodeID>, best: Picks -> NodeID, cluster: NodeID -> ClusterKey, max: nat,
                   p: Picks, budget: nat, added: bool, grown: Picks)
    requires |p.nodes| < max && budget > 0 && ToFill(goal, known, best, cluster, max, p, budget)
    requires Picked(known, best(p), cluster, p, added, grown)
    ensures added ==> ToFill(goal, known, best, cluster, max, grown, budget - 1)
    ensures !added ==> grown == goal
  {
    if known - p.nodes != {} { RoomSpent(max, p.nodes, best(p), budget); }
  }

  /** The loop body of addClusterScoreEntries: find the best remaining node, add it, count it. */
  method TakeBest(vv: VersionVector, fig: Figures, env: Outside, p: Picks, ghost best: Picks -> NodeID)
    returns (added: bool, grown: Picks)
    requires Scannable(vv, fig) && FindsBest(best, vv, fig, env)
    ensures Picked(vv.entries.Keys, best(p), env.cluster, p, added, grown)
  {
    assert FindsBestAt(best, vv, fig, env, p);
    var found := BestRemaining(vv, fig, env, p);
    if found.NoneYet? {
      return false, p;
    }
    var selected;
    selected, added := AddEntry(vv, p.nodes, found.nid);
    grown := p.Add(found.nid, env.cluster(found.nid));
  }

  method TakeBestWhileRoom(vv: VersionVector, fig: Figures, env: Outside, max: nat, start: Picks, allowance: nat,
                           ghost best: Picks -> NodeID)
    returns (p: Picks)
    requires Scannable(vv, fig) && FindsBest(best, vv, fig, env)
    ensures p == GreedyFill(vv.entries.Keys, best, env.cluster, start, Room(max, start.nodes, allowance))
  {
    p := start;
    var budget := allowance;
    ghost var known := vv.entries.Keys;
    ghost var goal := GreedyFill(known, best, env.cluster, start, Room(max, start.nodes, allowance));
    while budget > 0 && |p.nodes| < max
      invariant ToFill(goal, known, best, env.cluster, max, p, budget)
    {
      var added, grown := TakeBest(vv, fig, env, p, best);
      GreedyStep(goal, known, best, env.cluster, max, p, budget, added, grown);
      p := grown;
      if !added {
        return;
      }
      budget := budget - 1;
    }
    NothingToFill(goal, known, best, env.cluster, max, p, budget);
  }

  method AddClusterScoreEntries(vv: VersionVector, req: Request, fig: Figures, env: Outside, start: set<NodeID>,
                                allowance: nat)
    returns (selected: set<NodeID>)
    requires Scannable(vv, fig)
    ensures selected == AddClusterScore(vv, req, fig, env, start, allowance)
  {
    ghost var best := BestByCluster(vv, fig, env);
    var p := TakeBestWhileRoom(vv, fig, env, req.maxEntries, Counted(env, start), allowance, best);
    return p.nodes;
  }

  /** The scoring pass of the strategies that keep a fairness reserve. */
  method AddRankedEntries(vv: VersionVector, req: Request, fig: Figures, env: Outside, start: set<NodeID>,
                          allowance: nat)
    returns (selected: set<NodeID>)
    requires Scannable(vv, fig)
    ensures selected == AddRanked(vv, req, fig, env, start, allowance)
  {
    var keys, sel := vv.entries.Keys, start;
    match req.strategy {
      case AgeScore =>
        selected := AddInOrder(vv, req.maxEntries, Listing(AgeScoreOrder(vv, fig, sel), keys - sel), start, allowance);
      case DeficitScore =>
        selected := AddInOrder(vv, req.maxEntries, Listing(DeficitOrder(vv, fig, sel), keys - sel), start, allowance);
      case ClusterScore =>
        selected := AddClusterScoreEntries(vv, req, fig, env, start, allowance);
      case ClusterHybrid =>
        selected := AddClusterRecentEntries(vv, req, env, start, allowance);
      case _ =>
        selected := AddRecentEntries(vv, req, start, allowance);
    }
  }

  method SelectWithReserve(vv: VersionVector, req: Request, fig: Figures, env: Outside, start: set<NodeID>, first: nat)
    returns (selected: set<NodeID>)
    requires Scannable(vv, fig)
    ensures selected == SelectReserved(vv, req, fig, env, start, first)
  {
    selected := AddRankedEntries(vv, req, fig, env, start, first);
    selected := AddRoundRobinEntries(vv, req, selected, Min(Reserve(req), Left(req, selected)));
    selected := AddRankedEntries(vv, req, fig, env, selected, Left(req, selected));
    selected := AddRoundRobinEntries(vv, req, selected, Left(req, selected));
  }

  method AddWhatFits(vv: VersionVector, req: Request, start: set<NodeID>) returns (selected: set<NodeID>)
    ensures selected == TopUp(vv, req, start)
  {
    selected := AddRecentEntries(vv, req, start, Left(req, start));
    selected := AddRoundRobinEntries(vv, req, selected, Left(req, selected));
  }

  method SelectWithQuota(vv: VersionVector, req: Request, extra: seq<NodeID>, start: set<NodeID>)
    returns (selected: set<NodeID>)
    ensures selected == SelectRecentQuota(vv, req, extra, start)
  {
    var quota := Min(req.noveltyBudget, Left(req, start));
    var recentBudget :=
      if req.maxEntries > |start| + quota then req.maxEntries - |start| - quota else 0;
    selected := AddRecentEntries(vv, req, start, recentBudget);
    selected := AddInOrder(vv, req.maxEntries, extra, selected, Min(quota, Left(req, selected)));
    selected := AddWhatFits(vv, req, selected);
  }

  method SelectSticky(vv: VersionVector, req: Request, start: set<NodeID>) returns (selected: set<NodeID>)
    ensures selected == if req.strategy.Recent? then SelectRecent(vv, req, start)
                                     else SelectStickyRecent(vv, req, start)
  {
    selected := AddInOrder(vv, req.maxEntries, req.sticky, start, Min(req.stickyBudget, Left(req, start)));
    if req.strategy.Recent? {
      selected := AddRecentEntries(vv, req, selected, req.maxEntries);
    } else {
      selected := AddWhatFits(vv, req, selected);
    }
  }

  lemma RankNonNegative(rank: nat, n: nat)
    requires rank < n
    ensures NormalizeRankScore(rank, n) >= 0.0
  {
    if n > 1 { DivideMonotone(rank as real, (n - 1) as real, (n - 1) as real); }
  }

  lemma SeqScoreNonNegative(vv: VersionVector, k: NodeID)
    requires k in vv.entries
    ensures SeqScore(vv, k) >= 0.0
  {
    if MaxSeq(vv) > 0 { DivideMonotone(0.0, vv.entries[k] as real, MaxSeq(vv) as real); }
  }

  lemma RecentScoreNonNegative(vv: VersionVector, k: NodeID)
    requires k in vv.entries
    ensures RecentScore(vv, k) >= 0.0
  {
    ListingFacts(RecencyOrder(vv), vv.entries.Keys);
    ListingSize(RecencyOrder(vv), vv.entries.Keys);
    RankNonNegative(IndexOf(RecentNodes(vv), k), |vv.entries|);
  }

  lemma FairPartNonNegative(vv: VersionVector, startIndex: nat, k: NodeID)
    requires k in vv.entries
    ensures FairPart(vv, startIndex, k) >= 0.0
  {
    ListingSize(BY_NAME, vv.entries.Keys);
    RankNonNegative(RotationOffset(vv, startIndex, k), |vv.entries|);
  }

  /** Every node has a clustered score, and it is at least the starting value of the scan. */
  lemma FiguresScannable(vv: VersionVector, req: Request, tune: Tuning)
    ensures Scannable(vv, FiguresOf(vv, req, tune))
  {
    forall k | k in vv.entries ensures ClusteredScore(vv, req, tune, k) >= 0.0 {
      SeqScoreNonNegative(vv, k);
      RecentScoreNonNegative(vv, k);
      FairPartNonNegative(vv, req.startIndex, k);
    }
  }

  /** The switch over the strategies, once the preferred node is in. */
  method SelectPartial(vv: VersionVector, req: Request, fig: Figures, env: Outside, start: set<NodeID>)
    returns (selected: set<NodeID>)
    requires 0 < req.maxEntries && Scannable(vv, fig)
    requires start == Preselected(vv, req)
    ensures selected == SelectKeys(vv, req, fig, env)
  {
    var keys, sel := vv.entries.Keys, start;
    match req.strategy {
      case Recent =>
        selected := SelectSticky(vv, req, start);
      case StickyRecent =>
        selected := SelectSticky(vv, req, start);
      case RecentNoveltyQuota =>
        selected := SelectWithQuota(vv, req, NoveltyNodes(vv, req), start);
      case RecentRandomQuota =>
        selected := SelectWithQuota(vv, req, env.shuffled, start);
      case AdaptiveRecentScore =>
        selected := AddRecentEntries(vv, req, start, req.maxEntries);
      case Random =>
        selected := AddInOrder(vv, req.maxEntries, env.shuffled, start, req.maxEntries);
      case RoundRobin =>
        selected := AddRoundRobinEntries(vv, req, start, req.maxEntries);
      case Score =>
        selected := AddInOrder(vv, req.maxEntries, Listing(ScoreOrder(vv, fig, sel), keys - sel), start,
                               Left(req, sel));
      case Full =>
        selected := AddRoundRobinEntries(vv, req, start, req.maxEntries);
      case _ =>
        selected := SelectWithReserve(vv, req, fig, env, start, FirstBudget(req, fig.hotTarget, |sel|));
    }
  }

  /** The preferred node comes first. */
  method SelectPreferred(vv: VersionVector, req: Request) returns (selected: set<NodeID>)
    ensures selected == Preselected(vv, req)
  {
    selected := {};
    if req.preferred != EMPTY_NODE_ID {
      var added;
      selected, added := AddEntry(vv, selected, req.preferred);
    }
  }

  /** selectSubset. ScoringFacts.SubsetContract says what the results of all strategies have in
      common. The program copies an entry's number and stamp into the result as it adds the key;
      here the copies are made once the keys are known. */
  method SelectSubset(vv: VersionVector, req: Request, tune: Tuning, env: Outside) returns (result: VersionVector)
    ensures result == Subset(vv, req, tune, env)
  {
    if req.maxEntries == 0 || vv.entries == map[] {
      return EMPTY;
    }
    if req.strategy.Full? || |vv.entries| <= req.maxEntries {
      return vv;
    }
    var selected := SelectPreferred(vv, req);
    var fig := FiguresOf(vv, req, tune);
    FiguresScannable(vv, req, tune);
    selected := SelectPartial(vv, req, fig, env, selected);
    return vv.Restrict(selected);
  }
}
