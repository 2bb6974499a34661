/** What the selector promises, whatever the strategy, the budgets, the ratios and the weights. */
module SelectionFacts {
  import opened Collections
  import opened Nodes
  import opened Orders
  import opened Numbers
  import opened VersionVectors
  import opened Selection

  // ---- Exactly which entries a fill takes ----

  /** How many of order[i..j] are not selected yet. */
  function FreshCount(order: seq<NodeID>, i: nat, j: nat, sel: set<NodeID>): nat
    requires i <= j <= |order|
    decreases j - i
  {
    if i == j then 0 else (if order[i] in sel then 0 else 1) + FreshCount(order, i + 1, j, sel)
  }

  lemma {:induction false} FreshIgnores(order: seq<NodeID>, i: nat, j: nat, sel: set<NodeID>, x: NodeID)
    requires i <= j <= |order| && forall k | i <= k < j :: order[k] != x
    ensures FreshCount(order, i, j, sel + {x}) == FreshCount(order, i, j, sel)
    decreases j - i
  {
    if i < j { FreshIgnores(order, i + 1, j, sel, x); }
  }

  /** A fill takes an entry exactly when fewer than `room` unselected entries precede it. */
  lemma {:induction false} FillExact(known: set<NodeID>, order: seq<NodeID>, i: nat, sel: set<NodeID>, room: nat,
                                     j: nat)
    requires i <= j < |order| && Distinct(order) && forall k | i <= k < |order| :: order[k] in known
    ensures order[j] in FillFrom(known, order, i, sel, room) <==>
            order[j] in sel || FreshCount(order, i, j, sel) < room
    decreases |order| - i
  {
    if room > 0 {
      if order[i] in sel {
        if i < j { FillExact(known, order, i + 1, sel, room, j); } else { FillBounds(known, order, i, sel, room); }
      } else if i < j {
        FreshIgnores(order, i + 1, j, sel, order[i]);
        FillExact(known, order, i + 1, sel + {order[i]}, room - 1, j);
      } else {
        FillBounds(known, order, i + 1, sel + {order[i]}, room - 1);
      }
    }
  }

  lemma {:induction false} FillBounds(known: set<NodeID>, order: seq<NodeID>, i: nat, sel: set<NodeID>, room: nat)
    requires i <= |order|
    ensures sel <= FillFrom(known, order, i, sel, room) <= sel + known
    ensures |FillFrom(known, order, i, sel, room)| <= |sel| + room
    decreases |order| - i
  {
    if i < |order| && room > 0 {
      if order[i] in known && order[i] !in sel {
        FillBounds(known, order, i + 1, sel + {order[i]}, room - 1);
      } else {
        FillBounds(known, order, i + 1, sel, room);
      }
    }
  }

  /** A fill takes as many unselected entries as room allows. */
  lemma {:induction false} FillSize(known: set<NodeID>, order: seq<NodeID>, i: nat, sel: set<NodeID>, room: nat)
    requires i <= |order| && Distinct(order) && forall k | i <= k < |order| :: order[k] in known
    ensures |FillFrom(known, order, i, sel, room)| == |sel| + Min(room, FreshCount(order, i, |order|, sel))
    decreases |order| - i
  {
    if i < |order| && room > 0 {
      if order[i] !in sel {
        FreshIgnores(order, i + 1, |order|, sel, order[i]);
        FillSize(known, order, i + 1, sel + {order[i]}, room - 1);
      } else {
        FillSize(known, order, i + 1, sel, room);
      }
    }
  }

  /** Unselected entries that occur in the order are counted at least once each. */
  lemma {:induction false} FreshCovers(order: seq<NodeID>, i: nat, sel: set<NodeID>, wanted: set<NodeID>)
    requires i <= |order| && wanted !! sel
    requires forall x | x in wanted :: exists k :: i <= k < |order| && order[k] == x
    ensures FreshCount(order, i, |order|, sel) >= |wanted|
    decreases |order| - i
  {
    if i == |order| {
      assert wanted == {};
    } else {
      FreshCovers(order, i + 1, sel, wanted - {order[i]});
      if order[i] in wanted {
        assert wanted == (wanted - {order[i]}) + {order[i]};
      } else {
        assert wanted == wanted - {order[i]};
      }
    }
  }

  /** The order lists every entry that is not selected, and only known ones. */
  ghost predicate Covers(order: seq<NodeID>, known: set<NodeID>, sel: set<NodeID>) {
    && Distinct(order)
    && (forall k | 0 <= k < |order| :: order[k] in known)
    && (forall x | x in known && x !in sel :: x in order)
  }

  /** Filling from such an order uses up the room. */
  lemma FillWhole(known: set<NodeID>, order: seq<NodeID>, sel: set<NodeID>, room: nat)
    requires Covers(order, known, sel) && sel <= known && |sel| + room <= |known|
    ensures |Fill(known, order, sel, room)| == |sel| + room
    ensures sel <= Fill(known, order, sel, room) <= known
  {
    FillSize(known, order, 0, sel, room);
    FillBounds(known, order, 0, sel, room);
    FreshCovers(order, 0, sel, known - sel);
    assert known == sel + (known - sel);
  }

  lemma {:induction false} FreshAll(order: seq<NodeID>, i: nat, j: nat, sel: set<NodeID>)
    requires i <= j <= |order| && forall k | i <= k < j :: order[k] !in sel
    ensures FreshCount(order, i, j, sel) == j - i
    decreases j - i
  {
    if i < j { FreshAll(order, i + 1, j, sel); }
  }

  /** Among candidates that are all unselected, a fill takes the first `room`. */
  lemma FillCandidates(known: set<NodeID>, r: Ranking, sel: set<NodeID>, room: nat, x: NodeID)
    requires x in known - sel && x in Listing(r, known - sel)
    ensures x in Fill(known, Listing(r, known - sel), sel, room) <==>
            IndexOf(Listing(r, known - sel), x) < room
  {
    var order := Listing(r, known - sel);
    ListingFacts(r, known - sel);
    var j := IndexOf(order, x);
    FillExact(known, order, 0, sel, room, j);
    FreshAll(order, 0, j, sel);
  }

  /** Whoever precedes a taken candidate is taken as well. */
  lemma FillPrefix(known: set<NodeID>, r: Ranking, sel: set<NodeID>, room: nat, x: NodeID, y: NodeID)
    requires x in known - sel && y in known - sel && r.Before(x, y)
    ensures y in Fill(known, Listing(r, known - sel), sel, room) ==>
            x in Fill(known, Listing(r, known - sel), sel, room)
  {
    RankSorted(r, known - sel, x, y);
    FillCandidates(known, r, sel, room, x);
    FillCandidates(known, r, sel, room, y);
  }

  // ---- The contract common to all strategies ----

  /** A pass that keeps what was selected, adds known entries only and stays within its limits. */
  ghost predicate Within(vv: VersionVector, req: Request, sel: set<NodeID>, budget: nat, out: set<NodeID>) {
    sel <= out <= vv.entries.Keys && |out| <= |sel| + Room(req.maxEntries, sel, budget)
  }

  /** A pass that moreover uses up its budget. */
  ghost predicate Exactly(vv: VersionVector, req: Request, sel: set<NodeID>, budget: nat, out: set<NodeID>) {
    sel <= out <= vv.entries.Keys && |out| == |sel| + Room(req.maxEntries, sel, budget)
  }

  ghost predicate Partial(vv: VersionVector, req: Request, sel: set<NodeID>) {
    sel <= vv.entries.Keys && |sel| <= req.maxEntries <= |vv.entries|
  }

  /** maxEntries known keys, those already selected among them. */
  ghost predicate Completes(vv: VersionVector, req: Request, sel: set<NodeID>, out: set<NodeID>) {
    sel <= out <= vv.entries.Keys && |out| == req.maxEntries
  }

  lemma OrderPass(vv: VersionVector, req: Request, order: seq<NodeID>, sel: set<NodeID>, budget: nat)
    requires Partial(vv, req, sel)
    requires Covers(order, vv.entries.Keys, sel)
    ensures Exactly(vv, req, sel, budget, Fill(vv.entries.Keys, order, sel, Room(req.maxEntries, sel, budget)))
  {
    FillWhole(vv.entries.Keys, order, sel, Room(req.maxEntries, sel, budget));
  }

  lemma ListingCovers(r: Ranking, known: set<NodeID>, s: set<NodeID>, sel: set<NodeID>)
    requires known - sel <= s <= known
    ensures Covers(Listing(r, s), known, sel)
  {
    ListingFacts(r, s);
  }

  lemma RotatedAt(xs: seq<NodeID>, startIndex: nat, i: nat)
    requires i < |xs|
    ensures |Rotated(xs, startIndex)| == |xs|
    ensures Rotated(xs, startIndex)[i] == NodeAt(xs, startIndex, i)
  {
    WrapOnce(startIndex % |xs| + i, |xs|);
  }

  lemma RotatedCovers(xs: seq<NodeID>, startIndex: nat, known: set<NodeID>, sel: set<NodeID>)
    requires Covers(xs, known, sel)
    ensures Covers(Rotated(xs, startIndex), known, sel)
  {
    if xs != [] {
      var o := startIndex % |xs|;
      assert xs == xs[..o] + xs[o..];
    }
  }

  lemma RecentPass(vv: VersionVector, req: Request, sel: set<NodeID>, budget: nat)
    requires Partial(vv, req, sel)
    ensures Exactly(vv, req, sel, budget, AddRecent(vv, req, sel, budget))
  {
    ListingCovers(RecencyOrder(vv), vv.entries.Keys, vv.entries.Keys, sel);
    OrderPass(vv, req, RecentNodes(vv), sel, budget);
  }

  lemma RoundRobinPass(vv: VersionVector, req: Request, sel: set<NodeID>, budget: nat)
    requires Partial(vv, req, sel)
    ensures Exactly(vv, req, sel, budget, AddRoundRobin(vv, req, sel, budget))
  {
    ListingCovers(BY_NAME, vv.entries.Keys, vv.entries.Keys, sel);
    RotatedCovers(OrderedNodes(vv), req.startIndex, vv.entries.Keys, sel);
    OrderPass(vv, req, Rotated(OrderedNodes(vv), req.startIndex), sel, budget);
  }

  lemma ShuffleCovers(vv: VersionVector, env: Outside, sel: set<NodeID>)
    requires ValidOutside(vv, env)
    ensures Covers(env.shuffled, vv.entries.Keys, sel)
  {
    assert forall k | 0 <= k < |env.shuffled| :: env.shuffled[k] in Elements(env.shuffled);
    DistinctBySize(env.shuffled);
  }

  lemma RandomPass(vv: VersionVector, req: Request, env: Outside, sel: set<NodeID>, budget: nat)
    requires Partial(vv, req, sel) && ValidOutside(vv, env)
    ensures Exactly(vv, req, sel, budget, AddRandom(vv, req, env, sel, budget))
  {
    ShuffleCovers(vv, env, sel);
    OrderPass(vv, req, env.shuffled, sel, budget);
  }

  lemma PartPass(vv: VersionVector, req: Request, order: seq<NodeID>, sel: set<NodeID>, budget: nat)
    requires Partial(vv, req, sel)
    ensures Within(vv, req, sel, budget, Fill(vv.entries.Keys, order, sel, Room(req.maxEntries, sel, budget)))
  {
    FillBounds(vv.entries.Keys, order, 0, sel, Room(req.maxEntries, sel, budget));
  }

  lemma CandidatePass(vv: VersionVector, req: Request, r: Ranking, sel: set<NodeID>, budget: nat)
    requires Partial(vv, req, sel)
    ensures Exactly(vv, req, sel, budget,
                    Fill(vv.entries.Keys, Listing(r, vv.entries.Keys - sel), sel, Room(req.maxEntries, sel, budget)))
  {
    ListingCovers(r, vv.entries.Keys, vv.entries.Keys - sel, sel);
    OrderPass(vv, req, Listing(r, vv.entries.Keys - sel), sel, budget);
  }

  lemma {:induction false} ClusterFillBounds(cluster: NodeID -> ClusterKey, known: set<NodeID>, order: seq<NodeID>,
                                             i: nat, sel: set<NodeID>, seen: set<ClusterKey>, room: nat)
    requires i <= |order| && sel <= known && forall k | i <= k < |order| :: order[k] in known
    ensures sel <= ClusterFill(cluster, order, i, sel, seen, room).0 <= known
    decreases |order| - i
  {
    if i < |order| && room > 0 {
      if cluster(order[i]) in seen {
        ClusterFillBounds(cluster, known, order, i + 1, sel, seen, room);
      } else {
        ClusterFillBounds(cluster, known, order, i + 1, sel + {order[i]}, seen + {cluster(order[i])}, room - 1);
      }
    }
  }

  ghost predicate SeenClusters(cluster: NodeID -> ClusterKey, sel: set<NodeID>, seen: set<ClusterKey>) {
    forall x | x in sel :: cluster(x) in seen
  }

  lemma {:induction false} ClusterFillSize(cluster: NodeID -> ClusterKey, order: seq<NodeID>, i: nat, sel: set<NodeID>,
                                           seen: set<ClusterKey>, room: nat)
    requires i <= |order| && SeenClusters(cluster, sel, seen)
    ensures var r := ClusterFill(cluster, order, i, sel, seen, room); |r.0| + r.2 == |sel| + room
    decreases |order| - i
  {
    if i < |order| && room > 0 {
      if cluster(order[i]) in seen {
        ClusterFillSize(cluster, order, i + 1, sel, seen, room);
      } else {
        assert order[i] !in sel;
        ClusterFillSize(cluster, order, i + 1, sel + {order[i]}, seen + {cluster(order[i])}, room - 1);
      }
    }
  }

  lemma ClusterRecentPass(vv: VersionVector, req: Request, env: Outside, sel: set<NodeID>, budget: nat)
    requires Partial(vv, req, sel)
    ensures Exactly(vv, req, sel, budget, AddClusterRecent(vv, req, env, sel, budget))
    ensures ClusterRound(vv, env, sel, Room(req.maxEntries, sel, budget)).0 <=
            AddClusterRecent(vv, req, env, sel, budget)
  {
    var r := ClusterRound(vv, env, sel, Room(req.maxEntries, sel, budget));
    ListingCovers(RecencyOrder(vv), vv.entries.Keys, vv.entries.Keys, r.0);
    ClusterFillBounds(env.cluster, vv.entries.Keys, RecentNodes(vv), 0, sel, Clusters(env, sel),
                      Room(req.maxEntries, sel, budget));
    ClusterFillSize(env.cluster, RecentNodes(vv), 0, sel, Clusters(env, sel), Room(req.maxEntries, sel, budget));
    FillWhole(vv.entries.Keys, RecentNodes(vv), r.0, r.2);
  }

  /** A choice that always picks an unselected node, if there is one. */
  ghost predicate PicksFresh(known: set<NodeID>, best: Picks -> NodeID) {
    forall p: Picks | known - p.nodes != {} :: best(p) in known - p.nodes
  }

  predicate Filled(known: set<NodeID>, sel: set<NodeID>, room: nat, out: set<NodeID>) {
    sel <= out <= known && |out| == |sel| + room
  }

  lemma PickFresh(known: set<NodeID>, best: Picks -> NodeID, p: Picks)
    requires p.nodes <= known && |p.nodes| < |known| && PicksFresh(known, best)
    ensures best(p) in known - p.nodes
  {
    PartSize(known, p.nodes);
  }

  lemma AddedOne(known: set<NodeID>, sel: set<NodeID>, x: NodeID, grown: set<NodeID>)
    requires sel <= known && x in known - sel && grown == sel + {x}
    ensures grown <= known && |grown| == |sel| + 1
  {
  }

  lemma FilledOneMore(known: set<NodeID>, sel: set<NodeID>, x: NodeID, room: nat, out: set<NodeID>)
    requires x !in sel && room > 0 && Filled(known, sel + {x}, room - 1, out)
    ensures Filled(known, sel, room, out)
  {
  }

  lemma {:induction false} GreedyFillSize(known: set<NodeID>, best: Picks -> NodeID, cluster: NodeID -> ClusterKey,
                                          p: Picks, room: nat)
    requires p.nodes <= known && |p.nodes| + room <= |known| && PicksFresh(known, best)
    ensures Filled(known, p.nodes, room, GreedyFill(known, best, cluster, p, room).nodes)
    decreases room
  {
    if room > 0 {
      PickFresh(known, best, p);
      var grown := p.Add(best(p), cluster(best(p)));
      AddedOne(known, p.nodes, best(p), grown.nodes);
      GreedyFillSize(known, best, cluster, grown, room - 1);
      FilledOneMore(known, p.nodes, best(p), room, GreedyFill(known, best, cluster, grown, room - 1).nodes);
    }
  }

  ghost predicate CountsClusters(env: Outside, p: Picks) {
    forall key :: p.Count(key) == |InCluster(env, key, p.nodes)|
  }

  lemma CountOneMore(env: Outside, p: Picks, x: NodeID)
    requires CountsClusters(env, p) && x !in p.nodes
    ensures CountsClusters(env, p.Add(x, env.cluster(x)))
  {
    var q := p.Add(x, env.cluster(x));
    forall key ensures q.Count(key) == |InCluster(env, key, q.nodes)| {
      InClusterGrows(env, key, p.nodes, x);
      assert p.Count(key) == |InCluster(env, key, p.nodes)|;
    }
  }

  /** Throughout the greedy fill the cluster counts are those of the nodes selected. */
  lemma {:induction false} GreedyFillCounts(known: set<NodeID>, best: Picks -> NodeID, env: Outside, p: Picks,
                                            room: nat)
    requires PicksFresh(known, best)
    requires CountsClusters(env, p)
    ensures CountsClusters(env, GreedyFill(known, best, env.cluster, p, room))
    decreases room
  {
    if room > 0 && known - p.nodes != {} {
      assert best(p) in known - p.nodes;
      CountOneMore(env, p, best(p));
      GreedyFillCounts(known, best, env, p.Add(best(p), env.cluster(best(p))), room - 1);
    }
  }

  lemma InClusterGrows(env: Outside, key: ClusterKey, sel: set<NodeID>, x: NodeID)
    requires x !in sel
    ensures |InCluster(env, key, sel + {x})| == |InCluster(env, key, sel)| + if key == env.cluster(x) then 1 else 0
  {
    assert InCluster(env, key, sel + {x}) == InCluster(env, key, sel) + if key == env.cluster(x) then {x} else {};
  }

  /** The cluster bonus of ClusterScore is computed from the number of nodes selected in the cluster. */
  lemma ClusterScoreCounts(vv: VersionVector, fig: Figures, env: Outside, sel: set<NodeID>, room: nat)
    ensures var best := BestByCluster(vv, fig, env);
            CountsClusters(env, GreedyFill(vv.entries.Keys, best, env.cluster, Counted(env, sel), room))
  {
    var p := Counted(env, sel);
    forall key ensures p.Count(key) == |InCluster(env, key, sel)| {
      if key !in p.perCluster { assert InCluster(env, key, sel) == {}; }
    }
    GreedyFillCounts(vv.entries.Keys, BestByCluster(vv, fig, env), env, p, room);
  }

  lemma AgeScorePass(vv: VersionVector, req: Request, fig: Figures, env: Outside, sel: set<NodeID>, budget: nat)
    requires Partial(vv, req, sel) && req.strategy.AgeScore?
    ensures Exactly(vv, req, sel, budget, AddRanked(vv, req, fig, env, sel, budget))
  {
    CandidatePass(vv, req, AgeScoreOrder(vv, fig, sel), sel, budget);
  }

  lemma DeficitPass(vv: VersionVector, req: Request, fig: Figures, env: Outside, sel: set<NodeID>, budget: nat)
    requires Partial(vv, req, sel) && req.strategy.DeficitScore?
    ensures Exactly(vv, req, sel, budget, AddRanked(vv, req, fig, env, sel, budget))
  {
    CandidatePass(vv, req, DeficitOrder(vv, fig, sel), sel, budget);
  }

  lemma ClusterScorePass(vv: VersionVector, req: Request, fig: Figures, env: Outside, sel: set<NodeID>, budget: nat)
    requires Partial(vv, req, sel) && req.strategy.ClusterScore?
    ensures Exactly(vv, req, sel, budget, AddRanked(vv, req, fig, env, sel, budget))
  {
    BestIsFresh(vv, fig, env);
    GreedyFillSize(vv.entries.Keys, BestByCluster(vv, fig, env), env.cluster, Counted(env, sel),
                   Room(req.maxEntries, sel, budget));
  }

  lemma BestIsFresh(vv: VersionVector, fig: Figures, env: Outside)
    ensures PicksFresh(vv.entries.Keys, BestByCluster(vv, fig, env))
  {
  }

  lemma ClusterHybridPass(vv: VersionVector, req: Request, fig: Figures, env: Outside, sel: set<NodeID>, budget: nat)
    requires Partial(vv, req, sel) && req.strategy.ClusterHybrid?
    ensures Exactly(vv, req, sel, budget, AddRanked(vv, req, fig, env, sel, budget))
  {
    ClusterRecentPass(vv, req, env, sel, budget);
  }

  lemma RankedPass(vv: VersionVector, req: Request, fig: Figures, env: Outside, sel: set<NodeID>, budget: nat)
    requires Partial(vv, req, sel)
    ensures Exactly(vv, req, sel, budget, AddRanked(vv, req, fig, env, sel, budget))
  {
    match req.strategy {
      case AgeScore => AgeScorePass(vv, req, fig, env, sel, budget);
      case DeficitScore => DeficitPass(vv, req, fig, env, sel, budget);
      case ClusterScore => ClusterScorePass(vv, req, fig, env, sel, budget);
      case ClusterHybrid => ClusterHybridPass(vv, req, fig, env, sel, budget);
      case _ => RecentPass(vv, req, sel, budget);
    }
  }

  lemma ReservedPasses(vv: VersionVector, req: Request, fig: Figures, env: Outside, sel0: set<NodeID>, first: nat)
    requires Partial(vv, req, sel0)
    ensures Completes(vv, req, sel0, SelectReserved(vv, req, fig, env, sel0, first))
    ensures var sel1 := AddRanked(vv, req, fig, env, sel0, first);
            Exactly(vv, req, sel0, first, sel1) && sel1 <= SelectReserved(vv, req, fig, env, sel0, first)
    ensures var sel1 := AddRanked(vv, req, fig, env, sel0, first);
            AddRoundRobin(vv, req, sel1, Min(Reserve(req), Left(req, sel1))) <=
            SelectReserved(vv, req, fig, env, sel0, first)
  {
    var sel1 := AddRanked(vv, req, fig, env, sel0, first);
    RankedPass(vv, req, fig, env, sel0, first);
    var sel2 := AddRoundRobin(vv, req, sel1, Min(Reserve(req), Left(req, sel1)));
    RoundRobinPass(vv, req, sel1, Min(Reserve(req), Left(req, sel1)));
    var sel3 := AddRanked(vv, req, fig, env, sel2, Left(req, sel2));
    RankedPass(vv, req, fig, env, sel2, Left(req, sel2));
    RoundRobinPass(vv, req, sel3, Left(req, sel3));
  }

  lemma TopUpPasses(vv: VersionVector, req: Request, sel: set<NodeID>)
    requires Partial(vv, req, sel)
    ensures Completes(vv, req, sel, TopUp(vv, req, sel))
  {
    var more := AddRecent(vv, req, sel, Left(req, sel));
    RecentPass(vv, req, sel, Left(req, sel));
    RoundRobinPass(vv, req, more, Left(req, more));
  }

  lemma ExtraPasses(vv: VersionVector, req: Request, extra: seq<NodeID>, sel: set<NodeID>, budget: nat)
    requires Partial(vv, req, sel)
    ensures Completes(vv, req, sel,
                      TopUp(vv, req, Fill(vv.entries.Keys, extra, sel, Room(req.maxEntries, sel, budget))))
  {
    PartPass(vv, req, extra, sel, budget);
    TopUpPasses(vv, req, Fill(vv.entries.Keys, extra, sel, Room(req.maxEntries, sel, budget)));
  }

  lemma QuotaPasses(vv: VersionVector, req: Request, extra: seq<NodeID>, sel0: set<NodeID>)
    requires Partial(vv, req, sel0)
    ensures Completes(vv, req, sel0, SelectRecentQuota(vv, req, extra, sel0))
  {
    var quota := Min(req.noveltyBudget, Left(req, sel0));
    var recentBudget := if req.maxEntries > |sel0| + quota then req.maxEntries - |sel0| - quota else 0;
    var sel1 := AddRecent(vv, req, sel0, recentBudget);
    RecentPass(vv, req, sel0, recentBudget);
    ExtraPasses(vv, req, extra, sel1, Min(quota, Left(req, sel1)));
  }

  lemma RecentPasses(vv: VersionVector, req: Request, sel0: set<NodeID>)
    requires Partial(vv, req, sel0)
    ensures Completes(vv, req, sel0, SelectRecent(vv, req, sel0))
  {
    var sel1 := AddSticky(vv, req, sel0, Min(req.stickyBudget, Left(req, sel0)));
    PartPass(vv, req, req.sticky, sel0, Min(req.stickyBudget, Left(req, sel0)));
    RecentPass(vv, req, sel1, req.maxEntries);
  }

  lemma StickyPasses(vv: VersionVector, req: Request, sel0: set<NodeID>)
    requires Partial(vv, req, sel0)
    ensures Completes(vv, req, sel0, SelectStickyRecent(vv, req, sel0))
  {
    var sel1 := AddSticky(vv, req, sel0, Min(req.stickyBudget, Left(req, sel0)));
    PartPass(vv, req, req.sticky, sel0, Min(req.stickyBudget, Left(req, sel0)));
    TopUpPasses(vv, req, sel1);
  }

  /** The strategies that keep a fairness reserve. */
  predicate KeepsReserve(strategy: Strategy) {
    strategy.Hybrid? || strategy.ClusterHybrid? || strategy.AgeScore? || strategy.DeficitScore? ||
    strategy.ClusterScore?
  }

  lemma ReservedSelection(vv: VersionVector, req: Request, fig: Figures, env: Outside)
    requires 0 < req.maxEntries <= |vv.entries| && KeepsReserve(req.strategy)
    ensures Completes(vv, req, Preselected(vv, req), SelectKeys(vv, req, fig, env))
  {
    ReservedPasses(vv, req, fig, env, Preselected(vv, req), FirstBudget(req, fig.hotTarget, |Preselected(vv, req)|));
  }

  lemma RecentKeys(vv: VersionVector, req: Request, fig: Figures, env: Outside)
    requires 0 < req.maxEntries <= |vv.entries| && req.strategy.Recent?
    ensures SelectKeys(vv, req, fig, env) == SelectRecent(vv, req, Preselected(vv, req))
  {
  }

  lemma RecentSelection(vv: VersionVector, req: Request, fig: Figures, env: Outside)
    requires 0 < req.maxEntries <= |vv.entries| && req.strategy.Recent?
    ensures Completes(vv, req, Preselected(vv, req), SelectKeys(vv, req, fig, env))
  {
    RecentKeys(vv, req, fig, env);
    RecentPasses(vv, req, Preselected(vv, req));
  }

  lemma StickySelection(vv: VersionVector, req: Request, fig: Figures, env: Outside)
    requires 0 < req.maxEntries <= |vv.entries| && req.strategy.StickyRecent?
    ensures Completes(vv, req, Preselected(vv, req), SelectKeys(vv, req, fig, env))
  {
    StickyPasses(vv, req, Preselected(vv, req));
  }

  lemma NoveltySelection(vv: VersionVector, req: Request, fig: Figures, env: Outside)
    requires 0 < req.maxEntries <= |vv.entries| && req.strategy.RecentNoveltyQuota?
    ensures Completes(vv, req, Preselected(vv, req), SelectKeys(vv, req, fig, env))
  {
    QuotaPasses(vv, req, NoveltyNodes(vv, req), Preselected(vv, req));
  }

  lemma RandomQuotaSelection(vv: VersionVector, req: Request, fig: Figures, env: Outside)
    requires 0 < req.maxEntries <= |vv.entries| && req.strategy.RecentRandomQuota?
    ensures Completes(vv, req, Preselected(vv, req), SelectKeys(vv, req, fig, env))
  {
    QuotaPasses(vv, req, env.shuffled, Preselected(vv, req));
  }

  lemma AdaptiveSelection(vv: VersionVector, req: Request, fig: Figures, env: Outside)
    requires 0 < req.maxEntries <= |vv.entries| && req.strategy.AdaptiveRecentScore?
    ensures Completes(vv, req, Preselected(vv, req), SelectKeys(vv, req, fig, env))
  {
    RecentPass(vv, req, Preselected(vv, req), req.maxEntries);
  }

  lemma RandomSelection(vv: VersionVector, req: Request, fig: Figures, env: Outside)
    requires 0 < req.maxEntries <= |vv.entries| && ValidOutside(vv, env) && req.strategy.Random?
    ensures Completes(vv, req, Preselected(vv, req), SelectKeys(vv, req, fig, env))
  {
    RandomPass(vv, req, env, Preselected(vv, req), req.maxEntries);
  }

  lemma RoundRobinSelection(vv: VersionVector, req: Request, fig: Figures, env: Outside)
    requires 0 < req.maxEntries <= |vv.entries| && (req.strategy.RoundRobin? || req.strategy.Full?)
    ensures Completes(vv, req, Preselected(vv, req), SelectKeys(vv, req, fig, env))
  {
    RoundRobinPass(vv, req, Preselected(vv, req), req.maxEntries);
  }

  lemma ScoreSelection(vv: VersionVector, req: Request, fig: Figures, env: Outside)
    requires 0 < req.maxEntries <= |vv.entries| && req.strategy.Score?
    ensures Completes(vv, req, Preselected(vv, req), SelectKeys(vv, req, fig, env))
  {
    CandidatePass(vv, req, ScoreOrder(vv, fig, Preselected(vv, req)), Preselected(vv, req),
                  Left(req, Preselected(vv, req)));
  }

  /** Every strategy selects exactly maxEntries known keys and never leaves out the preferred node. */
  lemma SelectorContract(vv: VersionVector, req: Request, fig: Figures, env: Outside)
    requires 0 < req.maxEntries <= |vv.entries| && ValidOutside(vv, env)
    ensures Completes(vv, req, Preselected(vv, req), SelectKeys(vv, req, fig, env))
  {
    match req.strategy {
      case Recent => RecentSelection(vv, req, fig, env);
      case StickyRecent => StickySelection(vv, req, fig, env);
      case RecentNoveltyQuota => NoveltySelection(vv, req, fig, env);
      case RecentRandomQuota => RandomQuotaSelection(vv, req, fig, env);
      case AdaptiveRecentScore => AdaptiveSelection(vv, req, fig, env);
      case Random => RandomSelection(vv, req, fig, env);
      case Score => ScoreSelection(vv, req, fig, env);
      case RoundRobin => RoundRobinSelection(vv, req, fig, env);
      case Full => RoundRobinSelection(vv, req, fig, env);
      case _ => ReservedSelection(vv, req, fig, env);
    }
  }

  // ---- Every selector but Random and the sticky or quota families looks at the cursor ----

  lemma {:induction false} FreshAtMost(order: seq<NodeID>, i: nat, j: nat, sel: set<NodeID>)
    requires i <= j <= |order|
    ensures FreshCount(order, i, j, sel) <= j - i
    decreases j - i
  {
    if i < j { FreshAtMost(order, i + 1, j, sel); }
  }

  /** A pass round the cursor with room for more than d entries adds the one d places on. */
  lemma CursorEntryAdded(vv: VersionVector, req: Request, sel: set<NodeID>, budget: nat, d: nat)
    requires Partial(vv, req, sel) && d < budget && |sel| + d < req.maxEntries && d < |OrderedNodes(vv)|
    ensures NodeAt(OrderedNodes(vv), req.startIndex, d) in AddRoundRobin(vv, req, sel, budget)
  {
    var order := Rotated(OrderedNodes(vv), req.startIndex);
    ListingCovers(BY_NAME, vv.entries.Keys, vv.entries.Keys, {});
    RotatedCovers(OrderedNodes(vv), req.startIndex, vv.entries.Keys, {});
    RotatedAt(OrderedNodes(vv), req.startIndex, d);
    FreshAtMost(order, 0, d, sel);
    FillExact(vv.entries.Keys, order, 0, sel, Room(req.maxEntries, sel, budget), d);
  }

  lemma CursorInReserved(vv: VersionVector, req: Request, fig: Figures, env: Outside, sel0: set<NodeID>, first: nat,
                         d: nat)
    requires Partial(vv, req, sel0) && d < Reserve(req) && |sel0| + first + d < req.maxEntries && d < |OrderedNodes(vv)|
    ensures NodeAt(OrderedNodes(vv), req.startIndex, d) in SelectReserved(vv, req, fig, env, sel0, first)
  {
    ReservedPasses(vv, req, fig, env, sel0, first);
    var sel1 := AddRanked(vv, req, fig, env, sel0, first);
    CursorEntryAdded(vv, req, sel1, Min(Reserve(req), Left(req, sel1)), d);
  }

  /** An entry whose distance from the cursor is less than the fairness reserve, and than the room the
      first pass leaves, travels. */
  lemma CursorEntrySelected(vv: VersionVector, req: Request, fig: Figures, env: Outside, d: nat)
    requires 0 < req.maxEntries <= |vv.entries| && KeepsReserve(req.strategy)
    requires d < Reserve(req) && d < |OrderedNodes(vv)|
    requires |Preselected(vv, req)| + FirstBudget(req, fig.hotTarget, |Preselected(vv, req)|) + d < req.maxEntries
    ensures NodeAt(OrderedNodes(vv), req.startIndex, d) in SelectKeys(vv, req, fig, env)
  {
    CursorInReserved(vv, req, fig, env, Preselected(vv, req),
                     FirstBudget(req, fig.hotTarget, |Preselected(vv, req)|), d);
  }

  // ---- ClusterHybrid spreads over clusters ----

  /** The node that represents a cluster: the one most recently updated. */
  predicate Represents(vv: VersionVector, env: Outside, x: NodeID) {
    IsFirst(RecencyOrder(vv), InCluster(env, env.cluster(x), vv.entries.Keys), x)
  }

  lemma NewCluster(env: Outside, sel: set<NodeID>, x: NodeID)
    ensures Clusters(env, sel + {x}) == Clusters(env, sel) + {env.cluster(x)}
    ensures x in sel ==> env.cluster(x) in Clusters(env, sel)
  {
  }

  /** Room is spent on new clusters only, until the order holds no more of them. */
  lemma {:induction false} ClusterFillSpread(cluster: NodeID -> ClusterKey, order: seq<NodeID>, i: nat,
                                             sel: set<NodeID>, seen: set<ClusterKey>, room: nat)
    requires i <= |order|
    ensures var r := ClusterFill(cluster, order, i, sel, seen, room);
            && seen <= r.1
            && |r.1| == |seen| + (room - r.2)
            && (r.2 == 0 || forall k | i <= k < |order| :: cluster(order[k]) in r.1)
    decreases |order| - i
  {
    if i < |order| && room > 0 {
      if cluster(order[i]) in seen {
        ClusterFillSpread(cluster, order, i + 1, sel, seen, room);
      } else {
        ClusterFillSpread(cluster, order, i + 1, sel + {order[i]}, seen + {cluster(order[i])}, room - 1);
      }
    }
  }

  /** The clusters marked as seen are those of the selection. */
  lemma {:induction false} ClusterFillSeen(env: Outside, order: seq<NodeID>, i: nat, sel: set<NodeID>, room: nat)
    requires i <= |order|
    ensures var r := ClusterFill(env.cluster, order, i, sel, Clusters(env, sel), room); r.1 == Clusters(env, r.0)
    decreases |order| - i
  {
    if i < |order| && room > 0 {
      if env.cluster(order[i]) in Clusters(env, sel) {
        ClusterFillSeen(env, order, i + 1, sel, room);
      } else {
        NewCluster(env, sel, order[i]);
        ClusterFillSeen(env, order, i + 1, sel + {order[i]}, room - 1);
      }
    }
  }

  /** A node the cluster pass adds precedes, in the order walked, every other node of its cluster. */
  lemma {:induction false} ClusterFillRepresents(cluster: NodeID -> ClusterKey, order: seq<NodeID>, i: nat,
                                                 sel: set<NodeID>, seen: set<ClusterKey>, room: nat, x: NodeID)
    returns (j: nat)
    requires i <= |order|
    requires x in ClusterFill(cluster, order, i, sel, seen, room).0 && x !in sel
    ensures i <= j < |order| && order[j] == x && cluster(x) !in seen
    ensures forall k | i <= k < j :: cluster(order[k]) != cluster(x)
    decreases |order| - i
  {
    if cluster(order[i]) in seen {
      j := ClusterFillRepresents(cluster, order, i + 1, sel, seen, room, x);
    } else if x == order[i] {
      j := i;
    } else {
      j := ClusterFillRepresents(cluster, order, i + 1, sel + {order[i]}, seen + {cluster(order[i])}, room - 1, x);
    }
  }

  /** The clusters the cluster pass reaches. */
  lemma SpreadOfPass(vv: VersionVector, env: Outside, sel0: set<NodeID>, room: nat)
    requires sel0 <= vv.entries.Keys
    ensures var spread := Clusters(env, ClusterRound(vv, env, sel0, room).0);
            && |spread| >= Min(|Clusters(env, vv.entries.Keys)|, |Clusters(env, sel0)| + room)
            && forall key | key in spread && key !in Clusters(env, sel0) ::
                 exists x :: x in ClusterRound(vv, env, sel0, room).0 && env.cluster(x) == key && Represents(vv, env, x)
  {
    var order := RecentNodes(vv);
    var r := ClusterRound(vv, env, sel0, room);
    ClusterFillSpread(env.cluster, order, 0, sel0, Clusters(env, sel0), room);
    ClusterFillSeen(env, order, 0, sel0, room);
    if r.2 > 0 {
      forall x | x in vv.entries ensures env.cluster(x) in Clusters(env, r.0) {
        ListingHas(RecencyOrder(vv), vv.entries.Keys, x);
        assert order[IndexOf(order, x)] == x;
      }
      SubsetSize(Clusters(env, vv.entries.Keys), Clusters(env, r.0));
    }
    forall key | key in Clusters(env, r.0) && key !in Clusters(env, sel0)
      ensures exists x :: x in r.0 && env.cluster(x) == key && Represents(vv, env, x)
    {
      var x :| x in r.0 && env.cluster(x) == key;
      var j := ClusterFillRepresents(env.cluster, order, 0, sel0, Clusters(env, sel0), room, x);
      FirstOfCluster(vv, env, j);
    }
  }

  /** ClusterHybrid represents as many clusters as its cluster budget allows, and every cluster
      it reaches through that budget by its most recently updated node. */
  lemma ClusterSpread(vv: VersionVector, req: Request, fig: Figures, env: Outside) returns (spread: set<ClusterKey>)
    requires 0 < req.maxEntries <= |vv.entries| && req.strategy == ClusterHybrid
    ensures spread <= Clusters(env, SelectKeys(vv, req, fig, env))
    ensures var s := |Preselected(vv, req)|;
            |spread| >=
            Min(|Clusters(env, vv.entries.Keys)|, s + Min(FirstBudget(req, fig.hotTarget, s), req.maxEntries - s))
    ensures forall key | key in spread && key !in Clusters(env, Preselected(vv, req)) ::
              exists x :: x in SelectKeys(vv, req, fig, env) && env.cluster(x) == key && Represents(vv, env, x)
  {
    var sel0 := Preselected(vv, req);
    var first := FirstBudget(req, fig.hotTarget, |sel0|);
    var room := Room(req.maxEntries, sel0, first);
    spread := Clusters(env, ClusterRound(vv, env, sel0, room).0);
    SpreadOfPass(vv, env, sel0, room);
    ClusterRecentPass(vv, req, env, sel0, first);
    ReservedPasses(vv, req, fig, env, sel0, first);
    assert ClusterRound(vv, env, sel0, room).0 <= SelectKeys(vv, req, fig, env);
    assert Clusters(env, sel0) == if sel0 == {} then {} else {env.cluster(req.preferred)};
  }

  /** In recency order, the first node met of a cluster is the cluster's representative. */
  lemma FirstOfCluster(vv: VersionVector, env: Outside, j: nat)
    requires j < |RecentNodes(vv)|
    requires forall k | 0 <= k < j :: env.cluster(RecentNodes(vv)[k]) != env.cluster(RecentNodes(vv)[j])
    ensures Represents(vv, env, RecentNodes(vv)[j])
  {
    var order := RecentNodes(vv);
    var x := order[j];
    ListingAt(RecencyOrder(vv), vv.entries.Keys, j);
    forall y | y in InCluster(env, env.cluster(x), vv.entries.Keys) && y != x
      ensures RecencyOrder(vv).Before(x, y)
    {
      ListingHas(RecencyOrder(vv), vv.entries.Keys, y);
      ListingBefore(RecencyOrder(vv), vv.entries.Keys, j, IndexOf(order, y));
    }
  }
}
