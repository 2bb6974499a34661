/** VersionVector::selectSubset as a choice of keys: which entries of a vector travel in a
    partial Sync Interest. The loops that make the choice are in Selector.dfy. */
module Selection {
  import opened Nodes
  import opened Orders
  import opened Numbers
  import opened VersionVectors

  datatype Strategy =
    | Full | Hybrid | ClusterHybrid | StickyRecent | RecentNoveltyQuota | RecentRandomQuota
    | AdaptiveRecentScore | Score | ClusterScore | AgeScore | DeficitScore | RoundRobin
    | Recent | Random

  /** The arguments of selectSubset, but for those that only enter the scores (Scoring.Tuning). */
  datatype Request = Request(
    maxEntries: nat,
    recentEntries: nat,
    startIndex: nat,
    preferred: NodeID,
    strategy: Strategy,
    minFairEntries: nat,
    sticky: seq<NodeID>,
    stickyBudget: nat,
    noveltyBase: seq<NodeID>,
    noveltyBudget: nat)

  datatype ClusterKey = ClusterKey(text: string)

  /** What the selector takes from elsewhere: the order std::shuffle left the nodes in, and the
      cluster key that extractClusterKey reads off each node's URI. */
  datatype Outside = Outside(shuffled: seq<NodeID>, cluster: NodeID -> ClusterKey)

  /** The shuffled nodes are the entries of the vector, each once. */
  ghost predicate ValidOutside(vv: VersionVector, env: Outside) {
    Elements(env.shuffled) == vv.entries.Keys && |env.shuffled| == |vv.entries|
  }

  // ---- Filling from an order ----

  /** How many entries a pass with this budget may still add. */
  function Room(max: nat, selected: set<NodeID>, budget: nat): nat {
    if |selected| >= max then 0 else Min(budget, max - |selected|)
  }

  /** Walk the order from position i, adding entries that are known and not yet selected, while
      room lasts. */
  function FillFrom(known: set<NodeID>, order: seq<NodeID>, i: nat, selected: set<NodeID>, room: nat): set<NodeID>
    requires i <= |order|
    decreases |order| - i
  {
    if i == |order| || room == 0 then selected
    else if order[i] in known && order[i] !in selected then
      FillFrom(known, order, i + 1, selected + {order[i]}, room - 1)
    else FillFrom(known, order, i + 1, selected, room)
  }

  function Fill(known: set<NodeID>, order: seq<NodeID>, selected: set<NodeID>, room: nat): set<NodeID> {
    FillFrom(known, order, 0, selected, room)
  }

  // ---- The passes ----

  /** The figures a selection works from, all computed from the vector and the request: the scores
      of the nodes under the four scoring strategies (without the cluster bonus, which changes as
      nodes are added) and the share of the budget reserved for recent entries. */
  datatype Figures = Figures(
    weighted: map<NodeID, real>,
    aged: map<NodeID, real>,
    deficit: map<NodeID, real>,
    clustered: map<NodeID, real>,
    hotTarget: nat)

  function InCluster(env: Outside, key: ClusterKey, nodes: set<NodeID>): set<NodeID> {
    set x | x in nodes && env.cluster(x) == key
  }

  function ClusterBonus(count: nat): (r: real)
    ensures 0.0 <= r <= 0.30
  {
    if count == 0 then 0.30 else MaxReal(0.0, 0.18 - 0.08 * count as real)
  }

  function LastUpdates(vv: VersionVector): map<NodeID, Time> {
    map k | k in vv.entries :: vv.GetLastUpdate(k)
  }

  function Ages(vv: VersionVector): map<NodeID, Time> {
    map k | k in vv.entries :: -vv.GetLastUpdate(k)
  }

  /** The unselected entries: highest score first, then most recently updated, then by name. */
  function ScoreOrder(vv: VersionVector, fig: Figures, sel: set<NodeID>): Ranking {
    Ranking(fig.weighted - sel, LastUpdates(vv) - sel)
  }

  /** Highest score first, then least recently updated, then by name. */
  function AgeScoreOrder(vv: VersionVector, fig: Figures, sel: set<NodeID>): Ranking {
    Ranking(fig.aged - sel, Ages(vv) - sel)
  }

  function DeficitOrder(vv: VersionVector, fig: Figures, sel: set<NodeID>): Ranking {
    Ranking(fig.deficit - sel, LastUpdates(vv) - sel)
  }

  /** A selection with, for every cluster met so far, how many of its nodes are selected. */
  datatype Picks = Picks(nodes: set<NodeID>, perCluster: map<ClusterKey, nat>) {
    function Count(key: ClusterKey): nat { if key in perCluster then perCluster[key] else 0 }

    function Add(x: NodeID, key: ClusterKey): Picks {
      Picks(nodes + {x}, perCluster[key := Count(key) + 1])
    }
  }

  function Counted(env: Outside, sel: set<NodeID>): Picks {
    Picks(sel, map key | key in Clusters(env, sel) :: |InCluster(env, key, sel)|)
  }

  function ClusterScoreOrder(vv: VersionVector, fig: Figures, env: Outside, p: Picks): Ranking {
    Ranking(map k | k in fig.clustered && k !in p.nodes :: fig.clustered[k] + ClusterBonus(p.Count(env.cluster(k))),
            LastUpdates(vv) - p.nodes)
  }

  /** The nodes in the order a round-robin pass visits them. */
  function Rotated(xs: seq<NodeID>, startIndex: nat): (r: seq<NodeID>) {
    if xs == [] then []
    else
      var o := startIndex % |xs|;
      xs[o..] + xs[..o]
  }

  /** The node at distance i from the cursor. */
  function NodeAt(xs: seq<NodeID>, startIndex: nat, i: nat): NodeID
    requires i < |xs|
  {
    xs[(startIndex % |xs| + i) % |xs|]
  }

  function AddSticky(vv: VersionVector, req: Request, sel: set<NodeID>, budget: nat): set<NodeID> {
    Fill(vv.entries.Keys, req.sticky, sel, Room(req.maxEntries, sel, budget))
  }

  function AddRecent(vv: VersionVector, req: Request, sel: set<NodeID>, budget: nat): set<NodeID> {
    Fill(vv.entries.Keys, RecentNodes(vv), sel, Room(req.maxEntries, sel, budget))
  }

  function AddRoundRobin(vv: VersionVector, req: Request, sel: set<NodeID>, budget: nat): set<NodeID> {
    Fill(vv.entries.Keys, Rotated(OrderedNodes(vv), req.startIndex), sel, Room(req.maxEntries, sel, budget))
  }

  function AddRandom(vv: VersionVector, req: Request, env: Outside, sel: set<NodeID>, budget: nat): set<NodeID> {
    Fill(vv.entries.Keys, env.shuffled, sel, Room(req.maxEntries, sel, budget))
  }

  function NoveltyNodes(vv: VersionVector, req: Request): seq<NodeID> {
    Listing(RecencyOrder(vv), vv.entries.Keys - Elements(req.noveltyBase))
  }

  function AddScore(vv: VersionVector, req: Request, fig: Figures, sel: set<NodeID>, budget: nat): set<NodeID> {
    Fill(vv.entries.Keys, Listing(ScoreOrder(vv, fig, sel), vv.entries.Keys - sel), sel,
         Room(req.maxEntries, sel, budget))
  }

  function AddAgeScore(vv: VersionVector, req: Request, fig: Figures, sel: set<NodeID>, budget: nat): set<NodeID> {
    Fill(vv.entries.Keys, Listing(AgeScoreOrder(vv, fig, sel), vv.entries.Keys - sel), sel,
         Room(req.maxEntries, sel, budget))
  }

  function AddDeficitScore(vv: VersionVector, req: Request, fig: Figures, sel: set<NodeID>, budget: nat): set<NodeID> {
    Fill(vv.entries.Keys, Listing(DeficitOrder(vv, fig, sel), vv.entries.Keys - sel), sel,
         Room(req.maxEntries, sel, budget))
  }

  function Clusters(env: Outside, nodes: set<NodeID>): set<ClusterKey> {
    set x | x in nodes :: env.cluster(x)
  }

  /** Walk the order from position i, adding every node whose cluster has not been seen; the
      result is the selection, the clusters seen and the room left over. */
  function ClusterFill(cluster: NodeID -> ClusterKey, order: seq<NodeID>, i: nat, sel: set<NodeID>,
                       seen: set<ClusterKey>, room: nat): (r: (set<NodeID>, set<ClusterKey>, nat))
    requires i <= |order|
    decreases |order| - i
  {
    if i == |order| || room == 0 then (sel, seen, room)
    else if cluster(order[i]) in seen then ClusterFill(cluster, order, i + 1, sel, seen, room)
    else ClusterFill(cluster, order, i + 1, sel + {order[i]}, seen + {cluster(order[i])}, room - 1)
  }

  function ClusterRound(vv: VersionVector, env: Outside, sel: set<NodeID>,
                        room: nat): (set<NodeID>, set<ClusterKey>, nat)
  {
    ClusterFill(env.cluster, RecentNodes(vv), 0, sel, Clusters(env, sel), room)
  }

  function AddClusterRecent(vv: VersionVector, req: Request, env: Outside, sel: set<NodeID>, budget: nat): set<NodeID> {
    var r := ClusterRound(vv, env, sel, Room(req.maxEntries, sel, budget));
    Fill(vv.entries.Keys, RecentNodes(vv), r.0, r.2)
  }

  /** Repeatedly add the node that is best given what is selected already. */
  function GreedyFill(known: set<NodeID>, best: Picks -> NodeID, cluster: NodeID -> ClusterKey, p: Picks,
                      room: nat): Picks
    decreases room
  {
    if room == 0 || known - p.nodes == {} then p
    else GreedyFill(known, best, cluster, p.Add(best(p), cluster(best(p))), room - 1)
  }

  /** The best-scoring unselected node; each choice changes the cluster bonuses. */
  function BestByCluster(vv: VersionVector, fig: Figures, env: Outside): Picks -> NodeID {
    (p: Picks) => if vv.entries.Keys - p.nodes == {} then EMPTY_NODE_ID
                  else First(ClusterScoreOrder(vv, fig, env, p), vv.entries.Keys - p.nodes)
  }

  function AddClusterScore(vv: VersionVector, req: Request, fig: Figures, env: Outside, sel: set<NodeID>,
                           budget: nat): set<NodeID>
  {
    GreedyFill(vv.entries.Keys, BestByCluster(vv, fig, env), env.cluster, Counted(env, sel),
               Room(req.maxEntries, sel, budget)).nodes
  }

  // ---- The strategies ----

  function Reserve(req: Request): nat {
    if req.maxEntries >= 4 then Min(req.maxEntries - 1, Max(1, req.minFairEntries)) else 0
  }

  /** Budget of a scoring pass that leaves the fairness reserve free, if anything is then left. */
  function ReservedBudget(req: Request, size: nat): nat
    requires size <= req.maxEntries
  {
    if req.maxEntries > size + Reserve(req) then req.maxEntries - size - Reserve(req)
    else req.maxEntries - size
  }

  function Left(req: Request, sel: set<NodeID>): nat {
    if |sel| < req.maxEntries then req.maxEntries - |sel| else 0
  }

  function SelectRecent(vv: VersionVector, req: Request, sel0: set<NodeID>): set<NodeID> {
    var sel1 := AddSticky(vv, req, sel0, Min(req.stickyBudget, Left(req, sel0)));
    AddRecent(vv, req, sel1, req.maxEntries)
  }

  /** What is left goes to the most recent entries, then round the cursor. */
  function TopUp(vv: VersionVector, req: Request, sel: set<NodeID>): set<NodeID> {
    var more := AddRecent(vv, req, sel, Left(req, sel));
    AddRoundRobin(vv, req, more, Left(req, more))
  }

  function SelectStickyRecent(vv: VersionVector, req: Request, sel0: set<NodeID>): set<NodeID> {
    TopUp(vv, req, AddSticky(vv, req, sel0, Min(req.stickyBudget, Left(req, sel0))))
  }

  /** RecentNoveltyQuota and RecentRandomQuota keep a quota for the nodes of an extra list. */
  function SelectRecentQuota(vv: VersionVector, req: Request, extra: seq<NodeID>, sel0: set<NodeID>): set<NodeID> {
    var quota := Min(req.noveltyBudget, Left(req, sel0));
    var recentBudget := if req.maxEntries > |sel0| + quota then req.maxEntries - |sel0| - quota else 0;
    var sel1 := AddRecent(vv, req, sel0, recentBudget);
    TopUp(vv, req, Fill(vv.entries.Keys, extra, sel1, Room(req.maxEntries, sel1, Min(quota, Left(req, sel1)))))
  }

  /** The scoring pass of AgeScore, DeficitScore, ClusterScore and ClusterHybrid. */
  function AddRanked(vv: VersionVector, req: Request, fig: Figures, env: Outside, sel: set<NodeID>,
                     budget: nat): set<NodeID>
  {
    match req.strategy
    case AgeScore => AddAgeScore(vv, req, fig, sel, budget)
    case DeficitScore => AddDeficitScore(vv, req, fig, sel, budget)
    case ClusterScore => AddClusterScore(vv, req, fig, env, sel, budget)
    case ClusterHybrid => AddClusterRecent(vv, req, env, sel, budget)
    case _ => AddRecent(vv, req, sel, budget)
  }

  /** A first pass with its own budget, the round-robin reserve, then whatever fits. */
  function SelectReserved(vv: VersionVector, req: Request, fig: Figures, env: Outside, sel0: set<NodeID>,
                          first: nat): set<NodeID>
  {
    var sel1 := AddRanked(vv, req, fig, env, sel0, first);
    var sel2 := AddRoundRobin(vv, req, sel1, Min(Reserve(req), Left(req, sel1)));
    var sel3 := AddRanked(vv, req, fig, env, sel2, Left(req, sel2));
    AddRoundRobin(vv, req, sel3, Left(req, sel3))
  }

  function HotTarget(req: Request, hotTarget: nat, size: nat): (t: nat)
    requires size <= req.maxEntries
    ensures size <= t <= req.maxEntries
  {
    var t1 := if hotTarget + Reserve(req) > req.maxEntries then req.maxEntries - Reserve(req) else hotTarget;
    Max(Max(t1, size), Min(req.maxEntries, size + Max(1, req.recentEntries)))
  }

  /** Budget of the first pass of the strategies that keep a fairness reserve. */
  function FirstBudget(req: Request, hotTarget: nat, size: nat): nat
    requires size <= req.maxEntries
  {
    match req.strategy
    case Hybrid => HotTarget(req, hotTarget, size) - size
    case ClusterHybrid =>
      Max(ReservedBudget(req, size), Min(req.maxEntries, if req.recentEntries > 0 then req.recentEntries else 1))
    case _ => ReservedBudget(req, size)
  }

  function Preselected(vv: VersionVector, req: Request): set<NodeID> {
    if req.preferred != EMPTY_NODE_ID && req.preferred in vv.entries then {req.preferred} else {}
  }

  /** The keys selectSubset chooses when the vector does not fit as a whole. */
  function SelectKeys(vv: VersionVector, req: Request, fig: Figures, env: Outside): set<NodeID>
    requires 0 < req.maxEntries
  {
    var sel0 := Preselected(vv, req);
    match req.strategy
    case Recent => SelectRecent(vv, req, sel0)
    case StickyRecent => SelectStickyRecent(vv, req, sel0)
    case RecentNoveltyQuota => SelectRecentQuota(vv, req, NoveltyNodes(vv, req), sel0)
    case RecentRandomQuota => SelectRecentQuota(vv, req, env.shuffled, sel0)
    case AdaptiveRecentScore => AddRecent(vv, req, sel0, req.maxEntries)
    case Random => AddRandom(vv, req, env, sel0, req.maxEntries)
    case RoundRobin => AddRoundRobin(vv, req, sel0, req.maxEntries)
    case Score => AddScore(vv, req, fig, sel0, Left(req, sel0))
    case Full => AddRoundRobin(vv, req, sel0, req.maxEntries)
    case _ => SelectReserved(vv, req, fig, env, sel0, FirstBudget(req, fig.hotTarget, |sel0|))
  }
}
