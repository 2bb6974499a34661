/** What the passes that look at clusters add: ClusterScore the candidate that is best given what is
    selected already, again and again, ClusterHybrid the most recent representatives of new clusters. */
module ClusterLaws {
  import opened Collections
  import opened Nodes
  import opened Orders
  import opened VersionVectors
  import opened Selection
  import opened SelectionFacts
  import opened Scoring
  import opened Ranks
  import opened Tradeoffs

  // ---- ClusterScore ----

  /** What a node gains from how few of its cluster are selected. */
  function NewcomerBonus(selected: nat): real {
    if selected == 0 then 0.30 else if selected == 1 then 0.10 else if selected == 2 then 0.02 else 0.0
  }

  lemma BonusIs(k: nat)
    ensures ClusterBonus(k) == NewcomerBonus(k)
  {
  }

  function BonusOf(env: Outside, sel: set<NodeID>, x: NodeID): real {
    NewcomerBonus(|InCluster(env, env.cluster(x), sel)|)
  }

  /** By how much x is preferred to y once these nodes are selected. */
  function Edge(vv: VersionVector, env: Outside, rule: Rule, sel: set<NodeID>, x: NodeID, y: NodeID): real
    requires x in vv.entries && y in vv.entries
  {
    Advantage(vv, rule, x, y) + BonusOf(env, sel, x) - BonusOf(env, sel, y)
  }

  predicate Outdoes(vv: VersionVector, env: Outside, rule: Rule, sel: set<NodeID>, x: NodeID, y: NodeID)
    requires x in vv.entries && y in vv.entries
  {
    var a := Edge(vv, env, rule, sel, x, y);
    a > 0.0 || (a == 0.0 && RecencyOrder(vv).Before(x, y))
  }

  /** The candidate that outdoes all others. */
  ghost predicate IsBest(vv: VersionVector, env: Outside, rule: Rule, sel: set<NodeID>, x: NodeID) {
    x in vv.entries.Keys - sel && forall y | y in vv.entries.Keys - sel && y != x :: Outdoes(vv, env, rule, sel, x, y)
  }

  lemma ClusterScoreOrderAt(vv: VersionVector, req: Request, tune: Tuning, env: Outside, p: Picks, x: NodeID)
    requires x in vv.entries && x !in p.nodes && CountsClusters(env, p)
    ensures var r := ClusterScoreOrder(vv, FiguresOf(vv, req, tune), env, p);
            && r.Primary(x) == ClusteredScore(vv, req, tune, x) + BonusOf(env, p.nodes, x)
            && r.Secondary(x) == RecencyOrder(vv).Secondary(x)
  {
    BonusIs(p.Count(env.cluster(x)));
    assert p.Count(env.cluster(x)) == |InCluster(env, env.cluster(x), p.nodes)|;
  }

  lemma OutdoesByScore(vv: VersionVector, req: Request, tune: Tuning, env: Outside, rule: Rule, p: Picks, x: NodeID,
                       y: NodeID)
    requires IsClusterRule(req, rule) && Measures(vv, rule) && Preselected(vv, req) <= p.nodes && CountsClusters(env, p)
    requires x in vv.entries.Keys - p.nodes && y in vv.entries.Keys - p.nodes
    ensures ClusterScoreOrder(vv, FiguresOf(vv, req, tune), env, p).Before(x, y) <==>
            Outdoes(vv, env, rule, p.nodes, x, y)
  {
    NoBoost(vv, req, tune, x);
    NoBoost(vv, req, tune, y);
    ClusteredDifference(vv, rule, x, y);
    ClusterScoreOrderAt(vv, req, tune, env, p, x);
    ClusterScoreOrderAt(vv, req, tune, env, p, y);
    ByScore(ClusterScoreOrder(vv, FiguresOf(vv, req, tune), env, p), RecencyOrder(vv), x, y,
            Edge(vv, env, rule, p.nodes, x, y));
  }

  /** The node ClusterScore picks is the best one. */
  lemma PickIsBest(vv: VersionVector, req: Request, tune: Tuning, env: Outside, rule: Rule, p: Picks)
    requires IsClusterRule(req, rule) && Measures(vv, rule) && Preselected(vv, req) <= p.nodes && CountsClusters(env, p)
    requires vv.entries.Keys - p.nodes != {}
    ensures IsBest(vv, env, rule, p.nodes, BestByCluster(vv, FiguresOf(vv, req, tune), env)(p))
  {
    var r, s := ClusterScoreOrder(vv, FiguresOf(vv, req, tune), env, p), vv.entries.Keys - p.nodes;
    var x := First(r, s);
    FirstIsFirst(r, s);
    forall y | y in s && y != x ensures Outdoes(vv, env, rule, p.nodes, x, y) {
      FirstPrecedes(r, s, x, y);
      OutdoesByScore(vv, req, tune, env, rule, p, x, y);
    }
  }

  /** Each of the picks is the best one, given what was selected before and the picks before it. */
  ghost predicate Greedy(vv: VersionVector, env: Outside, rule: Rule, sel: set<NodeID>, picks: seq<NodeID>) {
    forall i | 0 <= i < |picks| :: IsBest(vv, env, rule, sel + Elements(picks[..i]), picks[i])
  }

  lemma GreedyCons(vv: VersionVector, env: Outside, rule: Rule, sel: set<NodeID>, x: NodeID, rest: seq<NodeID>)
    requires IsBest(vv, env, rule, sel, x) && Greedy(vv, env, rule, sel + {x}, rest)
    ensures Greedy(vv, env, rule, sel, [x] + rest)
    ensures sel + Elements([x] + rest) == sel + {x} + Elements(rest)
  {
    var picks := [x] + rest;
    forall i | 0 <= i < |picks| ensures IsBest(vv, env, rule, sel + Elements(picks[..i]), picks[i]) {
      if i == 0 {
        assert sel + Elements(picks[..0]) == sel;
      } else {
        assert picks[..i] == [x] + rest[..i - 1];
        assert sel + Elements(picks[..i]) == sel + {x} + Elements(rest[..i - 1]);
      }
    }
  }

  /** A choice that always is the best one. */
  ghost predicate PicksBest(best: Picks -> NodeID, vv: VersionVector, req: Request, env: Outside, rule: Rule) {
    forall p: Picks :: PicksBestAt(best, vv, req, env, rule, p)
  }

  ghost predicate PicksBestAt(best: Picks -> NodeID, vv: VersionVector, req: Request, env: Outside, rule: Rule,
                              p: Picks)
  {
    Preselected(vv, req) <= p.nodes && CountsClusters(env, p) && vv.entries.Keys - p.nodes != {} ==>
    IsBest(vv, env, rule, p.nodes, best(p))
  }

  lemma ClusterScorePicksBest(vv: VersionVector, req: Request, tune: Tuning, env: Outside, rule: Rule)
    requires IsClusterRule(req, rule) && Measures(vv, rule)
    ensures PicksBest(BestByCluster(vv, FiguresOf(vv, req, tune), env), vv, req, env, rule)
  {
    var best := BestByCluster(vv, FiguresOf(vv, req, tune), env);
    forall p: Picks ensures PicksBestAt(best, vv, req, env, rule, p) {
      if Preselected(vv, req) <= p.nodes && CountsClusters(env, p) && vv.entries.Keys - p.nodes != {} {
        PickIsBest(vv, req, tune, env, rule, p);
      }
    }
  }

  lemma PickOne(best: Picks -> NodeID, vv: VersionVector, req: Request, env: Outside, rule: Rule, p: Picks)
    returns (x: NodeID, grown: Picks)
    requires PicksBest(best, vv, req, env, rule) && Preselected(vv, req) <= p.nodes && CountsClusters(env, p)
    requires p.nodes <= vv.entries.Keys && |p.nodes| < |vv.entries|
    ensures x == best(p) && grown == p.Add(x, env.cluster(x)) && IsBest(vv, env, rule, p.nodes, x)
    ensures CountsClusters(env, grown) && grown.nodes == p.nodes + {x} && |grown.nodes| == |p.nodes| + 1
  {
    PartSize(vv.entries.Keys, p.nodes);
    assert PicksBestAt(best, vv, req, env, rule, p);
    x := best(p);
    grown := p.Add(x, env.cluster(x));
    CountOneMore(env, p, x);
  }

  /** These picks and no others were added. */
  predicate Makes(out: set<NodeID>, sel: set<NodeID>, picks: seq<NodeID>) { out == sel + Elements(picks) }

  lemma GreedyTurn(known: set<NodeID>, best: Picks -> NodeID, cluster: NodeID -> ClusterKey, p: Picks, grown: Picks,
                   room: nat)
    requires room > 0 && best(p) in known - p.nodes && grown == p.Add(best(p), cluster(best(p)))
    ensures GreedyFill(known, best, cluster, p, room) == GreedyFill(known, best, cluster, grown, room - 1)
  {
  }

  lemma {:induction false} GreedyPicks(best: Picks -> NodeID, vv: VersionVector, req: Request, env: Outside, rule: Rule,
                                       p: Picks, room: nat) returns (picks: seq<NodeID>)
    requires PicksBest(best, vv, req, env, rule) && Preselected(vv, req) <= p.nodes && CountsClusters(env, p)
    requires p.nodes <= vv.entries.Keys && |p.nodes| + room <= |vv.entries|
    ensures |picks| == room && Greedy(vv, env, rule, p.nodes, picks)
    ensures Makes(GreedyFill(vv.entries.Keys, best, env.cluster, p, room).nodes, p.nodes, picks)
    decreases room
  {
    if room == 0 {
      picks := [];
    } else {
      var x, grown := PickOne(best, vv, req, env, rule, p);
      var rest := GreedyPicks(best, vv, req, env, rule, grown, room - 1);
      GreedyCons(vv, env, rule, p.nodes, x, rest);
      GreedyTurn(vv.entries.Keys, best, env.cluster, p, grown, room);
      picks := [x] + rest;
    }
  }

  lemma CountedCounts(env: Outside, sel: set<NodeID>)
    ensures CountsClusters(env, Counted(env, sel))
  {
    forall key ensures Counted(env, sel).Count(key) == |InCluster(env, key, sel)| {
      if key !in Clusters(env, sel) { assert InCluster(env, key, sel) == {}; }
    }
  }

  /** Whom a pass of ClusterScore adds. */
  lemma ClusterScoreAdded(vv: VersionVector, req: Request, tune: Tuning, env: Outside, rule: Rule, sel: set<NodeID>,
                          budget: nat) returns (picks: seq<NodeID>)
    requires IsClusterRule(req, rule) && Measures(vv, rule) && Preselected(vv, req) <= sel && Partial(vv, req, sel)
    ensures |picks| == Room(req.maxEntries, sel, budget) && Greedy(vv, env, rule, sel, picks)
    ensures AddClusterScore(vv, req, FiguresOf(vv, req, tune), env, sel, budget) == sel + Elements(picks)
  {
    CountedCounts(env, sel);
    ClusterScorePicksBest(vv, req, tune, env, rule);
    picks := GreedyPicks(BestByCluster(vv, FiguresOf(vv, req, tune), env), vv, req, env, rule, Counted(env, sel),
                         Room(req.maxEntries, sel, budget));
  }

  lemma BestUnique(vv: VersionVector, env: Outside, rule: Rule, sel: set<NodeID>, x: NodeID, y: NodeID)
    requires IsBest(vv, env, rule, sel, x) && IsBest(vv, env, rule, sel, y)
    ensures x == y
  {
    if x != y {
      assert Outdoes(vv, env, rule, sel, x, y) && Outdoes(vv, env, rule, sel, y, x);
      EdgeTurned(vv, env, rule, sel, x, y);
    }
  }

  lemma EdgeTurned(vv: VersionVector, env: Outside, rule: Rule, sel: set<NodeID>, x: NodeID, y: NodeID)
    requires x in vv.entries && y in vv.entries
    ensures Edge(vv, env, rule, sel, y, x) == -Edge(vv, env, rule, sel, x, y)
  {
    GapsTurned(vv, rule, x, y);
    BlendTurned(rule.mix, GapsOf(vv, rule, x, y), GapsOf(vv, rule, y, x));
  }

  lemma WaitingTurned(rule: Rule, x: NodeID, y: NodeID)
    ensures WaitingGap(rule, y, x) == -WaitingGap(rule, x, y)
  {
    var d, e := Missed(rule.missed, x) - Missed(rule.missed, y), rule.longest as real + COMPENSATION_EPSILON;
    assert (-d) as real / e == -(d as real / e);
  }

  lemma TurnTurned(vv: VersionVector, startIndex: nat, x: NodeID, y: NodeID)
    requires x in vv.entries && y in vv.entries
    ensures TurnGap(vv, startIndex, y, x) == -TurnGap(vv, startIndex, x, y)
  {
    PartNegated(RotationOffset(vv, startIndex, y) - RotationOffset(vv, startIndex, x), |vv.entries| - 1);
  }

  lemma RanksTurned(vv: VersionVector, x: NodeID, y: NodeID)
    requires vv.entries != map[]
    ensures RecencyGap(vv, y, x) == -RecencyGap(vv, x, y) && StalenessGap(vv, y, x) == -StalenessGap(vv, x, y)
  {
    PartNegated(Newer(vv, y) - Newer(vv, x), |vv.entries| - 1);
    PartNegated(Staler(vv, y) - Staler(vv, x), |vv.entries| - 1);
  }

  lemma GapsTurned(vv: VersionVector, rule: Rule, x: NodeID, y: NodeID)
    requires x in vv.entries && y in vv.entries
    ensures Negated(GapsOf(vv, rule, x, y), GapsOf(vv, rule, y, x))
  {
    PartNegated(vv.Get(x) - vv.Get(y), rule.top);
    RanksTurned(vv, x, y);
    TurnTurned(vv, rule.startIndex, x, y);
    WaitingTurned(rule, x, y);
  }

  predicate Negated(g: Gaps, h: Gaps) {
    h == Gaps(-g.activity, -g.lag, -g.recency, -g.staleness, -g.turn, -g.waiting)
  }

  lemma NegatedProduct(w: real, a: real)
    ensures w * -a == -(w * a)
  {
  }

  lemma BlendTurned(mix: Mix, g: Gaps, h: Gaps)
    requires Negated(g, h)
    ensures Blend(mix, h) == -Blend(mix, g)
  {
    NegatedProduct(mix.activity, g.activity);
    NegatedProduct(mix.lag, g.lag);
    NegatedProduct(mix.recency, g.recency);
    NegatedProduct(mix.staleness, g.staleness);
    NegatedProduct(mix.turn, g.turn);
    NegatedProduct(mix.waiting, g.waiting);
  }

  // ---- ClusterHybrid ----

  /** The representatives of the clusters of which nothing is selected. */
  ghost function Newcomers(vv: VersionVector, env: Outside, sel: set<NodeID>): set<NodeID> {
    set x | x in vv.entries && env.cluster(x) !in Clusters(env, sel) && Represents(vv, env, x)
  }

  /** The j-th node is the first of an unseen cluster. */
  predicate Leads(cluster: NodeID -> ClusterKey, order: seq<NodeID>, i: nat, j: nat, seen: set<ClusterKey>)
    requires i <= j < |order|
  {
    cluster(order[j]) !in seen && forall k | i <= k < j :: cluster(order[k]) != cluster(order[j])
  }

  /** The first nodes of unseen clusters among order[i..j]. */
  function Leaders(cluster: NodeID -> ClusterKey, order: seq<NodeID>, i: nat, j: nat,
                   seen: set<ClusterKey>): set<NodeID>
    requires i <= j <= |order|
    decreases j - i
  {
    if i == j then {}
    else if cluster(order[i]) in seen then Leaders(cluster, order, i + 1, j, seen)
    else {order[i]} + Leaders(cluster, order, i + 1, j, seen + {cluster(order[i])})
  }

  lemma {:induction false} LeadersAre(cluster: NodeID -> ClusterKey, order: seq<NodeID>, i: nat, j: nat,
                                      seen: set<ClusterKey>, x: NodeID)
    requires i <= j <= |order|
    ensures x in Leaders(cluster, order, i, j, seen) <==>
            exists k :: i <= k < j && order[k] == x && Leads(cluster, order, i, k, seen)
    decreases j - i
  {
    if i < j {
      var seen' := seen + if cluster(order[i]) in seen then {} else {cluster(order[i])};
      assert seen + {} == seen;
      LeadersAre(cluster, order, i + 1, j, seen', x);
      forall k | i < k < j ensures Leads(cluster, order, i, k, seen) <==> Leads(cluster, order, i + 1, k, seen') {
        LeadsOn(cluster, order, i, k, seen, seen');
      }
    }
  }

  lemma LeadsOn(cluster: NodeID -> ClusterKey, order: seq<NodeID>, i: nat, k: nat, seen: set<ClusterKey>,
                seen': set<ClusterKey>)
    requires i < k < |order| && seen' == seen + {cluster(order[i])}
    ensures Leads(cluster, order, i, k, seen) <==> Leads(cluster, order, i + 1, k, seen')
  {
  }

  /** A cluster pass adds a node exactly if it leads and fewer leaders than it has room precede it. */
  lemma {:induction false} ClusterFillExact(cluster: NodeID -> ClusterKey, order: seq<NodeID>, i: nat, sel: set<NodeID>,
                                            seen: set<ClusterKey>, room: nat, j: nat)
    requires i <= j < |order| && Distinct(order) && order[j] !in sel
    ensures order[j] in ClusterFill(cluster, order, i, sel, seen, room).0 <==>
            Leads(cluster, order, i, j, seen) && |Leaders(cluster, order, i, j, seen)| < room
    decreases |order| - i
  {
    if room > 0 {
      if cluster(order[i]) in seen {
        if i < j {
          assert seen + {cluster(order[i])} == seen;
          LeadsOn(cluster, order, i, j, seen, seen);
          ClusterFillExact(cluster, order, i + 1, sel, seen, room, j);
        } else {
          ClusterFillLeaves(cluster, order, i + 1, sel, seen, room, order[j]);
        }
      } else if i < j {
        LeadsOn(cluster, order, i, j, seen, seen + {cluster(order[i])});
        OneMoreLeader(cluster, order, i, j, seen);
        ClusterFillExact(cluster, order, i + 1, sel + {order[i]}, seen + {cluster(order[i])}, room - 1, j);
      } else {
        ClusterFillKeeps(cluster, order, i + 1, sel + {order[i]}, seen + {cluster(order[i])}, room - 1);
      }
    }
  }

  lemma {:induction false} ClusterFillKeeps(cluster: NodeID -> ClusterKey, order: seq<NodeID>, i: nat, sel: set<NodeID>,
                                            seen: set<ClusterKey>, room: nat)
    requires i <= |order|
    ensures sel <= ClusterFill(cluster, order, i, sel, seen, room).0
    decreases |order| - i
  {
    if i < |order| && room > 0 {
      if cluster(order[i]) in seen {
        ClusterFillKeeps(cluster, order, i + 1, sel, seen, room);
      } else {
        ClusterFillKeeps(cluster, order, i + 1, sel + {order[i]}, seen + {cluster(order[i])}, room - 1);
      }
    }
  }

  lemma {:induction false} ClusterFillLeaves(cluster: NodeID -> ClusterKey, order: seq<NodeID>, i: nat,
                                             sel: set<NodeID>, seen: set<ClusterKey>, room: nat, x: NodeID)
    requires i <= |order| && x !in sel && x !in order[i..]
    ensures x !in ClusterFill(cluster, order, i, sel, seen, room).0
    decreases |order| - i
  {
    if i < |order| && room > 0 {
      assert order[i..] == [order[i]] + order[i + 1..];
      if cluster(order[i]) in seen {
        ClusterFillLeaves(cluster, order, i + 1, sel, seen, room, x);
      } else {
        ClusterFillLeaves(cluster, order, i + 1, sel + {order[i]}, seen + {cluster(order[i])}, room - 1, x);
      }
    }
  }

  lemma OneMoreLeader(cluster: NodeID -> ClusterKey, order: seq<NodeID>, i: nat, j: nat, seen: set<ClusterKey>)
    requires i < j <= |order| && Distinct(order) && cluster(order[i]) !in seen
    ensures |Leaders(cluster, order, i, j, seen)| ==
            1 + |Leaders(cluster, order, i + 1, j, seen + {cluster(order[i])})|
  {
    LeadersAre(cluster, order, i + 1, j, seen + {cluster(order[i])}, order[i]);
  }

  lemma LeadsIsNewcomer(vv: VersionVector, env: Outside, sel: set<NodeID>, j: nat)
    requires j < |RecentNodes(vv)|
    ensures RecentNodes(vv)[j] in vv.entries
    ensures Leads(env.cluster, RecentNodes(vv), 0, j, Clusters(env, sel)) <==>
            RecentNodes(vv)[j] in Newcomers(vv, env, sel)
  {
    var order := RecentNodes(vv);
    ListingAt(RecencyOrder(vv), vv.entries.Keys, j);
    if Leads(env.cluster, order, 0, j, Clusters(env, sel)) { FirstOfCluster(vv, env, j); }
    if Represents(vv, env, order[j]) {
      forall k | 0 <= k < j ensures env.cluster(order[k]) != env.cluster(order[j]) { NotBefore(vv, env, k, j); }
    }
  }

  lemma NotBefore(vv: VersionVector, env: Outside, k: nat, j: nat)
    requires k < j < |RecentNodes(vv)| && Represents(vv, env, RecentNodes(vv)[j])
    ensures env.cluster(RecentNodes(vv)[k]) != env.cluster(RecentNodes(vv)[j])
  {
    var order := RecentNodes(vv);
    ListingAt(RecencyOrder(vv), vv.entries.Keys, k);
    ListingBefore(RecencyOrder(vv), vv.entries.Keys, k, j);
    if env.cluster(order[k]) == env.cluster(order[j]) {
      FirstPrecedes(RecencyOrder(vv), InCluster(env, env.cluster(order[j]), vv.entries.Keys), order[j], order[k]);
    }
  }

  /** The leaders before a node are the newcomers more recent than it. */
  lemma LeadersAhead(vv: VersionVector, env: Outside, sel: set<NodeID>, j: nat)
    requires j < |RecentNodes(vv)|
    ensures Leaders(env.cluster, RecentNodes(vv), 0, j, Clusters(env, sel)) ==
            Ahead(RecencyOrder(vv), Newcomers(vv, env, sel), RecentNodes(vv)[j])
  {
    var order := RecentNodes(vv);
    AheadIsPrefix(RecencyOrder(vv), vv.entries.Keys, j);
    forall y
      ensures y in Leaders(env.cluster, order, 0, j, Clusters(env, sel)) <==>
              y in Newcomers(vv, env, sel) && y in Ahead(RecencyOrder(vv), vv.entries.Keys, order[j])
    {
      LeadersAre(env.cluster, order, 0, j, Clusters(env, sel), y);
      forall k | 0 <= k < j ensures Leads(env.cluster, order, 0, k, Clusters(env, sel)) <==>
                                    order[k] in Newcomers(vv, env, sel)
      {
        LeadsIsNewcomer(vv, env, sel, k);
      }
      if y in Elements(order[..j]) { var k :| 0 <= k < j && order[..j][k] == y; }
    }
  }

  /** A round over the clusters adds the most recent newcomers. */
  lemma ClusterRoundAdds(vv: VersionVector, env: Outside, sel: set<NodeID>, room: nat)
    requires sel <= vv.entries.Keys
    ensures ClusterRound(vv, env, sel, room).0 == sel + FirstOf(RecencyOrder(vv), Newcomers(vv, env, sel), room)
  {
    var order, out := RecentNodes(vv), ClusterRound(vv, env, sel, room).0;
    ListingFacts(RecencyOrder(vv), vv.entries.Keys);
    ClusterFillBounds(env.cluster, vv.entries.Keys, order, 0, sel, Clusters(env, sel), room);
    forall x | x in vv.entries.Keys && x !in sel
      ensures x in out <==> x in FirstOf(RecencyOrder(vv), Newcomers(vv, env, sel), room)
    {
      var j := IndexOf(order, x);
      ClusterFillExact(env.cluster, order, 0, sel, Clusters(env, sel), room, j);
      LeadsIsNewcomer(vv, env, sel, j);
      LeadersAhead(vv, env, sel, j);
    }
  }

  lemma ClusterRest(vv: VersionVector, req: Request, env: Outside, sel: set<NodeID>, budget: nat, room: nat,
                    r: (set<NodeID>, set<ClusterKey>, nat))
    requires room == Room(req.maxEntries, sel, budget) && r == ClusterRound(vv, env, sel, room)
    ensures AddClusterRecent(vv, req, env, sel, budget) ==
            r.0 + FirstOf(RecencyOrder(vv), vv.entries.Keys - r.0, r.2)
    ensures |r.0| + r.2 == |sel| + room
  {
    ClusterFillSize(env.cluster, RecentNodes(vv), 0, sel, Clusters(env, sel), room);
    FirstAdded(vv.entries.Keys, vv.entries.Keys, RecencyOrder(vv), r.0, r.2);
  }

  /** Whom a pass of ClusterHybrid adds: the most recent newcomers, and if it has room for more than there
      are, the most recent of the rest. */
  lemma ClusterRecentAdded(vv: VersionVector, req: Request, env: Outside, sel: set<NodeID>, budget: nat)
    returns (out: set<NodeID>, left: nat)
    requires sel <= vv.entries.Keys
    ensures out == sel + FirstOf(RecencyOrder(vv), Newcomers(vv, env, sel), Room(req.maxEntries, sel, budget))
    ensures |out| + left == |sel| + Room(req.maxEntries, sel, budget)
    ensures AddClusterRecent(vv, req, env, sel, budget) ==
            out + FirstOf(RecencyOrder(vv), vv.entries.Keys - out, left)
  {
    var room := Room(req.maxEntries, sel, budget);
    var r := ClusterRound(vv, env, sel, room);
    ClusterRoundAdds(vv, env, sel, room);
    ClusterRest(vv, req, env, sel, budget, room, r);
    out, left := r.0, r.2;
  }
}
