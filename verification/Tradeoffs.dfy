/** Which of two candidates a scoring strategy prefers, by what the scores are meant to weigh: the
    differences of two nodes in activity, lag, recency, staleness, turn and waiting, each on its own
    scale. Exactly who is selected follows from that, without the scores. */
module Tradeoffs {
  import opened Nodes
  import opened Orders
  import opened Numbers
  import opened VersionVectors
  import opened Selection
  import opened Scoring
  import opened ScoringFacts
  import opened Ranks

  /** How much a strategy makes of each difference. */
  datatype Mix = Mix(activity: real, lag: real, recency: real, staleness: real, turn: real, waiting: real)

  const AGE_MIX := Mix(0.25, 0.0, 0.0, 0.60, 0.15, 0.0)
  const DEFICIT_MIX := Mix(0.0, 0.55, 0.25, 0.0, 0.20, 0.0)
  const CLUSTER_MIX := Mix(0.28, 0.0, 0.42, 0.0, 0.18, 0.0)

  /** The mix of Score: the weights configured, those below zero as zero, or the defaults if none is
      above. Only their proportions matter. */
  function ScoreMix(tune: Tuning): Mix {
    if tune.seqWeight <= 0.0 && tune.recentWeight <= 0.0 && tune.fairWeight <= 0.0
    then Mix(0.35, 0.0, 0.45, 0.0, 0.0, 0.20)
    else Mix(MaxReal(0.0, tune.seqWeight), 0.0, MaxReal(0.0, tune.recentWeight), 0.0, 0.0,
             MaxReal(0.0, tune.fairWeight))
  }

  /** How candidates are compared: the mix, what the differences are measured by (the greatest number of
      the vector and the greatest count of missed builds among its nodes), and who comes first in a tie. */
  datatype Rule = Rule(mix: Mix, missed: map<NodeID, nat>, startIndex: nat, top: nat, longest: nat, stalerFirst: bool)

  ghost predicate Greatest(values: map<NodeID, nat>, keys: set<NodeID>, top: nat) {
    && (forall x | x in keys :: Missed(values, x) <= top)
    && (top == 0 || exists x :: x in keys && Missed(values, x) == top)
  }

  ghost predicate Measures(vv: VersionVector, rule: Rule) {
    Greatest(vv.entries, vv.entries.Keys, rule.top) && Greatest(rule.missed, vv.entries.Keys, rule.longest)
  }

  /** A difference as a share of the scale. */
  function Part(difference: int, scale: nat): real {
    if scale == 0 then 0.0 else difference as real / scale as real
  }

  lemma PartNegated(d: int, scale: nat)
    ensures Part(-d, scale) == -Part(d, scale)
  {
    if scale > 0 { assert (-d) as real / scale as real == -(d as real / scale as real); }
  }

  /** How many entries are more recent, and how many are staler. */
  function Newer(vv: VersionVector, x: NodeID): nat { |Ahead(RecencyOrder(vv), vv.entries.Keys, x)| }

  function Staler(vv: VersionVector, x: NodeID): nat { |Ahead(AgeOrder(vv), vv.entries.Keys, x)| }

  function ActivityGap(vv: VersionVector, top: nat, x: NodeID, y: NodeID): real {
    Part(vv.Get(x) - vv.Get(y), top)
  }

  function RecencyGap(vv: VersionVector, x: NodeID, y: NodeID): real
    requires vv.entries != map[]
  {
    Part(Newer(vv, y) - Newer(vv, x), |vv.entries| - 1)
  }

  function StalenessGap(vv: VersionVector, x: NodeID, y: NodeID): real
    requires vv.entries != map[]
  {
    Part(Staler(vv, y) - Staler(vv, x), |vv.entries| - 1)
  }

  function TurnGap(vv: VersionVector, startIndex: nat, x: NodeID, y: NodeID): real
    requires x in vv.entries && y in vv.entries
  {
    Part(RotationOffset(vv, startIndex, y) - RotationOffset(vv, startIndex, x), |vv.entries| - 1)
  }

  /** What one node has on another. */
  datatype Gaps = Gaps(activity: real, lag: real, recency: real, staleness: real, turn: real, waiting: real)

  function GapsOf(vv: VersionVector, rule: Rule, x: NodeID, y: NodeID): Gaps
    requires x in vv.entries && y in vv.entries
  {
    Gaps(ActivityGap(vv, rule.top, x, y),
         ActivityGap(vv, rule.top, y, x),
         RecencyGap(vv, x, y),
         StalenessGap(vv, x, y),
         TurnGap(vv, rule.startIndex, x, y),
         WaitingGap(rule, x, y))
  }

  function Blend(mix: Mix, g: Gaps): real {
    mix.activity * g.activity + mix.lag * g.lag + mix.recency * g.recency
    + mix.staleness * g.staleness + mix.turn * g.turn + mix.waiting * g.waiting
  }

  /** By how much x is preferred to y. */
  function Advantage(vv: VersionVector, rule: Rule, x: NodeID, y: NodeID): real
    requires x in vv.entries && y in vv.entries
  {
    Blend(rule.mix, GapsOf(vv, rule, x, y))
  }

  function WaitingGap(rule: Rule, x: NodeID, y: NodeID): real {
    (Missed(rule.missed, x) - Missed(rule.missed, y)) as real / (rule.longest as real + 0.000000001)
  }

  predicate Beats(vv: VersionVector, rule: Rule, x: NodeID, y: NodeID)
    requires x in vv.entries && y in vv.entries
  {
    var a := Advantage(vv, rule, x, y);
    a > 0.0 || (a == 0.0 && if rule.stalerFirst then AgeOrder(vv).Before(x, y) else RecencyOrder(vv).Before(x, y))
  }

  /** The candidates that beat x. */
  function Beating(vv: VersionVector, rule: Rule, s: set<NodeID>, x: NodeID): set<NodeID>
    requires s <= vv.entries.Keys && x in s
  {
    set y | y in s && Beats(vv, rule, y, x)
  }

  /** The candidates that fewer than k others beat. */
  function Winners(vv: VersionVector, rule: Rule, s: set<NodeID>, k: nat): set<NodeID>
    requires s <= vv.entries.Keys
  {
    set x | x in s && |Beating(vv, rule, s, x)| < k
  }

  // ---- The scales ----

  lemma {:induction false} MaxOverBounds(values: map<NodeID, nat>, xs: seq<NodeID>, x: NodeID)
    requires x in xs
    ensures Missed(values, x) <= MaxOver(values, xs)
  {
    if x != xs[0] { MaxOverBounds(values, xs[1..], x); }
  }

  lemma {:induction false} MaxOverMet(values: map<NodeID, nat>, xs: seq<NodeID>) returns (x: NodeID)
    requires MaxOver(values, xs) > 0
    ensures x in xs && Missed(values, x) == MaxOver(values, xs)
  {
    if Missed(values, xs[0]) == MaxOver(values, xs) { x := xs[0]; } else { x := MaxOverMet(values, xs[1..]); }
  }

  lemma GreatestIs(values: map<NodeID, nat>, vv: VersionVector, top: nat)
    requires Greatest(values, vv.entries.Keys, top)
    ensures MaxOver(values, OrderedNodes(vv)) == top
  {
    var xs := OrderedNodes(vv);
    ListingFacts(BY_NAME, vv.entries.Keys);
    if top > 0 {
      var x :| x in vv.entries.Keys && Missed(values, x) == top;
      MaxOverBounds(values, xs, x);
    }
    if MaxOver(values, xs) > 0 { var x := MaxOverMet(values, xs); }
  }

  /** Every vector has its measures. */
  lemma MeasuresExist(vv: VersionVector, mix: Mix, missed: map<NodeID, nat>, startIndex: nat, stalerFirst: bool)
    returns (rule: Rule)
    ensures Measures(vv, rule) && rule.mix == mix && rule.missed == missed && rule.startIndex == startIndex
    ensures rule.stalerFirst == stalerFirst
  {
    rule := Rule(mix, missed, startIndex, MaxSeq(vv), MaxMissed(vv, missed), stalerFirst);
    GreatestExists(vv.entries, vv);
    GreatestExists(missed, vv);
  }

  lemma GreatestExists(values: map<NodeID, nat>, vv: VersionVector)
    ensures Greatest(values, vv.entries.Keys, MaxOver(values, OrderedNodes(vv)))
  {
    ListingFacts(BY_NAME, vv.entries.Keys);
    forall x | x in vv.entries.Keys ensures Missed(values, x) <= MaxOver(values, OrderedNodes(vv)) {
      MaxOverBounds(values, OrderedNodes(vv), x);
    }
    if MaxOver(values, OrderedNodes(vv)) > 0 { var x := MaxOverMet(values, OrderedNodes(vv)); }
  }

  // ---- The parts of the scores ----

  lemma DivideDifference(a: real, b: real, d: real)
    requires d != 0.0
    ensures a / d - b / d == (a - b) / d
  {
  }

  lemma ShareDifference(a: nat, b: nat, d: nat)
    requires d > 0
    ensures a as real / d as real - b as real / d as real == Part(a - b, d)
  {
    DivideDifference(a as real, b as real, d as real);
  }

  lemma RankDifference(i: nat, j: nat, n: nat)
    requires 0 < n
    ensures NormalizeRankScore(i, n) - NormalizeRankScore(j, n) == Part(j - i, n - 1)
  {
    if n > 1 { ShareDifference(j, i, n - 1); }
  }

  lemma ActivityDifference(vv: VersionVector, top: nat, x: NodeID, y: NodeID)
    requires x in vv.entries && y in vv.entries && MaxSeq(vv) == top
    ensures SeqScore(vv, x) - SeqScore(vv, y) == ActivityGap(vv, top, x, y)
  {
    if top > 0 { ShareDifference(vv.entries[x], vv.entries[y], top); }
  }

  lemma LagDifference(vv: VersionVector, top: nat, x: NodeID, y: NodeID)
    requires x in vv.entries && y in vv.entries && MaxSeq(vv) == top
    ensures DeficitPart(vv, x) - DeficitPart(vv, y) == ActivityGap(vv, top, y, x)
  {
    if top > 0 { DivideDifference((top - vv.entries[x]) as real, (top - vv.entries[y]) as real, top as real); }
  }

  lemma RecentScoreIs(vv: VersionVector, x: NodeID)
    requires x in vv.entries
    ensures RecentScore(vv, x) == NormalizeRankScore(Newer(vv, x), |vv.entries|)
  {
    PlaceIsCount(RecencyOrder(vv), vv.entries.Keys, x);
  }

  lemma RecencyDifference(vv: VersionVector, x: NodeID, y: NodeID)
    requires x in vv.entries && y in vv.entries
    ensures RecentScore(vv, x) - RecentScore(vv, y) == RecencyGap(vv, x, y)
  {
    RecentScoreIs(vv, x);
    RecentScoreIs(vv, y);
    RankDifference(Newer(vv, x), Newer(vv, y), |vv.entries|);
  }

  lemma AgePartIs(vv: VersionVector, x: NodeID)
    requires x in vv.entries
    ensures AgePart(vv, x) == NormalizeRankScore(Staler(vv, x), |vv.entries|)
  {
    PlaceIsCount(AgeOrder(vv), vv.entries.Keys, x);
  }

  lemma StalenessDifference(vv: VersionVector, x: NodeID, y: NodeID)
    requires x in vv.entries && y in vv.entries
    ensures AgePart(vv, x) - AgePart(vv, y) == StalenessGap(vv, x, y)
  {
    AgePartIs(vv, x);
    AgePartIs(vv, y);
    RankDifference(Staler(vv, x), Staler(vv, y), |vv.entries|);
  }

  lemma TurnDifference(vv: VersionVector, startIndex: nat, x: NodeID, y: NodeID)
    requires x in vv.entries && y in vv.entries
    ensures FairPart(vv, startIndex, x) - FairPart(vv, startIndex, y) == TurnGap(vv, startIndex, x, y)
  {
    RankDifference(RotationOffset(vv, startIndex, x), RotationOffset(vv, startIndex, y), |vv.entries|);
  }

  lemma WaitingDifference(vv: VersionVector, rule: Rule, x: NodeID, y: NodeID)
    requires MaxMissed(vv, rule.missed) == rule.longest
    ensures CompensationScore(vv, rule.missed, x) - CompensationScore(vv, rule.missed, y) == WaitingGap(rule, x, y)
  {
    CompensationIs(vv, rule.missed, x);
    CompensationIs(vv, rule.missed, y);
    DivideDifference(Missed(rule.missed, x) as real, Missed(rule.missed, y) as real,
                     rule.longest as real + COMPENSATION_EPSILON);
  }

  // ---- The scores ----

  lemma Products(a: real, b: real, c: real, p: Parts, q: Parts)
    ensures (a * p.seqNo + b * p.recent + c * p.compensation) - (a * q.seqNo + b * q.recent + c * q.compensation) ==
            a * (p.seqNo - q.seqNo) + b * (p.recent - q.recent) + c * (p.compensation - q.compensation)
  {
  }

  lemma Scaled(a: real, b: real, c: real, sum: real, u: real, v: real, w: real)
    requires sum > 0.0
    ensures (a / sum) * u + (b / sum) * v + (c / sum) * w == (a * u + b * v + c * w) / sum
  {
    ScaledOne(a, u, sum);
    ScaledOne(b, v, sum);
    ScaledOne(c, w, sum);
  }

  lemma ScaledOne(a: real, u: real, sum: real)
    requires sum > 0.0
    ensures (a / sum) * u == (a * u) / sum
  {
  }

  lemma SignKept(a: real, sum: real)
    requires sum > 0.0
    ensures (a / sum > 0.0 <==> a > 0.0) && (a / sum == 0.0 <==> a == 0.0)
  {
  }

  /** The weights of Score sum to this before they are scaled. */
  function Total(mix: Mix): real { mix.activity + mix.recency + mix.waiting }

  lemma MixIsPositive(tune: Tuning)
    ensures Total(ScoreMix(tune)) > 0.0
    ensures ScoreMix(tune).lag == ScoreMix(tune).staleness == ScoreMix(tune).turn == 0.0
  {
  }

  lemma Whole(a: real, total: real)
    requires total == 1.0
    ensures a / total == a
  {
  }

  lemma DefaultWeights(tune: Tuning)
    requires tune.seqWeight <= 0.0 && tune.recentWeight <= 0.0 && tune.fairWeight <= 0.0
    ensures EffectiveWeights(tune.seqWeight, tune.recentWeight, tune.fairWeight) == Weights(0.35, 0.45, 0.20)
    ensures ScoreMix(tune) == Mix(0.35, 0.0, 0.45, 0.0, 0.0, 0.20) && Total(ScoreMix(tune)) == 1.0
  {
  }

  lemma GivenWeights(tune: Tuning)
    requires tune.seqWeight > 0.0 || tune.recentWeight > 0.0 || tune.fairWeight > 0.0
    ensures var mix := ScoreMix(tune);
            EffectiveWeights(tune.seqWeight, tune.recentWeight, tune.fairWeight) ==
            Weights(mix.activity / Total(mix), mix.recency / Total(mix), mix.waiting / Total(mix))
  {
  }

  lemma WeightsAre(tune: Tuning)
    ensures var mix := ScoreMix(tune);
            EffectiveWeights(tune.seqWeight, tune.recentWeight, tune.fairWeight) ==
            Weights(mix.activity / Total(mix), mix.recency / Total(mix), mix.waiting / Total(mix))
  {
    if tune.seqWeight > 0.0 || tune.recentWeight > 0.0 || tune.fairWeight > 0.0 {
      GivenWeights(tune);
    } else {
      DefaultWeights(tune);
      Whole(0.35, Total(ScoreMix(tune)));
      Whole(0.45, Total(ScoreMix(tune)));
      Whole(0.20, Total(ScoreMix(tune)));
    }
  }

  /** The rule by which Score compares. */
  predicate IsScoreRule(tune: Tuning, rule: Rule) {
    rule.mix == ScoreMix(tune) && rule.missed == tune.missedRounds && !rule.stalerFirst
  }

  /** Those of AgeScore, DeficitScore and ClusterScore; the last moreover counts clusters. */
  predicate IsAgeRule(req: Request, rule: Rule) {
    rule.mix == AGE_MIX && rule.startIndex == req.startIndex && rule.stalerFirst
  }

  predicate IsDeficitRule(req: Request, rule: Rule) {
    rule.mix == DEFICIT_MIX && rule.startIndex == req.startIndex && !rule.stalerFirst
  }

  predicate IsClusterRule(req: Request, rule: Rule) {
    rule.mix == CLUSTER_MIX && rule.startIndex == req.startIndex && !rule.stalerFirst
  }

  lemma WeighDifference(w: Weights, mix: Mix, p: Parts, q: Parts, g: Gaps)
    requires Total(mix) > 0.0 && mix.lag == mix.staleness == mix.turn == 0.0
    requires w == Weights(mix.activity / Total(mix), mix.recency / Total(mix), mix.waiting / Total(mix))
    requires p.seqNo - q.seqNo == g.activity && p.recent - q.recent == g.recency
    requires p.compensation - q.compensation == g.waiting
    ensures Weigh(w, p) - Weigh(w, q) == Blend(mix, g) / Total(mix)
  {
    Products(w.seqNo, w.recent, w.fair, p, q);
    Scaled(mix.activity, mix.recency, mix.waiting, Total(mix), g.activity, g.recency, g.waiting);
    assert Blend(mix, g) == mix.activity * g.activity + mix.recency * g.recency + mix.waiting * g.waiting;
  }

  lemma PartsDiffer(vv: VersionVector, rule: Rule, x: NodeID, y: NodeID)
    requires x in vv.entries && y in vv.entries && Measures(vv, rule)
    ensures var p, q, g := PartsOf(vv, rule.missed, x), PartsOf(vv, rule.missed, y), GapsOf(vv, rule, x, y);
            p.seqNo - q.seqNo == g.activity && p.recent - q.recent == g.recency &&
            p.compensation - q.compensation == g.waiting
  {
    GreatestIs(vv.entries, vv, rule.top);
    GreatestIs(rule.missed, vv, rule.longest);
    ActivityDifference(vv, rule.top, x, y);
    RecencyDifference(vv, x, y);
    WaitingDifference(vv, rule, x, y);
  }

  lemma WeightedDifference(vv: VersionVector, tune: Tuning, rule: Rule, x: NodeID, y: NodeID)
    requires x in vv.entries && y in vv.entries && IsScoreRule(tune, rule) && Measures(vv, rule)
    ensures var w := EffectiveWeights(tune.seqWeight, tune.recentWeight, tune.fairWeight);
            Weigh(w, PartsOf(vv, rule.missed, x)) - Weigh(w, PartsOf(vv, rule.missed, y)) ==
            Advantage(vv, rule, x, y) / Total(rule.mix)
  {
    var w := EffectiveWeights(tune.seqWeight, tune.recentWeight, tune.fairWeight);
    MixIsPositive(tune);
    WeightsAre(tune);
    PartsDiffer(vv, rule, x, y);
    WeighDifference(w, rule.mix, PartsOf(vv, rule.missed, x), PartsOf(vv, rule.missed, y), GapsOf(vv, rule, x, y));
  }

  lemma AgeBlend(a: real, s: real, t: real, a': real, s': real, t': real, g: Gaps)
    requires a - a' == g.activity && s - s' == g.staleness && t - t' == g.turn
    ensures (0.25 * a + 0.60 * s + 0.15 * t) - (0.25 * a' + 0.60 * s' + 0.15 * t') == Blend(AGE_MIX, g)
  {
  }

  lemma AgedDifference(vv: VersionVector, rule: Rule, x: NodeID, y: NodeID)
    requires x in vv.entries && y in vv.entries && rule.mix == AGE_MIX && Measures(vv, rule)
    ensures AgedBase(vv, rule.startIndex, x) - AgedBase(vv, rule.startIndex, y) == Advantage(vv, rule, x, y)
  {
    GreatestIs(vv.entries, vv, rule.top);
    ActivityDifference(vv, rule.top, x, y);
    StalenessDifference(vv, x, y);
    TurnDifference(vv, rule.startIndex, x, y);
    AgeBlend(SeqScore(vv, x), AgePart(vv, x), FairPart(vv, rule.startIndex, x),
             SeqScore(vv, y), AgePart(vv, y), FairPart(vv, rule.startIndex, y), GapsOf(vv, rule, x, y));
  }

  lemma DeficitBlend(l: real, r: real, t: real, l': real, r': real, t': real, g: Gaps)
    requires l - l' == g.lag && r - r' == g.recency && t - t' == g.turn
    ensures (0.55 * l + 0.25 * r + 0.20 * t) - (0.55 * l' + 0.25 * r' + 0.20 * t') == Blend(DEFICIT_MIX, g)
  {
  }

  lemma DeficitDifference(vv: VersionVector, rule: Rule, x: NodeID, y: NodeID)
    requires x in vv.entries && y in vv.entries && rule.mix == DEFICIT_MIX && Measures(vv, rule)
    ensures DeficitBase(vv, rule.startIndex, x) - DeficitBase(vv, rule.startIndex, y) == Advantage(vv, rule, x, y)
  {
    GreatestIs(vv.entries, vv, rule.top);
    LagDifference(vv, rule.top, x, y);
    RecencyDifference(vv, x, y);
    TurnDifference(vv, rule.startIndex, x, y);
    DeficitBlend(DeficitPart(vv, x), RecentScore(vv, x), FairPart(vv, rule.startIndex, x),
                 DeficitPart(vv, y), RecentScore(vv, y), FairPart(vv, rule.startIndex, y), GapsOf(vv, rule, x, y));
  }

  lemma ClusterBlend(a: real, r: real, t: real, a': real, r': real, t': real, g: Gaps)
    requires a - a' == g.activity && r - r' == g.recency && t - t' == g.turn
    ensures (0.28 * a + 0.42 * r + 0.18 * t) - (0.28 * a' + 0.42 * r' + 0.18 * t') == Blend(CLUSTER_MIX, g)
  {
  }

  lemma ClusteredDifference(vv: VersionVector, rule: Rule, x: NodeID, y: NodeID)
    requires x in vv.entries && y in vv.entries && rule.mix == CLUSTER_MIX && Measures(vv, rule)
    ensures ClusteredBase(vv, rule.startIndex, x) - ClusteredBase(vv, rule.startIndex, y) == Advantage(vv, rule, x, y)
  {
    GreatestIs(vv.entries, vv, rule.top);
    ActivityDifference(vv, rule.top, x, y);
    RecencyDifference(vv, x, y);
    TurnDifference(vv, rule.startIndex, x, y);
    ClusterBlend(SeqScore(vv, x), RecentScore(vv, x), FairPart(vv, rule.startIndex, x),
                 SeqScore(vv, y), RecentScore(vv, y), FairPart(vv, rule.startIndex, y), GapsOf(vv, rule, x, y));
  }

  // ---- Who is selected ----

  /** The candidates are not preferred, so the boost plays no part. */
  lemma NoBoost(vv: VersionVector, req: Request, tune: Tuning, x: NodeID)
    requires x in vv.entries && x !in Preselected(vv, req)
    ensures BoostPart(req, tune, x) == 0.0
  {
  }

  /** An order by score, with ties decided by another order. */
  lemma ByScore(r: Ranking, tie: Ranking, x: NodeID, y: NodeID, a: real)
    requires r.Primary(x) - r.Primary(y) == a && tie.primary == map[]
    requires r.Secondary(x) == tie.Secondary(x) && r.Secondary(y) == tie.Secondary(y)
    ensures r.Before(x, y) <==> a > 0.0 || (a == 0.0 && tie.Before(x, y))
  {
  }

  lemma ScoreOrderAt(vv: VersionVector, req: Request, tune: Tuning, sel: set<NodeID>, x: NodeID)
    requires x in vv.entries && x !in sel
    ensures ScoreOrder(vv, FiguresOf(vv, req, tune), sel).Primary(x) == WeightedScore(vv, req, tune, x)
    ensures ScoreOrder(vv, FiguresOf(vv, req, tune), sel).Secondary(x) == RecencyOrder(vv).Secondary(x)
  {
  }

  lemma AgeScoreOrderAt(vv: VersionVector, req: Request, tune: Tuning, sel: set<NodeID>, x: NodeID)
    requires x in vv.entries && x !in sel
    ensures AgeScoreOrder(vv, FiguresOf(vv, req, tune), sel).Primary(x) == AgedScore(vv, req, tune, x)
    ensures AgeScoreOrder(vv, FiguresOf(vv, req, tune), sel).Secondary(x) == AgeOrder(vv).Secondary(x)
  {
  }

  lemma DeficitOrderAt(vv: VersionVector, req: Request, tune: Tuning, sel: set<NodeID>, x: NodeID)
    requires x in vv.entries && x !in sel
    ensures DeficitOrder(vv, FiguresOf(vv, req, tune), sel).Primary(x) == DeficitScoreOf(vv, req, tune, x)
    ensures DeficitOrder(vv, FiguresOf(vv, req, tune), sel).Secondary(x) == RecencyOrder(vv).Secondary(x)
  {
  }

  /** On these candidates the order is that of the rule. */
  ghost predicate Follows(r: Ranking, vv: VersionVector, rule: Rule, s: set<NodeID>)
    requires s <= vv.entries.Keys
  {
    forall x, y | x in s && y in s :: r.Before(x, y) <==> Beats(vv, rule, x, y)
  }

  lemma BeatingAre(r: Ranking, vv: VersionVector, rule: Rule, s: set<NodeID>, x: NodeID)
    requires s <= vv.entries.Keys && Follows(r, vv, rule, s) && x in s
    ensures Ahead(r, s, x) == Beating(vv, rule, s, x)
  {
  }

  lemma WinnersAre(r: Ranking, vv: VersionVector, rule: Rule, s: set<NodeID>, k: nat)
    requires s <= vv.entries.Keys && Follows(r, vv, rule, s)
    ensures FirstOf(r, s, k) == Winners(vv, rule, s, k)
  {
    forall x | x in s ensures Ahead(r, s, x) == Beating(vv, rule, s, x) { BeatingAre(r, vv, rule, s, x); }
  }

  /** The weights sum to one, so the score of a node is a fraction of the blend; the sign is the same. */
  lemma WeightedGap(vv: VersionVector, req: Request, tune: Tuning, rule: Rule, x: NodeID, y: NodeID)
    returns (a: real)
    requires IsScoreRule(tune, rule) && Measures(vv, rule) && x in vv.entries && y in vv.entries
    requires x !in Preselected(vv, req) && y !in Preselected(vv, req)
    ensures a == WeightedScore(vv, req, tune, x) - WeightedScore(vv, req, tune, y)
    ensures (a > 0.0 <==> Advantage(vv, rule, x, y) > 0.0) && (a == 0.0 <==> Advantage(vv, rule, x, y) == 0.0)
  {
    NoBoost(vv, req, tune, x);
    NoBoost(vv, req, tune, y);
    MixIsPositive(tune);
    WeightedDifference(vv, tune, rule, x, y);
    SignKept(Advantage(vv, rule, x, y), Total(rule.mix));
    a := Advantage(vv, rule, x, y) / Total(rule.mix);
  }

  lemma BeatsByScore(vv: VersionVector, req: Request, tune: Tuning, rule: Rule, sel: set<NodeID>, x: NodeID, y: NodeID)
    requires IsScoreRule(tune, rule) && Measures(vv, rule) && Preselected(vv, req) <= sel
    requires x in vv.entries.Keys - sel && y in vv.entries.Keys - sel
    ensures ScoreOrder(vv, FiguresOf(vv, req, tune), sel).Before(x, y) <==> Beats(vv, rule, x, y)
  {
    var a := WeightedGap(vv, req, tune, rule, x, y);
    ScoreOrderAt(vv, req, tune, sel, x);
    ScoreOrderAt(vv, req, tune, sel, y);
    ByScore(ScoreOrder(vv, FiguresOf(vv, req, tune), sel), RecencyOrder(vv), x, y, a);
  }

  lemma BeatsByAge(vv: VersionVector, req: Request, tune: Tuning, rule: Rule, sel: set<NodeID>, x: NodeID, y: NodeID)
    requires IsAgeRule(req, rule) && Measures(vv, rule) && Preselected(vv, req) <= sel
    requires x in vv.entries.Keys - sel && y in vv.entries.Keys - sel
    ensures AgeScoreOrder(vv, FiguresOf(vv, req, tune), sel).Before(x, y) <==> Beats(vv, rule, x, y)
  {
    NoBoost(vv, req, tune, x);
    NoBoost(vv, req, tune, y);
    AgedDifference(vv, rule, x, y);
    AgeScoreOrderAt(vv, req, tune, sel, x);
    AgeScoreOrderAt(vv, req, tune, sel, y);
    ByScore(AgeScoreOrder(vv, FiguresOf(vv, req, tune), sel), AgeOrder(vv), x, y, Advantage(vv, rule, x, y));
  }

  lemma BeatsByDeficit(vv: VersionVector, req: Request, tune: Tuning, rule: Rule, sel: set<NodeID>, x: NodeID,
                       y: NodeID)
    requires IsDeficitRule(req, rule) && Measures(vv, rule) && Preselected(vv, req) <= sel
    requires x in vv.entries.Keys - sel && y in vv.entries.Keys - sel
    ensures DeficitOrder(vv, FiguresOf(vv, req, tune), sel).Before(x, y) <==> Beats(vv, rule, x, y)
  {
    NoBoost(vv, req, tune, x);
    NoBoost(vv, req, tune, y);
    DeficitDifference(vv, rule, x, y);
    DeficitOrderAt(vv, req, tune, sel, x);
    DeficitOrderAt(vv, req, tune, sel, y);
    ByScore(DeficitOrder(vv, FiguresOf(vv, req, tune), sel), RecencyOrder(vv), x, y, Advantage(vv, rule, x, y));
  }

  // ---- Exactly who is selected ----

  lemma ScoreAdded(vv: VersionVector, req: Request, tune: Tuning, rule: Rule, sel: set<NodeID>, budget: nat)
    requires IsScoreRule(tune, rule) && Measures(vv, rule) && Preselected(vv, req) <= sel
    ensures AddScore(vv, req, FiguresOf(vv, req, tune), sel, budget) ==
            sel + Winners(vv, rule, vv.entries.Keys - sel, Room(req.maxEntries, sel, budget))
  {
    var s, r := vv.entries.Keys - sel, ScoreOrder(vv, FiguresOf(vv, req, tune), sel);
    assert s - sel == s;
    FirstAdded(vv.entries.Keys, s, r, sel, Room(req.maxEntries, sel, budget));
    forall x, y | x in s && y in s ensures r.Before(x, y) <==> Beats(vv, rule, x, y) {
      BeatsByScore(vv, req, tune, rule, sel, x, y);
    }
    WinnersAre(r, vv, rule, s, Room(req.maxEntries, sel, budget));
  }

  lemma OwnFits(vv: VersionVector, req: Request, own: set<NodeID>)
    requires 0 < req.maxEntries && own == Preselected(vv, req)
    ensures |own| <= 1 && Room(req.maxEntries, own, Left(req, own)) == req.maxEntries - |own|
  {
  }

  lemma ScoreFills(vv: VersionVector, req: Request, tune: Tuning, rule: Rule, own: set<NodeID>)
    requires 0 < req.maxEntries && own == Preselected(vv, req) && IsScoreRule(tune, rule) && Measures(vv, rule)
    ensures |own| <= req.maxEntries
    ensures AddScore(vv, req, FiguresOf(vv, req, tune), own, Left(req, own)) ==
            own + Winners(vv, rule, vv.entries.Keys - own, req.maxEntries - |own|)
  {
    OwnFits(vv, req, own);
    ScoreAdded(vv, req, tune, rule, own, Left(req, own));
  }

  lemma ScoreKeys(vv: VersionVector, req: Request, fig: Figures, env: Outside, own: set<NodeID>)
    requires 0 < req.maxEntries && req.strategy.Score? && own == Preselected(vv, req)
    ensures SelectKeys(vv, req, fig, env) == AddScore(vv, req, fig, own, Left(req, own))
  {
  }

  /** Whom Score selects: the preferred node, and each candidate that fewer others beat than there are slots
      left. */
  lemma ScoreExact(vv: VersionVector, req: Request, tune: Tuning, env: Outside, rule: Rule, own: set<NodeID>)
    requires 0 < req.maxEntries && req.strategy.Score? && IsScoreRule(tune, rule) && Measures(vv, rule)
    requires own == Preselected(vv, req)
    ensures |own| <= req.maxEntries
    ensures SelectKeys(vv, req, FiguresOf(vv, req, tune), env) ==
            own + Winners(vv, rule, vv.entries.Keys - own, req.maxEntries - |own|)
  {
    ScoreKeys(vv, req, FiguresOf(vv, req, tune), env, own);
    ScoreFills(vv, req, tune, rule, own);
  }

  /** Whom a pass of AgeScore adds. */
  lemma AgeScoreAdded(vv: VersionVector, req: Request, tune: Tuning, rule: Rule, sel: set<NodeID>, budget: nat)
    requires IsAgeRule(req, rule) && Measures(vv, rule) && Preselected(vv, req) <= sel
    ensures AddAgeScore(vv, req, FiguresOf(vv, req, tune), sel, budget) ==
            sel + Winners(vv, rule, vv.entries.Keys - sel, Room(req.maxEntries, sel, budget))
  {
    var s, r := vv.entries.Keys - sel, AgeScoreOrder(vv, FiguresOf(vv, req, tune), sel);
    assert s - sel == s;
    FirstAdded(vv.entries.Keys, s, r, sel, Room(req.maxEntries, sel, budget));
    forall x, y | x in s && y in s ensures r.Before(x, y) <==> Beats(vv, rule, x, y) {
      BeatsByAge(vv, req, tune, rule, sel, x, y);
    }
    WinnersAre(r, vv, rule, s, Room(req.maxEntries, sel, budget));
  }

  /** Whom a pass of DeficitScore adds. */
  lemma DeficitScoreAdded(vv: VersionVector, req: Request, tune: Tuning, rule: Rule, sel: set<NodeID>, budget: nat)
    requires IsDeficitRule(req, rule) && Measures(vv, rule) && Preselected(vv, req) <= sel
    ensures AddDeficitScore(vv, req, FiguresOf(vv, req, tune), sel, budget) ==
            sel + Winners(vv, rule, vv.entries.Keys - sel, Room(req.maxEntries, sel, budget))
  {
    var s, r := vv.entries.Keys - sel, DeficitOrder(vv, FiguresOf(vv, req, tune), sel);
    assert s - sel == s;
    FirstAdded(vv.entries.Keys, s, r, sel, Room(req.maxEntries, sel, budget));
    forall x, y | x in s && y in s ensures r.Before(x, y) <==> Beats(vv, rule, x, y) {
      BeatsByDeficit(vv, req, tune, rule, sel, x, y);
    }
    WinnersAre(r, vv, rule, s, Room(req.maxEntries, sel, budget));
  }
}
