/** What the scoring strategies promise of single candidates: who must be selected along with whom. */
module ScoreLaws {
  import opened Collections
  import opened Nodes
  import opened Orders
  import opened VersionVectors
  import opened Selection
  import opened Scoring
  import opened ScoringFacts
  import opened Ranks
  import opened Tradeoffs

  // ---- Score ----

  /** Two candidates, neither of them preferred. */
  predicate Rivals(vv: VersionVector, req: Request, x: NodeID, y: NodeID) {
    x in vv.entries && y in vv.entries && x !in Preselected(vv, req) && y !in Preselected(vv, req)
  }

  /** Under Score, whoever beats a selected candidate is selected. */
  lemma BeatsSelected(vv: VersionVector, req: Request, tune: Tuning, env: Outside, rule: Rule, x: NodeID, y: NodeID)
    requires 0 < req.maxEntries && req.strategy.Score? && IsScoreRule(tune, rule) && Measures(vv, rule)
    requires Rivals(vv, req, x, y) && Beats(vv, rule, x, y)
    ensures y in SelectKeys(vv, req, FiguresOf(vv, req, tune), env) ==>
            x in SelectKeys(vv, req, FiguresOf(vv, req, tune), env)
  {
    BeatsByScore(vv, req, tune, rule, Preselected(vv, req), x, y);
    ScoreSelectsPrefix(vv, req, FiguresOf(vv, req, tune), env, x, y);
  }

  lemma PartSign(d: int, scale: nat)
    requires d > 0
    ensures Part(d, scale) >= 0.0 && (scale > 0 ==> Part(d, scale) > 0.0)
  {
  }

  lemma SmallerAhead(r: Ranking, s: set<NodeID>, x: NodeID, y: NodeID)
    requires x in s && y in s && r.Before(x, y)
    ensures |Ahead(r, s, x)| < |Ahead(r, s, y)| <= |s| - 1
  {
    assert Ahead(r, s, x) + {x} <= Ahead(r, s, y) <= s - {y};
    SubsetSize(Ahead(r, s, x) + {x}, Ahead(r, s, y));
    SubsetSize(Ahead(r, s, y), s - {y});
  }

  /** With a weight for recency only, whoever is more recent than a selected candidate is selected. */
  lemma RecencyAlone(vv: VersionVector, req: Request, tune: Tuning, env: Outside, x: NodeID, y: NodeID)
    requires 0 < req.maxEntries && req.strategy.Score?
    requires tune.recentWeight > 0.0 && tune.seqWeight <= 0.0 && tune.fairWeight <= 0.0
    requires Rivals(vv, req, x, y) && RecencyOrder(vv).Before(x, y)
    ensures y in SelectKeys(vv, req, FiguresOf(vv, req, tune), env) ==>
            x in SelectKeys(vv, req, FiguresOf(vv, req, tune), env)
  {
    var rule := MeasuresExist(vv, ScoreMix(tune), tune.missedRounds, 0, false);
    SmallerAhead(RecencyOrder(vv), vv.entries.Keys, x, y);
    PartSign(Newer(vv, y) - Newer(vv, x), |vv.entries| - 1);
    OnlyRecency(rule.mix, GapsOf(vv, rule, x, y));
    BeatsSelected(vv, req, tune, env, rule, x, y);
  }

  lemma OnlyRecency(mix: Mix, g: Gaps)
    requires mix == Mix(0.0, 0.0, mix.recency, 0.0, 0.0, 0.0) && mix.recency > 0.0 && g.recency > 0.0
    ensures Blend(mix, g) > 0.0
  {
    assert mix.recency * g.recency > 0.0;
  }

  /** With a weight for activity only, whoever has a higher number than a selected candidate is selected. */
  lemma ActivityAlone(vv: VersionVector, req: Request, tune: Tuning, env: Outside, x: NodeID, y: NodeID)
    requires 0 < req.maxEntries && req.strategy.Score?
    requires tune.seqWeight > 0.0 && tune.recentWeight <= 0.0 && tune.fairWeight <= 0.0
    requires Rivals(vv, req, x, y) && vv.Get(x) > vv.Get(y)
    ensures y in SelectKeys(vv, req, FiguresOf(vv, req, tune), env) ==>
            x in SelectKeys(vv, req, FiguresOf(vv, req, tune), env)
  {
    var rule := MeasuresExist(vv, ScoreMix(tune), tune.missedRounds, 0, false);
    assert Missed(vv.entries, x) == vv.Get(x);
    PartSign(vv.Get(x) - vv.Get(y), rule.top);
    OnlyActivity(rule.mix, GapsOf(vv, rule, x, y));
    BeatsSelected(vv, req, tune, env, rule, x, y);
  }

  lemma OnlyActivity(mix: Mix, g: Gaps)
    requires mix == Mix(mix.activity, 0.0, 0.0, 0.0, 0.0, 0.0) && mix.activity > 0.0 && g.activity > 0.0
    ensures Blend(mix, g) > 0.0
  {
    assert mix.activity * g.activity > 0.0;
  }

  /** Neither weight is negative, and not both are zero. */
  predicate Weighs(tune: Tuning) {
    tune.seqWeight >= 0.0 && tune.recentWeight >= 0.0 && (tune.seqWeight > 0.0 || tune.recentWeight > 0.0)
  }

  lemma RecencyAhead(vv: VersionVector, tune: Tuning, rule: Rule, x: NodeID, y: NodeID)
    requires x in vv.entries && y in vv.entries && IsScoreRule(tune, rule) && Weighs(tune)
    requires Missed(tune.missedRounds, x) == Missed(tune.missedRounds, y)
    requires tune.recentWeight * RecencyGap(vv, x, y) > tune.seqWeight * ActivityGap(vv, rule.top, y, x)
    ensures Advantage(vv, rule, x, y) > 0.0
  {
    PartNegated(vv.Get(x) - vv.Get(y), rule.top);
    SameWaiting(rule, x, y);
    MixOfWeights(tune);
    Outweighed(rule.mix, GapsOf(vv, rule, x, y), tune.recentWeight, RecencyGap(vv, x, y),
               tune.seqWeight, ActivityGap(vv, rule.top, y, x));
  }

  lemma SameWaiting(rule: Rule, x: NodeID, y: NodeID)
    requires Missed(rule.missed, x) == Missed(rule.missed, y)
    ensures WaitingGap(rule, x, y) == 0.0
  {
    NoGap(rule.longest as real + COMPENSATION_EPSILON);
  }

  lemma MixOfWeights(tune: Tuning)
    requires Weighs(tune)
    ensures ScoreMix(tune) == Mix(tune.seqWeight, 0.0, tune.recentWeight, 0.0, 0.0, ScoreMix(tune).waiting)
  {
  }

  /** With all three weights: among candidates that have waited as long, recency outweighs activity as the
      weights say. */
  lemma RecencyOutweighs(vv: VersionVector, req: Request, tune: Tuning, env: Outside, top: nat, x: NodeID, y: NodeID)
    requires 0 < req.maxEntries && req.strategy.Score? && Rivals(vv, req, x, y) && Weighs(tune)
    requires Greatest(vv.entries, vv.entries.Keys, top)
    requires Missed(tune.missedRounds, x) == Missed(tune.missedRounds, y)
    requires tune.recentWeight * RecencyGap(vv, x, y) > tune.seqWeight * ActivityGap(vv, top, y, x)
    ensures y in SelectKeys(vv, req, FiguresOf(vv, req, tune), env) ==>
            x in SelectKeys(vv, req, FiguresOf(vv, req, tune), env)
  {
    var rule := MeasuresExist(vv, ScoreMix(tune), tune.missedRounds, 0, false);
    SameTop(vv, top, rule.top);
    RecencyAhead(vv, tune, rule, x, y);
    BeatsSelected(vv, req, tune, env, rule, x, y);
  }

  lemma SameTop(vv: VersionVector, top: nat, top': nat)
    requires Greatest(vv.entries, vv.entries.Keys, top) && Greatest(vv.entries, vv.entries.Keys, top')
    ensures top == top'
  {
    GreatestIs(vv.entries, vv, top);
    GreatestIs(vv.entries, vv, top');
  }

  lemma NoGap(d: real)
    requires d > 0.0
    ensures (0 as real) / d == 0.0
  {
  }

  lemma Outweighed(mix: Mix, g: Gaps, wr: real, r: real, ws: real, a: real)
    requires mix == Mix(ws, 0.0, wr, 0.0, 0.0, mix.waiting)
    requires g.recency == r && g.activity == -a && g.waiting == 0.0 && wr * r > ws * a
    ensures Blend(mix, g) > 0.0
  {
    assert ws * -a == -(ws * a);
  }
}
