/** version-vector.cpp: the figures selectSubset ranks nodes by, over exact reals. */
module Scoring {
  import opened Collections
  import opened Nodes
  import opened Orders
  import opened Numbers
  import opened VersionVectors
  import opened Selection

  /** The arguments of selectSubset that only enter the figures it ranks by. */
  datatype Tuning = Tuning(
    hotRatio: real,
    seqWeight: real,
    recentWeight: real,
    fairWeight: real,
    preferredBoost: real,
    missedRounds: map<NodeID, nat>)

  function NormalizeRankScore(rank: nat, population: nat, descending: bool := true): real {
    if population <= 1 then 1.0
    else
      var normalized := 1.0 - rank as real / (population - 1) as real;
      if descending then normalized else 1.0 - normalized
  }

  /** How many rounds in a row a node has gone unselected; unknown nodes have missed none. */
  function Missed(missedRounds: map<NodeID, nat>, nid: NodeID): nat {
    if nid in missedRounds then missedRounds[nid] else 0
  }

  function MaxOver(values: map<NodeID, nat>, xs: seq<NodeID>): nat {
    if xs == [] then 0 else Max(Missed(values, xs[0]), MaxOver(values, xs[1..]))
  }

  function MaxSeq(vv: VersionVector): nat {
    MaxOver(vv.entries, OrderedNodes(vv))
  }

  function MaxMissed(vv: VersionVector, missedRounds: map<NodeID, nat>): nat {
    MaxOver(missedRounds, OrderedNodes(vv))
  }

  function SeqScore(vv: VersionVector, nid: NodeID): real
    requires nid in vv.entries
  {
    if MaxSeq(vv) > 0 then vv.entries[nid] as real / MaxSeq(vv) as real else 0.0
  }

  function DeficitPart(vv: VersionVector, nid: NodeID): real
    requires nid in vv.entries
  {
    if MaxSeq(vv) > 0 then (MaxSeq(vv) - vv.entries[nid]) as real / MaxSeq(vv) as real else 0.0
  }

  function RecentScore(vv: VersionVector, nid: NodeID): real
    requires nid in vv.entries
  {
    ListingFacts(RecencyOrder(vv), vv.entries.Keys);
    NormalizeRankScore(IndexOf(RecentNodes(vv), nid), |vv.entries|)
  }

  function AgePart(vv: VersionVector, nid: NodeID): real
    requires nid in vv.entries
  {
    ListingFacts(AgeOrder(vv), vv.entries.Keys);
    NormalizeRankScore(IndexOf(AgedNodes(vv), nid), |vv.entries|)
  }

  /** Distance of the node from the cursor, going round the ordered nodes. */
  function RotationOffset(vv: VersionVector, startIndex: nat, nid: NodeID): nat
    requires nid in vv.entries
  {
    ListingFacts(BY_NAME, vv.entries.Keys);
    var n := |OrderedNodes(vv)|;
    (IndexOf(OrderedNodes(vv), nid) + n - startIndex % n) % n
  }

  function FairPart(vv: VersionVector, startIndex: nat, nid: NodeID): real
    requires nid in vv.entries
  {
    NormalizeRankScore(RotationOffset(vv, startIndex, nid), |vv.entries|)
  }

  function BoostPart(req: Request, tune: Tuning, nid: NodeID): real {
    if req.preferred != EMPTY_NODE_ID && nid == req.preferred then MaxReal(0.0, tune.preferredBoost) else 0.0
  }

  const COMPENSATION_EPSILON: real := 0.000000001

  function CompensationScore(vv: VersionVector, missedRounds: map<NodeID, nat>, nid: NodeID): real {
    if nid in missedRounds
    then missedRounds[nid] as real / (MaxMissed(vv, missedRounds) as real + COMPENSATION_EPSILON)
    else 0.0
  }

  datatype Weights = Weights(seqNo: real, recent: real, fair: real)

  /** Negative weights count as zero; all-zero weights fall back to the defaults. */
  function EffectiveWeights(seqWeight: real, recentWeight: real, fairWeight: real): (w: Weights)
    ensures w.seqNo >= 0.0 && w.recent >= 0.0 && w.fair >= 0.0
    ensures w.seqNo + w.recent + w.fair == 1.0
  {
    var s, r, f := MaxReal(0.0, seqWeight), MaxReal(0.0, recentWeight), MaxReal(0.0, fairWeight);
    var sum := s + r + f;
    if sum <= 0.0 then Weights(0.35, 0.45, 0.20) else
      SharesSumToOne(s, r, f, sum);
      Weights(s / sum, r / sum, f / sum)
  }

  /** The three parts a score weighs, each between 0 and 1. */
  datatype Parts = Parts(seqNo: real, recent: real, compensation: real)

  function PartsOf(vv: VersionVector, missedRounds: map<NodeID, nat>, nid: NodeID): Parts
    requires nid in vv.entries
  {
    Parts(SeqScore(vv, nid), RecentScore(vv, nid), CompensationScore(vv, missedRounds, nid))
  }

  function Weigh(w: Weights, p: Parts): real {
    w.seqNo * p.seqNo + w.recent * p.recent + w.fair * p.compensation
  }

  function WeightedScore(vv: VersionVector, req: Request, tune: Tuning, nid: NodeID): real
    requires nid in vv.entries
  {
    Weigh(EffectiveWeights(tune.seqWeight, tune.recentWeight, tune.fairWeight), PartsOf(vv, tune.missedRounds, nid))
    + BoostPart(req, tune, nid)
  }

  function AgedBase(vv: VersionVector, startIndex: nat, nid: NodeID): real
    requires nid in vv.entries
  {
    0.25 * SeqScore(vv, nid) + 0.60 * AgePart(vv, nid) + 0.15 * FairPart(vv, startIndex, nid)
  }

  function AgedScore(vv: VersionVector, req: Request, tune: Tuning, nid: NodeID): real
    requires nid in vv.entries
  {
    AgedBase(vv, req.startIndex, nid) + BoostPart(req, tune, nid)
  }

  function DeficitBase(vv: VersionVector, startIndex: nat, nid: NodeID): real
    requires nid in vv.entries
  {
    0.55 * DeficitPart(vv, nid) + 0.25 * RecentScore(vv, nid) + 0.20 * FairPart(vv, startIndex, nid)
  }

  function DeficitScoreOf(vv: VersionVector, req: Request, tune: Tuning, nid: NodeID): real
    requires nid in vv.entries
  {
    DeficitBase(vv, req.startIndex, nid) + BoostPart(req, tune, nid)
  }

  function ClusteredBase(vv: VersionVector, startIndex: nat, nid: NodeID): real
    requires nid in vv.entries
  {
    0.28 * SeqScore(vv, nid) + 0.42 * RecentScore(vv, nid) + 0.18 * FairPart(vv, startIndex, nid)
  }

  function ClusteredScore(vv: VersionVector, req: Request, tune: Tuning, nid: NodeID): real
    requires nid in vv.entries
  {
    ClusteredBase(vv, req.startIndex, nid) + BoostPart(req, tune, nid)
  }

  function HotFigure(req: Request, tune: Tuning): nat {
    var share := req.maxEntries as real * ClampReal(tune.hotRatio, 0.50, 0.95);
    assert share >= 0.0;
    Ceil(share)
  }

  function FiguresOf(vv: VersionVector, req: Request, tune: Tuning): Figures {
    Figures(map k | k in vv.entries :: WeightedScore(vv, req, tune, k),
            map k | k in vv.entries :: AgedScore(vv, req, tune, k),
            map k | k in vv.entries :: DeficitScoreOf(vv, req, tune, k),
            map k | k in vv.entries :: ClusteredScore(vv, req, tune, k),
            HotFigure(req, tune))
  }

  /** The whole of selectSubset. */
  function Subset(vv: VersionVector, req: Request, tune: Tuning, env: Outside): VersionVector {
    if req.maxEntries == 0 || vv.entries == map[] then EMPTY
    else if req.strategy.Full? || |vv.entries| <= req.maxEntries then vv
    else vv.Restrict(SelectKeys(vv, req, FiguresOf(vv, req, tune), env))
  }
}
