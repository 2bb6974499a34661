/** What sets the strategies apart: which entries each of them is sure to select. */
module StrategyFacts {
  import opened Collections
  import opened Nodes
  import opened Orders
  import opened Numbers
  import opened VersionVectors
  import opened Selection
  import opened SelectionFacts
  import opened Scoring
  import opened ScoringFacts

  // ---- Lists with a budget of their own ----

  /** The entries of a list that are known. */
  function Wanted(known: set<NodeID>, order: seq<NodeID>): set<NodeID> {
    set x | x in order && x in known
  }

  /** Those from position i on that are not selected. */
  function Missing(known: set<NodeID>, order: seq<NodeID>, i: nat, sel: set<NodeID>): set<NodeID>
    requires i <= |order|
    decreases |order| - i
  {
    if i == |order| then {}
    else Missing(known, order, i + 1, sel) + if order[i] in known && order[i] !in sel then {order[i]} else {}
  }

  lemma {:induction false} MissingHas(known: set<NodeID>, order: seq<NodeID>, i: nat, sel: set<NodeID>, x: NodeID)
    requires i <= |order|
    ensures x in Missing(known, order, i, sel) <==> x in known && x !in sel && x in order[i..]
    decreases |order| - i
  {
    if i < |order| {
      MissingHas(known, order, i + 1, sel, x);
      assert order[i..] == [order[i]] + order[i + 1..];
    }
  }

  lemma {:induction false} MissingWithout(known: set<NodeID>, order: seq<NodeID>, i: nat, sel: set<NodeID>, x: NodeID)
    requires i <= |order|
    ensures Missing(known, order, i, sel + {x}) == Missing(known, order, i, sel) - {x}
    decreases |order| - i
  {
    if i < |order| { MissingWithout(known, order, i + 1, sel, x); }
  }

  /** As many of the missing entries as there is room for have come in, and nothing else. */
  predicate Gains(out: set<NodeID>, sel: set<NodeID>, missing: set<NodeID>, room: nat) {
    sel <= out <= sel + missing && |out| == |sel| + Min(room, |missing|)
  }

  lemma GainOne(out: set<NodeID>, sel: set<NodeID>, missing: set<NodeID>, x: NodeID, room: nat)
    requires x !in sel && room > 0 && Gains(out, sel + {x}, missing - {x}, room - 1)
    ensures Gains(out, sel, missing + {x}, room)
  {
    assert missing + {x} == (missing - {x}) + {x};
  }

  lemma FillTaken(known: set<NodeID>, order: seq<NodeID>, i: nat, sel: set<NodeID>, room: nat)
    requires i < |order| && room > 0 && order[i] in known && order[i] !in sel
    requires Gains(FillFrom(known, order, i + 1, sel + {order[i]}, room - 1), sel + {order[i]},
                   Missing(known, order, i + 1, sel + {order[i]}), room - 1)
    ensures Gains(FillFrom(known, order, i, sel, room), sel, Missing(known, order, i, sel), room)
  {
    MissingWithout(known, order, i + 1, sel, order[i]);
    GainOne(FillFrom(known, order, i + 1, sel + {order[i]}, room - 1), sel, Missing(known, order, i + 1, sel), order[i],
            room);
  }

  lemma MissingSkips(known: set<NodeID>, order: seq<NodeID>, i: nat, sel: set<NodeID>)
    requires i < |order| && (order[i] !in known || order[i] in sel)
    ensures Missing(known, order, i, sel) == Missing(known, order, i + 1, sel)
  {
  }

  /** Whatever the list, with repetitions and unknown entries, a fill adds as many of its known and
      unselected entries as it has room for, and nothing else. */
  lemma {:induction false} FillGains(known: set<NodeID>, order: seq<NodeID>, i: nat, sel: set<NodeID>, room: nat)
    requires i <= |order|
    ensures Gains(FillFrom(known, order, i, sel, room), sel, Missing(known, order, i, sel), room)
    decreases |order| - i
  {
    if i < |order| && room > 0 {
      if order[i] in known && order[i] !in sel {
        FillGains(known, order, i + 1, sel + {order[i]}, room - 1);
        FillTaken(known, order, i, sel, room);
      } else {
        FillGains(known, order, i + 1, sel, room);
        MissingSkips(known, order, i, sel);
      }
    }
  }

  lemma {:induction false} FreshMonotone(order: seq<NodeID>, i: nat, j: nat, k: nat, sel: set<NodeID>)
    requires i <= j <= k <= |order|
    ensures FreshCount(order, i, j, sel) <= FreshCount(order, i, k, sel)
    decreases k - i
  {
    if i < j { FreshMonotone(order, i + 1, j, k, sel); }
  }

  lemma EarlierFirst(known: set<NodeID>, order: seq<NodeID>, sel: set<NodeID>, room: nat, x: NodeID, y: NodeID)
    requires Covers(order, known, {}) && x in order && y in order && IndexOf(order, x) < IndexOf(order, y)
    requires x !in sel && y !in sel
    ensures y in Fill(known, order, sel, room) ==> x in Fill(known, order, sel, room)
  {
    var i, j := IndexOf(order, x), IndexOf(order, y);
    FreshMonotone(order, 0, i, j, sel);
    FillExact(known, order, 0, sel, room, i);
    FillExact(known, order, 0, sel, room, j);
  }

  /** As many of the entries wanted are selected as the budget allows. */
  ghost predicate Keeps(out: set<NodeID>, wanted: set<NodeID>, budget: nat) {
    |out * wanted| >= Min(budget, |wanted|)
  }

  lemma GrownShare(out: set<NodeID>, sel: set<NodeID>, wanted: set<NodeID>)
    requires sel <= out <= sel + (wanted - sel)
    ensures |out * wanted| == |wanted * sel| + |out - sel|
  {
    assert out * wanted == wanted * sel + (out - sel);
  }

  lemma SetSplits(a: set<NodeID>, b: set<NodeID>)
    ensures |a| == |a * b| + |a - b|
  {
    assert a == a * b + (a - b);
  }

  lemma InCommon(out: set<NodeID>, sel: set<NodeID>, wanted: set<NodeID>, room: nat)
    requires sel <= out <= sel + (wanted - sel) && |out| == |sel| + Min(room, |wanted - sel|)
    ensures Keeps(out, wanted, room)
  {
    PartSize(out, sel);
    GrownShare(out, sel, wanted);
    SetSplits(wanted, sel);
  }

  lemma MissingIs(known: set<NodeID>, order: seq<NodeID>, sel: set<NodeID>)
    ensures Missing(known, order, 0, sel) == Wanted(known, order) - sel
  {
    forall x ensures x in Missing(known, order, 0, sel) <==> x in Wanted(known, order) - sel {
      MissingHas(known, order, 0, sel, x);
      assert order[0..] == order;
    }
  }

  /** Counting those selected before, at least as many known entries of the list are selected as its
      room allows. */
  lemma FillTakes(known: set<NodeID>, order: seq<NodeID>, sel: set<NodeID>, room: nat)
    ensures Keeps(Fill(known, order, sel, room), Wanted(known, order), room)
  {
    FillGains(known, order, 0, sel, room);
    MissingIs(known, order, sel);
    InCommon(Fill(known, order, sel, room), sel, Wanted(known, order), room);
  }

  lemma StickyPass(vv: VersionVector, req: Request, sel0: set<NodeID>, budget: nat)
    requires Partial(vv, req, sel0) && budget <= req.maxEntries - |sel0|
    ensures Keeps(AddSticky(vv, req, sel0, budget), Wanted(vv.entries.Keys, req.sticky), budget)
    ensures Partial(vv, req, AddSticky(vv, req, sel0, budget))
  {
    FillTakes(vv.entries.Keys, req.sticky, sel0, Room(req.maxEntries, sel0, budget));
    PartPass(vv, req, req.sticky, sel0, budget);
  }

  lemma MoreKeeps(a: set<NodeID>, b: set<NodeID>, wanted: set<NodeID>, budget: nat)
    requires a <= b && Keeps(a, wanted, budget)
    ensures Keeps(b, wanted, budget)
  {
    SubsetSize(a * wanted, b * wanted);
  }

  /** StickyRecent, which starts from the preferred entry, keeps as many of the previous entries that
      are still known as the sticky budget allows. */
  lemma StickyKept(vv: VersionVector, req: Request, sel0: set<NodeID>)
    requires Partial(vv, req, sel0)
    ensures Keeps(SelectStickyRecent(vv, req, sel0), Wanted(vv.entries.Keys, req.sticky),
                  Min(req.stickyBudget, req.maxEntries - |sel0|))
  {
    var budget := Min(req.stickyBudget, Left(req, sel0));
    var sel1 := AddSticky(vv, req, sel0, budget);
    StickyPass(vv, req, sel0, budget);
    TopUpPasses(vv, req, sel1);
    MoreKeeps(sel1, TopUp(vv, req, sel1), Wanted(vv.entries.Keys, req.sticky), budget);
  }

  /** The quota strategies select as many known entries of their extra list as the quota allows. */
  lemma QuotaKept(vv: VersionVector, req: Request, extra: seq<NodeID>, sel0: set<NodeID>)
    requires Partial(vv, req, sel0)
    ensures Keeps(SelectRecentQuota(vv, req, extra, sel0), Wanted(vv.entries.Keys, extra),
                  Min(req.noveltyBudget, req.maxEntries - |sel0|))
  {
    var quota := Min(req.noveltyBudget, Left(req, sel0));
    var recentBudget := if req.maxEntries > |sel0| + quota then req.maxEntries - |sel0| - quota else 0;
    var sel1 := AddRecent(vv, req, sel0, recentBudget);
    RecentPass(vv, req, sel0, recentBudget);
    ExtraPass(vv, req, extra, sel1, quota);
    var sel2 := Fill(vv.entries.Keys, extra, sel1, Room(req.maxEntries, sel1, Min(quota, Left(req, sel1))));
    TopUpPasses(vv, req, sel2);
    MoreKeeps(sel2, TopUp(vv, req, sel2), Wanted(vv.entries.Keys, extra), quota);
  }

  lemma ExtraPass(vv: VersionVector, req: Request, extra: seq<NodeID>, sel: set<NodeID>, quota: nat)
    requires Partial(vv, req, sel) && quota <= req.maxEntries - |sel|
    ensures var out := Fill(vv.entries.Keys, extra, sel, Room(req.maxEntries, sel, Min(quota, Left(req, sel))));
            Keeps(out, Wanted(vv.entries.Keys, extra), quota) && Partial(vv, req, out)
  {
    FillTakes(vv.entries.Keys, extra, sel, Room(req.maxEntries, sel, Min(quota, Left(req, sel))));
    PartPass(vv, req, extra, sel, Min(quota, Left(req, sel)));
  }

  /** The extra list of RecentNoveltyQuota is what was not selected the last time. */
  lemma NoveltyIs(vv: VersionVector, req: Request)
    ensures Elements(NoveltyNodes(vv, req)) == vv.entries.Keys - Elements(req.noveltyBase) &&
            Distinct(NoveltyNodes(vv, req))
    ensures forall k | 0 <= k < |NoveltyNodes(vv, req)| :: NoveltyNodes(vv, req)[k] in vv.entries
  {
    ListingFacts(RecencyOrder(vv), vv.entries.Keys - Elements(req.noveltyBase));
  }

  // ---- The most recent entries ----

  /** Hybrid selects every entry that fewer than its hot share of unselected entries precede in
      recency. */
  lemma HotEntriesSelected(vv: VersionVector, req: Request, fig: Figures, env: Outside, j: nat)
    requires 0 < req.maxEntries <= |vv.entries| && req.strategy.Hybrid? && j < |RecentNodes(vv)|
    requires var sel0 := Preselected(vv, req);
             FreshCount(RecentNodes(vv), 0, j, sel0) < HotTarget(req, fig.hotTarget, |sel0|) - |sel0|
    ensures RecentNodes(vv)[j] in SelectKeys(vv, req, fig, env)
  {
    var sel0 := Preselected(vv, req);
    var first := FirstBudget(req, fig.hotTarget, |sel0|);
    ListingFacts(RecencyOrder(vv), vv.entries.Keys);
    FillExact(vv.entries.Keys, RecentNodes(vv), 0, sel0, Room(req.maxEntries, sel0, first), j);
    ReservedPasses(vv, req, fig, env, sel0, first);
  }

  /** A pass by recency: whoever is updated more recently than an entry it adds is selected. */
  lemma RecentDominance(vv: VersionVector, req: Request, sel: set<NodeID>, budget: nat, x: NodeID, y: NodeID)
    requires x in vv.entries && y in vv.entries && x !in sel && y !in sel && RecencyOrder(vv).Before(x, y)
    ensures y in AddRecent(vv, req, sel, budget) ==> x in AddRecent(vv, req, sel, budget)
  {
    RankSorted(RecencyOrder(vv), vv.entries.Keys, x, y);
    ListingCovers(RecencyOrder(vv), vv.entries.Keys, vv.entries.Keys, {});
    EarlierFirst(vv.entries.Keys, RecentNodes(vv), sel, Room(req.maxEntries, sel, budget), x, y);
  }

  // ---- AgeScore and DeficitScore ----

  lemma OffsetMonotone(vv: VersionVector, startIndex: nat, x: NodeID, y: NodeID)
    requires x in vv.entries && y in vv.entries &&
             RotationOffset(vv, startIndex, x) <= RotationOffset(vv, startIndex, y)
    ensures FairPart(vv, startIndex, x) >= FairPart(vv, startIndex, y)
  {
    NormalizeMonotone(RotationOffset(vv, startIndex, x), RotationOffset(vv, startIndex, y), |vv.entries|);
  }

  lemma SeqScoreMonotone(vv: VersionVector, x: NodeID, y: NodeID)
    requires x in vv.entries && y in vv.entries && vv.Get(x) >= vv.Get(y)
    ensures SeqScore(vv, x) >= SeqScore(vv, y)
  {
    if MaxSeq(vv) > 0 { DivideMonotone(vv.entries[y] as real, vv.entries[x] as real, MaxSeq(vv) as real); }
  }

  lemma DeficitPartMonotone(vv: VersionVector, x: NodeID, y: NodeID)
    requires x in vv.entries && y in vv.entries && vv.Get(x) <= vv.Get(y)
    ensures DeficitPart(vv, x) >= DeficitPart(vv, y)
  {
    if MaxSeq(vv) > 0 {
      DivideMonotone((MaxSeq(vv) - vv.entries[y]) as real, (MaxSeq(vv) - vv.entries[x]) as real, MaxSeq(vv) as real);
    }
  }

  lemma AgePartMonotone(vv: VersionVector, x: NodeID, y: NodeID)
    requires x in vv.entries && y in vv.entries && AgeOrder(vv).Before(x, y)
    ensures AgePart(vv, x) >= AgePart(vv, y)
  {
    RankSorted(AgeOrder(vv), vv.entries.Keys, x, y);
    NormalizeMonotone(IndexOf(AgedNodes(vv), x), IndexOf(AgedNodes(vv), y), |vv.entries|);
  }

  lemma RecentScoreMonotone(vv: VersionVector, x: NodeID, y: NodeID)
    requires x in vv.entries && y in vv.entries && RecencyOrder(vv).Before(x, y)
    ensures RecentScore(vv, x) >= RecentScore(vv, y)
  {
    RankSorted(RecencyOrder(vv), vv.entries.Keys, x, y);
    NormalizeMonotone(IndexOf(RecentNodes(vv), x), IndexOf(RecentNodes(vv), y), |vv.entries|);
  }

  /** In a pass of AgeScore, an entry that is staler than a selected one, no less active and no
      farther from the cursor is selected. */
  lemma AgeDominance(vv: VersionVector, req: Request, tune: Tuning, sel: set<NodeID>, budget: nat, x: NodeID, y: NodeID)
    requires x in vv.entries && y in vv.entries && x !in sel && y !in sel && x != req.preferred && y != req.preferred
    requires AgeOrder(vv).Before(x, y) && vv.Get(x) >= vv.Get(y)
    requires RotationOffset(vv, req.startIndex, x) <= RotationOffset(vv, req.startIndex, y)
    ensures var fig := FiguresOf(vv, req, tune);
            y in AddAgeScore(vv, req, fig, sel, budget) ==> x in AddAgeScore(vv, req, fig, sel, budget)
  {
    var fig := FiguresOf(vv, req, tune);
    AgePartMonotone(vv, x, y);
    SeqScoreMonotone(vv, x, y);
    OffsetMonotone(vv, req.startIndex, x, y);
    assert fig.aged[x] == AgedScore(vv, req, tune, x) && fig.aged[y] == AgedScore(vv, req, tune, y);
    FillPrefix(vv.entries.Keys, AgeScoreOrder(vv, fig, sel), sel, Room(req.maxEntries, sel, budget), x, y);
  }

  /** In a pass of DeficitScore, an entry that lags at least as far behind as a selected one, is more
      recent and no farther from the cursor is selected. */
  lemma DeficitDominance(vv: VersionVector, req: Request, tune: Tuning, sel: set<NodeID>, budget: nat, x: NodeID,
                         y: NodeID)
    requires x in vv.entries && y in vv.entries && x !in sel && y !in sel && x != req.preferred && y != req.preferred
    requires RecencyOrder(vv).Before(x, y) && vv.Get(x) <= vv.Get(y)
    requires RotationOffset(vv, req.startIndex, x) <= RotationOffset(vv, req.startIndex, y)
    ensures var fig := FiguresOf(vv, req, tune);
            y in AddDeficitScore(vv, req, fig, sel, budget) ==> x in AddDeficitScore(vv, req, fig, sel, budget)
  {
    var fig := FiguresOf(vv, req, tune);
    RecentScoreMonotone(vv, x, y);
    DeficitPartMonotone(vv, x, y);
    OffsetMonotone(vv, req.startIndex, x, y);
    assert fig.deficit[x] == DeficitScoreOf(vv, req, tune, x) && fig.deficit[y] == DeficitScoreOf(vv, req, tune, y);
    FillPrefix(vv.entries.Keys, DeficitOrder(vv, fig, sel), sel, Room(req.maxEntries, sel, budget), x, y);
  }
}
