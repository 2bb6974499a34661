/** What taking turns gives RoundRobin: with the sender's own entry outside the vector every entry
    is sent in each tour of the ring; with the entry inside, exactly when the number of slots does
    not divide the number of entries. */
module RoundRobinFairness {
  import opened Collections
  import opened Nodes
  import opened Orders
  import opened Numbers
  import opened VersionVectors
  import opened Selection
  import opened Settings
  import opened Runs
  import opened Rotation
  import opened Merging

  lemma RoundRobinKeys(vv: VersionVector, req: Request, fig: Figures, env: Outside)
    requires 0 < req.maxEntries && req.strategy.RoundRobin?
    ensures SelectKeys(vv, req, fig, env) ==
            Fill(vv.entries.Keys, Rotated(OrderedNodes(vv), req.startIndex), Preselected(vv, req),
                 Room(req.maxEntries, Preselected(vv, req), req.maxEntries))
  {
  }

  /** A build under RoundRobin serves the nodes whose turn it is. */
  lemma RoundServes(cfg: Settings, keys: set<NodeID>, k: nat, r: Round)
    requires Chooses(cfg, keys, k, r) && IsBuild(cfg, r) && cfg.strategy.RoundRobin?
    ensures r.sent.entries.Keys == Served(keys, Pinned(cfg, keys), k, r.before.cursor)
  {
    BuildChooses(cfg, keys, k, r);
    KeysServed(cfg, keys, k, r);
  }

  lemma RoundRobinRequest(cfg: Settings, k: nat, r: Round)
    requires cfg.strategy.RoundRobin? && r.vv.entries != map[]
    ensures var req := RoundRequest(cfg, k, r);
            req.maxEntries == k && req.startIndex == r.before.cursor && req.preferred == cfg.id &&
            req.strategy.RoundRobin?
  {
  }

  lemma SelectionServes(cfg: Settings, vv: VersionVector, req: Request, fig: Figures, env: Outside)
    requires 0 < req.maxEntries && req.strategy.RoundRobin? && req.preferred == cfg.id
    ensures SelectKeys(vv, req, fig, env) ==
            Served(vv.entries.Keys, Pinned(cfg, vv.entries.Keys), req.maxEntries, req.startIndex)
  {
    RoundRobinKeys(vv, req, fig, env);
  }

  lemma KeysServed(cfg: Settings, keys: set<NodeID>, k: nat, r: Round)
    requires Chooses(cfg, keys, k, r) && cfg.strategy.RoundRobin?
    ensures RoundKeys(cfg, k, r) == Served(keys, Pinned(cfg, keys), k, r.before.cursor)
  {
    RoundRobinRequest(cfg, k, r);
    SelectionServes(cfg, r.vv, RoundRequest(cfg, k, r), RoundFigures(cfg, k, r), r.chance.outside);
  }

  lemma RunServes(cfg: Settings, keys: set<NodeID>, k: nat, rs: seq<Round>, i: nat)
    requires Steady(cfg, keys, k, rs) && cfg.strategy.RoundRobin? && i < |rs| && |Pinned(cfg, keys)| <= k && keys != {}
    ensures rs[i].sent.entries.Keys == Served(keys, Pinned(cfg, keys), k, CursorAt(rs[0].before.cursor, k, |keys|, i))
  {
    SteadyAt(cfg, keys, k, rs, i);
    RoundServes(cfg, keys, k, rs[i]);
    CursorIs(cfg, keys, k, rs, i);
  }

  lemma NodeNumber(keys: set<NodeID>, x: NodeID) returns (e: nat)
    requires x in keys
    ensures e < |keys| && NodeNo(keys, e) == x
  {
    ListingHas(BY_NAME, keys, x);
    ListingSize(BY_NAME, keys);
    e := IndexOf(Listing(BY_NAME, keys), x);
  }

  /** The sender's own entry is sent by every build. */
  lemma OwnSent(cfg: Settings, keys: set<NodeID>, k: nat, rs: seq<Round>, i: nat)
    requires Steady(cfg, keys, k, rs) && i < |rs|
    ensures Pinned(cfg, keys) <= rs[i].sent.entries.Keys
  {
    SteadyAt(cfg, keys, k, rs, i);
    BuildContract(cfg, rs[i]);
  }

  /** Without an entry of its own, the sender sends every entry in any ceil(n / k) builds. */
  lemma FreeCoverage(cfg: Settings, keys: set<NodeID>, k: nat, rs: seq<Round>, x: NodeID) returns (i: nat)
    requires Steady(cfg, keys, k, rs) && cfg.strategy.RoundRobin? && Pinned(cfg, keys) == {}
    requires 0 < k && |rs| >= CeilDiv(|keys|, k) && x in keys
    ensures i < CeilDiv(|keys|, k) && x in rs[i].sent.entries.Keys
  {
    SteadySizes(cfg, keys, k, rs);
    var e := NodeNumber(keys, x);
    i := FreeTurnComes(keys, k, rs[0].before.cursor, 0, e, CeilDiv(|keys|, k));
    RunServes(cfg, keys, k, rs, i);
  }

  /** With an entry of its own, it sends every entry in any 2 * ceil(n / k) builds, provided that k
      does not divide n. */
  lemma PinnedCoverage(cfg: Settings, keys: set<NodeID>, k: nat, rs: seq<Round>, x: NodeID) returns (i: nat)
    requires Steady(cfg, keys, k, rs) && cfg.strategy.RoundRobin? && Pinned(cfg, keys) != {}
    requires 0 < k && |rs| >= 2 * CeilDiv(|keys|, k) && |keys| % k != 0 && x in keys
    ensures i < 2 * CeilDiv(|keys|, k) && x in rs[i].sent.entries.Keys
  {
    SteadySizes(cfg, keys, k, rs);
    if x == cfg.id {
      i := 0;
      OwnSent(cfg, keys, k, rs, 0);
    } else {
      var e := NodeNumber(keys, x);
      var o := NodeNumber(keys, cfg.id);
      i := PinnedServedInTwoTours(keys, k, rs[0].before.cursor, e, o);
      RunServes(cfg, keys, k, rs, i);
    }
  }

  /** When k divides n, some entry is never sent: the promise that the cursor guarantees coverage
      (core.hpp, m_stateVectorCursor) does not hold. */
  lemma PinnedStarvation(cfg: Settings, keys: set<NodeID>, k: nat, rs: seq<Round>) returns (x: NodeID)
    requires Steady(cfg, keys, k, rs) && cfg.strategy.RoundRobin? && Pinned(cfg, keys) != {}
    requires 0 < k && rs != [] && |keys| % k == 0
    ensures x in keys && forall i | 0 <= i < |rs| :: x !in rs[i].sent.entries.Keys
  {
    SteadySizes(cfg, keys, k, rs);
    var o := NodeNumber(keys, cfg.id);
    var m := Divides(|keys|, k);
    var e := PinnedStarves(keys, k, m, rs[0].before.cursor, o);
    x := NodeNo(keys, e);
    ListingSize(BY_NAME, keys);
    ListingAt(BY_NAME, keys, e);
    forall i | 0 <= i < |rs| ensures x !in rs[i].sent.entries.Keys {
      RunServes(cfg, keys, k, rs, i);
    }
  }

  ghost predicate SentSome(rs: seq<Round>, x: NodeID) {
    exists i :: 0 <= i < |rs| && x in rs[i].sent.entries.Keys
  }

  /** Coverage with the own entry pinned, exactly: over any run of two tours or more, every entry
      is sent if and only if the number of slots does not divide the number of entries. */
  lemma PinnedCoverageExactly(cfg: Settings, keys: set<NodeID>, k: nat, rs: seq<Round>)
    requires Steady(cfg, keys, k, rs) && cfg.strategy.RoundRobin? && Pinned(cfg, keys) != {}
    requires 0 < k && rs != [] && |rs| >= 2 * CeilDiv(|keys|, k)
    ensures (forall x | x in keys :: SentSome(rs, x)) <==> |keys| % k != 0
  {
    if |keys| % k == 0 {
      var x := PinnedStarvation(cfg, keys, k, rs);
      assert !SentSome(rs, x);
    } else {
      forall x | x in keys ensures SentSome(rs, x) {
        var i := PinnedCoverage(cfg, keys, k, rs, x);
      }
    }
  }

  /** Four nodes, two slots, the sender first in order, the cursor at the start: the last node is
      never heard of. */
  lemma LastOfFourStarves(cfg: Settings, keys: set<NodeID>, rs: seq<Round>, i: nat)
    requires |keys| == 4 && Steady(cfg, keys, 2, rs) && cfg.strategy.RoundRobin? && i < |rs|
    requires Pinned(cfg, keys) == {NodeNo(keys, 0)} && rs[0].before.cursor == 0
    ensures NodeNo(keys, 3) !in rs[i].sent.entries.Keys
  {
    ListingDistinct(keys, 3, 0);
    NeverServed(keys, 2, 0, i, 3, 0, 2, 1, 0, 0);
    RunServes(cfg, keys, 2, rs, i);
  }

  // ---- Dissemination ----

  /** The vector never falls behind what it was when the run began. */
  ghost predicate Grows(rs: seq<Round>) {
    forall i | 0 <= i < |rs| :: AtMost(rs[0].vv, rs[i].vv)
  }

  /** Everything the run sends is heard, in some order, at least once. */
  ghost predicate AllHeard(rs: seq<Round>, heard: seq<Heard>) {
    forall i | 0 <= i < |rs| :: Occurs(rs[i].sent, heard)
  }

  lemma HeardOf(cfg: Settings, rs: seq<Round>, i: nat, x: NodeID, w: VersionVector, heard: seq<Heard>)
    requires i < |rs| && IsBuild(cfg, rs[i]) && x in rs[i].sent.entries && Grows(rs) && AllHeard(rs, heard)
    ensures rs[0].vv.Get(x) <= MergeAll(w, heard).Get(x)
  {
    BuildContract(cfg, rs[i]);
    assert Occurs(rs[i].sent, heard);
    var j :| 0 <= j < |heard| && heard[j].vector == rs[i].sent;
    MergeAllIsMax(w, heard, x);
    MaxHeardBounds(w.Get(x), heard, x, j);
  }

  /** Whoever hears all vectors of one tour, in any order and with repetitions, knows at least what
      the sender knew at the beginning of the tour. */
  lemma Dissemination(cfg: Settings, keys: set<NodeID>, k: nat, rs: seq<Round>, w: VersionVector, heard: seq<Heard>)
    requires Steady(cfg, keys, k, rs) && cfg.strategy.RoundRobin? && 0 < k && rs != []
    requires if Pinned(cfg, keys) == {} then |rs| >= CeilDiv(|keys|, k)
             else |keys| % k != 0 && |rs| >= 2 * CeilDiv(|keys|, k)
    requires Grows(rs) && AllHeard(rs, heard)
    ensures AtMost(rs[0].vv, MergeAll(w, heard))
  {
    SteadySizes(cfg, keys, k, rs);
    forall x ensures rs[0].vv.Get(x) <= MergeAll(w, heard).Get(x) {
      if x in keys {
        var i;
        if Pinned(cfg, keys) == {} {
          i := FreeCoverage(cfg, keys, k, rs, x);
        } else {
          i := PinnedCoverage(cfg, keys, k, rs, x);
        }
        SteadyAt(cfg, keys, k, rs, i);
        HeardOf(cfg, rs, i, x, w, heard);
      }
    }
  }
}
