/** Runs in which turns are taken and yet a node starves. */
module Starvation {
  import opened Collections
  import opened Nodes
  import opened Orders
  import opened VersionVectors
  import opened Selection
  import opened SelectionFacts
  import opened Settings
  import opened Scheduler
  import opened Timing
  import opened Core
  import opened Runs
  import opened NodeRuns
  import opened NodeFairness
  import opened StartedRuns
  import opened CursorFairness
  import opened RoundRobinFairness

  // ---- Builds on the same vector ----

  function RoundWith(cfg: Settings, load: Load, vv: VersionVector, before: Sched, chance: Chance): Round {
    var limit := Limit(cfg, load, |vv.entries|);
    Round(load, vv, before, chance, limit, VectorWithin(cfg, load, vv, before, chance, limit))
  }

  /** The scheduler after i builds. */
  function SchedAfter(cfg: Settings, load: Load, vv: VersionVector, chance: Chance, i: nat): Sched {
    if i == 0 then FRESH
    else After(cfg, RoundWith(cfg, load, vv, SchedAfter(cfg, load, vv, chance, i - 1), chance))
  }

  function RoundsWith(cfg: Settings, load: Load, vv: VersionVector, chance: Chance, scheds: nat -> Sched,
                      n: nat): seq<Round>
  {
    seq(n, i requires 0 <= i < n => RoundWith(cfg, load, vv, scheds(i), chance))
  }

  lemma RoundWithPerforms(cfg: Settings, load: Load, vv: VersionVector, before: Sched, chance: Chance)
    requires ValidOutside(vv, chance.outside)
    ensures var r := RoundWith(cfg, load, vv, before, chance); Performs(cfg, r, After(cfg, r))
  {
  }

  lemma RoundWithPlaced(cfg: Settings, load: Load, vv: VersionVector, chance: Chance, scheds: nat -> Sched, n: nat,
                        i: nat)
    requires i < n
    ensures Placed(RoundsWith(cfg, load, vv, chance, scheds, n), i, RoundWith(cfg, load, vv, scheds(i), chance),
                   scheds(i + 1))
  {
  }

  lemma RoundWithBuilds(cfg: Settings, load: Load, vv: VersionVector, chance: Chance, scheds: nat -> Sched, n: nat,
                        i: nat)
    requires i < n && ValidOutside(vv, chance.outside)
    requires scheds(i + 1) == After(cfg, RoundWith(cfg, load, vv, scheds(i), chance))
    ensures BuildAt(cfg, RoundsWith(cfg, load, vv, chance, scheds, n), i)
  {
    var r := RoundWith(cfg, load, vv, scheds(i), chance);
    RoundWithPerforms(cfg, load, vv, scheds(i), chance);
    RoundWithPlaced(cfg, load, vv, chance, scheds, n, i);
    PlacedBuilds(cfg, RoundsWith(cfg, load, vv, chance, scheds, n), i, r, scheds(i + 1));
  }

  /** The builds a node makes from a fresh start while its vector and its load stay the same. */
  function FreshRounds(cfg: Settings, load: Load, vv: VersionVector, chance: Chance, n: nat): seq<Round> {
    RoundsWith(cfg, load, vv, chance, (i: nat) => SchedAfter(cfg, load, vv, chance, i), n)
  }

  lemma FreshBuilds(cfg: Settings, load: Load, vv: VersionVector, chance: Chance, n: nat, i: nat)
    requires i < n && ValidOutside(vv, chance.outside)
    ensures BuildAt(cfg, FreshRounds(cfg, load, vv, chance, n), i)
  {
    RoundWithBuilds(cfg, load, vv, chance, (i: nat) => SchedAfter(cfg, load, vv, chance, i), n, i);
  }

  lemma RoundsWithAt(cfg: Settings, load: Load, vv: VersionVector, chance: Chance, scheds: nat -> Sched, n: nat, i: nat)
    requires i < n
    ensures RoundsWith(cfg, load, vv, chance, scheds, n)[i] == RoundWith(cfg, load, vv, scheds(i), chance)
  {
  }

  lemma FreshRoundAt(cfg: Settings, load: Load, vv: VersionVector, chance: Chance, n: nat, i: nat)
    requires i < n
    ensures var r := FreshRounds(cfg, load, vv, chance, n)[i];
            r.vv == vv && r.limit == Limit(cfg, load, |vv.entries|) && r.before == SchedAfter(cfg, load, vv, chance, i)
  {
    RoundsWithAt(cfg, load, vv, chance, (j: nat) => SchedAfter(cfg, load, vv, chance, j), n, i);
  }

  lemma FreshChooses(cfg: Settings, load: Load, vv: VersionVector, chance: Chance, keys: set<NodeID>, k: nat, n: nat,
                     i: nat)
    requires vv.entries.Keys == keys && !cfg.strategy.Full? && 1 <= k < |keys| && k == Limit(cfg, load, |vv.entries|)
    ensures ChoosesAt(cfg, keys, k, FreshRounds(cfg, load, vv, chance, n), i)
  {
    if i < n { FreshRoundAt(cfg, load, vv, chance, n, i); }
  }

  lemma NoSchedYet(cfg: Settings, load: Load, vv: VersionVector, chance: Chance)
    ensures SchedAfter(cfg, load, vv, chance, 0) == FRESH
  {
  }

  /** For every vector that does not fit there is a steady run of any length, from a fresh start. */
  lemma FreshRunIsSteady(cfg: Settings, load: Load, vv: VersionVector, chance: Chance, keys: set<NodeID>, k: nat,
                         n: nat)
    requires ValidOutside(vv, chance.outside) && vv.entries.Keys == keys && !cfg.strategy.Full?
    requires 1 <= k < |keys| && k == Limit(cfg, load, |vv.entries|)
    ensures Steady(cfg, keys, k, FreshRounds(cfg, load, vv, chance, n))
    ensures n > 0 ==> FreshRounds(cfg, load, vv, chance, n)[0].before == FRESH
  {
    var rs := FreshRounds(cfg, load, vv, chance, n);
    forall i: nat ensures BuildAt(cfg, rs, i) { if i < n { FreshBuilds(cfg, load, vv, chance, n, i); } }
    forall i: nat ensures ChoosesAt(cfg, keys, k, rs, i) { FreshChooses(cfg, load, vv, chance, keys, k, n, i); }
    if n > 0 {
      NoSchedYet(cfg, load, vv, chance);
      FreshRoundAt(cfg, load, vv, chance, n, 0);
    }
  }

  // ---- Numbered nodes ----

  function NodesFrom(a: nat, b: nat): set<NodeID> {
    set i: nat | a <= i <= b :: NodeID(i)
  }

  function NodeList(n: nat): seq<NodeID> {
    seq(n, i requires 0 <= i < n => NodeID(i + 1))
  }

  /** A vector with the first number of each of these nodes. */
  function FirstOf(nodes: set<NodeID>): VersionVector {
    VersionVector(map x | x in nodes :: 1, map[])
  }

  lemma {:induction false} NodesCount(n: nat)
    ensures |NodesFrom(1, n)| == n
  {
    if n == 0 {
      assert NodesFrom(1, 0) == {};
    } else {
      NodesCount(n - 1);
      assert NodesFrom(1, n) == NodesFrom(1, n - 1) + {NodeID(n)};
    }
  }

  lemma NodesListed(n: nat)
    ensures forall x :: x in NodeList(n) <==> x in NodesFrom(1, n)
  {
    forall x ensures x in NodeList(n) <==> x in NodesFrom(1, n) {
      if x in NodesFrom(1, n) { assert NodeList(n)[x.number - 1] == x; }
    }
  }

  lemma NodesInOrder(n: nat)
    ensures Listing(BY_NAME, NodesFrom(1, n)) == NodeList(n) && |NodesFrom(1, n)| == n
  {
    NodesListed(n);
    NodesCount(n);
    ListingUnique(BY_NAME, NodesFrom(1, n), NodeList(n));
  }

  function DrawsOf(n: nat): Draws {
    Draws(Chance(0, Outside(NodeList(n), _ => ClusterKey(""))), 1, 1)
  }

  lemma NodesParts(m: nat, n: nat)
    requires 1 <= m <= n
    ensures NodesFrom(1, n) == {NodeID(1)} + NodesFrom(m + 1, n) + NodesFrom(2, m)
  {
    forall x ensures x in NodesFrom(1, n) <==> x == NodeID(1) || x in NodesFrom(m + 1, n) || x in NodesFrom(2, m) {
      assert x == NodeID(x.number);
    }
  }

  lemma FirstOfIs(nodes: set<NodeID>)
    ensures FirstOf(nodes).entries.Keys == nodes && AllPositive(FirstOf(nodes))
  {
  }

  lemma ListElements(n: nat)
    ensures Elements(NodeList(n)) == NodesFrom(1, n)
  {
    NodesListed(n);
  }

  /** Node 1 publishes, hears of the nodes m + 1 to n, and then of the nodes 2 to m. */
  lemma NumberedFit(cfg: Settings, m: nat, n: nat, k: nat)
    requires cfg.id == NodeID(1) && 1 <= m <= n && 1 <= k < n && k == Limit(cfg, Load(HOTSPOT_SCORE, 0.0), n)
    ensures Fits(cfg, FirstOf(NodesFrom(m + 1, n)), FirstOf(NodesFrom(2, m)), DrawsOf(n), NodesFrom(1, n), k)
  {
    ListElements(n);
    NodesCount(n);
    NodesParts(m, n);
    FirstOfIs(NodesFrom(m + 1, n));
    FirstOfIs(NodesFrom(2, m));
    FitsKeys(cfg, FirstOf(NodesFrom(m + 1, n)), FirstOf(NodesFrom(2, m)), DrawsOf(n), NodesFrom(1, n), k);
  }

  /** A run of node 1 with s Sync Interests. */
  lemma NumberedRun(cfg: Settings, m: nat, n: nat, k: nat, s: nat) returns (tr: Trace)
    requires cfg.id == NodeID(1) && Unhindered(cfg) && s > 0
    requires 1 <= m <= n && 1 <= k < n && k == Limit(cfg, Load(HOTSPOT_SCORE, 0.0), n)
    ensures IsStarted(cfg, FirstOf(NodesFrom(m + 1, n)), FirstOf(NodesFrom(2, m)), DrawsOf(n), s + 3, tr)
    ensures IsRun(cfg, tr) && SteadyNode(cfg, NodesFrom(1, n), k, tr) && |Sendings(tr, |tr.inputs|)| == s
  {
    NumberedFit(cfg, m, n, k);
    tr := StartedRun(cfg, FirstOf(NodesFrom(m + 1, n)), FirstOf(NodesFrom(2, m)), DrawsOf(n), s + 3);
    StartedIsSteady(cfg, FirstOf(NodesFrom(m + 1, n)), FirstOf(NodesFrom(2, m)), DrawsOf(n), s + 3, tr,
                    NodesFrom(1, n), k);
  }

  // ---- Taking turns with the own entry pinned ----

  /** Node 1, which sends half of its entries in turn. */
  const HALF := Settings(
    NodeID(1), RoundRobin, 0.5, 0, 8, 0.75, 2, 0.35, 0.45, 0.20, 0.60, 0.50, 4, 0.20, 4, 0.50, 2, false,
    120.0, 4, 0.0, 0.0, Fixed, true, 30000, 4000, 0, 1)

  lemma LimitIsHalf(cfg: Settings, m: nat)
    requires cfg == HALF || cfg == HYBRID
    requires m <= 4
    ensures Unhindered(cfg) && Limit(cfg, Load(HOTSPOT_SCORE, 0.0), 2 * m) == m
  {
    assert (2 * m) as real * 0.5 == m as real;
  }

  /** Of four entries it sends two at a time, and never the last, however long it goes on. */
  lemma FourthNeverSent(s: nat) returns (tr: Trace)
    requires s > 0
    ensures IsRun(HALF, tr) && SteadyNode(HALF, NodesFrom(1, 4), 2, tr) && |Sendings(tr, |tr.inputs|)| == s
    ensures NodeID(4) in NodesFrom(1, 4) && !Travels(tr, NodeID(4))
  {
    LimitIsHalf(HALF, 2);
    tr := NumberedRun(HALF, 1, 4, 2, s);
    LastNeverTravels(tr);
  }

  lemma LastNeverTravels(tr: Trace)
    requires IsRun(HALF, tr) && SteadyNode(HALF, NodesFrom(1, 4), 2, tr)
    ensures !Travels(tr, NodeID(4))
  {
    var rs := AllRounds(HALF, tr);
    NodeIsSteady(HALF, NodesFrom(1, 4), 2, tr);
    RoundsAreConsecutive(HALF, tr, |tr.inputs|);
    forall i | 0 <= i < |rs| ensures NodeID(4) !in rs[i].sent.entries.Keys { LastNotServed(rs, i); }
    TravelsIffSent(HALF, tr, NodeID(4));
  }

  lemma LastNotServed(rs: seq<Round>, i: nat)
    requires Steady(HALF, NodesFrom(1, 4), 2, rs) && i < |rs| && rs[0].before.cursor == 0
    ensures NodeID(4) !in rs[i].sent.entries.Keys
  {
    NodesInOrder(4);
    LastOfFourStarves(HALF, NodesFrom(1, 4), rs, i);
  }

  // ---- Recent entries with a fairness reserve ----

  /** Node 1 under the default strategy, with its default reserve of two entries. */
  const HYBRID := HALF.(strategy := Hybrid)

  /** It hears of the nodes 3 to 8 and then of node 2. */
  const EIGHT := KnownVector(HYBRID, FirstOf(NodesFrom(3, 8)), FirstOf(NodesFrom(2, 2)))

  lemma EightKeys()
    ensures EIGHT.entries.Keys == NodesFrom(1, 8) && |EIGHT.entries| == 8
  {
    FirstOfIs(NodesFrom(3, 8));
    FirstOfIs(NodesFrom(2, 2));
    KnownKeys(HYBRID, FirstOf(NodesFrom(3, 8)), FirstOf(NodesFrom(2, 2)));
    NodesParts(2, 8);
    NodesCount(8);
  }

  lemma EightStamp(x: NodeID)
    requires x in NodesFrom(1, 8)
    ensures EIGHT.GetLastUpdate(x) == if x == NodeID(2) then 1 else 0
  {
    FirstOfIs(NodesFrom(3, 8));
    FirstOfIs(NodesFrom(2, 2));
    NodesParts(2, 8);
    KnownStamp(HYBRID, FirstOf(NodesFrom(3, 8)), FirstOf(NodesFrom(2, 2)), x);
  }

  lemma SecondIsRecent()
    ensures RecentNodes(EIGHT) != [] && RecentNodes(EIGHT)[0] == NodeID(2)
  {
    var keys, r := NodesFrom(1, 8), RecencyOrder(EIGHT);
    EightKeys();
    EightStamp(NodeID(2));
    assert NodeID(2) in keys;
    forall y | y in keys && y != NodeID(2) ensures r.Before(NodeID(2), y) { EightStamp(y); }
    assert IsFirst(r, keys, NodeID(2));
    FirstIsFirst(r, keys);
    FirstUnique(r, keys, NodeID(2), First(r, keys));
  }

  /** The requests of its builds. */
  predicate HalfOfEight(req: Request, fig: Figures) {
    && req.maxEntries == 4 && req.recentEntries == 0 && req.minFairEntries == 2 && req.preferred == NodeID(1)
    && req.strategy.Hybrid? && fig.hotTarget == 3 && (req.startIndex == 0 || req.startIndex == 4)
  }

  lemma RequestsOfEight(r: Round)
    requires Chooses(HYBRID, NodesFrom(1, 8), 4, r) && (r.before.cursor == 0 || r.before.cursor == 4)
    ensures HalfOfEight(RoundRequest(HYBRID, 4, r), RoundFigures(HYBRID, 4, r))
  {
    assert 4.0 * 0.75 == 3.0;
  }

  /** Eight numbered entries, the second of them the most recent. */
  ghost predicate SecondLeads(vv: VersionVector) {
    && vv.entries.Keys == NodesFrom(1, 8) && |vv.entries| == 8
    && RecentNodes(vv) != [] && RecentNodes(vv)[0] == NodeID(2)
  }

  lemma EightLed()
    ensures SecondLeads(EIGHT)
  {
    EightKeys();
    SecondIsRecent();
  }

  lemma FirstBudgetIsOne(vv: VersionVector, req: Request, fig: Figures)
    requires HalfOfEight(req, fig) && vv.entries.Keys == NodesFrom(1, 8)
    ensures Preselected(vv, req) == {NodeID(1)} && FirstBudget(req, fig.hotTarget, 1) == 1 && Reserve(req) == 2
  {
    assert NodeID(1) in NodesFrom(1, 8);
  }

  lemma OnlyThese(sel: set<NodeID>, these: set<NodeID>)
    requires these <= sel && |sel| <= |these|
    ensures sel == these
  {
    PartSize(sel, these);
    assert sel == these + (sel - these);
  }

  lemma SecondAdded(vv: VersionVector, req: Request)
    requires SecondLeads(vv) && req.maxEntries == 4
    ensures NodeID(2) in AddRecent(vv, req, {NodeID(1)}, 1)
  {
    ListingFacts(RecencyOrder(vv), vv.entries.Keys);
    FillExact(vv.entries.Keys, RecentNodes(vv), 0, {NodeID(1)}, Room(4, {NodeID(1)}, 1), 0);
  }

  /** The first pass takes the own entry and the most recent one. */
  lemma FirstTwo(vv: VersionVector, req: Request, fig: Figures, env: Outside)
    requires SecondLeads(vv) && HalfOfEight(req, fig)
    ensures AddRanked(vv, req, fig, env, {NodeID(1)}, 1) == {NodeID(1), NodeID(2)}
  {
    assert NodeID(1) in NodesFrom(1, 8);
    SecondAdded(vv, req);
    RecentPass(vv, req, {NodeID(1)}, 1);
    OnlyThese(AddRecent(vv, req, {NodeID(1)}, 1), {NodeID(1), NodeID(2)});
  }

  lemma RoundRobinFills(vv: VersionVector, req: Request)
    requires OrderedNodes(vv) == NodeList(8) && req.maxEntries == 4
    ensures AddRoundRobin(vv, req, {NodeID(1), NodeID(2)}, 2) ==
            Fill(vv.entries.Keys, Rotated(NodeList(8), req.startIndex), {NodeID(1), NodeID(2)}, 2)
  {
  }

  lemma HasFresh(known: set<NodeID>, order: seq<NodeID>, sel: set<NodeID>, j: nat)
    requires Covers(order, known, {}) && j < |order| && FreshCount(order, 0, j, sel) < 2
    ensures order[j] in Fill(known, order, sel, 2)
  {
    FillExact(known, order, 0, sel, 2, j);
  }

  lemma RoundRobinHas(vv: VersionVector, req: Request, j: nat)
    requires SecondLeads(vv) && req.maxEntries == 4 && j < 8
    requires FreshCount(Rotated(NodeList(8), req.startIndex), 0, j, {NodeID(1), NodeID(2)}) < 2
    ensures Rotated(NodeList(8), req.startIndex)[j] in AddRoundRobin(vv, req, {NodeID(1), NodeID(2)}, 2)
  {
    EightCovered(vv, req.startIndex);
    RoundRobinFills(vv, req);
    HasFresh(vv.entries.Keys, Rotated(NodeList(8), req.startIndex), {NodeID(1), NodeID(2)}, j);
  }

  /** The reserve takes the next two, which under either cursor are not the seventh or the eighth. */
  lemma NextTwo(vv: VersionVector, req: Request, d: nat)
    requires SecondLeads(vv) && req.maxEntries == 4
    requires (req.startIndex == 0 && d == 2) || (req.startIndex == 4 && d == 0)
    ensures var sel2 := AddRoundRobin(vv, req, {NodeID(1), NodeID(2)}, 2);
            NodeID(req.startIndex + d + 1) in sel2 && NodeID(req.startIndex + d + 2) in sel2
  {
    RotatedHere(req.startIndex, d);
    FreshOnes(Rotated(NodeList(8), req.startIndex), d);
    RoundRobinHas(vv, req, d);
    RoundRobinHas(vv, req, d + 1);
  }

  lemma EightCovered(vv: VersionVector, cursor: nat)
    requires SecondLeads(vv)
    ensures Covers(Rotated(NodeList(8), cursor), vv.entries.Keys, {}) && OrderedNodes(vv) == NodeList(8)
  {
    NodesInOrder(8);
    ListingCovers(BY_NAME, vv.entries.Keys, vv.entries.Keys, {});
    RotatedCovers(NodeList(8), cursor, vv.entries.Keys, {});
  }

  lemma RotatedHere(cursor: nat, d: nat)
    requires (cursor == 0 && d == 2) || (cursor == 4 && d == 0)
    ensures var order := Rotated(NodeList(8), cursor);
            && |order| == 8 && order[d] == NodeID(cursor + d + 1) && order[d + 1] == NodeID(cursor + d + 2)
            && (d == 2 ==> order[0] == NodeID(1) && order[1] == NodeID(2))
  {
  }

  lemma FreshOnes(order: seq<NodeID>, d: nat)
    requires |order| == 8 && (d == 0 || (d == 2 && order[0] == NodeID(1) && order[1] == NodeID(2)))
    ensures FreshCount(order, 0, d, {NodeID(1), NodeID(2)}) == 0
    ensures FreshCount(order, 0, d + 1, {NodeID(1), NodeID(2)}) <= 1
  {
    if d == 2 {
      assert FreshCount(order, 2, 2, {NodeID(1), NodeID(2)}) == 0;
      assert FreshCount(order, 1, 2, {NodeID(1), NodeID(2)}) == 0;
      FreshAtMost(order, 2, 3, {NodeID(1), NodeID(2)});
      assert FreshCount(order, 1, 3, {NodeID(1), NodeID(2)}) <= 1;
    } else {
      FreshAtMost(order, 0, 1, {NodeID(1), NodeID(2)});
    }
  }

  lemma NoneElse(sel: set<NodeID>, a: nat, x: nat)
    requires NodeID(1) in sel && NodeID(2) in sel && NodeID(a) in sel && NodeID(a + 1) in sel && |sel| == 4
    requires 2 < a && x > a + 1
    ensures NodeID(x) !in sel
  {
    OnlyThese(sel, {NodeID(1), NodeID(2), NodeID(a), NodeID(a + 1)});
  }

  lemma NotTheLast(vv: VersionVector, req: Request, fig: Figures, env: Outside, x: nat)
    requires SecondLeads(vv) && HalfOfEight(req, fig) && x >= 7
    ensures NodeID(x) !in SelectKeys(vv, req, fig, env)
  {
    FirstBudgetIsOne(vv, req, fig);
    FirstTwo(vv, req, fig, env);
    var d := if req.startIndex == 0 then 2 else 0;
    NextTwo(vv, req, d);
    assert NodeID(1) in NodesFrom(1, 8);
    ReservedPasses(vv, req, fig, env, {NodeID(1)}, 1);
    NoneElse(SelectReserved(vv, req, fig, env, {NodeID(1)}, 1), req.startIndex + d + 1, x);
  }

  lemma LastNotSelected(r: Round, x: nat)
    requires Chooses(HYBRID, NodesFrom(1, 8), 4, r) && IsBuild(HYBRID, r) && SecondLeads(r.vv) && x >= 7
    requires r.before.cursor == 0 || r.before.cursor == 4
    ensures NodeID(x) !in r.sent.entries.Keys
  {
    BuildChooses(HYBRID, NodesFrom(1, 8), 4, r);
    RequestsOfEight(r);
    NotTheLast(r.vv, RoundRequest(HYBRID, 4, r), RoundFigures(HYBRID, 4, r), r.chance.outside, x);
  }

  lemma {:induction false} CursorAlternates(i: nat)
    ensures CursorAt(0, 4, 8, i) == 0 || CursorAt(0, 4, 8, i) == 4
  {
    if i > 0 { CursorAlternates(i - 1); }
  }

  /** Of eight entries it sends four at a time: its own, the most recent, and two in turn; and never the
      last two, however long it goes on. Two places are served from the cursor on, but four and eight have
      the common divisor four. */
  lemma EighthNeverSent(s: nat) returns (tr: Trace)
    requires s > 0
    ensures IsRun(HYBRID, tr) && SteadyNode(HYBRID, NodesFrom(1, 8), 4, tr) && |Sendings(tr, |tr.inputs|)| == s
    ensures !Travels(tr, NodeID(7)) && !Travels(tr, NodeID(8))
    ensures ServesPlaces(HYBRID, 4, 2) && Gcd(4, 8) == 4
  {
    LimitIsHalf(HYBRID, 4);
    tr := NumberedRun(HYBRID, 2, 8, 4, s);
    var rs := AllRounds(HYBRID, tr);
    forall i | 0 <= i < |rs|
      ensures NodeID(7) !in rs[i].sent.entries.Keys && NodeID(8) !in rs[i].sent.entries.Keys
    {
      LastNotBuilt(s, tr, i, 7);
      LastNotBuilt(s, tr, i, 8);
    }
    TravelsIffSent(HYBRID, tr, NodeID(7));
    TravelsIffSent(HYBRID, tr, NodeID(8));
  }

  lemma LastNotBuilt(s: nat, tr: Trace, i: nat, x: nat)
    requires IsStarted(HYBRID, FirstOf(NodesFrom(3, 8)), FirstOf(NodesFrom(2, 2)), DrawsOf(8), s + 3, tr)
    requires SteadyNode(HYBRID, NodesFrom(1, 8), 4, tr) && i < |AllRounds(HYBRID, tr)| && x >= 7
    ensures NodeID(x) !in AllRounds(HYBRID, tr)[i].sent.entries.Keys
  {
    var rs := AllRounds(HYBRID, tr);
    LimitIsHalf(HYBRID, 4);
    NodeIsSteady(HYBRID, NodesFrom(1, 8), 4, tr);
    RoundsAreConsecutive(HYBRID, tr, |tr.inputs|);
    RoundIs(HYBRID, tr, |tr.inputs|, i);
    StartedSends(HYBRID, FirstOf(NodesFrom(3, 8)), FirstOf(NodesFrom(2, 2)), DrawsOf(8), s + 3, tr,
                 Sendings(tr, |tr.inputs|)[i]);
    NodesCount(8);
    CursorIs(HYBRID, NodesFrom(1, 8), 4, rs, i);
    CursorAlternates(i);
    SteadyAt(HYBRID, NodesFrom(1, 8), 4, rs, i);
    EightLed();
    LastNotSelected(rs[i], x);
  }
}
