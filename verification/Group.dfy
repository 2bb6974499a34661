/** The group as a whole: nodes, their data stores and the Sync Interests under way, which may be
    lost, duplicated and reordered. */
module Group {
  import opened Nodes
  import opened VersionVectors
  import opened Selection
  import opened Scoring
  import opened Settings
  import opened Scheduler
  import opened Merging
  import opened Core
  import opened CoreFacts

  /** Data in a store: a packet with a publication, or one segment of it and the number of the last. */
  datatype Item = Whole(nid: NodeID, seqNo: nat) | Segment(nid: NodeID, seqNo: nat, no: nat, last: nat)

  datatype Member = Member(cfg: Settings, node: NodeState, store: set<Item>)

  datatype Group = Group(members: seq<Member>, inFlight: multiset<VersionVector>)

  /** A publication is complete in a store. */
  ghost predicate Stored(store: set<Item>, p: NodeID, seqNo: nat) {
    Whole(p, seqNo) in store || exists last :: AllSegments(store, p, seqNo, last)
  }

  ghost predicate AllSegments(store: set<Item>, p: NodeID, seqNo: nat, last: nat) {
    forall no: nat | no <= last :: Segment(p, seqNo, no, last) in store
  }

  datatype Action =
    | Insert(i: nat, item: Item)
    | Announce(i: nat, nid: NodeID, clock: Clock, draws: Draws)
    | Deliver(i: nat, vector: VersionVector, face: nat, clock: Clock, draws: Draws)
    | Lose(vector: VersionVector)
    | Duplicate(vector: VersionVector)
    | Start(i: nat, clock: Clock, draws: Draws)
    | Timeout(i: nat, clock: Clock, draws: Draws)

  /** Whose numbers are the truth about a producer: one member owns each name. */
  function Truth(g: Group, owner: NodeID -> nat, p: NodeID): nat {
    if owner(p) < |g.members| then g.members[owner(p)].node.vv.Get(p) else 0
  }

  function NextSeq(m: Member, nid: NodeID): nat {
    m.node.vv.Get(TargetNode(m.cfg, nid)) + 1
  }

  /** A member announces its next number only for a name it owns, and once the data is stored; the
      64-bit counter must not wrap. */
  ghost predicate Enabled(g: Group, owner: NodeID -> nat, a: Action) {
    match a
    case Insert(i, _) => i < |g.members|
    case Announce(i, nid, _, _) =>
      i < |g.members| &&
      var m := g.members[i];
      owner(TargetNode(m.cfg, nid)) == i && NextSeq(m, nid) <= MAX_SEQ &&
      Stored(m.store, TargetNode(m.cfg, nid), NextSeq(m, nid))
    case Deliver(i, vector, _, _, _) => i < |g.members| && vector in g.inFlight
    case Lose(vector) => vector in g.inFlight
    case Duplicate(vector) => vector in g.inFlight
    case Start(i, _, _) => i < |g.members|
    case Timeout(i, _, _) => i < |g.members|
  }

  function WithNode(g: Group, i: nat, s: NodeState): Group
    requires i < |g.members|
  {
    g.(members := g.members[i := g.members[i].(node := s)])
  }

  function Sends(g: Group, sent: Option<VersionVector>): Group {
    if sent.Some? then g.(inFlight := g.inFlight + multiset{sent.value}) else g
  }

  ghost function Apply(g: Group, owner: NodeID -> nat, a: Action): Group
    requires Enabled(g, owner, a)
  {
    match a
    case Insert(i, item) => g.(members := g.members[i := g.members[i].(store := g.members[i].store + {item})])
    case Announce(i, nid, clock, draws) =>
      WithNode(g, i, Update(g.members[i].cfg, g.members[i].node, NextSeq(g.members[i], nid), nid, clock, draws))
    case Deliver(i, vector, face, clock, draws) =>
      WithNode(g, i, Hear(g.members[i].cfg, g.members[i].node, vector, face, clock, draws).state)
        .(inFlight := g.inFlight - multiset{vector})
    case Lose(vector) => g.(inFlight := g.inFlight - multiset{vector})
    case Duplicate(vector) => g.(inFlight := g.inFlight + multiset{vector})
    case Start(i, clock, draws) =>
      var r := Fire(g.members[i].cfg, g.members[i].node.(initialized := true), clock, draws);
      Sends(WithNode(g, i, r.state), r.sent)
    case Timeout(i, clock, draws) =>
      var r := Fire(g.members[i].cfg, g.members[i].node, clock, draws);
      Sends(WithNode(g, i, r.state), r.sent)
  }

  // ---- The invariant ----

  /** Nothing the vector advertises is unknown to its producer. */
  ghost predicate Truthful(g: Group, owner: NodeID -> nat, v: VersionVector) {
    forall p :: v.Get(p) <= Truth(g, owner, p)
  }

  ghost predicate MembersTruthful(g: Group, owner: NodeID -> nat) {
    forall i | 0 <= i < |g.members| :: RecordedBehind(g.members[i].node) && Truthful(g, owner, g.members[i].node.vv)
  }

  ghost predicate FlightTruthful(g: Group, owner: NodeID -> nat) {
    forall v | v in g.inFlight :: Truthful(g, owner, v)
  }

  ghost predicate EverythingStored(g: Group, owner: NodeID -> nat) {
    forall p, seqNo | 1 <= seqNo <= Truth(g, owner, p) :: Stored(g.members[owner(p)].store, p, seqNo)
  }

  ghost predicate Sound(g: Group, owner: NodeID -> nat) {
    MembersTruthful(g, owner) && FlightTruthful(g, owner) && EverythingStored(g, owner)
  }

  /** A new group: nobody knows anything, nothing is under way. */
  ghost predicate IsNew(g: Group) {
    && g.inFlight == multiset{}
    && forall i | 0 <= i < |g.members| :: exists nextSync ::
         g.members[i].node == InitialState(g.members[i].cfg, nextSync)
  }

  lemma NewIsSound(g: Group, owner: NodeID -> nat)
    requires IsNew(g)
    ensures Sound(g, owner)
  {
    forall i | 0 <= i < |g.members| ensures g.members[i].node.vv == EMPTY && g.members[i].node.recorded == None {
      var nextSync :| g.members[i].node == InitialState(g.members[i].cfg, nextSync);
    }
  }

  /** A vector that is truthful stays so while numbers only grow. */
  lemma TruthfulStays(g: Group, g': Group, owner: NodeID -> nat, v: VersionVector)
    requires Truthful(g, owner, v) && forall p :: Truth(g, owner, p) <= Truth(g', owner, p)
    ensures Truthful(g', owner, v)
  {
    forall p ensures v.Get(p) <= Truth(g', owner, p) {
      assert v.Get(p) <= Truth(g, owner, p) <= Truth(g', owner, p);
    }
  }

  // ---- One member's step ----

  /** A step of one node that keeps the group sound: its numbers grow, for other producers not
      beyond the truth, for its own ones only over stored data. */
  ghost predicate Honest(g: Group, owner: NodeID -> nat, i: nat, s': NodeState)
    requires i < |g.members|
  {
    && RecordedBehind(s')
    && (forall p :: g.members[i].node.vv.Get(p) <= s'.vv.Get(p))
    && (forall p | owner(p) != i :: s'.vv.Get(p) <= Truth(g, owner, p))
    && (forall p, seqNo | owner(p) == i && g.members[i].node.vv.Get(p) < seqNo <= s'.vv.Get(p) ::
        Stored(g.members[i].store, p, seqNo))
  }

  lemma TruthAfter(g: Group, owner: NodeID -> nat, i: nat, s': NodeState, p: NodeID)
    requires i < |g.members| && Honest(g, owner, i, s')
    ensures Truth(WithNode(g, i, s'), owner, p) == if owner(p) == i then s'.vv.Get(p) else Truth(g, owner, p)
    ensures Truth(g, owner, p) <= Truth(WithNode(g, i, s'), owner, p)
  {
  }

  lemma MembersStay(g: Group, owner: NodeID -> nat, i: nat, s': NodeState, j: nat)
    requires i < |g.members| && j < |g.members| && MembersTruthful(g, owner) && Honest(g, owner, i, s')
    ensures var g' := WithNode(g, i, s');
            RecordedBehind(g'.members[j].node) && Truthful(g', owner, g'.members[j].node.vv)
  {
    var g' := WithNode(g, i, s');
    forall p ensures g'.members[j].node.vv.Get(p) <= Truth(g', owner, p) {
      TruthAfter(g, owner, i, s', p);
      assert g.members[j].node.vv.Get(p) <= Truth(g, owner, p);
    }
  }

  lemma StoresStay(g: Group, owner: NodeID -> nat, i: nat, s': NodeState, p: NodeID, seqNo: nat)
    requires i < |g.members| && EverythingStored(g, owner) && Honest(g, owner, i, s')
    requires 1 <= seqNo <= Truth(WithNode(g, i, s'), owner, p)
    ensures Stored(WithNode(g, i, s').members[owner(p)].store, p, seqNo)
  {
    TruthAfter(g, owner, i, s', p);
  }

  lemma HonestKeepsSound(g: Group, owner: NodeID -> nat, i: nat, s': NodeState)
    requires i < |g.members| && Sound(g, owner) && Honest(g, owner, i, s')
    ensures Sound(WithNode(g, i, s'), owner)
  {
    var g' := WithNode(g, i, s');
    forall j | 0 <= j < |g'.members|
      ensures RecordedBehind(g'.members[j].node) && Truthful(g', owner, g'.members[j].node.vv)
    {
      MembersStay(g, owner, i, s', j);
    }
    forall v | v in g'.inFlight ensures Truthful(g', owner, v) {
      forall p ensures Truth(g, owner, p) <= Truth(g', owner, p) { TruthAfter(g, owner, i, s', p); }
      TruthfulStays(g, g', owner, v);
    }
    forall p, seqNo | 1 <= seqNo <= Truth(g', owner, p) ensures Stored(g'.members[owner(p)].store, p, seqNo) {
      StoresStay(g, owner, i, s', p, seqNo);
    }
  }

  // ---- The kinds of step ----

  lemma HearingIsHonest(g: Group, owner: NodeID -> nat, i: nat, other: VersionVector, face: nat, clock: Clock,
                        draws: Draws)
    requires i < |g.members| && Sound(g, owner) && Truthful(g, owner, other)
    ensures Honest(g, owner, i, Hear(g.members[i].cfg, g.members[i].node, other, face, clock, draws).state)
  {
    var cfg, s := g.members[i].cfg, g.members[i].node;
    HearKeepsBehind(cfg, s, other, face, clock, draws);
    HearVector(cfg, s, other, face, clock, draws);
    var merged := Merged(s.vv, other, clock.wall);
    forall p ensures s.vv.Get(p) <= merged.Get(p) <= Truth(g, owner, p) {
      MergedGet(s.vv, other, clock.wall, p);
      assert s.vv.Get(p) <= Truth(g, owner, p) && other.Get(p) <= Truth(g, owner, p);
    }
  }

  lemma AnnouncingIsHonest(g: Group, owner: NodeID -> nat, i: nat, nid: NodeID, clock: Clock, draws: Draws)
    requires Sound(g, owner) && Enabled(g, owner, Announce(i, nid, clock, draws))
    ensures Honest(g, owner, i,
                   Update(g.members[i].cfg, g.members[i].node, NextSeq(g.members[i], nid), nid, clock, draws))
  {
    var cfg, s := g.members[i].cfg, g.members[i].node;
    UpdateKeepsBehind(cfg, s, NextSeq(g.members[i], nid), nid, clock, draws);
    UpdateVector(cfg, s, NextSeq(g.members[i], nid), nid, clock, draws);
    assert Truthful(g, owner, s.vv);
  }

  lemma FiringIsHonest(g: Group, owner: NodeID -> nat, i: nat, s: NodeState, clock: Clock, draws: Draws)
    requires i < |g.members| && Sound(g, owner)
    requires s.vv == g.members[i].node.vv && s.recorded == g.members[i].node.recorded
    ensures Honest(g, owner, i, Fire(g.members[i].cfg, s, clock, draws).state)
  {
    FireVector(g.members[i].cfg, s, clock, draws);
    assert Truthful(g, owner, g.members[i].node.vv);
  }

  lemma SubsetIsKnown(vv: VersionVector, req: Request, tune: Tuning, env: Outside)
    ensures AtMost(Subset(vv, req, tune, env), vv)
  {
  }

  lemma BuildIsKnown(cfg: Settings, load: Load, vv: VersionVector, sched: Sched, chance: Chance)
    ensures AtMost(Build(cfg, load, vv, sched, chance).0, vv)
  {
    var limit := Limit(cfg, load, |vv.entries|);
    if !SendsAll(cfg, vv, limit) {
      var strategy := Effective(cfg, load, |vv.entries|, limit, sched.burst).0;
      var selector := if cfg.strategy.Random? then chance.roll else sched.cursor;
      SubsetIsKnown(vv, RequestOf(cfg, load, sched, limit, strategy, selector),
                    TuningOf(cfg, load, strategy, Known(sched.missed, vv)), chance.outside);
    }
  }

  /** What is sent is known: a partial vector carries only entries of the vector it is cut from. */
  lemma SentIsKnown(cfg: Settings, s: NodeState, clock: Clock, draws: Draws)
    requires RecordedBehind(s)
    ensures var r := Fire(cfg, s, clock, draws); r.sent.Some? ==> AtMost(r.sent.value, s.vv)
  {
    if s.recorded.Some? { HiddenMergeIdle(s, clock.wall); }
    BuildIsKnown(cfg, s.Load(), s.vv, s.sched, draws.chance);
  }

  lemma SendingIsTruthful(g: Group, owner: NodeID -> nat, i: nat, sent: VersionVector)
    requires i < |g.members| && Sound(g, owner) && AtMost(sent, g.members[i].node.vv)
    ensures Sound(Sends(g, Some(sent)), owner)
  {
    var g' := Sends(g, Some(sent));
    forall p ensures sent.Get(p) <= Truth(g, owner, p) {
      assert sent.Get(p) <= g.members[i].node.vv.Get(p) <= Truth(g, owner, p);
    }
    forall v | v in g'.inFlight ensures Truthful(g', owner, v) {
      assert v == sent || v in g.inFlight;
      TruthfulStays(g, g', owner, if v == sent then sent else v);
    }
  }

  lemma FireKeepsSound(g: Group, owner: NodeID -> nat, i: nat, s: NodeState, clock: Clock, draws: Draws)
    requires i < |g.members| && Sound(g, owner)
    requires s.vv == g.members[i].node.vv && s.recorded == g.members[i].node.recorded
    ensures var r := Fire(g.members[i].cfg, s, clock, draws); Sound(Sends(WithNode(g, i, r.state), r.sent), owner)
  {
    var r := Fire(g.members[i].cfg, s, clock, draws);
    FiringIsHonest(g, owner, i, s, clock, draws);
    HonestKeepsSound(g, owner, i, r.state);
    FireVector(g.members[i].cfg, s, clock, draws);
    SentIsKnown(g.members[i].cfg, s, clock, draws);
    if r.sent.Some? { SendingIsTruthful(WithNode(g, i, r.state), owner, i, r.sent.value); }
  }

  lemma LossKeepsSound(g: Group, owner: NodeID -> nat, v: VersionVector)
    requires Sound(g, owner) && v in g.inFlight
    ensures Sound(g.(inFlight := g.inFlight - multiset{v}), owner)
    ensures Sound(g.(inFlight := g.inFlight + multiset{v}), owner)
  {
    var fewer, more := g.(inFlight := g.inFlight - multiset{v}), g.(inFlight := g.inFlight + multiset{v});
    forall w | w in fewer.inFlight ensures Truthful(fewer, owner, w) { TruthfulStays(g, fewer, owner, w); }
    forall w | w in more.inFlight ensures Truthful(more, owner, w) {
      assert w in g.inFlight;
      TruthfulStays(g, more, owner, w);
    }
  }

  lemma StoringKeepsSound(g: Group, owner: NodeID -> nat, i: nat, item: Item)
    requires Sound(g, owner) && i < |g.members|
    ensures Sound(g.(members := g.members[i := g.members[i].(store := g.members[i].store + {item})]), owner)
  {
    var g' := g.(members := g.members[i := g.members[i].(store := g.members[i].store + {item})]);
    forall j | 0 <= j < |g'.members|
      ensures RecordedBehind(g'.members[j].node) && Truthful(g', owner, g'.members[j].node.vv)
    {
      TruthfulStays(g, g', owner, g.members[j].node.vv);
    }
    forall v | v in g'.inFlight ensures Truthful(g', owner, v) { TruthfulStays(g, g', owner, v); }
    forall p, seqNo | 1 <= seqNo <= Truth(g', owner, p) ensures Stored(g'.members[owner(p)].store, p, seqNo) {
      assert Stored(g.members[owner(p)].store, p, seqNo);
      MoreIsStored(g.members[owner(p)].store, g'.members[owner(p)].store, p, seqNo);
    }
  }

  lemma MoreIsStored(store: set<Item>, store': set<Item>, p: NodeID, seqNo: nat)
    requires store <= store' && Stored(store, p, seqNo)
    ensures Stored(store', p, seqNo)
  {
    if Whole(p, seqNo) !in store {
      var last :| AllSegments(store, p, seqNo, last);
      assert AllSegments(store', p, seqNo, last);
    }
  }

  lemma DeliveryKeepsSound(g: Group, owner: NodeID -> nat, i: nat, v: VersionVector, face: nat, clock: Clock,
                           draws: Draws)
    requires Sound(g, owner) && i < |g.members| && v in g.inFlight
    ensures var s' := Hear(g.members[i].cfg, g.members[i].node, v, face, clock, draws).state;
            Sound(WithNode(g, i, s').(inFlight := g.inFlight - multiset{v}), owner)
  {
    var s' := Hear(g.members[i].cfg, g.members[i].node, v, face, clock, draws).state;
    HearingIsHonest(g, owner, i, v, face, clock, draws);
    HonestKeepsSound(g, owner, i, s');
    LossKeepsSound(WithNode(g, i, s'), owner, v);
  }

  /** Every step keeps the group sound. */
  lemma StepKeepsSound(g: Group, owner: NodeID -> nat, a: Action)
    requires Sound(g, owner) && Enabled(g, owner, a)
    ensures Sound(Apply(g, owner, a), owner)
  {
    match a {
      case Insert(i, item) => StoringKeepsSound(g, owner, i, item);
      case Announce(i, nid, clock, draws) =>
        AnnouncingIsHonest(g, owner, i, nid, clock, draws);
        HonestKeepsSound(g, owner, i,
                         Update(g.members[i].cfg, g.members[i].node, NextSeq(g.members[i], nid), nid, clock, draws));
      case Deliver(i, v, face, clock, draws) => DeliveryKeepsSound(g, owner, i, v, face, clock, draws);
      case Lose(v) => LossKeepsSound(g, owner, v);
      case Duplicate(v) => LossKeepsSound(g, owner, v);
      case Start(i, clock, draws) => FireKeepsSound(g, owner, i, g.members[i].node.(initialized := true), clock, draws);
      case Timeout(i, clock, draws) => FireKeepsSound(g, owner, i, g.members[i].node, clock, draws);
    }
  }

  /** A history of the group. */
  ghost predicate IsHistory(gs: seq<Group>, owner: NodeID -> nat, actions: seq<Action>) {
    |gs| == |actions| + 1 && IsNew(gs[0]) && forall i: nat :: HistoryAt(gs, owner, actions, i)
  }

  ghost predicate HistoryAt(gs: seq<Group>, owner: NodeID -> nat, actions: seq<Action>, i: nat)
    requires |gs| == |actions| + 1
  {
    i < |actions| ==> Enabled(gs[i], owner, actions[i]) && gs[i + 1] == Apply(gs[i], owner, actions[i])
  }

  lemma HistoryStep(gs: seq<Group>, owner: NodeID -> nat, actions: seq<Action>, i: nat)
    requires IsHistory(gs, owner, actions) && i < |actions| && Sound(gs[i], owner)
    ensures Sound(gs[i + 1], owner)
  {
    assert HistoryAt(gs, owner, actions, i);
    StepKeepsSound(gs[i], owner, actions[i]);
  }

  lemma {:induction false} HistoryIsSound(gs: seq<Group>, owner: NodeID -> nat, actions: seq<Action>, n: nat)
    requires IsHistory(gs, owner, actions) && n < |gs|
    ensures Sound(gs[n], owner)
    decreases n
  {
    if n == 0 {
      NewIsSound(gs[0], owner);
    } else {
      HistoryIsSound(gs, owner, actions, n - 1);
      HistoryStep(gs, owner, actions, n - 1);
    }
  }

  /** A vector some node holds, has recorded, or has under way. */
  ghost predicate Advertised(g: Group, v: VersionVector) {
    || v in g.inFlight
    || (exists i :: 0 <= i < |g.members| && (g.members[i].node.vv == v || g.members[i].node.recorded == Some(v)))
  }

  /** Whatever is advertised anywhere, at any time, was published, and its producer has the data. */
  lemma AdvertisedIsStored(gs: seq<Group>, owner: NodeID -> nat, actions: seq<Action>, n: nat, v: VersionVector,
                           p: NodeID, seqNo: nat)
    requires IsHistory(gs, owner, actions) && n < |gs|
    requires Advertised(gs[n], v) && 1 <= seqNo <= v.Get(p)
    ensures owner(p) < |gs[n].members| && seqNo <= gs[n].members[owner(p)].node.vv.Get(p)
    ensures Stored(gs[n].members[owner(p)].store, p, seqNo)
  {
    var g := gs[n];
    HistoryIsSound(gs, owner, actions, n);
    AdvertisedIsTruthful(g, owner, v);
    assert v.Get(p) <= Truth(g, owner, p);
  }

  lemma AdvertisedIsTruthful(g: Group, owner: NodeID -> nat, v: VersionVector)
    requires Sound(g, owner) && Advertised(g, v)
    ensures Truthful(g, owner, v)
  {
    if v !in g.inFlight {
      var i :| 0 <= i < |g.members| && (g.members[i].node.vv == v || g.members[i].node.recorded == Some(v));
      forall p ensures v.Get(p) <= Truth(g, owner, p) {
        assert RecordedBehind(g.members[i].node) && Truthful(g, owner, g.members[i].node.vv);
        assert v.Get(p) <= g.members[i].node.vv.Get(p);
      }
    }
  }
}
