/** What one member does in a history of the group is a run of a node; and what it sends in a tour of
    its entries, once delivered, brings another member up to date. */
module GroupRuns {
  import opened Nodes
  import opened Numbers
  import opened VersionVectors
  import opened Settings
  import opened Scheduler
  import opened Merging
  import opened Core
  import opened CoreFacts
  import opened Runs
  import opened NodeRuns
  import opened NodeFairness
  import opened Group

  // ---- The run of one member ----

  /** What an action of the group is for one of its nodes, if it concerns the node at all. */
  ghost function InputOf(g: Group, owner: NodeID -> nat, a: Action, i: nat): Option<Input>
    requires Enabled(g, owner, a)
  {
    match a
    case Announce(j, nid, clock, draws) =>
      if i == j then Some(Input(Updated(NextSeq(g.members[i], nid), nid), clock, draws)) else None
    case Deliver(j, v, face, clock, draws) => if i == j then Some(Input(Received(v, face), clock, draws)) else None
    case Start(j, clock, draws) => if i == j then Some(Input(Started, clock, draws)) else None
    case Timeout(j, clock, draws) => if i == j then Some(Input(TimedOut, clock, draws)) else None
    case _ => None
  }

  /** The groups have the same members, but for their nodes and stores. */
  ghost predicate SameGroup(g: Group, g': Group, i: nat) {
    |g'.members| == |g.members| && (i < |g.members| ==> g'.members[i].cfg == g.members[i].cfg)
  }

  lemma NodeKeepsMembers(g: Group, j: nat, s: NodeState, sent: Option<VersionVector>, i: nat)
    requires j < |g.members|
    ensures SameGroup(g, Sends(WithNode(g, j, s), sent), i)
  {
  }

  lemma ActionKeepsMembers(g: Group, owner: NodeID -> nat, a: Action, i: nat)
    requires Enabled(g, owner, a)
    ensures SameGroup(g, Apply(g, owner, a), i)
  {
    match a {
      case Announce(j, nid, clock, draws) =>
        var m := g.members[j];
        NodeKeepsMembers(g, j, Update(m.cfg, m.node, NextSeq(m, nid), nid, clock, draws), None, i);
      case Deliver(j, v, face, clock, draws) =>
        NodeKeepsMembers(g, j, Hear(g.members[j].cfg, g.members[j].node, v, face, clock, draws).state, None, i);
      case Start(j, clock, draws) =>
        var r := Fire(g.members[j].cfg, g.members[j].node.(initialized := true), clock, draws);
        NodeKeepsMembers(g, j, r.state, r.sent, i);
      case Timeout(j, clock, draws) =>
        var r := Fire(g.members[j].cfg, g.members[j].node, clock, draws);
        NodeKeepsMembers(g, j, r.state, r.sent, i);
      case _ =>
    }
  }

  /** The node after an action: it has made the step, or is what it was. */
  ghost predicate Steps(m: Member, input: Option<Input>, s': NodeState) {
    match input
    case None => s' == m.node
    case Some(input) => s' == Step(m.cfg, m.node, input).state && Raises(m.cfg, m.node, input)
  }

  lemma StartIsStep(m: Member, clock: Clock, draws: Draws)
    ensures Steps(m, Some(Input(Started, clock, draws)),
                  Fire(m.cfg, m.node.(initialized := true), clock, draws).state)
  {
  }

  lemma TimeoutIsStep(m: Member, clock: Clock, draws: Draws)
    ensures Steps(m, Some(Input(TimedOut, clock, draws)), Fire(m.cfg, m.node, clock, draws).state)
  {
  }

  lemma DeliverIsStep(m: Member, v: VersionVector, face: nat, clock: Clock, draws: Draws)
    ensures Steps(m, Some(Input(Received(v, face), clock, draws)), Hear(m.cfg, m.node, v, face, clock, draws).state)
  {
  }

  lemma AnnounceIsStep(m: Member, nid: NodeID, clock: Clock, draws: Draws)
    requires NextSeq(m, nid) <= MAX_SEQ
    ensures Steps(m, Some(Input(Updated(NextSeq(m, nid), nid), clock, draws)),
                  Update(m.cfg, m.node, NextSeq(m, nid), nid, clock, draws))
  {
  }

  /** A member whose node is replaced, and one that is not. */
  lemma ReplacedNode(g: Group, j: nat, s: NodeState, sent: Option<VersionVector>, i: nat)
    requires j < |g.members| && i < |g.members|
    ensures Sends(WithNode(g, j, s), sent).members[i].node == if i == j then s else g.members[i].node
  {
  }

  /** The node after the action has made the step, or is what it was. */
  ghost predicate Follows(g: Group, owner: NodeID -> nat, a: Action, i: nat)
    requires Enabled(g, owner, a) && i < |g.members|
  {
    var g' := Apply(g, owner, a);
    i < |g'.members| && Steps(g.members[i], InputOf(g, owner, a, i), g'.members[i].node)
  }

  lemma FiringFollows(g: Group, owner: NodeID -> nat, a: Action, i: nat)
    requires Enabled(g, owner, a) && i < |g.members| && (a.Start? || a.Timeout?)
    ensures Follows(g, owner, a, i)
  {
    ActionKeepsMembers(g, owner, a, i);
    var m := g.members[a.i];
    if a.Start? {
      var r := Fire(m.cfg, m.node.(initialized := true), a.clock, a.draws);
      ReplacedNode(g, a.i, r.state, r.sent, i);
      StartIsStep(m, a.clock, a.draws);
    } else {
      var r := Fire(m.cfg, m.node, a.clock, a.draws);
      ReplacedNode(g, a.i, r.state, r.sent, i);
      TimeoutIsStep(m, a.clock, a.draws);
    }
  }

  lemma DeliveryFollows(g: Group, owner: NodeID -> nat, a: Action, i: nat)
    requires Enabled(g, owner, a) && i < |g.members| && a.Deliver?
    ensures Follows(g, owner, a, i)
  {
    ActionKeepsMembers(g, owner, a, i);
    var m := g.members[a.i];
    ReplacedNode(g, a.i, Hear(m.cfg, m.node, a.vector, a.face, a.clock, a.draws).state, None, i);
    DeliverIsStep(m, a.vector, a.face, a.clock, a.draws);
  }

  lemma AnnouncementFollows(g: Group, owner: NodeID -> nat, a: Action, i: nat)
    requires Enabled(g, owner, a) && i < |g.members| && a.Announce?
    ensures Follows(g, owner, a, i)
  {
    ActionKeepsMembers(g, owner, a, i);
    var m := g.members[a.i];
    ReplacedNode(g, a.i, Update(m.cfg, m.node, NextSeq(m, a.nid), a.nid, a.clock, a.draws), None, i);
    AnnounceIsStep(m, a.nid, a.clock, a.draws);
  }

  lemma OthersFollow(g: Group, owner: NodeID -> nat, a: Action, i: nat)
    requires Enabled(g, owner, a) && i < |g.members| && (a.Insert? || a.Lose? || a.Duplicate?)
    ensures Follows(g, owner, a, i)
  {
    ActionKeepsMembers(g, owner, a, i);
  }

  /** An action of the group is a step of the node, or leaves it alone. */
  lemma ActionIsStep(g: Group, owner: NodeID -> nat, a: Action, i: nat)
    requires Enabled(g, owner, a) && i < |g.members|
    ensures Follows(g, owner, a, i)
  {
    match a {
      case Start(_, _, _) => FiringFollows(g, owner, a, i);
      case Timeout(_, _, _) => FiringFollows(g, owner, a, i);
      case Deliver(_, _, _, _, _) => DeliveryFollows(g, owner, a, i);
      case Announce(_, _, _, _) => AnnouncementFollows(g, owner, a, i);
      case _ => OthersFollow(g, owner, a, i);
    }
  }

  lemma {:induction false} SameMembers(gs: seq<Group>, owner: NodeID -> nat, actions: seq<Action>, n: nat, i: nat)
    requires IsHistory(gs, owner, actions) && n < |gs| && i < |gs[0].members|
    ensures |gs[n].members| == |gs[0].members| && gs[n].members[i].cfg == gs[0].members[i].cfg
    decreases n
  {
    if n > 0 {
      SameMembers(gs, owner, actions, n - 1, i);
      assert HistoryAt(gs, owner, actions, n - 1);
      ActionKeepsMembers(gs[n - 1], owner, actions[n - 1], i);
    }
  }

  function Extended(tr: Trace, input: Input, r: Stepped): Trace {
    Trace(tr.states + [r.state], tr.inputs + [input], tr.outputs + [r.output])
  }

  /** The run with the step that the member then makes, if it makes one. */
  ghost function WithStep(m: Member, tr: Trace, input: Option<Input>): (longer: Trace)
    ensures Shaped(tr) ==> Shaped(longer)
  {
    match input
    case None => tr
    case Some(input) => Extended(tr, input, Step(m.cfg, m.node, input))
  }

  /** What the n-th action of a history is for member i. */
  ghost function InputAt(gs: seq<Group>, owner: NodeID -> nat, actions: seq<Action>, n: nat, i: nat): Option<Input>
    requires IsHistory(gs, owner, actions) && n < |actions|
  {
    assert HistoryAt(gs, owner, actions, n);
    InputOf(gs[n], owner, actions[n], i)
  }

  /** The run of member i from the a-th group of a history to the b-th. */
  ghost function MemberRun(gs: seq<Group>, owner: NodeID -> nat, actions: seq<Action>, i: nat, a: nat,
                           b: nat): (tr: Trace)
    requires IsHistory(gs, owner, actions) && a <= b < |gs| && i < |gs[0].members|
    ensures Shaped(tr)
    decreases b
  {
    SameMembers(gs, owner, actions, a, i);
    if a == b then Trace([gs[a].members[i].node], [], [])
    else
      var before := MemberRun(gs, owner, actions, i, a, b - 1);
      SameMembers(gs, owner, actions, b - 1, i);
      WithStep(gs[b - 1].members[i], before, InputAt(gs, owner, actions, b - 1, i))
  }

  lemma RisingMore(cfg: Settings, tr: Trace, input: Input)
    requires Rising(cfg, tr) && Raises(cfg, tr.states[|tr.inputs|], input)
    ensures Rising(cfg, Extended(tr, input, Step(cfg, tr.states[|tr.inputs|], input)))
  {
    var more := Extended(tr, input, Step(cfg, tr.states[|tr.inputs|], input));
    forall n: nat ensures StepAt(cfg, more, n) { assert StepAt(cfg, tr, n); }
    forall n | 0 <= n < |more.inputs| ensures Raises(cfg, more.states[n], more.inputs[n]) {
      assert n < |tr.inputs| ==> Raises(cfg, tr.states[n], tr.inputs[n]);
    }
  }

  /** A run of one node, from what it was in the first group to what it is in the last. */
  ghost predicate Joins(cfg: Settings, tr: Trace, first: NodeState, last: NodeState) {
    Rising(cfg, tr) && tr.states[0] == first && tr.states[|tr.inputs|] == last
  }

  lemma JoinsMore(cfg: Settings, tr: Trace, first: NodeState, last: NodeState, input: Input)
    requires Joins(cfg, tr, first, last) && Raises(cfg, last, input)
    ensures Joins(cfg, Extended(tr, input, Step(cfg, last, input)), first, Step(cfg, last, input).state)
  {
    RisingMore(cfg, tr, input);
  }

  lemma StepJoins(m: Member, tr: Trace, first: NodeState, input: Option<Input>, s': NodeState)
    requires Joins(m.cfg, tr, first, m.node) && Steps(m, input, s')
    ensures Joins(m.cfg, WithStep(m, tr, input), first, s')
  {
    if input.Some? { JoinsMore(m.cfg, tr, first, m.node, input.value); }
  }

  lemma MemberNext(gs: seq<Group>, owner: NodeID -> nat, actions: seq<Action>, i: nat, a: nat, b: nat, first: NodeState)
    requires IsHistory(gs, owner, actions) && a < b < |gs| && i < |gs[0].members| && i < |gs[b - 1].members|
    requires gs[b - 1].members[i].cfg == gs[0].members[i].cfg
    requires Joins(gs[0].members[i].cfg, MemberRun(gs, owner, actions, i, a, b - 1), first, gs[b - 1].members[i].node)
    ensures i < |gs[b].members|
    ensures Joins(gs[0].members[i].cfg, MemberRun(gs, owner, actions, i, a, b), first, gs[b].members[i].node)
  {
    assert HistoryAt(gs, owner, actions, b - 1);
    ActionIsStep(gs[b - 1], owner, actions[b - 1], i);
    StepJoins(gs[b - 1].members[i], MemberRun(gs, owner, actions, i, a, b - 1), first,
              InputOf(gs[b - 1], owner, actions[b - 1], i), gs[b].members[i].node);
  }

  lemma NoStepJoins(cfg: Settings, s: NodeState)
    ensures Joins(cfg, Trace([s], [], []), s, s)
  {
    forall n: nat ensures StepAt(cfg, Trace([s], [], []), n) { }
  }

  /** It is a run of the node, in which no number is lowered. */
  lemma {:induction false} MemberRuns(gs: seq<Group>, owner: NodeID -> nat, actions: seq<Action>, i: nat, a: nat,
                                      b: nat)
    requires IsHistory(gs, owner, actions) && a <= b < |gs| && i < |gs[0].members|
    ensures i < |gs[a].members| && i < |gs[b].members|
    ensures Joins(gs[0].members[i].cfg, MemberRun(gs, owner, actions, i, a, b), gs[a].members[i].node,
                  gs[b].members[i].node)
    decreases b
  {
    SameMembers(gs, owner, actions, a, i);
    if a == b {
      NoStepJoins(gs[0].members[i].cfg, gs[a].members[i].node);
    } else {
      MemberRuns(gs, owner, actions, i, a, b - 1);
      SameMembers(gs, owner, actions, b - 1, i);
      MemberNext(gs, owner, actions, i, a, b, gs[a].members[i].node);
    }
  }

  lemma MemberBehind(gs: seq<Group>, owner: NodeID -> nat, actions: seq<Action>, i: nat, n: nat)
    requires IsHistory(gs, owner, actions) && n < |gs| && i < |gs[0].members|
    ensures i < |gs[n].members| && RecordedBehind(gs[n].members[i].node)
  {
    HistoryIsSound(gs, owner, actions, n);
    SameMembers(gs, owner, actions, n, i);
  }

  /** What a member knows, it never forgets. */
  lemma MemberGrows(gs: seq<Group>, owner: NodeID -> nat, actions: seq<Action>, i: nat, a: nat, b: nat)
    requires IsHistory(gs, owner, actions) && a <= b < |gs| && i < |gs[0].members|
    ensures i < |gs[a].members| && i < |gs[b].members|
    ensures AtMost(gs[a].members[i].node.vv, gs[b].members[i].node.vv)
  {
    MemberRuns(gs, owner, actions, i, a, b);
    MemberBehind(gs, owner, actions, i, a);
    var tr := MemberRun(gs, owner, actions, i, a, b);
    RunExtends(gs[0].members[i].cfg, tr, 0, |tr.inputs|);
  }

  // ---- Dissemination ----

  /** Between the a-th group and the c-th, the vector is delivered to member j. */
  ghost predicate DeliveredTo(actions: seq<Action>, a: nat, c: nat, j: nat, v: VersionVector) {
    exists t :: a <= t < c && t < |actions| && actions[t].Deliver? && actions[t].i == j && actions[t].vector == v
  }

  ghost predicate AllDelivered(actions: seq<Action>, a: nat, c: nat, j: nat, tr: Trace) {
    forall m | 0 <= m < |tr.outputs| && tr.outputs[m].sent.Some? ::
      DeliveredTo(actions, a, c, j, tr.outputs[m].sent.value)
  }

  lemma DeliveredIsKnown(gs: seq<Group>, owner: NodeID -> nat, actions: seq<Action>, a: nat, c: nat, j: nat,
                         v: VersionVector)
    requires IsHistory(gs, owner, actions) && a <= c < |gs| && j < |gs[0].members|
    requires DeliveredTo(actions, a, c, j, v)
    ensures j < |gs[c].members| && AtMost(v, gs[c].members[j].node.vv)
  {
    var t: nat :| a <= t < c && t < |actions| && actions[t].Deliver? && actions[t].i == j && actions[t].vector == v;
    SameMembers(gs, owner, actions, t, j);
    SameMembers(gs, owner, actions, t + 1, j);
    assert HistoryAt(gs, owner, actions, t);
    var d := actions[t];
    HearVector(gs[t].members[j].cfg, gs[t].members[j].node, v, d.face, d.clock, d.draws);
    MergedAtMost(gs[t].members[j].node.vv, gs[t].members[j].node.vv, v, d.clock.wall);
    MemberGrows(gs, owner, actions, j, t + 1, c);
    forall x ensures v.Get(x) <= gs[c].members[j].node.vv.Get(x) {
      assert v.Get(x) <= gs[t + 1].members[j].node.vv.Get(x) <= gs[c].members[j].node.vv.Get(x);
    }
  }

  lemma BuildIsCurrent(cfg: Settings, r: Round, after: Sched, x: NodeID)
    requires Performs(cfg, r, after) && x in r.sent.entries
    ensures r.sent.Get(x) == r.vv.Get(x)
  {
    BuildContract(cfg, r);
  }

  /** An entry that travels at all travels with a number at least as high as at the start. */
  lemma SentIsCurrent(cfg: Settings, tr: Trace, m: nat, x: NodeID)
    requires Orderly(cfg, tr) && m < |tr.inputs| && tr.outputs[m].sent.Some? && x in tr.outputs[m].sent.value.entries
    ensures tr.states[0].vv.Get(x) <= tr.outputs[m].sent.value.Get(x)
  {
    RunKeepsBehind(cfg, tr, m);
    assert StepAt(cfg, tr, m) && ShuffleAt(tr, m);
    StepBuilds(cfg, tr.states[m], tr.inputs[m]);
    BuildIsCurrent(cfg, RoundNo(cfg, tr, m), tr.states[m + 1].sched, x);
    RunExtends(cfg, tr, 0, m);
  }

  /** From the a-th group to the b-th, every entry member i had travels in some Sync Interest of its own,
      and all these are delivered to member j before the c-th group. */
  ghost predicate Informs(gs: seq<Group>, owner: NodeID -> nat, actions: seq<Action>, i: nat, j: nat, a: nat, b: nat,
                          c: nat)
    requires IsHistory(gs, owner, actions) && a <= b < |gs| && i < |gs[0].members|
  {
    SameMembers(gs, owner, actions, a, i);
    var tr := MemberRun(gs, owner, actions, i, a, b);
    && (forall m: nat :: ShuffleAt(tr, m)) && AllDelivered(actions, a, c, j, tr)
    && forall x | x in gs[a].members[i].node.vv.entries :: Travels(tr, x)
  }

  /** Then, whatever else happens in between and in whatever order, member j comes to know at least what
      member i knew. */
  lemma TravelledIsKnown(gs: seq<Group>, owner: NodeID -> nat, actions: seq<Action>, i: nat, j: nat, a: nat, b: nat,
                         c: nat)
    requires IsHistory(gs, owner, actions) && a <= b < |gs| && a <= c < |gs|
    requires i < |gs[0].members| && j < |gs[0].members| && Informs(gs, owner, actions, i, j, a, b, c)
    ensures i < |gs[a].members| && j < |gs[c].members|
    ensures AtMost(gs[a].members[i].node.vv, gs[c].members[j].node.vv)
  {
    var tr := MemberRun(gs, owner, actions, i, a, b);
    MemberRuns(gs, owner, actions, i, a, b);
    MemberBehind(gs, owner, actions, i, a);
    SameMembers(gs, owner, actions, c, j);
    forall x ensures gs[a].members[i].node.vv.Get(x) <= gs[c].members[j].node.vv.Get(x) {
      if x in gs[a].members[i].node.vv.entries {
        assert Travels(tr, x);
        var m: nat :| m < |tr.outputs| && tr.outputs[m].sent.Some? && x in tr.outputs[m].sent.value.entries;
        SentIsCurrent(gs[0].members[i].cfg, tr, m, x);
        DeliveredIsKnown(gs, owner, actions, a, c, j, tr.outputs[m].sent.value);
      }
    }
  }

  // ---- Agreement ----

  ghost predicate NobodyAnnounces(actions: seq<Action>, a: nat, c: nat) {
    forall t | a <= t < c && t < |actions| :: !actions[t].Announce?
  }

  /** A step other than an announcement leaves a producer's own number alone: nobody knows more. */
  lemma TruthKept(g: Group, owner: NodeID -> nat, a: Action, p: NodeID)
    requires Sound(g, owner) && Enabled(g, owner, a) && !a.Announce?
    ensures Truth(Apply(g, owner, a), owner, p) == Truth(g, owner, p)
  {
    var i := owner(p);
    ActionKeepsMembers(g, owner, a, i);
    if i < |g.members| {
      ActionIsStep(g, owner, a, i);
      OwnNumberKept(g, owner, a, p);
    }
  }

  lemma OwnNumberKept(g: Group, owner: NodeID -> nat, a: Action, p: NodeID)
    requires Sound(g, owner) && Enabled(g, owner, a) && !a.Announce? && owner(p) < |g.members|
    requires Follows(g, owner, a, owner(p))
    ensures Apply(g, owner, a).members[owner(p)].node.vv.Get(p) == g.members[owner(p)].node.vv.Get(p)
  {
    var m, input := g.members[owner(p)], InputOf(g, owner, a, owner(p));
    if input.Some? {
      StepVector(m.cfg, m.node, input.value);
      if a.Deliver? {
        MergedGet(m.node.vv, a.vector, a.clock.wall, p);
        assert Truthful(g, owner, a.vector);
      }
    }
  }

  lemma TruthNext(gs: seq<Group>, owner: NodeID -> nat, actions: seq<Action>, n: nat, p: NodeID)
    requires IsHistory(gs, owner, actions) && n < |actions| && !actions[n].Announce?
    ensures Truth(gs[n + 1], owner, p) == Truth(gs[n], owner, p)
  {
    HistoryIsSound(gs, owner, actions, n);
    assert HistoryAt(gs, owner, actions, n);
    TruthKept(gs[n], owner, actions[n], p);
  }

  lemma {:induction false} TruthStands(gs: seq<Group>, owner: NodeID -> nat, actions: seq<Action>, a: nat, c: nat,
                                       p: NodeID)
    requires IsHistory(gs, owner, actions) && a <= c < |gs| && NobodyAnnounces(actions, a, c)
    ensures Truth(gs[c], owner, p) == Truth(gs[a], owner, p)
    decreases c
  {
    if a < c {
      TruthStands(gs, owner, actions, a, c - 1, p);
      TruthNext(gs, owner, actions, c - 1, p);
    }
  }

  /** Every other member informs member j. */
  ghost predicate AllInform(gs: seq<Group>, owner: NodeID -> nat, actions: seq<Action>, j: nat, a: nat, c: nat)
    requires IsHistory(gs, owner, actions) && a <= c < |gs|
  {
    forall i | 0 <= i < |gs[0].members| && i != j :: InformsBy(gs, owner, actions, i, j, a, c)
  }

  ghost predicate InformsBy(gs: seq<Group>, owner: NodeID -> nat, actions: seq<Action>, i: nat, j: nat, a: nat, c: nat)
    requires IsHistory(gs, owner, actions) && a <= c < |gs| && i < |gs[0].members|
  {
    exists b :: a <= b <= c && Informs(gs, owner, actions, i, j, a, b, c)
  }

  lemma OwnersKnown(gs: seq<Group>, owner: NodeID -> nat, actions: seq<Action>, j: nat, a: nat, c: nat, p: NodeID)
    requires IsHistory(gs, owner, actions) && a <= c < |gs| && j < |gs[0].members|
    requires AllInform(gs, owner, actions, j, a, c)
    ensures j < |gs[c].members| && Truth(gs[a], owner, p) <= gs[c].members[j].node.vv.Get(p)
  {
    var i := owner(p);
    SameMembers(gs, owner, actions, c, j);
    SameMembers(gs, owner, actions, a, j);
    if i == j {
      MemberGrows(gs, owner, actions, j, a, c);
    } else if i < |gs[0].members| {
      assert InformsBy(gs, owner, actions, i, j, a, c);
      var b: nat :| a <= b <= c && Informs(gs, owner, actions, i, j, a, b, c);
      TravelledIsKnown(gs, owner, actions, i, j, a, b, c);
    }
  }

  /** If nobody announces anything meanwhile, a member whom all others have informed knows the truth about
      every producer. */
  lemma KnowsTheTruth(gs: seq<Group>, owner: NodeID -> nat, actions: seq<Action>, j: nat, a: nat, c: nat, p: NodeID)
    requires IsHistory(gs, owner, actions) && a <= c < |gs| && j < |gs[0].members|
    requires NobodyAnnounces(actions, a, c) && AllInform(gs, owner, actions, j, a, c)
    ensures j < |gs[c].members| && gs[c].members[j].node.vv.Get(p) == Truth(gs[c], owner, p)
  {
    OwnersKnown(gs, owner, actions, j, a, c, p);
    TruthStands(gs, owner, actions, a, c, p);
    HistoryIsSound(gs, owner, actions, c);
    assert Truthful(gs[c], owner, gs[c].members[j].node.vv);
  }

  /** So all members that were informed agree. */
  lemma Agreement(gs: seq<Group>, owner: NodeID -> nat, actions: seq<Action>, i: nat, j: nat, a: nat, c: nat, p: NodeID)
    requires IsHistory(gs, owner, actions) && a <= c < |gs| && i < |gs[0].members| && j < |gs[0].members|
    requires NobodyAnnounces(actions, a, c)
    requires AllInform(gs, owner, actions, i, a, c) && AllInform(gs, owner, actions, j, a, c)
    ensures i < |gs[c].members| && j < |gs[c].members|
    ensures gs[c].members[i].node.vv.Get(p) == gs[c].members[j].node.vv.Get(p)
  {
    KnowsTheTruth(gs, owner, actions, i, a, c, p);
    KnowsTheTruth(gs, owner, actions, j, a, c, p);
  }

  // ---- Tours ----

  /** As many Sync Interests as RoundRobin needs to send everything, if it ever does. */
  predicate IsTour(cfg: Settings, keys: set<NodeID>, k: nat, sendings: nat)
    requires k > 0
  {
    if Pinned(cfg, keys) == {} then sendings >= CeilDiv(|keys|, k)
    else |keys| % k != 0 && sendings > 0 && sendings >= 2 * CeilDiv(|keys|, k)
  }

  lemma TourTravels(cfg: Settings, keys: set<NodeID>, k: nat, tr: Trace, x: NodeID)
    requires SteadyNode(cfg, keys, k, tr) && cfg.strategy.RoundRobin? && k > 0
    requires IsTour(cfg, keys, k, |Sendings(tr, |tr.inputs|)|) && Sendings(tr, |tr.inputs|) != []
    requires x in tr.states[0].vv.entries
    ensures Travels(tr, x)
  {
    SendingAt(tr, |tr.inputs|, 0);
    var m := Sendings(tr, |tr.inputs|)[0];
    assert ChoosesIn(cfg, keys, k, tr, m);
    RunExtends(cfg, tr, 0, m);
    assert x in tr.states[m].vv.entries.Keys;
    if Pinned(cfg, keys) == {} {
      NodeFreeCoverage(cfg, keys, k, tr);
    } else {
      NodeCoverageExactly(cfg, keys, k, tr);
    }
  }

  /** A member under RoundRobin makes a tour of its entries, which is delivered to member j. */
  ghost predicate Tours(gs: seq<Group>, owner: NodeID -> nat, actions: seq<Action>, i: nat, j: nat, a: nat, b: nat,
                        c: nat, keys: set<NodeID>, k: nat)
    requires IsHistory(gs, owner, actions) && a <= b < |gs| && i < |gs[0].members|
  {
    var cfg, tr := gs[0].members[i].cfg, MemberRun(gs, owner, actions, i, a, b);
    && cfg.strategy.RoundRobin? && k > 0
    && (forall m: nat :: ShuffleAt(tr, m)) && (forall m: nat :: ChoosesIn(cfg, keys, k, tr, m))
    && Sendings(tr, |tr.inputs|) != [] && IsTour(cfg, keys, k, |Sendings(tr, |tr.inputs|)|)
    && AllDelivered(actions, a, c, j, tr)
  }

  lemma TourInforms(gs: seq<Group>, owner: NodeID -> nat, actions: seq<Action>, i: nat, j: nat, a: nat, b: nat, c: nat,
                    keys: set<NodeID>, k: nat)
    requires IsHistory(gs, owner, actions) && a <= b < |gs| && i < |gs[0].members|
    requires Tours(gs, owner, actions, i, j, a, b, c, keys, k)
    ensures Informs(gs, owner, actions, i, j, a, b, c)
  {
    var tr := MemberRun(gs, owner, actions, i, a, b);
    MemberRuns(gs, owner, actions, i, a, b);
    MemberBehind(gs, owner, actions, i, a);
    forall x | x in gs[a].members[i].node.vv.entries ensures Travels(tr, x) {
      TourTravels(gs[0].members[i].cfg, keys, k, tr, x);
    }
  }

  /** In a history that delivers one tour of a RoundRobin member's Sync Interests to another member,
      the other one's vector comes to dominate the one the member had at the start of the tour. */
  lemma TourReaches(gs: seq<Group>, owner: NodeID -> nat, actions: seq<Action>, i: nat, j: nat, a: nat, b: nat, c: nat,
                    keys: set<NodeID>, k: nat)
    requires IsHistory(gs, owner, actions) && a <= b < |gs| && a <= c < |gs|
    requires i < |gs[0].members| && j < |gs[0].members| && Tours(gs, owner, actions, i, j, a, b, c, keys, k)
    ensures i < |gs[a].members| && j < |gs[c].members|
    ensures AtMost(gs[a].members[i].node.vv, gs[c].members[j].node.vv)
  {
    TourInforms(gs, owner, actions, i, j, a, b, c, keys, k);
    TravelledIsKnown(gs, owner, actions, i, j, a, b, c);
  }
}
