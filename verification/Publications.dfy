/** What a publication is in terms of the group: packets put into a store one by one, and then an
    announcement. Publishing.dfy has the methods. */
module Publications {
  import opened Nodes
  import opened Numbers
  import opened VersionVectors
  import opened Core
  import opened Group

  const MAX_DATA_SIZE: nat := 8000

  /** seq + 1 in 64 bits. */
  function Successor(seqNo: SeqNo): SeqNo {
    if seqNo == MAX_SEQ then 0 else seqNo + 1
  }

  // ---- Segments of a large publication ----

  function SegmentCount(size: nat): nat {
    size / MAX_DATA_SIZE + 1
  }

  /** The bytes of one segment. */
  function SegmentValue<T>(value: seq<T>, i: nat): seq<T>
    requires i * MAX_DATA_SIZE <= |value|
  {
    value[i * MAX_DATA_SIZE..i * MAX_DATA_SIZE + Min(|value| - i * MAX_DATA_SIZE, MAX_DATA_SIZE)]
  }

  function Joined<T>(value: seq<T>, n: nat): seq<T>
    requires n <= SegmentCount(|value|)
  {
    if n == 0 then [] else Joined(value, n - 1) + SegmentValue(value, n - 1)
  }

  /** The segments, joined, give the value back. */
  lemma SegmentsJoin<T>(value: seq<T>)
    ensures Joined(value, SegmentCount(|value|)) == value
  {
    JoinedPrefix(value, SegmentCount(|value|));
    assert value[..|value|] == value;
  }

  lemma {:induction false} JoinedPrefix<T>(value: seq<T>, n: nat)
    requires n <= SegmentCount(|value|)
    ensures Joined(value, n) == value[..Min(|value|, n * MAX_DATA_SIZE)]
  {
    if n > 0 {
      JoinedPrefix(value, n - 1);
      var from := (n - 1) * MAX_DATA_SIZE;
      assert value[..from] + SegmentValue(value, n - 1) == value[..Min(|value|, n * MAX_DATA_SIZE)];
    }
  }

  /** The segments numbered from 0 up to n - 1. */
  function SegmentItems(nid: NodeID, seqNo: nat, n: nat, last: nat): set<Item> {
    set no: nat | no < n :: Segment(nid, seqNo, no, last)
  }

  lemma SegmentsAreStored(store: set<Item>, nid: NodeID, seqNo: nat, last: nat)
    requires SegmentItems(nid, seqNo, last + 1, last) <= store
    ensures Stored(store, nid, seqNo)
  {
    forall no: nat | no <= last ensures Segment(nid, seqNo, no, last) in store {
      assert Segment(nid, seqNo, no, last) in SegmentItems(nid, seqNo, last + 1, last);
    }
    assert AllSegments(store, nid, seqNo, last);
  }

  /** The packets a publication of the given size becomes. */
  function Packets(nid: NodeID, seqNo: nat, size: nat): set<Item> {
    if size > MAX_DATA_SIZE
    then SegmentItems(nid, seqNo, SegmentCount(size), SegmentCount(size) - 1)
    else {Whole(nid, seqNo)}
  }

  // ---- What publishing leaves behind ----

  function CurrentNumber(m: Member, nid: NodeID): SeqNo {
    m.node.vv.Get(TargetNode(m.cfg, nid))
  }

  /** The packets of the next publication under a name. */
  function NextPackets(m: Member, nid: NodeID, size: nat): set<Item> {
    Packets(TargetNode(m.cfg, nid), Successor(CurrentNumber(m, nid)), size)
  }

  /** A member after a publication under a name, or under its own if the name is empty. */
  function Published(m: Member, nid: NodeID, size: nat, clock: Clock, draws: Draws): Member {
    var target := TargetNode(m.cfg, nid);
    m.(node := Update(m.cfg, m.node, Successor(CurrentNumber(m, nid)), target, clock, draws),
       store := m.store + NextPackets(m, nid, size))
  }

  lemma SegmentItemsGrow(nid: NodeID, seqNo: nat, i: nat, last: nat)
    ensures SegmentItems(nid, seqNo, i + 1, last)
         == SegmentItems(nid, seqNo, i, last) + {Segment(nid, seqNo, i, last)}
  {
    forall item
      ensures item in SegmentItems(nid, seqNo, i + 1, last) <==>
              item in SegmentItems(nid, seqNo, i, last) + {Segment(nid, seqNo, i, last)}
    {
    }
  }

  // ---- Publishing as actions of the group ----

  function WithMember(g: Group, i: nat, m: Member): Group
    requires i < |g.members|
  {
    g.(members := g.members[i := m])
  }

  /** Actions one after another, if each of them is enabled when its turn comes. */
  ghost function ApplyAll(g: Group, owner: NodeID -> nat, actions: seq<Action>): Option<Group> {
    if actions == [] then Some(g)
    else
      var before := ApplyAll(g, owner, actions[..|actions| - 1]);
      if before.Some? && Enabled(before.value, owner, actions[|actions| - 1])
      then Some(Apply(before.value, owner, actions[|actions| - 1]))
      else None
  }

  lemma ApplyOneMore(g: Group, owner: NodeID -> nat, actions: seq<Action>, a: Action)
    ensures var before := ApplyAll(g, owner, actions);
            ApplyAll(g, owner, actions + [a]) ==
            if before.Some? && Enabled(before.value, owner, a) then Some(Apply(before.value, owner, a)) else None
  {
    assert (actions + [a])[..|actions|] == actions;
  }

  lemma ApplyOne(g: Group, owner: NodeID -> nat, a: Action)
    requires Enabled(g, owner, a)
    ensures ApplyAll(g, owner, [a]) == Some(Apply(g, owner, a))
  {
    ApplyOneMore(g, owner, [], a);
    assert [] + [a] == [a];
  }

  lemma {:induction false} AllKeepSound(g: Group, owner: NodeID -> nat, actions: seq<Action>)
    requires Sound(g, owner) && ApplyAll(g, owner, actions).Some?
    ensures Sound(ApplyAll(g, owner, actions).value, owner)
  {
    if actions != [] {
      AllKeepSound(g, owner, actions[..|actions| - 1]);
      StepKeepsSound(ApplyAll(g, owner, actions[..|actions| - 1]).value, owner, actions[|actions| - 1]);
    }
  }

  /** The first n insertDataSegment calls of a publication. */
  function SegmentActions(i: nat, nid: NodeID, seqNo: nat, n: nat, last: nat): seq<Action> {
    if n == 0 then []
    else SegmentActions(i, nid, seqNo, n - 1, last) + [Insert(i, Segment(nid, seqNo, n - 1, last))]
  }

  function StoreActions(i: nat, nid: NodeID, seqNo: nat, size: nat): seq<Action> {
    if size > MAX_DATA_SIZE
    then SegmentActions(i, nid, seqNo, SegmentCount(size), SegmentCount(size) - 1)
    else [Insert(i, Whole(nid, seqNo))]
  }

  /** A publication as actions of the group: store the packets one by one, then announce. */
  function PublishActions(i: nat, m: Member, nid: NodeID, size: nat, clock: Clock, draws: Draws): seq<Action> {
    StoreActions(i, TargetNode(m.cfg, nid), Successor(CurrentNumber(m, nid)), size) + [Announce(i, nid, clock, draws)]
  }

  function Storing(m: Member, items: set<Item>): Member {
    m.(store := m.store + items)
  }

  /** These actions put these packets into the store of member i. */
  ghost predicate Inserts(g: Group, owner: NodeID -> nat, i: nat, actions: seq<Action>, items: set<Item>) {
    i < |g.members| && ApplyAll(g, owner, actions) == Some(WithMember(g, i, Storing(g.members[i], items)))
  }

  lemma InsertStores(g: Group, owner: NodeID -> nat, i: nat, m: Member, item: Item)
    requires i < |g.members|
    ensures Enabled(WithMember(g, i, m), owner, Insert(i, item))
    ensures Apply(WithMember(g, i, m), owner, Insert(i, item)) == WithMember(g, i, Storing(m, {item}))
  {
    assert WithMember(g, i, m).members[i := Storing(m, {item})] == g.members[i := Storing(m, {item})];
  }

  lemma {:induction false} SegmentsInserted(g: Group, owner: NodeID -> nat, i: nat, nid: NodeID, seqNo: nat, n: nat,
                                            last: nat)
    requires i < |g.members|
    ensures Inserts(g, owner, i, SegmentActions(i, nid, seqNo, n, last), SegmentItems(nid, seqNo, n, last))
  {
    var m := g.members[i];
    if n == 0 {
      assert m.store + SegmentItems(nid, seqNo, 0, last) == m.store;
      assert g.members[i := m] == g.members;
    } else {
      var item := Segment(nid, seqNo, n - 1, last);
      var before := Storing(m, SegmentItems(nid, seqNo, n - 1, last));
      SegmentsInserted(g, owner, i, nid, seqNo, n - 1, last);
      ApplyOneMore(g, owner, SegmentActions(i, nid, seqNo, n - 1, last), Insert(i, item));
      InsertStores(g, owner, i, before, item);
      SegmentItemsGrow(nid, seqNo, n - 1, last);
      assert before.store + {item} == m.store + SegmentItems(nid, seqNo, n, last);
    }
  }

  lemma WholeInserted(g: Group, owner: NodeID -> nat, i: nat, nid: NodeID, seqNo: nat)
    requires i < |g.members|
    ensures Inserts(g, owner, i, [Insert(i, Whole(nid, seqNo))], {Whole(nid, seqNo)})
  {
    assert g == WithMember(g, i, g.members[i]) by { assert g.members[i := g.members[i]] == g.members; }
    InsertStores(g, owner, i, g.members[i], Whole(nid, seqNo));
    ApplyOne(g, owner, Insert(i, Whole(nid, seqNo)));
  }

  lemma PacketsInserted(g: Group, owner: NodeID -> nat, i: nat, nid: NodeID, seqNo: nat, size: nat)
    requires i < |g.members|
    ensures Inserts(g, owner, i, StoreActions(i, nid, seqNo, size), Packets(nid, seqNo, size))
  {
    if size > MAX_DATA_SIZE {
      var n := SegmentCount(size);
      SegmentsInserted(g, owner, i, nid, seqNo, n, n - 1);
    } else {
      WholeInserted(g, owner, i, nid, seqNo);
    }
  }

  lemma PacketsAreStored(store: set<Item>, nid: NodeID, seqNo: nat, size: nat)
    requires Packets(nid, seqNo, size) <= store
    ensures Stored(store, nid, seqNo)
  {
    if size > MAX_DATA_SIZE {
      SegmentsAreStored(store, nid, seqNo, SegmentCount(size) - 1);
    } else {
      assert Whole(nid, seqNo) in Packets(nid, seqNo, size);
    }
  }

  /** Once the packets are there, the announcement is enabled unless the number wraps. */
  lemma AnnouncePublishes(g: Group, owner: NodeID -> nat, i: nat, m: Member, nid: NodeID, size: nat, clock: Clock,
                          draws: Draws)
    requires i < |g.members| && owner(TargetNode(m.cfg, nid)) == i
    ensures var stored := WithMember(g, i, Storing(m, NextPackets(m, nid, size)));
            var a := Announce(i, nid, clock, draws);
            && (Enabled(stored, owner, a) <==> CurrentNumber(m, nid) < MAX_SEQ)
            && (Enabled(stored, owner, a) ==>
                Apply(stored, owner, a) == WithMember(g, i, Published(m, nid, size, clock, draws)))
  {
    var p, n := TargetNode(m.cfg, nid), Successor(CurrentNumber(m, nid));
    PacketsAreStored(m.store + Packets(p, n, size), p, n, size);
    var after := Published(m, nid, size, clock, draws);
    assert g.members[i := Storing(m, NextPackets(m, nid, size))][i := after] == g.members[i := after];
  }

  /** Publishing refines the group: unless the 64-bit number wraps, each packet may be inserted, the
      number may be announced because the packets are then there, and what this leaves is the member
      that publishing leaves. If the number wraps, it is no announcement, and falls back to zero. */
  lemma PublishingIsAnnouncing(g: Group, owner: NodeID -> nat, i: nat, nid: NodeID, size: nat, clock: Clock,
                               draws: Draws)
    requires i < |g.members| && owner(TargetNode(g.members[i].cfg, nid)) == i
    ensures var m := g.members[i];
            var after := Published(m, nid, size, clock, draws);
            if CurrentNumber(m, nid) < MAX_SEQ
            then ApplyAll(g, owner, PublishActions(i, m, nid, size, clock, draws)) == Some(WithMember(g, i, after))
            else
              && ApplyAll(g, owner, PublishActions(i, m, nid, size, clock, draws)) == None
              && CurrentNumber(after, nid) == 0
  {
    var m := g.members[i];
    var p, n := TargetNode(m.cfg, nid), Successor(CurrentNumber(m, nid));
    PacketsInserted(g, owner, i, p, n, size);
    ApplyOneMore(g, owner, StoreActions(i, p, n, size), Announce(i, nid, clock, draws));
    AnnouncePublishes(g, owner, i, m, nid, size, clock, draws);
  }

  lemma PublishingKeepsSound(g: Group, owner: NodeID -> nat, i: nat, nid: NodeID, size: nat, clock: Clock, draws: Draws)
    requires Sound(g, owner) && i < |g.members| && owner(TargetNode(g.members[i].cfg, nid)) == i
    requires CurrentNumber(g.members[i], nid) < MAX_SEQ
    ensures Sound(WithMember(g, i, Published(g.members[i], nid, size, clock, draws)), owner)
  {
    PublishingIsAnnouncing(g, owner, i, nid, size, clock, draws);
    AllKeepSound(g, owner, PublishActions(i, g.members[i], nid, size, clock, draws));
  }

  // ---- Groups whose members publish ----

  /** What happens in a group whose members only announce by publishing. */
  datatype Move =
    | Publish(i: nat, nid: NodeID, size: nat, clock: Clock, draws: Draws)
    | Other(action: Action)

  /** A member publishes under names it owns, and no number wraps; that the data is stored is not
      asked for. */
  ghost predicate Possible(g: Group, owner: NodeID -> nat, m: Move) {
    match m
    case Publish(i, nid, _, _, _) =>
      && i < |g.members| && owner(TargetNode(g.members[i].cfg, nid)) == i
      && CurrentNumber(g.members[i], nid) < MAX_SEQ
    case Other(a) => !a.Announce? && Enabled(g, owner, a)
  }

  ghost function Moved(g: Group, owner: NodeID -> nat, m: Move): Group
    requires Possible(g, owner, m)
  {
    match m
    case Publish(i, nid, size, clock, draws) => WithMember(g, i, Published(g.members[i], nid, size, clock, draws))
    case Other(a) => Apply(g, owner, a)
  }

  ghost predicate MoveAt(gs: seq<Group>, owner: NodeID -> nat, moves: seq<Move>, i: nat)
    requires |gs| == |moves| + 1
  {
    i < |moves| ==> Possible(gs[i], owner, moves[i]) && gs[i + 1] == Moved(gs[i], owner, moves[i])
  }

  ghost predicate IsCourse(gs: seq<Group>, owner: NodeID -> nat, moves: seq<Move>) {
    |gs| == |moves| + 1 && IsNew(gs[0]) && forall i: nat :: MoveAt(gs, owner, moves, i)
  }

  lemma MoveKeepsSound(g: Group, owner: NodeID -> nat, m: Move)
    requires Sound(g, owner) && Possible(g, owner, m)
    ensures Sound(Moved(g, owner, m), owner)
  {
    match m {
      case Publish(i, nid, size, clock, draws) => PublishingKeepsSound(g, owner, i, nid, size, clock, draws);
      case Other(a) => StepKeepsSound(g, owner, a);
    }
  }

  lemma {:induction false} CourseIsSound(gs: seq<Group>, owner: NodeID -> nat, moves: seq<Move>, n: nat)
    requires IsCourse(gs, owner, moves) && n < |gs|
    ensures Sound(gs[n], owner)
    decreases n
  {
    if n == 0 {
      NewIsSound(gs[0], owner);
    } else {
      CourseIsSound(gs, owner, moves, n - 1);
      assert MoveAt(gs, owner, moves, n - 1);
      MoveKeepsSound(gs[n - 1], owner, moves[n - 1]);
    }
  }

  /** In a group whose members announce by publishing, whatever is advertised anywhere, at any time,
      was published, and its producer has all its packets. */
  lemma PublishedIsStored(gs: seq<Group>, owner: NodeID -> nat, moves: seq<Move>, n: nat, v: VersionVector, p: NodeID,
                          seqNo: nat)
    requires IsCourse(gs, owner, moves) && n < |gs|
    requires Advertised(gs[n], v) && 1 <= seqNo <= v.Get(p)
    ensures owner(p) < |gs[n].members| && seqNo <= gs[n].members[owner(p)].node.vv.Get(p)
    ensures Stored(gs[n].members[owner(p)].store, p, seqNo)
  {
    CourseIsSound(gs, owner, moves, n);
    AdvertisedIsTruthful(gs[n], owner, v);
    assert v.Get(p) <= Truth(gs[n], owner, p);
  }
}
