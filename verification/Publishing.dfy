/** svsync-base.cpp and svspubsub.cpp, publishing: store first, then raise the number. */
module Publishing {
  import opened Nodes
  import opened VersionVectors
  import opened Core
  import opened SyncNode
  import opened Group
  import opened Publications
  import opened Names
  import opened Tlv
  import opened VectorCodec
  import opened MappingCodec
  import opened MappingPath

  class SVSyncBase {
    const core: SVSyncCore
    var store: set<Item>

    constructor (core: SVSyncCore)
      ensures this.core == core && store == {}
    {
      this.core := core;
      store := {};
    }

    /** This node as a member of the group. */
    function AsMember(): Member
      reads this, core
    {
      Member(core.cfg, core.State(), store)
    }

    /** The next number is announced after its packet is in the store; how large the packet may be
        is up to the application. */
    method PublishData(id: NodeID, clock: Clock, draws: Draws) returns (seqNo: SeqNo)
      modifies this, core
      ensures seqNo == Successor(CurrentNumber(old(AsMember()), id))
      ensures AsMember() == Published(old(AsMember()), id, 0, clock, draws)
    {
      var pubId := if id != EMPTY_NODE_ID then id else core.cfg.id;
      var current := core.GetSeqNo(pubId);
      seqNo := Successor(current);
      store := store + {Whole(pubId, seqNo)};
      core.UpdateSeqNo(seqNo, pubId, clock, draws);
    }

    method InsertDataSegment(nid: NodeID, seqNo: SeqNo, segNo: nat, finalBlock: nat)
      modifies this
      ensures store == old(store) + {Segment(nid, seqNo, segNo, finalBlock)}
    {
      store := store + {Segment(nid, seqNo, segNo, finalBlock)};
    }
  }

  // ---- The names of publications ----

  /** The notification list takes in one node at a time. */
  function Notified(l: MappingList, nodeId: Name, p: Pair): MappingList {
    if l.nodeId == [] || l.nodeId == nodeId then MappingList(nodeId, l.pairs + [p]) else l
  }

  /** The mapping of a publication: its name and the additional blocks, a timestamp among them if the
      options ask for one. */
  function MappingOf(name: Name, additional: seq<Block>, useTimestamp: bool, timestamp: Block): Mapping {
    Mapping(name, additional + if useTimestamp then [timestamp] else [])
  }

  class SVSPubSub {
    const svsync: SVSyncBase
    const provider: MappingProvider
    const dataPrefix: NodeID
    const useTimestamp: bool
    // what the numbers of nodes stand for
    const nameOf: NodeID -> Name
    var notification: MappingList

    /** The prefix of the node is its id in the core below. */
    predicate Valid() { dataPrefix == svsync.core.cfg.id }

    /** The name under which something published under this prefix is known. */
    function Publisher(nodePrefix: NodeID): Name {
      nameOf(TargetNode(svsync.core.cfg, nodePrefix))
    }

    constructor (svsync: SVSyncBase, provider: MappingProvider, useTimestamp: bool, nameOf: NodeID -> Name)
      ensures Valid() && this.svsync == svsync && this.provider == provider
      ensures this.useTimestamp == useTimestamp && this.nameOf == nameOf && notification == MappingList([], [])
    {
      this.svsync, this.provider := svsync, provider;
      this.useTimestamp, this.nameOf := useTimestamp, nameOf;
      dataPrefix := svsync.core.cfg.id;
      notification := MappingList([], []);
    }

    method InsertMapping(nid: NodeID, seqNo: SeqNo, name: Name, additional: seq<Block>, timestamp: Block)
      modifies this, provider
      ensures var entry := MappingOf(name, additional, useTimestamp, timestamp);
              && provider.mappings == old(provider.mappings)[MappingKey(nameOf(nid), seqNo) := entry]
              && notification == Notified(old(notification), nameOf(nid), Pair(seqNo, entry))
    {
      var all := additional;
      if useTimestamp {
        all := all + [timestamp];
      } else {
        assert all + [] == all;
      }
      var entry := Mapping(name, all);
      if notification.nodeId == [] || notification.nodeId == nameOf(nid) {
        notification := MappingList(nameOf(nid), notification.pairs + [Pair(seqNo, entry)]);
      }
      provider.InsertMapping(nameOf(nid), seqNo, entry);
    }

    method PublishPacket(name: Name, nodePrefix: NodeID, mappingBlocks: seq<Block>, timestamp: Block, clock: Clock,
                         draws: Draws)
      returns (seqNo: SeqNo)
      requires Valid()
      modifies this, provider, svsync, svsync.core
      ensures seqNo == Successor(CurrentNumber(old(svsync.AsMember()), nodePrefix))
      ensures svsync.AsMember() == Published(old(svsync.AsMember()), nodePrefix, 0, clock, draws)
      ensures var entry := MappingOf(name, mappingBlocks, useTimestamp, timestamp);
              && provider.mappings == old(provider.mappings)[MappingKey(Publisher(nodePrefix), seqNo) := entry]
              && notification == Notified(old(notification), Publisher(nodePrefix), Pair(seqNo, entry))
    {
      var nid := if nodePrefix == EMPTY_NODE_ID then dataPrefix else nodePrefix;
      seqNo := svsync.PublishData(nid, clock, draws);
      InsertMapping(nid, seqNo, name, mappingBlocks, timestamp);
    }

    /** publish, for a value of the given size: all its segments, or the one packet, go into the store
        before the number is raised. The additional blocks are passed on with a segmented value only. */
    method Publish(name: Name, size: nat, nodePrefix: NodeID, mappingBlocks: seq<Block>, timestamp: Block, clock: Clock,
                   draws: Draws)
      returns (seqNo: SeqNo)
      requires Valid()
      modifies this, provider, svsync, svsync.core
      ensures seqNo == Successor(CurrentNumber(old(svsync.AsMember()), nodePrefix))
      ensures svsync.AsMember() == Published(old(svsync.AsMember()), nodePrefix, size, clock, draws)
      ensures var additional := if size > MAX_DATA_SIZE then mappingBlocks else [];
              var entry := MappingOf(name, additional, useTimestamp, timestamp);
              && provider.mappings == old(provider.mappings)[MappingKey(Publisher(nodePrefix), seqNo) := entry]
              && notification == Notified(old(notification), Publisher(nodePrefix), Pair(seqNo, entry))
    {
      if size <= MAX_DATA_SIZE {
        seqNo := PublishPacket(name, nodePrefix, [], timestamp, clock, draws);
        return;
      }
      var nid := if nodePrefix == EMPTY_NODE_ID then dataPrefix else nodePrefix;
      var current := svsync.core.GetSeqNo(nid);
      seqNo := Successor(current);
      InsertSegments(nid, seqNo, SegmentCount(size));
      InsertMapping(nid, seqNo, name, mappingBlocks, timestamp);
      svsync.core.UpdateSeqNo(seqNo, nid, clock, draws);
    }

    /** The loop over the segments. */
    method InsertSegments(nid: NodeID, seqNo: SeqNo, nSegments: nat)
      requires nSegments > 0
      modifies svsync
      ensures svsync.store == old(svsync.store) + SegmentItems(nid, seqNo, nSegments, nSegments - 1)
    {
      var i := 0;
      while i < nSegments
        invariant i <= nSegments
        invariant svsync.store == old(svsync.store) + SegmentItems(nid, seqNo, i, nSegments - 1)
      {
        svsync.InsertDataSegment(nid, seqNo, i, nSegments - 1);
        SegmentItemsGrow(nid, seqNo, i, nSegments - 1);
        i := i + 1;
      }
    }
  }

  // ---- What a publisher can answer ----

  /** The publisher knows the mapping of every number it has announced. */
  ghost predicate Mapped(mappings: map<Name, Mapping>, nodeId: Name, seqNo: nat) {
    seqNo <= MAX_SEQ && forall i: Number | 1 <= i <= seqNo :: MappingKey(nodeId, i) in mappings
  }

  /** Publishing keeps it so, for the name published under and for every other name. */
  lemma PublishingMaps(mappings: map<Name, Mapping>, publisher: Name, current: SeqNo, entry: Mapping,
                       nodeId: Name, seqNo: nat)
    requires Mapped(mappings, nodeId, seqNo) && (nodeId == publisher ==> seqNo == current) && current < MAX_SEQ
    ensures var after := mappings[MappingKey(publisher, Successor(current)) := entry];
            Mapped(after, nodeId, if nodeId == publisher then Successor(current) else seqNo)
  {
  }

  /** So it can answer in full every query for numbers it has announced. */
  lemma AnnouncedIsAnswered(mappings: map<Name, Mapping>, nodeId: Name, seqNo: nat, low: nat, n: nat)
    requires Mapped(mappings, nodeId, seqNo) && 1 <= low && low + n <= seqNo + 1
    ensures Answer(mappings, nodeId, low, n).Ok?
    ensures IsAnswer(mappings, nodeId, low, n, Answer(mappings, nodeId, low, n).value)
  {
    AnswerComplete(mappings, nodeId, low, n);
  }
}
