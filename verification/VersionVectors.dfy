/** version-vector.hpp: the versioned state of the group as one node knows it. */
module VersionVectors {
  import opened Nodes
  import opened Orders

  const MAX_SEQ: nat := 0xFFFF_FFFF_FFFF_FFFF
  type SeqNo = n: nat | n <= MAX_SEQ

  /** Points in time and durations, in microseconds. */
  type Time = int

  /** time_point::min(), the stamp of an entry that was never stamped. */
  const TIME_MIN: Time := -0x8000_0000_0000_0000

  /** A std::map value: copied whenever it is returned or stored. */
  datatype VersionVector = VersionVector(entries: map<NodeID, SeqNo>, stamps: map<NodeID, Time>) {
    predicate Has(nid: NodeID) { nid in entries }

    function Get(nid: NodeID): SeqNo {
      if nid in entries then entries[nid] else 0
    }

    function GetLastUpdate(nid: NodeID): Time {
      if nid in stamps then stamps[nid] else TIME_MIN
    }

    function Set(nid: NodeID, seqNo: SeqNo, now: Time): VersionVector {
      VersionVector(entries[nid := seqNo], stamps[nid := now])
    }

    /** The copies that adding exactly the entries of `keys` to an empty vector makes. */
    function Restrict(keys: set<NodeID>): (r: VersionVector) {
      VersionVector(map k | k in keys && k in entries :: entries[k],
                    map k | k in keys && k in entries :: GetLastUpdate(k))
    }
  }

  const EMPTY := VersionVector(map[], map[])

  /** v is nowhere ahead of w. */
  ghost predicate AtMost(v: VersionVector, w: VersionVector) {
    forall nid :: v.Get(nid) <= w.Get(nid)
  }

  /** Most recently updated first. */
  function RecencyOrder(vv: VersionVector): Ranking {
    Ranking(map[], map k | k in vv.entries :: vv.GetLastUpdate(k))
  }

  /** Least recently updated first. */
  function AgeOrder(vv: VersionVector): Ranking {
    Ranking(map[], map k | k in vv.entries :: -vv.GetLastUpdate(k))
  }

  function OrderedNodes(vv: VersionVector): seq<NodeID> {
    Listing(BY_NAME, vv.entries.Keys)
  }

  /** How many entries iterating over the vector visits. */
  function Size(vv: VersionVector): nat {
    |OrderedNodes(vv)|
  }

  lemma SizeIs(vv: VersionVector)
    ensures Size(vv) == |vv.entries|
  {
    ListingSize(BY_NAME, vv.entries.Keys);
  }

  function RecentNodes(vv: VersionVector): seq<NodeID> {
    Listing(RecencyOrder(vv), vv.entries.Keys)
  }

  function AgedNodes(vv: VersionVector): seq<NodeID> {
    Listing(AgeOrder(vv), vv.entries.Keys)
  }
}
