/** core.cpp, mergeStateVector and recordVector: what hearing a vector does to one's own. */
module Merging {
  import opened Collections
  import opened Nodes
  import opened Orders
  import opened Numbers
  import opened VersionVectors

  datatype MissingDataInfo = MissingDataInfo(nodeId: NodeID, low: nat, high: nat, incomingFace: nat)

  datatype MergeResult = MergeResult(myVectorNew: bool, otherVectorNew: bool, missingInfo: seq<MissingDataInfo>)

  function Later(vv: VersionVector, other: VersionVector, nid: NodeID): bool {
    vv.Get(nid) < other.Get(nid)
  }

  /** Entries of which the other vector knows more. */
  function News(vv: VersionVector, other: VersionVector): set<NodeID> {
    set k | k in other.entries && Later(vv, other, k)
  }

  /** The vector after taking over the news of some nodes. */
  function Takeover(vv: VersionVector, other: VersionVector, nodes: set<NodeID>, now: Time): VersionVector {
    VersionVector(map k | k in vv.entries.Keys + nodes :: if k in nodes then other.Get(k) else vv.Get(k),
                  map k | k in vv.stamps.Keys + nodes :: if k in nodes then now else vv.GetLastUpdate(k))
  }

  function Merged(vv: VersionVector, other: VersionVector, now: Time): VersionVector {
    Takeover(vv, other, News(vv, other), now)
  }

  function InfoOf(vv: VersionVector, other: VersionVector, nid: NodeID): MissingDataInfo {
    MissingDataInfo(nid, vv.Get(nid) + 1, other.Get(nid), 0)
  }

  /** The ranges reported for the nodes listed. */
  function Infos(vv: VersionVector, other: VersionVector, nodes: seq<NodeID>): seq<MissingDataInfo> {
    if nodes == [] then []
    else
      var last := nodes[|nodes| - 1];
      Infos(vv, other, nodes[..|nodes| - 1]) + if Later(vv, other, last) then [InfoOf(vv, other, last)] else []
  }

  function MissingInfo(vv: VersionVector, other: VersionVector): seq<MissingDataInfo> {
    Infos(vv, other, OrderedNodes(other))
  }

  /** Entries old enough to speak about of which the other vector knows less. */
  predicate Speaks(vv: VersionVector, other: VersionVector, nid: NodeID, now: Time, suppression: Time) {
    now - vv.GetLastUpdate(nid) >= suppression && other.Get(nid) < vv.Get(nid)
  }

  /** One of the nodes from the i-th on is such an entry. */
  predicate AnySpeaks(vv: VersionVector, other: VersionVector, nodes: seq<NodeID>, i: nat, now: Time, suppression: Time)
    requires i <= |nodes|
    decreases |nodes| - i
  {
    i < |nodes| &&
    (Speaks(vv, other, nodes[i], now, suppression) || AnySpeaks(vv, other, nodes, i + 1, now, suppression))
  }

  predicate MyVectorNew(vv: VersionVector, other: VersionVector, now: Time, suppression: Time) {
    AnySpeaks(vv, other, OrderedNodes(vv), 0, now, suppression)
  }

  lemma {:induction false} AnySpeaksIff(vv: VersionVector, other: VersionVector, nodes: seq<NodeID>, i: nat, now: Time,
                                        suppression: Time)
    requires i <= |nodes|
    ensures AnySpeaks(vv, other, nodes, i, now, suppression) <==>
            exists k :: i <= k < |nodes| && Speaks(vv, other, nodes[k], now, suppression)
    decreases |nodes| - i
  {
    if i < |nodes| { AnySpeaksIff(vv, other, nodes, i + 1, now, suppression); }
  }

  /** myVectorNew: some entry old enough to speak about is ahead of the other vector's. */
  lemma MyVectorNewIff(vv: VersionVector, other: VersionVector, now: Time, suppression: Time)
    ensures MyVectorNew(vv, other, now, suppression) <==>
            exists nid :: nid in vv.entries && Speaks(vv, other, nid, now, suppression)
  {
    var nodes := OrderedNodes(vv);
    AnySpeaksIff(vv, other, nodes, 0, now, suppression);
    if nid :| nid in vv.entries && Speaks(vv, other, nid, now, suppression) {
      ListingHas(BY_NAME, vv.entries.Keys, nid);
      assert nodes[IndexOf(nodes, nid)] == nid;
    }
    if k :| 0 <= k < |nodes| && Speaks(vv, other, nodes[k], now, suppression) {
      ListingAt(BY_NAME, vv.entries.Keys, k);
    }
  }

  /** mergeStateVector, but for the vector it leaves behind. */
  function Report(vv: VersionVector, other: VersionVector, now: Time, suppression: Time): MergeResult {
    MergeResult(MyVectorNew(Merged(vv, other, now), other, now, suppression),
                MissingInfo(vv, other) != [],
                MissingInfo(vv, other))
  }

  // ---- The merged vector is the pointwise maximum ----

  lemma MergedGet(vv: VersionVector, other: VersionVector, now: Time, nid: NodeID)
    ensures Merged(vv, other, now).Get(nid) == Max(vv.Get(nid), other.Get(nid))
  {
  }

  /** A vector heard at some point in time. */
  datatype Heard = Heard(vector: VersionVector, at: Time)

  /** The vector after hearing several, in that order. */
  function MergeAll(vv: VersionVector, heard: seq<Heard>): VersionVector {
    if heard == [] then vv
    else
      var last := heard[|heard| - 1];
      Merged(MergeAll(vv, heard[..|heard| - 1]), last.vector, last.at)
  }

  function MaxHeard(seqNo: nat, heard: seq<Heard>, nid: NodeID): nat {
    if heard == [] then seqNo else Max(MaxHeard(seqNo, heard[..|heard| - 1], nid), heard[|heard| - 1].vector.Get(nid))
  }

  /** Whatever is heard, the numbers are the greatest heard. */
  lemma {:induction false} MergeAllIsMax(vv: VersionVector, heard: seq<Heard>, nid: NodeID)
    ensures MergeAll(vv, heard).Get(nid) == MaxHeard(vv.Get(nid), heard, nid)
  {
    if heard != [] {
      var last := heard[|heard| - 1];
      MergeAllIsMax(vv, heard[..|heard| - 1], nid);
      MergedGet(MergeAll(vv, heard[..|heard| - 1]), last.vector, last.at, nid);
    }
  }

  lemma {:induction false} MaxHeardWithin(seqNo: nat, heard: seq<Heard>, nid: NodeID, bound: nat)
    requires seqNo <= bound && forall i | 0 <= i < |heard| :: heard[i].vector.Get(nid) <= bound
    ensures MaxHeard(seqNo, heard, nid) <= bound
  {
    if heard != [] { MaxHeardWithin(seqNo, heard[..|heard| - 1], nid, bound); }
  }

  lemma {:induction false} MaxHeardBounds(seqNo: nat, heard: seq<Heard>, nid: NodeID, i: nat)
    ensures seqNo <= MaxHeard(seqNo, heard, nid)
    ensures i < |heard| ==> heard[i].vector.Get(nid) <= MaxHeard(seqNo, heard, nid)
  {
    if heard != [] { MaxHeardBounds(seqNo, heard[..|heard| - 1], nid, i); }
  }

  /** Every vector of the first history is in the second. */
  ghost predicate Includes(h: seq<Heard>, h': seq<Heard>) {
    forall i | 0 <= i < |h| :: Occurs(h[i].vector, h')
  }

  predicate Occurs(v: VersionVector, h: seq<Heard>) {
    exists j :: 0 <= j < |h| && h[j].vector == v
  }

  lemma IncludesMax(seqNo: nat, h: seq<Heard>, h': seq<Heard>, nid: NodeID)
    requires Includes(h, h')
    ensures MaxHeard(seqNo, h, nid) <= MaxHeard(seqNo, h', nid)
  {
    MaxHeardBounds(seqNo, h', nid, 0);
    forall i | 0 <= i < |h| ensures h[i].vector.Get(nid) <= MaxHeard(seqNo, h', nid) {
      assert Occurs(h[i].vector, h');
      var j :| 0 <= j < |h'| && h'[j].vector == h[i].vector;
      MaxHeardBounds(seqNo, h', nid, j);
    }
    MaxHeardWithin(seqNo, h, nid, MaxHeard(seqNo, h', nid));
  }

  /** Neither order nor repetition matters. */
  lemma OrderIrrelevant(vv: VersionVector, h: seq<Heard>, h': seq<Heard>, nid: NodeID)
    requires Includes(h, h') && Includes(h', h)
    ensures MergeAll(vv, h).Get(nid) == MergeAll(vv, h').Get(nid)
  {
    MergeAllIsMax(vv, h, nid);
    MergeAllIsMax(vv, h', nid);
    IncludesMax(vv.Get(nid), h, h', nid);
    IncludesMax(vv.Get(nid), h', h, nid);
  }

  // ---- What is reported is what was learned ----

  lemma {:induction false} InfosHas(vv: VersionVector, other: VersionVector, nodes: seq<NodeID>, nid: NodeID)
    ensures nid in nodes && Later(vv, other, nid) <==> InfoOf(vv, other, nid) in Infos(vv, other, nodes)
  {
    if nodes != [] {
      var rest, last := nodes[..|nodes| - 1], nodes[|nodes| - 1];
      InfosHas(vv, other, rest, nid);
      assert nodes == rest + [last];
    }
  }

  /** The ranges reported are exactly those by which the vector grew: one for every node heard of
      with a higher number, from the number after the own one up to the one heard. */
  lemma ReportIsGrowth(vv: VersionVector, other: VersionVector, now: Time, nid: NodeID)
    ensures InfoOf(vv, other, nid) in MissingInfo(vv, other) <==> Merged(vv, other, now).Get(nid) > vv.Get(nid)
    ensures Merged(vv, other, now).Get(nid) > vv.Get(nid) ==>
            Merged(vv, other, now).Get(nid) == InfoOf(vv, other, nid).high
  {
    InfosHas(vv, other, OrderedNodes(other), nid);
    ListingFacts(BY_NAME, other.entries.Keys);
    MergedGet(vv, other, now, nid);
  }

  function Sum(vv: VersionVector, nodes: set<NodeID>): nat
    decreases |nodes|
  {
    if nodes == {} then 0
    else
      var x := First(BY_NAME, nodes);
      assert |nodes - {x}| == |nodes| - 1;
      vv.Get(x) + Sum(vv, nodes - {x})
  }

  function Lengths(infos: seq<MissingDataInfo>): int {
    if infos == [] then 0
    else Lengths(infos[..|infos| - 1]) + (infos[|infos| - 1].high - infos[|infos| - 1].low + 1)
  }

  lemma {:induction false} SumWithout(vv: VersionVector, nodes: set<NodeID>, x: NodeID)
    requires x in nodes
    ensures Sum(vv, nodes) == vv.Get(x) + Sum(vv, nodes - {x})
    decreases |nodes|
  {
    var f := First(BY_NAME, nodes);
    if f != x {
      assert |nodes - {f}| == |nodes| - 1;
      SumWithout(vv, nodes - {f}, x);
      SumWithout(vv, nodes - {x}, f);
      assert nodes - {f} - {x} == nodes - {x} - {f};
    }
  }

  /** Sum of the numbers of the nodes listed, each counted once. */
  lemma {:induction false} InfosGrowth(vv: VersionVector, other: VersionVector, now: Time, nodes: seq<NodeID>)
    requires Distinct(nodes)
    ensures Lengths(Infos(vv, other, nodes)) == Sum(Merged(vv, other, now), Elements(nodes)) - Sum(vv, Elements(nodes))
  {
    if nodes == [] {
      assert Elements(nodes) == {};
    } else {
      var rest, last := nodes[..|nodes| - 1], nodes[|nodes| - 1];
      InfosGrowth(vv, other, now, rest);
      assert last !in rest;
      assert Elements(nodes) - {last} == Elements(rest);
      SumWithout(vv, Elements(nodes), last);
      SumWithout(Merged(vv, other, now), Elements(nodes), last);
      MergedGet(vv, other, now, last);
      if Later(vv, other, last) {
        LengthsStep(Infos(vv, other, rest), InfoOf(vv, other, last));
      } else {
        assert Infos(vv, other, nodes) == Infos(vv, other, rest);
      }
    }
  }

  lemma LengthsStep(infos: seq<MissingDataInfo>, info: MissingDataInfo)
    ensures Lengths(infos + [info]) == Lengths(infos) + (info.high - info.low + 1)
  {
    assert (infos + [info])[..|infos|] == infos;
  }

  lemma {:induction false} SumSame(v: VersionVector, w: VersionVector, nodes: set<NodeID>)
    requires forall x | x in nodes :: v.Get(x) == w.Get(x)
    ensures Sum(v, nodes) == Sum(w, nodes)
    decreases |nodes|
  {
    if nodes != {} {
      var f := First(BY_NAME, nodes);
      assert |nodes - {f}| == |nodes| - 1;
      SumSame(v, w, nodes - {f});
    }
  }

  lemma {:induction false} SumSplit(v: VersionVector, a: set<NodeID>, b: set<NodeID>)
    requires a !! b
    ensures Sum(v, a + b) == Sum(v, a) + Sum(v, b)
    decreases |a|
  {
    if a == {} {
      assert a + b == b;
    } else {
      var f := First(BY_NAME, a);
      assert |a - {f}| == |a| - 1;
      SumSplit(v, a - {f}, b);
      SumWithout(v, a + b, f);
      assert a + b - {f} == (a - {f}) + b;
    }
  }

  /** The total length of the ranges reported is the growth of the sum of the vector, over any set
      of nodes that includes everyone heard of. */
  lemma ReportedTotal(vv: VersionVector, other: VersionVector, now: Time, everyone: set<NodeID>)
    requires other.entries.Keys <= everyone
    ensures Lengths(MissingInfo(vv, other)) == Sum(Merged(vv, other, now), everyone) - Sum(vv, everyone)
  {
    var heard := other.entries.Keys;
    ListingFacts(BY_NAME, heard);
    assert Elements(OrderedNodes(other)) == heard;
    InfosGrowth(vv, other, now, OrderedNodes(other));
    var quiet := everyone - heard;
    assert heard + quiet == everyone;
    SumSplit(vv, heard, quiet);
    SumSplit(Merged(vv, other, now), heard, quiet);
    SumSame(vv, Merged(vv, other, now), quiet);
  }
}
