/** What the passes of the selector add, without the lists they walk: of the entries not selected yet
    those that fewer than so many others precede. */
module Ranks {
  import opened Collections
  import opened Nodes
  import opened Orders
  import opened Numbers
  import opened VersionVectors
  import opened Selection
  import opened SelectionFacts
  import opened Scoring

  /** The members of the set that come before x. */
  function Ahead(r: Ranking, s: set<NodeID>, x: NodeID): set<NodeID> {
    set y | y in s && r.Before(y, x)
  }

  /** The first k members of the set. */
  function FirstOf(r: Ranking, s: set<NodeID>, k: nat): set<NodeID> {
    set x | x in s && |Ahead(r, s, x)| < k
  }

  lemma DistinctRest(xs: seq<NodeID>)
    requires xs != [] && Distinct(xs)
    ensures Distinct(xs[1..]) && xs[0] !in xs[1..]
  {
  }

  lemma PlaceOf(xs: seq<NodeID>, k: nat)
    requires Distinct(xs) && k < |xs|
    ensures IndexOf(xs, xs[k]) == k
  {
  }

  lemma {:induction false} DistinctSize(xs: seq<NodeID>)
    requires Distinct(xs)
    ensures |Elements(xs)| == |xs|
  {
    if xs != [] {
      var rest := xs[1..];
      DistinctRest(xs);
      DistinctSize(rest);
      assert Elements(xs) == {xs[0]} + Elements(rest);
    }
  }

  lemma AheadInSorted(r: Ranking, xs: seq<NodeID>, j: nat, y: NodeID)
    requires SortedBy(r, xs) && j < |xs|
    ensures y in xs && r.Before(y, xs[j]) <==> y in xs[..j]
  {
    if y in xs {
      var i := IndexOf(xs, y);
      if i < j {
        assert xs[..j][i] == y;
        SortedAt(r, xs, i, j);
      } else if j < i {
        SortedAt(r, xs, j, i);
      }
    }
    if y in xs[..j] {
      var i :| 0 <= i < j && xs[..j][i] == y;
      SortedAt(r, xs, i, j);
    }
  }

  lemma AheadIsPrefix(r: Ranking, s: set<NodeID>, j: nat)
    requires j < |Listing(r, s)|
    ensures Ahead(r, s, Listing(r, s)[j]) == Elements(Listing(r, s)[..j])
  {
    var xs := Listing(r, s);
    ListingFacts(r, s);
    forall y ensures y in Ahead(r, s, xs[j]) <==> y in Elements(xs[..j]) {
      AheadInSorted(r, xs, j, y);
    }
  }

  /** The place of an entry in a list sorted by an order is the number of entries before it. */
  lemma PlaceIsCount(r: Ranking, s: set<NodeID>, x: NodeID)
    requires x in s
    ensures x in Listing(r, s) && IndexOf(Listing(r, s), x) == |Ahead(r, s, x)|
  {
    var xs := Listing(r, s);
    ListingFacts(r, s);
    var j := IndexOf(xs, x);
    AheadIsPrefix(r, s, j);
    assert Distinct(xs[..j]);
    DistinctSize(xs[..j]);
  }

  lemma OneMoreFresh(rest: set<NodeID>, x: NodeID, sel: set<NodeID>)
    requires x !in rest
    ensures |{x} + rest - sel| == |rest - sel| + if x in sel then 0 else 1
  {
    assert {x} + rest - sel == (rest - sel) + if x in sel then {} else {x};
  }

  lemma {:induction false} FreshIsSize(order: seq<NodeID>, i: nat, j: nat, sel: set<NodeID>)
    requires i <= j <= |order| && Distinct(order)
    ensures FreshCount(order, i, j, sel) == |Elements(order[i..j]) - sel|
    decreases j - i
  {
    if i < j {
      FreshIsSize(order, i + 1, j, sel);
      HeadApart(order, i, j);
      OneMoreFresh(Elements(order[i + 1..j]), order[i], sel);
    } else {
      assert order[i..j] == [];
    }
  }

  lemma HeadApart(order: seq<NodeID>, i: nat, j: nat)
    requires i < j <= |order| && Distinct(order)
    ensures Elements(order[i..j]) == {order[i]} + Elements(order[i + 1..j]) && order[i] !in Elements(order[i + 1..j])
  {
    var rest := order[i + 1..j];
    assert order[i..j] == [order[i]] + rest;
    forall k | 0 <= k < |rest| ensures rest[k] != order[i] { assert rest[k] == order[i + 1 + k]; }
  }

  lemma AddedAt(known: set<NodeID>, s: set<NodeID>, r: Ranking, sel: set<NodeID>, room: nat, x: NodeID)
    requires s <= known && x in s - sel
    ensures x in Fill(known, Listing(r, s), sel, room) <==> |Ahead(r, s - sel, x)| < room
  {
    var xs := Listing(r, s);
    PlaceIsCount(r, s, x);
    ListingFacts(r, s);
    var j := IndexOf(xs, x);
    AheadIsPrefix(r, s, j);
    assert xs[0..j] == xs[..j];
    FreshIsSize(xs, 0, j, sel);
    assert Ahead(r, s - sel, x) == Ahead(r, s, x) - sel;
    FillExact(known, xs, 0, sel, room, j);
  }

  lemma {:induction false} OthersLeft(known: set<NodeID>, order: seq<NodeID>, i: nat, sel: set<NodeID>, room: nat,
                                      x: NodeID)
    requires i <= |order| && x !in sel && x !in order
    ensures x !in FillFrom(known, order, i, sel, room)
    decreases |order| - i
  {
    if i < |order| && room > 0 {
      if order[i] in known && order[i] !in sel {
        OthersLeft(known, order, i + 1, sel + {order[i]}, room - 1, x);
      } else {
        OthersLeft(known, order, i + 1, sel, room, x);
      }
    }
  }

  /** A pass over these entries in order adds the first of those not selected. */
  lemma FirstAdded(known: set<NodeID>, s: set<NodeID>, r: Ranking, sel: set<NodeID>, room: nat)
    requires s <= known
    ensures Fill(known, Listing(r, s), sel, room) == sel + FirstOf(r, s - sel, room)
  {
    FillBounds(known, Listing(r, s), 0, sel, room);
    ListingFacts(r, s);
    forall x | x !in sel
      ensures x in Fill(known, Listing(r, s), sel, room) <==> x in s - sel && |Ahead(r, s - sel, x)| < room
    {
      if x in s {
        AddedAt(known, s, r, sel, room, x);
      } else {
        OthersLeft(known, Listing(r, s), 0, sel, room, x);
      }
    }
  }

  /** A pass by recency. */
  lemma RecentAdded(vv: VersionVector, req: Request, sel: set<NodeID>, budget: nat)
    ensures AddRecent(vv, req, sel, budget) ==
            sel + FirstOf(RecencyOrder(vv), vv.entries.Keys - sel, Room(req.maxEntries, sel, budget))
  {
    FirstAdded(vv.entries.Keys, vv.entries.Keys, RecencyOrder(vv), sel, Room(req.maxEntries, sel, budget));
  }

  // ---- Round the cursor ----

  /** Nearest to the cursor first, going round the nodes in the order of their names. */
  function TurnOrder(vv: VersionVector, startIndex: nat): Ranking {
    Ranking(map k | k in vv.entries :: -(RotationOffset(vv, startIndex, k) as real), map[])
  }

  lemma TurnBack(o: nat, i: nat, n: nat)
    requires i < n && o < n
    ensures ((o + i) % n + n - o) % n == i
  {
    WrapOnce(o + i, n);
    WrapOnce((o + i) % n + n - o, n);
  }

  lemma OffsetOfPlace(vv: VersionVector, startIndex: nat, k: nat)
    requires k < |OrderedNodes(vv)|
    ensures var n := |OrderedNodes(vv)|;
            && OrderedNodes(vv)[k] in vv.entries
            && RotationOffset(vv, startIndex, OrderedNodes(vv)[k]) == (k + n - startIndex % n) % n
  {
    ListingFacts(BY_NAME, vv.entries.Keys);
    PlaceOf(OrderedNodes(vv), k);
  }

  /** The entry at this distance from the cursor. */
  lemma OffsetAt(vv: VersionVector, startIndex: nat, i: nat)
    requires i < |OrderedNodes(vv)|
    ensures NodeAt(OrderedNodes(vv), startIndex, i) in vv.entries
    ensures RotationOffset(vv, startIndex, NodeAt(OrderedNodes(vv), startIndex, i)) == i
  {
    var n := |OrderedNodes(vv)|;
    OffsetOfPlace(vv, startIndex, (startIndex % n + i) % n);
    TurnBack(startIndex % n, i, n);
  }

  lemma RotatedByTurn(vv: VersionVector, startIndex: nat)
    ensures Rotated(OrderedNodes(vv), startIndex) == Listing(TurnOrder(vv, startIndex), vv.entries.Keys)
  {
    var order := Rotated(OrderedNodes(vv), startIndex);
    ListingCovers(BY_NAME, vv.entries.Keys, vv.entries.Keys, {});
    RotatedCovers(OrderedNodes(vv), startIndex, vv.entries.Keys, {});
    forall i, j | 0 <= i < j < |order| ensures TurnOrder(vv, startIndex).Before(order[i], order[j]) {
      RotatedOffset(vv, startIndex, i);
      RotatedOffset(vv, startIndex, j);
    }
    ListingUnique(TurnOrder(vv, startIndex), vv.entries.Keys, order);
  }

  lemma RotatedOffset(vv: VersionVector, startIndex: nat, i: nat)
    requires i < |Rotated(OrderedNodes(vv), startIndex)|
    ensures var x := Rotated(OrderedNodes(vv), startIndex)[i];
            x in vv.entries && RotationOffset(vv, startIndex, x) == i
  {
    RotatedAt(OrderedNodes(vv), startIndex, i);
    OffsetAt(vv, startIndex, i);
  }

  /** A pass round the cursor. */
  lemma TurnAdded(vv: VersionVector, req: Request, sel: set<NodeID>, budget: nat)
    ensures AddRoundRobin(vv, req, sel, budget) ==
            sel + FirstOf(TurnOrder(vv, req.startIndex), vv.entries.Keys - sel, Room(req.maxEntries, sel, budget))
  {
    RotatedByTurn(vv, req.startIndex);
    FirstAdded(vv.entries.Keys, vv.entries.Keys, TurnOrder(vv, req.startIndex), sel, Room(req.maxEntries, sel, budget));
  }
}
