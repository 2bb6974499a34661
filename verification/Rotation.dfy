/** Turn-taking round a ring of nodes: which nodes get a slot when every build serves the sender's
    own entry and then as many others as fit, starting from a cursor that moves on by the number
    of slots. Distances are counted from the cursor, so a build brings every node closer. */
module Rotation {
  import opened Nodes
  import opened Orders
  import opened Numbers
  import opened Selection
  import opened SelectionFacts
  import opened Runs

  function Dist(cursor: nat, e: nat, n: nat): (d: nat)
    requires cursor < n && e < n
    ensures d < n
  {
    if e >= cursor then e - cursor else e + n - cursor
  }

  /** How far the e-th node is from the cursor when the i-th build begins. */
  function Turn(start: nat, k: nat, n: nat, i: nat, e: nat): (d: nat)
    requires e < n
    ensures d < n
  {
    Dist(CursorAt(start, k, n, i) % n, e, n)
  }

  lemma DistAfter(cursor: nat, k: nat, n: nat, e: nat)
    requires 0 < k < n && cursor < n && e < n
    ensures var d := Dist(cursor, e, n);
            Dist((cursor + k) % n, e, n) == if d >= k then d - k else d + n - k
  {
    WrapOnce(cursor + k, n);
  }

  /** A build brings every node k places closer, and sends it round the ring once it is passed. */
  lemma TurnAfter(start: nat, k: nat, n: nat, i: nat, e: nat)
    requires 0 < k < n && e < n
    ensures var d, d' := Turn(start, k, n, i, e), Turn(start, k, n, i + 1, e);
            d' == if d >= k then d - k else d + n - k
  {
    var cursor := CursorAt(start, k, n, i);
    AddMod(cursor, k, n);
    DistAfter(cursor % n, k, n, e);
    WrapOnce((cursor + k) % n, n);
  }

  /** The nodes a build serves. */
  function Served(keys: set<NodeID>, pin: set<NodeID>, k: nat, cursor: nat): set<NodeID>
    requires |pin| <= k
  {
    Fill(keys, Rotated(Listing(BY_NAME, keys), cursor), pin, k - |pin|)
  }

  function NodeNo(keys: set<NodeID>, e: nat): NodeID
    requires e < |keys|
  {
    ListingSize(BY_NAME, keys);
    Listing(BY_NAME, keys)[e]
  }

  lemma NodeAtDist(xs: seq<NodeID>, cursor: nat, e: nat)
    requires e < |xs|
    ensures NodeAt(xs, cursor, Dist(cursor % |xs|, e, |xs|)) == xs[e]
  {
    WrapOnce(cursor % |xs| + Dist(cursor % |xs|, e, |xs|), |xs|);
  }

  lemma RotatedFacts(keys: set<NodeID>, cursor: nat, e: nat)
    requires e < |keys|
    ensures var order := Rotated(Listing(BY_NAME, keys), cursor);
            && Covers(order, keys, {}) && |order| == |keys|
            && order[Dist(cursor % |keys|, e, |keys|)] == NodeNo(keys, e)
  {
    var nodes := Listing(BY_NAME, keys);
    ListingSize(BY_NAME, keys);
    ListingCovers(BY_NAME, keys, keys, {});
    RotatedCovers(nodes, cursor, keys, {});
    NodeAtDist(nodes, cursor, e);
    RotatedAt(nodes, cursor, Dist(cursor % |keys|, e, |keys|));
  }

  /** Of the nodes closer to the cursor than d, all but the pinned one compete. */
  lemma {:induction false} CompetitorsBefore(order: seq<NodeID>, i: nat, d: nat, pin: set<NodeID>, p: nat)
    requires i <= d <= |order| && Distinct(order)
    requires p < |order| && pin == {order[p]}
    ensures FreshCount(order, i, d, pin) == d - i - if i <= p < d then 1 else 0
    decreases d - i
  {
    if i < d {
      assert order[i] in pin <==> i == p;
      CompetitorsBefore(order, i + 1, d, pin, p);
    }
  }

  /** Nobody is pinned: the k nodes from the cursor on are served. */
  lemma ServedFree(keys: set<NodeID>, k: nat, cursor: nat, e: nat)
    requires e < |keys|
    ensures NodeNo(keys, e) in Served(keys, {}, k, cursor) <==> Dist(cursor % |keys|, e, |keys|) < k
  {
    var order := Rotated(Listing(BY_NAME, keys), cursor);
    var d := Dist(cursor % |keys|, e, |keys|);
    RotatedFacts(keys, cursor, e);
    FillExact(keys, order, 0, {}, k, d);
    FreshAll(order, 0, d, {});
  }

  lemma ServedWith(keys: set<NodeID>, own: NodeID, k: nat, cursor: nat)
    requires 1 <= k
    ensures Served(keys, {own}, k, cursor) == Fill(keys, Rotated(Listing(BY_NAME, keys), cursor), {own}, k - 1)
  {
  }

  lemma PinnedFill(keys: set<NodeID>, order: seq<NodeID>, x: NodeID, own: NodeID, room: nat, d: nat, p: nat)
    requires Distinct(order) && (forall y | y in order :: y in keys) && d < |order| && p < |order|
    requires order[d] == x && order[p] == own && x != own
    ensures x in Fill(keys, order, {own}, room) <==> d - (if p < d then 1 else 0) < room
  {
    FillExact(keys, order, 0, {own}, room, d);
    CompetitorsBefore(order, 0, d, {own}, p);
  }

  lemma RotatedPinned(keys: set<NodeID>, cursor: nat, e: nat, o: nat, room: nat)
    requires e < |keys| && o < |keys| && NodeNo(keys, e) != NodeNo(keys, o)
    ensures var d, p := Dist(cursor % |keys|, e, |keys|), Dist(cursor % |keys|, o, |keys|);
            NodeNo(keys, e) in Fill(keys, Rotated(Listing(BY_NAME, keys), cursor), {NodeNo(keys, o)}, room) <==>
            d - (if p < d then 1 else 0) < room
  {
    RotatedFacts(keys, cursor, e);
    RotatedFacts(keys, cursor, o);
    PinnedFill(keys, Rotated(Listing(BY_NAME, keys), cursor), NodeNo(keys, e), NodeNo(keys, o), room,
               Dist(cursor % |keys|, e, |keys|), Dist(cursor % |keys|, o, |keys|));
  }

  /** The o-th node is pinned: another node is served when fewer than k - 1 competitors precede it. */
  lemma ServedPinned(keys: set<NodeID>, k: nat, cursor: nat, e: nat, o: nat)
    requires 1 <= k && e < |keys| && o < |keys| && NodeNo(keys, e) != NodeNo(keys, o)
    ensures var d, p := Dist(cursor % |keys|, e, |keys|), Dist(cursor % |keys|, o, |keys|);
            NodeNo(keys, e) in Served(keys, {NodeNo(keys, o)}, k, cursor) <==> d - (if p < d then 1 else 0) < k - 1
  {
    ServedWith(keys, NodeNo(keys, o), k, cursor);
    RotatedPinned(keys, cursor, e, o, k - 1);
  }

  // ---- Nobody pinned ----

  /** A node d places away is served within d / k + 1 builds. */
  lemma {:induction false} FreeTurnComes(keys: set<NodeID>, k: nat, start: nat, i: nat, e: nat, m: nat) returns (j: nat)
    requires 0 < k < |keys| && e < |keys|
    requires Turn(start, k, |keys|, i, e) < m * k
    ensures i <= j < i + m && NodeNo(keys, e) in Served(keys, {}, k, CursorAt(start, k, |keys|, j))
    decreases m
  {
    var n := |keys|;
    if Turn(start, k, n, i, e) < k {
      ServedFree(keys, k, CursorAt(start, k, n, i), e);
      j := i;
      assert m != 0;
    } else {
      TurnAfter(start, k, n, i, e);
      assert m * k - k == (m - 1) * k;
      j := FreeTurnComes(keys, k, start, i + 1, e, m - 1);
    }
  }

  // ---- The sender's own entry pinned ----

  /** Not being served last in its block, a node is served when its turn comes. */
  lemma {:induction false} PinnedTurnComes(keys: set<NodeID>, k: nat, start: nat, i: nat, e: nat, o: nat, m: nat)
    returns (j: nat)
    requires 0 < k < |keys| && e < |keys| && o < |keys| && NodeNo(keys, e) != NodeNo(keys, o)
    requires Turn(start, k, |keys|, i, e) < m * k && (Turn(start, k, |keys|, i, e) + 1) % k != 0
    ensures i <= j < i + m && NodeNo(keys, e) in Served(keys, {NodeNo(keys, o)}, k, CursorAt(start, k, |keys|, j))
    decreases m
  {
    var n := |keys|;
    var d := Turn(start, k, n, i, e);
    if d < k {
      ModUnique(k, 1, 0, k);
      ServedPinned(keys, k, CursorAt(start, k, n, i), e, o);
      j := i;
      assert m != 0;
    } else {
      TurnAfter(start, k, n, i, e);
      assert m * k - k == (m - 1) * k;
      ModMinus(d + 1, k);
      j := PinnedTurnComes(keys, k, start, i + 1, e, o, m - 1);
    }
  }

  lemma ModMinus(a: nat, k: nat)
    requires 0 < k <= a
    ensures (a - k) % k == a % k
  {
    ModUnique(a - k, a / k - 1, a % k, k);
  }

  /** A node that is served last in its block reaches distance k - 1, and goes to the far end. */
  lemma {:induction false} ReachesBlockEnd(k: nat, n: nat, start: nat, i: nat, e: nat, m: nat) returns (j: nat)
    requires 0 < k < n && e < n
    requires Turn(start, k, n, i, e) < m * k && (Turn(start, k, n, i, e) + 1) % k == 0
    ensures i <= j < i + m && Turn(start, k, n, j + 1, e) == n - 1
    decreases m
  {
    var d := Turn(start, k, n, i, e);
    TurnAfter(start, k, n, i, e);
    if d < k {
      if d + 1 < k { ModUnique(d + 1, 0, d + 1, k); }
      j := i;
      assert m != 0;
    } else {
      assert m * k - k == (m - 1) * k;
      ModMinus(d + 1, k);
      j := ReachesBlockEnd(k, n, start, i + 1, e, m - 1);
    }
  }

  /** When k does not divide n, nobody waits longer than two tours of the ring. */
  lemma PinnedServedInTwoTours(keys: set<NodeID>, k: nat, start: nat, e: nat, o: nat) returns (j: nat)
    requires 0 < k < |keys| && |keys| % k != 0
    requires e < |keys| && o < |keys| && NodeNo(keys, e) != NodeNo(keys, o)
    ensures j < 2 * CeilDiv(|keys|, k)
    ensures NodeNo(keys, e) in Served(keys, {NodeNo(keys, o)}, k, CursorAt(start, k, |keys|, j))
  {
    var n, m := |keys|, CeilDiv(|keys|, k);
    if (Turn(start, k, n, 0, e) + 1) % k != 0 {
      j := PinnedTurnComes(keys, k, start, 0, e, o, m);
    } else {
      var last := ReachesBlockEnd(k, n, start, 0, e, m);
      j := PinnedTurnComes(keys, k, start, last + 1, e, o, m);
    }
  }

  /** Blocks that k divides stay blocks: a node at the end of another block than the pinned one
      stays there, and is never served. */
  lemma {:induction false} NeverServed(keys: set<NodeID>, k: nat, start: nat, i: nat, e: nat, o: nat, m: nat, q: nat,
                                       p: nat, r: nat)
    requires 0 < k < |keys| && |keys| == m * k && r < k
    requires e < |keys| && o < |keys| && NodeNo(keys, e) != NodeNo(keys, o)
    requires Turn(start, k, |keys|, 0, e) == q * k + k - 1 && Turn(start, k, |keys|, 0, o) == p * k + r && p != q
    ensures NodeNo(keys, e) !in Served(keys, {NodeNo(keys, o)}, k, CursorAt(start, k, |keys|, i))
  {
    var q', p' := BlocksKeep(k, |keys|, start, i, e, o, m, q, p, r);
    ServedPinned(keys, k, CursorAt(start, k, |keys|, i), e, o);
    LastInBlock(q', p', r, k);
  }

  lemma LastInBlock(q: nat, p: nat, r: nat, k: nat)
    requires r < k && p != q
    ensures var d, own := q * k + k - 1, p * k + r; d - (if own < d then 1 else 0) >= k - 1
  {
    if q == 0 {
      assert p * k >= k;
    } else {
      assert q * k >= k;
    }
  }

  lemma {:induction false} BlocksKeep(k: nat, n: nat, start: nat, i: nat, e: nat, o: nat, m: nat, q: nat, p: nat,
                                      r: nat)
    returns (q': nat, p': nat)
    requires 0 < k < n && n == m * k && r < k && e < n && o < n
    requires Turn(start, k, n, 0, e) == q * k + k - 1 && Turn(start, k, n, 0, o) == p * k + r && p != q
    ensures Turn(start, k, n, i, e) == q' * k + k - 1 && Turn(start, k, n, i, o) == p' * k + r && p' != q'
    ensures q' < m && p' < m
  {
    if i == 0 {
      q', p' := q, p;
      BlockInRange(q, k - 1, k, m);
      BlockInRange(p, r, k, m);
    } else {
      q', p' := BlocksKeep(k, n, start, i - 1, e, o, m, q, p, r);
      BlockMoves(k, n, start, i - 1, e, m, q', k - 1);
      BlockMoves(k, n, start, i - 1, o, m, p', r);
      q', p' := (if q' == 0 then m else q') - 1, (if p' == 0 then m else p') - 1;
    }
  }

  lemma BlockMoves(k: nat, n: nat, start: nat, i: nat, e: nat, m: nat, q: nat, r: nat)
    requires 0 < k < n && n == m * k && r < k && e < n && q < m
    requires Turn(start, k, n, i, e) == q * k + r
    ensures Turn(start, k, n, i + 1, e) == (if q == 0 then m - 1 else q - 1) * k + r
  {
    TurnAfter(start, k, n, i, e);
    PreviousBlock(q, r, k, m);
  }

  lemma BlockInRange(q: nat, r: nat, k: nat, m: nat)
    requires 0 < k && r < k && q * k + r < m * k
    ensures q < m
  {
    if q >= m { MulMonotone(m, q, k); }
  }

  lemma PreviousBlock(q: nat, r: nat, k: nat, m: nat)
    requires 0 < k && r < k && q < m
    ensures var d := q * k + r;
            (if d >= k then d - k else d + m * k - k) == (if q == 0 then m - 1 else q - 1) * k + r
  {
    if q == 0 {
      assert (m - 1) * k == m * k - k;
    } else {
      assert q * k >= k;
      assert (q - 1) * k == q * k - k;
    }
  }

  /** The last place of some block that does not hold the own node. */
  lemma OtherBlock(own: nat, k: nat, m: nat) returns (q: nat, p: nat, r: nat)
    requires 0 < k < m * k && own < m * k
    ensures own == p * k + r && r < k && q != p && q * k + k - 1 < m * k
  {
    p, r := own / k, own % k;
    q := if p == 0 then 1 else 0;
    if m < 2 { MulMonotone(m, 1, k); }
    MulMonotone(2, m, k);
  }

  lemma VictimExists(k: nat, n: nat, m: nat, start: nat, o: nat) returns (e: nat, q: nat, p: nat, r: nat)
    requires 0 < k < n && n == m * k && o < n
    ensures e < n && e != o && p != q && r < k
    ensures Turn(start, k, n, 0, e) == q * k + k - 1 && Turn(start, k, n, 0, o) == p * k + r
  {
    q, p, r := OtherBlock(Turn(start, k, n, 0, o), k, m);
    e := NodeAtTurn(start % n, q * k + k - 1, n);
    LastInBlock(q, p, r, k);
    if e == o { BlocksDiffer(q, p, r, k); }
  }

  lemma BlocksDiffer(q: nat, p: nat, r: nat, k: nat)
    requires 0 < k && r < k && q != p
    ensures q * k + k - 1 != p * k + r
  {
    if q < p { MulStrict(q, p, k); } else { MulStrict(p, q, k); }
  }

  /** When k divides n, one node is never served, however long the run. */
  lemma PinnedStarves(keys: set<NodeID>, k: nat, m: nat, start: nat, o: nat) returns (e: nat)
    requires 0 < k < |keys| && |keys| == m * k && o < |keys|
    ensures e < |keys|
    ensures forall i: nat :: NodeNo(keys, e) !in Served(keys, {NodeNo(keys, o)}, k, CursorAt(start, k, |keys|, i))
  {
    var q, p, r;
    e, q, p, r := VictimExists(k, |keys|, m, start, o);
    ListingDistinct(keys, e, o);
    forall i: nat ensures NodeNo(keys, e) !in Served(keys, {NodeNo(keys, o)}, k, CursorAt(start, k, |keys|, i)) {
      NeverServed(keys, k, start, i, e, o, m, q, p, r);
    }
  }

  lemma NodeAtTurn(cursor: nat, d: nat, n: nat) returns (e: nat)
    requires cursor < n && d < n
    ensures e < n && Dist(cursor, e, n) == d
  {
    e := if cursor + d < n then cursor + d else cursor + d - n;
  }

  lemma ListingDistinct(keys: set<NodeID>, e: nat, o: nat)
    requires e < |keys| && o < |keys| && e != o
    ensures NodeNo(keys, e) != NodeNo(keys, o)
  {
    ListingSize(BY_NAME, keys);
    ListingBefore(BY_NAME, keys, Min(e, o), Max(e, o));
  }
}
