/** Finite sets of nodes listed in a strict total order: what iterating a std::map, or applying
    std::sort with one of the comparators of version-vector.cpp, produces. */
module Orders {
  import opened Collections
  import opened Nodes

  /** Descending by one key, then descending by another, then ascending by name: the shape of
      every comparator the program sorts with. A missing key counts as zero, so Ranking(map[], map[])
      is the iteration order of a std::map. */
  datatype Ranking = Ranking(primary: map<NodeID, real>, secondary: map<NodeID, int>) {
    function Primary(x: NodeID): real { if x in primary then primary[x] else 0.0 }

    function Secondary(x: NodeID): int { if x in secondary then secondary[x] else 0 }

    predicate Before(a: NodeID, b: NodeID) {
      Primary(a) > Primary(b) ||
      (Primary(a) == Primary(b) &&
       (Secondary(a) > Secondary(b) || (Secondary(a) == Secondary(b) && a.number < b.number)))
    }
  }

  const BY_NAME := Ranking(map[], map[])

  ghost predicate SortedBy(r: Ranking, xs: seq<NodeID>) {
    forall i, j | 0 <= i < j < |xs| :: r.Before(xs[i], xs[j])
  }

  ghost predicate Distinct(xs: seq<NodeID>) {
    forall i, j | 0 <= i < j < |xs| :: xs[i] != xs[j]
  }

  function Elements(xs: seq<NodeID>): set<NodeID> {
    set x | x in xs
  }

  /** The members of the set that m does not precede. */
  function Rivals(r: Ranking, s: set<NodeID>, m: NodeID): set<NodeID> {
    set y | y in s && y != m && !r.Before(m, y)
  }

  predicate IsFirst(r: Ranking, s: set<NodeID>, m: NodeID) {
    m in s && Rivals(r, s, m) == {}
  }

  lemma FirstPrecedes(r: Ranking, s: set<NodeID>, m: NodeID, y: NodeID)
    requires IsFirst(r, s, m) && y in s
    ensures y == m || r.Before(m, y)
  {
    assert y !in Rivals(r, s, m);
  }

  lemma {:induction false} HasFirst(r: Ranking, s: set<NodeID>) returns (m: NodeID)
    requires s != {}
    ensures IsFirst(r, s, m)
    decreases |s|
  {
    var x :| x in s;
    m := x;
    if s != {x} {
      assert s == (s - {x}) + {x};
      var f := HasFirst(r, s - {x});
      m := if r.Before(f, x) then f else x;
      forall y | y in s ensures y == m || r.Before(m, y) {
        if y != x { FirstPrecedes(r, s - {x}, f, y); }
      }
    }
  }

  lemma FirstUnique(r: Ranking, s: set<NodeID>, m: NodeID, m': NodeID)
    requires IsFirst(r, s, m) && IsFirst(r, s, m')
    ensures m == m'
  {
    FirstPrecedes(r, s, m, m');
    FirstPrecedes(r, s, m', m);
  }

  function First(r: Ranking, s: set<NodeID>): (m: NodeID)
    requires s != {}
    ensures m in s
  {
    assert exists m :: IsFirst(r, s, m) by { var m := HasFirst(r, s); }
    assert forall m, m' | IsFirst(r, s, m) && IsFirst(r, s, m') :: m == m' by {
      forall m, m' | IsFirst(r, s, m) && IsFirst(r, s, m') ensures m == m' { FirstUnique(r, s, m, m'); }
    }
    var m :| m in s && IsFirst(r, s, m);
    m
  }

  lemma FirstIsFirst(r: Ranking, s: set<NodeID>)
    requires s != {}
    ensures IsFirst(r, s, First(r, s))
  {
    var m := HasFirst(r, s);
  }

  /** The members of the set, first to last. */
  function Listing(r: Ranking, s: set<NodeID>): seq<NodeID>
    decreases |s|
  {
    if s == {} then []
    else
      var m := First(r, s);
      assert |s - {m}| == |s| - 1;
      [m] + Listing(r, s - {m})
  }

  lemma {:induction false} ListingSize(r: Ranking, s: set<NodeID>)
    ensures |Listing(r, s)| == |s|
    decreases |s|
  {
    if s != {} {
      assert |s - {First(r, s)}| == |s| - 1;
      ListingSize(r, s - {First(r, s)});
    }
  }

  /** A listing names exactly the members of the set, each once, in order. */
  lemma {:induction false} ListingFacts(r: Ranking, s: set<NodeID>)
    ensures SortedBy(r, Listing(r, s)) && Distinct(Listing(r, s))
    ensures forall k | 0 <= k < |Listing(r, s)| :: Listing(r, s)[k] in s
    ensures forall x | x in s :: x in Listing(r, s)
    decreases |s|
  {
    if s != {} {
      var m := First(r, s);
      assert |s - {m}| == |s| - 1;
      FirstIsFirst(r, s);
      var rest := Listing(r, s - {m});
      ListingFacts(r, s - {m});
      assert Listing(r, s) == [m] + rest;
      assert forall j | 0 <= j < |rest| :: r.Before(m, rest[j]) by {
        forall j | 0 <= j < |rest| ensures r.Before(m, rest[j]) { FirstPrecedes(r, s, m, rest[j]); }
      }
      forall x | x in s ensures x in Listing(r, s) {
        if x != m { assert x in rest; }
      }
    }
  }

  lemma ListingAt(r: Ranking, s: set<NodeID>, k: nat)
    requires k < |Listing(r, s)|
    ensures Listing(r, s)[k] in s
  {
    ListingFacts(r, s);
  }

  lemma ListingHas(r: Ranking, s: set<NodeID>, x: NodeID)
    requires x in s
    ensures x in Listing(r, s)
  {
    ListingFacts(r, s);
  }

  lemma ListingBefore(r: Ranking, s: set<NodeID>, j: nat, k: nat)
    requires j < k < |Listing(r, s)|
    ensures r.Before(Listing(r, s)[j], Listing(r, s)[k])
  {
    ListingFacts(r, s);
  }

  /** The listing is the only sorted sequence with these elements. */
  lemma {:induction false} ListingUnique(r: Ranking, s: set<NodeID>, xs: seq<NodeID>)
    requires SortedBy(r, xs) && Distinct(xs)
    requires forall x :: x in xs <==> x in s
    ensures xs == Listing(r, s)
    decreases |s|
  {
    if xs == [] {
      assert s == {};
    } else {
      assert xs[0] in s;
      assert IsFirst(r, s, xs[0]);
      FirstIsFirst(r, s);
      FirstUnique(r, s, xs[0], First(r, s));
      assert |s - {xs[0]}| == |s| - 1;
      forall x ensures x in xs[1..] <==> x in s - {xs[0]} {
        assert x in xs[1..] ==> exists i :: 1 <= i < |xs| && xs[i] == x;
      }
      ListingUnique(r, s - {xs[0]}, xs[1..]);
    }
  }

  lemma {:induction false} ElementsSize(xs: seq<NodeID>)
    ensures |Elements(xs)| <= |xs|
  {
    if xs != [] {
      ElementsSize(xs[1..]);
      assert Elements(xs) == {xs[0]} + Elements(xs[1..]);
    }
  }

  /** As many elements as positions: no element occurs twice. */
  lemma {:induction false} DistinctBySize(xs: seq<NodeID>)
    requires |Elements(xs)| == |xs|
    ensures Distinct(xs)
  {
    if xs != [] {
      var rest := xs[1..];
      assert Elements(xs) == {xs[0]} + Elements(rest);
      ElementsSize(rest);
      DistinctBySize(rest);
      assert xs[0] !in Elements(rest);
      forall i, j | 0 <= i < j < |xs| ensures xs[i] != xs[j] {
        assert xs[j] == rest[j - 1] && rest[j - 1] in Elements(rest);
        if i > 0 { assert xs[i] == rest[i - 1]; }
      }
    }
  }

  lemma SortedAt(r: Ranking, xs: seq<NodeID>, i: nat, j: nat)
    requires SortedBy(r, xs) && i < j < |xs|
    ensures r.Before(xs[i], xs[j])
  {
  }

  lemma IndexSorted(r: Ranking, xs: seq<NodeID>, x: NodeID, y: NodeID)
    requires SortedBy(r, xs) && x in xs && y in xs && r.Before(x, y)
    ensures IndexOf(xs, x) < IndexOf(xs, y)
  {
    var i, j := IndexOf(xs, x), IndexOf(xs, y);
    if j < i { SortedAt(r, xs, j, i); }
  }

  /** What comes first in the order has the smaller rank in the listing. */
  lemma RankSorted(r: Ranking, s: set<NodeID>, x: NodeID, y: NodeID)
    requires x in s && y in s && r.Before(x, y)
    ensures x in Listing(r, s) && y in Listing(r, s)
    ensures IndexOf(Listing(r, s), x) < IndexOf(Listing(r, s), y)
  {
    ListingHas(r, s, x);
    ListingHas(r, s, y);
    ListingFacts(r, s);
    IndexSorted(r, Listing(r, s), x, y);
  }
}
