/** Finite sets of names in canonical order: the iteration order of a std::map keyed by names. */
module NameOrder {
  import opened Collections
  import opened Names
  import opened Nodes

  predicate IsLeast(s: set<Name>, m: Name) {
    m in s && forall y | y in s :: y == m || NameLess(m, y)
  }

  lemma {:induction false} HasLeast(s: set<Name>) returns (m: Name)
    requires s != {}
    ensures IsLeast(s, m)
    decreases |s|
  {
    var x :| x in s;
    if s == {x} {
      m := x;
    } else {
      assert s == (s - {x}) + {x};
      var l := HasLeast(s - {x});
      m := LeastOfTwo(s, x, l);
    }
  }

  lemma LeastOfTwo(s: set<Name>, x: Name, l: Name) returns (m: Name)
    requires x in s && IsLeast(s - {x}, l)
    ensures IsLeast(s, m)
  {
    NameTotal(x, l);
    m := if NameLess(x, l) then x else l;
    forall y | y in s ensures y == m || NameLess(m, y) {
      if y != x {
        assert y in s - {x};
        if y != l && m == x { NameTransitive(x, l, y); }
      }
    }
  }

  lemma LeastUnique(s: set<Name>, a: Name, b: Name)
    requires IsLeast(s, a) && IsLeast(s, b)
    ensures a == b
  {
    if a != b {
      NameTransitive(a, b, a);
      NameIrreflexive(a);
    }
  }

  function Least(s: set<Name>): (m: Name)
    requires s != {}
    ensures m in s
  {
    assert exists m :: IsLeast(s, m) by { var m := HasLeast(s); }
    assert forall m, m' | IsLeast(s, m) && IsLeast(s, m') :: m == m' by {
      forall m, m' | IsLeast(s, m) && IsLeast(s, m') ensures m == m' { LeastUnique(s, m, m'); }
    }
    var m :| m in s && IsLeast(s, m);
    m
  }

  lemma LeastIsLeast(s: set<Name>)
    requires s != {}
    ensures IsLeast(s, Least(s))
  {
    var m := HasLeast(s);
  }

  function InOrder(s: set<Name>): seq<Name>
    decreases |s|
  {
    if s == {} then []
    else
      assert |s - {Least(s)}| == |s| - 1;
      [Least(s)] + InOrder(s - {Least(s)})
  }

  ghost predicate Increasing(xs: seq<Name>) {
    forall i, j | 0 <= i < j < |xs| :: NameLess(xs[i], xs[j])
  }

  /** Every name once, in increasing order. */
  lemma {:induction false} InOrderFacts(s: set<Name>)
    ensures Increasing(InOrder(s)) && |InOrder(s)| == |s|
    ensures forall x :: x in InOrder(s) <==> x in s
    decreases |s|
  {
    if s != {} {
      var m := Least(s);
      LeastIsLeast(s);
      assert |s - {m}| == |s| - 1;
      InOrderFacts(s - {m});
      PrependIncreases(m, InOrder(s - {m}));
    }
  }

  lemma PrependIncreases(m: Name, xs: seq<Name>)
    requires Increasing(xs) && forall x | x in xs :: NameLess(m, x)
    ensures Increasing([m] + xs)
  {
    var all := [m] + xs;
    forall i, j | 0 <= i < j < |all| ensures NameLess(all[i], all[j]) {
      assert all[j] == xs[j - 1];
      if i > 0 { assert all[i] == xs[i - 1]; }
    }
  }

  // ---- Names as numbers ----

  /** The number of a name among the names of a group: its place in the canonical order, with zero
      kept for the empty name. */
  function NumberOf(group: set<Name>, name: Name): NodeID
    requires name == [] || name in group - {[]}
  {
    if name == [] then EMPTY_NODE_ID
    else
      InOrderFacts(group - {[]});
      NodeID(1 + IndexOf(InOrder(group - {[]}), name))
  }

  lemma PositionOrder(xs: seq<Name>, a: Name, b: Name)
    requires Increasing(xs) && a in xs && b in xs
    ensures NameLess(a, b) <==> IndexOf(xs, a) < IndexOf(xs, b)
    ensures IndexOf(xs, a) == IndexOf(xs, b) ==> a == b
  {
    var i, j := IndexOf(xs, a), IndexOf(xs, b);
    NameIrreflexive(a);
    if j < i {
      if NameLess(a, b) { NameTransitive(a, b, a); }
    }
  }

  lemma NumberIs(group: set<Name>, name: Name)
    requires name in group - {[]}
    ensures name in InOrder(group - {[]}) && NumberOf(group, name) == NodeID(1 + IndexOf(InOrder(group - {[]}), name))
  {
    InOrderFacts(group - {[]});
  }

  lemma NamedCompare(group: set<Name>, a: Name, b: Name)
    requires a in group - {[]} && b in group - {[]}
    ensures NameLess(a, b) <==> NumberOf(group, a).number < NumberOf(group, b).number
    ensures NumberOf(group, a) == NumberOf(group, b) ==> a == b
    ensures NumberOf(group, a).number > 0
  {
    NumberIs(group, a);
    NumberIs(group, b);
    PositionOrder(InOrder(group - {[]}), a, b) by { InOrderFacts(group - {[]}); }
  }

  /** Numbers compare as the names do, and only the empty name has the number that stands for no
      node: nodes can be told apart and ordered by number. */
  lemma NumbersCompare(group: set<Name>, a: Name, b: Name)
    requires (a == [] || a in group - {[]}) && (b == [] || b in group - {[]})
    ensures NameLess(a, b) <==> NumberOf(group, a).number < NumberOf(group, b).number
    ensures a == b <==> NumberOf(group, a) == NumberOf(group, b)
    ensures NumberOf(group, a) == EMPTY_NODE_ID <==> a == []
  {
    if a != [] { NamedCompare(group, a, if b == [] then a else b); }
    if b != [] { NamedCompare(group, b, b); }
  }
}
