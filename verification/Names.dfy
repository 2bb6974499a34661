/** Names of the group's members: sequences of typed components under the canonical order of
    "NDN Packet Format Specification v0.3", section "Canonical Order". */
module Names {
  type Byte = b: nat | b < 256
  type ComponentType = t: nat | 1 <= t <= 0xFFFF witness 8

  datatype Component = Component(typ: ComponentType, value: seq<Byte>)

  /** A node identifier (NodeID in common.hpp); the empty name stands for "no node" (core.hpp, EMPTY_NODE_ID). */
  type Name = seq<Component>

  predicate LexLess(a: seq<nat>, b: seq<nat>) {
    b != [] && (a == [] || a[0] < b[0] || (a[0] == b[0] && LexLess(a[1..], b[1..])))
  }

  /** Components compare by type, then by length, then byte by byte. */
  function SortKey(c: Component): seq<nat> {
    [c.typ, |c.value|] + c.value
  }

  predicate ComponentLess(a: Component, b: Component) {
    LexLess(SortKey(a), SortKey(b))
  }

  predicate NameLess(a: Name, b: Name) {
    b != [] && (a == [] || ComponentLess(a[0], b[0]) || (a[0] == b[0] && NameLess(a[1..], b[1..])))
  }

  lemma LexIrreflexive(a: seq<nat>)
    ensures !LexLess(a, a)
  {
  }

  lemma LexTransitive(a: seq<nat>, b: seq<nat>, c: seq<nat>)
    requires LexLess(a, b) && LexLess(b, c)
    ensures LexLess(a, c)
  {
  }

  lemma LexTotal(a: seq<nat>, b: seq<nat>)
    ensures a == b || LexLess(a, b) || LexLess(b, a)
  {
    if a != [] && b != [] && a[0] == b[0] {
      LexTotal(a[1..], b[1..]);
      assert a == [a[0]] + a[1..] && b == [b[0]] + b[1..];
    }
  }

  lemma ComponentTotal(a: Component, b: Component)
    ensures a == b || ComponentLess(a, b) || ComponentLess(b, a)
  {
    LexTotal(SortKey(a), SortKey(b));
    if SortKey(a) == SortKey(b) {
      assert a.typ == SortKey(a)[0] && b.typ == SortKey(b)[0];
      assert a.value == SortKey(a)[2..] && b.value == SortKey(b)[2..];
    }
  }

  lemma {:induction false} NameIrreflexive(a: Name)
    ensures !NameLess(a, a)
  {
    if a != [] {
      LexIrreflexive(SortKey(a[0]));
      NameIrreflexive(a[1..]);
    }
  }

  lemma {:induction false} NameTransitive(a: Name, b: Name, c: Name)
    requires NameLess(a, b) && NameLess(b, c)
    ensures NameLess(a, c)
  {
    if a != [] {
      if ComponentLess(a[0], b[0]) && ComponentLess(b[0], c[0]) {
        LexTransitive(SortKey(a[0]), SortKey(b[0]), SortKey(c[0]));
      } else if a[0] == b[0] == c[0] && NameLess(a[1..], b[1..]) && NameLess(b[1..], c[1..]) {
        NameTransitive(a[1..], b[1..], c[1..]);
      }
    }
  }

  lemma {:induction false} NameTotal(a: Name, b: Name)
    ensures a == b || NameLess(a, b) || NameLess(b, a)
  {
    if a != [] && b != [] {
      ComponentTotal(a[0], b[0]);
      if a[0] == b[0] {
        NameTotal(a[1..], b[1..]);
        assert a == [a[0]] + a[1..] && b == [b[0]] + b[1..];
      }
    }
  }
}
