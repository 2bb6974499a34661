/** The bytes on the wire, one by one: what any other implementation of the formats has to produce. */
module WireBytes {
  import opened Names
  import opened NameOrder
  import opened Tlv
  import opened VectorCodec
  import opened MappingCodec
  import Numbers

  // ---- Numbers ----

  /** Most significant byte first: the j-th of k bytes counts 256 to the power of k - 1 - j. */
  lemma {:induction false} ByteOf(n: nat, k: nat, j: nat)
    requires j < k
    ensures BigEndian(n, k)[j] == (n / Power256(k - 1 - j)) % 256
    decreases k
  {
    if j < k - 1 {
      ByteOf(n / 256, k - 1, j);
      DivideTwice(n, 256, Power256(k - 2 - j));
    }
  }

  lemma DivideTwice(n: nat, a: nat, b: nat)
    requires a > 0 && b > 0
    ensures a * b > 0 && n / a / b == n / (a * b)
  {
    var q, r := n / a, n % a;
    var q', r' := q / b, q % b;
    Regroup(n, a, b, q, q', r, r');
    Remainder(a, b, r, r');
    QuotientIs(n, a * b, q', a * r' + r);
  }

  lemma Regroup(n: nat, a: nat, b: nat, q: nat, q': nat, r: nat, r': nat)
    requires n == a * q + r && q == b * q' + r'
    ensures n == (a * b) * q' + (a * r' + r)
  {
    assert a * (b * q' + r') == a * (b * q') + a * r';
    assert a * (b * q') == (a * b) * q';
  }

  lemma Remainder(a: nat, b: nat, r: nat, r': nat)
    requires r < a && r' < b
    ensures a * r' + r < a * b
  {
    assert a * (b - 1 - r') >= 0;
    assert a * (b - 1 - r') == a * b - a - a * r';
  }

  lemma QuotientIs(n: nat, d: nat, q: nat, r: nat)
    requires d > 0 && r < d && n == d * q + r
    ensures n / d == q
  {
    var p := n / d;
    assert n == d * p + n % d;
    if p < q { Further(d, p, q); }
    if q < p { Further(d, q, p); }
  }

  lemma Further(d: nat, p: nat, q: nat)
    requires p < q
    ensures d * p + d <= d * q
  {
    Numbers.MulStrict(p, q, d);
    assert d * p == p * d && d * q == q * d;
  }

  /** Types and lengths below 253 take one byte; others a marker and two, four or eight. */
  lemma NumberLayout(n: nat, j: nat)
    requires n <= MAX64 && j + 1 < |VarNumber(n)|
    ensures |VarNumber(n)| == if n < 253 then 1 else if n <= 65535 then 3 else if n <= 4294967295 then 5 else 9
    ensures VarNumber(n)[0] == if n < 253 then n else if n <= 65535 then 253 else if n <= 4294967295 then 254 else 255
    ensures VarNumber(n)[j + 1] == (n / Power256(|VarNumber(n)| - 2 - j)) % 256
  {
    ByteOf(n, |VarNumber(n)| - 1, j);
  }

  /** A sequence number takes one, two, four or eight bytes. */
  lemma IntegerLayout(n: nat, j: nat)
    requires n <= MAX64 && j < |NonNegativeInteger(n)|
    ensures |NonNegativeInteger(n)| ==
            if n <= 255 then 1 else if n <= 65535 then 2 else if n <= 4294967295 then 4 else 8
    ensures NonNegativeInteger(n)[j] == (n / Power256(|NonNegativeInteger(n)| - 1 - j)) % 256
  {
    ByteOf(n, |NonNegativeInteger(n)|, j);
  }

  // ---- Elements ----

  lemma ShortElement(typ: nat, value: seq<Byte>)
    requires typ < 253 && |value| < 253
    ensures Element(typ, value) == [typ, |value|] + value
  {
  }

  /** A component that is a generic one, and short. */
  lemma ComponentLayout(value: seq<Byte>, rest: Name)
    requires |value| < 253
    ensures Concat(ComponentBlocks([Component(8, value)] + rest)) ==
            [8, |value|] + value + Concat(ComponentBlocks(rest))
  {
    var name := [Component(8, value)] + rest;
    assert name[1..] == rest;
    ConcatCons(Block(8, value), ComponentBlocks(rest));
    ShortElement(8, value);
  }

  /** An entry is of type 202; in it the name, of type 7, and the number, of type 204. */
  lemma EntryLayout(name: Name, seqNo: Number)
    requires var nv := NameBlock(name).value; |nv| + |NonNegativeInteger(seqNo)| + 4 < 253
    ensures var nv, num := NameBlock(name).value, NonNegativeInteger(seqNo);
            ElementOf(EntryBlock(name, seqNo)) ==
            [202, |nv| + |num| + 4] + ([7, |nv|] + nv + ([204, |num|] + num))
  {
    var nv, num := NameBlock(name).value, NonNegativeInteger(seqNo);
    ShortElement(7, nv);
    ShortElement(204, num);
    ShortElement(202, EntryBlock(name, seqNo).value);
  }

  /** The vector is of type 201; its value is one entry after another. */
  lemma VectorLayout(m: map<Name, Number>)
    ensures ElementOf(VectorBlock(m)) ==
            [201] + VarNumber(|VectorBlock(m).value|) + Concat(EntryBlocks(m, OrderedNames(m)))
  {
  }

  /** A mapping list is of type 205: the name of the node, then the pairs, the last one first. */
  lemma ListLayout(l: MappingList)
    ensures ElementOf(ListBlock(l)) ==
            [205] + VarNumber(|ListBlock(l).value|)
            + (ElementOf(NameBlock(l.nodeId)) + Concat(Reverse(PairBlocks(l.pairs))))
  {
    ConcatCons(NameBlock(l.nodeId), Reverse(PairBlocks(l.pairs)));
  }

  /** A pair is of type 206: the number, of type 204, the name, and the additional blocks, the last one
      first. */
  lemma PairLayout(p: Pair)
    ensures ElementOf(PairBlock(p)) ==
            [206] + VarNumber(|PairBlock(p).value|)
            + (ElementOf(Block(204, NonNegativeInteger(p.seqNo)))
               + (ElementOf(NameBlock(p.mapping.name)) + Concat(Reverse(p.mapping.extra))))
  {
    PairBytes(p);
  }

  // ---- The vector of the unit tests ----

  const ONE: seq<Byte> := [0x6F, 0x6E, 0x65]
  const TWO: seq<Byte> := [0x74, 0x77, 0x6F]

  function Named(text: seq<Byte>): Name { [Component(8, text)] }

  lemma OneBeforeTwo()
    ensures NameLess(Named(ONE), Named(TWO)) && !NameLess(Named(TWO), Named(ONE)) && Named(ONE) != Named(TWO)
  {
    var a, b := SortKey(Component(8, ONE)), SortKey(Component(8, TWO));
    assert a[1..][1..] == ONE && b[1..][1..] == TWO;
    assert LexLess(a[1..][1..], b[1..][1..]) && !LexLess(b[1..][1..], a[1..][1..]);
    assert LexLess(a[1..], b[1..]) && !LexLess(b[1..], a[1..]);
    assert Component(8, ONE) != Component(8, TWO) by { assert ONE[0] != TWO[0]; }
  }

  lemma OrderOfTwo(m: map<Name, Number>, a: Name, b: Name)
    requires m.Keys == {a, b} && NameLess(a, b) && !NameLess(b, a) && a != b
    ensures OrderedNames(m) == [a, b]
  {
    var xs := OrderedNames(m);
    InOrderFacts(m.Keys);
    assert |xs| == 2;
    assert xs[0] in xs && xs[1] in xs && NameLess(xs[0], xs[1]);
    assert a in xs && b in xs;
  }

  lemma SmallName(text: seq<Byte>)
    requires |text| == 3
    ensures NameBlock(Named(text)).value == [0x08, 0x03] + text
  {
    assert Named(text) + [] == Named(text);
    ComponentLayout(text, []);
  }

  lemma SmallNumber(seqNo: Number)
    requires seqNo <= 255
    ensures NonNegativeInteger(seqNo) == [seqNo]
  {
  }

  lemma Flat(text: seq<Byte>, n: Byte)
    requires |text| == 3
    ensures [0xCA, 0x0A] + ([0x07, 0x05] + ([0x08, 0x03] + text) + ([0xCC, 0x01] + [n])) ==
            [0xCA, 0x0A, 0x07, 0x05, 0x08, 0x03, text[0], text[1], text[2], 0xCC, 0x01, n]
  {
  }

  lemma SmallEntry(text: seq<Byte>, seqNo: Number)
    requires |text| == 3 && seqNo <= 255
    ensures ElementOf(EntryBlock(Named(text), seqNo)) ==
            [0xCA, 0x0A, 0x07, 0x05, 0x08, 0x03, text[0], text[1], text[2], 0xCC, 0x01, seqNo]
  {
    SmallName(text);
    SmallNumber(seqNo);
    EntryLayout(Named(text), seqNo);
    Flat(text, seqNo);
  }

  lemma TwoBlocks(a: Block, b: Block)
    ensures Concat([a, b]) == ElementOf(a) + ElementOf(b)
  {
    ConcatCons(a, [b]);
    ConcatCons(b, []);
    assert [a] + [b] == [a, b] && [b] + [] == [b] && ElementOf(b) + [] == ElementOf(b);
  }

  lemma EntriesOfTwo(m: map<Name, Number>, a: Name, b: Name)
    requires a in m && b in m
    ensures EntryBlocks(m, [a, b]) == [EntryBlock(a, m[a]), EntryBlock(b, m[b])]
  {
  }

  lemma VectorOfTwo(m: map<Name, Number>, a: Name, b: Name)
    requires a in m && b in m && OrderedNames(m) == [a, b]
    ensures VectorBlock(m).value == ElementOf(EntryBlock(a, m[a])) + ElementOf(EntryBlock(b, m[b]))
  {
    EntriesOfTwo(m, a, b);
    TwoBlocks(EntryBlock(a, m[a]), EntryBlock(b, m[b]));
  }

  /** The vector {one: 1, two: 2} is written with exactly these bytes. */
  lemma OneTwo(m: map<Name, Number>)
    requires m == map[Named(ONE) := 1, Named(TWO) := 2]
    ensures ElementOf(VectorBlock(m)) ==
            [0xC9, 0x18]
            + ([0xCA, 0x0A, 0x07, 0x05, 0x08, 0x03, 0x6F, 0x6E, 0x65, 0xCC, 0x01, 0x01]
               + [0xCA, 0x0A, 0x07, 0x05, 0x08, 0x03, 0x74, 0x77, 0x6F, 0xCC, 0x01, 0x02])
  {
    OneBeforeTwo();
    OrderOfTwo(m, Named(ONE), Named(TWO));
    VectorOfTwo(m, Named(ONE), Named(TWO));
    SmallEntry(ONE, 1);
    SmallEntry(TWO, 2);
    ShortElement(0xC9, VectorBlock(m).value);
  }
}
