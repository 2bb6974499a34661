/** version-vector.cpp, encode and the decoding constructor: a version vector on the wire. */
module VectorCodec {
  import opened Collections
  import opened Names
  import opened NameOrder
  import opened Tlv

  const TLV_NAME: nat := 7
  const TLV_STATE_VECTOR: nat := 201
  const TLV_STATE_VECTOR_ENTRY: nat := 202
  const TLV_SEQ_NO: nat := 204

  type Number = n: nat | n <= MAX64

  // ---- Names ----

  function ComponentBlocks(name: Name): seq<Block> {
    if name == [] then [] else [Block(name[0].typ, name[0].value)] + ComponentBlocks(name[1..])
  }

  function NameBlock(name: Name): Block {
    Block(TLV_NAME, Concat(ComponentBlocks(name)))
  }

  function ComponentsOf(bs: seq<Block>): Result<Name> {
    if bs == [] then Ok([])
    else if bs[0].typ == 0 || bs[0].typ > 0xFFFF then Err(WrongType(0, bs[0].typ))
    else
      match ComponentsOf(bs[1..])
      case Err(e) => Err(e)
      case Ok(rest) => Ok([Component(bs[0].typ, bs[0].value)] + rest)
  }

  function DecodeName(b: Block): Result<Name> {
    if b.typ != TLV_NAME then Err(WrongType(TLV_NAME, b.typ))
    else
      match Elements(b.value)
      case Err(e) => Err(e)
      case Ok(bs) => ComponentsOf(bs)
  }

  /** Blocks that fit into a buffer fit one by one. */
  lemma {:induction false} ConcatBounds(bs: seq<Block>, from: nat, i: nat)
    requires from <= i < |bs|
    ensures |bs[i].value| <= |ElementOf(bs[i])| <= |ConcatFrom(bs, from)|
    decreases i - from
  {
    if from < i { ConcatBounds(bs, from + 1, i); }
  }

  lemma {:induction false} ComponentsInverse(name: Name)
    ensures |ComponentBlocks(name)| == |name| && ComponentsOf(ComponentBlocks(name)) == Ok(name)
    ensures forall i | 0 <= i < |name| :: ComponentBlocks(name)[i] == Block(name[i].typ, name[i].value)
  {
    if name != [] {
      ComponentsInverse(name[1..]);
      assert ComponentBlocks(name)[1..] == ComponentBlocks(name[1..]);
      assert [Component(name[0].typ, name[0].value)] + name[1..] == name;
    }
  }

  lemma ComponentsWellFormed(name: Name, i: nat)
    requires |NameBlock(name).value| <= MAX64 && i < |ComponentBlocks(name)|
    ensures WellFormed(ComponentBlocks(name)[i])
  {
    ComponentsInverse(name);
    ConcatBounds(ComponentBlocks(name), 0, i);
  }

  lemma NameInverse(name: Name)
    requires |NameBlock(name).value| <= MAX64
    ensures DecodeName(NameBlock(name)) == Ok(name)
  {
    forall i | 0 <= i < |ComponentBlocks(name)| ensures WellFormed(ComponentBlocks(name)[i]) {
      ComponentsWellFormed(name, i);
    }
    ElementsInverse(ComponentBlocks(name));
    ComponentsInverse(name);
  }

  // ---- Entries ----

  function SeqBlock(seqNo: Number): Block {
    Block(TLV_SEQ_NO, NonNegativeInteger(seqNo))
  }

  function EntryBlock(name: Name, seqNo: Number): Block {
    Block(TLV_STATE_VECTOR_ENTRY, ElementOf(NameBlock(name)) + ElementOf(SeqBlock(seqNo)))
  }

  datatype Entry = Entry(name: Name, seqNo: Number)

  /** The name is the first element and the number the second, whatever the type of the second. */
  function DecodeEntry(b: Block): Result<Entry> {
    if b.typ != TLV_STATE_VECTOR_ENTRY then Err(WrongType(TLV_STATE_VECTOR_ENTRY, b.typ))
    else
      match Elements(b.value)
      case Err(e) => Err(e)
      case Ok(es) =>
        if |es| < 1 then Err(OutOfRange)
        else
          match DecodeName(es[0])
          case Err(e) => Err(e)
          case Ok(name) =>
            if |es| < 2 then Err(OutOfRange)
            else
              match ReadNonNegativeInteger(es[1])
              case Err(e) => Err(e)
              case Ok(n) => NumberInRange(es[1]); Ok(Entry(name, n))
  }

  lemma {:induction false} FromBigEndianBound(bs: seq<Byte>)
    ensures FromBigEndian(bs) < Power256(|bs|)
  {
    if bs != [] { FromBigEndianBound(bs[..|bs| - 1]); }
  }

  lemma NumberInRange(b: Block)
    ensures ReadNonNegativeInteger(b).Ok? ==> ReadNonNegativeInteger(b).value <= MAX64
  {
    Powers();
    FromBigEndianBound(b.value);
  }

  lemma TwoElements(a: Block, b: Block)
    requires WellFormed(a) && WellFormed(b)
    ensures Elements(ElementOf(a) + ElementOf(b)) == Ok([a, b])
  {
    ElementsCons(a, ElementOf(b));
    ElementsCons(b, []);
    assert ElementOf(b) + [] == ElementOf(b);
    assert [b] + [] == [b] && [a] + [b] == [a, b];
  }

  lemma ElementLonger(b: Block)
    ensures |b.value| <= |ElementOf(b)|
  {
  }

  lemma EntryInverse(name: Name, seqNo: Number)
    requires |EntryBlock(name, seqNo).value| <= MAX64
    ensures DecodeEntry(EntryBlock(name, seqNo)) == Ok(Entry(name, seqNo))
  {
    ElementLonger(NameBlock(name));
    NameInverse(name);
    NonNegativeIntegerInverse(TLV_SEQ_NO, seqNo);
    TwoElements(NameBlock(name), SeqBlock(seqNo));
  }

  // ---- Vectors ----

  ghost predicate Listed(m: map<Name, Number>, names: seq<Name>) {
    forall i | 0 <= i < |names| :: names[i] in m
  }

  /** The entries of the listed nodes, in that order. */
  function EntryBlocks(m: map<Name, Number>, names: seq<Name>): (bs: seq<Block>)
    requires Listed(m, names)
  {
    seq(|names|, i requires 0 <= i < |names| => EntryBlock(names[i], m[names[i]]))
  }

  function OrderedNames(m: map<Name, Number>): (xs: seq<Name>)
    ensures Listed(m, xs)
  {
    InOrderFacts(m.Keys);
    InOrder(m.Keys)
  }

  /** The encoding as a block; on the wire it is ElementOf(VectorBlock(m)). */
  function VectorBlock(m: map<Name, Number>): Block {
    Block(TLV_STATE_VECTOR, Concat(EntryBlocks(m, OrderedNames(m))))
  }

  /** What the first n entries say; later entries replace earlier ones for the same node. */
  function DecodeEntries(bs: seq<Block>, n: nat): Result<map<Name, Number>>
    requires n <= |bs|
  {
    if n == 0 then Ok(map[])
    else
      match DecodeEntries(bs, n - 1)
      case Err(e) => Err(e)
      case Ok(m) =>
        match DecodeEntry(bs[n - 1])
        case Err(e) => Err(e)
        case Ok(entry) => Ok(m[entry.name := entry.seqNo])
  }

  /** The decoding constructor. */
  function DecodeVector(b: Block): Result<map<Name, Number>> {
    if b.typ != TLV_STATE_VECTOR then Err(WrongType(TLV_STATE_VECTOR, b.typ))
    else
      match Elements(b.value)
      case Err(e) => Err(e)
      case Ok(bs) => DecodeEntries(bs, |bs|)
  }

  function Restricted(m: map<Name, Number>, names: seq<Name>, n: nat): map<Name, Number>
    requires Listed(m, names) && n <= |names|
  {
    if n == 0 then map[] else Restricted(m, names, n - 1)[names[n - 1] := m[names[n - 1]]]
  }

  lemma {:induction false} RestrictedIs(m: map<Name, Number>, names: seq<Name>, n: nat, x: Name)
    requires Listed(m, names) && n <= |names|
    ensures x in Restricted(m, names, n) <==> exists i :: 0 <= i < n && names[i] == x
    ensures x in Restricted(m, names, n) ==> x in m && Restricted(m, names, n)[x] == m[x]
  {
    if n > 0 { RestrictedIs(m, names, n - 1, x); }
  }

  /** The encoding fits into a buffer. */
  predicate VectorFits(m: map<Name, Number>) {
    |VectorBlock(m).value| <= MAX64
  }

  lemma EntryFits(m: map<Name, Number>, names: seq<Name>, i: nat)
    requires Listed(m, names) && |Concat(EntryBlocks(m, names))| <= MAX64 && i < |names|
    ensures WellFormed(EntryBlocks(m, names)[i])
    ensures DecodeEntry(EntryBlocks(m, names)[i]) == Ok(Entry(names[i], m[names[i]]))
  {
    ConcatBounds(EntryBlocks(m, names), 0, i);
    EntryInverse(names[i], m[names[i]]);
  }

  /** The i-th block decodes to the entry of the i-th name. */
  ghost predicate EntryAt(bs: seq<Block>, m: map<Name, Number>, names: seq<Name>, i: nat) {
    i < |bs| && i < |names| && names[i] in m && DecodeEntry(bs[i]) == Ok(Entry(names[i], m[names[i]]))
  }

  ghost predicate PrefixDecodes(bs: seq<Block>, m: map<Name, Number>, names: seq<Name>, n: nat)
    requires Listed(m, names) && n <= |bs| == |names|
  {
    DecodeEntries(bs, n) == Ok(Restricted(m, names, n))
  }

  lemma NothingDecodes(bs: seq<Block>, m: map<Name, Number>, names: seq<Name>)
    requires Listed(m, names) && |bs| == |names|
    ensures PrefixDecodes(bs, m, names, 0)
  {
  }

  lemma DecodeStep(bs: seq<Block>, m: map<Name, Number>, names: seq<Name>, n: nat)
    requires Listed(m, names) && 0 < n <= |bs| == |names|
    requires PrefixDecodes(bs, m, names, n - 1) && EntryAt(bs, m, names, n - 1)
    ensures PrefixDecodes(bs, m, names, n)
  {
  }

  lemma {:induction false} EntriesInverse(bs: seq<Block>, m: map<Name, Number>, names: seq<Name>, n: nat)
    requires Listed(m, names) && n <= |bs| == |names|
    requires forall i | 0 <= i < n :: EntryAt(bs, m, names, i)
    ensures PrefixDecodes(bs, m, names, n)
    decreases n
  {
    if n == 0 {
      NothingDecodes(bs, m, names);
    } else {
      EntriesInverse(bs, m, names, n - 1);
      DecodeStep(bs, m, names, n);
    }
  }

  lemma AllRestricted(m: map<Name, Number>)
    ensures Restricted(m, OrderedNames(m), |OrderedNames(m)|) == m
  {
    var names := OrderedNames(m);
    forall x ensures x in Restricted(m, names, |names|) <==> x in m
      ensures x in m ==> Restricted(m, names, |names|)[x] == m[x]
    {
      RestrictedIs(m, names, |names|, x);
      if x in m {
        InOrderFacts(m.Keys);
        assert names[IndexOf(names, x)] == x;
      }
    }
  }

  /** Decoding what was encoded gives the same map back. */
  lemma VectorInverse(m: map<Name, Number>)
    requires VectorFits(m)
    ensures DecodeVector(VectorBlock(m)) == Ok(m)
  {
    var names := OrderedNames(m);
    var bs := EntryBlocks(m, names);
    forall i | 0 <= i < |bs| ensures WellFormed(bs[i]) && EntryAt(bs, m, names, i) { EntryFits(m, names, i); }
    EntriesInverse(bs, m, names, |names|);
    ElementsInverse(bs);
    AllRestricted(m);
  }

  /** From the bytes of the buffer to the map and back; nothing is left over. */
  lemma WireInverse(m: map<Name, Number>, rest: seq<Byte>)
    requires VectorFits(m)
    ensures ReadElement(ElementOf(VectorBlock(m)) + rest) == Ok((VectorBlock(m), rest))
    ensures DecodeVector(VectorBlock(m)) == Ok(m)
  {
    ReadElementInverse(VectorBlock(m), rest);
    VectorInverse(m);
  }

  /** Different vectors have different encodings. */
  lemma EncodingInjective(m: map<Name, Number>, m': map<Name, Number>)
    requires VectorFits(m) && VectorFits(m') && ElementOf(VectorBlock(m)) == ElementOf(VectorBlock(m'))
    ensures m == m'
  {
    WireInverse(m, []);
    WireInverse(m', []);
  }

  /** Write one entry in front of the buffer: number, name, length, type. */
  method PrependEntry(enc: EncodingBuffer, name: Name, seqNo: Number) returns (n: nat)
    modifies enc
    ensures enc.bytes == ElementOf(EntryBlock(name, seqNo)) + old(enc.bytes)
    ensures n == |ElementOf(EntryBlock(name, seqNo))|
  {
    ghost var before := enc.bytes;
    var seqLength := enc.PrependNonNegativeIntegerBlock(TLV_SEQ_NO, seqNo);
    var nameLength := enc.PrependBlock(NameBlock(name));
    var entryLength := seqLength + nameLength;
    var lengthLength := enc.PrependVarNumber(entryLength);
    var typeLength := enc.PrependVarNumber(TLV_STATE_VECTOR_ENTRY);
    n := lengthLength + typeLength + entryLength;
    Flatten(VarNumber(TLV_STATE_VECTOR_ENTRY), VarNumber(entryLength), ElementOf(NameBlock(name)),
            ElementOf(SeqBlock(seqNo)), before);
  }

  lemma Flatten(a: seq<Byte>, b: seq<Byte>, c: seq<Byte>, d: seq<Byte>, e: seq<Byte>)
    ensures a + (b + (c + (d + e))) == a + b + (c + d) + e
  {
  }

  /** The loop of encode: entries from the last to the first, each in front of the ones before. */
  method PrependEntries(enc: EncodingBuffer, m: map<Name, Number>, names: seq<Name>) returns (totalLength: nat)
    requires Listed(m, names) && enc.bytes == []
    modifies enc
    ensures enc.bytes == Concat(EntryBlocks(m, names)) && totalLength == |enc.bytes|
  {
    totalLength := 0;
    ghost var blocks := EntryBlocks(m, names);
    var i := |names|;
    while i > 0
      invariant 0 <= i <= |names|
      invariant enc.bytes == ConcatFrom(blocks, i) && totalLength == |enc.bytes|
    {
      i := i - 1;
      ConcatStep(blocks, i, EntryBlock(names[i], m[names[i]]), enc.bytes);
      var n := PrependEntry(enc, names[i], m[names[i]]);
      totalLength := totalLength + n;
    }
  }

  method Encode(m: map<Name, Number>) returns (wire: seq<Byte>)
    ensures wire == ElementOf(VectorBlock(m))
  {
    var enc := new EncodingBuffer();
    var names := OrderedNames(m);
    var totalLength := PrependEntries(enc, m, names);
    var lengthLength := enc.PrependVarNumber(totalLength);
    var typeLength := enc.PrependVarNumber(TLV_STATE_VECTOR);
    wire := enc.bytes;
    Associate(VarNumber(TLV_STATE_VECTOR), VarNumber(totalLength), Concat(EntryBlocks(m, names)));
  }

  lemma Associate(a: seq<Byte>, b: seq<Byte>, c: seq<Byte>)
    ensures a + (b + c) == a + b + c
  {
  }
}
