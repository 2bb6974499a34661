/** mapping-provider.cpp, MappingList: application names on the wire. What is written in front of
    what is there comes out in the opposite order, here twice over: the pairs, and in each pair the
    additional blocks. */
module MappingCodec {
  import opened Names
  import opened Tlv
  import opened VectorCodec

  const TLV_MAPPING_DATA: nat := 205
  const TLV_MAPPING_ENTRY: nat := 206

  datatype Mapping = Mapping(name: Name, extra: seq<Block>)

  datatype Pair = Pair(seqNo: Number, mapping: Mapping)

  datatype MappingList = MappingList(nodeId: Name, pairs: seq<Pair>)

  function Reverse<T>(xs: seq<T>): seq<T> {
    seq(|xs|, i requires 0 <= i < |xs| => xs[|xs| - 1 - i])
  }

  lemma ReverseTwice<T>(xs: seq<T>)
    ensures Reverse(Reverse(xs)) == xs
  {
  }

  /** The block of a pair as it comes to lie in the buffer. */
  function PairBlock(p: Pair): Block {
    Block(TLV_MAPPING_ENTRY, Concat([SeqBlock(p.seqNo), NameBlock(p.mapping.name)] + Reverse(p.mapping.extra)))
  }

  function PairBlocks(pairs: seq<Pair>): seq<Block> {
    seq(|pairs|, i requires 0 <= i < |pairs| => PairBlock(pairs[i]))
  }

  function ListBlock(l: MappingList): Block {
    Block(TLV_MAPPING_DATA, Concat([NameBlock(l.nodeId)] + Reverse(PairBlocks(l.pairs))))
  }

  // ---- Decoding ----

  function DecodePair(b: Block): Result<Pair> {
    match Elements(b.value)
    case Err(e) => Err(e)
    case Ok(es) =>
      if |es| < 1 then Err(OutOfRange)
      else
        match ReadNonNegativeInteger(es[0])
        case Err(e) => Err(e)
        case Ok(n) =>
          if |es| < 2 then Err(OutOfRange)
          else
            match DecodeName(es[1])
            case Err(e) => Err(e)
            case Ok(name) => NumberInRange(es[0]); Ok(Pair(n, Mapping(name, es[2..])))
  }

  /** What the first n elements say: a name sets the node, an entry adds a pair, anything else is
      skipped. */
  function DecodeItems(bs: seq<Block>, n: nat): Result<MappingList>
    requires n <= |bs|
  {
    if n == 0 then Ok(MappingList([], []))
    else
      match DecodeItems(bs, n - 1)
      case Err(e) => Err(e)
      case Ok(l) =>
        if bs[n - 1].typ == TLV_NAME then
          match DecodeName(bs[n - 1])
          case Err(e) => Err(e)
          case Ok(name) => Ok(l.(nodeId := name))
        else if bs[n - 1].typ == TLV_MAPPING_ENTRY then
          match DecodePair(bs[n - 1])
          case Err(e) => Err(e)
          case Ok(p) => Ok(l.(pairs := l.pairs + [p]))
        else Ok(l)
  }

  /** The decoding constructor, which does not look at the type of the block it is given. */
  function DecodeList(b: Block): Result<MappingList> {
    match Elements(b.value)
    case Err(e) => Err(e)
    case Ok(bs) => DecodeItems(bs, |bs|)
  }

  // ---- Round trip ----

  /** A pair with its additional blocks in the opposite order. */
  function Turned(p: Pair): Pair {
    p.(mapping := p.mapping.(extra := Reverse(p.mapping.extra)))
  }

  function AllTurned(pairs: seq<Pair>): seq<Pair> {
    seq(|pairs|, i requires 0 <= i < |pairs| => Turned(pairs[i]))
  }

  /** What a list becomes on its way over the wire. */
  function Travelled(l: MappingList): MappingList {
    l.(pairs := Reverse(AllTurned(l.pairs)))
  }

  /** The additional blocks are blocks, and everything fits into a buffer. */
  ghost predicate ListFits(l: MappingList) {
    && |ListBlock(l).value| <= MAX64
    && forall i, j | 0 <= i < |l.pairs| && 0 <= j < |l.pairs[i].mapping.extra| ::
         1 <= l.pairs[i].mapping.extra[j].typ <= 0xFFFF_FFFF
  }

  ghost predicate ExtraTyped(p: Pair) {
    forall j | 0 <= j < |p.mapping.extra| :: 1 <= p.mapping.extra[j].typ <= 0xFFFF_FFFF
  }

  function PairItems(p: Pair): seq<Block> {
    [SeqBlock(p.seqNo), NameBlock(p.mapping.name)] + Reverse(p.mapping.extra)
  }

  lemma PairItemsWellFormed(p: Pair, i: nat)
    requires ExtraTyped(p) && |PairBlock(p).value| <= MAX64 && i < |PairItems(p)|
    ensures WellFormed(PairItems(p)[i])
  {
    ConcatBounds(PairItems(p), 0, i);
    if i >= 2 { assert PairItems(p)[i] == p.mapping.extra[|p.mapping.extra| - 1 - (i - 2)]; }
  }

  lemma PairInverse(p: Pair)
    requires ExtraTyped(p) && |PairBlock(p).value| <= MAX64
    ensures DecodePair(PairBlock(p)) == Ok(Turned(p))
  {
    var es := PairItems(p);
    forall i | 0 <= i < |es| ensures WellFormed(es[i]) { PairItemsWellFormed(p, i); }
    ElementsInverse(es);
    NonNegativeIntegerInverse(TLV_SEQ_NO, p.seqNo);
    ConcatBounds(es, 0, 1);
    NameInverse(p.mapping.name);
    assert es[2..] == Reverse(p.mapping.extra);
  }

  function ListItems(l: MappingList): seq<Block> {
    [NameBlock(l.nodeId)] + Reverse(PairBlocks(l.pairs))
  }

  lemma ListItemAt(l: MappingList, i: nat)
    requires 0 < i < |ListItems(l)|
    ensures ListItems(l)[i] == PairBlock(l.pairs[|l.pairs| - i])
  {
    assert ListItems(l)[i] == Reverse(PairBlocks(l.pairs))[i - 1];
  }

  lemma PairFits(l: MappingList, i: nat)
    requires ListFits(l) && 0 < i < |ListItems(l)|
    ensures WellFormed(ListItems(l)[i]) && ExtraTyped(l.pairs[|l.pairs| - i])
    ensures DecodePair(ListItems(l)[i]) == Ok(Turned(l.pairs[|l.pairs| - i]))
  {
    ListItemAt(l, i);
    ConcatBounds(ListItems(l), 0, i);
    PairInverse(l.pairs[|l.pairs| - i]);
  }

  lemma TravelledAt(l: MappingList, i: nat)
    requires i < |l.pairs|
    ensures |Travelled(l).pairs| == |l.pairs| && Travelled(l).pairs[i] == Turned(l.pairs[|l.pairs| - 1 - i])
  {
  }

  lemma NodeFits(l: MappingList)
    requires ListFits(l)
    ensures WellFormed(ListItems(l)[0]) && DecodeName(ListItems(l)[0]) == Ok(l.nodeId)
  {
    ConcatBounds(ListItems(l), 0, 0);
    NameInverse(l.nodeId);
  }

  /** The i-th pair is what the element after it decodes to. */
  predicate PairAt(bs: seq<Block>, pairs: seq<Pair>, i: nat) {
    i < |pairs| && i + 1 < |bs| && bs[i + 1].typ == TLV_MAPPING_ENTRY && DecodePair(bs[i + 1]) == Ok(pairs[i])
  }

  lemma PrefixGrows<T>(xs: seq<T>, n: nat)
    requires n < |xs|
    ensures xs[..n] + [xs[n]] == xs[..n + 1]
  {
  }

  lemma DecodePairStep(bs: seq<Block>, pairs: seq<Pair>, name: Name, n: nat)
    requires 0 < n <= |pairs| && PairAt(bs, pairs, n - 1)
    requires DecodeItems(bs, n) == Ok(MappingList(name, pairs[..n - 1]))
    ensures DecodeItems(bs, n + 1) == Ok(MappingList(name, pairs[..n]))
  {
    PrefixGrows(pairs, n - 1);
  }

  lemma {:induction false} ItemsInverse(bs: seq<Block>, pairs: seq<Pair>, name: Name, n: nat)
    requires |bs| == |pairs| + 1 && n <= |pairs|
    requires bs[0].typ == TLV_NAME && DecodeName(bs[0]) == Ok(name)
    requires forall i | 0 <= i < |pairs| :: PairAt(bs, pairs, i)
    ensures DecodeItems(bs, n + 1) == Ok(MappingList(name, pairs[..n]))
    decreases n
  {
    if n > 0 {
      ItemsInverse(bs, pairs, name, n - 1);
      DecodePairStep(bs, pairs, name, n);
    }
  }

  lemma PairDecodes(l: MappingList, i: nat)
    requires ListFits(l) && i < |l.pairs|
    ensures PairAt(ListItems(l), Travelled(l).pairs, i)
  {
    ListItemAt(l, i + 1);
    PairFits(l, i + 1);
    TravelledAt(l, i);
  }

  lemma ListElements(l: MappingList)
    requires ListFits(l)
    ensures Elements(ListBlock(l).value) == Ok(ListItems(l))
  {
    var bs := ListItems(l);
    NodeFits(l);
    forall i | 0 <= i < |bs| ensures WellFormed(bs[i]) {
      if i > 0 { PairFits(l, i); }
    }
    ElementsInverse(bs);
  }

  lemma ListLength(l: MappingList)
    ensures |ListItems(l)| == |Travelled(l).pairs| + 1 && ListItems(l)[0].typ == TLV_NAME
  {
  }

  lemma ItemsDecode(l: MappingList, bs: seq<Block>, pairs: seq<Pair>)
    requires ListFits(l) && bs == ListItems(l) && pairs == Travelled(l).pairs
    ensures DecodeItems(bs, |bs|) == Ok(MappingList(l.nodeId, pairs))
  {
    ListLength(l);
    NodeFits(l);
    forall i | 0 <= i < |pairs| ensures PairAt(bs, pairs, i) { PairDecodes(l, i); }
    ItemsInverse(bs, pairs, l.nodeId, |pairs|);
    assert pairs[..|pairs|] == pairs;
  }

  /** A list comes out with the same node, its pairs in the opposite order, and so are the
      additional blocks of each pair. */
  lemma ListInverse(l: MappingList)
    requires ListFits(l)
    ensures DecodeList(ListBlock(l)) == Ok(Travelled(l))
  {
    ListElements(l);
    ItemsDecode(l, ListItems(l), Travelled(l).pairs);
  }

  /** Two journeys bring a list back as it was. */
  lemma TravelledTwice(l: MappingList)
    ensures Travelled(Travelled(l)) == l
  {
    forall i | 0 <= i < |l.pairs| ensures Travelled(Travelled(l)).pairs[i] == l.pairs[i] {
      TravelledAt(l, |l.pairs| - 1 - i);
      TravelledAt(Travelled(l), i);
      ReverseTwice(l.pairs[i].mapping.extra);
    }
    assert Travelled(Travelled(l)).pairs == l.pairs;
  }

  // ---- Two journeys on the wire ----

  /** How many bytes each block takes. */
  function Sizes(bs: seq<Block>): seq<nat> {
    seq(|bs|, i requires 0 <= i < |bs| => |ElementOf(bs[i])|)
  }

  function SumFrom(sizes: seq<nat>, i: nat): nat
    requires i <= |sizes|
    decreases |sizes| - i
  {
    if i == |sizes| then 0 else sizes[i] + SumFrom(sizes, i + 1)
  }

  function SumUpTo(sizes: seq<nat>, n: nat): nat
    requires n <= |sizes|
  {
    if n == 0 then 0 else SumUpTo(sizes, n - 1) + sizes[n - 1]
  }

  lemma {:induction false} SumsAdd(sizes: seq<nat>, i: nat)
    requires i <= |sizes|
    ensures SumUpTo(sizes, i) + SumFrom(sizes, i) == SumFrom(sizes, 0)
  {
    if i > 0 { SumsAdd(sizes, i - 1); }
  }

  lemma {:induction false} SumReversed(sizes: seq<nat>, n: nat)
    requires n <= |sizes|
    ensures SumFrom(Reverse(sizes), |sizes| - n) == SumUpTo(sizes, n)
    decreases n
  {
    if n > 0 { SumReversed(sizes, n - 1); }
  }

  lemma {:induction false} ConcatSize(bs: seq<Block>, i: nat)
    requires i <= |bs|
    ensures |ConcatFrom(bs, i)| == SumFrom(Sizes(bs), i)
    decreases |bs| - i
  {
    if i < |bs| {
      ConcatSize(bs, i + 1);
      ConcatStep(bs, i, bs[i], ConcatFrom(bs, i + 1));
    }
  }

  lemma ReversedTakesAsMuch(bs: seq<Block>)
    ensures |Concat(Reverse(bs))| == |Concat(bs)|
  {
    ConcatSize(bs, 0);
    ConcatSize(Reverse(bs), 0);
    assert Sizes(Reverse(bs)) == Reverse(Sizes(bs));
    SumReversed(Sizes(bs), |bs|);
    SumsAdd(Sizes(bs), |bs|);
  }

  lemma SameConcatLength(a: seq<Block>, b: seq<Block>)
    requires |a| == |b| && forall i | 0 <= i < |a| :: |ElementOf(a[i])| == |ElementOf(b[i])|
    ensures |Concat(a)| == |Concat(b)|
  {
    ConcatSize(a, 0);
    ConcatSize(b, 0);
    assert Sizes(a) == Sizes(b);
  }

  lemma ConcatConsLength(b: Block, bs: seq<Block>)
    ensures |Concat([b] + bs)| == |ElementOf(b)| + |Concat(bs)|
  {
    ShiftedConcat(b, bs, 0);
  }

  lemma {:induction false} ShiftedConcat(b: Block, bs: seq<Block>, i: nat)
    requires i <= |bs|
    ensures ConcatFrom([b] + bs, i + 1) == ConcatFrom(bs, i)
    decreases |bs| - i
  {
    if i < |bs| {
      ShiftedConcat(b, bs, i + 1);
      ConcatStep([b] + bs, i + 1, bs[i], ConcatFrom(bs, i + 1));
    }
  }

  lemma TurnedTakesAsMuch(p: Pair)
    ensures |ElementOf(PairBlock(Turned(p)))| == |ElementOf(PairBlock(p))|
  {
    var first, second := SeqBlock(p.seqNo), NameBlock(p.mapping.name);
    ReverseTwice(p.mapping.extra);
    ReversedTakesAsMuch(p.mapping.extra);
    PairLength(first, second, Reverse(p.mapping.extra));
    PairLength(first, second, Reverse(Turned(p).mapping.extra));
    SameElementLength(PairBlock(Turned(p)), PairBlock(p));
  }

  lemma SameElementLength(a: Block, b: Block)
    requires a.typ == b.typ && |a.value| == |b.value|
    ensures |ElementOf(a)| == |ElementOf(b)|
  {
  }

  lemma Front(first: Block, second: Block, rest: seq<Block>)
    ensures [first] + ([second] + rest) == [first, second] + rest
  {
  }

  lemma PairLength(first: Block, second: Block, rest: seq<Block>)
    ensures |Concat([first, second] + rest)| == |ElementOf(first)| + |ElementOf(second)| + |Concat(rest)|
  {
    ConcatConsLength(second, rest);
    ConcatConsLength(first, [second] + rest);
    Front(first, second, rest);
  }

  lemma PairBlockAt(pairs: seq<Pair>, blocks: seq<Block>, i: nat)
    requires blocks == PairBlocks(pairs) && i < |pairs|
    ensures |Reverse(blocks)| == |pairs| && Reverse(blocks)[i] == PairBlock(pairs[|pairs| - 1 - i])
  {
    ReverseAt(blocks, i);
  }

  lemma TravelledPairLength(l: MappingList, pairs: seq<Pair>, i: nat)
    requires i < |l.pairs| && pairs == Travelled(l).pairs
    ensures |pairs| == |l.pairs|
    ensures |ElementOf(Reverse(PairBlocks(pairs))[i])| == |ElementOf(PairBlock(l.pairs[i]))|
  {
    TravelledAt(l, |l.pairs| - 1 - i);
    PairBlockAt(pairs, PairBlocks(pairs), i);
    TurnedTakesAsMuch(l.pairs[i]);
  }

  lemma TravelledFits(l: MappingList)
    requires ListFits(l)
    ensures ListFits(Travelled(l))
  {
    var pairs, blocks := Travelled(l).pairs, PairBlocks(l.pairs);
    var back := Reverse(PairBlocks(pairs));
    forall i | 0 <= i < |blocks| ensures |ElementOf(back[i])| == |ElementOf(blocks[i])| {
      TravelledPairLength(l, pairs, i);
    }
    SameConcatLength(back, blocks);
    ReversedTakesAsMuch(blocks);
    ConcatConsLength(NameBlock(l.nodeId), back);
    ConcatConsLength(NameBlock(l.nodeId), Reverse(blocks));
    forall i, j | 0 <= i < |Travelled(l).pairs| && 0 <= j < |Travelled(l).pairs[i].mapping.extra|
      ensures 1 <= Travelled(l).pairs[i].mapping.extra[j].typ <= 0xFFFF_FFFF
    {
      TravelledAt(l, i);
    }
  }

  /** Encoding and decoding twice is the identity. */
  lemma TwoRoundTrips(l: MappingList)
    requires ListFits(l)
    ensures DecodeList(ListBlock(l)) == Ok(Travelled(l))
    ensures DecodeList(ListBlock(Travelled(l))) == Ok(l)
  {
    ListInverse(l);
    TravelledFits(l);
    ListInverse(Travelled(l));
    TravelledTwice(l);
  }

  // ---- Encoding ----

  /** The blocks from the n-th on are written. */
  predicate WrittenFrom(bytes: seq<Byte>, back: seq<Block>, n: nat) {
    n <= |back| && bytes == ConcatFrom(back, n)
  }

  lemma BackStep(back: seq<Block>, n: nat, b: Block, bytes: seq<Byte>)
    requires 0 < n <= |back| && back[n - 1] == b && WrittenFrom(bytes, back, n)
    ensures WrittenFrom(ElementOf(b) + bytes, back, n - 1)
  {
  }

  lemma ReverseStep(bs: seq<Block>, back: seq<Block>, i: nat, bytes: seq<Byte>)
    requires i < |bs| && back == Reverse(bs) && WrittenFrom(bytes, back, |bs| - i)
    ensures WrittenFrom(ElementOf(bs[i]) + bytes, back, |bs| - i - 1)
  {
    ReverseAt(bs, |bs| - 1 - i);
    BackStep(back, |bs| - i, bs[i], bytes);
  }

  /** Blocks are written first to last, each in front of the ones before. */
  method PrependBlocks(enc: EncodingBuffer, bs: seq<Block>) returns (length: nat)
    modifies enc
    ensures enc.bytes == Concat(Reverse(bs)) + old(enc.bytes) && length == |Concat(Reverse(bs))|
  {
    length := 0;
    var i := 0;
    ghost var before, back, written := enc.bytes, Reverse(bs), [];
    assert written + before == before;
    while i < |bs|
      invariant i <= |bs| && WrittenFrom(written, back, |bs| - i)
      invariant enc.bytes == written + before && length == |written|
    {
      ReverseStep(bs, back, i, written);
      var n := enc.PrependBlock(bs[i]);
      Associate(ElementOf(bs[i]), written, before);
      written := ElementOf(bs[i]) + written;
      length := length + n;
      i := i + 1;
    }
  }

  lemma ReverseAt<T>(xs: seq<T>, i: nat)
    requires i < |xs|
    ensures |Reverse(xs)| == |xs| && Reverse(xs)[i] == xs[|xs| - 1 - i]
  {
  }

  lemma ConcatCons(b: Block, bs: seq<Block>)
    ensures Concat([b] + bs) == ElementOf(b) + Concat(bs)
  {
    ShiftedConcat(b, bs, 0);
  }

  lemma PairBytes(p: Pair)
    ensures PairBlock(p).value ==
            ElementOf(SeqBlock(p.seqNo)) + (ElementOf(NameBlock(p.mapping.name)) + Concat(Reverse(p.mapping.extra)))
  {
    var rest := Reverse(p.mapping.extra);
    ConcatCons(NameBlock(p.mapping.name), rest);
    ConcatCons(SeqBlock(p.seqNo), [NameBlock(p.mapping.name)] + rest);
    Front(SeqBlock(p.seqNo), NameBlock(p.mapping.name), rest);
  }

  lemma Nest(a: seq<Byte>, b: seq<Byte>, c: seq<Byte>, d: seq<Byte>)
    ensures a + (b + (c + d)) == (a + (b + c)) + d
  {
  }

  /** The content of one entry: additional blocks, name, number, from the back. */
  method PrependPairValue(enc: EncodingBuffer, p: Pair) returns (entryLength: nat)
    modifies enc
    ensures enc.bytes == PairBlock(p).value + old(enc.bytes) && entryLength == |PairBlock(p).value|
  {
    ghost var before := enc.bytes;
    var extraLength := PrependBlocks(enc, p.mapping.extra);
    var nameLength := enc.PrependBlock(NameBlock(p.mapping.name));
    var seqLength := enc.PrependNonNegativeIntegerBlock(TLV_SEQ_NO, p.seqNo);
    entryLength := extraLength + nameLength + seqLength;
    PairBytes(p);
    Nest(ElementOf(SeqBlock(p.seqNo)), ElementOf(NameBlock(p.mapping.name)), Concat(Reverse(p.mapping.extra)), before);
  }

  /** Length and type in front of a value that is already in the buffer. */
  method PrependHeader(enc: EncodingBuffer, typ: nat, ghost value: seq<Byte>, ghost rest: seq<Byte>, length: nat)
    returns (n: nat)
    requires enc.bytes == value + rest && length == |value|
    modifies enc
    ensures enc.bytes == Element(typ, value) + rest && n + length == |Element(typ, value)|
  {
    var lengthLength := enc.PrependVarNumber(length);
    var typeLength := enc.PrependVarNumber(typ);
    n := lengthLength + typeLength;
    Nest(VarNumber(typ), VarNumber(length), value, rest);
    Associate(VarNumber(typ), VarNumber(length), value);
  }

  method PrependPair(enc: EncodingBuffer, p: Pair) returns (n: nat)
    modifies enc
    ensures enc.bytes == ElementOf(PairBlock(p)) + old(enc.bytes) && n == |ElementOf(PairBlock(p))|
  {
    ghost var before := enc.bytes;
    var entryLength := PrependPairValue(enc, p);
    var header := PrependHeader(enc, TLV_MAPPING_ENTRY, PairBlock(p).value, before, entryLength);
    n := header + entryLength;
  }

  lemma PairStep(pairs: seq<Pair>, back: seq<Block>, i: nat, bytes: seq<Byte>)
    requires back == Reverse(PairBlocks(pairs)) && i < |pairs|
    requires WrittenFrom(bytes, back, |pairs| - i)
    ensures WrittenFrom(ElementOf(PairBlock(pairs[i])) + bytes, back, |pairs| - i - 1)
  {
    PairBlockAt(pairs, PairBlocks(pairs), |pairs| - 1 - i);
    BackStep(back, |pairs| - i, PairBlock(pairs[i]), bytes);
  }

  method PrependPairs(enc: EncodingBuffer, pairs: seq<Pair>) returns (totalLength: nat)
    requires enc.bytes == []
    modifies enc
    ensures enc.bytes == Concat(Reverse(PairBlocks(pairs))) && totalLength == |enc.bytes|
  {
    totalLength := 0;
    ghost var back := Reverse(PairBlocks(pairs));
    var i := 0;
    while i < |pairs|
      invariant i <= |pairs| && WrittenFrom(enc.bytes, back, |pairs| - i) && totalLength == |enc.bytes|
    {
      PairStep(pairs, back, i, enc.bytes);
      var n := PrependPair(enc, pairs[i]);
      totalLength := totalLength + n;
      i := i + 1;
    }
  }

  /** MappingList::encode */
  method EncodeList(l: MappingList) returns (wire: seq<Byte>)
    ensures wire == ElementOf(ListBlock(l))
  {
    var enc := new EncodingBuffer();
    var pairsLength := PrependPairs(enc, l.pairs);
    var nodeLength := enc.PrependBlock(NameBlock(l.nodeId));
    ConcatCons(NameBlock(l.nodeId), Reverse(PairBlocks(l.pairs)));
    assert enc.bytes + [] == enc.bytes;
    var header := PrependHeader(enc, TLV_MAPPING_DATA, ListBlock(l).value, [], pairsLength + nodeLength);
    wire := enc.bytes;
    assert wire + [] == wire;
  }
}
