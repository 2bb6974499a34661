/** The byte formats of "NDN Packet Format Specification v0.3", section "Type-Length-Value (TLV)
    Encoding": variable-size numbers, non-negative integers, and elements read from a buffer. */
module Tlv {
  import opened Names

  const MAX64: nat := 0xFFFF_FFFF_FFFF_FFFF

  datatype Result<T> = Ok(value: T) | Err(error: Error)

  /** tlv::Error for a wrong type, a wrong length or a truncated element; std::out_of_range for an
      element that is missing. */
  datatype Error = WrongType(expected: nat, found: nat) | WrongLength | Truncated | OutOfRange

  /** An element: a block that has been parsed. */
  datatype Block = Block(typ: nat, value: seq<Byte>)

  // ---- Numbers ----

  function Power256(k: nat): (p: nat)
    ensures p > 0
  {
    if k == 0 then 1 else 256 * Power256(k - 1)
  }

  /** The k low-order bytes, most significant first. */
  function BigEndian(n: nat, k: nat): (bs: seq<Byte>)
    ensures |bs| == k
  {
    if k == 0 then [] else BigEndian(n / 256, k - 1) + [n % 256]
  }

  function FromBigEndian(bs: seq<Byte>): nat {
    if bs == [] then 0 else FromBigEndian(bs[..|bs| - 1]) * 256 + bs[|bs| - 1]
  }

  lemma {:induction false} BigEndianInverse(n: nat, k: nat)
    requires n < Power256(k)
    ensures FromBigEndian(BigEndian(n, k)) == n
  {
    if k > 0 { BigEndianInverse(n / 256, k - 1); }
  }

  /** "Variable-Size Encoding for Type (T) and Length (L)" */
  function VarNumber(n: nat): seq<Byte> {
    if n < 253 then [n]
    else if n <= 0xFFFF then [253] + BigEndian(n, 2)
    else if n <= 0xFFFF_FFFF then [254] + BigEndian(n, 4)
    else [255] + BigEndian(n, 8)
  }

  /** "Non-Negative Integer Encoding" */
  function NonNegativeInteger(n: nat): seq<Byte> {
    if n <= 0xFF then BigEndian(n, 1)
    else if n <= 0xFFFF then BigEndian(n, 2)
    else if n <= 0xFFFF_FFFF then BigEndian(n, 4)
    else BigEndian(n, 8)
  }

  lemma Powers()
    ensures Power256(1) == 0x100 && Power256(2) == 0x1_0000
    ensures Power256(4) == 0x1_0000_0000 && Power256(8) == 0x1_0000_0000_0000_0000
  {
    assert Power256(3) == 0x100_0000;
    assert Power256(5) == 0x100_0000_0000;
    assert Power256(6) == 0x1_0000_0000_0000;
    assert Power256(7) == 0x100_0000_0000_0000;
  }

  /** How many bytes follow the first byte of a variable-size number. */
  function Width(first: Byte): nat {
    if first < 253 then 0 else if first == 253 then 2 else if first == 254 then 4 else 8
  }

  datatype Reading = Reading(n: nat, rest: seq<Byte>)

  function ReadVarNumber(bs: seq<Byte>): Result<Reading> {
    if bs == [] || |bs| < 1 + Width(bs[0]) then Err(Truncated)
    else if bs[0] < 253 then Ok(Reading(bs[0], bs[1..]))
    else Ok(Reading(FromBigEndian(bs[1..1 + Width(bs[0])]), bs[1 + Width(bs[0])..]))
  }

  function ReadNonNegativeInteger(b: Block): Result<nat> {
    if |b.value| == 1 || |b.value| == 2 || |b.value| == 4 || |b.value| == 8
    then Ok(FromBigEndian(b.value)) else Err(WrongLength)
  }

  lemma NonNegativeIntegerInverse(typ: nat, n: nat)
    requires n <= MAX64
    ensures ReadNonNegativeInteger(Block(typ, NonNegativeInteger(n))) == Ok(n)
  {
    Powers();
    BigEndianInverse(n, |NonNegativeInteger(n)|);
  }

  lemma ReadAfterMarker(marker: Byte, bs: seq<Byte>, rest: seq<Byte>)
    requires marker >= 253 && |bs| == Width(marker)
    ensures ReadVarNumber([marker] + bs + rest) == Ok(Reading(FromBigEndian(bs), rest))
  {
    var all := [marker] + bs + rest;
    assert all[1..1 + |bs|] == bs && all[1 + |bs|..] == rest;
  }

  lemma VarNumberInverse(n: nat, rest: seq<Byte>)
    requires n <= MAX64
    ensures ReadVarNumber(VarNumber(n) + rest) == Ok(Reading(n, rest))
  {
    Powers();
    if n < 253 {
      assert ([n] + rest)[1..] == rest;
    } else {
      var k := |VarNumber(n)| - 1;
      BigEndianInverse(n, k);
      ReadAfterMarker(VarNumber(n)[0], BigEndian(n, k), rest);
      assert VarNumber(n) == [VarNumber(n)[0]] + BigEndian(n, k);
    }
  }

  // ---- Elements ----

  function Element(typ: nat, value: seq<Byte>): seq<Byte> {
    VarNumber(typ) + VarNumber(|value|) + value
  }

  function ElementOf(b: Block): seq<Byte> {
    Element(b.typ, b.value)
  }

  function ReadElement(bs: seq<Byte>): (r: Result<(Block, seq<Byte>)>)
    ensures r.Ok? ==> |r.value.1| < |bs|
  {
    match ReadVarNumber(bs)
    case Err(e) => Err(e)
    case Ok(typ) =>
      match ReadVarNumber(typ.rest)
      case Err(e) => Err(e)
      case Ok(length) =>
        if typ.n == 0 || typ.n > 0xFFFF_FFFF then Err(WrongType(0, typ.n))
        else if length.n > |length.rest| then Err(Truncated)
        else Ok((Block(typ.n, length.rest[..length.n]), length.rest[length.n..]))
  }

  /** The elements of a buffer, one after another to its end: Block::parse. */
  function Elements(bs: seq<Byte>): Result<seq<Block>>
    decreases |bs|
  {
    if bs == [] then Ok([])
    else
      match ReadElement(bs)
      case Err(e) => Err(e)
      case Ok((b, rest)) =>
        match Elements(rest)
        case Err(e) => Err(e)
        case Ok(bs) => Ok([b] + bs)
  }

  /** A block that can be written and read back: its type is a TLV type, its length a 64-bit number. */
  predicate WellFormed(b: Block) {
    1 <= b.typ <= 0xFFFF_FFFF && |b.value| <= MAX64
  }

  lemma ReadElementIs(bs: seq<Byte>, typ: Reading, length: Reading)
    requires ReadVarNumber(bs) == Ok(typ) && ReadVarNumber(typ.rest) == Ok(length)
    requires 1 <= typ.n <= 0xFFFF_FFFF && length.n <= |length.rest|
    ensures ReadElement(bs) == Ok((Block(typ.n, length.rest[..length.n]), length.rest[length.n..]))
  {
  }

  lemma Regroup(a: seq<Byte>, b: seq<Byte>, c: seq<Byte>, d: seq<Byte>)
    ensures a + b + c + d == a + (b + (c + d))
    ensures (c + d)[..|c|] == c && (c + d)[|c|..] == d
  {
  }

  lemma ReadElementInverse(b: Block, rest: seq<Byte>)
    requires WellFormed(b)
    ensures ReadElement(ElementOf(b) + rest) == Ok((b, rest))
  {
    var payload := b.value + rest;
    var afterType := VarNumber(|b.value|) + payload;
    VarNumberInverse(b.typ, afterType);
    VarNumberInverse(|b.value|, payload);
    Regroup(VarNumber(b.typ), VarNumber(|b.value|), b.value, rest);
    ReadElementIs(VarNumber(b.typ) + afterType, Reading(b.typ, afterType), Reading(|b.value|, payload));
  }

  lemma ElementsCons(b: Block, rest: seq<Byte>)
    requires WellFormed(b)
    ensures Elements(ElementOf(b) + rest) ==
            match Elements(rest) case Err(e) => Err(e) case Ok(bs) => Ok([b] + bs)
  {
    ReadElementInverse(b, rest);
  }

  /** The blocks from the i-th on, one after another. */
  function ConcatFrom(bs: seq<Block>, i: nat): seq<Byte>
    requires i <= |bs|
    decreases |bs| - i
  {
    if i == |bs| then [] else ElementOf(bs[i]) + ConcatFrom(bs, i + 1)
  }

  function Concat(bs: seq<Block>): seq<Byte> {
    ConcatFrom(bs, 0)
  }

  lemma ConcatStep(bs: seq<Block>, i: nat, b: Block, after: seq<Byte>)
    requires i < |bs| && bs[i] == b && ConcatFrom(bs, i + 1) == after
    ensures ConcatFrom(bs, i) == ElementOf(b) + after
  {
  }

  lemma HeadAndTail(bs: seq<Block>, i: nat)
    requires i < |bs|
    ensures [bs[i]] + bs[i + 1..] == bs[i..]
  {
  }

  lemma {:induction false} ElementsFrom(bs: seq<Block>, i: nat)
    requires i <= |bs| && forall k | i <= k < |bs| :: WellFormed(bs[k])
    ensures Elements(ConcatFrom(bs, i)) == Ok(bs[i..])
    decreases |bs| - i
  {
    if i < |bs| {
      ElementsFrom(bs, i + 1);
      ElementsCons(bs[i], ConcatFrom(bs, i + 1));
      HeadAndTail(bs, i);
    }
  }

  /** Blocks written one after another are read back one after another. */
  lemma ElementsInverse(bs: seq<Block>)
    requires forall i | 0 <= i < |bs| :: WellFormed(bs[i])
    ensures Elements(Concat(bs)) == Ok(bs)
  {
    ElementsFrom(bs, 0);
    assert bs[0..] == bs;
  }

  // ---- Writing from the back ----

  /** EncodingBuffer: what is written is put before what is there. */
  class EncodingBuffer {
    var bytes: seq<Byte>

    constructor ()
      ensures bytes == []
    {
      bytes := [];
    }

    method PrependBytes(more: seq<Byte>) returns (n: nat)
      modifies this
      ensures bytes == more + old(bytes) && n == |more|
    {
      bytes := more + bytes;
      return |more|;
    }

    method PrependVarNumber(number: nat) returns (n: nat)
      modifies this
      ensures bytes == VarNumber(number) + old(bytes) && n == |VarNumber(number)|
    {
      n := PrependBytes(VarNumber(number));
    }

    method PrependBlock(block: Block) returns (n: nat)
      modifies this
      ensures bytes == ElementOf(block) + old(bytes) && n == |ElementOf(block)|
    {
      n := PrependBytes(ElementOf(block));
    }

    /** Value first, then length, then type. */
    method PrependNonNegativeIntegerBlock(typ: nat, number: nat) returns (n: nat)
      modifies this
      ensures bytes == Element(typ, NonNegativeInteger(number)) + old(bytes)
      ensures n == |Element(typ, NonNegativeInteger(number))|
    {
      var valueLength := PrependBytes(NonNegativeInteger(number));
      var lengthLength := PrependVarNumber(valueLength);
      var typeLength := PrependVarNumber(typ);
      n := typeLength + lengthLength + valueLength;
    }
  }
}
