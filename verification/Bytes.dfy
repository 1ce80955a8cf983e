/**
 Big-endian fields, and the encoding of bind parameters (src/op.rs). A nullable
 field is a four-byte length followed by that many bytes; the length -1, all ones,
 marks NULL. DataRow columns use the same shape.
 */
module Bytes {
  import opened Wrappers
  import opened Protocol
  import opened Ops

  const NULL_LENGTH := 0xFFFF_FFFF

  function Pow256(width: nat): nat {
    if width == 0 then 1 else 0x100 * Pow256(width - 1)
  }

  /** The low `width` bytes of `n`, most significant first: a cast and `to_be_bytes()`. */
  function BigEndian(n: nat, width: nat): (bs: seq<byte>)
    ensures |bs| == width
  {
    if width == 0 then [] else BigEndian(n / 0x100, width - 1) + [n % 0x100]
  }

  function ReadBigEndian(bs: seq<byte>): nat {
    if bs == [] then 0 else 0x100 * ReadBigEndian(bs[..|bs| - 1]) + bs[|bs| - 1]
  }

  function U16(n: nat): seq<byte> {
    BigEndian(n, 2)
  }

  function U32(n: nat): seq<byte> {
    BigEndian(n, 4)
  }

  lemma {:induction false} ReadBigEndianBack(n: nat, width: nat)
    requires n < Pow256(width)
    ensures ReadBigEndian(BigEndian(n, width)) == n
  {
    if width > 0 {
      ReadBigEndianBack(n / 0x100, width - 1);
      assert BigEndian(n, width)[..width - 1] == BigEndian(n / 0x100, width - 1);
    }
  }

  /** The most significant byte comes first. */
  lemma NetworkOrder(n: nat)
    ensures U16(n) == [n / 0x100 % 0x100, n % 0x100]
    ensures U32(n) == U16(n / 0x1_0000) + U16(n)
  {
    assert BigEndian(n, 1) == [n % 0x100];
    assert BigEndian(n / 0x100, 1) == [n / 0x100 % 0x100];
    assert n / 0x1_0000 == n / 0x100 / 0x100;
    assert BigEndian(n / 0x100, 3) == BigEndian(n / 0x1_0000, 2) + [n / 0x100 % 0x100];
    assert BigEndian(n, 4) == BigEndian(n / 0x100, 3) + [n % 0x100];
    assert BigEndian(n, 2) == [n / 0x100 % 0x100] + [n % 0x100];
  }

  /** Bytes beyond the width leave no trace. */
  lemma {:induction false} BigEndianWraps(n: nat, k: nat, width: nat)
    ensures BigEndian(n + k * Pow256(width), width) == BigEndian(n, width)
  {
    if width > 0 {
      var high := k * Pow256(width - 1);
      assert k * Pow256(width) == 0x100 * high;
      assert (n + 0x100 * high) / 0x100 == n / 0x100 + high;
      assert (n + 0x100 * high) % 0x100 == n % 0x100;
      BigEndianWraps(n / 0x100, k, width - 1);
    }
  }

  /** The two's-complement bits of a signed 32-bit value. */
  function I32Bits(v: int): nat
    requires -0x8000_0000 <= v < 0x8000_0000
  {
    if v < 0 then v + 0x1_0000_0000 else v
  }

  /** A four-byte field read as a signed value. */
  function ReadI32(bs: seq<byte>): int {
    var n := ReadBigEndian(bs);
    if n < 0x8000_0000 then n else n - 0x1_0000_0000
  }

  /** An integer parameter reads back as itself. */
  lemma I32ReadsBack(v: i32)
    ensures ParamValue(Int32(v)).Some? && |ParamValue(Int32(v)).value| == 4
    ensures ReadI32(ParamValue(Int32(v)).value) == v
    ensures ReadI32(Field(None)) == -1
  {
    Limits();
    ReadBigEndianBack(I32Bits(v), 4);
    ReadBigEndianBack(NULL_LENGTH, 4);
  }

  /** `len as i32`: lengths from 2^31 up wrap to a negative value. */
  function LenAsI32(len: nat): int
    ensures -0x8000_0000 <= LenAsI32(len) < 0x8000_0000
  {
    var low := len % 0x1_0000_0000;
    if low < 0x8000_0000 then low else low - 0x1_0000_0000
  }

  lemma Limits()
    ensures Pow256(2) == 0x1_0000 && Pow256(4) == 0x1_0000_0000
  {
    assert Pow256(1) == 0x100 && Pow256(2) == 0x1_0000 && Pow256(3) == 0x100_0000;
  }

  /** A nullable field, as the wire has it. */
  function Field(value: Option<seq<byte>>): seq<byte> {
    match value
    case None => U32(NULL_LENGTH)
    case Some(data) => U32(|data|) + data
  }

  function Fields(values: seq<Option<seq<byte>>>): seq<byte> {
    if values == [] then [] else Field(values[0]) + Fields(values[1..])
  }

  /** A field short enough that its length is neither cut nor taken for NULL. */
  predicate FieldFits(value: Option<seq<byte>>) {
    value.Some? ==> |value.value| < NULL_LENGTH
  }

  predicate FieldsFit(values: seq<Option<seq<byte>>>) {
    forall v :: v in values ==> FieldFits(v)
  }

  /** Splits the first field off; `None` when the bytes break off inside it. */
  function ReadField(bs: seq<byte>): (r: Option<(Option<seq<byte>>, seq<byte>)>)
    ensures r.Some? ==> |r.value.1| < |bs|
  {
    if |bs| < 4 then None
    else
      var length, body := ReadBigEndian(bs[..4]), bs[4..];
      if length == NULL_LENGTH then Some((None, body))
      else if |body| < length then None
      else Some((Some(body[..length]), body[length..]))
  }

  function ReadFields(bs: seq<byte>): Option<seq<Option<seq<byte>>>>
    decreases |bs|
  {
    if bs == [] then Some([])
    else
      match ReadField(bs)
      case None => None
      case Some((value, rest)) =>
        match ReadFields(rest)
        case None => None
        case Some(values) => Some([value] + values)
  }

  lemma ReadFieldBack(value: Option<seq<byte>>, rest: seq<byte>)
    requires FieldFits(value)
    ensures ReadField(Field(value) + rest) == Some((value, rest))
  {
    Limits();
    var bs := Field(value) + rest;
    match value
    case None =>
      ReadBigEndianBack(NULL_LENGTH, 4);
      assert bs[..4] == U32(NULL_LENGTH) && bs[4..] == rest;
    case Some(data) =>
      ReadBigEndianBack(|data|, 4);
      var body := data + rest;
      assert bs[..4] == U32(|data|) && bs[4..] == body;
      assert body[..|data|] == data && body[|data|..] == rest;
  }

  /** Reading undoes writing, so NULL and the empty value are never confused. */
  lemma {:induction false} ReadFieldsBack(values: seq<Option<seq<byte>>>)
    requires FieldsFit(values)
    ensures ReadFields(Fields(values)) == Some(values)
  {
    if values != [] {
      assert FieldFits(values[0]);
      ReadFieldsBack(values[1..]);
      ReadFieldBack(values[0], Fields(values[1..]));
      assert [values[0]] + values[1..] == values;
    }
  }

  // ---------------------------------------------------------------------------
  // Bind parameters
  // ---------------------------------------------------------------------------

  /** The write end the encoder appends to. */
  class ByteBuffer {
    var contents: seq<byte>

    constructor ()
      ensures contents == []
    {
      contents := [];
    }

    method PutI32(v: int)
      requires -0x8000_0000 <= v < 0x8000_0000
      modifies this
      ensures contents == old(contents) + U32(I32Bits(v))
    {
      contents := contents + U32(I32Bits(v));
    }

    method PutSlice(data: seq<byte>)
      modifies this
      ensures contents == old(contents) + data
    {
      contents := contents + data;
    }
  }

  /** What a parameter says: NULL, or a string of bytes. */
  function ParamValue(p: Param): Option<seq<byte>> {
    match p
    case Null => None
    case Int32(v) => Some(U32(I32Bits(v)))
    case Text(utf8) => Some(utf8)
    case Bytes(bytes) => Some(bytes)
  }

  function ParamValues(ps: seq<Param>): seq<Option<seq<byte>>> {
    seq(|ps|, i requires 0 <= i < |ps| => ParamValue(ps[i]))
  }

  /** The length field of a byte string does not depend on the detour through `i32`. */
  lemma LengthBits(len: nat)
    ensures U32(I32Bits(LenAsI32(len))) == U32(len)
  {
    Limits();
    assert len == I32Bits(LenAsI32(len)) + len / 0x1_0000_0000 * 0x1_0000_0000;
    BigEndianWraps(I32Bits(LenAsI32(len)), len / 0x1_0000_0000, 4);
  }

  /** Every parameter is written as the nullable field of its value, whatever its length. */
  method EncodeParam(p: Param, buf: ByteBuffer)
    modifies buf
    ensures buf.contents == old(buf.contents) + Field(ParamValue(p))
  {
    match p {
      case Null =>
        buf.PutI32(-1);
      case Int32(v) =>
        buf.PutI32(4);
        buf.PutI32(v);
        Appended(old(buf.contents), U32(4), U32(I32Bits(v)));
      case Text(utf8) =>
        LengthBits(|utf8|);
        buf.PutI32(LenAsI32(|utf8|));
        buf.PutSlice(utf8);
        Appended(old(buf.contents), U32(|utf8|), utf8);
      case Bytes(bytes) =>
        LengthBits(|bytes|);
        buf.PutI32(LenAsI32(|bytes|));
        buf.PutSlice(bytes);
        Appended(old(buf.contents), U32(|bytes|), bytes);
    }
  }

  lemma Appended(start: seq<byte>, head: seq<byte>, tail: seq<byte>)
    ensures start + head + tail == start + (head + tail)
  {
  }

  /** A list of encoded parameters determines the values they stand for. */
  lemma ParamsUniquelyDecodable(ps: seq<Param>, qs: seq<Param>)
    requires FieldsFit(ParamValues(ps)) && FieldsFit(ParamValues(qs))
    requires Fields(ParamValues(ps)) == Fields(ParamValues(qs))
    ensures ParamValues(ps) == ParamValues(qs)
  {
    ReadFieldsBack(ParamValues(ps));
    ReadFieldsBack(ParamValues(qs));
  }
}
