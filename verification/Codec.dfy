/** Integers of four widths as bytes, the way the byte buffer appends and reads them. */
module Codec {
  import opened Bytes
  import opened Endian

  datatype Kind = K8 | K16 | K32 | K64

  datatype Value = V8(v8: bv8) | V16(v16: bv16) | V32(v32: bv32) | V64(v64: bv64)

  /** What writer and reader have to agree on: the buffer's byte order at the time, whether it is
      applied, and the width. */
  datatype Format = Format(order: Order, convert: bool, kind: Kind)

  function KindOf(v: Value): Kind {
    match v
    case V8(_) => K8
    case V16(_) => K16
    case V32(_) => K32
    case V64(_) => K64
  }

  function Width(k: Kind): nat {
    match k
    case K8 => 1
    case K16 => 2
    case K32 => 4
    case K64 => 8
  }

  function Encode(host: Order, f: Format, v: Value): (bytes: seq<byte>)
    requires KindOf(v) == f.kind
    ensures |bytes| == Width(f.kind)
  {
    match v
    case V8(x) => [x]
    case V16(x) => Store2(host, if f.convert then ToOrder2(host, f.order, x) else x)
    case V32(x) => Store4(host, if f.convert then ToOrder4(host, f.order, x) else x)
    case V64(x) => Store8(host, if f.convert then ToOrder8(host, f.order, x) else x)
  }

  function Decode(host: Order, f: Format, bytes: seq<byte>): (v: Value)
    requires |bytes| == Width(f.kind)
    ensures KindOf(v) == f.kind
  {
    match f.kind
    case K8 => V8(bytes[0])
    case K16 => var x := Load2(host, bytes); V16(if f.convert then ToOrder2(host, f.order, x) else x)
    case K32 => var x := Load4(host, bytes); V32(if f.convert then ToOrder4(host, f.order, x) else x)
    case K64 => var x := Load8(host, bytes); V64(if f.convert then ToOrder8(host, f.order, x) else x)
  }

  function Digits(v: Value): seq<byte> {
    match v
    case V8(x) => [x]
    case V16(x) => Digits2(x)
    case V32(x) => Digits4(x)
    case V64(x) => Digits8(x)
  }

  /** Reading with the format it was written with gives the value back, on either host. */
  lemma DecodeEncode(host: Order, f: Format, v: Value)
    requires KindOf(v) == f.kind
    ensures Decode(host, f, Encode(host, f, v)) == v
  {
    match v
    case V8(_) =>
    case V16(x) => StoreLoad2(host, f.order, x); StoreLoad2(host, f.order, ToOrder2(host, f.order, x));
    case V32(x) => StoreLoad4(host, f.order, x); StoreLoad4(host, f.order, ToOrder4(host, f.order, x));
    case V64(x) => StoreLoad8(host, f.order, x); StoreLoad8(host, f.order, ToOrder8(host, f.order, x));
  }

  /** The order in which the digits of a format lie in memory. */
  function Effective(host: Order, f: Format): Order {
    if f.convert then f.order else host
  }

  /** With conversion on, the bytes are the digits in the buffer's order; with it off, in the host's. */
  lemma EncodedDigits(host: Order, f: Format, v: Value)
    requires KindOf(v) == f.kind
    ensures Encode(host, f, v) == Laid(Effective(host, f), Digits(v))
  {
    match v
    case V8(_) =>
    case V16(x) => ConvertedStore2(host, f.order, x);
    case V32(x) => ConvertedStore4(host, f.order, x);
    case V64(x) => ConvertedStore8(host, f.order, x);
  }

  lemma SameOrder(order: Order, other: Order, digits: seq<byte>)
    ensures Laid(order, digits) == Laid(other, digits) <==>
              order == other || digits == Reversed(digits)
  {
  }

  /** Reading with another format of the same width gives the value back exactly when both formats lay
      digits out in the same order, or the digits read the same both ways. */
  lemma DecodeOtherFormat(host: Order, f: Format, g: Format, v: Value)
    requires KindOf(v) == f.kind == g.kind
    ensures Decode(host, g, Encode(host, f, v)) == v <==>
              Effective(host, f) == Effective(host, g) || Digits(v) == Reversed(Digits(v))
  {
    EncodedDigits(host, f, v);
    EncodedDigits(host, g, v);
    DecodeEncode(host, g, v);
    SameOrder(Effective(host, f), Effective(host, g), Digits(v));
    if Decode(host, g, Encode(host, f, v)) == v {
      EncodeDecode(host, g, Encode(host, f, v));
    }
  }

  /** Every byte string of the right length is the encoding of the value read from it. */
  lemma EncodeDecode(host: Order, f: Format, bytes: seq<byte>)
    requires |bytes| == Width(f.kind)
    ensures Encode(host, f, Decode(host, f, bytes)) == bytes
  {
    EncodedDigits(host, f, Decode(host, f, bytes));
    DecodedDigits(host, f, bytes);
    LaidTwice(Effective(host, f), bytes);
  }

  lemma DecodedDigits(host: Order, f: Format, bytes: seq<byte>)
    requires |bytes| == Width(f.kind)
    ensures Digits(Decode(host, f, bytes)) == Laid(Effective(host, f), bytes)
  {
    match f.kind
    case K8 =>
      assert Reversed(bytes) == bytes;
    case K16 => LoadedDigits2(host, f.order, bytes);
    case K32 => LoadedDigits4(host, f.order, bytes);
    case K64 => LoadedDigits8(host, f.order, bytes);
  }

  // ---------------------------------------------------------------------------------------------
  // The bytes themselves, each as a shift of the value: the highest first in big-endian order (network
  // byte order, Appendix B of RFC 791), the lowest first in little-endian order, whatever the host. Without
  // conversion the host's order decides.

  lemma EncodedBytes16(host: Order, f: Format, v: bv16)
    requires f.kind == K16
    ensures (if f.convert then f.order else host) == BigEndian ==>
      Encode(host, f, V16(v)) ==
        [((v >> 8) & 0xFF) as byte, (v & 0xFF) as byte]
    ensures (if f.convert then f.order else host) == LittleEndian ==>
      Encode(host, f, V16(v)) ==
        [(v & 0xFF) as byte, ((v >> 8) & 0xFF) as byte]
  {
    EncodedDigits(host, f, V16(v));
  }

  lemma EncodedBytes32(host: Order, f: Format, v: bv32)
    requires f.kind == K32
    ensures (if f.convert then f.order else host) == BigEndian ==>
      Encode(host, f, V32(v)) ==
        [((v >> 24) & 0xFF) as byte, ((v >> 16) & 0xFF) as byte,
         ((v >> 8) & 0xFF) as byte, (v & 0xFF) as byte]
    ensures (if f.convert then f.order else host) == LittleEndian ==>
      Encode(host, f, V32(v)) ==
        [(v & 0xFF) as byte, ((v >> 8) & 0xFF) as byte,
         ((v >> 16) & 0xFF) as byte, ((v >> 24) & 0xFF) as byte]
  {
    EncodedDigits(host, f, V32(v));
  }

  lemma ReversedEight(s: seq<byte>)
    requires |s| == 8
    ensures Reversed(s) == [s[7], s[6], s[5], s[4], s[3], s[2], s[1], s[0]]
  {
  }

  lemma Digits8Listed(v: bv64)
    ensures Digits8(v) ==
        [((v >> 56) & 0xFF) as byte, ((v >> 48) & 0xFF) as byte,
         ((v >> 40) & 0xFF) as byte, ((v >> 32) & 0xFF) as byte,
         ((v >> 24) & 0xFF) as byte, ((v >> 16) & 0xFF) as byte,
         ((v >> 8) & 0xFF) as byte, (v & 0xFF) as byte]
  {
  }

  lemma Digits8ListedBackwards(v: bv64)
    ensures Reversed(Digits8(v)) ==
        [(v & 0xFF) as byte, ((v >> 8) & 0xFF) as byte,
         ((v >> 16) & 0xFF) as byte, ((v >> 24) & 0xFF) as byte,
         ((v >> 32) & 0xFF) as byte, ((v >> 40) & 0xFF) as byte,
         ((v >> 48) & 0xFF) as byte, ((v >> 56) & 0xFF) as byte]
  {
    ReversedEight(Digits8(v));
  }

  lemma EncodedBytes64(host: Order, f: Format, v: bv64)
    requires f.kind == K64
    ensures (if f.convert then f.order else host) == BigEndian ==>
      Encode(host, f, V64(v)) ==
        [((v >> 56) & 0xFF) as byte, ((v >> 48) & 0xFF) as byte,
         ((v >> 40) & 0xFF) as byte, ((v >> 32) & 0xFF) as byte,
         ((v >> 24) & 0xFF) as byte, ((v >> 16) & 0xFF) as byte,
         ((v >> 8) & 0xFF) as byte, (v & 0xFF) as byte]
    ensures (if f.convert then f.order else host) == LittleEndian ==>
      Encode(host, f, V64(v)) ==
        [(v & 0xFF) as byte, ((v >> 8) & 0xFF) as byte,
         ((v >> 16) & 0xFF) as byte, ((v >> 24) & 0xFF) as byte,
         ((v >> 32) & 0xFF) as byte, ((v >> 40) & 0xFF) as byte,
         ((v >> 48) & 0xFF) as byte, ((v >> 56) & 0xFF) as byte]
  {
    EncodedDigits(host, f, V64(v));
    if Effective(host, f) == BigEndian {
      Digits8Listed(v);
    } else {
      Digits8ListedBackwards(v);
    }
  }

  // And the bytes a value is read from.

  lemma DecodedBytes16(host: Order, f: Format, bytes: seq<byte>, v: bv16)
    requires f.kind == K16 && |bytes| == 2 && Decode(host, f, bytes) == V16(v)
    ensures (if f.convert then f.order else host) == BigEndian ==>
      bytes ==
        [((v >> 8) & 0xFF) as byte, (v & 0xFF) as byte]
    ensures (if f.convert then f.order else host) == LittleEndian ==>
      bytes ==
        [(v & 0xFF) as byte, ((v >> 8) & 0xFF) as byte]
  {
    EncodeDecode(host, f, bytes);
    EncodedBytes16(host, f, v);
  }

  lemma DecodedBytes32(host: Order, f: Format, bytes: seq<byte>, v: bv32)
    requires f.kind == K32 && |bytes| == 4 && Decode(host, f, bytes) == V32(v)
    ensures (if f.convert then f.order else host) == BigEndian ==>
      bytes ==
        [((v >> 24) & 0xFF) as byte, ((v >> 16) & 0xFF) as byte,
         ((v >> 8) & 0xFF) as byte, (v & 0xFF) as byte]
    ensures (if f.convert then f.order else host) == LittleEndian ==>
      bytes ==
        [(v & 0xFF) as byte, ((v >> 8) & 0xFF) as byte,
         ((v >> 16) & 0xFF) as byte, ((v >> 24) & 0xFF) as byte]
  {
    EncodeDecode(host, f, bytes);
    EncodedBytes32(host, f, v);
  }

  lemma DecodedBytes64(host: Order, f: Format, bytes: seq<byte>, v: bv64)
    requires f.kind == K64 && |bytes| == 8 && Decode(host, f, bytes) == V64(v)
    ensures (if f.convert then f.order else host) == BigEndian ==>
      bytes ==
        [((v >> 56) & 0xFF) as byte, ((v >> 48) & 0xFF) as byte,
         ((v >> 40) & 0xFF) as byte, ((v >> 32) & 0xFF) as byte,
         ((v >> 24) & 0xFF) as byte, ((v >> 16) & 0xFF) as byte,
         ((v >> 8) & 0xFF) as byte, (v & 0xFF) as byte]
    ensures (if f.convert then f.order else host) == LittleEndian ==>
      bytes ==
        [(v & 0xFF) as byte, ((v >> 8) & 0xFF) as byte,
         ((v >> 16) & 0xFF) as byte, ((v >> 24) & 0xFF) as byte,
         ((v >> 32) & 0xFF) as byte, ((v >> 40) & 0xFF) as byte,
         ((v >> 48) & 0xFF) as byte, ((v >> 56) & 0xFF) as byte]
  {
    EncodeDecode(host, f, bytes);
    EncodedBytes64(host, f, v);
  }

  /** One value on the four hosts and orders there are. */
  lemma BytesWitness()
    ensures forall host ::
      && Encode(host, Format(BigEndian, true, K16), V16(0x1234)) == [0x12, 0x34]
      && Encode(host, Format(LittleEndian, true, K16), V16(0x1234)) == [0x34, 0x12]
    ensures forall order ::
      && Encode(BigEndian, Format(order, false, K32), V32(0x12345678)) == [0x12, 0x34, 0x56, 0x78]
      && Encode(LittleEndian, Format(order, false, K32), V32(0x12345678)) == [0x78, 0x56, 0x34, 0x12]
  {
    forall host
      ensures Encode(host, Format(BigEndian, true, K16), V16(0x1234)) == [0x12, 0x34]
      ensures Encode(host, Format(LittleEndian, true, K16), V16(0x1234)) == [0x34, 0x12]
    {
      EncodedBytes16(host, Format(BigEndian, true, K16), 0x1234);
      EncodedBytes16(host, Format(LittleEndian, true, K16), 0x1234);
    }
    forall order
      ensures Encode(BigEndian, Format(order, false, K32), V32(0x12345678)) == [0x12, 0x34, 0x56, 0x78]
      ensures Encode(LittleEndian, Format(order, false, K32), V32(0x12345678)) == [0x78, 0x56, 0x34, 0x12]
    {
      EncodedBytes32(BigEndian, Format(order, false, K32), 0x12345678);
      EncodedBytes32(LittleEndian, Format(order, false, K32), 0x12345678);
    }
  }
}
