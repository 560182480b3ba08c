/** Byte order: src/muradin/net/endian.h, for a host of either order. */
module Endian {
  import opened Bytes

  datatype Order = LittleEndian | BigEndian

  // The swaps.

  function Swap2(v: bv16): bv16 {
    (v << 8) | (v >> 8)
  }

  function Swap4(v: bv32): bv32 {
    (v << 24) | ((v << 8) & 0x00FF0000) | ((v >> 8) & 0x0000FF00) | (v >> 24)
  }

  function Swap8(v: bv64): bv64 {
    ((v & 0x00000000000000FF) << 56) | ((v & 0x000000000000FF00) << 40) |
    ((v & 0x0000000000FF0000) << 24) | ((v & 0x00000000FF000000) << 8) |
    ((v & 0x000000FF00000000) >> 8) | ((v & 0x0000FF0000000000) >> 24) |
    ((v & 0x00FF000000000000) >> 40) | ((v & 0xFF00000000000000) >> 56)
  }

  // Conversion from the host's order to a given one (htobe* and htole*), and back: both directions
  // either keep the value or swap it.

  function ToOrder2(host: Order, order: Order, v: bv16): bv16 {
    if host == order then v else Swap2(v)
  }

  function ToOrder4(host: Order, order: Order, v: bv32): bv32 {
    if host == order then v else Swap4(v)
  }

  function ToOrder8(host: Order, order: Order, v: bv64): bv64 {
    if host == order then v else Swap8(v)
  }

  // Base-256 digits, the most significant first: network byte order, Appendix B of RFC 791.

  function Digits2(v: bv16): seq<byte> {
    [((v >> 8) & 0xFF) as byte, (v & 0xFF) as byte]
  }

  function Digits4(v: bv32): seq<byte> {
    [((v >> 24) & 0xFF) as byte, ((v >> 16) & 0xFF) as byte,
     ((v >> 8) & 0xFF) as byte, (v & 0xFF) as byte]
  }

  function Octet8(v: bv64): byte {
    (v & 0xFF) as byte
  }

  function Digits8(v: bv64): seq<byte> {
    [Octet8(v >> 56), Octet8(v >> 48), Octet8(v >> 40), Octet8(v >> 32),
     Octet8(v >> 24), Octet8(v >> 16), Octet8(v >> 8), Octet8(v)]
  }

  function Value2(d: seq<byte>): bv16
    requires |d| == 2
  {
    (d[0] as bv16 << 8) | d[1] as bv16
  }

  function Value4(d: seq<byte>): bv32
    requires |d| == 4
  {
    (d[0] as bv32 << 24) | (d[1] as bv32 << 16) | (d[2] as bv32 << 8) | d[3] as bv32
  }

  function Value8(d: seq<byte>): bv64
    requires |d| == 8
  {
    (d[0] as bv64 << 56) | (d[1] as bv64 << 48) | (d[2] as bv64 << 40) | (d[3] as bv64 << 32) |
    (d[4] as bv64 << 24) | (d[5] as bv64 << 16) | (d[6] as bv64 << 8) | d[7] as bv64
  }

  function Reversed(s: seq<byte>): (r: seq<byte>)
    ensures |r| == |s|
  {
    seq(|s|, i requires 0 <= i < |s| => s[|s| - 1 - i])
  }

  /** Digits laid out in memory by a host or a protocol of the given order, and read off again. */
  function Laid(order: Order, digits: seq<byte>): (r: seq<byte>)
    ensures |r| == |digits|
  {
    if order.BigEndian? then digits else Reversed(digits)
  }

  lemma ReversedTwice(s: seq<byte>)
    ensures Reversed(Reversed(s)) == s
  {
  }

  lemma LaidTwice(order: Order, digits: seq<byte>)
    ensures Laid(order, Laid(order, digits)) == digits
  {
    ReversedTwice(digits);
  }

  // What an integer looks like in the host's memory, and what the host makes of such bytes.

  function Store2(host: Order, v: bv16): (r: seq<byte>) ensures |r| == 2 {
    Laid(host, Digits2(v))
  }

  function Store4(host: Order, v: bv32): (r: seq<byte>) ensures |r| == 4 {
    Laid(host, Digits4(v))
  }

  function Store8(host: Order, v: bv64): (r: seq<byte>) ensures |r| == 8 {
    Laid(host, Digits8(v))
  }

  function Load2(host: Order, bytes: seq<byte>): bv16 requires |bytes| == 2 {
    Value2(Laid(host, bytes))
  }

  function Load4(host: Order, bytes: seq<byte>): bv32 requires |bytes| == 4 {
    Value4(Laid(host, bytes))
  }

  function Load8(host: Order, bytes: seq<byte>): bv64 requires |bytes| == 8 {
    Value8(Laid(host, bytes))
  }

  // Digits and values correspond, for every value.

  lemma DigitsRoundTrip2(v: bv16)
    ensures Value2(Digits2(v)) == v
  {
  }

  lemma DigitsRoundTrip4(v: bv32)
    ensures Value4(Digits4(v)) == v
  {
  }

  lemma DigitsRoundTrip8(v: bv64)
    ensures Value8(Digits8(v)) == v
  {
  }

  lemma ValueRoundTrip2(d: seq<byte>)
    requires |d| == 2
    ensures Digits2(Value2(d)) == d
  {
  }

  lemma ValueRoundTrip4(d: seq<byte>)
    requires |d| == 4
    ensures Digits4(Value4(d)) == d
  {
  }

  lemma ValueRoundTrip8(d: seq<byte>)
    requires |d| == 8
    ensures Digits8(Value8(d)) == d
  {
  }

  // The swaps reverse the digits and undo themselves.

  lemma SwapReverses2(v: bv16)
    ensures Digits2(Swap2(v)) == Reversed(Digits2(v))
    ensures Swap2(Swap2(v)) == v
  {
  }

  lemma SwapReverses4(v: bv32)
    ensures Digits4(Swap4(v)) == Reversed(Digits4(v))
    ensures Swap4(Swap4(v)) == v
  {
  }

  lemma SwapOctets8(v: bv64)
    ensures Octet8(Swap8(v) >> 56) == Octet8(v)
    ensures Octet8(Swap8(v) >> 48) == Octet8(v >> 8)
    ensures Octet8(Swap8(v) >> 40) == Octet8(v >> 16)
    ensures Octet8(Swap8(v) >> 32) == Octet8(v >> 24)
    ensures Octet8(Swap8(v) >> 24) == Octet8(v >> 32)
    ensures Octet8(Swap8(v) >> 16) == Octet8(v >> 40)
    ensures Octet8(Swap8(v) >> 8) == Octet8(v >> 48)
    ensures Octet8(Swap8(v)) == Octet8(v >> 56)
  {
  }

  lemma SwapReverses8(v: bv64)
    ensures Digits8(Swap8(v)) == Reversed(Digits8(v))
    ensures Swap8(Swap8(v)) == v
  {
    SwapOctets8(v);
  }

  /** Converting to an order and storing natively puts the digits down in that order, whatever the
      host. */
  lemma ConvertedStore2(host: Order, order: Order, v: bv16)
    ensures Store2(host, ToOrder2(host, order, v)) == Laid(order, Digits2(v))
  {
    SwapReverses2(v);
    ReversedTwice(Digits2(v));
  }

  lemma ConvertedStore4(host: Order, order: Order, v: bv32)
    ensures Store4(host, ToOrder4(host, order, v)) == Laid(order, Digits4(v))
  {
    SwapReverses4(v);
    ReversedTwice(Digits4(v));
  }

  lemma ConvertedStore8(host: Order, order: Order, v: bv64)
    ensures Store8(host, ToOrder8(host, order, v)) == Laid(order, Digits8(v))
  {
    SwapReverses8(v);
    ReversedTwice(Digits8(v));
  }

  /** Storing and loading on the same host gives the value back; so does converting twice. */
  lemma StoreLoad2(host: Order, order: Order, v: bv16)
    ensures Load2(host, Store2(host, v)) == v
    ensures ToOrder2(host, order, ToOrder2(host, order, v)) == v
  {
    LaidTwice(host, Digits2(v));
    DigitsRoundTrip2(v);
    SwapReverses2(v);
  }

  lemma StoreLoad4(host: Order, order: Order, v: bv32)
    ensures Load4(host, Store4(host, v)) == v
    ensures ToOrder4(host, order, ToOrder4(host, order, v)) == v
  {
    LaidTwice(host, Digits4(v));
    DigitsRoundTrip4(v);
    SwapReverses4(v);
  }

  lemma StoreLoad8(host: Order, order: Order, v: bv64)
    ensures Load8(host, Store8(host, v)) == v
    ensures ToOrder8(host, order, ToOrder8(host, order, v)) == v
  {
    LaidTwice(host, Digits8(v));
    DigitsRoundTrip8(v);
    SwapReverses8(v);
  }

  /** A load puts the digits together in the host's order, and a conversion turns that into another. */
  lemma LoadedDigits2(host: Order, order: Order, bytes: seq<byte>)
    requires |bytes| == 2
    ensures Digits2(Load2(host, bytes)) == Laid(host, bytes)
    ensures Digits2(ToOrder2(host, order, Load2(host, bytes))) == Laid(order, bytes)
  {
    ValueRoundTrip2(Laid(host, bytes));
    SwapReverses2(Load2(host, bytes));
    ReversedTwice(bytes);
  }

  lemma LoadedDigits4(host: Order, order: Order, bytes: seq<byte>)
    requires |bytes| == 4
    ensures Digits4(Load4(host, bytes)) == Laid(host, bytes)
    ensures Digits4(ToOrder4(host, order, Load4(host, bytes))) == Laid(order, bytes)
  {
    ValueRoundTrip4(Laid(host, bytes));
    SwapReverses4(Load4(host, bytes));
    ReversedTwice(bytes);
  }

  lemma LoadedDigits8(host: Order, order: Order, bytes: seq<byte>)
    requires |bytes| == 8
    ensures Digits8(Load8(host, bytes)) == Laid(host, bytes)
    ensures Digits8(ToOrder8(host, order, Load8(host, bytes))) == Laid(order, bytes)
  {
    ValueRoundTrip8(Laid(host, bytes));
    SwapReverses8(Load8(host, bytes));
    ReversedTwice(bytes);
  }
}
