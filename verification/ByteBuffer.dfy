/** The growable byte buffer: src/muradin/net/bytebuffer.h and bytebuffer.cpp.

    A Buf is a snapshot of the whole object, container and indices included. The class below computes
    on a real array; every one of its methods is tied to a function on snapshots, and the lemmas say
    what those functions do to the readable bytes. */
module ByteBuffer {
  import opened Bytes
  import opened Endian
  import opened Codec

  const RESERVED: nat := 8

  function Zeros(n: nat): seq<byte> {
    seq(n, _ => 0)
  }

  datatype Buf = Buf(store: seq<byte>, rd: nat, wt: nat)
  {
    predicate Ok() {
      RESERVED <= rd <= wt <= |store|
    }

    function Contents(): seq<byte>
      requires Ok()
    {
      store[rd..wt]
    }

    function Readable(): nat
      requires Ok()
    {
      wt - rd
    }

    function Writeable(): nat
      requires Ok()
    {
      |store| - wt
    }

    function Discardable(): nat
      requires Ok()
    {
      rd - RESERVED
    }
  }

  function Fresh(size: nat): Buf {
    Buf(Zeros(size + RESERVED), RESERVED, RESERVED)
  }

  function Reset(b: Buf): Buf {
    b.(rd := RESERVED, wt := RESERVED)
  }

  /** Make room for `n` more bytes: by growing if compaction would not do, and by compaction otherwise,
      even when there is room already. */
  function Spaced(b: Buf, n: nat): Buf
    requires b.Ok()
  {
    if b.Discardable() + b.Writeable() < n then
      b.(store := b.store + Zeros(n + b.wt - |b.store|))
    else
      var end := RESERVED + b.Readable();
      Buf(b.store[..RESERVED] + b.Contents() + b.store[end..], RESERVED, end)
  }

  /** Bytes put down at the write index, which then moves past them. */
  function Filled(b: Buf, data: seq<byte>): Buf
    requires b.Ok() && b.wt + |data| <= |b.store|
  {
    Buf(b.store[..b.wt] + data + b.store[b.wt + |data|..], b.rd, b.wt + |data|)
  }

  function Appended(b: Buf, data: seq<byte>): Buf
    requires b.Ok()
  {
    MakeSpaceFits(b, |data|);
    Filled(Spaced(b, |data|), data)
  }

  function Discarded(b: Buf, n: nat): Buf
    requires b.Ok()
  {
    if b.Readable() <= n then Reset(b) else b.(rd := b.rd + n)
  }

  function RolledBack(b: Buf, n: nat): Buf
    requires b.Ok()
  {
    if b.Readable() <= n then Reset(b) else b.(wt := b.wt - n)
  }

  function Shrunk(b: Buf, reserve: nat): Buf
    requires b.Ok()
  {
    Buf(Zeros(RESERVED) + b.Contents() + Zeros(reserve), RESERVED, RESERVED + b.Readable())
  }

  // ---------------------------------------------------------------------------------------------
  // What the operations mean for the readable bytes.

  /** The first `n` bytes, or all of them if there are not that many. */
  function Front<T>(s: seq<T>, n: nat): seq<T> {
    if n <= |s| then s[..n] else s
  }

  /** What is left after the first `n` elements. */
  function After<T>(s: seq<T>, n: nat): seq<T> {
    if n <= |s| then s[n..] else []
  }

  lemma MakeSpaceFits(b: Buf, n: nat)
    requires b.Ok()
    ensures
      var m := Spaced(b, n);
      && m.Ok()
      && m.Contents() == b.Contents()
      && m.Writeable() >= n
      && |m.store| >= |b.store|
      && (|m.store| == |b.store| || |m.store| == b.wt + n)
  {
  }

  lemma AppendExtends(b: Buf, data: seq<byte>)
    requires b.Ok()
    ensures Appended(b, data).Ok()
    ensures Appended(b, data).Contents() == b.Contents() + data
  {
    MakeSpaceFits(b, |data|);
  }

  lemma DiscardDrops(b: Buf, n: nat)
    requires b.Ok()
    ensures Discarded(b, n).Ok()
    ensures Discarded(b, n).Contents() == After(b.Contents(), n)
  {
  }

  lemma RollbackDrops(b: Buf, n: nat)
    requires b.Ok()
    ensures RolledBack(b, n).Ok()
    ensures RolledBack(b, n).Contents()
         == Front(b.Contents(), if n <= b.Readable() then b.Readable() - n else 0)
  {
  }

  lemma ShrinkKeeps(b: Buf, reserve: nat)
    requires b.Ok()
    ensures Shrunk(b, reserve).Ok()
    ensures Shrunk(b, reserve).Contents() == b.Contents()
    ensures Shrunk(b, reserve).Writeable() == reserve && Shrunk(b, reserve).Discardable() == 0
  {
  }

  // ---------------------------------------------------------------------------------------------
  // The object.

  /** Copy a[from..to] to dest, front to back. Source and destination may overlap. */
  method CopyForward(a: array<byte>, from: nat, to: nat, dest: nat)
    requires dest <= from <= to <= a.Length
    modifies a
    ensures a[..] == old(a[..dest] + a[from..to] + a[dest + (to - from)..])
  {
    for i := 0 to to - from
      invariant a[..dest] == old(a[..dest])
      invariant a[dest..dest + i] == old(a[from..from + i])
      invariant a[dest + i..] == old(a[dest + i..])
    {
      a[dest + i] := a[from + i];
    }
    assert a[..] == a[..dest] + a[dest..dest + (to - from)] + a[dest + (to - from)..];
  }

  /** Copy all of src to the front part of a that starts at dest. */
  method CopyInto(src: seq<byte>, a: array<byte>, dest: nat)
    requires dest + |src| <= a.Length
    modifies a
    ensures a[..] == old(a[..dest]) + src + old(a[dest + |src|..])
  {
    for i := 0 to |src|
      invariant a[..dest] == old(a[..dest])
      invariant a[dest..dest + i] == src[..i]
      invariant a[dest + i..] == old(a[dest + i..])
    {
      a[dest + i] := src[i];
    }
    assert a[..] == a[..dest] + a[dest..dest + |src|] + a[dest + |src|..];
  }

  class ByteBuffer {
    const host: Order
    var order: Order
    var container: array<byte>
    var rdIndex: nat
    var wtIndex: nat

    ghost predicate Valid()
      reads this
    {
      RESERVED <= rdIndex <= wtIndex <= container.Length
    }

    ghost function View(): Buf
      reads this, container
    {
      Buf(container[..], rdIndex, wtIndex)
    }

    ghost function Contents(): seq<byte>
      reads this, container
      requires Valid()
    {
      container[rdIndex..wtIndex]
    }

    constructor (host: Order, order: Order, size: nat)
      ensures Valid() && fresh(container)
      ensures this.host == host && this.order == order
      ensures View() == Fresh(size)
      ensures rdIndex == wtIndex == 8 && container.Length == size + 8
      ensures forall i :: 0 <= i < container.Length ==> container[i] == 0
    {
      this.host := host;
      this.order := order;
      container := new byte[size + RESERVED](_ => 0);
      rdIndex := RESERVED;
      wtIndex := RESERVED;
      new;
      assert container[..] == Zeros(size + RESERVED);
    }

    function ReadableBytes(): (n: nat)
      requires Valid()
      reads this, container
      ensures n == |Contents()|
    {
      wtIndex - rdIndex
    }

    function WriteableBytes(): nat
      requires Valid()
      reads this
    {
      container.Length - wtIndex
    }

    function DiscardableBytes(): nat
      requires Valid()
      reads this
    {
      rdIndex - RESERVED
    }

    /** The container moves to a longer array, zero-filled behind the old bytes. */
    method Grow(size: nat)
      requires Valid() && container.Length <= size
      modifies this`container
      ensures Valid() && fresh(container)
      ensures View() == old(View()).(store := old(container[..]) + Zeros(size - old(container.Length)))
    {
      var bigger := new byte[size](_ => 0);
      CopyInto(container[..], bigger, 0);
      container := bigger;
    }

    method MakeSpace(bytes: nat)
      requires Valid()
      modifies this`container, this`rdIndex, this`wtIndex, container
      ensures Valid()
      ensures View() == Spaced(old(View()), bytes)
      ensures Contents() == old(Contents()) && WriteableBytes() >= bytes
      ensures container == old(container) || fresh(container)
      ensures if old(rdIndex - 8 + container.Length - wtIndex) < bytes then
                rdIndex == old(rdIndex) && container.Length == old(wtIndex) + bytes
              else
                rdIndex == 8 && container == old(container)
    {
      MakeSpaceFits(View(), bytes);
      if DiscardableBytes() + WriteableBytes() < bytes {
        Grow(bytes + wtIndex);
      } else {
        var readable := ReadableBytes();
        CopyForward(container, rdIndex, wtIndex, RESERVED);
        rdIndex := RESERVED;
        wtIndex := rdIndex + readable;
      }
    }

    /** Put `data` where the write pointer points, without moving it. */
    method WriteAhead(data: seq<byte>)
      requires Valid() && |data| <= WriteableBytes()
      modifies container
      ensures Valid()
      ensures container[..] == old(container[..wtIndex]) + data + old(container[wtIndex + |data|..])
      ensures Contents() == old(Contents())
    {
      CopyInto(data, container, wtIndex);
    }

    /** Declare `bytes` bytes behind the write pointer readable. */
    method HasWritten(bytes: nat) returns (readable: nat)
      requires Valid() && wtIndex + bytes <= container.Length
      modifies this`wtIndex
      ensures Valid()
      ensures View() == old(View()).(wt := old(wtIndex) + bytes)
      ensures Contents() == old(Contents()) + container[old(wtIndex)..wtIndex]
      ensures readable == |Contents()|
    {
      wtIndex := wtIndex + bytes;
      readable := ReadableBytes();
    }

    method Append(data: seq<byte>) returns (readable: nat)
      requires Valid()
      modifies this`container, this`rdIndex, this`wtIndex, container
      ensures Valid()
      ensures View() == Appended(old(View()), data)
      ensures Contents() == old(Contents()) + data && readable == |Contents()|
      ensures container == old(container) || fresh(container)
    {
      AppendExtends(View(), data);
      MakeSpace(|data|);
      WriteAhead(data);
      readable := HasWritten(|data|);
    }

    /** The bytes do not move when space is made, so the pointer taken before still points at them. */
    method AppendSelf() returns (readable: nat)
      requires Valid() && DiscardableBytes() == 0 && ReadableBytes() <= WriteableBytes()
      modifies this`rdIndex, this`wtIndex, this`container, container
      ensures Valid() && container == old(container)
      ensures Contents() == old(Contents()) + old(Contents()) && readable == |Contents()|
    {
      var source, at, size := container, rdIndex, ReadableBytes();
      MakeSpace(size);
      assert source[at..at + size] == Contents();
      WriteAhead(source[at..at + size]);
      readable := HasWritten(size);
    }

    /** Append what another buffer holds. The source passes a pointer into the other container, which
        must outlive the making of space: a buffer appended to itself is asked to have room already and
        nothing to move. */
    method AppendBuffer(another: ByteBuffer) returns (readable: nat)
      requires Valid() && another.Valid()
      requires if another == this then DiscardableBytes() == 0 && ReadableBytes() <= WriteableBytes()
               else another.container != container
      modifies this`container, this`rdIndex, this`wtIndex, container
      ensures Valid() && another.Valid()
      ensures Contents() == old(Contents() + another.Contents()) && readable == |Contents()|
      ensures another != this ==> another.View() == old(another.View())
      ensures another == this ==> container == old(container)
      ensures container == old(container) || fresh(container)
    {
      if another == this {
        readable := AppendSelf();
      } else {
        readable := Append(another.container[another.rdIndex..another.wtIndex]);
      }
    }

    /** Drop the first `bytes` readable bytes. The source asserts that there are as many, and drops
        all there are where the assertion is compiled out. */
    method Discard(bytes: nat) returns (readable: nat)
      requires Valid()
      modifies this`rdIndex, this`wtIndex
      ensures Valid()
      ensures View() == Discarded(old(View()), bytes)
      ensures Contents() == if bytes <= |old(Contents())| then old(Contents())[bytes..] else []
      ensures Contents() == [] ==> rdIndex == wtIndex == 8
      ensures readable == |Contents()|
    {
      DiscardDrops(View(), bytes);
      if ReadableBytes() <= bytes {
        DiscardAll();
      } else {
        rdIndex := rdIndex + bytes;
      }
      readable := ReadableBytes();
    }

    /** Take back the last `bytes` readable bytes, with the same reading of the assertion. */
    method RollbackWrite(bytes: nat) returns (readable: nat)
      requires Valid()
      modifies this`rdIndex, this`wtIndex
      ensures Valid()
      ensures View() == RolledBack(old(View()), bytes)
      ensures Contents() == if bytes <= |old(Contents())|
                            then old(Contents())[..|old(Contents())| - bytes] else []
      ensures Contents() == [] ==> rdIndex == wtIndex == 8
      ensures readable == |Contents()|
    {
      RollbackDrops(View(), bytes);
      if ReadableBytes() <= bytes {
        DiscardAll();
      } else {
        wtIndex := wtIndex - bytes;
      }
      readable := ReadableBytes();
    }

    method DiscardAll()
      requires Valid()
      modifies this`rdIndex, this`wtIndex
      ensures Valid()
      ensures View() == Reset(old(View())) && Contents() == []
      ensures rdIndex == wtIndex == 8
    {
      rdIndex := RESERVED;
      wtIndex := RESERVED;
    }

    method EnsureWriteSpace(bytes: nat)
      requires Valid()
      modifies this`container, this`rdIndex, this`wtIndex, container
      ensures Valid()
      ensures View() == Spaced(old(View()), bytes)
      ensures Contents() == old(Contents()) && WriteableBytes() >= bytes
      ensures container == old(container) || fresh(container)
    {
      MakeSpace(bytes);
    }

    /** Move to a container with exactly `reserve` bytes to spare. */
    method Shrink(reserve: nat)
      requires Valid()
      modifies this`container, this`rdIndex, this`wtIndex
      ensures Valid() && fresh(container)
      ensures View() == Shrunk(old(View()), reserve)
      ensures Contents() == old(Contents()) && WriteableBytes() == reserve
      ensures rdIndex == 8 && container.Length == 8 + |Contents()| + reserve
    {
      ShrinkKeeps(View(), reserve);
      var readable := ReadableBytes();
      var buf := new byte[RESERVED + readable + reserve](_ => 0);
      CopyInto(container[rdIndex..wtIndex], buf, RESERVED);
      container := buf;
      rdIndex := RESERVED;
      wtIndex := rdIndex + readable;
    }

    /** Exchange everything with another buffer. */
    method Swap(another: ByteBuffer)
      requires Valid() && another.Valid()
      modifies this, another
      ensures Valid() && another.Valid()
      ensures View() == old(another.View()) && another.View() == old(View())
      ensures order == old(another.order) && another.order == old(order)
      ensures container == old(another.container) && another.container == old(container)
    {
      container, another.container := another.container, container;
      wtIndex, another.wtIndex := another.wtIndex, wtIndex;
      rdIndex, another.rdIndex := another.rdIndex, rdIndex;
      order, another.order := another.order, order;
    }

    /** The distance, counted from one, of the first readable `c`; zero if there is none. */
    method FindChar(c: byte) returns (pos: nat)
      requires Valid()
      ensures pos == 0 <==> c !in Contents()
      ensures pos > 0 ==> pos <= |Contents()| && Contents()[pos - 1] == c && c !in Contents()[..pos - 1]
    {
      var i := rdIndex;
      while i < wtIndex && container[i] != c
        invariant rdIndex <= i <= wtIndex
        invariant c !in container[rdIndex..i]
      {
        i := i + 1;
      }
      assert container[rdIndex..i] == Contents()[..i - rdIndex];
      if i == wtIndex {
        return 0;
      }
      assert Contents()[i - rdIndex] == c;
      return i - rdIndex + 1;
    }

    // Integers, in the buffer's byte order if `convert` is set and in the host's otherwise.

    method AppendUint16(val: bv16, convert: bool) returns (readable: nat)
      requires Valid()
      modifies this`container, this`rdIndex, this`wtIndex, container
      ensures Valid()
      ensures View() == Appended(old(View()), Encode(host, Format(order, convert, K16), V16(val)))
      ensures Contents() == old(Contents()) + Encode(host, Format(order, convert, K16), V16(val))
      ensures readable == |Contents()|
      ensures container == old(container) || fresh(container)
    {
      var v := val;
      if convert {
        v := ToOrder2(host, order, v);
      }
      readable := Append(Store2(host, v));
    }

    method ReadUint16(convert: bool) returns (val: bv16)
      requires Valid() && ReadableBytes() >= 2
      ensures V16(val) == Decode(host, Format(order, convert, K16), Contents()[..2])
    {
      val := Load2(host, container[rdIndex..rdIndex + 2]);
      assert container[rdIndex..rdIndex + 2] == Contents()[..2];
      if convert {
        val := ToOrder2(host, order, val);
      }
    }

    method RetrieveUint16(convert: bool) returns (val: bv16)
      requires Valid() && ReadableBytes() >= 2
      modifies this`rdIndex, this`wtIndex
      ensures Valid()
      ensures V16(val) == Decode(host, Format(order, convert, K16), old(Contents())[..2])
      ensures View() == Discarded(old(View()), 2) && Contents() == old(Contents())[2..]
    {
      val := ReadUint16(convert);
      var _ := Discard(2);
    }

    method AppendUint32(val: bv32, convert: bool) returns (readable: nat)
      requires Valid()
      modifies this`container, this`rdIndex, this`wtIndex, container
      ensures Valid()
      ensures View() == Appended(old(View()), Encode(host, Format(order, convert, K32), V32(val)))
      ensures Contents() == old(Contents()) + Encode(host, Format(order, convert, K32), V32(val))
      ensures readable == |Contents()|
      ensures container == old(container) || fresh(container)
    {
      var v := val;
      if convert {
        v := ToOrder4(host, order, v);
      }
      readable := Append(Store4(host, v));
    }

    method ReadUint32(convert: bool) returns (val: bv32)
      requires Valid() && ReadableBytes() >= 4
      ensures V32(val) == Decode(host, Format(order, convert, K32), Contents()[..4])
    {
      val := Load4(host, container[rdIndex..rdIndex + 4]);
      assert container[rdIndex..rdIndex + 4] == Contents()[..4];
      if convert {
        val := ToOrder4(host, order, val);
      }
    }

    method RetrieveUint32(convert: bool) returns (val: bv32)
      requires Valid() && ReadableBytes() >= 4
      modifies this`rdIndex, this`wtIndex
      ensures Valid()
      ensures V32(val) == Decode(host, Format(order, convert, K32), old(Contents())[..4])
      ensures View() == Discarded(old(View()), 4) && Contents() == old(Contents())[4..]
    {
      val := ReadUint32(convert);
      var _ := Discard(4);
    }

    method AppendUint64(val: bv64, convert: bool) returns (readable: nat)
      requires Valid()
      modifies this`container, this`rdIndex, this`wtIndex, container
      ensures Valid()
      ensures View() == Appended(old(View()), Encode(host, Format(order, convert, K64), V64(val)))
      ensures Contents() == old(Contents()) + Encode(host, Format(order, convert, K64), V64(val))
      ensures readable == |Contents()|
      ensures container == old(container) || fresh(container)
    {
      var v := val;
      if convert {
        v := ToOrder8(host, order, v);
      }
      readable := Append(Store8(host, v));
    }

    method ReadUint64(convert: bool) returns (val: bv64)
      requires Valid() && ReadableBytes() >= 8
      ensures V64(val) == Decode(host, Format(order, convert, K64), Contents()[..8])
    {
      val := Load8(host, container[rdIndex..rdIndex + 8]);
      assert container[rdIndex..rdIndex + 8] == Contents()[..8];
      if convert {
        val := ToOrder8(host, order, val);
      }
    }

    method RetrieveUint64(convert: bool) returns (val: bv64)
      requires Valid() && ReadableBytes() >= 8
      modifies this`rdIndex, this`wtIndex
      ensures Valid()
      ensures V64(val) == Decode(host, Format(order, convert, K64), old(Contents())[..8])
      ensures View() == Discarded(old(View()), 8) && Contents() == old(Contents())[8..]
    {
      val := ReadUint64(convert);
      var _ := Discard(8);
    }

    method AppendUint8(val: bv8) returns (readable: nat)
      requires Valid()
      modifies this`container, this`rdIndex, this`wtIndex, container
      ensures Valid()
      ensures View() == Appended(old(View()), [val])
      ensures Contents() == old(Contents()) + [val] && readable == |Contents()|
      ensures container == old(container) || fresh(container)
    {
      readable := Append([val]);
    }

    method ReadUint8() returns (val: bv8)
      requires Valid() && ReadableBytes() >= 1
      ensures val == Contents()[0]
    {
      val := container[rdIndex];
    }

    method RetrieveUint8() returns (val: bv8)
      requires Valid() && ReadableBytes() >= 1
      modifies this`rdIndex, this`wtIndex
      ensures Valid()
      ensures old(Contents()) == [val] + Contents()
    {
      val := ReadUint8();
      var _ := Discard(1);
    }
  }
}
