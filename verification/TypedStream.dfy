/** The buffer as a queue of typed values: what is retrieved is what was appended, in order, whatever
    compactions come in between. */
module TypedStream {
  import opened Bytes
  import opened Endian
  import opened Codec
  import opened ByteBuffer

  datatype Item = Item(format: Format, value: Value)
  {
    predicate Ok() {
      KindOf(value) == format.kind
    }
  }

  datatype Op =
    | Put(item: Item)
    | Take                  // read and discard with the format of the oldest item
    | EnsureSpace(n: nat)
    | Shrink(reserve: nat)

  predicate AllOk(items: seq<Item>) {
    forall i :: 0 <= i < |items| ==> items[i].Ok()
  }

  function Flatten(parts: seq<seq<byte>>): seq<byte> {
    if parts == [] then [] else parts[0] + Flatten(parts[1..])
  }

  lemma Assoc(a: seq<byte>, b: seq<byte>, c: seq<byte>)
    ensures a + (b + c) == (a + b) + c
  {
  }

  lemma {:induction false} FlattenConcat(parts: seq<seq<byte>>, more: seq<seq<byte>>)
    ensures Flatten(parts + more) == Flatten(parts) + Flatten(more)
  {
    if parts == [] {
      assert parts + more == more;
    } else {
      var all := parts + more;
      FlattenConcat(parts[1..], more);
      assert all[0] == parts[0] && all[1..] == parts[1..] + more;
      Assoc(parts[0], Flatten(parts[1..]), Flatten(more));
    }
  }

  function EncodeEach(host: Order, items: seq<Item>): seq<seq<byte>>
    requires AllOk(items)
  {
    seq(|items|, i requires 0 <= i < |items| => Encode(host, items[i].format, items[i].value))
  }

  function EncodeAll(host: Order, items: seq<Item>): seq<byte>
    requires AllOk(items)
  {
    Flatten(EncodeEach(host, items))
  }

  function Values(items: seq<Item>): seq<Value> {
    seq(|items|, i requires 0 <= i < |items| => items[i].value)
  }

  lemma EncodeAllPut(host: Order, items: seq<Item>, item: Item)
    requires AllOk(items) && item.Ok()
    ensures EncodeAll(host, items + [item])
         == EncodeAll(host, items) + Encode(host, item.format, item.value)
  {
    var last := [Encode(host, item.format, item.value)];
    assert EncodeEach(host, items + [item]) == EncodeEach(host, items) + last;
    FlattenConcat(EncodeEach(host, items), last);
    assert last[1..] == [] && Flatten(last) == last[0] + Flatten([]);
  }

  lemma EncodeAllTake(host: Order, items: seq<Item>)
    requires AllOk(items) && items != []
    ensures EncodeAll(host, items)
         == Encode(host, items[0].format, items[0].value) + EncodeAll(host, items[1..])
  {
    assert EncodeEach(host, items)[1..] == EncodeEach(host, items[1..]);
  }

  /** The readable bytes are the queued items, encoded one after the other. */
  predicate Holds(host: Order, b: Buf, queue: seq<Item>) {
    b.Ok() && AllOk(queue) && b.Contents() == EncodeAll(host, queue)
  }

  /** The value that the next read finds in the bytes. */
  function Next(host: Order, b: Buf, f: Format): Value
    requires b.Ok() && b.Readable() >= Width(f.kind)
  {
    Decode(host, f, b.Contents()[..Width(f.kind)])
  }

  predicate Allowed(queue: seq<Item>, op: Op) {
    (op.Put? ==> op.item.Ok()) && (op.Take? ==> queue != [])
  }

  function BufAfter(host: Order, b: Buf, queue: seq<Item>, op: Op): Buf
    requires Holds(host, b, queue) && Allowed(queue, op)
  {
    match op
    case Put(item) => Appended(b, Encode(host, item.format, item.value))
    case Take => Discarded(b, Width(queue[0].format.kind))
    case EnsureSpace(n) => Spaced(b, n)
    case Shrink(reserve) => Shrunk(b, reserve)
  }

  function QueueAfter(queue: seq<Item>, op: Op): seq<Item>
    requires Allowed(queue, op)
  {
    match op
    case Put(item) => queue + [item]
    case Take => queue[1..]
    case _ => queue
  }

  lemma StepHolds(host: Order, b: Buf, queue: seq<Item>, op: Op)
    requires Holds(host, b, queue) && Allowed(queue, op)
    ensures Holds(host, BufAfter(host, b, queue, op), QueueAfter(queue, op))
    ensures op.Take? ==>
      && b.Readable() >= Width(queue[0].format.kind)
      && Next(host, b, queue[0].format) == queue[0].value
  {
    match op
    case Put(item) =>
      AppendExtends(b, Encode(host, item.format, item.value));
      EncodeAllPut(host, queue, item);
    case Take =>
      var bytes := Encode(host, queue[0].format, queue[0].value);
      EncodeAllTake(host, queue);
      DecodeEncode(host, queue[0].format, queue[0].value);
      DiscardDrops(b, |bytes|);
      assert b.Contents()[..|bytes|] == bytes;
    case EnsureSpace(n) => MakeSpaceFits(b, n);
    case Shrink(reserve) => ShrinkKeeps(b, reserve);
  }

  /** What one operation gives out and puts in. */
  function Given(host: Order, b: Buf, queue: seq<Item>, op: Op): seq<Value>
    requires Holds(host, b, queue) && Allowed(queue, op)
  {
    if op.Take? then StepHolds(host, b, queue, op); [Next(host, b, queue[0].format)] else []
  }

  function Added(op: Op): seq<Item> {
    if op.Put? then [op.item] else []
  }

  predicate Legal(queue: seq<Item>, ops: seq<Op>)
    decreases ops
  {
    ops == [] || (Allowed(queue, ops[0]) && Legal(QueueAfter(queue, ops[0]), ops[1..]))
  }

  /** The values a run retrieves, as read from the bytes. */
  function Retrieved(host: Order, b: Buf, queue: seq<Item>, ops: seq<Op>): seq<Value>
    requires Holds(host, b, queue) && Legal(queue, ops)
    decreases ops
  {
    if ops == [] then []
    else
      StepHolds(host, b, queue, ops[0]);
      Given(host, b, queue, ops[0])
      + Retrieved(host, BufAfter(host, b, queue, ops[0]), QueueAfter(queue, ops[0]), ops[1..])
  }

  function FinalQueue(queue: seq<Item>, ops: seq<Op>): seq<Item>
    requires Legal(queue, ops)
    decreases ops
  {
    if ops == [] then queue else FinalQueue(QueueAfter(queue, ops[0]), ops[1..])
  }

  /** The items a run appends. */
  function Appends(ops: seq<Op>): seq<Item> {
    if ops == [] then []
    else Added(ops[0]) + Appends(ops[1..])
  }

  lemma ValuesConcat(items: seq<Item>, more: seq<Item>)
    ensures Values(items + more) == Values(items) + Values(more)
  {
  }

  lemma ValuesTake(items: seq<Item>)
    requires items != []
    ensures Values(items) == [items[0].value] + Values(items[1..])
  {
  }

  lemma StepFifo(host: Order, b: Buf, queue: seq<Item>, op: Op)
    requires Holds(host, b, queue) && Allowed(queue, op)
    ensures Given(host, b, queue, op) + Values(QueueAfter(queue, op))
         == Values(queue) + Values(Added(op))
  {
    var given := Given(host, b, queue, op);
    if op.Take? {
      StepHolds(host, b, queue, op);
      ValuesTake(queue);
      assert given == [queue[0].value] && Values(Added(op)) == [];
    } else {
      ValuesConcat(queue, Added(op));
      assert given == [];
    }
  }

  lemma Chain<T>(given: seq<T>, after: seq<T>, left: seq<T>, q: seq<T>, q1: seq<T>, put: seq<T>, rest: seq<T>)
    requires after + left == q1 + rest && given + q1 == q + put
    ensures (given + after) + left == q + (put + rest)
  {
    assert (given + after) + left == given + (after + left);
    assert given + (q1 + rest) == (given + q1) + rest;
    assert (q + put) + rest == q + (put + rest);
  }

  /** First in, first out, value for value: what a run retrieves from the bytes, followed by what is
      left in them, is what was there before followed by what the run appended. */
  lemma {:induction false} TypedFifo(host: Order, b: Buf, queue: seq<Item>, ops: seq<Op>)
    requires Holds(host, b, queue) && Legal(queue, ops)
    ensures Retrieved(host, b, queue, ops) + Values(FinalQueue(queue, ops))
         == Values(queue) + Values(Appends(ops))
    decreases ops
  {
    if ops == [] {
      assert Values([]) == [];
    } else {
      StepHolds(host, b, queue, ops[0]);
      StepFifo(host, b, queue, ops[0]);
      var b1 := BufAfter(host, b, queue, ops[0]);
      var q1 := QueueAfter(queue, ops[0]);
      TypedFifo(host, b1, q1, ops[1..]);
      ValuesConcat(Added(ops[0]), Appends(ops[1..]));
      Chain(Given(host, b, queue, ops[0]), Retrieved(host, b1, q1, ops[1..]),
            Values(FinalQueue(queue, ops)), Values(queue), Values(q1),
            Values(Added(ops[0])), Values(Appends(ops[1..])));
    }
  }
}
