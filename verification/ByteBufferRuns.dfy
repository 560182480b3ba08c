/** Whole runs of buffer operations: refinement to a plain sequence, and how far a buffer can grow. */
module ByteBufferRuns {
  import opened Bytes
  import opened ByteBuffer

  datatype Op =
    | Append(data: seq<byte>)
    | EnsureSpace(n: nat)
    | Receive(room: nat, data: seq<byte>) // make room, let somebody write into it, declare it written
    | Discard(n: nat)
    | Rollback(n: nat)
    | DiscardAll
    | Shrink(reserve: nat)

  function Apply(b: Buf, op: Op): Buf
    requires b.Ok()
  {
    match op
    case Append(data) => Appended(b, data)
    case EnsureSpace(n) => Spaced(b, n)
    case Receive(room, data) => MakeSpaceFits(b, room); Filled(Spaced(b, room), Front(data, room))
    case Discard(n) => Discarded(b, n)
    case Rollback(n) => RolledBack(b, n)
    case DiscardAll => Reset(b)
    case Shrink(reserve) => Shrunk(b, reserve)
  }

  /** The same operation on a plain sequence. */
  function Plain(s: seq<byte>, op: Op): seq<byte> {
    match op
    case Append(data) => s + data
    case EnsureSpace(_) => s
    case Receive(room, data) => s + Front(data, room)
    case Discard(n) => After(s, n)
    case Rollback(n) => if n <= |s| then s[..|s| - n] else []
    case DiscardAll => []
    case Shrink(_) => s
  }

  lemma ApplyRefines(b: Buf, op: Op)
    requires b.Ok()
    ensures Apply(b, op).Ok()
    ensures Apply(b, op).Contents() == Plain(b.Contents(), op)
  {
    match op
    case Append(data) => AppendExtends(b, data);
    case EnsureSpace(n) => MakeSpaceFits(b, n);
    case Receive(room, data) => MakeSpaceFits(b, room);
    case Discard(n) => DiscardDrops(b, n);
    case Rollback(n) => RollbackDrops(b, n);
    case DiscardAll =>
    case Shrink(reserve) => ShrinkKeeps(b, reserve);
  }

  // Two buffers side by side, so that exchanging them and appending one to the other can take part.

  datatype Pair<T> = Pair(left: T, right: T)

  datatype PairOp = Left(op: Op) | Right(op: Op) | Swap | AppendRightToLeft

  predicate BothOk(p: Pair<Buf>) {
    p.left.Ok() && p.right.Ok()
  }

  function ApplyPair(p: Pair<Buf>, op: PairOp): Pair<Buf>
    requires BothOk(p)
  {
    match op
    case Left(o) => p.(left := Apply(p.left, o))
    case Right(o) => p.(right := Apply(p.right, o))
    case Swap => Pair(p.right, p.left)
    case AppendRightToLeft => p.(left := Appended(p.left, p.right.Contents()))
  }

  function PlainPair(p: Pair<seq<byte>>, op: PairOp): Pair<seq<byte>> {
    match op
    case Left(o) => p.(left := Plain(p.left, o))
    case Right(o) => p.(right := Plain(p.right, o))
    case Swap => Pair(p.right, p.left)
    case AppendRightToLeft => p.(left := p.left + p.right)
  }

  function Abstract(p: Pair<Buf>): Pair<seq<byte>>
    requires BothOk(p)
  {
    Pair(p.left.Contents(), p.right.Contents())
  }

  lemma PairRefines(p: Pair<Buf>, op: PairOp)
    requires BothOk(p)
    ensures BothOk(ApplyPair(p, op))
    ensures Abstract(ApplyPair(p, op)) == PlainPair(Abstract(p), op)
  {
    match op
    case Left(o) => ApplyRefines(p.left, o);
    case Right(o) => ApplyRefines(p.right, o);
    case Swap =>
    case AppendRightToLeft => AppendExtends(p.left, p.right.Contents());
  }

  function RunPair(p: Pair<Buf>, ops: seq<PairOp>): Pair<Buf>
    requires BothOk(p)
    decreases ops
  {
    if ops == [] then p
    else
      PairRefines(p, ops[0]);
      RunPair(ApplyPair(p, ops[0]), ops[1..])
  }

  function RunPlain(p: Pair<seq<byte>>, ops: seq<PairOp>): Pair<seq<byte>>
    decreases ops
  {
    if ops == [] then p else RunPlain(PlainPair(p, ops[0]), ops[1..])
  }

  /** Every sequence of operations on two buffers reads like the same operations on two sequences, and
      keeps reserved prefix <= read index <= write index <= container size throughout. */
  lemma {:induction false} RunRefines(p: Pair<Buf>, ops: seq<PairOp>)
    requires BothOk(p)
    ensures BothOk(RunPair(p, ops))
    ensures Abstract(RunPair(p, ops)) == RunPlain(Abstract(p), ops)
    decreases ops
  {
    if ops != [] {
      PairRefines(p, ops[0]);
      RunRefines(ApplyPair(p, ops[0]), ops[1..]);
    }
  }

  // ---------------------------------------------------------------------------------------------
  // Growth.

  function Run(b: Buf, ops: seq<Op>): Buf
    requires b.Ok()
    decreases ops
  {
    if ops == [] then b
    else
      ApplyRefines(b, ops[0]);
      Run(Apply(b, ops[0]), ops[1..])
  }

  /** How many bytes of room an operation asks for, if it asks at all. */
  function Request(op: Op): nat {
    match op
    case Append(data) => |data|
    case EnsureSpace(n) => n
    case Receive(room, _) => room
    case _ => 0
  }

  predicate Requests(op: Op) {
    op.Append? || op.EnsureSpace? || op.Receive?
  }

  /** Without shrinking, nothing asks for more than `most` bytes, or asks while more than `held` bytes
      are readable. */
  predicate Modest(b: Buf, ops: seq<Op>, most: nat, held: nat)
    requires b.Ok()
    decreases ops
  {
    ops == [] || (
      && !ops[0].Shrink?
      && (Requests(ops[0]) ==> Request(ops[0]) <= most && b.Readable() <= held)
      && (ApplyRefines(b, ops[0]); Modest(Apply(b, ops[0]), ops[1..], most, held)))
  }

  /** One operation grows the container only when what can be discarded and what can be written are
      together less than the request. */
  lemma GrowthStep(b: Buf, op: Op)
    requires b.Ok() && !op.Shrink?
    ensures |b.store| <= |Apply(b, op).store|
    ensures |b.store| < |Apply(b, op).store| <==>
      Requests(op) && b.Discardable() + b.Writeable() < Request(op)
    ensures |b.store| < |Apply(b, op).store| ==>
      |Apply(b, op).store| == b.wt + Request(op) < RESERVED + b.Readable() + 2 * Request(op)
  {
    if Requests(op) {
      MakeSpaceFits(b, Request(op));
    }
  }

  /** A new buffer takes as many bytes as it was asked to have room for, and not one more, before it
      grows. */
  lemma FreshTakesItsSize(size: nat, data: seq<byte>)
    ensures Fresh(size).Ok() && Fresh(size).Contents() == []
    ensures
      var b := Apply(Fresh(size), Append(data));
      && b.Ok() && b.Contents() == data
      && |b.store| == 8 + if |data| <= size then size else |data|
  {
    var b := Fresh(size);
    ApplyRefines(b, Append(data));
    GrowthStep(b, Append(data));
    assert [] + data == data;
  }

  function Max(a: nat, b: nat): nat {
    if a < b then b else a
  }

  /** Whole runs: the container stays below the reserved prefix plus what is held plus twice the
      largest request, unless it was larger to begin with. */
  lemma {:induction false} StorageBound(b: Buf, ops: seq<Op>, most: nat, held: nat)
    requires b.Ok() && most >= 1 && Modest(b, ops, most, held)
    ensures |Run(b, ops).store| <= Max(|b.store|, RESERVED + held + 2 * most - 1)
    decreases ops
  {
    if ops != [] {
      ApplyRefines(b, ops[0]);
      GrowthStep(b, ops[0]);
      StorageBound(Apply(b, ops[0]), ops[1..], most, held);
    }
  }

  /** An emptied buffer is always reset, so that nothing is left to discard. */
  predicate Tidy(b: Buf)
    requires b.Ok()
  {
    b.rd == b.wt ==> b.rd == RESERVED
  }

  lemma ApplyKeepsTidy(b: Buf, op: Op)
    requires b.Ok() && Tidy(b)
    ensures Apply(b, op).Ok() && Tidy(Apply(b, op))
  {
    ApplyRefines(b, op);
    if Requests(op) {
      MakeSpaceFits(b, Request(op));
    }
  }

  /** When nothing is held at any request the bound is sharper: the largest request once. */
  lemma {:induction false} StorageBoundWhenEmpty(b: Buf, ops: seq<Op>, most: nat)
    requires b.Ok() && Tidy(b) && Modest(b, ops, most, 0)
    ensures |Run(b, ops).store| <= Max(|b.store|, RESERVED + most)
    decreases ops
  {
    if ops != [] {
      ApplyKeepsTidy(b, ops[0]);
      GrowthStep(b, ops[0]);
      StorageBoundWhenEmpty(Apply(b, ops[0]), ops[1..], most);
    }
  }

  /** And it is met by a single request to a new buffer without room. */
  lemma StorageBoundWhenEmptyIsMet(most: nat)
    ensures
      var b := Fresh(0);
      && b.Ok() && Tidy(b)
      && Modest(b, [EnsureSpace(most)], most, 0)
      && |Run(b, [EnsureSpace(most)]).store| == RESERVED + most
  {
    var b := Fresh(0);
    var ops := [EnsureSpace(most)];
    ApplyRefines(b, ops[0]);
    var b1 := Apply(b, ops[0]);
    assert ops[1..] == [] && Run(b, ops) == Run(b1, []);
    assert Modest(b1, [], most, 0);
  }

  /** The run that meets the bound: fill the buffer, free as much as can be freed without a compaction
      being enough for the last request, and make it. */
  function Tightest(most: nat, fill: seq<byte>): seq<Op>
    requires most >= 1 && |fill| == most - 1
  {
    [Append(fill), Discard(most - 1), EnsureSpace(most)]
  }

  /** The general bound cannot be lowered: for every positive amount a buffer holds, and for every largest
      request, there is a container for it from which the bound is reached. */
  lemma StorageBoundIsMet(b: Buf, most: nat, fill: seq<byte>)
    requires b.Ok() && most >= 1 && |fill| == most - 1 && b.Readable() >= 1
    ensures
      var s := Shrunk(b, most - 1);
      && s.Ok() && s.Readable() == b.Readable()
      && Modest(s, Tightest(most, fill), most, b.Readable())
      && |Run(s, Tightest(most, fill)).store| == RESERVED + b.Readable() + 2 * most - 1 > |s.store|
  {
    var ops := Tightest(most, fill);
    var s := Shrunk(b, most - 1);
    ShrinkKeeps(b, most - 1);
    var s1 := Apply(s, ops[0]);
    ApplyRefines(s, ops[0]);
    var s2 := Apply(s1, ops[1]);
    ApplyRefines(s1, ops[1]);
    var s3 := Apply(s2, ops[2]);
    ApplyRefines(s2, ops[2]);
    assert s1.rd == RESERVED && s1.wt == |s1.store| == |s.store|;
    assert s2.rd == RESERVED + most - 1 && s2.wt == s1.wt;
    assert |s3.store| == s2.wt + most;
    assert ops[1..][1..][1..] == [];
    assert ops[1..][0] == ops[1] && ops[1..][1..][0] == ops[2];
    assert Run(s, ops) == Run(s1, ops[1..]) == Run(s2, ops[1..][1..]) == Run(s3, []);
    assert Modest(s3, [], most, b.Readable());
    assert Modest(s2, ops[1..][1..], most, b.Readable());
    assert Modest(s1, ops[1..], most, b.Readable());
  }
}
