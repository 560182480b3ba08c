/** The ping-pong client's session: example/asio/pingpong/client.cpp, class session. */
module ClientSession {
  import opened Bytes
  import opened Duplex

  /** The byte the constructor puts at position `i` of the first block. */
  function PatternByte(i: nat): byte {
    (i % 128) as byte
  }

  function Pattern(size: nat): seq<byte> {
    seq(size, i requires 0 <= i => PatternByte(i))
  }

  /** The pattern counts from 0 to 127 over and over. */
  lemma PatternCounts(size: nat, i: nat)
    requires i < size
    ensures |Pattern(size)| == size && Pattern(size)[i] == (i % 128) as byte
  {
  }

  datatype Link = Connecting | Connected | Abandoned

  /** What can be observed of a session. `retries` counts the sockets closed and connected anew, `input`
      is everything its successful reads delivered, and `lost` is the size of the write that failed, if
      one did. */
  datatype Client = Client(
    link: Link,
    retries: nat,
    end: Endpoint,
    bytesWritten: nat,
    bytesRead: nat,
    input: seq<byte>,
    lost: nat)

  const FRESH := Client(Connecting, 0, Endpoint(0, [], false, Idle), 0, 0, [], 0)

  /** The effect of the connect handler. `more` says that another address can still be tried. */
  function AfterConnect(c: Client, block: seq<byte>, err: bool, more: bool, optionErr: bool): Client {
    if !err then
      if optionErr then c.(link := Abandoned)
      else c.(link := Connected, end := Opening(block))
    else if more then c.(retries := c.retries + 1)
    else c.(link := Abandoned)
  }

  /** The effect of the read handler, once the read itself is over. */
  function AfterRead(c: Client, err: bool, data: seq<byte>): Client {
    if err then c
    else c.(bytesRead := c.bytesRead + |data|, input := c.input + data, end := ReadDone(c.end, data))
  }

  /** The effect of the write handler, once the write itself is over and reported as `length`. */
  function AfterWrite(c: Client, err: bool, length: nat): Client {
    if !err && length > 0 then c.(bytesWritten := c.bytesWritten + length, end := WriteDone(c.end))
    else c
  }

  // ---------------------------------------------------------------------------------------------
  // Runs of a connected session, against any peer.

  datatype Event =
    | ReadOk(data: seq<byte>)
    | ReadErr
    | Taken(n: nat)
    | WriteOk
    | WriteErr

  predicate Enabled(block: nat, c: Client, e: Event) {
    && c.link.Connected?
    && match e
       case ReadOk(data) => c.end.reading && |data| <= block
       case ReadErr => c.end.reading
       case Taken(n) => c.end.writing.Busy? && n <= |c.end.writing.rest|
       case WriteOk => c.end.writing.Busy? && c.end.writing.rest == []
       case WriteErr => c.end.writing.Busy?
  }

  function Step(block: nat, c: Client, e: Event): Client
    requires Enabled(block, c, e)
  {
    match e
    case ReadOk(data) => AfterRead(c.(end := ReadFailed(c.end)), false, data)
    case ReadErr => AfterRead(c.(end := ReadFailed(c.end)), true, [])
    case Taken(n) => c.(end := Hand(c.end, n))
    case WriteOk => AfterWrite(c.(end := WriteFailed(c.end)), false, c.end.writing.Size())
    case WriteErr =>
      AfterWrite(c.(end := WriteFailed(c.end), lost := c.lost + c.end.writing.Size()), true, 0)
  }

  predicate Legal(block: nat, c: Client, run: seq<Event>)
    decreases run
  {
    run == [] || (Enabled(block, c, run[0]) && Legal(block, Step(block, c, run[0]), run[1..]))
  }

  function Exec(block: nat, c: Client, run: seq<Event>): Client
    requires Legal(block, c, run)
    decreases run
  {
    if run == [] then c else Exec(block, Step(block, c, run[0]), run[1..])
  }

  predicate ErrorFree(run: seq<Event>) {
    forall i :: 0 <= i < |run| ==> run[i] != ReadErr && run[i] != WriteErr
  }

  /** Everything written is accounted for by the first block and by what came back. Nothing is ever
      started after a write that failed or carried no bytes, and at most one read is left then. */
  predicate Inv(block: nat, c: Client) {
    && c.link.Connected?
    && c.bytesRead == |c.input|
    && c.bytesWritten + c.end.writing.Size() + c.lost == block + c.bytesRead - |c.end.held|
    && c.end.writing.Size() + c.lost <= block
    && |c.end.held| <= block
    && (Healthy(c.end) || Winding(c.end))
    && (c.lost > 0 ==> c.end.writing.Idle? && c.end.count > 0)
    && (c.end.reading && c.end.count == 0 ==> c.lost == 0)
  }

  lemma StepKeepsInv(block: nat, c: Client, e: Event)
    requires Inv(block, c) && Enabled(block, c, e)
    ensures Inv(block, Step(block, c, e))
  {
  }

  lemma {:induction false} RunKeepsInv(block: nat, c: Client, run: seq<Event>)
    requires Inv(block, c) && Legal(block, c, run)
    ensures Inv(block, Exec(block, c, run))
    decreases run
  {
    if run != [] {
      StepKeepsInv(block, c, run[0]);
      RunKeepsInv(block, Step(block, c, run[0]), run[1..]);
    }
  }

  lemma {:induction false} NothingLost(block: nat, c: Client, run: seq<Event>)
    requires Legal(block, c, run) && ErrorFree(run)
    ensures Exec(block, c, run).lost == c.lost
    decreases run
  {
    if run != [] {
      assert run[0] != ReadErr && run[0] != WriteErr;
      assert ErrorFree(run[1..]) by {
        assert forall i :: 0 <= i < |run[1..]| ==> run[1..][i] == run[i + 1];
      }
      NothingLost(block, Step(block, c, run[0]), run[1..]);
    }
  }

  /** The bytes that the successful reads of a run delivered. */
  function Delivered(run: seq<Event>): seq<byte> {
    if run == [] then []
    else (if run[0].ReadOk? then run[0].data else []) + Delivered(run[1..])
  }

  /** What a session has read is what the completions delivered, in order, whatever else happens. */
  lemma {:induction false} ReadsAreDelivered(block: nat, c: Client, run: seq<Event>)
    requires Legal(block, c, run)
    ensures Exec(block, c, run).input == c.input + Delivered(run)
    decreases run
  {
    if run != [] {
      ReadsAreDelivered(block, Step(block, c, run[0]), run[1..]);
      var piece := if run[0].ReadOk? then run[0].data else [];
      assert c.input + (piece + Delivered(run[1..])) == c.input + piece + Delivered(run[1..]);
    }
  }

  /** A write of no bytes, which a block of no bytes leads to, counts for nothing when it is done, as if
      it had failed: no write follows it. */
  lemma EmptyWriteCountsForNothing(block: nat, c: Client)
    requires Enabled(block, c, WriteOk) && c.end.writing.Size() == 0
    ensures
      var d := Step(block, c, WriteOk);
      && d == c.(end := c.end.(writing := Idle))
      && d == Step(block, c, WriteErr)
  {
  }

  // Connecting.

  /** The outcome of one attempt to connect: an error or not, whether another address can still be tried,
      and whether the socket option is refused. */
  datatype Attempt = Attempt(err: bool, more: bool, optionErr: bool)

  /** The connect handler runs for one attempt after the other, as long as each starts the next. */
  function AfterAttempts(c: Client, block: seq<byte>, attempts: seq<Attempt>): Client
    decreases attempts
  {
    if attempts == [] || !c.link.Connecting? then c
    else
      var a := attempts[0];
      AfterAttempts(AfterConnect(c, block, a.err, a.more, a.optionErr), block, attempts[1..])
  }

  /** The first attempt that is not a failure with another address left. */
  function Decisive(attempts: seq<Attempt>): (k: nat)
    ensures k <= |attempts|
    ensures forall j :: 0 <= j < k ==> attempts[j].err && attempts[j].more
    ensures k < |attempts| ==> !attempts[k].err || !attempts[k].more
    decreases attempts
  {
    if attempts == [] || !attempts[0].err || !attempts[0].more then 0 else 1 + Decisive(attempts[1..])
  }

  /** However the attempts turn out: a session retries exactly as often as attempts fail with another
      address left, and the first other one decides. If that succeeds and the option is set, the whole
      block is being written and a read is outstanding; if not, or if it was the last address, nothing is
      ever started. */
  lemma {:induction false} ConnectOutcome(c: Client, block: seq<byte>, attempts: seq<Attempt>)
    requires c.link.Connecting? && c.end == Endpoint(0, [], false, Idle)
    ensures
      var d := AfterAttempts(c, block, attempts);
      var k := Decisive(attempts);
      && d.retries == c.retries + k
      && (d.link.Connecting? <==> k == |attempts|)
      && (d.link.Connected? <==> k < |attempts| && !attempts[k].err && !attempts[k].optionErr)
      && (d.link.Connected? ==> d.end == Endpoint(1, [], true, Busy([], block)))
      && (!d.link.Connected? ==> d.end == c.end)
      && d.bytesRead == c.bytesRead && d.bytesWritten == c.bytesWritten && d.input == c.input
    decreases attempts
  {
    if attempts != [] {
      var a := attempts[0];
      var d := AfterConnect(c, block, a.err, a.more, a.optionErr);
      if d.link.Connecting? {
        ConnectOutcome(d, block, attempts[1..]);
      }
    }
  }

  function JustConnected(block: nat): Client {
    AfterConnect(FRESH, Pattern(block), false, false, false)
  }

  /** Byte accounting, whatever the server does: without errors the bytes written and in flight are
      the first block plus the bytes read and not held; and with any errors at all, the two counters
      never drift apart by more than one block. */
  lemma {:induction false} Accounting(block: nat, run: seq<Event>)
    requires Legal(block, JustConnected(block), run)
    ensures
      var c := Exec(block, JustConnected(block), run);
      && (ErrorFree(run) ==>
            c.bytesWritten + c.end.writing.Size() == block + c.bytesRead - |c.end.held|)
      && c.bytesWritten <= c.bytesRead + block
      && c.bytesRead <= c.bytesWritten + block
  {
    RunKeepsInv(block, JustConnected(block), run);
    if ErrorFree(run) {
      NothingLost(block, JustConnected(block), run);
    }
  }

  // ---------------------------------------------------------------------------------------------
  // The session itself, over two real blocks.

  class Session {
    const blockSize: nat
    var readData: array<byte>
    var readDataLength: nat
    var writeData: array<byte>
    var unwrittenCount: int
    var bytesWritten: nat
    var bytesRead: nat

    /* What the operating system holds of this session. */
    var readTarget: array?<byte>
    var writeSource: array?<byte>
    var writeLength: nat
    var writeSent: nat

    ghost var link: Link
    ghost var retries: nat
    ghost var input: seq<byte>
    ghost var lost: nat

    /** Buffer ownership, as in the server session. */
    ghost predicate Owned()
      reads this
    {
      && readData != writeData
      && readData.Length == blockSize && writeData.Length == blockSize
      && (readTarget != null ==> readTarget == readData)
      && (writeSource != null ==> writeSource == writeData && writeSent <= writeLength <= blockSize)
      && (unwrittenCount == 2 ==> readTarget == null && readDataLength <= blockSize)
    }

    ghost predicate SameBlocks(r: array<byte>, w: array<byte>)
      reads this
    {
      (readData == r && writeData == w) || (readData == w && writeData == r)
    }

    ghost function View(): Client
      reads this, readData, writeData
      requires Owned()
    {
      Client(link, retries, End(), bytesWritten, bytesRead, input, lost)
    }

    ghost function End(): Endpoint
      reads this, readData, writeData
      requires Owned()
    {
      Endpoint(
        unwrittenCount,
        if unwrittenCount == 2 then readData[..readDataLength] else [],
        readTarget != null,
        if writeSource == null then Idle
        else Busy(writeData[..writeSent], writeData[writeSent..writeLength]))
    }

    ghost predicate Valid()
      reads this, readData, writeData
    {
      Owned() && Inv(blockSize, View())
    }

    /** A new session: nothing outstanding, and the first block filled with the pattern. */
    constructor (blockSize: nat)
      ensures Owned() && View() == FRESH
      ensures this.blockSize == blockSize
      ensures writeData[..] == Pattern(blockSize)
      ensures fresh(readData) && fresh(writeData)
    {
      this.blockSize := blockSize;
      readData := new byte[blockSize];
      readDataLength := 0;
      writeData := new byte[blockSize];
      unwrittenCount := 0;
      bytesWritten, bytesRead := 0, 0;
      readTarget, writeSource, writeLength, writeSent := null, null, 0, 0;
      link, retries, input, lost := Connecting, 0, [], 0;
      new;
      for i := 0 to blockSize
        invariant Owned() && View() == FRESH
        invariant fresh(readData) && fresh(writeData)
        invariant forall j :: 0 <= j < i ==> writeData[j] == PatternByte(j)
      {
        writeData[i] := (i % 128) as byte;
      }
    }

    /** The connect handler: on success the whole first block is written and a read is started. */
    method HandleConnect(err: bool, more: bool, setOptionErr: bool)
      requires Owned() && View() == FRESH.(retries := retries)
      modifies this
      ensures Owned() && SameBlocks(old(readData), old(writeData))
      ensures View() == AfterConnect(old(View()), old(writeData[..]), err, more, setOptionErr)
      ensures View().link.Connected? ==> Valid()
    {
      if !err {
        if !setOptionErr {
          unwrittenCount := unwrittenCount + 1;
          writeSource, writeLength, writeSent := writeData, blockSize, 0;
          readTarget := readData;
          assert writeData[0..writeLength] == writeData[..] && writeData[..0] == [];
          link := Connected;
        } else {
          link := Abandoned;
        }
      } else if more {
        retries := retries + 1; // the socket is closed and connected to the next address
      } else {
        link := Abandoned;
      }
    }

    /** Write what the read block holds and read into the other block. */
    method SwapBlocks()
      requires Owned() && readTarget == null && writeSource == null
      requires unwrittenCount == 1 && readDataLength <= blockSize
      modifies this`readData, this`writeData
      modifies this`readTarget, this`writeSource, this`writeLength, this`writeSent
      ensures Owned() && SameBlocks(old(readData), old(writeData))
      ensures End() == Endpoint(1, [], true, Busy([], old(readData[..readDataLength])))
    {
      readData, writeData := writeData, readData;
      writeSource, writeLength, writeSent := writeData, readDataLength, 0;
      readTarget := readData;
      assert writeData[..0] == [] && writeData[0..writeLength] == old(readData[..readDataLength]);
    }

    /** The read handler. The finished read has left its bytes at the front of readData. */
    method HandleRead(err: bool, length: nat)
      requires Owned() && readTarget == null && 0 <= unwrittenCount <= 1
      requires length <= blockSize
      requires !err && unwrittenCount == 0 ==> writeSource == null
      modifies this
      ensures Owned() && SameBlocks(old(readData), old(writeData))
      ensures View() == AfterRead(old(View()), err, old(readData[..length]))
    {
      if !err {
        bytesRead := bytesRead + length;
        input := input + readData[..length];
        readDataLength := length;
        unwrittenCount := unwrittenCount + 1;
        if unwrittenCount == 1 {
          SwapBlocks();
        }
      }
    }

    /** The write handler. */
    method HandleWrite(err: bool, length: nat)
      requires Owned() && writeSource == null
      requires unwrittenCount == 1 || unwrittenCount == 2
      modifies this
      ensures Owned() && SameBlocks(old(readData), old(writeData))
      ensures View() == AfterWrite(old(View()), err, length)
    {
      if !err && length > 0 {
        bytesWritten := bytesWritten + length;
        unwrittenCount := unwrittenCount - 1;
        if unwrittenCount == 1 {
          SwapBlocks();
        }
      }
    }

    /** The operating system finishes the outstanding read, filling the block it was given. */
    method CompleteRead(err: bool, data: seq<byte>)
      requires Valid() && readTarget != null
      requires |data| <= blockSize
      modifies this, readTarget
      ensures Valid() && SameBlocks(old(readData), old(writeData))
      ensures View() == Step(blockSize, old(View()), if err then ReadErr else ReadOk(data))
    {
      StepKeepsInv(blockSize, View(), if err then ReadErr else ReadOk(data));
      if err {
        readTarget := null;
        HandleRead(true, 0);
      } else {
        Fill(readTarget, data);
        readTarget := null;
        HandleRead(false, |data|);
      }
    }

    /** Move the mark between taken and untaken bytes of the outstanding write. */
    method Advance(n: nat) returns (bytes: seq<byte>)
      requires Owned() && writeSource != null && n <= writeLength - writeSent
      modifies this`writeSent
      ensures Owned()
      ensures bytes == old(End().writing.rest)[..n]
      ensures End() == Hand(old(End()), n)
    {
      bytes := writeSource[writeSent..writeSent + n];
      assert bytes == writeData[writeSent..writeLength][..n];
      writeSent := writeSent + n;
      assert writeData[writeSent - n..writeLength][n..] == writeData[writeSent..writeLength];
      assert writeData[..writeSent - n] + bytes == writeData[..writeSent];
    }

    /** The operating system takes the next `n` bytes of the outstanding write from the block it was
        given. */
    method TakeBytes(n: nat) returns (bytes: seq<byte>)
      requires Valid() && writeSource != null && n <= writeLength - writeSent
      modifies this`writeSent
      ensures Valid()
      ensures View() == Step(blockSize, old(View()), Taken(n))
      ensures bytes == old(View().end.writing.rest)[..n]
    {
      ghost var now := Step(blockSize, View(), Taken(n));
      StepKeepsInv(blockSize, View(), Taken(n));
      bytes := Advance(n);
      assert View() == now;
    }

    /** The operating system finishes the outstanding write and reports how many bytes it took. */
    method CompleteWrite(err: bool)
      requires Valid() && writeSource != null
      requires !err ==> writeSent == writeLength
      modifies this
      ensures Valid() && SameBlocks(old(readData), old(writeData))
      ensures View() == Step(blockSize, old(View()), if err then WriteErr else WriteOk)
    {
      StepKeepsInv(blockSize, View(), if err then WriteErr else WriteOk);
      if err {
        lost := lost + writeLength;
      }
      writeSource := null;
      HandleWrite(err, writeSent);
    }
  }
}
