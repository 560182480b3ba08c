/** The echo server's session: example/asio/pingpong/server.cpp, class session. */
module ServerSession {
  import opened Bytes
  import opened Duplex

  /** What can be observed of a session. `input` is everything its successful reads delivered,
      `output` everything the kernel took from its writes. */
  datatype Server = Server(
    end: Endpoint,
    ops: int,
    posts: nat,
    started: bool,
    failed: bool,
    destroyed: bool,
    input: seq<byte>,
    output: seq<byte>)

  const FRESH := Server(Endpoint(0, [], false, Idle), 0, 0, false, false, false, [], [])

  /** Post the deletion of the session if no operation is outstanding. */
  function Settle(s: Server): Server {
    if s.ops == 0 then s.(posts := s.posts + 1) else s
  }

  function Started(s: Server, optionErr: bool): Server {
    if optionErr then s.(started := true, failed := true, posts := s.posts + 1)
    else s.(started := true, ops := s.ops + 1, end := s.end.(reading := true))
  }

  /** One operation has finished and, if the endpoint swapped its blocks, two have been started. */
  function Moved(s: Server, e: Endpoint): Server {
    s.(end := e, ops := s.ops - 1 + (if e.count == 1 then 2 else 0))
  }

  /** The effect of the read handler, once the read itself is over. */
  function AfterRead(s: Server, err: bool, data: seq<byte>): Server {
    Settle(if err then s.(ops := s.ops - 1) else Moved(s, ReadDone(s.end, data)))
  }

  /** The effect of the write handler, once the write itself is over. */
  function AfterWrite(s: Server, err: bool): Server {
    Settle(if err then s.(ops := s.ops - 1) else Moved(s, WriteDone(s.end)))
  }

  // ---------------------------------------------------------------------------------------------
  // Runs: the kernel chooses what completes, when, with how many bytes, and whether it fails.

  datatype Event =
    | ReadOk(data: seq<byte>)
    | ReadErr
    | Taken(n: nat)
    | WriteOk
    | WriteErr
    | Destroy

  predicate Enabled(s: Server, e: Event) {
    && s.started
    && !s.destroyed
    && match e
       case ReadOk(_) => s.end.reading
       case ReadErr => s.end.reading
       case Taken(n) => s.end.writing.Busy? && n <= |s.end.writing.rest|
       case WriteOk => s.end.writing.Busy? && s.end.writing.rest == []
       case WriteErr => s.end.writing.Busy?
       case Destroy => s.posts > 0
  }

  function Step(s: Server, e: Event): Server
    requires Enabled(s, e)
  {
    match e
    case ReadOk(data) =>
      AfterRead(s.(end := ReadFailed(s.end), input := s.input + data), false, data)
    case ReadErr =>
      AfterRead(s.(end := ReadFailed(s.end), failed := true), true, [])
    case Taken(n) =>
      s.(end := Hand(s.end, n), output := s.output + s.end.writing.rest[..n])
    case WriteOk =>
      AfterWrite(s.(end := WriteFailed(s.end)), false)
    case WriteErr =>
      AfterWrite(s.(end := WriteFailed(s.end), failed := true), true)
    case Destroy =>
      s.(destroyed := true)
  }

  predicate Legal(s: Server, run: seq<Event>)
    decreases run
  {
    run == [] || (Enabled(s, run[0]) && Legal(Step(s, run[0]), run[1..]))
  }

  function Exec(s: Server, run: seq<Event>): Server
    requires Legal(s, run)
    decreases run
  {
    if run == [] then s else Exec(Step(s, run[0]), run[1..])
  }

  /** How many operations a run completes, successfully or not. */
  function Completions(run: seq<Event>): nat {
    if run == [] then 0
    else (if run[0].Taken? || run[0].Destroy? then 0 else 1) + Completions(run[1..])
  }

  /** What every step keeps. */
  predicate Inv(s: Server) {
    && s.started
    && s.ops == Outstanding(s.end)
    && s.posts == (if s.ops == 0 then 1 else 0)
    && (s.destroyed ==> s.posts == 1)
    && (if s.failed then Winding(s.end)
        else Healthy(s.end) && s.input == s.output + s.end.writing.Rest() + s.end.held)
    && s.output + s.end.writing.Rest() <= s.input
  }

  lemma StartEstablishesInv(optionErr: bool)
    ensures Inv(Started(FRESH, optionErr))
    ensures Started(FRESH, optionErr).posts == (if optionErr then 1 else 0)
  {
  }

  lemma StepKeepsInv(s: Server, e: Event)
    requires Inv(s) && Enabled(s, e)
    ensures Inv(Step(s, e))
    ensures s.failed ==> Step(s, e).failed
  {
    var t := Step(s, e);
    match e
    case ReadOk(data) =>
      assert s.output + s.end.writing.Rest() <= t.input;
      if !s.failed {
        assert t.output + t.end.writing.Rest() + t.end.held
            == s.output + s.end.writing.Rest() + s.end.held + data;
      }
    case Taken(n) =>
      assert t.output + t.end.writing.Rest() == s.output + s.end.writing.Rest();
    case _ =>
  }

  lemma {:induction false} RunKeepsInv(s: Server, run: seq<Event>)
    requires Inv(s) && Legal(s, run)
    ensures Inv(Exec(s, run))
    ensures s.failed ==> Exec(s, run).failed
    decreases run
  {
    if run != [] {
      StepKeepsInv(s, run[0]);
      RunKeepsInv(Step(s, run[0]), run[1..]);
    }
  }

  /** Echo correctness against any peer and any pattern of failures: what the kernel took is always
      a prefix of what was read, and until something fails nothing read is missing. */
  lemma {:induction false} Echo(optionErr: bool, run: seq<Event>)
    requires Legal(Started(FRESH, optionErr), run)
    ensures
      var s := Exec(Started(FRESH, optionErr), run);
      && s.output <= s.input
      && (!s.failed ==> s.input == s.output + s.end.writing.Rest() + s.end.held)
  {
    StartEstablishesInv(optionErr);
    RunKeepsInv(Started(FRESH, optionErr), run);
  }

  /** Teardown: the operation count is the number of outstanding operations, never more than two;
      the deletion has been posted exactly when nothing is outstanding, and then only once; and once
      it is posted no handler of this session can run any more. */
  lemma {:induction false} Teardown(optionErr: bool, run: seq<Event>)
    requires Legal(Started(FRESH, optionErr), run)
    ensures
      var s := Exec(Started(FRESH, optionErr), run);
      && s.ops == Outstanding(s.end) <= 2
      && s.posts <= 1
      && (s.posts == 1 <==> Outstanding(s.end) == 0)
      && (s.posts == 1 ==> s.failed)
      && (s.posts == 1 ==> forall e :: Enabled(s, e) ==> e == Destroy)
  {
    StartEstablishesInv(optionErr);
    RunKeepsInv(Started(FRESH, optionErr), run);
  }

  /** After a failure no operation is started any more: each completion lowers the outstanding count
      by exactly one, so it is a measure that runs down to the post. */
  lemma {:induction false} WindingDown(s: Server, run: seq<Event>)
    requires Inv(s) && s.failed && Legal(s, run)
    ensures Outstanding(Exec(s, run).end) + Completions(run) == Outstanding(s.end)
    ensures Completions(run) == Outstanding(s.end) <==> Exec(s, run).posts == 1
    decreases run
  {
    RunKeepsInv(s, run);
    if run != [] {
      StepKeepsInv(s, run[0]);
      WindingDown(Step(s, run[0]), run[1..]);
    }
  }

  /** The bytes that the successful reads of a run delivered. */
  function Delivered(run: seq<Event>): seq<byte> {
    if run == [] then []
    else (if run[0].ReadOk? then run[0].data else []) + Delivered(run[1..])
  }

  /** How many bytes the kernel took in it. */
  function TakenIn(run: seq<Event>): nat {
    if run == [] then 0 else (if run[0].Taken? then run[0].n else 0) + TakenIn(run[1..])
  }

  lemma {:induction false} HistoriesOfRun(s: Server, run: seq<Event>)
    requires Legal(s, run)
    ensures Exec(s, run).input == s.input + Delivered(run)
    ensures |Exec(s, run).output| == |s.output| + TakenIn(run)
    decreases run
  {
    if run != [] {
      HistoriesOfRun(Step(s, run[0]), run[1..]);
      var piece := if run[0].ReadOk? then run[0].data else [];
      assert s.input + (piece + Delivered(run[1..])) == s.input + piece + Delivered(run[1..]);
    }
  }

  /** The echo in terms of the completions alone: whatever fails and when, the bytes the kernel has been
      handed are the first ones that the reads delivered, as many as it took. */
  lemma {:induction false} EchoOfEvents(optionErr: bool, run: seq<Event>)
    requires Legal(Started(FRESH, optionErr), run)
    ensures
      var s := Exec(Started(FRESH, optionErr), run);
      && TakenIn(run) <= |Delivered(run)|
      && s.output == Delivered(run)[..TakenIn(run)]
      && s.input == Delivered(run)
  {
    HistoriesOfRun(Started(FRESH, optionErr), run);
    Echo(optionErr, run);
    assert [] + Delivered(run) == Delivered(run);
  }

  /** The deletion ends every run: it leaves the histories alone, and nothing happens after it. */
  lemma DeletionIsFinal(s: Server, run: seq<Event>)
    requires Enabled(s, Destroy)
    ensures
      var d := Step(s, Destroy);
      && (forall e :: !Enabled(d, e))
      && (Legal(d, run) ==> run == [])
      && d.input == s.input && d.output == s.output && d.ops == s.ops && d.posts == s.posts
  {
  }

  /** No failed session is left hanging: if anything is outstanding, something can complete. */
  lemma FailedSessionCanFinish(s: Server)
    requires Inv(s) && s.failed && !s.destroyed
    ensures Enabled(s, ReadErr) || Enabled(s, WriteErr) || Enabled(s, Destroy)
  {
  }

  // ---------------------------------------------------------------------------------------------
  // The session itself, over two real blocks.

  class Session {
    const blockSize: nat
    var readData: array<byte>
    var readDataLength: nat
    var writeData: array<byte>
    var unsentCount: int
    var opCount: int

    /* What the operating system holds of this session: the block each outstanding operation was
       started with, the length asked for, and how far the write has come. */
    var readTarget: array?<byte>
    var writeSource: array?<byte>
    var writeLength: nat
    var writeSent: nat
    var destroyPosts: nat

    ghost var started: bool
    ghost var failed: bool
    ghost var input: seq<byte>
    ghost var output: seq<byte>

    /** Buffer ownership: the two blocks are distinct, an outstanding read fills the block called
        readData and an outstanding write drains the one called writeData, and a held read lies in
        readData with nobody else using that block. */
    ghost predicate Owned()
      reads this
    {
      && readData != writeData
      && readData.Length == blockSize && writeData.Length == blockSize
      && (readTarget != null ==> readTarget == readData)
      && (writeSource != null ==> writeSource == writeData && writeSent <= writeLength <= blockSize)
      && (unsentCount == 2 ==> readTarget == null && readDataLength <= blockSize)
    }

    /** The session still works on the two blocks it had. */
    ghost predicate SameBlocks(r: array<byte>, w: array<byte>)
      reads this
    {
      (readData == r && writeData == w) || (readData == w && writeData == r)
    }

    ghost function View(): Server
      reads this, readData, writeData
      requires Owned()
    {
      Server(End(), opCount, destroyPosts, started, failed, false, input, output)
    }

    ghost function End(): Endpoint
      reads this, readData, writeData
      requires Owned()
    {
      Endpoint(unsentCount, Held(), readTarget != null, Writing())
    }

    ghost function Held(): seq<byte>
      reads this, readData
      requires Owned()
    {
      if unsentCount == 2 then readData[..readDataLength] else []
    }

    ghost function Writing(): WriteOp
      reads this, writeData
      requires Owned()
    {
      if writeSource == null then Idle
      else Busy(writeData[..writeSent], writeData[writeSent..writeLength])
    }

    ghost predicate Valid()
      reads this, readData, writeData
    {
      Owned() && Inv(View())
    }

    constructor (blockSize: nat)
      ensures Owned() && View() == FRESH
      ensures this.blockSize == blockSize
      ensures fresh(readData) && fresh(writeData)
    {
      this.blockSize := blockSize;
      readData := new byte[blockSize];
      readDataLength := 0;
      writeData := new byte[blockSize];
      unsentCount := 0;
      opCount := 0;
      readTarget, writeSource, writeLength, writeSent := null, null, 0, 0;
      destroyPosts := 0;
      started, failed, input, output := false, false, [], [];
    }

    /** Write what the read block holds and read into the other block. Both operations are given the
        blocks as they are called after the swap. */
    method SwapBlocks()
      requires Owned() && readTarget == null && writeSource == null
      requires unsentCount == 1 && readDataLength <= blockSize
      modifies this`readData, this`writeData
      modifies this`readTarget, this`writeSource, this`writeLength, this`writeSent
      ensures Owned() && SameBlocks(old(readData), old(writeData))
      ensures End() == Endpoint(1, [], true, Busy([], old(readData[..readDataLength])))
    {
      readData, writeData := writeData, readData;
      writeSource, writeLength, writeSent := writeData, readDataLength, 0;
      readTarget := readData;
      assert writeData[..0] == [] && writeData[0..writeLength] == old(readData[..readDataLength]);
    }

    method Start(setOptionErr: bool)
      requires Owned() && View() == FRESH
      modifies this
      ensures Valid()
      ensures View() == Started(old(View()), setOptionErr)
      ensures readData == old(readData) && writeData == old(writeData)
    {
      if !setOptionErr {
        opCount := opCount + 1;
        readTarget := readData;
      } else {
        destroyPosts := destroyPosts + 1;
        failed := true;
      }
      started := true;
    }

    /** Post the deletion of the session if no operation is outstanding. */
    method PostIfIdle()
      requires Owned()
      modifies this`destroyPosts
      ensures Owned() && View() == Settle(old(View()))
    {
      if opCount == 0 {
        destroyPosts := destroyPosts + 1;
      }
    }

    /** What either handler does when the count is one after it. */
    method StartBoth()
      requires Owned() && readTarget == null && writeSource == null
      requires unsentCount == 1 && readDataLength <= blockSize
      modifies this`opCount, this`readData, this`writeData
      modifies this`readTarget, this`writeSource, this`writeLength, this`writeSent
      ensures Owned() && SameBlocks(old(readData), old(writeData))
      ensures End() == Endpoint(1, [], true, Busy([], old(readData[..readDataLength])))
      ensures opCount == old(opCount) + 2
    {
      opCount := opCount + 2;
      SwapBlocks();
    }

    /** The read handler after a success. */
    method AcceptRead(length: nat)
      requires Owned() && readTarget == null && 0 <= unsentCount <= 1
      requires length <= blockSize
      requires unsentCount == 0 ==> writeSource == null
      modifies this`opCount, this`unsentCount, this`readDataLength, this`readData, this`writeData
      modifies this`readTarget, this`writeSource, this`writeLength, this`writeSent
      ensures Owned() && SameBlocks(old(readData), old(writeData))
      ensures End() == ReadDone(old(End()), old(readData[..length]))
      ensures opCount == old(opCount) + (if unsentCount == 1 then 2 else 0)
    {
      readDataLength := length;
      unsentCount := unsentCount + 1;
      if unsentCount == 1 {
        StartBoth();
      }
    }

    /** The write handler after a success. */
    method AcceptWrite()
      requires Owned() && writeSource == null
      requires unsentCount == 1 || unsentCount == 2
      modifies this`opCount, this`unsentCount, this`readData, this`writeData
      modifies this`readTarget, this`writeSource, this`writeLength, this`writeSent
      ensures Owned() && SameBlocks(old(readData), old(writeData))
      ensures End() == WriteDone(old(End()))
      ensures opCount == old(opCount) + (if unsentCount == 1 then 2 else 0)
    {
      unsentCount := unsentCount - 1;
      if unsentCount == 1 {
        StartBoth();
      }
    }

    /** The read handler. The finished read has left its bytes at the front of readData. */
    method HandleRead(err: bool, length: nat)
      requires Owned() && readTarget == null && 0 <= unsentCount <= 1
      requires length <= blockSize
      requires !err && unsentCount == 0 ==> writeSource == null
      modifies this
      ensures Owned() && SameBlocks(old(readData), old(writeData))
      ensures View() == AfterRead(old(View()), err, old(readData[..length]))
    {
      opCount := opCount - 1;
      if !err {
        AcceptRead(length);
      }
      PostIfIdle();
    }

    /** The write handler. */
    method HandleWrite(err: bool)
      requires Owned() && writeSource == null
      requires unsentCount == 1 || unsentCount == 2
      modifies this
      ensures Owned() && SameBlocks(old(readData), old(writeData))
      ensures View() == AfterWrite(old(View()), err)
    {
      opCount := opCount - 1;
      if !err {
        AcceptWrite();
      }
      PostIfIdle();
    }

    /** The operating system finishes the outstanding read, filling the block it was given. */
    method CompleteRead(err: bool, data: seq<byte>)
      requires Valid() && readTarget != null
      requires |data| <= blockSize
      modifies this, readTarget
      ensures Valid()
      ensures View() == Step(old(View()), if err then ReadErr else ReadOk(data))
      ensures SameBlocks(old(readData), old(writeData))
    {
      StepKeepsInv(View(), if err then ReadErr else ReadOk(data));
      if err {
        readTarget := null;
        failed := true;
        HandleRead(true, 0);
      } else {
        Fill(readTarget, data);
        readTarget := null;
        input := input + data;
        HandleRead(false, |data|);
      }
    }

    /** Move the mark between taken and untaken bytes of the outstanding write. */
    method Advance(n: nat) returns (bytes: seq<byte>)
      requires Owned() && writeSource != null && n <= writeLength - writeSent
      modifies this`writeSent
      ensures Owned()
      ensures bytes == old(Writing().rest)[..n]
      ensures End() == Hand(old(End()), n)
    {
      bytes := writeSource[writeSent..writeSent + n];
      assert bytes == writeData[writeSent..writeLength][..n];
      writeSent := writeSent + n;
      assert writeData[writeSent - n..writeLength][n..] == writeData[writeSent..writeLength];
      assert writeData[..writeSent - n] + bytes == writeData[..writeSent];
    }

    /** The operating system takes the next `n` bytes of the outstanding write from the block it was
        given. */
    method TakeBytes(n: nat) returns (bytes: seq<byte>)
      requires Valid() && writeSource != null && n <= writeLength - writeSent
      modifies this`writeSent, this`output
      ensures Valid()
      ensures View() == Step(old(View()), Taken(n))
      ensures output == old(output) + bytes
    {
      ghost var was := View();
      ghost var now := Step(was, Taken(n));
      StepKeepsInv(was, Taken(n));
      bytes := Advance(n);
      output := output + bytes;
      assert output == now.output;
      assert End() == now.end;
      assert View() == now;
    }

    /** The operating system finishes the outstanding write; without an error, all of it is taken. */
    method CompleteWrite(err: bool)
      requires Valid() && writeSource != null
      requires !err ==> writeSent == writeLength
      modifies this
      ensures Valid()
      ensures View() == Step(old(View()), if err then WriteErr else WriteOk)
      ensures SameBlocks(old(readData), old(writeData))
    {
      StepKeepsInv(View(), if err then WriteErr else WriteOk);
      writeSource := null;
      if err {
        failed := true;
      }
      HandleWrite(err);
    }
  }
}
