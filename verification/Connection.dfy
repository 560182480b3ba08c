/** The connection object itself: src/muradin/net/connection.cpp. Every method is tied to the function of
    the same purpose in ConnectionSpec. */
module Connection {
  import opened Bytes
  import opened Endian
  import opened ByteBuffer
  import opened EvtChannel
  import opened ConnectionSpec

  class Connection {
    const text: Text
    const channel: EvtChannel
    const writeCache: ByteBuffer
    const readCache: ByteBuffer
    var connStatus: Status
    /* Whether the loop has this connection in its list of active channels. */
    var active: bool

    ghost var submitted: seq<byte>
    ghost var accepted: seq<byte>
    ghost var reported: nat
    ghost var received: seq<byte>
    ghost var consumed: seq<byte>
    ghost var shutdowns: nat
    ghost var closes: nat
    ghost var spoiled: bool
    ghost var overdrawn: bool
    ghost var undestroyable: bool

    ghost predicate Valid()
      reads this, writeCache, readCache
    {
      && writeCache != readCache
      && writeCache.container != readCache.container
      && writeCache.Valid() && readCache.Valid()
    }

    /** The two containers are the ones there were, or new ones. */
    twostate predicate Moved()
      reads this, writeCache, readCache
    {
      && (writeCache.container == old(writeCache.container) || fresh(writeCache.container))
      && (readCache.container == old(readCache.container) || fresh(readCache.container))
    }

    ghost function View(): Conn
      reads this, channel, writeCache, readCache, writeCache.container, readCache.container
      requires Valid()
    {
      Conn(text, channel.View(), active, writeCache.Contents(), readCache.Contents(), connStatus,
           submitted, accepted, reported, received, consumed, shutdowns, closes,
           spoiled, overdrawn, undestroyable)
    }

    constructor (text: Text, host: Order)
      ensures Valid() && View() == Created(text)
      ensures fresh(channel) && fresh(writeCache) && fresh(readCache)
      ensures fresh(writeCache.container) && fresh(readCache.container)
    {
      this.text := text;
      channel := new EvtChannel();
      writeCache := new ByteBuffer(host, LittleEndian, 2048);
      readCache := new ByteBuffer(host, LittleEndian, 2048);
      connStatus, active := Disconnected, false;
      submitted, accepted, reported, received, consumed := [], [], 0, [], [];
      shutdowns, closes, spoiled, overdrawn, undestroyable := 0, 0, false, false, false;
    }

    /** The send call: a negative result with errno, or the number of bytes the kernel took off the
        front of what it was offered. */
    method Send(bytes: seq<byte>, answer: Answer) returns (ret: int, again: bool)
      modifies this`accepted
      ensures match answer
              case Again => ret == -1 && again && accepted == old(accepted)
              case Refused => ret == -1 && !again && accepted == old(accepted)
              case Took(n) => ret == Min(n, |bytes|) && accepted == old(accepted) + bytes[..ret]
    {
      match answer
      case Again => ret, again := -1, true;
      case Refused => ret, again := -1, false;
      case Took(n) =>
        ret, again := Min(n, |bytes|), false;
        accepted := accepted + bytes[..ret];
    }

    /** Append to the write cache and ask for writability. */
    method Keep(data: seq<byte>)
      requires Valid()
      modifies channel, writeCache, writeCache.container
      ensures Valid() && Moved()
      ensures View() == WantWrite(old(View()).(cache := old(View()).cache + data))
    {
      var _ := writeCache.Append(data);
      channel.EnableWrite(true);
    }

    method KeepAll(data: seq<byte>)
      requires Valid()
      modifies this`submitted, channel, writeCache, writeCache.container
      ensures Valid() && Moved()
      ensures View() == Cached(old(View()), data)
    {
      submitted := submitted + data;
      Keep(data);
    }

    /** A direct write that failed for good is not cached. */
    method Lose(data: seq<byte>)
      requires Valid()
      modifies this`submitted, this`spoiled
      ensures Valid() && Moved()
      ensures View() == Dropped(old(View()), data)
    {
      submitted := submitted + data;
      spoiled := spoiled || data != [];
    }

    /** Take bytes off the write cache. */
    method Drop(bytes: nat)
      requires Valid()
      modifies writeCache
      ensures Valid() && Moved()
      ensures View() == old(View()).(cache := After(old(View()).cache, bytes))
    {
      var _ := writeCache.Discard(bytes);
    }

    /** The history of a direct send of `sent` bytes. */
    ghost method Record(data: seq<byte>, sent: nat)
      modifies this`submitted, this`reported, this`spoiled
      ensures submitted == old(submitted) + data && reported == old(reported) + sent
      ensures spoiled ==
        (old(spoiled) || (sent < |data| && text.AsWritten? && !RepeatsEvery(data, sent)))
    {
      submitted, reported := submitted + data, reported + sent;
      spoiled := spoiled || (sent < |data| && text.AsWritten? && !RepeatsEvery(data, sent));
    }

    /** After a direct send of `sent` bytes: cache what is left over, if anything. */
    method KeepRest(data: seq<byte>, sent: nat)
      requires Valid() && sent <= |data|
      modifies this, channel, writeCache, writeCache.container
      ensures Valid() && Moved()
      ensures View() == RestKept(old(View()), data, sent)
    {
      Record(data, sent);
      if sent < |data| {
        // as written, the range starts at the front of the data
        Keep(if text.AsWritten? then data[..|data| - sent] else data[sent..]);
      }
    }

    method WriteInLoop(data: seq<byte>, answer: Answer, callback: Script)
      requires Valid()
      modifies this, channel, writeCache, readCache, writeCache.container, readCache.container
      ensures Valid() && Moved()
      ensures View() == ConnectionSpec.WriteInLoop(old(View()), data, answer, callback)
      decreases callback, 1
    {
      if writeCache.ReadableBytes() > 0 {
        KeepAll(data);
        return;
      }
      var ret, again := Send(data, answer);
      if ret < 0 {
        if again {
          KeepAll(data);
        } else {
          Lose(data);
          Play(callback);
        }
      } else {
        KeepRest(data, ret);
        if ret > 0 {
          Play(callback);
        }
      }
    }

    method Perform(command: Command)
      requires Valid()
      modifies this, channel, writeCache, readCache, writeCache.container, readCache.container
      ensures Valid() && Moved()
      ensures View() == ConnectionSpec.Perform(old(View()), command)
      decreases command
    {
      match command
      case Write(data, answer, callback) => WriteInLoop(data, answer, callback);
      case Shutdown =>
        connStatus := InDisconnect;
        shutdowns := shutdowns + 1;
      case Consume(n) =>
        consumed := consumed + Front(readCache.Contents(), n);
        var _ := readCache.Discard(n);
    }

    /** What user code does in a callback or a task. */
    method Play(script: Script)
      requires Valid()
      modifies this, channel, writeCache, readCache, writeCache.container, readCache.container
      ensures Valid() && Moved()
      ensures View() == ConnectionSpec.Play(old(View()), script)
      decreases script, 0
    {
      match script
      case Done =>
      case Then(first, rest) =>
        Perform(first);
        Play(rest);
    }

    method Start(onConn: Script)
      requires Valid() && View() == Created(text)
      modifies this, channel, writeCache, readCache, writeCache.container, readCache.container
      ensures Valid() && Moved()
      ensures View() == StartWith(text, onConn)
    {
      channel.JoinToService(true);
      channel.EnableRead(true);
      connStatus := Connected;
      Play(onConn);
    }

    /** The first discard after a flush, and the request for writability if bytes are left. */
    method TakeOff(sent: nat)
      requires Valid()
      modifies channel, writeCache
      ensures Valid() && Moved()
      ensures View() == TakenOff(old(View()), sent)
    {
      Drop(sent);
      if writeCache.ReadableBytes() > 0 {
        channel.EnableWrite(true);
      }
    }

    /** The second discard, which only the text as written has. */
    method TakeOffAgain(sent: nat)
      requires Valid()
      modifies this`spoiled, this`overdrawn, writeCache
      ensures Valid() && Moved()
      ensures View() == TakenOffAgain(old(View()), sent)
    {
      spoiled := spoiled || writeCache.ReadableBytes() > 0;
      overdrawn := overdrawn || writeCache.ReadableBytes() < sent;
      Drop(sent);
    }

    method Settle(sent: nat)
      requires Valid()
      modifies this`reported, this`spoiled, this`overdrawn, channel, writeCache
      ensures Valid() && Moved()
      ensures View() == FlushSettled(old(View()), sent)
    {
      reported := reported + sent;
      TakeOff(sent);
      if text.AsWritten? && sent > 0 {
        TakeOffAgain(sent);
      }
    }

    method HandleWrite(answer: Answer, callback: Script)
      requires Valid()
      modifies this, channel, writeCache, readCache, writeCache.container, readCache.container
      ensures Valid() && Moved()
      ensures View() == ConnectionSpec.HandleWrite(old(View()), answer, callback)
    {
      ghost var was := View();
      var ret, again := Send(writeCache.container[writeCache.rdIndex..writeCache.wtIndex], answer);
      if ret < 0 {
        if again {
          channel.EnableWrite(true);
        } else {
          Play(callback);
        }
      } else {
        assert View() == was.(accepted := was.accepted + was.cache[..ret]);
        Settle(ret);
        if ret > 0 {
          Play(callback);
        }
      }
    }

    method FinalDestroy()
      requires Valid()
      modifies this, channel
      ensures Valid()
      ensures View() == ConnectionSpec.FinalDestroy(old(View()))
      ensures writeCache.container == old(writeCache.container)
      ensures readCache.container == old(readCache.container)
    {
      undestroyable := undestroyable || connStatus != Disconnected;
      channel.RemoveFromService(true);
    }

    /** The part of handle_close before its callbacks. */
    method StopTraffic()
      requires Valid()
      modifies this`connStatus, this`closes, channel
      ensures Valid() && Moved()
      ensures View() == Closing(old(View()))
    {
      connStatus := Disconnected;
      channel.EnableRead(false);
      channel.EnableWrite(false);
      closes := closes + 1;
    }

    method HandleClose(onConn: Script)
      requires Valid()
      modifies this, channel, writeCache, readCache, writeCache.container, readCache.container
      ensures Valid() && Moved()
      ensures View() == ConnectionSpec.HandleClose(old(View()), onConn)
    {
      StopTraffic();
      Play(onConn);
      FinalDestroy();
    }

    /** The bytes recv puts behind the write pointer are declared written. */
    method Receive(got: seq<byte>)
      requires Valid() && |got| <= readCache.WriteableBytes()
      modifies this`received, readCache, readCache.container
      ensures Valid() && Moved()
      ensures View() == old(View()).(received := old(received) + got, inbox := old(View()).inbox + got)
    {
      readCache.WriteAhead(got);
      var _ := readCache.HasWritten(|got|);
      assert readCache.container[old(readCache.wtIndex)..readCache.wtIndex] == got;
      received := received + got;
    }

    method HandleRead(arrival: Arrival)
      requires Valid()
      modifies this, channel, writeCache, readCache, writeCache.container, readCache.container
      ensures Valid() && Moved()
      ensures View() == ConnectionSpec.HandleRead(old(View()), arrival)
    {
      readCache.EnsureWriteSpace(MAX_READ);
      match arrival
      case Eof(onConn, onClose) =>
        Play(onConn);
        HandleClose(onClose);
      case Received(data, callback) =>
        Receive(Front(data, MAX_READ));
        Play(callback);
      case RecvFailed(callback) => Play(callback);
    }

    /** The first two branches of do_process_work. */
    method ProcessFailures(plan: Plan)
      requires Valid()
      modifies this, channel, writeCache, readCache, writeCache.container, readCache.container
      ensures Valid() && Moved()
      ensures View() == OnError(OnHangup(old(View()), plan), plan)
    {
      if HUP in channel.lastEvtStatus && IN !in channel.lastEvtStatus {
        HandleClose(plan.onHangup);
      }
      if ERR in channel.lastEvtStatus {
        Play(plan.onError);
      }
    }

    /** The other two. */
    method ProcessTraffic(plan: Plan)
      requires Valid()
      modifies this, channel, writeCache, readCache, writeCache.container, readCache.container
      ensures Valid() && Moved()
      ensures View() == OnWritable(OnReadable(old(View()), plan), plan)
    {
      if channel.lastEvtStatus * {IN, PRI, RDHUP} != {} {
        HandleRead(plan.arrival);
      }
      if OUT in channel.lastEvtStatus {
        channel.progressInWrite := false;
        HandleWrite(plan.answer, plan.onWritten);
      }
    }

    /** do_process_work: every branch looks at the stored mask again. */
    method ProcessWork(plan: Plan)
      requires Valid()
      modifies this, channel, writeCache, readCache, writeCache.container, readCache.container
      ensures Valid() && Moved()
      ensures View() == ConnectionSpec.ProcessWork(old(View()), plan)
    {
      ProcessFailures(plan);
      ProcessTraffic(plan);
    }

    /** What the loop does for this connection: report it, process it, or run somebody's commands. */
    method Turn(e: Event)
      requires Valid()
      modifies this, channel, writeCache, readCache, writeCache.container, readCache.container
      ensures Valid() && Moved()
      ensures View() == Step(old(View()), e)
    {
      match e
      case Task(commands) => Play(commands);
      case Report(ready) =>
        if channel.registered && !active {
          channel.SaveEvtStatus(ready);
          active := true;
        }
      case Process(plan) =>
        if active {
          active := false;
          ProcessWork(plan);
        }
    }
  }
}
