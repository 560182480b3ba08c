/** What one connection does, as functions on snapshots: src/muradin/net/connection.cpp over
    evt_channel.cpp. The kernel's answers and everything the user does in callbacks are part of the
    input, so that all of them are covered. */
module ConnectionSpec {
  import opened Bytes
  import opened ByteBuffer
  import opened EvtChannel

  /** The program text being modelled. As written, a short direct write caches the front of the data
      again (connection.cpp:107) and a flush discards what it sent twice (connection.cpp:166 and 171).
      The intended text caches the rest and discards once. Everything else is the same. */
  datatype Text = AsWritten | Intended

  /** What send returns: EAGAIN, another error, or a count, which is at most what was offered. */
  datatype Answer = Again | Refused | Took(n: nat)

  /** What a user does from inside the loop, each step with the kernel's answer to it and the commands
      that its completion callback runs, immediately, should it be called. */
  datatype Command =
    | Write(data: seq<byte>, answer: Answer, callback: Script)
    | Shutdown
    | Consume(n: nat) // read_buffer().discard(n)

  datatype Script = Done | Then(first: Command, rest: Script)

  /** What recv returns, with the callbacks it leads to. */
  datatype Arrival =
    | Eof(onConn: Script, onClose: Script)
    | Received(data: seq<byte>, callback: Script)
    | RecvFailed(callback: Script)

  datatype Plan = Plan(onHangup: Script, onError: Script, arrival: Arrival, answer: Answer, onWritten: Script)

  /** What the loop does for this connection. The poller reports it ready, together with others; some time
      later, after channels before it, it is processed. At any time in between or outside, a callback of
      somebody else or a queued task may run commands on it. */
  datatype Event = Report(ready: set<Flag>) | Process(plan: Plan) | Task(commands: Script)

  datatype Status = Disconnected | Connected | InConnect | InDisconnect

  /** The connection and its history. `active` says that it is reported and not processed yet. `submitted`
      is the concatenation of all writes, `accepted` what the kernel took, `reported` the total told to the
      write callback, `received` and `consumed` the two ends of the read cache. `spoiled` records that a
      line lost or repeated bytes, `overdrawn` that the assertion in discard was violated, and
      `undestroyable` that the one in final_destory was. */
  datatype Conn = Conn(
    text: Text,
    chan: Chan,
    active: bool,
    cache: seq<byte>,
    inbox: seq<byte>,
    status: Status,
    submitted: seq<byte>,
    accepted: seq<byte>,
    reported: nat,
    received: seq<byte>,
    consumed: seq<byte>,
    shutdowns: nat,
    closes: nat,
    spoiled: bool,
    overdrawn: bool,
    undestroyable: bool)

  const MAX_READ: nat := 1024 * 32

  function Created(text: Text): Conn {
    Conn(text, NEW, false, [], [], Disconnected, [], [], 0, [], [], 0, 0, false, false, false)
  }

  /** The data reads the same when it is moved by `n` places. */
  predicate RepeatsEvery(data: seq<byte>, n: nat) {
    forall i, j :: 0 <= i < |data| && 0 <= j < |data| && j == i + n ==> data[i] == data[j]
  }

  /** The part of a short direct write that goes to the cache. */
  function Kept(text: Text, data: seq<byte>, sent: nat): seq<byte>
    requires sent <= |data|
  {
    if text.AsWritten? then data[..|data| - sent] else data[sent..]
  }

  function Min(a: nat, b: nat): nat {
    if a < b then a else b
  }

  function WantWrite(c: Conn): Conn {
    c.(chan := WriteEnabled(c.chan, true))
  }

  /** What follows a direct send of `sent` bytes: the rest, if there is one, goes to the cache. */
  function RestKept(c: Conn, data: seq<byte>, sent: nat): Conn
    requires sent <= |data|
  {
    var d := c.(submitted := c.submitted + data, reported := c.reported + sent);
    if sent < |data| then
      WantWrite(d.(cache := c.cache + Kept(c.text, data, sent),
                   spoiled := c.spoiled || (c.text.AsWritten? && !RepeatsEvery(data, sent))))
    else d
  }

  /** A direct write of which `sent` bytes went out at once, up to its completion callback. */
  function SentDirectly(c: Conn, data: seq<byte>, sent: nat): Conn
    requires sent <= |data|
  {
    RestKept(c.(accepted := c.accepted + data[..sent]), data, sent)
  }

  /** A direct write that failed for good: the data is gone. */
  function Dropped(c: Conn, data: seq<byte>): Conn {
    c.(submitted := c.submitted + data, spoiled := c.spoiled || data != [])
  }

  /** A write that is cached as a whole. */
  function Cached(c: Conn, data: seq<byte>): Conn {
    WantWrite(c.(submitted := c.submitted + data, cache := c.cache + data))
  }

  function WriteInLoop(c: Conn, data: seq<byte>, answer: Answer, callback: Script): Conn
    decreases callback, 1
  {
    if c.cache != [] then Cached(c, data)
    else
      match answer
      case Again => Cached(c, data)
      case Refused => Play(Dropped(c, data), callback)
      case Took(n) =>
        var sent := Min(n, |data|);
        var d := SentDirectly(c, data, sent);
        if sent > 0 then Play(d, callback) else d
  }

  function Perform(c: Conn, command: Command): Conn
    decreases command
  {
    match command
    case Write(data, answer, callback) => WriteInLoop(c, data, answer, callback)
    case Shutdown => c.(status := InDisconnect, shutdowns := c.shutdowns + 1)
    case Consume(n) => c.(inbox := After(c.inbox, n), consumed := c.consumed + Front(c.inbox, n))
  }

  function Play(c: Conn, script: Script): Conn
    decreases script, 0
  {
    match script
    case Done => c
    case Then(first, rest) => Play(Perform(c, first), rest)
  }

  /** start(): join the poller, ask for reads. */
  function Opened(text: Text): Conn {
    var c := Created(text);
    c.(chan := ReadEnabled(Joined(c.chan, true), true), status := Connected)
  }

  /** And run the connect callback. */
  function StartWith(text: Text, onConn: Script): Conn {
    Play(Opened(text), onConn)
  }

  /** What was sent leaves the cache, and writability is asked for if that leaves something. */
  function TakenOff(c: Conn, sent: nat): Conn {
    var d := c.(cache := After(c.cache, sent));
    if d.cache != [] then WantWrite(d) else d
  }

  /** The second discard of the text as written. */
  function TakenOffAgain(c: Conn, sent: nat): Conn {
    c.(cache := After(c.cache, sent),
       spoiled := c.spoiled || c.cache != [],
       overdrawn := c.overdrawn || |c.cache| < sent)
  }

  /** What follows a flush of `sent` bytes. */
  function FlushSettled(c: Conn, sent: nat): Conn {
    var d := TakenOff(c.(reported := c.reported + sent), sent);
    if c.text.AsWritten? && sent > 0 then TakenOffAgain(d, sent) else d
  }

  /** A flush of which `sent` bytes went out, up to its completion callback. */
  function Flushed(c: Conn, sent: nat): Conn
    requires sent <= |c.cache|
  {
    FlushSettled(c.(accepted := c.accepted + c.cache[..sent]), sent)
  }

  function HandleWrite(c: Conn, answer: Answer, callback: Script): Conn {
    match answer
    case Again => WantWrite(c)
    case Refused => Play(c, callback)
    case Took(n) =>
      var sent := Min(n, |c.cache|);
      if sent > 0 then Play(Flushed(c, sent), callback) else Flushed(c, sent)
  }

  /** handle_close up to the callbacks. */
  function Closing(c: Conn): Conn {
    c.(status := Disconnected, closes := c.closes + 1,
       chan := WriteEnabled(ReadEnabled(c.chan, false), false))
  }

  /** The connect callback runs first, then the server's close callback, which unregisters. */
  function HandleClose(c: Conn, onConn: Script): Conn {
    FinalDestroy(Play(Closing(c), onConn))
  }

  function FinalDestroy(c: Conn): Conn {
    c.(undestroyable := c.undestroyable || c.status != Disconnected, chan := Removed(c.chan, true))
  }

  function Arrived(c: Conn, data: seq<byte>): Conn {
    var got := Front(data, MAX_READ);
    c.(received := c.received + got, inbox := c.inbox + got)
  }

  function HandleRead(c: Conn, arrival: Arrival): Conn {
    match arrival
    case Eof(onConn, onClose) => HandleClose(Play(c, onConn), onClose)
    case Received(data, callback) => Play(Arrived(c, data), callback)
    case RecvFailed(callback) => Play(c, callback)
  }

  // The four branches of do_process_work. Each looks at the stored mask as the ones before left it.

  function OnHangup(c: Conn, plan: Plan): Conn {
    if HUP in c.chan.mask && IN !in c.chan.mask then HandleClose(c, plan.onHangup) else c
  }

  function OnError(c: Conn, plan: Plan): Conn {
    if ERR in c.chan.mask then Play(c, plan.onError) else c
  }

  function OnReadable(c: Conn, plan: Plan): Conn {
    if c.chan.mask * {IN, PRI, RDHUP} != {} then HandleRead(c, plan.arrival) else c
  }

  function Progressed(c: Conn): Conn {
    c.(chan := c.chan.(progress := false))
  }

  function OnWritable(c: Conn, plan: Plan): Conn {
    if OUT in c.chan.mask then
      HandleWrite(Progressed(c), plan.answer, plan.onWritten)
    else c
  }

  function ProcessWork(c: Conn, plan: Plan): Conn {
    OnWritable(OnReadable(OnError(OnHangup(c, plan), plan), plan), plan)
  }

  /** The poller saves the ready set in the channel and lists the channel as active. */
  function Reported(c: Conn, ready: set<Flag>): Conn {
    c.(chan := Saved(c.chan, ready), active := true)
  }

  function Processed(c: Conn, plan: Plan): Conn {
    ProcessWork(c.(active := false), plan)
  }

  /** The poller reports only descriptors it still holds, and polls again only when the whole list of
      active channels has been processed. */
  function Step(c: Conn, e: Event): Conn {
    match e
    case Report(ready) => if c.chan.registered && !c.active then Reported(c, ready) else c
    case Process(plan) => if c.active then Processed(c, plan) else c
    case Task(commands) => Play(c, commands)
  }

  function Exec(c: Conn, run: seq<Event>): Conn
    decreases run
  {
    if run == [] then c else Exec(Step(c, run[0]), run[1..])
  }
}
