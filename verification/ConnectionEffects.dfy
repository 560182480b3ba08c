/** What each operation of a connection does to the bytes and to the connection, outright, and what becomes of
    a report: which branch of do_process_work the reported flags lead to. */
module ConnectionEffects {
  import opened Bytes
  import opened ByteBuffer
  import opened EvtChannel
  import opened ConnectionSpec
  import opened ConnectionScripts
  import opened ConnectionRuns

  // ---------------------------------------------------------------------------------------------
  // One operation.

  /** A started connection listens for input and is connected, and nothing has happened to it yet. */
  lemma StartEffect(text: Text)
    ensures StartWith(text, Done) ==
      Conn(text, Chan({IN, HUP, PRI}, false, true, {IN, HUP, PRI}), false, [], [], Connected,
           [], [], 0, [], [], 0, 0, false, false, false)
  {
    assert Play(Opened(text), Done) == Opened(text);
  }

  lemma SentEffect(c: Conn, data: seq<byte>, sent: nat)
    requires c.cache == [] && sent <= |data|
    ensures
      var d := SentDirectly(c, data, sent);
      && d.submitted == c.submitted + data
      && d.accepted == c.accepted + data[..sent] && d.reported == c.reported + sent
      && d.cache == (if c.text.Intended? then data[sent..] else data[..|data| - sent])
      && d.chan == (if sent < |data| then WriteEnabled(c.chan, true) else c.chan)
      && OutputOnly(c.(submitted := d.submitted), d)
  {
    assert [] + data[sent..] == data[sent..];
    assert [] + data[..|data| - sent] == data[..|data| - sent];
  }

  /** A write is cached behind what is cached already, or if the kernel is not ready for it, and then
      writability is asked for; it is dropped if the kernel refuses; otherwise the kernel takes the front of
      it and the rest is cached: by the intended text what was not sent, by the text as written the front of
      the data once more. */
  lemma WriteEffect(c: Conn, data: seq<byte>, answer: Answer)
    ensures
      var d := WriteInLoop(c, data, answer, Done);
      && d.submitted == c.submitted + data && OutputOnly(c.(submitted := d.submitted), d)
      && if c.cache != [] || answer.Again? then
           && d.cache == c.cache + data && d.accepted == c.accepted && d.reported == c.reported
           && d.chan == WriteEnabled(c.chan, true)
         else if answer.Refused? then
           d.cache == [] && d.accepted == c.accepted && d.reported == c.reported && d.chan == c.chan
         else
           var sent := if answer.n <= |data| then answer.n else |data|;
           && d.accepted == c.accepted + data[..sent] && d.reported == c.reported + sent
           && d.cache == (if c.text.Intended? then data[sent..] else data[..|data| - sent])
           && d.chan == (if sent < |data| then WriteEnabled(c.chan, true) else c.chan)
  {
    if c.cache == [] {
      match answer
      case Again =>
      case Refused => assert Play(Dropped(c, data), Done) == Dropped(c, data);
      case Took(n) =>
        var d := SentDirectly(c, data, Min(n, |data|));
        SentEffect(c, data, Min(n, |data|));
        assert Play(d, Done) == d;
    }
  }

  /** The completion callback runs after that, at once, exactly when the kernel refused or took something. */
  lemma WriteCallsBack(c: Conn, data: seq<byte>, answer: Answer, callback: Script)
    ensures
      var d := WriteInLoop(c, data, answer, Done);
      WriteInLoop(c, data, answer, callback) ==
        if c.cache == [] && (answer.Refused? || (answer.Took? && answer.n > 0 && data != []))
        then Play(d, callback) else d
  {
    if c.cache == [] {
      match answer
      case Again =>
      case Refused => assert Play(Dropped(c, data), Done) == Dropped(c, data);
      case Took(n) =>
        var d := SentDirectly(c, data, Min(n, |data|));
        assert Play(d, Done) == d;
    }
  }

  /** Nothing differs but the output side: the cache, its history and its flags, and the channel. */
  predicate OutputOnly(c: Conn, d: Conn) {
    && d.text == c.text && d.active == c.active && d.inbox == c.inbox && d.status == c.status
    && d.submitted == c.submitted && d.received == c.received && d.consumed == c.consumed
    && d.shutdowns == c.shutdowns && d.closes == c.closes && d.undestroyable == c.undestroyable
  }

  lemma TakenOffEffect(c: Conn, sent: nat)
    requires sent <= |c.cache|
    ensures
      var d := TakenOff(c, sent);
      && d.cache == c.cache[sent..]
      && d.chan == (if sent < |c.cache| then WriteEnabled(c.chan, true) else c.chan)
      && d.accepted == c.accepted && d.reported == c.reported && OutputOnly(c, d)
  {
  }

  /** The second discard takes as many bytes again, or all there are. */
  lemma TakenOffAgainEffect(c: Conn, sent: nat)
    ensures
      var d := TakenOffAgain(c, sent);
      && d.cache == (if sent <= |c.cache| then c.cache[sent..] else [])
      && d.chan == c.chan && d.accepted == c.accepted && d.reported == c.reported && OutputOnly(c, d)
  {
  }

  lemma SecondDiscard(cache: seq<byte>, sent: nat)
    requires sent <= |cache|
    ensures sent <= |cache[sent..]| <==> 2 * sent <= |cache|
    ensures 2 * sent <= |cache| ==> cache[sent..][sent..] == cache[2 * sent..]
  {
  }

  predicate Settled(c: Conn, sent: nat, d: Conn) {
    && d.cache == (if c.text.Intended? then After(c.cache, sent) else After(c.cache, 2 * sent))
    && d.chan == (if sent < |c.cache| then WriteEnabled(c.chan, true) else c.chan)
    && d.accepted == c.accepted && d.reported == c.reported && OutputOnly(c, d)
  }

  lemma SettledOnce(c: Conn, sent: nat)
    requires sent <= |c.cache| && (c.text.Intended? || sent == 0)
    ensures Settled(c, sent, TakenOff(c, sent))
  {
    TakenOffEffect(c, sent);
  }

  lemma SettledTwice(c: Conn, sent: nat)
    requires sent <= |c.cache| && c.text.AsWritten?
    ensures Settled(c, sent, TakenOffAgain(TakenOff(c, sent), sent))
  {
    TakenOffEffect(c, sent);
    SecondDiscard(c.cache, sent);
    TakenOffAgainEffect(TakenOff(c, sent), sent);
  }

  lemma FlushedEffect(c: Conn, sent: nat)
    requires sent <= |c.cache|
    ensures
      var d := Flushed(c, sent);
      && d.accepted == c.accepted + c.cache[..sent] && d.reported == c.reported + sent
      && d.cache == (if c.text.Intended? then c.cache[sent..]
                     else if 2 * sent <= |c.cache| then c.cache[2 * sent..] else [])
      && d.chan == (if sent < |c.cache| then WriteEnabled(c.chan, true) else c.chan)
      && OutputOnly(c, d)
  {
    var e := c.(accepted := c.accepted + c.cache[..sent], reported := c.reported + sent);
    if c.text.AsWritten? && sent > 0 {
      SettledTwice(e, sent);
    } else {
      SettledOnce(e, sent);
    }
  }

  /** A flush: the kernel takes the front of the cache. By the intended text what was not sent is left; by
      the text as written as many bytes again are gone, or all if there are not as many. If something is
      left after the first of the two, writability is asked for. */
  lemma FlushEffect(c: Conn, n: nat)
    ensures
      var d := HandleWrite(c, Took(n), Done);
      var sent := if n <= |c.cache| then n else |c.cache|;
      && d.accepted == c.accepted + c.cache[..sent] && d.reported == c.reported + sent
      && d.cache == (if c.text.Intended? then c.cache[sent..]
                     else if 2 * sent <= |c.cache| then c.cache[2 * sent..] else [])
      && d.chan == (if sent < |c.cache| then WriteEnabled(c.chan, true) else c.chan)
      && OutputOnly(c, d)
  {
    var sent := Min(n, |c.cache|);
    FlushedEffect(c, sent);
    assert Play(Flushed(c, sent), Done) == Flushed(c, sent);
  }

  /** A flush that the kernel does not take changes nothing, but for the request in the case of EAGAIN. The
      callback runs exactly when it refused or took something. */
  lemma FlushCallsBack(c: Conn, answer: Answer, callback: Script)
    ensures HandleWrite(c, Again, callback) == c.(chan := WriteEnabled(c.chan, true))
    ensures HandleWrite(c, Refused, callback) == Play(c, callback)
    ensures
      answer.Took? ==>
        HandleWrite(c, answer, callback) ==
          if answer.n > 0 && c.cache != [] then Play(HandleWrite(c, answer, Done), callback)
          else HandleWrite(c, answer, Done)
  {
    if answer.Took? {
      var d := Flushed(c, Min(answer.n, |c.cache|));
      assert Play(d, Done) == d;
    }
  }

  /** What recv delivers is received and readable: all of it, up to the 32 KiB asked for. */
  lemma ReadEffect(c: Conn, data: seq<byte>)
    ensures
      var d := HandleRead(c, Received(data, Done));
      var got := if |data| <= 32768 then data else data[..32768];
      d == c.(received := c.received + got, inbox := c.inbox + got)
  {
    assert Play(Arrived(c, data), Done) == Arrived(c, data);
  }

  /** A close in which the connect callback does nothing. */
  lemma CloseOutright(c: Conn)
    requires c.chan.registered
    ensures HandleClose(c, Done) ==
      c.(status := Disconnected, closes := c.closes + 1, chan := Chan({}, false, false, {}))
  {
    DisablingBothClears(c.chan);
    assert Play(Closing(c), Done) == Closing(c);
  }

  // ---------------------------------------------------------------------------------------------
  // What a script submits and consumes.

  /** The data of all writes that a script comes to, in order, those of completion callbacks included. */
  function Submits(full: bool, script: Script): seq<byte>
    decreases script, 0
  {
    match script
    case Done => []
    case Then(first, rest) => SubmitsBy(full, first) + Submits(FillsBy(full, first), rest)
  }

  function SubmitsBy(full: bool, command: Command): seq<byte>
    decreases command, 1
  {
    match command
    case Write(data, answer, callback) =>
      data + (if CallsBack(full, data, answer) then Submits(Leaves(full, data, answer), callback) else [])
    case _ => []
  }

  lemma {:induction false} PerformSubmits(c: Conn, command: Command)
    ensures Perform(c, command).submitted == c.submitted + SubmitsBy(c.cache != [], command)
    decreases command, 1
  {
    match command
    case Write(data, answer, callback) =>
      WriteUnfolds(c, data, answer, callback);
      WriteEffect(c, data, answer);
      WriteCallsBack(c, data, answer, callback);
      var b := WriteInLoop(c, data, answer, Done);
      WriteUnfolds(c, data, answer, Done);
      if CallsBack(c.cache != [], data, answer) {
        var d := BeforeCallback(c, data, answer);
        assert b == Play(d, Done) == d;
        PlaySubmits(b, callback);
        assert c.submitted + data + Submits(b.cache != [], callback)
            == c.submitted + (data + Submits(b.cache != [], callback));
      } else {
        assert data + [] == data;
      }
    case _ => assert c.submitted + [] == c.submitted;
  }

  /** Everything a script writes is submitted, in order, and nothing else. */
  lemma {:induction false} PlaySubmits(c: Conn, script: Script)
    ensures Play(c, script).submitted == c.submitted + Submits(c.cache != [], script)
    decreases script, 0
  {
    match script
    case Done => assert c.submitted + [] == c.submitted;
    case Then(first, rest) =>
      var d := Perform(c, first);
      PerformSubmits(c, first);
      PerformAsPredicted(c, first);
      PlaySubmits(d, rest);
      assert c.submitted + SubmitsBy(c.cache != [], first) + Submits(d.cache != [], rest)
          == c.submitted + (SubmitsBy(c.cache != [], first) + Submits(d.cache != [], rest));
  }

  /** How many bytes a script asks to consume, all told. */
  function Consumes(full: bool, script: Script): nat
    decreases script, 0
  {
    match script
    case Done => 0
    case Then(first, rest) => ConsumesBy(full, first) + Consumes(FillsBy(full, first), rest)
  }

  function ConsumesBy(full: bool, command: Command): nat
    decreases command, 1
  {
    match command
    case Write(data, answer, callback) =>
      if CallsBack(full, data, answer) then Consumes(Leaves(full, data, answer), callback) else 0
    case Shutdown => 0
    case Consume(n) => n
  }

  /** The bytes consumed are the first ones of those readable, or all if there are not as many. */
  predicate Consumed(c: Conn, d: Conn, n: nat) {
    var m := if n <= |c.inbox| then n else |c.inbox|;
    d.inbox == c.inbox[m..] && d.consumed == c.consumed + c.inbox[..m]
  }

  lemma ConsumedTrans(c: Conn, d: Conn, e: Conn, m: nat, n: nat)
    requires Consumed(c, d, m) && Consumed(d, e, n)
    ensures Consumed(c, e, m + n)
  {
    var k := if m <= |c.inbox| then m else |c.inbox|;
    var l := if n <= |d.inbox| then n else |d.inbox|;
    assert c.inbox[k..][l..] == c.inbox[k + l..];
    assert c.inbox[..k] + c.inbox[k..][..l] == c.inbox[..k + l];
    assert c.consumed + c.inbox[..k] + c.inbox[k..][..l] == c.consumed + (c.inbox[..k] + c.inbox[k..][..l]);
  }

  lemma ConsumedNothing(c: Conn, d: Conn)
    requires d.inbox == c.inbox && d.consumed == c.consumed
    ensures Consumed(c, d, 0)
  {
    assert c.inbox[..0] == [] && c.inbox[0..] == c.inbox;
  }

  lemma BeforeCallbackConsumes(c: Conn, data: seq<byte>, answer: Answer)
    requires CallsBack(c.cache != [], data, answer)
    ensures Consumed(c, BeforeCallback(c, data, answer), 0)
  {
    ConsumedNothing(c, BeforeCallback(c, data, answer));
  }

  lemma {:induction false} PerformConsumes(c: Conn, command: Command)
    ensures Consumed(c, Perform(c, command), ConsumesBy(c.cache != [], command))
    decreases command, 1
  {
    match command
    case Write(data, answer, callback) =>
      WriteUnfolds(c, data, answer, callback);
      if CallsBack(c.cache != [], data, answer) {
        var b := BeforeCallback(c, data, answer);
        BeforeCallbackConsumes(c, data, answer);
        PlayConsumes(b, callback);
        ConsumedTrans(c, b, Play(b, callback), 0, Consumes(b.cache != [], callback));
      } else {
        ConsumedNothing(c, Perform(c, command));
      }
    case Shutdown => ConsumedNothing(c, Perform(c, command));
    case Consume(n) =>
      assert c.inbox[|c.inbox|..] == [] && c.inbox[..|c.inbox|] == c.inbox;
  }

  /** A script consumes as many of the readable bytes as it asks for, from the front. */
  lemma {:induction false} PlayConsumes(c: Conn, script: Script)
    ensures Consumed(c, Play(c, script), Consumes(c.cache != [], script))
    decreases script, 0
  {
    match script
    case Done => ConsumedNothing(c, c);
    case Then(first, rest) =>
      var d := Perform(c, first);
      var m, n := ConsumesBy(c.cache != [], first), Consumes(d.cache != [], rest);
      assert Consumed(c, d, m) by { PerformConsumes(c, first); }
      assert Consumed(d, Play(d, rest), n) by { PlayConsumes(d, rest); }
      assert Consumed(c, Play(d, rest), m + n) by { ConsumedTrans(c, d, Play(d, rest), m, n); }
      assert Consumes(c.cache != [], script) == m + n by { PerformAsPredicted(c, first); }
  }

  // ---------------------------------------------------------------------------------------------
  // A report and its processing, in terms of the flags reported.

  predicate Hangs(ready: set<Flag>) {
    HUP in ready && IN !in ready
  }

  predicate Reads(ready: set<Flag>) {
    !Hangs(ready) && (IN in ready || PRI in ready || RDHUP in ready)
  }

  /** What recv delivers of an arrival. */
  function Got(arrival: Arrival): seq<byte> {
    match arrival
    case Received(data, _) => if |data| <= 32768 then data else data[..32768]
    case _ => []
  }

  function Turned(c: Conn, ready: set<Flag>, plan: Plan): Conn {
    Step(Step(c, Report(ready)), Process(plan))
  }

  /** Neither a script nor a flush receives or closes anything. */
  predicate Unread(c: Conn, d: Conn) {
    && d.received == c.received && d.active == c.active
    && d.closes == c.closes && d.chan.registered == c.chan.registered
  }

  lemma {:induction false} ScriptUnread(c: Conn, script: Script)
    ensures Unread(c, Play(c, script))
    ensures c.chan.mask <= Play(c, script).chan.mask <= c.chan.mask + {OUT}
  {
    PlayAsPredicted(c, script);
    PlayIsUserOnly(c, script);
  }

  lemma FlushedUnread(c: Conn, sent: nat)
    requires sent <= |c.cache|
    ensures Unread(c, Flushed(c, sent))
  {
    FlushedEffect(c, sent);
  }

  lemma {:induction false} CloseReceives(c: Conn, onConn: Script)
    ensures
      var d := HandleClose(c, onConn);
      && d.received == c.received && d.closes == c.closes + 1 && !d.chan.registered
      && d.chan.mask <= {OUT} && d.active == c.active
  {
    CloseEffect(c, onConn);
    PlayAsPredicted(Closing(c), onConn);
  }

  lemma {:induction false} FailuresReceive(c: Conn, plan: Plan)
    ensures
      var d := OnError(OnHangup(c, plan), plan);
      && d.received == c.received && d.active == c.active
      && (if Hangs(c.chan.mask) then
            d.closes == c.closes + 1 && !d.chan.registered && d.chan.mask <= {OUT}
          else
            && d.closes == c.closes && d.chan.registered == c.chan.registered
            && c.chan.mask <= d.chan.mask <= c.chan.mask + {OUT})
  {
    CloseReceives(c, plan.onHangup);
    var d := OnHangup(c, plan);
    ScriptUnread(d, plan.onError);
  }

  lemma ReadFlags(mask: set<Flag>)
    ensures mask * {IN, PRI, RDHUP} != {} <==> IN in mask || PRI in mask || RDHUP in mask
  {
    assert IN in mask ==> IN in mask * {IN, PRI, RDHUP};
    assert PRI in mask ==> PRI in mask * {IN, PRI, RDHUP};
    assert RDHUP in mask ==> RDHUP in mask * {IN, PRI, RDHUP};
  }

  lemma {:induction false} ReadableReceives(c: Conn, plan: Plan)
    ensures
      var d := OnReadable(c, plan);
      var input := IN in c.chan.mask || PRI in c.chan.mask || RDHUP in c.chan.mask;
      && d.received == c.received + (if input then Got(plan.arrival) else [])
      && d.active == c.active
      && (if input && plan.arrival.Eof? then d.closes == c.closes + 1 && !d.chan.registered
          else d.closes == c.closes && d.chan.registered == c.chan.registered)
  {
    assert c.received + [] == c.received;
    ReadFlags(c.chan.mask);
    match plan.arrival
    case Eof(onConn, onClose) =>
      ScriptUnread(c, onConn);
      CloseReceives(Play(c, onConn), onClose);
    case Received(data, callback) =>
      ReadEffect(c, data);
      assert Play(Arrived(c, data), Done) == Arrived(c, data);
      ScriptUnread(Arrived(c, data), callback);
    case RecvFailed(callback) => ScriptUnread(c, callback);
  }

  lemma {:induction false} WritableReceives(c: Conn, plan: Plan)
    ensures Unread(c, OnWritable(c, plan))
  {
    var p := Progressed(c);
    match plan.answer
    case Again =>
    case Refused => ScriptUnread(p, plan.onWritten);
    case Took(n) =>
      var sent := Min(n, |p.cache|);
      FlushedUnread(p, sent);
      ScriptUnread(Flushed(p, sent), plan.onWritten);
  }

  lemma {:induction false} ProcessReceives(c: Conn, plan: Plan)
    ensures
      var d := ProcessWork(c, plan);
      var mask := c.chan.mask;
      && d.received == c.received + (if Reads(mask) then Got(plan.arrival) else [])
      && d.active == c.active
      && (if Hangs(mask) || (Reads(mask) && plan.arrival.Eof?) then
            d.closes == c.closes + 1 && !d.chan.registered
          else d.closes == c.closes && d.chan.registered == c.chan.registered)
  {
    FailuresReceive(c, plan);
    var d := OnError(OnHangup(c, plan), plan);
    ReadableReceives(d, plan);
    WritableReceives(OnReadable(d, plan), plan);
  }

  /** An open connection that is reported ready and then processed: with a hangup but no input it closes;
      with input, urgent input or a half-close it receives what recv delivers, and closes if that is the end
      of the file; otherwise it does neither. Callbacks make no difference. */
  lemma {:induction false} ReportReceives(c: Conn, ready: set<Flag>, plan: Plan)
    requires c.chan.registered && !c.active
    ensures
      var d := Turned(c, ready, plan);
      && d.received == c.received + (if Reads(ready) then Got(plan.arrival) else [])
      && !d.active
      && (if Hangs(ready) || (Reads(ready) && plan.arrival.Eof?) then
            d.closes == c.closes + 1 && !d.chan.registered
          else d.closes == c.closes && d.chan.registered)
  {
    ProcessReceives(Reported(c, ready).(active := false), plan);
  }

  /** The callbacks of a plan do nothing, and the peer has not closed. */
  predicate Plain(plan: Plan) {
    plan.onWritten == Done &&
    match plan.arrival
    case Eof(_, _) => false
    case Received(_, callback) => callback == Done
    case RecvFailed(callback) => callback == Done
  }

  lemma PlainRead(c: Conn, plan: Plan)
    requires Plain(plan)
    ensures
      var d := OnReadable(c, plan);
      d == c.(received := d.received, inbox := d.inbox)
  {
    match plan.arrival
    case Received(data, _) => ReadEffect(c, data);
    case RecvFailed(_) => assert Play(c, Done) == c;
  }

  /** If it is reported writable and nobody hangs up, the cache is flushed as the kernel answers; if not,
      the output is left alone. */
  lemma ReportFlushes(c: Conn, ready: set<Flag>, plan: Plan)
    requires c.chan.registered && !c.active && !Hangs(ready) && Plain(plan) && plan.onError == Done
    ensures
      var d := Turned(c, ready, plan);
      && d.submitted == c.submitted
      && if OUT in ready && plan.answer.Took? then
           var sent := if plan.answer.n <= |c.cache| then plan.answer.n else |c.cache|;
           && d.accepted == c.accepted + c.cache[..sent] && d.reported == c.reported + sent
           && d.cache == (if c.text.Intended? then c.cache[sent..]
                          else if 2 * sent <= |c.cache| then c.cache[2 * sent..] else [])
         else
           d.accepted == c.accepted && d.reported == c.reported && d.cache == c.cache
  {
    var r := Reported(c, ready).(active := false);
    assert Play(r, Done) == r;
    assert OnError(OnHangup(r, plan), plan) == r;
    PlainRead(r, plan);
    var d := Progressed(OnReadable(r, plan));
    match plan.answer
    case Again =>
    case Refused => assert Play(d, Done) == d;
    case Took(n) => FlushEffect(d, n);
  }

  /** If an error is reported and nobody hangs up, the error callback runs, once; if not, it does not. */
  lemma {:induction false} ReportRunsErrors(c: Conn, ready: set<Flag>, plan: Plan)
    requires c.chan.registered && !c.active && !Hangs(ready) && Plain(plan)
    ensures
      var d := Turned(c, ready, plan);
      var full := c.cache != [];
      && d.submitted == c.submitted + (if ERR in ready then Submits(full, plan.onError) else [])
      && (d.shutdowns > c.shutdowns <==> ERR in ready && ShutsDown(full, plan.onError))
  {
    var r := Reported(c, ready).(active := false);
    PlayAsPredicted(r, plan.onError);
    PlaySubmits(r, plan.onError);
    assert c.submitted + [] == c.submitted;
    var e := OnError(OnHangup(r, plan), plan);
    PlainRead(e, plan);
    var d := Progressed(OnReadable(e, plan));
    match plan.answer
    case Again =>
    case Refused => assert Play(d, Done) == d;
    case Took(n) => FlushEffect(d, n);
  }

  // ---------------------------------------------------------------------------------------------
  // Whole runs, as seen from outside: a connection is open, is or is not waiting to be processed with the
  // flags last reported, and has received something.

  datatype Watch = Watch(open: bool, active: bool, ready: set<Flag>, received: seq<byte>)

  const OPENED := Watch(true, false, {}, [])

  function Seen(w: Watch, e: Event): Watch {
    match e
    case Report(ready) => if w.open && !w.active then w.(active := true, ready := ready) else w
    case Process(plan) =>
      if !w.active then w
      else
        Watch(w.open && !Hangs(w.ready) && !(Reads(w.ready) && plan.arrival.Eof?), false, w.ready,
              w.received + (if Reads(w.ready) then Got(plan.arrival) else []))
    case Task(_) => w
  }

  function SeenAll(w: Watch, run: seq<Event>): Watch
    decreases run
  {
    if run == [] then w else SeenAll(Seen(w, run[0]), run[1..])
  }

  /** The stored mask is the reported one, save that others may have asked for writability since. */
  predicate Matches(c: Conn, w: Watch) {
    && Life(c) && (c.closes == 0 <==> w.open) && c.active == w.active && c.received == w.received
    && (w.active ==> w.ready <= c.chan.mask <= w.ready + {OUT})
  }

  lemma {:induction false} StepMatches(c: Conn, w: Watch, e: Event)
    requires Matches(c, w)
    ensures Matches(Step(c, e), Seen(w, e))
  {
    StepKeepsLife(c, e);
    match e
    case Report(_) =>
    case Task(commands) =>
      PlayIsUserOnly(c, commands);
      PlayAsPredicted(c, commands);
    case Process(plan) =>
      if c.active {
        ProcessReceives(c.(active := false), plan);
      }
  }

  lemma {:induction false} RunMatches(c: Conn, w: Watch, run: seq<Event>)
    requires Matches(c, w)
    ensures Matches(Exec(c, run), SeenAll(w, run))
    decreases run
  {
    if run != [] {
      StepMatches(c, w, run[0]);
      RunMatches(Step(c, run[0]), Seen(w, run[0]), run[1..]);
    }
  }

  /** Over every run, what a connection has received is the concatenation, in order, of what recv delivered
      whenever it was processed after a report of input; and it is closed exactly if it was processed after
      a report of a hangup without input, or met the end of the file. Nothing that callbacks and tasks do,
      and no answer of the kernel to a send, makes a difference. */
  lemma {:induction false} ReceivesWhatArrives(text: Text, onConn: Script, run: seq<Event>)
    ensures
      var c := Exec(StartWith(text, onConn), run);
      var w := SeenAll(OPENED, run);
      c.received == w.received && (c.closes == 0 <==> w.open) && c.active == w.active
  {
    StartHasLife(text, onConn);
    PlayAsPredicted(Opened(text), onConn);
    PlayIsUserOnly(Opened(text), onConn);
    RunMatches(StartWith(text, onConn), OPENED, run);
  }

  // The status.

  /** Until the close a connection is connected, unless it has been shut down. */
  predicate StatusHeld(c: Conn) {
    c.closes == 0 ==> c.status == if c.shutdowns == 0 then Connected else InDisconnect
  }

  lemma {:induction false} ScriptHoldsStatus(c: Conn, script: Script)
    requires StatusHeld(c)
    ensures StatusHeld(Play(c, script)) && Play(c, script).closes == c.closes
  {
    PlayIsUserOnly(c, script);
  }

  lemma {:induction false} WritableHoldsStatus(c: Conn, plan: Plan)
    requires StatusHeld(c)
    ensures StatusHeld(OnWritable(c, plan))
  {
    var p := Progressed(c);
    match plan.answer
    case Again =>
    case Refused => ScriptHoldsStatus(p, plan.onWritten);
    case Took(n) =>
      var sent := Min(n, |p.cache|);
      FlushedEffect(p, sent);
      ScriptHoldsStatus(Flushed(p, sent), plan.onWritten);
  }

  lemma {:induction false} StepHoldsStatus(c: Conn, e: Event)
    requires StatusHeld(c)
    ensures StatusHeld(Step(c, e))
  {
    match e
    case Report(_) =>
    case Task(commands) => ScriptHoldsStatus(c, commands);
    case Process(plan) =>
      var c0 := c.(active := false);
      CloseReceives(c0, plan.onHangup);
      var c1 := OnHangup(c0, plan);
      ScriptHoldsStatus(c1, plan.onError);
      var c2 := OnError(c1, plan);
      ReadableHoldsStatus(c2, plan);
      WritableHoldsStatus(OnReadable(c2, plan), plan);
  }

  lemma {:induction false} ReadableHoldsStatus(c: Conn, plan: Plan)
    requires StatusHeld(c)
    ensures StatusHeld(OnReadable(c, plan))
  {
    match plan.arrival
    case Eof(onConn, onClose) => CloseReceives(Play(c, onConn), onClose);
    case Received(data, callback) => ScriptHoldsStatus(Arrived(c, data), callback);
    case RecvFailed(callback) => ScriptHoldsStatus(c, callback);
  }

  lemma {:induction false} RunHoldsStatus(c: Conn, run: seq<Event>)
    requires StatusHeld(c)
    ensures StatusHeld(Exec(c, run))
    decreases run
  {
    if run != [] {
      StepHoldsStatus(c, run[0]);
      RunHoldsStatus(Step(c, run[0]), run[1..]);
    }
  }

  /** Over every run, until the close, the status says whether somebody has called shutdown. */
  lemma {:induction false} StatusUntilClose(text: Text, onConn: Script, run: seq<Event>)
    ensures
      var c := Exec(StartWith(text, onConn), run);
      c.closes == 0 ==> c.status == if c.shutdowns == 0 then Connected else InDisconnect
  {
    ScriptHoldsStatus(Opened(text), onConn);
    RunHoldsStatus(StartWith(text, onConn), run);
  }
}
