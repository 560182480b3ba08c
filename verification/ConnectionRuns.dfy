/** What holds of a connection over every run: any ready sets, any kernel answers, and any writes,
    shutdowns and reads issued from inside callbacks. */
module ConnectionRuns {
  import opened Bytes
  import opened ByteBuffer
  import opened EvtChannel
  import opened ConnectionSpec
  import opened ConnectionScripts

  // ---------------------------------------------------------------------------------------------
  // The output stream.

  /** The bytes the kernel took and the bytes in the cache are the bytes submitted exactly as long as
      nothing was spoiled; the reports add up; and the input side loses nothing. */
  predicate Stream(c: Conn) {
    && |c.accepted| + |c.cache| <= |c.submitted|
    && (!c.spoiled <==> c.accepted + c.cache == c.submitted)
    && c.reported == |c.accepted|
    && c.received == c.consumed + c.inbox
  }

  /** Appending to a sequence that is already too short or wrong never makes it right. */
  lemma ExtendsExactly(stream: seq<byte>, piece: seq<byte>, submitted: seq<byte>, data: seq<byte>)
    requires |stream| <= |submitted| && |piece| <= |data|
    ensures stream + piece == submitted + data <==> stream == submitted && piece == data
  {
    if stream + piece == submitted + data {
      assert |stream| == |submitted|;
      assert stream == (stream + piece)[..|stream|];
      assert submitted == (submitted + data)[..|submitted|];
      assert piece == (stream + piece)[|stream|..];
      assert data == (submitted + data)[|submitted|..];
    }
  }

  /** A short direct write is cached right by the intended text, and by the text as written exactly
      when the data repeats itself at the distance of what was sent. */
  lemma KeptExactly(text: Text, data: seq<byte>, sent: nat)
    requires sent <= |data|
    ensures data[..sent] + Kept(text, data, sent) == data <==>
              text.Intended? || RepeatsEvery(data, sent)
  {
    var rest := data[sent..];
    assert data[..sent] + rest == data;
    if text.AsWritten? {
      var kept := data[..|data| - sent];
      if kept == rest {
        forall i, j | 0 <= i && j < |data| && j == i + sent
          ensures data[i] == data[j]
        {
          assert kept[i] == rest[i];
        }
      }
      if data[..sent] + kept == data {
        assert kept == (data[..sent] + kept)[sent..];
      }
    }
  }

  lemma SentKeepsStream(c: Conn, data: seq<byte>, sent: nat)
    requires Stream(c) && c.cache == [] && sent <= |data|
    ensures Stream(SentDirectly(c, data, sent))
  {
    var kept := if sent < |data| then Kept(c.text, data, sent) else [];
    var d := SentDirectly(c, data, sent);
    ExtendsExactly(c.accepted, data[..sent] + kept, c.submitted, data);
    KeptExactly(c.text, data, sent);
    assert c.accepted + c.cache == c.accepted;
    assert d.accepted + d.cache == c.accepted + (data[..sent] + kept);
  }

  lemma CachedKeepsStream(c: Conn, data: seq<byte>)
    requires Stream(c)
    ensures Stream(Cached(c, data))
  {
    ExtendsExactly(c.accepted + c.cache, data, c.submitted, data);
    assert c.accepted + (c.cache + data) == c.accepted + c.cache + data;
  }

  lemma DroppedKeepsStream(c: Conn, data: seq<byte>)
    requires Stream(c)
    ensures Stream(Dropped(c, data))
  {
    ExtendsExactly(c.accepted + c.cache, [], c.submitted, data);
    assert c.accepted + c.cache + [] == c.accepted + c.cache;
  }

  lemma {:induction false} WriteKeepsStream(c: Conn, data: seq<byte>, answer: Answer, callback: Script)
    requires Stream(c)
    ensures Stream(WriteInLoop(c, data, answer, callback))
    decreases callback, 1
  {
    CachedKeepsStream(c, data);
    if c.cache == [] {
      match answer
      case Again =>
      case Refused =>
        DroppedKeepsStream(c, data);
        PlayKeepsStream(Dropped(c, data), callback);
      case Took(n) =>
        var sent := Min(n, |data|);
        SentKeepsStream(c, data, sent);
        PlayKeepsStream(SentDirectly(c, data, sent), callback);
    }
  }

  lemma {:induction false} PerformKeepsStream(c: Conn, command: Command)
    requires Stream(c)
    ensures Stream(Perform(c, command))
    decreases command
  {
    match command
    case Write(data, answer, callback) => WriteKeepsStream(c, data, answer, callback);
    case Shutdown =>
    case Consume(n) =>
      var d := Perform(c, command);
      assert Front(c.inbox, n) + After(c.inbox, n) == c.inbox;
      assert d.consumed + d.inbox == c.consumed + (Front(c.inbox, n) + After(c.inbox, n));
  }

  lemma {:induction false} PlayKeepsStream(c: Conn, script: Script)
    requires Stream(c)
    ensures Stream(Play(c, script))
    decreases script, 0
  {
    match script
    case Done =>
    case Then(first, rest) =>
      PerformKeepsStream(c, first);
      PlayKeepsStream(Perform(c, first), rest);
  }

  lemma SplitMoves(accepted: seq<byte>, cache: seq<byte>, sent: nat)
    requires sent <= |cache|
    ensures accepted + cache[..sent] + cache[sent..] == accepted + cache
  {
    assert cache[..sent] + cache[sent..] == cache;
  }

  lemma TakenOffKeepsStream(c: Conn, sent: nat)
    requires Stream(c) && sent <= |c.cache|
    ensures
      Stream(TakenOff(c.(accepted := c.accepted + c.cache[..sent], reported := c.reported + sent), sent))
  {
    var d := TakenOff(c.(accepted := c.accepted + c.cache[..sent], reported := c.reported + sent), sent);
    SplitMoves(c.accepted, c.cache, sent);
    assert d.accepted + d.cache == c.accepted + c.cache;
  }

  lemma TakenOffAgainKeepsStream(c: Conn, sent: nat)
    requires Stream(c) && sent > 0
    ensures Stream(TakenOffAgain(c, sent))
  {
    var d := TakenOffAgain(c, sent);
    if c.cache != [] {
      assert |d.accepted + d.cache| < |c.submitted|;
    } else {
      assert d.cache == c.cache;
    }
  }

  lemma FlushedKeepsStream(c: Conn, sent: nat)
    requires Stream(c) && sent <= |c.cache|
    ensures Stream(Flushed(c, sent))
  {
    TakenOffKeepsStream(c, sent);
    if c.text.AsWritten? && sent > 0 {
      TakenOffAgainKeepsStream(
        TakenOff(c.(accepted := c.accepted + c.cache[..sent], reported := c.reported + sent), sent), sent);
    }
  }

  lemma {:induction false} FlushKeepsStream(c: Conn, answer: Answer, callback: Script)
    requires Stream(c)
    ensures Stream(HandleWrite(c, answer, callback))
  {
    match answer
    case Again =>
    case Refused => PlayKeepsStream(c, callback);
    case Took(n) =>
      var sent := Min(n, |c.cache|);
      FlushedKeepsStream(c, sent);
      PlayKeepsStream(Flushed(c, sent), callback);
  }

  lemma {:induction false} CloseKeepsStream(c: Conn, onConn: Script)
    requires Stream(c)
    ensures Stream(HandleClose(c, onConn))
  {
    PlayKeepsStream(Closing(c), onConn);
  }

  lemma {:induction false} ReadKeepsStream(c: Conn, arrival: Arrival)
    requires Stream(c)
    ensures Stream(HandleRead(c, arrival))
  {
    match arrival
    case Eof(onConn, onClose) =>
      PlayKeepsStream(c, onConn);
      CloseKeepsStream(Play(c, onConn), onClose);
    case Received(data, callback) =>
      var got := Front(data, MAX_READ);
      assert c.consumed + (c.inbox + got) == c.consumed + c.inbox + got;
      PlayKeepsStream(Arrived(c, data), callback);
    case RecvFailed(callback) => PlayKeepsStream(c, callback);
  }

  lemma {:induction false} FailuresKeepStream(c: Conn, plan: Plan)
    requires Stream(c)
    ensures Stream(OnError(OnHangup(c, plan), plan))
  {
    CloseKeepsStream(c, plan.onHangup);
    PlayKeepsStream(OnHangup(c, plan), plan.onError);
  }

  lemma {:induction false} TrafficKeepsStream(c: Conn, plan: Plan)
    requires Stream(c)
    ensures Stream(OnWritable(OnReadable(c, plan), plan))
  {
    ReadKeepsStream(c, plan.arrival);
    FlushKeepsStream(Progressed(OnReadable(c, plan)), plan.answer, plan.onWritten);
  }

  lemma {:induction false} StepKeepsStream(c: Conn, e: Event)
    requires Stream(c)
    ensures Stream(Step(c, e))
  {
    match e
    case Task(commands) => PlayKeepsStream(c, commands);
    case Report(_) =>
    case Process(plan) =>
      var d := c.(active := false);
      FailuresKeepStream(d, plan);
      TrafficKeepsStream(OnError(OnHangup(d, plan), plan), plan);
  }

  lemma {:induction false} RunKeepsStream(c: Conn, run: seq<Event>)
    requires Stream(c)
    ensures Stream(Exec(c, run))
    decreases run
  {
    if run != [] {
      StepKeepsStream(c, run[0]);
      RunKeepsStream(Step(c, run[0]), run[1..]);
    }
  }

  // When bytes go wrong, as a condition on the run. Each part looks at the connection as that branch of
  // do_process_work finds it.

  predicate HangupSpoils(c: Conn, plan: Plan) {
    HUP in c.chan.mask && IN !in c.chan.mask && Spoils(c.text, c.cache != [], plan.onHangup)
  }

  predicate ErrorSpoils(c: Conn, plan: Plan) {
    ERR in c.chan.mask && Spoils(c.text, c.cache != [], plan.onError)
  }

  predicate ArrivalSpoils(text: Text, full: bool, arrival: Arrival) {
    match arrival
    case Eof(onConn, onClose) =>
      Spoils(text, full, onConn) || Spoils(text, Fills(full, onConn), onClose)
    case Received(_, callback) => Spoils(text, full, callback)
    case RecvFailed(callback) => Spoils(text, full, callback)
  }

  predicate ReadSpoils(c: Conn, plan: Plan) {
    c.chan.mask * {IN, PRI, RDHUP} != {} && ArrivalSpoils(c.text, c.cache != [], plan.arrival)
  }

  /** A flush by the text as written spoils the stream if it is partial: the second discard drops bytes
      that were not sent. Otherwise only its completion callback can. */
  predicate FlushSpoils(c: Conn, answer: Answer, callback: Script) {
    match answer
    case Again => false
    case Refused => Spoils(c.text, c.cache != [], callback)
    case Took(n) =>
      var sent := Min(n, |c.cache|);
      sent > 0 && ((c.text.AsWritten? && sent < |c.cache|) || Spoils(c.text, sent < |c.cache|, callback))
  }

  /** The connection as its write branch finds it. */
  function BeforeFlush(c: Conn, plan: Plan): Conn {
    OnReadable(OnError(OnHangup(c, plan), plan), plan)
  }

  predicate ProcessSpoils(c: Conn, plan: Plan) {
    || HangupSpoils(c, plan)
    || ErrorSpoils(OnHangup(c, plan), plan)
    || ReadSpoils(OnError(OnHangup(c, plan), plan), plan)
    || (OUT in BeforeFlush(c, plan).chan.mask
        && FlushSpoils(BeforeFlush(c, plan), plan.answer, plan.onWritten))
  }

  predicate StepSpoils(c: Conn, e: Event) {
    match e
    case Report(_) => false
    case Process(plan) => c.active && ProcessSpoils(c.(active := false), plan)
    case Task(commands) => Spoils(c.text, c.cache != [], commands)
  }

  predicate EverSpoils(c: Conn, run: seq<Event>)
    decreases run
  {
    run != [] && (StepSpoils(c, run[0]) || EverSpoils(Step(c, run[0]), run[1..]))
  }

  lemma {:induction false} CloseSpoils(c: Conn, onConn: Script)
    ensures
      var d := HandleClose(c, onConn);
      && d.text == c.text
      && (d.spoiled <==> c.spoiled || Spoils(c.text, c.cache != [], onConn))
      && (d.cache != [] <==> Fills(c.cache != [], onConn))
  {
    PlayAsPredicted(Closing(c), onConn);
  }

  lemma {:induction false} FailuresSpoil(c: Conn, plan: Plan)
    ensures
      var d := OnError(OnHangup(c, plan), plan);
      && d.text == c.text
      && (d.spoiled <==> c.spoiled || HangupSpoils(c, plan) || ErrorSpoils(OnHangup(c, plan), plan))
  {
    CloseSpoils(c, plan.onHangup);
    PlayAsPredicted(OnHangup(c, plan), plan.onError);
  }

  lemma {:induction false} ReadableSpoils(c: Conn, plan: Plan)
    ensures
      var d := OnReadable(c, plan);
      d.text == c.text && (d.spoiled <==> c.spoiled || ReadSpoils(c, plan))
  {
    match plan.arrival
    case Eof(onConn, onClose) =>
      PlayAsPredicted(c, onConn);
      CloseSpoils(Play(c, onConn), onClose);
    case Received(data, callback) => PlayAsPredicted(Arrived(c, data), callback);
    case RecvFailed(callback) => PlayAsPredicted(c, callback);
  }

  lemma FlushedSpoils(c: Conn, sent: nat)
    requires sent <= |c.cache|
    ensures
      var d := Flushed(c, sent);
      && d.text == c.text
      && (d.spoiled <==> c.spoiled || (c.text.AsWritten? && 0 < sent < |c.cache|))
      && (c.text.Intended? || sent == |c.cache| ==> (d.cache != [] <==> sent < |c.cache|))
  {
    TakesOff(c.(accepted := c.accepted + c.cache[..sent], reported := c.reported + sent), sent);
  }

  lemma TakesOff(c: Conn, sent: nat)
    requires sent <= |c.cache|
    ensures
      var d := TakenOff(c, sent);
      && d.text == c.text && d.overdrawn == c.overdrawn && d.spoiled == c.spoiled
      && |d.cache| == |c.cache| - sent
  {
  }

  lemma {:induction false} WritableSpoils(c: Conn, answer: Answer, callback: Script)
    ensures
      var d := HandleWrite(c, answer, callback);
      d.text == c.text && (d.spoiled <==> c.spoiled || FlushSpoils(c, answer, callback))
  {
    match answer
    case Again =>
    case Refused => PlayAsPredicted(c, callback);
    case Took(n) =>
      var sent := Min(n, |c.cache|);
      FlushedSpoils(c, sent);
      PlayAsPredicted(Flushed(c, sent), callback);
  }

  lemma {:induction false} StepSpoilsExactly(c: Conn, e: Event)
    ensures
      var d := Step(c, e);
      d.text == c.text && (d.spoiled <==> c.spoiled || StepSpoils(c, e))
  {
    match e
    case Task(commands) => PlayAsPredicted(c, commands);
    case Report(_) =>
    case Process(plan) =>
      var c0 := c.(active := false);
      FailuresSpoil(c0, plan);
      ReadableSpoils(OnError(OnHangup(c0, plan), plan), plan);
      WritableSpoils(Progressed(BeforeFlush(c0, plan)), plan.answer, plan.onWritten);
  }

  lemma {:induction false} RunSpoilsExactly(c: Conn, run: seq<Event>)
    ensures Exec(c, run).spoiled <==> c.spoiled || EverSpoils(c, run)
    decreases run
  {
    if run != [] {
      StepSpoilsExactly(c, run[0]);
      RunSpoilsExactly(Step(c, run[0]), run[1..]);
    }
  }

  /** Output stream conservation, exactly, for either text: over every run the kernel-accepted bytes
      followed by the write cache are all submitted bytes in order if and only if the run comes to no
      refused direct write of data, and, for the text as written, to no short direct write whose data does
      not happen to repeat and to no partial flush. The completion reports always add up to what was
      accepted, and the bytes received are those consumed followed by the read cache. */
  lemma {:induction false} StreamConservation(text: Text, onConn: Script, run: seq<Event>)
    ensures
      var c := Exec(StartWith(text, onConn), run);
      && (c.accepted + c.cache == c.submitted <==>
            !Spoils(text, false, onConn) && !EverSpoils(StartWith(text, onConn), run))
      && (c.accepted + c.cache == c.submitted <==> !c.spoiled)
      && c.reported == |c.accepted|
      && c.received == c.consumed + c.inbox
  {
    PlayKeepsStream(Opened(text), onConn);
    RunKeepsStream(StartWith(text, onConn), run);
    PlayAsPredicted(Opened(text), onConn);
    RunSpoilsExactly(StartWith(text, onConn), run);
  }

  // The intended text spoils nothing unless the kernel refuses a direct write.

  predicate NeverRefused(script: Script) {
    match script
    case Done => true
    case Then(first, rest) => NeverRefusedCommand(first) && NeverRefused(rest)
  }

  predicate NeverRefusedCommand(command: Command) {
    match command
    case Write(_, answer, callback) => !answer.Refused? && NeverRefused(callback)
    case _ => true
  }

  predicate NeverRefusedArrival(arrival: Arrival) {
    match arrival
    case Eof(onConn, onClose) => NeverRefused(onConn) && NeverRefused(onClose)
    case Received(_, callback) => NeverRefused(callback)
    case RecvFailed(callback) => NeverRefused(callback)
  }

  /** A hard error of a flush loses nothing, so only direct writes matter. */
  predicate NeverRefusedEvent(e: Event) {
    match e
    case Task(commands) => NeverRefused(commands)
    case Report(_) => true
    case Process(plan) =>
      && NeverRefused(plan.onHangup) && NeverRefused(plan.onError)
      && NeverRefusedArrival(plan.arrival) && NeverRefused(plan.onWritten)
  }

  lemma {:induction false} IntendedScript(full: bool, script: Script)
    requires NeverRefused(script)
    ensures !Spoils(Intended, full, script)
    decreases script
  {
    if script.Then? {
      if script.first.Write? {
        var w := script.first;
        IntendedScript(Leaves(full, w.data, w.answer), w.callback);
      }
      IntendedScript(FillsBy(full, script.first), script.rest);
    }
  }

  lemma {:induction false} IntendedStep(c: Conn, e: Event)
    requires c.text.Intended? && NeverRefusedEvent(e)
    ensures !StepSpoils(c, e)
  {
    forall full: bool, script | NeverRefused(script)
      ensures !Spoils(Intended, full, script)
    {
      IntendedScript(full, script);
    }
    if e.Process? {
      var c0 := c.(active := false);
      FailuresSpoil(c0, e.plan);
      ReadableSpoils(OnError(OnHangup(c0, e.plan), e.plan), e.plan);
      CloseSpoils(c0, e.plan.onHangup);
    }
  }

  lemma {:induction false} IntendedRun(c: Conn, run: seq<Event>)
    requires c.text.Intended? && forall i :: 0 <= i < |run| ==> NeverRefusedEvent(run[i])
    ensures !EverSpoils(c, run)
    decreases run
  {
    if run != [] {
      IntendedStep(c, run[0]);
      StepSpoilsExactly(c, run[0]);
      assert forall i :: 0 <= i < |run[1..]| ==> run[1..][i] == run[i + 1];
      IntendedRun(Step(c, run[0]), run[1..]);
    }
  }

  /** The intended text conserves the output stream in every run in which no direct write meets a hard
      error, under any short sends and EAGAINs and with writes issued from inside callbacks. */
  lemma {:induction false} IntendedConservation(onConn: Script, run: seq<Event>)
    requires NeverRefused(onConn) && forall i :: 0 <= i < |run| ==> NeverRefusedEvent(run[i])
    ensures
      var c := Exec(StartWith(Intended, onConn), run);
      && c.accepted + c.cache == c.submitted
      && c.reported == |c.accepted|
  {
    IntendedScript(false, onConn);
    PlayAsPredicted(Opened(Intended), onConn);
    IntendedRun(StartWith(Intended, onConn), run);
    StreamConservation(Intended, onConn, run);
  }

  // ---------------------------------------------------------------------------------------------
  // Write interest and closing.

  /** The channel is registered, and the kernel is interested in writability whenever somebody waits for
      it or a request for it is in progress. */
  predicate Watching(chan: Chan, waiting: bool) {
    && chan.registered
    && (waiting ==> OUT in chan.interest)
    && (chan.progress ==> OUT in chan.interest)
  }

  lemma AskingIsWatching(chan: Chan, waiting: bool)
    requires Watching(chan, waiting)
    ensures Watching(WriteEnabled(chan, true), true)
  {
    WriteEnabledReachesKernel(chan);
  }

  /** Before the close, cached bytes have the kernel watching for writability. */
  predicate Wired(c: Conn) {
    c.closes == 0 ==> Watching(c.chan, c.cache != [])
  }

  /** What commands run by the user leave alone, and the little they change. */
  predicate UserOnly(c: Conn, d: Conn) {
    && d.text == c.text && d.closes == c.closes && d.active == c.active
    && (c.spoiled ==> d.spoiled)
    && d.chan.registered == c.chan.registered
    && c.chan.mask <= d.chan.mask <= c.chan.mask + {OUT}
    && (Wired(c) ==> Wired(d))
    && d.overdrawn == c.overdrawn && d.undestroyable == c.undestroyable
    && c.shutdowns <= d.shutdowns
    && d.status == (if c.shutdowns < d.shutdowns then InDisconnect else c.status)
  }

  lemma SentIsUserOnly(c: Conn, data: seq<byte>, sent: nat)
    requires sent <= |data| && c.cache == []
    ensures UserOnly(c, SentDirectly(c, data, sent))
  {
  }

  /** All that matters of a flush here. */
  lemma FlushedChannel(c: Conn, sent: nat)
    requires sent <= |c.cache|
    ensures
      var d := Flushed(c, sent);
      && d.closes == c.closes && d.undestroyable == c.undestroyable && d.active == c.active
      && (d.chan == c.chan || d.chan == WriteEnabled(c.chan, true))
      && (d.cache != [] ==> c.cache != [])
  {
  }

  lemma FlushedIsWired(c: Conn, sent: nat)
    requires Wired(c) && sent <= |c.cache|
    ensures
      var d := Flushed(c, sent);
      && Wired(d) && d.closes == c.closes && d.chan.registered == c.chan.registered
      && d.undestroyable == c.undestroyable && d.active == c.active
  {
    FlushedChannel(c, sent);
    if c.closes == 0 {
      AskingIsWatching(c.chan, c.cache != []);
    }
  }

  lemma UserOnlyTrans(c: Conn, d: Conn, e: Conn)
    requires UserOnly(c, d) && UserOnly(d, e)
    ensures UserOnly(c, e)
  {
  }

  lemma {:induction false} WriteIsUserOnly(c: Conn, data: seq<byte>, answer: Answer, callback: Script)
    ensures UserOnly(c, WriteInLoop(c, data, answer, callback))
    decreases callback, 1
  {
    if c.cache == [] {
      match answer
      case Again =>
      case Refused => PlayIsUserOnly(Dropped(c, data), callback);
      case Took(n) =>
        var d := SentDirectly(c, data, Min(n, |data|));
        SentIsUserOnly(c, data, Min(n, |data|));
        PlayIsUserOnly(d, callback);
        UserOnlyTrans(c, d, Play(d, callback));
    }
  }

  lemma {:induction false} PerformIsUserOnly(c: Conn, command: Command)
    ensures UserOnly(c, Perform(c, command))
    decreases command
  {
    if command.Write? {
      WriteIsUserOnly(c, command.data, command.answer, command.callback);
    }
  }

  lemma {:induction false} PlayIsUserOnly(c: Conn, script: Script)
    ensures UserOnly(c, Play(c, script))
    decreases script, 0
  {
    match script
    case Done =>
    case Then(first, rest) =>
      var d := Perform(c, first);
      PerformIsUserOnly(c, first);
      PlayIsUserOnly(d, rest);
      UserOnlyTrans(c, d, Play(d, rest));
  }

  lemma {:induction false} FlushIsWired(c: Conn, answer: Answer, callback: Script)
    requires Wired(c)
    ensures
      var d := HandleWrite(c, answer, callback);
      && Wired(d) && d.closes == c.closes && d.chan.registered == c.chan.registered
      && d.undestroyable == c.undestroyable && d.active == c.active
  {
    match answer
    case Again =>
    case Refused => PlayIsUserOnly(c, callback);
    case Took(n) =>
      FlushedIsWired(c, Min(n, |c.cache|));
      PlayIsUserOnly(Flushed(c, Min(n, |c.cache|)), callback);
  }

  /** Closing empties the mask but for the writability the user may ask for meanwhile, and unregisters.
      The assertion in final_destory holds exactly if the connect callback shut nothing down. */
  lemma {:induction false} CloseEffect(c: Conn, onConn: Script)
    ensures
      var d := HandleClose(c, onConn);
      && d.closes == c.closes + 1 && d.active == c.active
      && !d.chan.registered && d.chan.interest == {}
      && d.chan.mask <= {OUT}
      && (d.undestroyable <==> c.undestroyable || Play(Closing(c), onConn).shutdowns > c.shutdowns)
  {
    DisablingBothClears(c.chan);
    PlayIsUserOnly(Closing(c), onConn);
  }

  /** A connection is registered until its one close, and not listed as active after it. */
  predicate Life(c: Conn) {
    c.closes <= 1 && (c.closes == 1 <==> !c.chan.registered) && (c.active ==> c.closes == 0) && Wired(c)
  }

  /** Between the branches of do_process_work: once closed, only the write branch can still be taken. */
  predicate MidDispatch(c: Conn) {
    Life(c) && !c.active && (c.closes == 1 ==> c.chan.mask <= {OUT})
  }

  lemma {:induction false} HangupStep(c: Conn, plan: Plan)
    requires MidDispatch(c) && c.closes == 0
    ensures MidDispatch(OnHangup(c, plan))
  {
    CloseEffect(c, plan.onHangup);
  }

  lemma {:induction false} ErrorStep(c: Conn, plan: Plan)
    requires MidDispatch(c)
    ensures MidDispatch(OnError(c, plan))
  {
    PlayIsUserOnly(c, plan.onError);
  }

  lemma {:induction false} ReadableStep(c: Conn, plan: Plan)
    requires MidDispatch(c)
    ensures MidDispatch(OnReadable(c, plan))
  {
    if c.chan.mask * {IN, PRI, RDHUP} != {} {
      assert c.closes == 0;
      match plan.arrival
      case Eof(onConn, onClose) =>
        PlayIsUserOnly(c, onConn);
        CloseEffect(Play(c, onConn), onClose);
      case Received(data, callback) => PlayIsUserOnly(Arrived(c, data), callback);
      case RecvFailed(callback) => PlayIsUserOnly(c, callback);
    }
  }

  lemma {:induction false} StepKeepsLife(c: Conn, e: Event)
    requires Life(c)
    ensures Life(Step(c, e))
  {
    match e
    case Task(commands) => PlayIsUserOnly(c, commands);
    case Report(_) =>
    case Process(plan) =>
      if c.active {
        var c0 := c.(active := false);
        HangupStep(c0, plan);
        var c1 := OnHangup(c0, plan);
        ErrorStep(c1, plan);
        var c2 := OnError(c1, plan);
        ReadableStep(c2, plan);
        var c3 := OnReadable(c2, plan);
        FlushIsWired(Progressed(c3), plan.answer, plan.onWritten);
      }
  }

  lemma {:induction false} RunKeepsLife(c: Conn, run: seq<Event>)
    requires Life(c)
    ensures Life(Exec(c, run))
    decreases run
  {
    if run != [] {
      StepKeepsLife(c, run[0]);
      RunKeepsLife(Step(c, run[0]), run[1..]);
    }
  }

  lemma {:induction false} StartHasLife(text: Text, onConn: Script)
    ensures Life(StartWith(text, onConn)) && StartWith(text, onConn).closes == 0
    ensures !StartWith(text, onConn).undestroyable
  {
    PlayIsUserOnly(Opened(text), onConn);
  }

  /** Over every run the connection closes at most once, is registered exactly until then, and is never
      processed after it. */
  lemma {:induction false} CloseAtMostOnce(text: Text, onConn: Script, run: seq<Event>)
    ensures
      var c := Exec(StartWith(text, onConn), run);
      c.closes <= 1 && (c.closes == 1 <==> !c.chan.registered) && (c.closes == 1 ==> !c.active)
  {
    StartHasLife(text, onConn);
    RunKeepsLife(StartWith(text, onConn), run);
  }

  /** Over every run, until the close, cached bytes and writes in progress have the kernel watching for
      writability, although each report overwrites the stored mask and others may write before the
      connection is processed. */
  lemma {:induction false} NoLostWriteInterest(text: Text, onConn: Script, run: seq<Event>)
    ensures
      var c := Exec(StartWith(text, onConn), run);
      c.closes == 0 ==>
        && (c.cache != [] ==> OUT in c.chan.interest)
        && (c.chan.progress ==> OUT in c.chan.interest)
  {
    StartHasLife(text, onConn);
    RunKeepsLife(StartWith(text, onConn), run);
  }

  // ---------------------------------------------------------------------------------------------
  // The text as written, call by call.

  /** A direct write of the text as written keeps a clean stream clean, up to its completion callback,
      exactly when all is sent, or nothing, or the data repeats itself at the distance of what was sent.
      No callback can make good what is lost. */
  lemma {:induction false} AsWrittenDirectWrite(c: Conn, data: seq<byte>, n: nat, callback: Script)
    requires Stream(c) && !c.spoiled && c.text.AsWritten? && c.cache == []
    ensures
      var d := SentDirectly(c, data, Min(n, |data|));
      d.accepted + d.cache == d.submitted <==> n >= |data| || RepeatsEvery(data, n)
    ensures
      var d := WriteInLoop(c, data, Took(n), callback);
      && (d.accepted + d.cache == d.submitted ==> n >= |data| || RepeatsEvery(data, n))
      && (callback.Done? ==> (d.accepted + d.cache == d.submitted <==> n >= |data| || RepeatsEvery(data, n)))
  {
    var sent := Min(n, |data|);
    SentKeepsStream(c, data, sent);
    WriteKeepsStream(c, data, Took(n), callback);
    PlayIsUserOnly(SentDirectly(c, data, sent), callback);
  }

  /** A flush of the text as written keeps a clean stream clean, up to its completion callback, exactly
      when it sends nothing or the whole cache, and respects the assertion in discard exactly when it
      sends no more than half. So it does both only when it sends nothing. No callback can change the
      second or make good the first. */
  lemma {:induction false} AsWrittenFlush(c: Conn, n: nat, callback: Script)
    requires Stream(c) && !c.spoiled && !c.overdrawn && c.text.AsWritten?
    ensures
      var d := Flushed(c, Min(n, |c.cache|));
      var sent := Min(n, |c.cache|);
      && (d.accepted + d.cache == d.submitted <==> sent == 0 || sent == |c.cache|)
      && (!d.overdrawn <==> 2 * sent <= |c.cache|)
    ensures
      var d := HandleWrite(c, Took(n), callback);
      var sent := Min(n, |c.cache|);
      && (d.accepted + d.cache == d.submitted ==> sent == 0 || sent == |c.cache|)
      && (!d.overdrawn <==> 2 * sent <= |c.cache|)
      && (d.accepted + d.cache == d.submitted && !d.overdrawn ==> sent == 0)
      && (sent == 0 || (callback.Done? && sent == |c.cache|) ==> d.accepted + d.cache == d.submitted)
  {
    var sent := Min(n, |c.cache|);
    FlushedKeepsStream(c, sent);
    FlushKeepsStream(c, Took(n), callback);
    PlayIsUserOnly(Flushed(c, sent), callback);
  }

  /** What goes wrong, on concrete inputs: three bytes of which one is sent directly, three cached bytes of
      which one is flushed, and three of which all are: nothing is lost then, but the second discard asks
      for more than there is. The last clause holds for either text: three bytes that are refused. */
  lemma DeparturesWitness()
    ensures
      var c := StartWith(AsWritten, Done);
      var d := WriteInLoop(c, [1, 2, 3], Took(1), Done);
      && d.submitted == [1, 2, 3] && d.accepted + d.cache == [1, 1, 2]
    ensures
      var c := StartWith(AsWritten, Done);
      var e := HandleWrite(WriteInLoop(c, [1, 2, 3], Again, Done), Took(1), Done);
      && e.submitted == [1, 2, 3] && e.accepted + e.cache == [1, 3] && !e.overdrawn
    ensures
      var c := StartWith(AsWritten, Done);
      var e := HandleWrite(WriteInLoop(c, [1, 2, 3], Again, Done), Took(3), Done);
      && e.submitted == [1, 2, 3] && e.accepted + e.cache == [1, 2, 3] && e.overdrawn
    ensures forall text ::
      var d := WriteInLoop(StartWith(text, Done), [1, 2, 3], Refused, Done);
      && d.submitted == [1, 2, 3] && d.accepted + d.cache == []
  {
    var c := StartWith(AsWritten, Done);
    var data: seq<byte> := [1, 2, 3];
    assert data[..1] == [1] && data[..2] == [1, 2] && data[1..] == [2, 3];
    var f := WriteInLoop(c, data, Again, Done);
    assert f.cache == data;
    assert After(data[1..], 1) == [3];
    assert data[..3] == data && After(data, 3) == [];
  }

  // The assertion in discard, over whole runs.

  /** Processing comes to a flush that sends more than half of the cache. */
  predicate FlushesMost(c: Conn, e: Event) {
    e.Process? && c.active && e.plan.answer.Took? &&
    var d := BeforeFlush(c.(active := false), e.plan);
    OUT in d.chan.mask && 2 * Min(e.plan.answer.n, |d.cache|) > |d.cache|
  }

  lemma {:induction false} ReadDrawsNothing(c: Conn, arrival: Arrival)
    ensures HandleRead(c, arrival).overdrawn == c.overdrawn && HandleRead(c, arrival).text == c.text
  {
    match arrival
    case Eof(onConn, onClose) =>
      PlayIsUserOnly(c, onConn);
      PlayIsUserOnly(Closing(Play(c, onConn)), onClose);
    case Received(data, callback) => PlayIsUserOnly(Arrived(c, data), callback);
    case RecvFailed(callback) => PlayIsUserOnly(c, callback);
  }

  lemma {:induction false} BeforeFlushDrawsNothing(c: Conn, plan: Plan)
    ensures BeforeFlush(c, plan).overdrawn == c.overdrawn && BeforeFlush(c, plan).text == c.text
  {
    PlayIsUserOnly(Closing(c), plan.onHangup);
    var d := OnHangup(c, plan);
    PlayIsUserOnly(d, plan.onError);
    ReadDrawsNothing(OnError(d, plan), plan.arrival);
  }

  lemma FlushedDraws(c: Conn, sent: nat)
    requires sent <= |c.cache|
    ensures
      var d := Flushed(c, sent);
      && d.text == c.text
      && (d.overdrawn <==> c.overdrawn || (c.text.AsWritten? && 2 * sent > |c.cache|))
  {
    TakesOff(c.(accepted := c.accepted + c.cache[..sent], reported := c.reported + sent), sent);
  }

  lemma {:induction false} FlushDraws(c: Conn, answer: Answer, callback: Script)
    ensures
      var d := HandleWrite(c, answer, callback);
      && d.text == c.text
      && (d.overdrawn <==>
           c.overdrawn ||
           (c.text.AsWritten? && answer.Took? && 2 * Min(answer.n, |c.cache|) > |c.cache|))
  {
    match answer
    case Again =>
    case Refused => PlayIsUserOnly(c, callback);
    case Took(n) =>
      var sent := Min(n, |c.cache|);
      FlushedDraws(c, sent);
      PlayIsUserOnly(Flushed(c, sent), callback);
  }

  lemma {:induction false} StepDraws(c: Conn, e: Event)
    ensures Step(c, e).text == c.text
    ensures Step(c, e).overdrawn <==> c.overdrawn || (c.text.AsWritten? && FlushesMost(c, e))
  {
    match e
    case Task(commands) => PlayIsUserOnly(c, commands);
    case Report(_) =>
    case Process(plan) =>
      if c.active {
        BeforeFlushDrawsNothing(c.(active := false), plan);
        FlushDraws(Progressed(BeforeFlush(c.(active := false), plan)), plan.answer, plan.onWritten);
      }
  }

  /** Some flush of the run sends more than half of the cache. */
  predicate EverFlushesMost(c: Conn, run: seq<Event>)
    decreases run
  {
    run != [] && (FlushesMost(c, run[0]) || EverFlushesMost(Step(c, run[0]), run[1..]))
  }

  lemma {:induction false} RunDraws(c: Conn, run: seq<Event>)
    ensures Exec(c, run).overdrawn <==> c.overdrawn || (c.text.AsWritten? && EverFlushesMost(c, run))
    decreases run
  {
    if run != [] {
      StepDraws(c, run[0]);
      RunDraws(Step(c, run[0]), run[1..]);
    }
  }

  /** Over every run the assertion in discard is violated exactly if the text is the one as written and
      some flush sends more than half of the cache. The intended text never violates it. */
  lemma {:induction false} OverdrawnExactlyWhen(text: Text, onConn: Script, run: seq<Event>)
    ensures
      Exec(StartWith(text, onConn), run).overdrawn <==>
        text.AsWritten? && EverFlushesMost(StartWith(text, onConn), run)
    ensures text.Intended? ==> !Exec(StartWith(text, onConn), run).overdrawn
  {
    PlayIsUserOnly(Opened(text), onConn);
    RunDraws(StartWith(text, onConn), run);
  }
}
