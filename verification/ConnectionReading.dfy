/** How a connection goes deaf. A request for writability tells the kernel the stored mask, and by then the
    last ready set has overwritten that. So a request made while the mask lacks the read flag takes the
    connection's interest in reading away, and nothing gives it back. */
module ConnectionReading {
  import opened Bytes
  import opened EvtChannel
  import opened ConnectionSpec
  import opened ConnectionScripts
  import opened ConnectionRuns

  /** What epoll promises: it reports what it was asked for, and besides only errors and hangups. */
  predicate Truthful(c: Conn, e: Event) {
    e.Report? ==> e.ready <= c.chan.interest + {ERR, HUP}
  }

  predicate TruthfulRun(c: Conn, run: seq<Event>)
    decreases run
  {
    run == [] || (Truthful(c, run[0]) && TruthfulRun(Step(c, run[0]), run[1..]))
  }

  /** The stored mask has no read flag that the kernel has not been told of. */
  predicate Told(c: Conn) {
    IN in c.chan.mask ==> IN in c.chan.interest
  }

  // When a request takes the read flag away. Each part looks at the connection as that branch of
  // do_process_work finds it.

  /** A script makes a request that is not swallowed by one in progress, and the mask lacks the flag. */
  predicate ScriptDeafens(c: Conn, script: Script) {
    IN !in c.chan.mask && !c.chan.progress && Asks(c.cache != [], script)
  }

  /** A flush asks because it met EAGAIN or left something, or its completion callback asks. */
  predicate FlushAsks(c: Conn, answer: Answer, callback: Script) {
    match answer
    case Again => true
    case Refused => Asks(c.cache != [], callback)
    case Took(n) =>
      var sent := Min(n, |c.cache|);
      sent < |c.cache| || (sent > 0 && Asks(false, callback))
  }

  predicate ArrivalDeafens(c: Conn, arrival: Arrival) {
    match arrival
    case Eof(_, _) => false // it closes the connection
    case Received(_, callback) => ScriptDeafens(c, callback)
    case RecvFailed(callback) => ScriptDeafens(c, callback)
  }

  predicate ProcessDeafens(c: Conn, plan: Plan) {
    || (ERR in c.chan.mask && ScriptDeafens(c, plan.onError))
    || (var d := OnError(c, plan); d.chan.mask * {PRI, RDHUP} != {} && ArrivalDeafens(d, plan.arrival))
    || (var d := BeforeFlush(c, plan);
        OUT in d.chan.mask && IN !in d.chan.mask && FlushAsks(d, plan.answer, plan.onWritten))
  }

  predicate StepDeafens(c: Conn, e: Event) {
    match e
    case Report(_) => false
    case Process(plan) => c.active && ProcessDeafens(c.(active := false), plan)
    case Task(commands) => ScriptDeafens(c, commands)
  }

  predicate EverDeafens(c: Conn, run: seq<Event>)
    decreases run
  {
    run != [] && (StepDeafens(c, run[0]) || EverDeafens(Step(c, run[0]), run[1..]))
  }

  // ---------------------------------------------------------------------------------------------
  // One step.

  /** The connection is still open, and hears less than before exactly if `deafens`. */
  predicate Hears(c: Conn, d: Conn, deafens: bool) {
    && Told(d) && d.closes == c.closes && d.chan.registered
    && (IN in d.chan.mask <==> IN in c.chan.mask)
    && (IN !in d.chan.interest <==> IN !in c.chan.interest || deafens)
  }

  lemma {:induction false} ScriptHears(c: Conn, script: Script)
    requires Told(c) && c.chan.registered
    ensures Hears(c, Play(c, script), ScriptDeafens(c, script))
  {
    PlayAsPredicted(c, script);
    PlayIsUserOnly(c, script);
  }

  lemma FlushedHears(c: Conn, sent: nat)
    requires Told(c) && c.chan.registered && !c.chan.progress && sent <= |c.cache|
    ensures Hears(c, Flushed(c, sent), sent < |c.cache| && IN !in c.chan.mask)
    ensures Flushed(c, sent).chan == Asked(c.chan, sent < |c.cache|)
    ensures sent == |c.cache| ==> Flushed(c, sent).cache == []
  {
    TakesOff(c.(accepted := c.accepted + c.cache[..sent], reported := c.reported + sent), sent);
  }

  lemma {:induction false} FlushHears(c: Conn, answer: Answer, callback: Script)
    requires Told(c) && c.chan.registered && !c.chan.progress
    ensures Hears(c, HandleWrite(c, answer, callback), IN !in c.chan.mask && FlushAsks(c, answer, callback))
  {
    match answer
    case Again =>
    case Refused => ScriptHears(c, callback);
    case Took(n) =>
      var sent := Min(n, |c.cache|);
      FlushedHears(c, sent);
      ScriptHears(Flushed(c, sent), callback);
  }

  lemma {:induction false} ReadHears(c: Conn, plan: Plan)
    requires Told(c) && Life(c) && c.closes == 0
    requires OnReadable(c, plan).closes == 0
    ensures Hears(c, OnReadable(c, plan), c.chan.mask * {PRI, RDHUP} != {} && ArrivalDeafens(c, plan.arrival))
  {
    match plan.arrival
    case Eof(onConn, onClose) =>
      PlayIsUserOnly(c, onConn);
      CloseEffect(Play(c, onConn), onClose);
    case Received(data, callback) => ScriptHears(Arrived(c, data), callback);
    case RecvFailed(callback) => ScriptHears(c, callback);
  }

  lemma {:induction false} ProcessHears(c: Conn, plan: Plan)
    requires Told(c) && MidDispatch(c) && c.closes == 0 && ProcessWork(c, plan).closes == 0
    ensures Hears(c, ProcessWork(c, plan), ProcessDeafens(c, plan))
  {
    CloseEffect(c, plan.onHangup);
    HangupStep(c, plan);
    var c1 := OnHangup(c, plan);
    ErrorStep(c1, plan);
    var c2 := OnError(c1, plan);
    ReadableStep(c2, plan);
    var c3 := OnReadable(c2, plan);
    FlushIsWired(Progressed(c3), plan.answer, plan.onWritten);
    PlayIsUserOnly(c1, plan.onError);
    assert c1 == c;
    ScriptHears(c, plan.onError);
    ReadHears(c2, plan);
    FlushHears(Progressed(c3), plan.answer, plan.onWritten);
  }

  lemma {:induction false} StepHears(c: Conn, e: Event)
    requires Told(c) && Life(c) && c.closes == 0 && Truthful(c, e) && Step(c, e).closes == 0
    ensures Told(Step(c, e))
    ensures IN !in Step(c, e).chan.interest <==> IN !in c.chan.interest || StepDeafens(c, e)
  {
    match e
    case Report(_) =>
    case Task(commands) => ScriptHears(c, commands);
    case Process(plan) =>
      if c.active {
        ProcessHears(c.(active := false), plan);
      }
  }

  // ---------------------------------------------------------------------------------------------
  // Whole runs.

  lemma {:induction false} ClosedStays(c: Conn, run: seq<Event>)
    requires Life(c) && c.closes == 1
    ensures Exec(c, run).closes == 1
    decreases run
  {
    if run != [] {
      StepKeepsLife(c, run[0]);
      if run[0].Task? {
        PlayIsUserOnly(c, run[0].commands);
      }
      ClosedStays(Step(c, run[0]), run[1..]);
    }
  }

  lemma {:induction false} RunHears(c: Conn, run: seq<Event>)
    requires Told(c) && Life(c) && c.closes == 0
    requires TruthfulRun(c, run) && Exec(c, run).closes == 0
    ensures IN !in Exec(c, run).chan.interest <==> IN !in c.chan.interest || EverDeafens(c, run)
    decreases run
  {
    if run != [] {
      var d := Step(c, run[0]);
      StepKeepsLife(c, run[0]);
      if d.closes == 1 {
        ClosedStays(d, run[1..]);
      }
      StepHears(c, run[0]);
      RunHears(d, run[1..]);
    }
  }

  /** Over every run on a truthful kernel, until the close, the kernel has lost the interest in reading
      exactly if some request for writability that was not swallowed met a mask without the read flag. */
  lemma {:induction false} ReadInterestLostExactlyWhen(text: Text, onConn: Script, run: seq<Event>)
    requires TruthfulRun(StartWith(text, onConn), run)
    ensures
      var c := Exec(StartWith(text, onConn), run);
      c.closes == 0 ==> (IN !in c.chan.interest <==> EverDeafens(StartWith(text, onConn), run))
  {
    StartHasLife(text, onConn);
    PlayAsPredicted(Opened(text), onConn);
    if Exec(StartWith(text, onConn), run).closes == 0 {
      RunHears(StartWith(text, onConn), run);
    }
  }

  /** Nothing that leads to a read is left in either mask. */
  predicate Deaf(c: Conn) {
    (c.chan.mask + c.chan.interest) * {IN, PRI, RDHUP} == {}
  }

  lemma {:induction false} ScriptStaysDeaf(c: Conn, script: Script)
    requires Deaf(c)
    ensures Deaf(Play(c, script)) && Play(c, script).received == c.received
  {
    PlayAsPredicted(c, script);
  }

  lemma {:induction false} FlushStaysDeaf(c: Conn, answer: Answer, callback: Script)
    requires Deaf(c)
    ensures Deaf(HandleWrite(c, answer, callback)) && HandleWrite(c, answer, callback).received == c.received
  {
    match answer
    case Again =>
    case Refused => ScriptStaysDeaf(c, callback);
    case Took(n) =>
      var sent := Min(n, |c.cache|);
      FlushedChannel(c, sent);
      ScriptStaysDeaf(Flushed(c, sent), callback);
  }

  lemma {:induction false} StepStaysDeaf(c: Conn, e: Event)
    requires Deaf(c) && Truthful(c, e)
    ensures Deaf(Step(c, e)) && Step(c, e).received == c.received
  {
    match e
    case Report(_) =>
    case Task(commands) => ScriptStaysDeaf(c, commands);
    case Process(plan) =>
      var c0 := c.(active := false);
      CloseEffect(c0, plan.onHangup);
      PlayAsPredicted(Closing(c0), plan.onHangup);
      var c1 := OnHangup(c0, plan);
      ScriptStaysDeaf(c1, plan.onError);
      var c2 := OnError(c1, plan);
      assert OnReadable(c2, plan) == c2;
      FlushStaysDeaf(Progressed(c2), plan.answer, plan.onWritten);
  }

  /** And then, whatever happens, it receives nothing any more. */
  lemma {:induction false} NothingMoreIsReceived(c: Conn, run: seq<Event>)
    requires Deaf(c) && TruthfulRun(c, run)
    ensures Deaf(Exec(c, run)) && Exec(c, run).received == c.received
    decreases run
  {
    if run != [] {
      StepStaysDeaf(c, run[0]);
      NothingMoreIsReceived(Step(c, run[0]), run[1..]);
    }
  }

  /** It takes three cached bytes, a report of writability alone, and a flush of one of them. */
  function Deafening(): seq<Event> {
    [Task(Then(Write([1, 2, 3], Again, Done), Done)), Report({OUT}),
     Process(Plan(Done, Done, RecvFailed(Done), Took(1), Done))]
  }

  lemma DeafeningWitness(text: Text)
    ensures
      var c := StartWith(text, Done);
      var d := Exec(c, Deafening());
      TruthfulRun(c, Deafening()) && d.closes == 0 && d.chan.interest == {OUT} && Deaf(d)
  {
    var c := StartWith(text, Done);
    var run := Deafening();
    var c1 := Step(c, run[0]);
    assert c1 == Cached(c, [1, 2, 3]);
    var c2 := Step(c1, run[1]);
    var c3 := Step(c2, run[2]);
    assert c3 == Flushed(Progressed(c2.(active := false)), 1);
    assert run[1..][0] == run[1] && run[1..][1..] == [run[2]] && [run[2]][1..] == [];
    assert Exec(c, run) == Exec(c1, run[1..]) == Exec(c2, [run[2]]) == Exec(c3, []);
    assert TruthfulRun(c3, []) && TruthfulRun(c2, [run[2]]) && TruthfulRun(c1, run[1..]);
  }
}
