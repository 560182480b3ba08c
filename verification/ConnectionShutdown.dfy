/** When the assertion in final_destory holds: exactly as long as nothing that runs while the connection
    closes calls shutdown. */
module ConnectionShutdown {
  import opened Bytes
  import opened EvtChannel
  import opened ConnectionSpec
  import opened ConnectionScripts
  import opened ConnectionRuns

  /** One close breaks the assertion exactly if its connect callback comes to a shutdown. */
  lemma {:induction false} CloseBreaksExactlyWhen(c: Conn, onConn: Script)
    ensures
      HandleClose(c, onConn).undestroyable <==> c.undestroyable || ShutsDown(c.cache != [], onConn)
  {
    CloseEffect(c, onConn);
    PlayAsPredicted(Closing(c), onConn);
  }

  // ---------------------------------------------------------------------------------------------
  // Whole runs.

  /** Processing closes the connection, by a hangup or by an end of file, and the callback that runs then
      comes to a shutdown. `full` says that something is cached when processing begins. */
  predicate ClosesBadly(full: bool, mask: set<Flag>, plan: Plan) {
    if HUP in mask && IN !in mask then
      ShutsDown(full, plan.onHangup)
    else
      && mask * {IN, PRI, RDHUP} != {} && plan.arrival.Eof?
      && var full' := if ERR in mask then Fills(full, plan.onError) else full;
      ShutsDown(Fills(full', plan.arrival.onConn), plan.arrival.onClose)
  }

  predicate StepBreaks(c: Conn, e: Event) {
    e.Process? && c.active && ClosesBadly(c.cache != [], c.chan.mask, e.plan)
  }

  predicate RunBreaks(c: Conn, run: seq<Event>)
    decreases run
  {
    run != [] && (StepBreaks(c, run[0]) || RunBreaks(Step(c, run[0]), run[1..]))
  }

  /** The first two branches of do_process_work, on an open connection. */
  lemma {:induction false} FailuresBreak(c: Conn, plan: Plan)
    requires MidDispatch(c) && c.closes == 0
    ensures
      var d := OnError(OnHangup(c, plan), plan);
      && MidDispatch(d)
      && (if HUP in c.chan.mask && IN !in c.chan.mask then
            && d.closes == 1
            && (d.undestroyable <==> c.undestroyable || ShutsDown(c.cache != [], plan.onHangup))
          else
            && d.closes == 0 && d.undestroyable == c.undestroyable
            && d.chan.mask * {IN, PRI, RDHUP} == c.chan.mask * {IN, PRI, RDHUP}
            && (d.cache != [] <==>
                 if ERR in c.chan.mask then Fills(c.cache != [], plan.onError) else c.cache != []))
  {
    HangupStep(c, plan);
    CloseEffect(c, plan.onHangup);
    CloseBreaksExactlyWhen(c, plan.onHangup);
    var d := OnHangup(c, plan);
    ErrorStep(d, plan);
    PlayIsUserOnly(d, plan.onError);
    PlayAsPredicted(d, plan.onError);
  }

  lemma {:induction false} ReadBreaks(c: Conn, plan: Plan)
    ensures
      OnReadable(c, plan).undestroyable <==>
        || c.undestroyable
        || (c.chan.mask * {IN, PRI, RDHUP} != {} && plan.arrival.Eof?
            && ShutsDown(Fills(c.cache != [], plan.arrival.onConn), plan.arrival.onClose))
  {
    match plan.arrival
    case Eof(onConn, onClose) =>
      PlayIsUserOnly(c, onConn);
      PlayAsPredicted(c, onConn);
      CloseBreaksExactlyWhen(Play(c, onConn), onClose);
    case Received(data, callback) => PlayIsUserOnly(Arrived(c, data), callback);
    case RecvFailed(callback) => PlayIsUserOnly(c, callback);
  }

  lemma {:induction false} ProcessBreaks(c: Conn, plan: Plan)
    requires MidDispatch(c) && c.closes == 0
    ensures
      ProcessWork(c, plan).undestroyable <==>
        c.undestroyable || ClosesBadly(c.cache != [], c.chan.mask, plan)
  {
    FailuresBreak(c, plan);
    var d := OnError(OnHangup(c, plan), plan);
    ReadBreaks(d, plan);
    ReadableStep(d, plan);
    FlushIsWired(Progressed(OnReadable(d, plan)), plan.answer, plan.onWritten);
  }

  lemma {:induction false} StepBreaksExactlyWhen(c: Conn, e: Event)
    requires Life(c)
    ensures Step(c, e).undestroyable <==> c.undestroyable || StepBreaks(c, e)
  {
    match e
    case Task(commands) => PlayIsUserOnly(c, commands);
    case Report(_) =>
    case Process(plan) =>
      if c.active {
        ProcessBreaks(c.(active := false), plan);
      }
  }

  lemma {:induction false} RunBreaksExactlyWhen(c: Conn, run: seq<Event>)
    requires Life(c)
    ensures Exec(c, run).undestroyable <==> c.undestroyable || RunBreaks(c, run)
    decreases run
  {
    if run != [] {
      StepBreaksExactlyWhen(c, run[0]);
      StepKeepsLife(c, run[0]);
      RunBreaksExactlyWhen(Step(c, run[0]), run[1..]);
    }
  }

  /** Over every run the assertion in final_destory is violated exactly if the close, when it comes, runs a
      callback that comes to a shutdown. What other callbacks and tasks shut down does not matter. */
  lemma {:induction false} DestroyAssertionFailsExactlyWhen(text: Text, onConn: Script, run: seq<Event>)
    ensures
      Exec(StartWith(text, onConn), run).undestroyable <==> RunBreaks(StartWith(text, onConn), run)
  {
    StartHasLife(text, onConn);
    RunBreaksExactlyWhen(StartWith(text, onConn), run);
  }

  // Conditions on the scripts alone.

  predicate NoShutdown(script: Script) {
    match script
    case Done => true
    case Then(first, rest) => NoShutdownCommand(first) && NoShutdown(rest)
  }

  predicate NoShutdownCommand(command: Command) {
    match command
    case Write(_, _, callback) => NoShutdown(callback)
    case Shutdown => false
    case Consume(_) => true
  }

  lemma {:induction false} QuietNeverShutsDown(full: bool, script: Script)
    requires NoShutdown(script)
    ensures !ShutsDown(full, script)
    decreases script
  {
    if script.Then? {
      if script.first.Write? {
        var w := script.first;
        QuietNeverShutsDown(Leaves(full, w.data, w.answer), w.callback);
      }
      QuietNeverShutsDown(FillsBy(full, script.first), script.rest);
    }
  }

  /** The callbacks that run while the connection closes shut nothing down. */
  predicate QuietClose(e: Event) {
    e.Process? ==>
      && NoShutdown(e.plan.onHangup)
      && (e.plan.arrival.Eof? ==> NoShutdown(e.plan.arrival.onClose))
  }

  lemma QuietStep(c: Conn, e: Event)
    requires QuietClose(e)
    ensures !StepBreaks(c, e)
  {
    forall full: bool, script | NoShutdown(script)
      ensures !ShutsDown(full, script)
    {
      QuietNeverShutsDown(full, script);
    }
  }

  lemma {:induction false} QuietRun(c: Conn, run: seq<Event>)
    requires forall i :: 0 <= i < |run| ==> QuietClose(run[i])
    ensures !RunBreaks(c, run)
    decreases run
  {
    if run != [] {
      QuietStep(c, run[0]);
      assert forall i :: 0 <= i < |run[1..]| ==> run[1..][i] == run[i + 1];
      QuietRun(Step(c, run[0]), run[1..]);
    }
  }

  /** If no connect callback calls shutdown while the connection closes, the assertion in final_destory
      holds in every run, whatever other callbacks and tasks shut down. */
  lemma {:induction false} DestroyAssertionHolds(text: Text, onConn: Script, run: seq<Event>)
    requires forall i :: 0 <= i < |run| ==> QuietClose(run[i])
    ensures !Exec(StartWith(text, onConn), run).undestroyable
  {
    DestroyAssertionFailsExactlyWhen(text, onConn, run);
    QuietRun(StartWith(text, onConn), run);
  }

  /** The script itself calls shutdown, not just one of its completion callbacks. */
  predicate Calls(script: Script) {
    script.Then? && (script.first.Shutdown? || Calls(script.rest))
  }

  lemma {:induction false} CallsShutsDown(full: bool, script: Script)
    requires Calls(script)
    ensures ShutsDown(full, script)
    decreases script
  {
    if !script.first.Shutdown? {
      CallsShutsDown(FillsBy(full, script.first), script.rest);
    }
  }

  /** And a shutdown called there directly, after whatever else, breaks it on every connection. */
  lemma {:induction false} ShutdownInCloseBreaksIt(c: Conn, onConn: Script)
    requires Calls(onConn)
    ensures HandleClose(c, onConn).undestroyable
  {
    CallsShutsDown(c.cache != [], onConn);
    CloseBreaksExactlyWhen(c, onConn);
  }
}
