/** The task queue of the event loop: src/muradin/net/io_service.cpp. Many threads submit tasks; the loop
    swaps the pending ones out under the lock and runs them as a batch. */
module TaskQueue {

  /** The `id`-th thing that thread `producer` submits. */
  datatype Task = Task(producer: nat, id: nat)

  datatype Phase = Polling | Draining

  /** `enqueued` and `executed` are histories of the queued tasks, `direct` of those run at once because
      they were submitted from the loop's own thread. */
  datatype Queue = Queue(
    phase: Phase,
    pending: seq<Task>,
    batch: seq<Task>,
    enqueued: seq<Task>,
    executed: seq<Task>,
    direct: seq<Task>)

  const EMPTY := Queue(Polling, [], [], [], [], [])

  /** The atomic steps, in any order the threads take them: somebody submits a task, from elsewhere or
      from the loop's thread; the loop swaps, runs the next task of its batch, or finds it finished. */
  datatype Event = Submit(inLoop: bool, task: Task) | Swap | RunNext | EndBatch

  predicate Enabled(q: Queue, e: Event) {
    match e
    case Submit(_, _) => true
    case Swap => q.phase.Polling?
    case RunNext => q.phase.Draining? && q.batch != []
    case EndBatch => q.phase.Draining? && q.batch == []
  }

  function Step(q: Queue, e: Event): Queue
    requires Enabled(q, e)
  {
    match e
    case Submit(inLoop, t) =>
      if inLoop then q.(direct := q.direct + [t])
      else q.(pending := q.pending + [t], enqueued := q.enqueued + [t])
    case Swap => q.(phase := Draining, batch := q.pending, pending := [])
    case RunNext => q.(executed := q.executed + [q.batch[0]], batch := q.batch[1..])
    case EndBatch => q.(phase := Polling)
  }

  predicate Legal(q: Queue, run: seq<Event>)
    decreases run
  {
    run == [] || (Enabled(q, run[0]) && Legal(Step(q, run[0]), run[1..]))
  }

  function Exec(q: Queue, run: seq<Event>): Queue
    requires Legal(q, run)
    decreases run
  {
    if run == [] then q else Exec(Step(q, run[0]), run[1..])
  }

  predicate Inv(q: Queue) {
    && q.executed + q.batch + q.pending == q.enqueued
    && (q.phase.Polling? ==> q.batch == [])
  }

  lemma StepKeepsInv(q: Queue, e: Event)
    requires Inv(q) && Enabled(q, e)
    ensures Inv(Step(q, e))
  {
    var r := Step(q, e);
    match e
    case Submit(inLoop, t) =>
      if !inLoop {
        assert r.executed + r.batch + r.pending == q.executed + q.batch + q.pending + [t];
      }
    case RunNext =>
      assert r.executed + r.batch == q.executed + q.batch;
    case _ =>
  }

  lemma {:induction false} RunKeepsInv(q: Queue, run: seq<Event>)
    requires Inv(q) && Legal(q, run)
    ensures Inv(Exec(q, run))
    decreases run
  {
    if run != [] {
      StepKeepsInv(q, run[0]);
      RunKeepsInv(Step(q, run[0]), run[1..]);
    }
  }

  /** The tasks of one producer, in order. */
  function Of(producer: nat, tasks: seq<Task>): seq<Task> {
    if tasks == [] then [] else Own(producer, tasks[0]) + Of(producer, tasks[1..])
  }

  function Own(producer: nat, task: Task): seq<Task> {
    if task.producer == producer then [task] else []
  }

  lemma Assoc(a: seq<Task>, b: seq<Task>, c: seq<Task>)
    ensures a + (b + c) == (a + b) + c
  {
  }

  lemma {:induction false} OfConcat(producer: nat, tasks: seq<Task>, more: seq<Task>)
    ensures Of(producer, tasks + more) == Of(producer, tasks) + Of(producer, more)
  {
    if tasks == [] {
      assert tasks + more == more;
    } else {
      var all := tasks + more;
      OfConcat(producer, tasks[1..], more);
      assert all[0] == tasks[0] && all[1..] == tasks[1..] + more;
      Assoc(Own(producer, tasks[0]), Of(producer, tasks[1..]), Of(producer, more));
    }
  }

  /** Linearity: under any interleaving the executed tasks, the rest of the batch and the pending tasks
      are the enqueued ones in order. So each queued task runs at most once, the n-th executed is the
      n-th enqueued, and the tasks of each producer run in the order it submitted them. */
  lemma {:induction false} Linearity(run: seq<Event>, producer: nat)
    requires Legal(EMPTY, run)
    ensures
      var q := Exec(EMPTY, run);
      && q.executed + q.batch + q.pending == q.enqueued
      && q.executed <= q.enqueued
      && Of(producer, q.executed) <= Of(producer, q.enqueued)
  {
    RunKeepsInv(EMPTY, run);
    var q := Exec(EMPTY, run);
    assert q.executed + (q.batch + q.pending) == q.enqueued;
    OfConcat(producer, q.executed, q.batch + q.pending);
  }

  // Every task, by whatever way.

  /** The tasks of a run that are submitted from the loop's own thread, or from elsewhere, in order. */
  function Submitted(run: seq<Event>, inLoop: bool): seq<Task> {
    if run == [] then []
    else
      (if run[0].Submit? && run[0].inLoop == inLoop then [run[0].task] else [])
      + Submitted(run[1..], inLoop)
  }

  /** Tasks submitted from the loop's own thread are run at once, all of them and in order; those from
      elsewhere are queued, all of them and in order. */
  lemma {:induction false} SubmissionsRecorded(q: Queue, run: seq<Event>)
    requires Legal(q, run)
    ensures Exec(q, run).direct == q.direct + Submitted(run, true)
    ensures Exec(q, run).enqueued == q.enqueued + Submitted(run, false)
    decreases run
  {
    if run != [] {
      var r := Step(q, run[0]);
      SubmissionsRecorded(r, run[1..]);
      var own := if run[0].Submit? && run[0].inLoop then [run[0].task] else [];
      var other := if run[0].Submit? && !run[0].inLoop then [run[0].task] else [];
      assert r.direct == q.direct + own && r.enqueued == q.enqueued + other;
      Assoc(q.direct, own, Submitted(run[1..], true));
      Assoc(q.enqueued, other, Submitted(run[1..], false));
    }
  }

  function AllOf(run: seq<Event>): multiset<Task> {
    if run == [] then multiset{}
    else (if run[0].Submit? then multiset{run[0].task} else multiset{}) + AllOf(run[1..])
  }

  lemma {:induction false} EverySubmission(run: seq<Event>)
    ensures multiset(Submitted(run, true)) + multiset(Submitted(run, false)) == AllOf(run)
  {
    if run != [] {
      EverySubmission(run[1..]);
    }
  }

  /** No task is lost and none runs twice: under any interleaving, each task submitted, from any thread, is
      once among those run directly, those executed from the queue, the rest of the batch and the pending
      ones. */
  lemma {:induction false} EveryTaskOnce(run: seq<Event>)
    requires Legal(EMPTY, run)
    ensures
      var q := Exec(EMPTY, run);
      && multiset(q.direct) + multiset(q.executed) + multiset(q.batch) + multiset(q.pending) == AllOf(run)
      && q.direct == Submitted(run, true)
      && q.executed + q.batch + q.pending == Submitted(run, false)
  {
    RunKeepsInv(EMPTY, run);
    SubmissionsRecorded(EMPTY, run);
    EverySubmission(run);
    var q := Exec(EMPTY, run);
    assert [] + Submitted(run, true) == Submitted(run, true);
    assert [] + Submitted(run, false) == Submitted(run, false);
  }

  predicate WithinBatch(run: seq<Event>) {
    forall i :: 0 <= i < |run| ==> run[i].Submit? || run[i].RunNext?
  }

  function TasksRun(run: seq<Event>): nat {
    if run == [] then 0 else (if run[0].RunNext? then 1 else 0) + TasksRun(run[1..])
  }

  /** While a batch is being run, what has been executed and what is left of it stay what was there at
      the swap, whatever is submitted meanwhile. */
  lemma {:induction false} BatchIsFixed(q: Queue, run: seq<Event>)
    requires q.phase.Draining? && Legal(q, run) && WithinBatch(run)
    ensures
      var r := Exec(q, run);
      && r.phase.Draining?
      && r.executed + r.batch == q.executed + q.batch
      && |r.batch| + TasksRun(run) == |q.batch|
    decreases run
  {
    if run != [] {
      assert run[0].Submit? || run[0].RunNext?;
      var r := Step(q, run[0]);
      assert r.executed + r.batch == q.executed + q.batch;
      assert forall i :: 0 <= i < |run[1..]| ==> run[1..][i] == run[i + 1];
      BatchIsFixed(r, run[1..]);
    }
  }

  /** One iteration runs exactly what was pending: everything enqueued before its swap has been executed
      when it ends, and nothing enqueued after. */
  lemma {:induction false} BatchCompleteness(q: Queue, run: seq<Event>)
    requires Inv(q) && q.phase.Polling? && WithinBatch(run)
    requires Legal(Step(q, Swap), run) && Enabled(Exec(Step(q, Swap), run), EndBatch)
    ensures Exec(Step(q, Swap), run).executed == q.enqueued
    ensures TasksRun(run) == |q.pending|
  {
    var s := Step(q, Swap);
    BatchIsFixed(s, run);
    var r := Exec(s, run);
    assert r.executed == r.executed + r.batch == s.executed + s.batch;
    assert q.executed + q.batch + q.pending == q.executed + q.pending;
  }

  // ---------------------------------------------------------------------------------------------
  // The loop object. What other threads submit, and when, is an input.

  /** One iteration: what is submitted while the loop waits, while it processes each of the active channels
      it is given, and while it runs each task of the batch, and whether somebody calls quit. */
  datatype Round = Round(waiting: seq<Task>, active: seq<seq<Task>>, during: seq<seq<Task>>, quits: bool)
  {
    function Before(): seq<Task> {
      waiting + Arrivals(active, |active|)
    }
  }

  function During(during: seq<seq<Task>>, i: nat): seq<Task> {
    if i < |during| then during[i] else []
  }

  /** Everything submitted while the first `n` channels are processed, or tasks run. */
  function Arrivals(during: seq<seq<Task>>, n: nat): seq<Task> {
    if n == 0 then [] else Arrivals(during, n - 1) + During(during, n - 1)
  }

  function Flatten(lists: seq<seq<Task>>): seq<Task> {
    if lists == [] then [] else lists[0] + Flatten(lists[1..])
  }

  lemma {:induction false} FlattenLast(lists: seq<seq<Task>>, last: seq<Task>)
    ensures Flatten(lists + [last]) == Flatten(lists) + last
  {
    if lists == [] {
      assert [last][1..] == [] && lists + [last] == [last];
    } else {
      FlattenLast(lists[1..], last);
      assert (lists + [last])[1..] == lists[1..] + [last];
    }
  }

  /** Nothing that is submitted during those is left out. */
  lemma {:induction false} ArrivalsAreAll(during: seq<seq<Task>>, n: nat)
    ensures Arrivals(during, n) == Flatten(if n <= |during| then during[..n] else during)
    decreases n
  {
    if n > 0 {
      ArrivalsAreAll(during, n - 1);
      if n <= |during| {
        assert during[..n] == during[..n - 1] + [during[n - 1]];
        FlattenLast(during[..n - 1], during[n - 1]);
      } else {
        assert during[..|during|] == during;
      }
    } else {
      assert during[..0] == [];
    }
  }

  function Posted(q: Queue, tasks: seq<Task>): Queue {
    q.(pending := q.pending + tasks, enqueued := q.enqueued + tasks)
  }

  function Drained(q: Queue, during: seq<seq<Task>>): Queue {
    var arrivals := Arrivals(during, |q.pending|);
    q.(executed := q.executed + q.pending, pending := arrivals, enqueued := q.enqueued + arrivals)
  }

  /** The iterations up to the first after which quit is found set. */
  function Looped(q: Queue, rounds: seq<Round>): Queue
    decreases rounds
  {
    if rounds == [] then q
    else
      var r := Drained(Posted(q, rounds[0].Before()), rounds[0].during);
      if rounds[0].quits then r else Looped(r, rounds[1..])
  }

  /** How many channels are processed in them. */
  function Processed(rounds: seq<Round>): nat
    decreases rounds
  {
    if rounds == [] then 0
    else |rounds[0].active| + (if rounds[0].quits then 0 else Processed(rounds[1..]))
  }

  lemma {:induction false} ExecConcat(q: Queue, run: seq<Event>, more: seq<Event>)
    requires Legal(q, run) && Legal(Exec(q, run), more)
    ensures Legal(q, run + more) && Exec(q, run + more) == Exec(Exec(q, run), more)
    decreases run
  {
    if run == [] {
      assert run + more == more;
    } else {
      ExecConcat(Step(q, run[0]), run[1..], more);
      assert (run + more)[1..] == run[1..] + more;
    }
  }

  lemma {:induction false} SubmitAll(q: Queue, tasks: seq<Task>) returns (run: seq<Event>)
    ensures Legal(q, run) && WithinBatch(run) && Exec(q, run) == Posted(q, tasks)
    decreases tasks
  {
    if tasks == [] {
      run := [];
      assert q.pending + tasks == q.pending && q.enqueued + tasks == q.enqueued;
    } else {
      var e := Submit(false, tasks[0]);
      var rest := SubmitAll(Step(q, e), tasks[1..]);
      run := [e] + rest;
      assert run[1..] == rest;
      assert q.pending + tasks == q.pending + [tasks[0]] + tasks[1..];
      assert q.enqueued + tasks == q.enqueued + [tasks[0]] + tasks[1..];
    }
  }

  lemma OneMore(q: Queue, run: seq<Event>)
    requires Enabled(q, RunNext) && Legal(Step(q, RunNext), run)
    requires WithinBatch(run)
    ensures Legal(q, [RunNext] + run) && WithinBatch([RunNext] + run)
    ensures Exec(q, [RunNext] + run) == Exec(Step(q, RunNext), run)
  {
    assert ([RunNext] + run)[1..] == run;
  }

  /** The queue once its batch, from the i-th task on, has run, with `base` what had been enqueued at the
      swap. */
  function RestDrained(q: Queue, during: seq<seq<Task>>, i: nat, base: seq<Task>): Queue {
    var arrivals := Arrivals(during, i + |q.batch|);
    q.(executed := q.executed + q.batch, batch := [], pending := arrivals, enqueued := base + arrivals)
  }

  lemma OneTaskDrained(q: Queue, during: seq<seq<Task>>, i: nat, base: seq<Task>)
    requires q.phase.Draining? && q.batch != []
    requires q.pending == Arrivals(during, i) && q.enqueued == base + q.pending
    ensures
      var s := Posted(Step(q, RunNext), During(during, i));
      && s.phase.Draining? && s.batch == q.batch[1..]
      && s.pending == Arrivals(during, i + 1) && s.enqueued == base + s.pending
      && RestDrained(s, during, i + 1, base) == RestDrained(q, during, i, base)
  {
    Assoc(base, q.pending, During(during, i));
    Assoc(q.executed, [q.batch[0]], q.batch[1..]);
    assert [q.batch[0]] + q.batch[1..] == q.batch;
  }

  lemma {:induction false} DrainRest(q: Queue, during: seq<seq<Task>>, i: nat, base: seq<Task>)
    returns (run: seq<Event>)
    requires q.phase.Draining?
    requires q.pending == Arrivals(during, i) && q.enqueued == base + q.pending
    ensures Legal(q, run) && WithinBatch(run)
    ensures Exec(q, run) == RestDrained(q, during, i, base)
    decreases |q.batch|
  {
    if q.batch == [] {
      run := [];
      assert q.executed + q.batch == q.executed;
    } else {
      OneTaskDrained(q, during, i, base);
      var r := Step(q, RunNext);
      var posts := SubmitAll(r, During(during, i));
      var rest := DrainRest(Posted(r, During(during, i)), during, i + 1, base);
      ExecConcat(r, posts, rest);
      OneMore(q, posts + rest);
      run := [RunNext] + (posts + rest);
    }
  }

  /** Running a batch in the loop object is one of the interleavings of the atomic steps. */
  lemma {:induction false} DrainIsARun(q: Queue, during: seq<seq<Task>>) returns (run: seq<Event>)
    requires Inv(q) && q.phase.Polling?
    ensures Legal(Step(q, Swap), run) && WithinBatch(run)
    ensures Enabled(Exec(Step(q, Swap), run), EndBatch)
    ensures Step(Exec(Step(q, Swap), run), EndBatch) == Drained(q, during)
  {
    assert q.enqueued + [] == q.enqueued;
    run := DrainRest(Step(q, Swap), during, 0, q.enqueued);
  }

  class IoService {
    var pendingTasks: seq<Task>
    var runningPendingTasks: bool
    var quit: bool
    /* How often the wake-up descriptor has been written to, and channels have been processed. */
    var wakeUps: nat
    var processed: nat
    ghost var batch: seq<Task>
    ghost var enqueued: seq<Task>
    ghost var executed: seq<Task>
    ghost var direct: seq<Task>

    ghost function View(): Queue
      reads this
    {
      Queue(if runningPendingTasks then Draining else Polling,
            pendingTasks, batch, enqueued, executed, direct)
    }

    ghost predicate Valid()
      reads this
    {
      Inv(View())
    }

    constructor ()
      ensures Valid() && View() == EMPTY && !quit && wakeUps == processed == 0
    {
      pendingTasks := [];
      runningPendingTasks := false;
      quit, wakeUps, processed := false, 0, 0;
      batch, enqueued, executed, direct := [], [], [], [];
    }

    /** Run at once on the loop's own thread, queue from anywhere else. */
    method RunTask(inLoop: bool, task: Task)
      requires Valid()
      modifies this`pendingTasks, this`enqueued, this`direct, this`wakeUps
      ensures Valid()
      ensures wakeUps == old(wakeUps) + (if inLoop then 0 else 1)
      ensures inLoop ==> direct == old(direct) + [task] && pendingTasks == old(pendingTasks)
      ensures !inLoop ==> direct == old(direct) && pendingTasks == old(pendingTasks) + [task]
      ensures View() == Step(old(View()), Submit(inLoop, task))
    {
      StepKeepsInv(View(), Submit(inLoop, task));
      if inLoop {
        direct := direct + [task];
      } else {
        QueueTask(inLoop, task);
      }
    }

    /** Queue a task and wake the loop up, unless it is the loop's own thread that queues the task and no
        batch is running. */
    method QueueTask(inLoop: bool, task: Task)
      modifies this`pendingTasks, this`enqueued, this`wakeUps
      ensures pendingTasks == old(pendingTasks) + [task] && enqueued == old(enqueued) + [task]
      ensures wakeUps == old(wakeUps) + (if !inLoop || runningPendingTasks then 1 else 0)
    {
      pendingTasks := pendingTasks + [task];
      enqueued := enqueued + [task];
      if !inLoop || runningPendingTasks {
        WakeMeUp();
      }
    }

    method WakeMeUp()
      modifies this`wakeUps
      ensures wakeUps == old(wakeUps) + 1
    {
      wakeUps := wakeUps + 1;
    }

    /** Other threads queue these tasks, one after the other. */
    method QueueAll(tasks: seq<Task>)
      modifies this`pendingTasks, this`enqueued, this`wakeUps
      ensures pendingTasks == old(pendingTasks) + tasks && enqueued == old(enqueued) + tasks
      ensures wakeUps == old(wakeUps) + |tasks|
    {
      for i := 0 to |tasks|
        invariant wakeUps == old(wakeUps) + i
        invariant pendingTasks == old(pendingTasks) + tasks[..i]
        invariant enqueued == old(enqueued) + tasks[..i]
      {
        assert tasks[..i + 1] == tasks[..i] + [tasks[i]];
        QueueTask(false, tasks[i]);
      }
      assert tasks[..|tasks|] == tasks;
    }

    /** Swap the pending tasks out and run them all. */
    method RunPendingTask(during: seq<seq<Task>>)
      requires Valid() && !runningPendingTasks
      modifies this`pendingTasks, this`runningPendingTasks, this`batch, this`enqueued, this`executed
      modifies this`wakeUps
      ensures Valid() && !runningPendingTasks
      ensures View() == Drained(old(View()), during)
      ensures executed == old(enqueued)
      ensures wakeUps - old(wakeUps) == |enqueued| - |old(enqueued)|
    {
      runningPendingTasks := true;
      var toRun := pendingTasks;
      pendingTasks := [];
      batch := toRun;
      for i := 0 to |toRun|
        invariant batch == toRun[i..]
        invariant executed == old(executed) + toRun[..i]
        invariant pendingTasks == Arrivals(during, i)
        invariant enqueued == old(enqueued) + pendingTasks
        invariant wakeUps == old(wakeUps) + |pendingTasks|
        invariant runningPendingTasks
      {
        executed, batch := executed + [toRun[i]], batch[1..];
        assert toRun[..i + 1] == toRun[..i] + [toRun[i]];
        QueueAll(During(during, i));
        assert old(enqueued) + Arrivals(during, i) + During(during, i)
            == old(enqueued) + (Arrivals(during, i) + During(during, i));
      }
      assert toRun[..|toRun|] == toRun;
      assert old(executed) + old(batch) + old(pendingTasks) == old(executed) + old(pendingTasks);
      runningPendingTasks := false;
    }

    /** Process the active channels, one after the other. */
    method ProcessActive(active: seq<seq<Task>>)
      requires !runningPendingTasks
      modifies this`pendingTasks, this`enqueued, this`wakeUps, this`processed
      ensures pendingTasks == old(pendingTasks) + Arrivals(active, |active|)
      ensures enqueued == old(enqueued) + Arrivals(active, |active|)
      ensures wakeUps == old(wakeUps) + |Arrivals(active, |active|)|
      ensures processed == old(processed) + |active|
    {
      for i := 0 to |active|
        invariant pendingTasks == old(pendingTasks) + Arrivals(active, i)
        invariant enqueued == old(enqueued) + Arrivals(active, i)
        invariant wakeUps == old(wakeUps) + |Arrivals(active, i)|
        invariant processed == old(processed) + i
      {
        processed := processed + 1;
        QueueAll(During(active, i));
      }
    }

    /** What an iteration does before it runs tasks: wait for active channels, and process them. */
    method Dispatch(r: Round)
      requires Valid() && !runningPendingTasks
      modifies this`pendingTasks, this`enqueued, this`wakeUps, this`processed
      ensures Valid()
      ensures View() == Posted(old(View()), r.Before())
      ensures wakeUps - old(wakeUps) == |enqueued| - |old(enqueued)|
      ensures processed == old(processed) + |r.active|
    {
      ghost var was := View();
      QueueAll(r.waiting);
      ProcessActive(r.active);
      assert was.executed + was.batch + (was.pending + r.Before())
          == was.executed + was.batch + was.pending + r.Before();
    }

    /** Somebody asks the loop to end. */
    method Quit()
      modifies this`quit, this`wakeUps
      ensures quit && wakeUps == old(wakeUps) + 1
    {
      quit := true;
      WakeMeUp();
    }

    /** The loop, observed for the given iterations. */
    method Run(rounds: seq<Round>)
      requires Valid() && !runningPendingTasks && !quit
      modifies this
      ensures Valid() && !runningPendingTasks
      ensures View() == Looped(old(View()), rounds)
      ensures quit <==> exists i :: 0 <= i < |rounds| && rounds[i].quits
      ensures wakeUps - old(wakeUps) == |enqueued| - |old(enqueued)| + (if quit then 1 else 0)
      ensures processed == old(processed) + Processed(rounds)
    {
      var i := 0;
      ghost var start := View();
      while !quit && i < |rounds|
        invariant i <= |rounds|
        invariant Valid() && !runningPendingTasks
        invariant Looped(start, rounds) == if quit then View() else Looped(View(), rounds[i..])
        invariant wakeUps - old(wakeUps) == |enqueued| - |old(enqueued)| + (if quit then 1 else 0)
        invariant old(processed) + Processed(rounds) == processed + (if quit then 0 else Processed(rounds[i..]))
        invariant quit ==> exists j :: 0 <= j < |rounds| && rounds[j].quits
        invariant !quit ==> forall j :: 0 <= j < i ==> !rounds[j].quits
        decreases |rounds| - i
      {
        ghost var was := View();
        Dispatch(rounds[i]);
        assert View() == Posted(was, rounds[i].Before());
        RunPendingTask(rounds[i].during);
        assert rounds[i..][0] == rounds[i] && rounds[i..][1..] == rounds[i + 1..];
        if rounds[i].quits {
          Quit();
        }
        i := i + 1;
      }
    }
  }

  /** The index of the last iteration the loop gets to. */
  function LastRound(rounds: seq<Round>): (k: nat)
    requires rounds != []
    ensures k < |rounds|
    ensures rounds[k].quits || k == |rounds| - 1
    ensures forall j :: 0 <= j < k ==> !rounds[j].quits
    decreases rounds
  {
    if rounds[0].quits || |rounds| == 1 then 0 else 1 + LastRound(rounds[1..])
  }

  /** The queue as the swap of that iteration finds it. */
  function AtLastSwap(q: Queue, rounds: seq<Round>): Queue
    requires rounds != []
    decreases rounds
  {
    var p := Posted(q, rounds[0].Before());
    if rounds[0].quits || |rounds| == 1 then p
    else AtLastSwap(Drained(p, rounds[0].during), rounds[1..])
  }

  /** Everything queued while the loop is observed, in order. */
  function AllSubmitted(q: Queue, rounds: seq<Round>): seq<Task>
    decreases rounds
  {
    if rounds == [] then []
    else
      var p := Posted(q, rounds[0].Before());
      var d := Drained(p, rounds[0].during);
      rounds[0].Before() + d.pending + (if rounds[0].quits then [] else AllSubmitted(d, rounds[1..]))
  }

  lemma OneRound(q: Queue, r: Round)
    requires Inv(q) && q.phase.Polling?
    ensures
      var p := Posted(q, r.Before());
      var d := Drained(p, r.during);
      && Inv(p) && p.phase.Polling?
      && Inv(d) && d.phase.Polling?
      && d.executed == p.enqueued
  {
    var p := Posted(q, r.Before());
    assert p.executed + p.batch + p.pending == q.executed + q.batch + q.pending + r.Before();
    assert p.executed + p.pending == p.executed + p.batch + p.pending;
    var d := Drained(p, r.during);
    assert d.executed + d.batch + d.pending == p.enqueued + d.pending;
  }

  /** Everything submitted in an iteration is queued in it: what comes while the loop waits, then what comes
      while it processes channels, then what comes while the tasks of its batch run. */
  lemma RoundQueuesAll(q: Queue, r: Round)
    ensures
      var p := Posted(q, r.Before());
      var n := |q.pending| + |r.waiting| + |Flatten(r.active)|;
      && p.pending == q.pending + r.waiting + Flatten(r.active)
      && |p.pending| == n
      && Drained(p, r.during).pending == Flatten(if n <= |r.during| then r.during[..n] else r.during)
      && Drained(p, r.during).enqueued
         == q.enqueued + (r.waiting + Flatten(r.active)) + Drained(p, r.during).pending
      && Drained(p, r.during).executed == q.executed + p.pending
  {
    var p := Posted(q, r.Before());
    ArrivalsAreAll(r.active, |r.active|);
    assert r.active[..|r.active|] == r.active;
    ArrivalsAreAll(r.during, |p.pending|);
    Assoc(q.pending, r.waiting, Flatten(r.active));
  }

  /** What the loop leaves behind when it ends: exactly what had been enqueued by its last swap has run,
      and exactly what arrived while the batch of that swap was running, task by task, is pending. */
  lemma {:induction false} LoopLeavesOnlyLateTasks(q: Queue, rounds: seq<Round>)
    requires Inv(q) && q.phase.Polling? && rounds != []
    ensures
      var r := Looped(q, rounds);
      var last := AtLastSwap(q, rounds);
      && r.executed == last.enqueued
      && r.pending == Arrivals(rounds[LastRound(rounds)].during, |last.pending|)
      && r.executed + r.pending == r.enqueued == q.enqueued + AllSubmitted(q, rounds)
      && Inv(r) && r.phase.Polling?
    decreases rounds
  {
    OneRound(q, rounds[0]);
    var p := Posted(q, rounds[0].Before());
    var d := Drained(p, rounds[0].during);
    assert d.enqueued == q.enqueued + (rounds[0].Before() + d.pending);
    if rounds[0].quits || |rounds| == 1 {
      assert Looped(q, rounds) == d;
      assert d.executed + d.pending == d.executed + d.batch + d.pending;
      assert AllSubmitted(q, rounds) == rounds[0].Before() + d.pending;
    } else {
      LoopLeavesOnlyLateTasks(d, rounds[1..]);
      assert rounds[1..][LastRound(rounds[1..])] == rounds[LastRound(rounds)];
      assert q.enqueued + AllSubmitted(q, rounds) == d.enqueued + AllSubmitted(d, rounds[1..]);
    }
  }
}
