/** The closed loop cannot dawdle: every step uses up work that only reading can bring in. So a run is no
    longer than what both sides have read allows, and a block that cannot jam the channels circulates for
    ever. */
module PingPongProgress {
  import opened Duplex
  import opened PingPongLoop
  import opened PingPongDeadlock
  import Y = PingPongSystem
  import C = ClientSession

  /** The steps an endpoint can still take without reading: one for every byte to be handed over, and one
      for the end of every write that is in flight or waits for its turn. */
  function Work(e: Endpoint): nat {
    |e.writing.Rest()| + (if e.writing.Busy? then 1 else 0) + (if e.count == 2 then |e.held| + 1 else 0)
  }

  function BytesRead(s: Loop): nat {
    |s.serverGot| + |s.clientGot|
  }

  /** A read of n bytes is one step and brings in n + 1 more at the most; any other step takes one off. */
  lemma StepUsesWork(cfg: Config, s: Loop, a: Action)
    requires Inv(cfg, s) && Enabled(cfg, s, a)
    ensures
      var t := Step(cfg, s, a);
      Work(t.client) + Work(t.server) + 3 * BytesRead(s) + 1
      <= Work(s.client) + Work(s.server) + 3 * BytesRead(t)
  {
  }

  lemma {:induction false} RunUsesWork(cfg: Config, s: Loop, run: seq<Action>)
    requires Inv(cfg, s) && Legal(cfg, s, run)
    ensures
      var t := Exec(cfg, s, run);
      Work(t.client) + Work(t.server) + 3 * BytesRead(s) + |run|
      <= Work(s.client) + Work(s.server) + 3 * BytesRead(t)
    decreases run
  {
    if run != [] {
      StepUsesWork(cfg, s, run[0]);
      StepKeepsInv(cfg, s, run[0]);
      RunUsesWork(cfg, Step(cfg, s, run[0]), run[1..]);
    }
  }

  /** Every run is at most as long as the block, one step more, and three steps for every byte read. */
  lemma {:induction false} RunLength(cfg: Config, run: seq<Action>)
    requires cfg.Ok() && Legal(cfg, Initial(cfg), run)
    ensures |run| <= |cfg.block| + 1 + 3 * BytesRead(Exec(cfg, Initial(cfg), run))
  {
    InitialInv(cfg);
    RunUsesWork(cfg, Initial(cfg), run);
  }

  /** Hence whatever the scheduling, the client has read any number of bytes after a number of steps that
      can be told beforehand. */
  lemma {:induction false} LongRunsRead(cfg: Config, run: seq<Action>, m: nat)
    requires cfg.Ok() && Legal(cfg, Initial(cfg), run)
    requires |run| >= 4 * |cfg.block| + 1 + 6 * m
    ensures |Exec(cfg, Initial(cfg), run).clientGot| >= m
  {
    RunLength(cfg, run);
    BothSidesReadTheBlockRepeated(cfg, run, 0);
  }

  /** A block too small to jam the channels leaves something to do in every state. */
  lemma {:induction false} RunOn(cfg: Config, s: Loop, k: nat) returns (run: seq<Action>)
    requires Inv(cfg, s) && |cfg.block| < cfg.upCap + cfg.downCap + 4
    ensures |run| == k && Legal(cfg, s, run)
    decreases k
  {
    if k == 0 {
      run := [];
    } else {
      if Stuck(cfg, s) {
        StandstillShape(cfg, s);
      }
      var a :| Enabled(cfg, s, a);
      StepKeepsInv(cfg, s, a);
      var rest := RunOn(cfg, Step(cfg, s, a), k - 1);
      run := [a] + rest;
      assert run[1..] == rest;
    }
  }

  /** The loop can go on until the client has read `m` bytes in all. */
  ghost predicate CanReadOn(cfg: Config, s: Loop, m: nat) {
    exists t :: Reaches(cfg, s, t) && |t.clientGot| >= m
  }

  /** Whatever has happened, there is more to come, without end. */
  ghost predicate Circulates(cfg: Config) {
    forall s, m: nat :: Reaches(cfg, Initial(cfg), s) ==> CanReadOn(cfg, s, m)
  }

  lemma {:induction false} SmallBlockReadsOn(cfg: Config, s: Loop, m: nat)
    requires cfg.Ok() && |cfg.block| < cfg.upCap + cfg.downCap + 4
    requires Reaches(cfg, Initial(cfg), s)
    ensures CanReadOn(cfg, s, m)
  {
    var run :| Legal(cfg, Initial(cfg), run) && Exec(cfg, Initial(cfg), run) == s;
    InitialInv(cfg);
    RunKeepsInv(cfg, Initial(cfg), run);
    var more := RunOn(cfg, s, 4 * |cfg.block| + 1 + 6 * m);
    ExecConcat(cfg, Initial(cfg), run, more);
    LongRunsRead(cfg, run + more, m);
    assert Reaches(cfg, s, Exec(cfg, s, more));
  }

  lemma SomethingEnabled(cfg: Config, s: Loop, run: seq<Action>)
    ensures run != [] && Legal(cfg, s, run) ==> !Stuck(cfg, s)
  {
    assert run != [] && Legal(cfg, s, run) ==> Enabled(cfg, s, run[0]);
  }

  /** Nothing follows a standstill. */
  lemma StuckReadsNothing(cfg: Config, s: Loop)
    requires Stuck(cfg, s)
    ensures !CanReadOn(cfg, s, |s.clientGot| + 1)
  {
    forall t | Reaches(cfg, s, t)
      ensures t == s
    {
      var run :| Legal(cfg, s, run) && Exec(cfg, s, run) == t;
      SomethingEnabled(cfg, s, run);
    }
  }

  /** The block circulates for ever, from every state a run can lead to, exactly when it is at most three
      bytes larger than both channels together. */
  lemma CirculatesExactlyWhen(cfg: Config)
    requires cfg.Ok()
    ensures Circulates(cfg) <==> |cfg.block| <= cfg.upCap + cfg.downCap + 3
  {
    if |cfg.block| <= cfg.upCap + cfg.downCap + 3 {
      forall s, m: nat | Reaches(cfg, Initial(cfg), s)
        ensures CanReadOn(cfg, s, m)
      {
        SmallBlockReadsOn(cfg, s, m);
      }
    } else {
      LargeBlockDeadlocks(cfg);
      var s :| Reaches(cfg, Initial(cfg), s) && Stuck(cfg, s);
      StuckReadsNothing(cfg, s);
    }
  }

  lemma {:induction false} AsManyActions(run: seq<Y.Event>)
    ensures |Y.ActionsOf(run)| == |run|
  {
    if run != [] {
      AsManyActions(run[1..]);
    }
  }

  /** The sessions themselves, while nothing fails: after a number of events that can be told beforehand,
      however they are scheduled and cut into pieces, the client has read any number of bytes. */
  lemma {:induction false} SessionsReadOn(cfg: Config, run: seq<Y.Event>, m: nat)
    requires cfg.Ok() && cfg.block == C.Pattern(|cfg.block|) && Y.Legal(cfg, Y.Start(cfg), run)
    requires Y.SmoothRun(run)
    requires |run| >= 4 * |cfg.block| + 1 + 6 * m
    ensures |Y.Exec(cfg, Y.Start(cfg), run).client.input| >= m
  {
    Y.SessionsStartTheLoop(cfg);
    Y.SessionRunIsLoopRun(cfg, Y.Start(cfg), run);
    AsManyActions(run);
    LongRunsRead(cfg, Y.ActionsOf(run), m);
  }
}
