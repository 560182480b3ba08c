/** The two sessions connected by the two channels, with anything failing at any time. Their joint runs
    without failures are the runs of the closed loop, step for step in both directions, so that what holds
    of the loop holds of them. What both read is the block repeated with any failures. */
module PingPongSystem {
  import opened Bytes
  import opened Duplex
  import L = PingPongLoop
  import D = PingPongDeadlock
  import S = ServerSession
  import C = ClientSession

  datatype System = System(client: C.Client, up: seq<byte>, server: S.Server, down: seq<byte>)

  datatype Event = OnClient(client: C.Event) | OnServer(server: S.Event)

  /** A connected client session and a started server session, with nothing on its way yet. */
  function Start(cfg: L.Config): System {
    System(C.JustConnected(|cfg.block|), [], S.Started(S.FRESH, false), [])
  }

  /** What the channels and the block sizes allow: a read takes a nonempty piece off the front of its
      channel, and a write puts a nonempty piece where there is room. A failure is always possible, and so
      is the posted deletion of the server session. */
  predicate Consistent(cfg: L.Config, y: System, e: Event) {
    match e
    case OnClient(ReadOk(data)) => data != [] && data <= y.down && |data| <= |cfg.block|
    case OnClient(Taken(n)) => n >= 1 && |y.up| + n <= cfg.upCap
    case OnServer(ReadOk(data)) => data != [] && data <= y.up && |data| <= cfg.serverBlock
    case OnServer(Taken(n)) => n >= 1 && |y.down| + n <= cfg.downCap
    case _ => true
  }

  /** Nothing fails, and the server session is not deleted. */
  predicate Smooth(e: Event) {
    match e
    case OnClient(c) => !c.ReadErr? && !c.WriteErr?
    case OnServer(s) => !s.ReadErr? && !s.WriteErr? && !s.Destroy?
  }

  predicate SmoothRun(run: seq<Event>) {
    forall i :: 0 <= i < |run| ==> Smooth(run[i])
  }

  predicate Enabled(cfg: L.Config, y: System, e: Event) {
    && Consistent(cfg, y, e)
    && match e
       case OnClient(c) => C.Enabled(|cfg.block|, y.client, c)
       case OnServer(s) => S.Enabled(y.server, s)
  }

  function Step(cfg: L.Config, y: System, e: Event): System
    requires Enabled(cfg, y, e)
  {
    match e
    case OnClient(c) =>
      var client := C.Step(|cfg.block|, y.client, c);
      (match c
       case ReadOk(data) => y.(client := client, down := y.down[|data|..])
       case Taken(n) => y.(client := client, up := y.up + y.client.end.writing.rest[..n])
       case _ => y.(client := client))
    case OnServer(s) =>
      var server := S.Step(y.server, s);
      match s
      case ReadOk(data) => y.(server := server, up := y.up[|data|..])
      case Taken(n) => y.(server := server, down := y.down + y.server.end.writing.rest[..n])
      case _ => y.(server := server)
  }

  predicate Legal(cfg: L.Config, y: System, run: seq<Event>)
    decreases run
  {
    run == [] || (Enabled(cfg, y, run[0]) && Legal(cfg, Step(cfg, y, run[0]), run[1..]))
  }

  function Exec(cfg: L.Config, y: System, run: seq<Event>): System
    requires Legal(cfg, y, run)
    decreases run
  {
    if run == [] then y else Exec(cfg, Step(cfg, y, run[0]), run[1..])
  }

  // ---------------------------------------------------------------------------------------------
  // The sessions and the loop.

  /** Both sessions run and nothing has failed. */
  predicate Live(y: System) {
    y.client.link.Connected? && y.server.started && !y.server.failed && !y.server.destroyed
  }

  /** The loop that the two sessions make, with all bytes either of them has read. */
  function LoopOf(y: System): L.Loop {
    L.Loop(y.client.end, y.up, y.server.end, y.down, y.server.input, y.client.input)
  }

  function ActionOf(e: Event): L.Action {
    match e
    case OnClient(ReadOk(data)) => L.ClientReads(|data|)
    case OnClient(Taken(n)) => L.ClientHands(n)
    case OnClient(_) => L.ClientWritten
    case OnServer(ReadOk(data)) => L.ServerReads(|data|)
    case OnServer(Taken(n)) => L.ServerHands(n)
    case OnServer(_) => L.ServerWritten
  }

  function EventOf(cfg: L.Config, s: L.Loop, a: L.Action): Event
    requires L.Enabled(cfg, s, a)
  {
    match a
    case ClientHands(n) => OnClient(C.Taken(n))
    case ClientWritten => OnClient(C.WriteOk)
    case ServerReads(n) => OnServer(S.ReadOk(s.up[..n]))
    case ServerHands(n) => OnServer(S.Taken(n))
    case ServerWritten => OnServer(S.WriteOk)
    case ClientReads(n) => OnClient(C.ReadOk(s.down[..n]))
  }

  lemma SessionsStartTheLoop(cfg: L.Config)
    requires cfg.Ok() && cfg.block == C.Pattern(|cfg.block|)
    ensures Live(Start(cfg)) && LoopOf(Start(cfg)) == L.Initial(cfg)
  {
  }

  lemma ClientStepIsLoopStep(cfg: L.Config, y: System, e: C.Event)
    requires Live(y) && Enabled(cfg, y, OnClient(e)) && Smooth(OnClient(e))
    ensures L.Enabled(cfg, LoopOf(y), ActionOf(OnClient(e)))
    ensures Live(Step(cfg, y, OnClient(e)))
    ensures LoopOf(Step(cfg, y, OnClient(e))) == L.Step(cfg, LoopOf(y), ActionOf(OnClient(e)))
  {
    if e.ReadOk? {
      assert y.down[..|e.data|] == e.data;
    }
  }

  lemma ServerStepIsLoopStep(cfg: L.Config, y: System, e: S.Event)
    requires Live(y) && Enabled(cfg, y, OnServer(e)) && Smooth(OnServer(e))
    ensures L.Enabled(cfg, LoopOf(y), ActionOf(OnServer(e)))
    ensures Live(Step(cfg, y, OnServer(e)))
    ensures LoopOf(Step(cfg, y, OnServer(e))) == L.Step(cfg, LoopOf(y), ActionOf(OnServer(e)))
  {
    if e.ReadOk? {
      assert y.up[..|e.data|] == e.data;
    }
  }

  /** Every failure-free event of either session that the channels allow is an enabled step of the loop,
      with the same effect. */
  lemma SessionStepIsLoopStep(cfg: L.Config, y: System, e: Event)
    requires Live(y) && Enabled(cfg, y, e) && Smooth(e)
    ensures L.Enabled(cfg, LoopOf(y), ActionOf(e))
    ensures Live(Step(cfg, y, e))
    ensures LoopOf(Step(cfg, y, e)) == L.Step(cfg, LoopOf(y), ActionOf(e))
  {
    match e
    case OnClient(c) => ClientStepIsLoopStep(cfg, y, c);
    case OnServer(s) => ServerStepIsLoopStep(cfg, y, s);
  }

  /** And every enabled step of the loop is such an event. */
  lemma StepFollows(cfg: L.Config, y: System, a: L.Action)
    requires Live(y) && L.Enabled(cfg, LoopOf(y), a)
    ensures
      var e := EventOf(cfg, LoopOf(y), a);
      && Enabled(cfg, y, e) && Smooth(e) && ActionOf(e) == a
      && Live(Step(cfg, y, e))
      && LoopOf(Step(cfg, y, e)) == L.Step(cfg, LoopOf(y), a)
  {
    var e := EventOf(cfg, LoopOf(y), a);
    assert Enabled(cfg, y, e) && Smooth(e) && ActionOf(e) == a;
    SessionStepIsLoopStep(cfg, y, e);
  }

  function ActionsOf(run: seq<Event>): seq<L.Action> {
    if run == [] then [] else [ActionOf(run[0])] + ActionsOf(run[1..])
  }

  /** Every joint run of the sessions without failures is a run of the loop, byte for byte. */
  lemma {:induction false} SessionRunIsLoopRun(cfg: L.Config, y: System, run: seq<Event>)
    requires Live(y) && Legal(cfg, y, run) && SmoothRun(run)
    ensures Live(Exec(cfg, y, run))
    ensures L.Legal(cfg, LoopOf(y), ActionsOf(run))
    ensures L.Exec(cfg, LoopOf(y), ActionsOf(run)) == LoopOf(Exec(cfg, y, run))
    decreases run
  {
    if run != [] {
      assert Smooth(run[0]) && forall i :: 0 <= i < |run[1..]| ==> run[1..][i] == run[i + 1];
      SessionStepIsLoopStep(cfg, y, run[0]);
      SessionRunIsLoopRun(cfg, Step(cfg, y, run[0]), run[1..]);
      assert ActionsOf(run)[1..] == ActionsOf(run[1..]);
    }
  }

  /** Every run of the loop is a joint run of the sessions, byte for byte. */
  lemma {:induction false} LoopRunIsSessionRun(cfg: L.Config, y: System, actions: seq<L.Action>)
    returns (run: seq<Event>)
    requires Live(y) && L.Legal(cfg, LoopOf(y), actions)
    ensures Legal(cfg, y, run) && SmoothRun(run) && ActionsOf(run) == actions
    ensures LoopOf(Exec(cfg, y, run)) == L.Exec(cfg, LoopOf(y), actions)
    decreases actions
  {
    if actions == [] {
      run := [];
    } else {
      var e := EventOf(cfg, LoopOf(y), actions[0]);
      StepFollows(cfg, y, actions[0]);
      var rest := LoopRunIsSessionRun(cfg, Step(cfg, y, e), actions[1..]);
      run := [e] + rest;
      assert run[1..] == rest;
    }
  }

  // The part of a joint run that one session takes.

  function ClientPart(run: seq<Event>): seq<C.Event> {
    if run == [] then []
    else (if run[0].OnClient? then [run[0].client] else []) + ClientPart(run[1..])
  }

  function ServerPart(run: seq<Event>): seq<S.Event> {
    if run == [] then []
    else (if run[0].OnServer? then [run[0].server] else []) + ServerPart(run[1..])
  }

  lemma {:induction false} ClientProjects(cfg: L.Config, y: System, run: seq<Event>)
    requires Legal(cfg, y, run)
    ensures C.Legal(|cfg.block|, y.client, ClientPart(run))
    ensures C.Exec(|cfg.block|, y.client, ClientPart(run)) == Exec(cfg, y, run).client
    decreases run
  {
    if run != [] {
      ClientProjects(cfg, Step(cfg, y, run[0]), run[1..]);
      if run[0].OnClient? {
        assert ClientPart(run)[1..] == ClientPart(run[1..]);
      } else {
        assert ClientPart(run) == ClientPart(run[1..]);
      }
    }
  }

  lemma {:induction false} ServerProjects(cfg: L.Config, y: System, run: seq<Event>)
    requires Legal(cfg, y, run)
    ensures S.Legal(y.server, ServerPart(run))
    ensures S.Exec(y.server, ServerPart(run)) == Exec(cfg, y, run).server
    decreases run
  {
    if run != [] {
      ServerProjects(cfg, Step(cfg, y, run[0]), run[1..]);
      if run[0].OnServer? {
        assert ServerPart(run)[1..] == ServerPart(run[1..]);
      } else {
        assert ServerPart(run) == ServerPart(run[1..]);
      }
    }
  }

  lemma {:induction false} SmoothProjects(run: seq<Event>)
    requires SmoothRun(run)
    ensures C.ErrorFree(ClientPart(run))
  {
    if run != [] {
      assert Smooth(run[0]);
      assert forall i :: 0 <= i < |run[1..]| ==> run[1..][i] == run[i + 1];
      SmoothProjects(run[1..]);
    }
  }

  /** Every joint run projects to a run of the client session and a run of the server session, which end in
      the states that the joint run ends in, and which have no errors if the joint run has none. */
  lemma {:induction false} RunProjects(cfg: L.Config, y: System, run: seq<Event>)
    requires Legal(cfg, y, run)
    ensures C.Legal(|cfg.block|, y.client, ClientPart(run))
    ensures C.Exec(|cfg.block|, y.client, ClientPart(run)) == Exec(cfg, y, run).client
    ensures S.Legal(y.server, ServerPart(run))
    ensures S.Exec(y.server, ServerPart(run)) == Exec(cfg, y, run).server
    ensures SmoothRun(run) ==> C.ErrorFree(ClientPart(run))
  {
    ClientProjects(cfg, y, run);
    ServerProjects(cfg, y, run);
    if SmoothRun(run) {
      SmoothProjects(run);
    }
  }

  // ---------------------------------------------------------------------------------------------
  // What the two sessions do together.

  /** In every joint run from the start without failures, the bytes in the channels and in the blocks of
      both sessions are the client's fill pattern, turned by as many places as the server has read. */
  lemma {:induction false} SessionsConserveThePattern(cfg: L.Config, run: seq<Event>)
    requires cfg.Ok() && cfg.block == C.Pattern(|cfg.block|) && Legal(cfg, Start(cfg), run)
    requires SmoothRun(run)
    ensures
      var y := Exec(cfg, Start(cfg), run);
      y.up + y.client.end.writing.Rest() + y.client.end.held
      + (y.down + y.server.end.writing.Rest() + y.server.end.held)
      == L.Rotate(cfg.block, |y.server.input| % |cfg.block|)
  {
    SessionsStartTheLoop(cfg);
    SessionRunIsLoopRun(cfg, Start(cfg), run);
    L.RingConservation(cfg, ActionsOf(run));
  }

  /** Neither session can do anything that the channels allow, short of failing. */
  ghost predicate Stalled(cfg: L.Config, y: System) {
    forall e: Event :: Smooth(e) ==> !Enabled(cfg, y, e)
  }

  lemma StalledIsStuck(cfg: L.Config, y: System)
    requires Live(y)
    ensures Stalled(cfg, y) <==> D.Stuck(cfg, LoopOf(y))
  {
    if !D.Stuck(cfg, LoopOf(y)) {
      var a :| L.Enabled(cfg, LoopOf(y), a);
      StepFollows(cfg, y, a);
    }
    if !Stalled(cfg, y) {
      var e :| Smooth(e) && Enabled(cfg, y, e);
      SessionStepIsLoopStep(cfg, y, e);
    }
  }

  ghost predicate CanStall(cfg: L.Config) {
    exists run :: Legal(cfg, Start(cfg), run) && SmoothRun(run) && Stalled(cfg, Exec(cfg, Start(cfg), run))
  }

  /** The sharp bound for the sessions themselves: they can stall each other exactly when the client's
      block is at least four bytes larger than both channels together. */
  lemma SessionsStallExactlyWhen(cfg: L.Config)
    requires cfg.Ok() && cfg.block == C.Pattern(|cfg.block|)
    ensures CanStall(cfg) <==> |cfg.block| >= cfg.upCap + cfg.downCap + 4
  {
    var y := Start(cfg);
    SessionsStartTheLoop(cfg);
    D.DeadlockBound(cfg);
    if CanStall(cfg) {
      var run :| Legal(cfg, y, run) && SmoothRun(run) && Stalled(cfg, Exec(cfg, y, run));
      SessionRunIsLoopRun(cfg, y, run);
      StalledIsStuck(cfg, Exec(cfg, y, run));
      assert D.Reaches(cfg, L.Initial(cfg), LoopOf(Exec(cfg, y, run)));
    }
    if D.CanDeadlock(cfg) {
      var s :| D.Reaches(cfg, L.Initial(cfg), s) && D.Stuck(cfg, s);
      var actions :| L.Legal(cfg, L.Initial(cfg), actions) && L.Exec(cfg, L.Initial(cfg), actions) == s;
      var run := LoopRunIsSessionRun(cfg, y, actions);
      SessionRunIsLoopRun(cfg, y, run);
      StalledIsStuck(cfg, Exec(cfg, y, run));
    }
  }

  // ---------------------------------------------------------------------------------------------
  // With any failures.

  /** The bytes the server has read, those on their way to it, and the rest of the client's write continue
      the block by what the client has read, and are all of that while the client has not failed. Likewise
      on the way back. */
  predicate Chained(cfg: L.Config, y: System) {
    && C.Inv(|cfg.block|, y.client) && S.Inv(y.server)
    && y.server.output == y.client.input + y.down
    && ClientOut(y) <= cfg.block + y.client.input
    && (Healthy(y.client.end) ==> ClientOut(y) + y.client.end.held == cfg.block + y.client.input)
  }

  /** Everything the client has sent or is about to send without further ado. */
  function ClientOut(y: System): seq<byte> {
    y.server.input + y.up + y.client.end.writing.Rest()
  }

  lemma ClientReadKeepsChain(cfg: L.Config, y: System, data: seq<byte>)
    requires Chained(cfg, y) && Enabled(cfg, y, OnClient(C.ReadOk(data)))
    ensures Chained(cfg, Step(cfg, y, OnClient(C.ReadOk(data))))
  {
    var z := Step(cfg, y, OnClient(C.ReadOk(data)));
    C.StepKeepsInv(|cfg.block|, y.client, C.ReadOk(data));
    assert data + z.down == y.down;
    assert z.client.input + z.down == y.client.input + (data + z.down);
    assert cfg.block + z.client.input == cfg.block + y.client.input + data;
    if Healthy(y.client.end) {
      assert y.server.input + y.up + [] == y.server.input + y.up;
    }
  }

  lemma ClientSendKeepsChain(cfg: L.Config, y: System, e: C.Event)
    requires Chained(cfg, y) && Enabled(cfg, y, OnClient(e)) && !e.ReadOk?
    ensures Chained(cfg, Step(cfg, y, OnClient(e)))
  {
    var z := Step(cfg, y, OnClient(e));
    C.StepKeepsInv(|cfg.block|, y.client, e);
    assert y.server.input + y.up <= ClientOut(y);
    if e.Taken? {
      L.Joined(y.server.input + y.up, y.client.end.writing.rest, e.n);
      assert y.server.input + z.up == y.server.input + y.up + y.client.end.writing.rest[..e.n];
      assert ClientOut(z) == ClientOut(y);
    }
  }

  /** A step of the server that leaves the bytes in the right places keeps the chain. */
  lemma ServerSideKeepsChain(cfg: L.Config, y: System, z: System)
    requires Chained(cfg, y) && z.client == y.client && S.Inv(z.server)
    requires z.server.output == y.client.input + z.down
    requires z.server.input + z.up == y.server.input + y.up
    ensures Chained(cfg, z)
  {
  }

  lemma ServerStepKeepsChain(cfg: L.Config, y: System, e: S.Event)
    requires Chained(cfg, y) && Enabled(cfg, y, OnServer(e))
    ensures Chained(cfg, Step(cfg, y, OnServer(e)))
  {
    var z := Step(cfg, y, OnServer(e));
    assert S.Inv(z.server) by { S.StepKeepsInv(y.server, e); }
    match e {
      case ReadOk(data) =>
        assert data + z.up == y.up;
        assert z.server.input + z.up == y.server.input + (data + z.up);
      case Taken(n) =>
        assert z.server.output == y.client.input + (y.down + y.server.end.writing.rest[..n]);
      case _ =>
    }
    ServerSideKeepsChain(cfg, y, z);
  }

  lemma {:induction false} RunKeepsChain(cfg: L.Config, y: System, run: seq<Event>)
    requires Chained(cfg, y) && Legal(cfg, y, run)
    ensures Chained(cfg, Exec(cfg, y, run))
    decreases run
  {
    if run != [] {
      match run[0] {
        case OnClient(ReadOk(data)) => ClientReadKeepsChain(cfg, y, data);
        case OnClient(e) => ClientSendKeepsChain(cfg, y, e);
        case OnServer(e) => ServerStepKeepsChain(cfg, y, e);
      }
      RunKeepsChain(cfg, Step(cfg, y, run[0]), run[1..]);
    }
  }

  lemma EchoAt(block: seq<byte>, got: seq<byte>, back: seq<byte>, i: nat)
    requires back <= got <= block + back && i < |got|
    ensures |back| <= |got| <= |block| + |back|
    ensures got[i] == if i < |block| then block[i] else got[i - |block|]
  {
    assert got[i] == (block + back)[i];
  }

  /** What echoes itself behind a block is the block repeated. */
  lemma {:induction false} EchoRepeats(block: seq<byte>, got: seq<byte>, back: seq<byte>, i: nat)
    requires block != [] && back <= got <= block + back && i < |got|
    ensures got[i] == block[i % |block|]
    decreases i
  {
    EchoAt(block, got, back, i);
    if i >= |block| {
      EchoRepeats(block, got, back, i - |block|);
      L.ModShift(i - |block|, |block|);
    } else {
      L.ModIs(i, 0, i, |block|);
    }
  }

  /** In every joint run, whatever fails in it and when, the i-th byte that either session reads is the one
      that the client's fill loop put at position i modulo the block size, what the client has read is a
      prefix of what the server has, and the server is never more than one block ahead. */
  lemma {:induction false} PatternComesBack(cfg: L.Config, run: seq<Event>, i: nat)
    requires cfg.Ok() && cfg.block == C.Pattern(|cfg.block|) && Legal(cfg, Start(cfg), run)
    ensures
      var y := Exec(cfg, Start(cfg), run);
      && (i < |y.client.input| ==> y.client.input[i] == C.PatternByte(i % |cfg.block|))
      && (i < |y.server.input| ==> y.server.input[i] == C.PatternByte(i % |cfg.block|))
      && y.client.input <= y.server.input <= cfg.block + y.client.input
  {
    var y := Exec(cfg, Start(cfg), run);
    assert ClientOut(Start(cfg)) == cfg.block + [];
    RunKeepsChain(cfg, Start(cfg), run);
    assert y.client.input <= y.server.output <= y.server.input;
    assert y.server.input <= ClientOut(y);
    if i < |y.server.input| {
      EchoRepeats(cfg.block, y.server.input, y.client.input, i);
    }
  }
}
