/** When the closed loop can come to a standstill: exactly when the first block exceeds what the two
    channels and three more bytes can hold. */
module PingPongDeadlock {
  import opened Duplex
  import opened PingPongLoop

  ghost predicate Stuck(cfg: Config, s: Loop) {
    forall a: Action :: !Enabled(cfg, s, a)
  }

  ghost predicate Reaches(cfg: Config, s: Loop, t: Loop) {
    exists run :: Legal(cfg, s, run) && Exec(cfg, s, run) == t
  }

  /** Some run from the connected start comes to a standstill. */
  ghost predicate CanDeadlock(cfg: Config) {
    exists s :: Reaches(cfg, Initial(cfg), s) && Stuck(cfg, s)
  }

  /** In a standstill both sides hold a read behind an unfinished write and both channels are full. */
  lemma StandstillShape(cfg: Config, s: Loop)
    requires Inv(cfg, s) && Stuck(cfg, s)
    ensures s.client.count == 2 && s.server.count == 2
    ensures |s.up| == cfg.upCap && |s.down| == cfg.downCap
    ensures s.client.writing.Rest() != [] && s.client.held != []
    ensures s.server.writing.Rest() != [] && s.server.held != []
    ensures |cfg.block| >= cfg.upCap + cfg.downCap + 4
  {
    assert !Enabled(cfg, s, ClientHands(1));
    assert !Enabled(cfg, s, ClientWritten);
    assert !Enabled(cfg, s, ServerReads(1));
    assert !Enabled(cfg, s, ServerHands(1));
    assert !Enabled(cfg, s, ServerWritten);
    assert !Enabled(cfg, s, ClientReads(1));
    assert |Ring(s)| == |cfg.block|;
  }

  // ---------------------------------------------------------------------------------------------
  // The other direction: driving the loop into a standstill.

  lemma Refl(cfg: Config, s: Loop)
    ensures Reaches(cfg, s, s)
  {
    assert Legal(cfg, s, []) && Exec(cfg, s, []) == s;
  }

  lemma One(cfg: Config, s: Loop, a: Action)
    requires Enabled(cfg, s, a)
    ensures Reaches(cfg, s, Step(cfg, s, a))
  {
    var t := Step(cfg, s, a);
    assert Legal(cfg, t, []) && Exec(cfg, t, []) == t;
    assert [a][1..] == [];
    assert Legal(cfg, s, [a]) && Exec(cfg, s, [a]) == t;
  }

  lemma {:induction false} ExecConcat(cfg: Config, s: Loop, run: seq<Action>, more: seq<Action>)
    requires Legal(cfg, s, run) && Legal(cfg, Exec(cfg, s, run), more)
    ensures Legal(cfg, s, run + more)
    ensures Exec(cfg, s, run + more) == Exec(cfg, Exec(cfg, s, run), more)
    decreases run
  {
    if run == [] {
      assert run + more == more;
    } else {
      ExecConcat(cfg, Step(cfg, s, run[0]), run[1..], more);
      assert (run + more)[1..] == run[1..] + more;
    }
  }

  lemma Trans(cfg: Config, s: Loop, t: Loop, u: Loop)
    requires Reaches(cfg, s, t) && Reaches(cfg, t, u)
    ensures Reaches(cfg, s, u)
  {
    var run :| Legal(cfg, s, run) && Exec(cfg, s, run) == t;
    var more :| Legal(cfg, t, more) && Exec(cfg, t, more) == u;
    ExecConcat(cfg, s, run, more);
  }

  lemma Then(cfg: Config, s: Loop, t: Loop, a: Action) returns (u: Loop)
    requires Reaches(cfg, s, t) && Enabled(cfg, t, a)
    ensures u == Step(cfg, t, a) && Reaches(cfg, s, u)
  {
    u := Step(cfg, t, a);
    One(cfg, t, a);
    Trans(cfg, s, t, u);
  }

  /** The client still has `left` bytes of its write to hand over and the server has echoed
      everything it read: nothing is on its way up. */
  predicate Echoed(s: Loop, left: nat, down: nat) {
    && s.client.writing.Busy? && |s.client.writing.rest| == left
    && s.up == [] && s.server == LISTENING
    && |s.down| == down
  }

  /** One byte goes up, through the server, and down. */
  lemma OneByteRound(cfg: Config, s: Loop, left: nat, down: nat) returns (t: Loop)
    requires cfg.Ok() && Echoed(s, left, down) && left >= 1 && down < cfg.downCap
    ensures Reaches(cfg, s, t) && Echoed(t, left - 1, down + 1)
    ensures t.client.(writing := Idle) == s.client.(writing := Idle)
  {
    Refl(cfg, s);
    t := Then(cfg, s, s, ClientHands(1));
    t := Then(cfg, s, t, ServerReads(1));
    t := Then(cfg, s, t, ServerHands(1));
    t := Then(cfg, s, t, ServerWritten);
  }

  /** Fill the channel down, byte by byte. */
  lemma {:induction false} FillDown(cfg: Config, s: Loop, left: nat, down: nat) returns (t: Loop)
    requires cfg.Ok() && Echoed(s, left, down)
    requires down <= cfg.downCap <= left + down
    ensures Reaches(cfg, s, t) && Echoed(t, left + down - cfg.downCap, cfg.downCap)
    ensures t.client.(writing := Idle) == s.client.(writing := Idle)
    decreases cfg.downCap - down
  {
    if down == cfg.downCap {
      Refl(cfg, s);
      t := s;
    } else {
      var u := OneByteRound(cfg, s, left, down);
      t := FillDown(cfg, u, left - 1, down + 1);
      Trans(cfg, s, u, t);
    }
  }

  /** With the channel down full, two more bytes clog the server and then the channel up fills. */
  lemma Clog(cfg: Config, s: Loop, left: nat) returns (t: Loop)
    requires cfg.Ok() && Echoed(s, left, cfg.downCap) && left >= cfg.upCap + 3
    requires s.client.count == 2 && !s.client.reading
    ensures Reaches(cfg, s, t) && Stuck(cfg, t)
  {
    Refl(cfg, s);
    t := Then(cfg, s, s, ClientHands(1));
    t := Then(cfg, s, t, ServerReads(1));
    t := Then(cfg, s, t, ClientHands(1));
    t := Then(cfg, s, t, ServerReads(1));
    t := Then(cfg, s, t, ClientHands(cfg.upCap));
  }

  lemma LargeBlockDeadlocks(cfg: Config)
    requires cfg.Ok() && |cfg.block| >= cfg.upCap + cfg.downCap + 4
    ensures CanDeadlock(cfg)
  {
    var s := Initial(cfg);
    var size := |cfg.block|;
    // The client gets one byte back and holds it behind its own unfinished write.
    var t := OneByteRound(cfg, s, size, 0);
    t := Then(cfg, s, t, ClientReads(1));
    var u := FillDown(cfg, t, size - 1, 0);
    Trans(cfg, s, t, u);
    var v := Clog(cfg, u, size - 1 - cfg.downCap);
    Trans(cfg, s, u, v);
  }

  /** The sharp bound, for every capacity and every server block size: a standstill can be reached if
      and only if the client's block is at least four bytes larger than both channels together. */
  lemma DeadlockBound(cfg: Config)
    requires cfg.Ok()
    ensures CanDeadlock(cfg) <==> |cfg.block| >= cfg.upCap + cfg.downCap + 4
  {
    if |cfg.block| >= cfg.upCap + cfg.downCap + 4 {
      LargeBlockDeadlocks(cfg);
    } else if CanDeadlock(cfg) {
      var s :| Reaches(cfg, Initial(cfg), s) && Stuck(cfg, s);
      var run :| Legal(cfg, Initial(cfg), run) && Exec(cfg, Initial(cfg), run) == s;
      InitialInv(cfg);
      RunKeepsInv(cfg, Initial(cfg), run);
      StandstillShape(cfg, s);
    }
  }
}
