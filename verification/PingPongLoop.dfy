/** The closed loop: a connected client session, a started server session, and the two byte channels
    between them, with nothing failing. The kernel decides how many bytes each transfer moves. */
module PingPongLoop {
  import opened Bytes
  import opened Duplex

  /** The client's first block, the server's block size, and how much each channel can hold. */
  datatype Config = Config(block: seq<byte>, serverBlock: nat, upCap: nat, downCap: nat)
  {
    predicate Ok() {
      block != [] && serverBlock >= 1 && upCap >= 1 && downCap >= 1
    }
  }

  /** `up` runs from client to server and `down` back. `serverGot` and `clientGot` are everything the
      completed reads of either side have delivered. */
  datatype Loop = Loop(
    client: Endpoint,
    up: seq<byte>,
    server: Endpoint,
    down: seq<byte>,
    serverGot: seq<byte>,
    clientGot: seq<byte>)

  function Initial(cfg: Config): Loop {
    Loop(Opening(cfg.block), [], LISTENING, [], [], [])
  }

  datatype Action =
    | ClientHands(n: nat)
    | ClientWritten
    | ServerReads(n: nat)
    | ServerHands(n: nat)
    | ServerWritten
    | ClientReads(n: nat)

  predicate CanHand(e: Endpoint, n: nat, used: nat, cap: nat) {
    e.writing.Busy? && 1 <= n <= |e.writing.rest| && used + n <= cap
  }

  predicate CanFinish(e: Endpoint) {
    e.writing.Busy? && e.writing.rest == []
  }

  predicate CanRead(e: Endpoint, n: nat, available: nat, block: nat) {
    e.reading && 1 <= n <= available && n <= block
  }

  predicate Enabled(cfg: Config, s: Loop, a: Action) {
    match a
    case ClientHands(n) => CanHand(s.client, n, |s.up|, cfg.upCap)
    case ClientWritten => CanFinish(s.client)
    case ServerReads(n) => CanRead(s.server, n, |s.up|, cfg.serverBlock)
    case ServerHands(n) => CanHand(s.server, n, |s.down|, cfg.downCap)
    case ServerWritten => CanFinish(s.server)
    case ClientReads(n) => CanRead(s.client, n, |s.down|, |cfg.block|)
  }

  /** The client's write handler ignores a write of no bytes; the server's does not look. */
  function ClientWriteDone(e: Endpoint): Endpoint {
    if e.writing.Size() > 0 then WriteDone(WriteFailed(e)) else WriteFailed(e)
  }

  function Step(cfg: Config, s: Loop, a: Action): Loop
    requires Enabled(cfg, s, a)
  {
    match a
    case ClientHands(n) => s.(client := Hand(s.client, n), up := s.up + s.client.writing.rest[..n])
    case ClientWritten => s.(client := ClientWriteDone(s.client))
    case ServerReads(n) =>
      s.(server := ReadDone(ReadFailed(s.server), s.up[..n]), up := s.up[n..],
         serverGot := s.serverGot + s.up[..n])
    case ServerHands(n) => s.(server := Hand(s.server, n), down := s.down + s.server.writing.rest[..n])
    case ServerWritten => s.(server := WriteDone(WriteFailed(s.server)))
    case ClientReads(n) =>
      s.(client := ReadDone(ReadFailed(s.client), s.down[..n]), down := s.down[n..],
         clientGot := s.clientGot + s.down[..n])
  }

  predicate Legal(cfg: Config, s: Loop, run: seq<Action>)
    decreases run
  {
    run == [] || (Enabled(cfg, s, run[0]) && Legal(cfg, Step(cfg, s, run[0]), run[1..]))
  }

  function Exec(cfg: Config, s: Loop, run: seq<Action>): Loop
    requires Legal(cfg, s, run)
    decreases run
  {
    if run == [] then s else Exec(cfg, Step(cfg, s, run[0]), run[1..])
  }

  // ---------------------------------------------------------------------------------------------
  // Rotation and repetition of a block.

  function Rotate(block: seq<byte>, k: nat): seq<byte>
    requires k <= |block|
  {
    block[k..] + block[..k]
  }

  /** The first `m` bytes of the block repeated for ever. */
  function Cycle(block: seq<byte>, m: nat): seq<byte>
    requires block != []
  {
    seq(m, i requires 0 <= i => block[i % |block|])
  }

  /** `a % size` is the only remainder below `size`. */
  lemma ModIs(a: nat, q: int, r: nat, size: nat)
    requires r < size && a == q * size + r
    ensures a % size == r
  {
    var d := a / size - q;
    assert d * size == r - a % size by {
      assert a == a / size * size + a % size;
      assert d * size == a / size * size - q * size;
    }
    if d >= 1 {
      Multiple(d, size);
    } else if d <= -1 {
      Multiple(-d, size);
    }
  }

  lemma Multiple(d: int, size: nat)
    requires d >= 1
    ensures d * size >= size
  {
  }

  lemma ModShift(m: nat, size: nat)
    requires size > 0
    ensures (m + size) % size == m % size
  {
    assert m + size == (m / size + 1) * size + m % size;
    ModIs(m + size, m / size + 1, m % size, size);
  }

  lemma ModStep(m: nat, n: nat, size: nat)
    requires size > 0
    ensures (m % size + n) % size == (m + n) % size
  {
    var x := m % size + n;
    assert m + n == m / size * size + x;
    assert x == x / size * size + x % size;
    assert m + n == (m / size + x / size) * size + x % size;
    ModIs(m + n, m / size + x / size, x % size, size);
  }

  lemma RotateTwice(block: seq<byte>, k: nat, n: nat)
    requires k < |block| && n <= |block|
    ensures Rotate(Rotate(block, k), n) == Rotate(block, (k + n) % |block|)
  {
    var size := |block|;
    if k + n < size {
      ModIs(k + n, 0, k + n, size);
      assert Rotate(block, k)[n..] == block[k + n..] + block[..k];
    } else {
      var m := k + n - size;
      ModIs(k + n, 1, m, size);
      assert Rotate(block, k)[n..] == block[m..k];
      assert Rotate(block, k)[..n] == block[k..] + block[..m];
      assert block[m..k] + block[k..] == block[m..];
    }
  }

  /** Position `j` of a block rotated by `m` is what the repeated block has at `m + j`. */
  lemma RotateAt(block: seq<byte>, m: nat, j: nat)
    requires block != [] && j < |block|
    ensures Rotate(block, m % |block|)[j] == block[(m + j) % |block|]
  {
    var size := |block|;
    var k := m % size;
    ModStep(m, j, size);
    if k + j < size {
      ModIs(k + j, 0, k + j, size);
    } else {
      ModIs(k + j, 1, k + j - size, size);
    }
  }

  // ---------------------------------------------------------------------------------------------
  // The ring.

  /** All bytes in the loop, from the next one the server will read round to the last one it read. */
  function Ring(s: Loop): seq<byte> {
    ClientSide(s) + ServerSide(s)
  }

  function ClientSide(s: Loop): seq<byte> {
    s.up + s.client.writing.Rest() + s.client.held
  }

  function ServerSide(s: Loop): seq<byte> {
    s.down + s.server.writing.Rest() + s.server.held
  }

  predicate Inv(cfg: Config, s: Loop) {
    && cfg.Ok()
    && Healthy(s.client) && Healthy(s.server)
    && (s.client.writing.Busy? ==> s.client.writing.Size() > 0)
    && (s.client.count == 2 ==> s.client.held != [])
    && (s.server.count == 2 ==> s.server.held != [])
    && |s.up| <= cfg.upCap && |s.down| <= cfg.downCap
    && Ring(s) == Rotate(cfg.block, |s.serverGot| % |cfg.block|)
    && s.serverGot == Cycle(cfg.block, |s.serverGot|)
    && s.clientGot == Cycle(cfg.block, |s.clientGot|)
    && |s.serverGot| == |s.clientGot| + |ServerSide(s)|
  }

  /** A step that neither side's reads take part in leaves the ring as it is. */
  lemma HandingKeepsRing(cfg: Config, s: Loop, a: Action)
    requires Inv(cfg, s) && Enabled(cfg, s, a)
    requires !a.ServerReads? && !a.ClientReads?
    ensures ClientSide(Step(cfg, s, a)) == ClientSide(s)
    ensures ServerSide(Step(cfg, s, a)) == ServerSide(s)
  {
    match a
    case ClientHands(n) => Joined(s.up, s.client.writing.rest, n);
    case ServerHands(n) => Joined(s.down, s.server.writing.rest, n);
    case _ =>
  }

  lemma Joined(channel: seq<byte>, rest: seq<byte>, n: nat)
    requires n <= |rest|
    ensures channel + rest[..n] + rest[n..] == channel + rest
  {
    assert rest[..n] + rest[n..] == rest;
  }

  /** The bytes a read takes off the ring at position `at` continue the repeated block. */
  lemma NextBytes(block: seq<byte>, m: nat, at: nat, n: nat, got: seq<byte>)
    requires block != [] && at + n <= |block|
    requires got == Cycle(block, |got|)
    requires |got| == m + at || |got| + |block| == m + at
    ensures got + Rotate(block, m % |block|)[at..at + n] == Cycle(block, |got| + n)
  {
    var ring := Rotate(block, m % |block|);
    var longer := got + ring[at..at + n];
    forall i | 0 <= i < |longer|
      ensures longer[i] == block[i % |block|]
    {
      if i >= |got| {
        var j := at + i - |got|;
        assert longer[i] == ring[j];
        RotateAt(block, m, j);
        if |got| + |block| == m + at {
          ModShift(i, |block|);
          assert m + j == i + |block|;
        }
      }
    }
    assert longer == Cycle(block, |got| + n);
  }

  lemma ServerReadTurnsRing(cfg: Config, s: Loop, n: nat)
    requires Healthy(s.server) && Enabled(cfg, s, ServerReads(n))
    ensures
      var t := Step(cfg, s, ServerReads(n));
      && n <= |Ring(s)|
      && Ring(t) == Rotate(Ring(s), n)
      && Ring(s)[0..n] == s.up[..n]
      && |ServerSide(t)| == |ServerSide(s)| + n
  {
    var t := Step(cfg, s, ServerReads(n));
    assert ServerSide(t) == ServerSide(s) + s.up[..n];
    assert s.up[..n] + ClientSide(t) == ClientSide(s);
    assert Ring(s)[n..] == ClientSide(t) + ServerSide(s);
  }

  lemma TurnedRing(cfg: Config, m: nat, ring: seq<byte>, n: nat)
    requires cfg.Ok() && ring == Rotate(cfg.block, m % |cfg.block|) && n <= |ring|
    ensures Rotate(ring, n) == Rotate(cfg.block, (m + n) % |cfg.block|)
  {
    RotateTwice(cfg.block, m % |cfg.block|, n);
    ModStep(m, n, |cfg.block|);
  }

  lemma ServerReadsOn(cfg: Config, s: Loop, n: nat)
    requires Inv(cfg, s) && Enabled(cfg, s, ServerReads(n))
    ensures
      var t := Step(cfg, s, ServerReads(n));
      && |t.serverGot| == |s.serverGot| + n
      && t.serverGot == Cycle(cfg.block, |t.serverGot|)
  {
    ServerReadTurnsRing(cfg, s, n);
    NextBytes(cfg.block, |s.serverGot|, 0, n, s.serverGot);
  }

  lemma ServerReadKeepsInv(cfg: Config, s: Loop, n: nat)
    requires Inv(cfg, s) && Enabled(cfg, s, ServerReads(n))
    ensures Inv(cfg, Step(cfg, s, ServerReads(n)))
  {
    ServerReadTurnsRing(cfg, s, n);
    TurnedRing(cfg, |s.serverGot|, Ring(s), n);
    ServerReadsOn(cfg, s, n);
  }

  lemma ClientReadKeepsRing(cfg: Config, s: Loop, n: nat)
    requires Healthy(s.client) && Enabled(cfg, s, ClientReads(n))
    ensures
      var t := Step(cfg, s, ClientReads(n));
      && |ClientSide(s)| + n <= |Ring(s)|
      && Ring(t) == Ring(s)
      && Ring(s)[|ClientSide(s)|..|ClientSide(s)| + n] == s.down[..n]
      && |ServerSide(t)| + n == |ServerSide(s)|
  {
    var t := Step(cfg, s, ClientReads(n));
    assert ClientSide(t) == ClientSide(s) + s.down[..n];
    assert s.down[..n] + ServerSide(t) == ServerSide(s);
  }

  lemma ClientReadKeepsInv(cfg: Config, s: Loop, n: nat)
    requires Inv(cfg, s) && Enabled(cfg, s, ClientReads(n))
    ensures Inv(cfg, Step(cfg, s, ClientReads(n)))
  {
    var t := Step(cfg, s, ClientReads(n));
    ClientReadKeepsRing(cfg, s, n);
    NextBytes(cfg.block, |s.serverGot|, |ClientSide(s)|, n, s.clientGot);
    assert t.clientGot == Cycle(cfg.block, |t.clientGot|);
  }

  lemma StepKeepsInv(cfg: Config, s: Loop, a: Action)
    requires Inv(cfg, s) && Enabled(cfg, s, a)
    ensures Inv(cfg, Step(cfg, s, a))
  {
    match a
    case ServerReads(n) => ServerReadKeepsInv(cfg, s, n);
    case ClientReads(n) => ClientReadKeepsInv(cfg, s, n);
    case _ => HandingKeepsRing(cfg, s, a);
  }

  lemma InitialInv(cfg: Config)
    requires cfg.Ok()
    ensures Inv(cfg, Initial(cfg))
  {
    assert Ring(Initial(cfg)) == cfg.block == Rotate(cfg.block, 0);
  }

  lemma {:induction false} RunKeepsInv(cfg: Config, s: Loop, run: seq<Action>)
    requires Inv(cfg, s) && Legal(cfg, s, run)
    ensures Inv(cfg, Exec(cfg, s, run))
    decreases run
  {
    if run != [] {
      StepKeepsInv(cfg, s, run[0]);
      RunKeepsInv(cfg, Step(cfg, s, run[0]), run[1..]);
    }
  }

  /** Ring conservation: whatever the chunking, the bytes in the loop are the first block turned by
      as many places as the server has read; none is lost, duplicated or overtaken. */
  lemma {:induction false} RingConservation(cfg: Config, run: seq<Action>)
    requires cfg.Ok() && Legal(cfg, Initial(cfg), run)
    ensures
      var s := Exec(cfg, Initial(cfg), run);
      s.up + s.client.writing.Rest() + s.client.held + (s.down + s.server.writing.Rest() + s.server.held)
      == Rotate(cfg.block, |s.serverGot| % |cfg.block|)
  {
    InitialInv(cfg);
    RunKeepsInv(cfg, Initial(cfg), run);
  }

  /** Hence either side reads the first block over and over, byte for byte. */
  lemma {:induction false} BothSidesReadTheBlockRepeated(cfg: Config, run: seq<Action>, i: nat)
    requires cfg.Ok() && Legal(cfg, Initial(cfg), run)
    ensures
      var s := Exec(cfg, Initial(cfg), run);
      && (i < |s.serverGot| ==> s.serverGot[i] == cfg.block[i % |cfg.block|])
      && (i < |s.clientGot| ==> s.clientGot[i] == cfg.block[i % |cfg.block|])
      && |s.clientGot| <= |s.serverGot| <= |s.clientGot| + |cfg.block|
  {
    InitialInv(cfg);
    RunKeepsInv(cfg, Initial(cfg), run);
  }
}
