/** The double-buffered echo protocol that the ping-pong server session and the ping-pong client
    session share: at most one read and one write outstanding, two blocks that trade places, and a
    count that decides when they may. */
module Duplex {

  import opened Bytes

  /** The write an endpoint has outstanding, split at what the kernel has already taken. */
  datatype WriteOp = Idle | Busy(sent: seq<byte>, rest: seq<byte>)
  {
    function Rest(): seq<byte> {
      if Idle? then [] else rest
    }

    function Size(): nat {
      if Idle? then 0 else |sent| + |rest|
    }
  }

  /** One endpoint. `held` is the completed read that still waits for the write to finish. */
  datatype Endpoint = Endpoint(count: int, held: seq<byte>, reading: bool, writing: WriteOp)

  /** What a server session looks like once its first read is started. */
  const LISTENING := Endpoint(0, [], true, Idle)

  /** What a client session looks like once it is connected and its block is on its way. */
  function Opening(block: seq<byte>): Endpoint {
    Endpoint(1, [], true, Busy([], block))
  }

  function Outstanding(e: Endpoint): nat {
    (if e.reading then 1 else 0) + (if e.writing.Busy? then 1 else 0)
  }

  /** A read has delivered `data`: write it back now if no write is in flight, hold it otherwise. */
  function ReadDone(e: Endpoint, data: seq<byte>): Endpoint {
    if e.count + 1 == 1 then Endpoint(1, [], true, Busy([], data))
    else Endpoint(e.count + 1, data, false, e.writing)
  }

  /** A write is through: start on the held read, if there is one. */
  function WriteDone(e: Endpoint): Endpoint {
    if e.count - 1 == 1 then Endpoint(1, [], true, Busy([], e.held))
    else Endpoint(e.count - 1, e.held, e.reading, Idle)
  }

  function ReadFailed(e: Endpoint): Endpoint {
    e.(reading := false)
  }

  function WriteFailed(e: Endpoint): Endpoint {
    e.(writing := Idle)
  }

  /** The kernel takes the next `n` bytes of the outstanding write. */
  function Hand(e: Endpoint, n: nat): Endpoint
    requires e.writing.Busy? && n <= |e.writing.rest|
  {
    e.(writing := Busy(e.writing.sent + e.writing.rest[..n], e.writing.rest[n..]))
  }

  /** The shapes an endpoint takes while nothing has failed. */
  predicate Healthy(e: Endpoint) {
    || (e.count == 0 && e.reading && e.writing.Idle? && e.held == [])
    || (e.count == 1 && e.reading && e.writing.Busy? && e.held == [])
    || (e.count == 2 && !e.reading && e.writing.Busy?)
  }

  /** The shapes left after a failed completion: whatever is still outstanding ends the session. */
  predicate Winding(e: Endpoint) {
    && 0 <= e.count <= 2
    && (e.reading ==> e.count == 1 && e.writing.Idle?)
    && (e.writing.Busy? ==> e.count == 1 && !e.reading && e.held == [])
    && (e.count < 2 ==> e.held == [])
  }

  /** The operating system fills the front of a block it was given. */
  method Fill(block: array<byte>, data: seq<byte>)
    requires |data| <= block.Length
    modifies block
    ensures block[..|data|] == data
  {
    forall i | 0 <= i < |data| {
      block[i] := data[i];
    }
  }
}
