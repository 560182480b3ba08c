/** The library's own echo program, example/echo.cpp, on top of a connection: every message callback
    writes all readable bytes and discards them, and the other callbacks do nothing. */
module EchoServer {
  import opened Bytes
  import opened ByteBuffer
  import opened EvtChannel
  import opened ConnectionSpec
  import opened ConnectionScripts
  import opened ConnectionRuns
  import opened ConnectionEffects

  /** What recv returns; `answer` is the kernel's answer to the callback's write. */
  datatype Incoming = Got(data: seq<byte>, answer: Answer) | End | Error(answer: Answer)

  /** The connection is reported ready or, later, processed. */
  datatype Turn = Ready(flags: set<Flag>) | Handled(incoming: Incoming, flush: Answer)

  /** on_msg for the given readable bytes. */
  function OnMessage(readable: seq<byte>, answer: Answer): Script {
    Then(Write(readable, answer, Done), Then(Consume(|readable|), Done))
  }

  /** The message callback runs after a failed read as well; nothing is readable then. */
  function ArrivalOf(incoming: Incoming): Arrival {
    match incoming
    case Got(data, answer) => Received(data, OnMessage(Front(data, MAX_READ), answer))
    case End => Eof(Done, Done)
    case Error(answer) => RecvFailed(OnMessage([], answer))
  }

  function EventOf(t: Turn): Event {
    match t
    case Ready(flags) => Report(flags)
    case Handled(incoming, flush) => Process(Plan(Done, Done, ArrivalOf(incoming), flush, Done))
  }

  function Events(turns: seq<Turn>): seq<Event> {
    if turns == [] then [] else [EventOf(turns[0])] + Events(turns[1..])
  }

  /** Everything received has been written and nothing is left to be read. */
  predicate Echoing(c: Conn) {
    c.submitted == c.received && c.inbox == []
  }

  lemma WriteWithoutCallback(c: Conn, data: seq<byte>, answer: Answer)
    ensures
      var d := WriteInLoop(c, data, answer, Done);
      d.submitted == c.submitted + data && d.inbox == c.inbox && d.received == c.received
  {
    if c.cache == [] {
      match answer
      case Again =>
      case Refused => assert Play(Dropped(c, data), Done) == Dropped(c, data);
      case Took(n) =>
        var d := SentDirectly(c, data, Min(n, |data|));
        assert Play(d, Done) == d;
    }
  }

  lemma OnMessageEchoes(c: Conn, readable: seq<byte>, answer: Answer)
    requires c.submitted + readable == c.received && c.inbox == readable
    ensures Echoing(Play(c, OnMessage(readable, answer)))
  {
    WriteWithoutCallback(c, readable, answer);
    var d := Perform(c, Write(readable, answer, Done));
    var e := Perform(d, Consume(|readable|));
    assert After(readable, |readable|) == [];
    assert Play(c, OnMessage(readable, answer)) == Play(e, Done) == e;
  }

  lemma CloseEchoes(c: Conn)
    requires Echoing(c)
    ensures Echoing(HandleClose(c, Done))
  {
    assert Play(Closing(c), Done) == Closing(c);
  }

  lemma FlushEchoes(c: Conn, answer: Answer)
    requires Echoing(c)
    ensures Echoing(HandleWrite(c, answer, Done))
  {
    match answer
    case Again =>
    case Refused => assert Play(c, Done) == c;
    case Took(n) =>
      var d := Flushed(c, Min(n, |c.cache|));
      assert Play(d, Done) == d;
  }

  lemma ReadEchoes(c: Conn, incoming: Incoming)
    requires Echoing(c)
    ensures Echoing(HandleRead(c, ArrivalOf(incoming)))
  {
    match incoming
    case Got(data, answer) =>
      assert [] + Front(data, MAX_READ) == Front(data, MAX_READ);
      OnMessageEchoes(Arrived(c, data), Front(data, MAX_READ), answer);
    case End =>
      assert Play(c, Done) == c;
      CloseEchoes(c);
    case Error(answer) =>
      assert c.submitted + [] == c.submitted;
      OnMessageEchoes(c, [], answer);
  }

  lemma TurnEchoes(c: Conn, t: Turn)
    requires Echoing(c)
    ensures Echoing(Step(c, EventOf(t)))
  {
    if t.Handled? && c.active {
      var plan := EventOf(t).plan;
      var c0 := c.(active := false);
      CloseEchoes(c0);
      var c1 := OnHangup(c0, plan);
      assert Play(c1, Done) == c1;
      var c2 := OnError(c1, plan);
      ReadEchoes(c2, t.incoming);
      var c3 := OnReadable(c2, plan);
      FlushEchoes(Progressed(c3), t.flush);
    }
  }

  lemma {:induction false} TurnsEcho(c: Conn, turns: seq<Turn>)
    requires Echoing(c)
    ensures Echoing(Exec(c, Events(turns)))
    decreases turns
  {
    if turns != [] {
      TurnEchoes(c, turns[0]);
      assert Events(turns)[1..] == Events(turns[1..]);
      TurnsEcho(Step(c, EventOf(turns[0])), turns[1..]);
    }
  }

  // When an echo goes wrong.

  /** With nothing cached, the reply to what has just been read is refused or, by the text as written, cut
      short where it does not repeat itself. */
  predicate ReplyLoses(c: Conn, incoming: Incoming) {
    && incoming.Got? && c.cache == []
    && c.chan.mask * {IN, PRI, RDHUP} != {}
    && Loses(c.text, Front(incoming.data, MAX_READ), incoming.answer)
  }

  /** Some but not all of the cache is flushed by the text as written. */
  predicate FlushLoses(c: Conn, flush: Answer) {
    && c.text.AsWritten? && flush.Took? && OUT in c.chan.mask
    && 0 < flush.n < |c.cache|
  }

  predicate TurnLoses(c: Conn, t: Turn) {
    t.Handled? && c.active && !(HUP in c.chan.mask && IN !in c.chan.mask) &&
    var d := c.(active := false);
    ReplyLoses(d, t.incoming) || FlushLoses(BeforeFlush(d, EventOf(t).plan), t.flush)
  }

  predicate EverLoses(c: Conn, turns: seq<Turn>)
    decreases turns
  {
    turns != [] && (TurnLoses(c, turns[0]) || EverLoses(Step(c, EventOf(turns[0])), turns[1..]))
  }

  lemma MessageSpoils(text: Text, full: bool, readable: seq<byte>, answer: Answer)
    ensures Spoils(text, full, OnMessage(readable, answer)) <==> !full && Loses(text, readable, answer)
  {
    var write := Write(readable, answer, Done);
    var last := Then(Consume(|readable|), Done);
    assert !Spoils(text, Leaves(full, readable, answer), Done);
    assert SpoilsBy(text, full, write) <==> !full && Loses(text, readable, answer);
    var more := FillsBy(full, write);
    assert !SpoilsBy(text, more, Consume(|readable|)) && !Spoils(text, more, Done);
    assert !Spoils(text, more, last);
  }

  lemma ArrivalSpoilsExactly(c: Conn, incoming: Incoming)
    ensures
      c.chan.mask * {IN, PRI, RDHUP} != {} && ArrivalSpoils(c.text, c.cache != [], ArrivalOf(incoming))
      <==> ReplyLoses(c, incoming)
  {
    match incoming
    case Got(data, answer) => MessageSpoils(c.text, c.cache != [], Front(data, MAX_READ), answer);
    case End => assert forall more :: !Spoils(c.text, more, Done);
    case Error(answer) => MessageSpoils(c.text, c.cache != [], [], answer);
  }

  /** After a hangup nothing is left in the mask, so nothing more is done. */
  lemma HangupEnds(c: Conn, plan: Plan)
    requires HUP in c.chan.mask && IN !in c.chan.mask && plan.onHangup == plan.onError == Done
    ensures BeforeFlush(c, plan).chan.mask == {}
    ensures OnError(OnHangup(c, plan), plan).chan.mask == {}
  {
    DisablingBothClears(c.chan);
    assert Play(Closing(c), Done) == Closing(c);
  }

  lemma TurnSpoilsExactly(c: Conn, t: Turn)
    ensures StepSpoils(c, EventOf(t)) <==> TurnLoses(c, t)
  {
    if t.Handled? && c.active {
      var plan := EventOf(t).plan;
      var d := c.(active := false);
      assert forall more :: !Spoils(c.text, more, Done);
      if HUP in d.chan.mask && IN !in d.chan.mask {
        HangupEnds(d, plan);
      } else {
        assert Play(d, Done) == d;
        assert OnError(OnHangup(d, plan), plan) == d;
        ArrivalSpoilsExactly(d, t.incoming);
        ReadableSpoils(d, plan);
      }
    }
  }

  lemma {:induction false} TurnsSpoilExactly(c: Conn, turns: seq<Turn>)
    ensures EverSpoils(c, Events(turns)) <==> EverLoses(c, turns)
    decreases turns
  {
    if turns != [] {
      TurnSpoilsExactly(c, turns[0]);
      assert Events(turns)[1..] == Events(turns[1..]);
      TurnsSpoilExactly(Step(c, EventOf(turns[0])), turns[1..]);
    }
  }

  // What is received, in terms of the turns.

  function Heard(w: Watch, t: Turn): Watch {
    match t
    case Ready(flags) => if w.open && !w.active then w.(active := true, ready := flags) else w
    case Handled(incoming, _) =>
      if !w.active then w
      else
        var got :=
          if !Reads(w.ready) || !incoming.Got? then []
          else if |incoming.data| <= 32768 then incoming.data
          else incoming.data[..32768];
        var ends := Hangs(w.ready) || (Reads(w.ready) && incoming.End?);
        Watch(w.open && !ends, false, w.ready, w.received + got)
  }

  function HeardAll(w: Watch, turns: seq<Turn>): Watch
    decreases turns
  {
    if turns == [] then w else HeardAll(Heard(w, turns[0]), turns[1..])
  }

  lemma {:induction false} EventsSeen(w: Watch, turns: seq<Turn>)
    ensures SeenAll(w, Events(turns)) == HeardAll(w, turns)
    decreases turns
  {
    if turns != [] {
      assert Seen(w, EventOf(turns[0])) == Heard(w, turns[0]);
      assert Events(turns)[1..] == Events(turns[1..]);
      EventsSeen(Heard(w, turns[0]), turns[1..]);
    }
  }

  /** Echo through the whole library: in every run of the echo program what the kernel took, followed by
      the write cache, is exactly what was received, which is what recv delivered in the turns that
      followed a report of input, if and only if no reply met with an empty cache is
      refused and, for the text as written, none is cut short where it does not repeat itself and no flush
      is partial. */
  lemma {:induction false} EchoExactly(text: Text, turns: seq<Turn>)
    ensures
      var c := Exec(StartWith(text, Done), Events(turns));
      && (c.accepted + c.cache == c.received <==> !EverLoses(StartWith(text, Done), turns))
      && (c.accepted + c.cache == c.received <==> !c.spoiled)
      && c.received == HeardAll(OPENED, turns).received
  {
    EventsSeen(OPENED, turns);
    ReceivesWhatArrives(text, Done, Events(turns));
    TurnsEcho(StartWith(text, Done), turns);
    StreamConservation(text, Done, Events(turns));
    TurnsSpoilExactly(StartWith(text, Done), turns);
  }

  lemma MessageNeverRefused(readable: seq<byte>, answer: Answer)
    requires !answer.Refused?
    ensures NeverRefused(OnMessage(readable, answer))
  {
    assert NeverRefused(Done);
    assert NeverRefused(Then(Consume(|readable|), Done));
  }

  /** No write of the message callback meets a hard error. */
  predicate Accepting(t: Turn) {
    t.Handled? && !t.incoming.End? ==> !t.incoming.answer.Refused?
  }

  lemma TurnNeverRefused(t: Turn)
    requires Accepting(t)
    ensures NeverRefusedEvent(EventOf(t))
  {
    if t.Handled? {
      match t.incoming
      case Got(data, answer) => MessageNeverRefused(Front(data, MAX_READ), answer);
      case End =>
      case Error(answer) => MessageNeverRefused([], answer);
    }
  }

  lemma {:induction false} EventsNeverRefused(turns: seq<Turn>)
    requires forall i :: 0 <= i < |turns| ==> Accepting(turns[i])
    ensures forall i :: 0 <= i < |Events(turns)| ==> NeverRefusedEvent(Events(turns)[i])
  {
    if turns != [] {
      TurnNeverRefused(turns[0]);
      assert forall i :: 0 <= i < |turns[1..]| ==> turns[1..][i] == turns[i + 1];
      EventsNeverRefused(turns[1..]);
    }
  }

  /** With the intended text a hard send error is the only way to lose an echo. */
  lemma {:induction false} IntendedEcho(turns: seq<Turn>)
    requires forall i :: 0 <= i < |turns| ==> Accepting(turns[i])
    ensures
      var c := Exec(StartWith(Intended, Done), Events(turns));
      c.accepted + c.cache == c.received
  {
    TurnsEcho(StartWith(Intended, Done), turns);
    EventsNeverRefused(turns);
    IntendedConservation(Done, Events(turns));
  }
}
