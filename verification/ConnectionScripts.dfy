/** What a script does to a connection, read off the script alone. Which completion callbacks run, what they
    shut down, whether bytes go wrong and whether writability is asked for depends on the connection only
    through the program text and through whether something is cached. */
module ConnectionScripts {
  import opened Bytes
  import opened EvtChannel
  import opened ConnectionSpec

  // One write. `full` says that something is cached before it.

  /** The write runs its completion callback at once. */
  predicate CallsBack(full: bool, data: seq<byte>, answer: Answer) {
    !full && (answer.Refused? || (answer.Took? && answer.n > 0 && data != []))
  }

  /** The write leaves something in the cache before any completion callback. */
  predicate Leaves(full: bool, data: seq<byte>, answer: Answer) {
    || full
    || (answer.Again? && data != [])
    || (answer.Took? && answer.n < |data|)
  }

  /** The write itself asks for writability. */
  predicate AsksNow(full: bool, data: seq<byte>, answer: Answer) {
    full || answer.Again? || (answer.Took? && answer.n < |data|)
  }

  /** A direct write puts bytes wrong: it is refused, so that its data is dropped, or it is cut short by
      the text as written and its data does not happen to repeat. */
  predicate Loses(text: Text, data: seq<byte>, answer: Answer) {
    || (answer.Refused? && data != [])
    || (text.AsWritten? && answer.Took? && answer.n < |data| && !RepeatsEvery(data, answer.n))
  }

  // Whole scripts.

  /** Something is cached after the script. */
  predicate Fills(full: bool, script: Script)
    decreases script, 0
  {
    match script
    case Done => full
    case Then(first, rest) => Fills(FillsBy(full, first), rest)
  }

  predicate FillsBy(full: bool, command: Command)
    decreases command, 1
  {
    match command
    case Write(data, answer, callback) =>
      if CallsBack(full, data, answer) then Fills(Leaves(full, data, answer), callback)
      else Leaves(full, data, answer)
    case _ => full
  }

  /** The script comes to a shutdown. */
  predicate ShutsDown(full: bool, script: Script)
    decreases script, 0
  {
    match script
    case Done => false
    case Then(first, rest) => ShutsDownBy(full, first) || ShutsDown(FillsBy(full, first), rest)
  }

  predicate ShutsDownBy(full: bool, command: Command)
    decreases command, 1
  {
    match command
    case Write(data, answer, callback) =>
      CallsBack(full, data, answer) && ShutsDown(Leaves(full, data, answer), callback)
    case Shutdown => true
    case Consume(_) => false
  }

  /** The script asks for writability. */
  predicate Asks(full: bool, script: Script)
    decreases script, 0
  {
    match script
    case Done => false
    case Then(first, rest) => AsksBy(full, first) || Asks(FillsBy(full, first), rest)
  }

  predicate AsksBy(full: bool, command: Command)
    decreases command, 1
  {
    match command
    case Write(data, answer, callback) =>
      || AsksNow(full, data, answer)
      || (CallsBack(full, data, answer) && Asks(Leaves(full, data, answer), callback))
    case _ => false
  }

  /** The script comes to a direct write that puts bytes wrong. */
  predicate Spoils(text: Text, full: bool, script: Script)
    decreases script, 0
  {
    match script
    case Done => false
    case Then(first, rest) => SpoilsBy(text, full, first) || Spoils(text, FillsBy(full, first), rest)
  }

  predicate SpoilsBy(text: Text, full: bool, command: Command)
    decreases command, 1
  {
    match command
    case Write(data, answer, callback) =>
      || (!full && Loses(text, data, answer))
      || (CallsBack(full, data, answer) && Spoils(text, Leaves(full, data, answer), callback))
    case _ => false
  }

  // ---------------------------------------------------------------------------------------------
  // The predictions come true.

  function Asked(chan: Chan, asked: bool): Chan {
    if asked then WriteEnabled(chan, true) else chan
  }

  predicate Predicted(c: Conn, d: Conn, fills: bool, shuts: bool, asks: bool, spoils: bool) {
    && d.text == c.text
    && (d.cache != [] <==> fills)
    && d.shutdowns >= c.shutdowns && (d.shutdowns > c.shutdowns <==> shuts)
    && d.chan == Asked(c.chan, asks)
    && d.received == c.received
    && (d.spoiled <==> c.spoiled || spoils)
  }

  lemma PredictedTrans(c: Conn, d: Conn, e: Conn, fills: bool, shuts: bool, asks: bool, spoils: bool,
                       fills': bool, shuts': bool, asks': bool, spoils': bool)
    requires Predicted(c, d, fills, shuts, asks, spoils)
    requires Predicted(d, e, fills', shuts', asks', spoils')
    ensures Predicted(c, e, fills', shuts || shuts', asks || asks', spoils || spoils')
  {
  }

  /** What happens up to the completion callback of a write that calls back. */
  function BeforeCallback(c: Conn, data: seq<byte>, answer: Answer): Conn
    requires CallsBack(c.cache != [], data, answer)
  {
    match answer
    case Refused => Dropped(c, data)
    case Took(n) => SentDirectly(c, data, Min(n, |data|))
  }

  lemma SentAsPredicted(c: Conn, data: seq<byte>, n: nat)
    requires c.cache == []
    ensures Predicted(c, SentDirectly(c, data, Min(n, |data|)), Leaves(false, data, Took(n)), false,
                      AsksNow(false, data, Took(n)), Loses(c.text, data, Took(n)))
  {
    if n < |data| {
      assert |Kept(c.text, data, n)| == |data| - n;
    }
  }

  lemma WriteUnfolds(c: Conn, data: seq<byte>, answer: Answer, callback: Script)
    ensures
      var full := c.cache != [];
      var d := WriteInLoop(c, data, answer, callback);
      var calls := CallsBack(full, data, answer);
      var b := if calls then BeforeCallback(c, data, answer) else d;
      && (calls ==> d == Play(b, callback))
      && Predicted(c, b, Leaves(full, data, answer), false, AsksNow(full, data, answer),
                   !full && Loses(c.text, data, answer))
  {
    if c.cache == [] {
      match answer
      case Again =>
      case Refused =>
      case Took(n) => SentAsPredicted(c, data, n);
    }
  }

  lemma {:induction false} PerformAsPredicted(c: Conn, command: Command)
    ensures
      var full := c.cache != [];
      Predicted(c, Perform(c, command), FillsBy(full, command), ShutsDownBy(full, command),
                AsksBy(full, command), SpoilsBy(c.text, full, command))
    decreases command, 1
  {
    match command
    case Write(data, answer, callback) =>
      WriteUnfolds(c, data, answer, callback);
      if CallsBack(c.cache != [], data, answer) {
        PlayAsPredicted(BeforeCallback(c, data, answer), callback);
      }
    case _ =>
  }

  /** A script does to a connection what the predicates say: to its cache, its channel and its output
      stream, and in what it shuts down. It receives nothing. */
  lemma {:induction false} PlayAsPredicted(c: Conn, script: Script)
    ensures
      var full := c.cache != [];
      Predicted(c, Play(c, script), Fills(full, script), ShutsDown(full, script),
                Asks(full, script), Spoils(c.text, full, script))
    decreases script, 0
  {
    match script
    case Done =>
    case Then(first, rest) =>
      var full := c.cache != [];
      var d := Perform(c, first);
      PerformAsPredicted(c, first);
      PlayAsPredicted(d, rest);
      var next := FillsBy(full, first);
      PredictedTrans(c, d, Play(d, rest), next, ShutsDownBy(full, first), AsksBy(full, first),
                     SpoilsBy(c.text, full, first), Fills(next, rest), ShutsDown(next, rest),
                     Asks(next, rest), Spoils(c.text, next, rest));
  }
}
