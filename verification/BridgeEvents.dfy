/**
 What each event brings about, said of the history and of the pending requests: which events end the
 child and every request with it, which are ignored, and what a new request enters.
 */
module BridgeEvents {
  import opened Wrappers
  import opened BridgeProtocol

  // ---------------------------------------------------------------------------------------------
  // Events that end everything
  // ---------------------------------------------------------------------------------------------

  /** The event concerns the current child or a request that waits, and gives this reason. */
  ghost predicate Fires(s: State, e: Event, reason: Reason) {
    match e
    case Close(gen) => s.child == Some(gen) && reason == ChildClosed
    case Error(gen) => s.child == Some(gen) && reason == ChildError
    case Timeout(id) => id in s.pending && reason == TimedOut
    case Abort(id) => id in s.pending && id in s.listeners && reason == Aborted
    case Dispose => reason == Disposed
    case _ => false
  }

  /** From `s` to `r` the child and its buffer are gone, every id ever issued is settled, and those that
      were pending are settled in order with this reason; no timer or listener is left. */
  ghost predicate AllEnded(s: State, r: State, reason: Reason) {
    && r.child.None? && r.buffer == [] && r.pending == [] && r.timers == {} && r.listeners == {}
    && r.issued == s.issued && r.sequence == s.sequence && r.spawnCount == s.spawnCount
    && (forall id :: id in r.issued ==> IsSettled(r, id))
    && |r.settled| == |s.settled| + |s.pending| && s.settled <= r.settled
    && forall i :: 0 <= i < |s.pending| ==> r.settled[|s.settled| + i] == Settlement(s.pending[i], Failed(reason))
  }

  lemma {:induction false} FailEndsAll(s: State, reason: Reason)
    requires Core(s)
    ensures AllEnded(s, Fail(s, reason), reason)
  {
    var r := Fail(s, reason);
    forall id | id in r.issued
      ensures IsSettled(r, id)
    {
      FailSettled(s, reason, id);
    }
    assert s.timers == AsSet(s.pending);
  }

  /** The end of the child, a timeout and an abort end everything. */
  lemma {:induction false} EventEndsAll(cfg: Config, s: State, e: Event, reason: Reason)
    requires Inv(cfg, s) && Fires(s, e, reason)
    ensures AllEnded(s, Step(cfg, s, e), reason)
  {
    FailEndsAll(s, reason);
  }

  /** The event is about a child that is no longer the current one, or a request that does not wait. */
  ghost predicate Stale(s: State, e: Event) {
    match e
    case Close(gen) => s.child != Some(gen)
    case Error(gen) => s.child != Some(gen)
    case Data(gen, chunk) => s.child != Some(gen)
    case Timeout(id) => IsSettled(s, id) || id !in s.issued
    case Abort(id) => IsSettled(s, id) || id !in s.issued
    case _ => false
  }

  lemma {:induction false} StaleEventIsIgnored(cfg: Config, s: State, e: Event)
    requires Inv(cfg, s) && Stale(s, e)
    ensures Step(cfg, s, e) == s
  {
    if e.Timeout? || e.Abort? {
      assert e.id !in s.pending;
      assert e.id !in AsSet(s.pending);
    }
  }

  lemma {:induction false} EventLaws(cfg: Config, s: State, e: Event)
    ensures forall reason :: Inv(cfg, s) && Fires(s, e, reason) ==> AllEnded(s, Step(cfg, s, e), reason)
    ensures Inv(cfg, s) && Stale(s, e) ==> Step(cfg, s, e) == s
  {
    forall reason | Inv(cfg, s) && Fires(s, e, reason)
      ensures AllEnded(s, Step(cfg, s, e), reason)
    {
      EventEndsAll(cfg, s, e, reason);
    }
    if Inv(cfg, s) && Stale(s, e) {
      StaleEventIsIgnored(cfg, s, e);
    }
  }

  // ---------------------------------------------------------------------------------------------
  // Output that ends everything
  // ---------------------------------------------------------------------------------------------

  /** A complete line that is no reply: too long, no JSON, or of no pending request, tried in this order. */
  ghost predicate BadLine(cfg: Config, s: State, line: seq<Byte>, reason: Reason) {
    if |line| > cfg.maxOutput then reason == TooLong
    else match cfg.parse(line)
         case Malformed => reason == BadJson
         case Envelope(id, answer) => (id.None? || id.value !in s.pending) && reason == UnknownId
  }

  lemma {:induction false} BadLineEndsAll(cfg: Config, s: State, gen: nat, chunk: seq<Byte>, line: seq<Byte>, rest: seq<Byte>, reason: Reason)
    requires Inv(cfg, s) && s.child == Some(gen)
    requires s.buffer + chunk == line + [NEWLINE] + rest && NEWLINE !in line && BadLine(cfg, s, line, reason)
    ensures AllEnded(s, Step(cfg, s, Data(gen, chunk)), reason)
  {
    var full := s.(buffer := s.buffer + chunk);
    DrainLine(cfg, full, line, rest);
    var cut := s.(buffer := rest);
    assert full.(buffer := rest) == cut;
    assert TakeLine(cfg, cut, line) == Fail(cut, reason);
    assert Fail(cut, reason) == Fail(s, reason);
    FailEndsAll(s, reason);
  }

  /** Output without a line end is kept as long as it fits, and ends everything once it does not. */
  lemma {:induction false} UnfinishedLine(cfg: Config, s: State, gen: nat, chunk: seq<Byte>)
    requires Inv(cfg, s) && s.child == Some(gen) && NEWLINE !in s.buffer + chunk
    ensures var r := Step(cfg, s, Data(gen, chunk));
      if |s.buffer + chunk| <= cfg.maxOutput then r == s.(buffer := s.buffer + chunk) else AllEnded(s, r, TooLong)
  {
    var full := s.(buffer := s.buffer + chunk);
    DrainTail(cfg, full);
    assert Fail(full, TooLong) == Fail(s, TooLong);
    FailEndsAll(s, TooLong);
  }

  // ---------------------------------------------------------------------------------------------
  // Generations
  // ---------------------------------------------------------------------------------------------

  /** Every generation in use was counted. */
  ghost predicate Counted(s: State) {
    && (s.child.Some? ==> s.child.value <= s.spawnCount)
    && forall id :: id in s.issued ==> s.issued[id] <= s.spawnCount
  }

  lemma {:induction false} StepKeepsCounted(cfg: Config, s: State, e: Event)
    requires Counted(s)
    ensures Counted(Step(cfg, s, e)) && s.spawnCount <= Step(cfg, s, e).spawnCount
  {
  }

  lemma {:induction false} RunKeepsCounted(cfg: Config, s: State, es: seq<Event>)
    requires Counted(s)
    ensures Counted(Run(cfg, s, es))
    decreases |es|
  {
    if es != [] {
      StepKeepsCounted(cfg, s, es[0]);
      RunKeepsCounted(cfg, Step(cfg, s, es[0]), es[1..]);
    }
  }

  /** An accepted request: its id was never issued; it waits under the current child, or, if there is
      none, under a child of a generation no request was ever issued under; its timer runs, and its
      signal is listened to if it has one.  Everything else stays. */
  ghost predicate Entered(s: State, r: State, signal: Signal) {
    var id := IdOf(s.sequence + 1);
    && id !in s.issued && r.child.Some? && r.sequence == s.sequence + 1
    && r.issued == s.issued[id := r.child.value] && r.pending == s.pending + [id]
    && r.timers == s.timers + {id} && r.listeners == (if signal == NoSignal then s.listeners else s.listeners + {id})
    && r.settled == s.settled && r.buffer == s.buffer
    && if s.child.Some? then r.child == s.child && r.spawnCount == s.spawnCount
       else r.child.value > s.spawnCount && forall x :: x in s.issued ==> s.issued[x] != r.child.value
  }

  lemma {:induction false} RequestEnters(cfg: Config, s: State, size: nat, signal: Signal)
    requires Inv(cfg, s) && Counted(s) && size <= cfg.maxInput && signal != AlreadyAborted
    ensures Entered(s, Step(cfg, s, Request(size, signal)), signal)
  {
    IdFresh(s);
  }

  /** A signal that was aborted before ends everything at once, where a live one would let it wait. */
  lemma {:induction false} AbortedRequestEndsAll(cfg: Config, s: State, size: nat)
    requires Inv(cfg, s) && size <= cfg.maxInput
    ensures AllEnded(Step(cfg, s, Request(size, Live)), Step(cfg, s, Request(size, AlreadyAborted)), Aborted)
  {
    var waiting := Issue(cfg, s, size, Live);
    IssueKeepsCore(cfg, s, size, Live);
    assert Issue(cfg, s, size, AlreadyAborted) == Fail(waiting, Aborted);
    FailEndsAll(waiting, Aborted);
  }

  /** An over-long request is refused: a child is there, the number is used up, and nothing waits for it. */
  lemma {:induction false} LongRequestIsRefused(cfg: Config, s: State, size: nat, signal: Signal)
    requires Inv(cfg, s) && size > cfg.maxInput
    ensures var r := Step(cfg, s, Request(size, signal));
      && r.child.Some? && (s.child.Some? ==> r.child == s.child) && r.sequence == s.sequence + 1
      && r.issued == s.issued && r.pending == s.pending && r.settled == s.settled && r.timers == s.timers
      && r.listeners == s.listeners && r.buffer == s.buffer
  {
  }

  /** After an event that ends everything, the next accepted request is issued under a generation that
      no request was ever issued under. */
  lemma {:induction false} NextGenerationIsNew(cfg: Config, s: State, e: Event, reason: Reason, ended: State, size: nat, signal: Signal)
    requires Inv(cfg, s) && Counted(s) && Fires(s, e, reason) && ended == Step(cfg, s, e)
    requires size <= cfg.maxInput && signal != AlreadyAborted
    ensures var r := Step(cfg, ended, Request(size, signal));
      && r.child.Some? && r.child.value > s.spawnCount && r.pending == [IdOf(s.sequence + 1)]
      && forall x :: x in s.issued ==> s.issued[x] != r.child.value
  {
    EventEndsAll(cfg, s, e, reason);
    NextAfterEnd(cfg, s, ended, reason, size, signal);
  }

  lemma {:induction false} NextAfterEnd(cfg: Config, s: State, ended: State, reason: Reason, size: nat, signal: Signal)
    requires AllEnded(s, ended, reason) && Counted(s) && size <= cfg.maxInput && signal != AlreadyAborted
    ensures var r := Step(cfg, ended, Request(size, signal));
      && r.child.Some? && r.child.value > s.spawnCount && r.pending == [IdOf(s.sequence + 1)]
      && forall x :: x in s.issued ==> s.issued[x] != r.child.value
  {
  }

  // ---------------------------------------------------------------------------------------------
  // Listening lasts until the request is settled
  // ---------------------------------------------------------------------------------------------

  ghost predicate SameListening(s: State, r: State) {
    forall id :: id in r.pending && id in s.pending ==> (id in r.listeners <==> id in s.listeners)
  }

  /** No request is new, and those that are left are listened to as before. */
  ghost predicate Fewer(s: State, r: State) {
    forall id :: id in r.pending ==> id in s.pending && (id in r.listeners <==> id in s.listeners)
  }

  lemma {:induction false} TakeLineKeepsListening(cfg: Config, s: State, line: seq<Byte>)
    requires s.child.Some?
    ensures Fewer(s, TakeLine(cfg, s, line))
  {
  }

  lemma {:induction false} FewerIsTransitive(s: State, t: State, r: State)
    requires Fewer(s, t) && Fewer(t, r)
    ensures Fewer(s, r)
  {
  }

  lemma {:induction false} DrainKeepsListening(cfg: Config, s: State, r: State)
    requires s.child.Some? && r == Drain(cfg, s)
    ensures Fewer(s, r)
    decreases |s.buffer|
  {
    var n := IndexOf(s.buffer, NEWLINE);
    if n < 0 {
      DrainTail(cfg, s);
    } else {
      var line, rest := s.buffer[..n], s.buffer[n + 1..];
      var cut := s.(buffer := rest);
      var next := TakeLine(cfg, cut, line);
      DrainLine(cfg, s, line, rest);
      TakeLineKeepsListening(cfg, cut, line);
      assert Fewer(s, next);
      if next.child.Some? {
        DrainKeepsListening(cfg, next, r);
        FewerIsTransitive(s, next, r);
      }
    }
  }

  /** A request that goes on waiting goes on being listened to, or not, as before. */
  lemma {:induction false} StepKeepsListening(cfg: Config, s: State, e: Event)
    requires Inv(cfg, s)
    ensures SameListening(s, Step(cfg, s, e))
  {
    match e
    case Request(size, signal) =>
      IdFresh(s);
    case Data(gen, chunk) =>
      if s.child == Some(gen) {
        var full := s.(buffer := s.buffer + chunk);
        DrainKeepsListening(cfg, full, Drain(cfg, full));
      }
    case _ =>
  }
}
