/**
 The host bridge client: a multiplexed, newline-framed request/response protocol over a child
 process that may be replaced.

 `State` and `Step` describe what one event does; the client class, in module BridgeClient, is
 proved to take exactly these steps.  The lemmas are about every run of events and about every way
 of cutting the child's output into chunks.
 */
module BridgeProtocol {
  import opened Wrappers
  import opened Decimal

  type Byte = b: int | 0 <= b < 256
  const NEWLINE: Byte := 10

  /** What `JSON.parse` and the field tests make of one line. */
  datatype Parsed =
    | Malformed
    | Envelope(id: Option<string>, answer: Answer)

  datatype Answer = Resolved(result: string) | Refused(message: string)

  datatype Reason = TooLong | BadJson | UnknownId | TimedOut | Aborted | ChildError | ChildClosed | Disposed

  /** How a request was settled: by an envelope of the child of generation `from`, or by `fail`. */
  datatype Outcome = Answered(from: nat, answer: Answer) | Failed(reason: Reason)
  datatype Settlement = Settlement(id: string, outcome: Outcome)

  datatype Config = Config(maxInput: nat, maxOutput: nat, parse: seq<Byte> -> Parsed)

  /** `issued` and `settled` are the history: the generation each pending id was issued under, and
      the settlements in the order in which the promises were resolved or rejected. */
  datatype State = State(
    child: Option<nat>,
    buffer: seq<Byte>,
    pending: seq<string>,
    sequence: nat,
    spawnCount: nat,
    timers: set<string>,
    listeners: set<string>,
    issued: map<string, nat>,
    settled: seq<Settlement>)

  const INITIAL := State(None, [], [], 0, 0, {}, {}, map[], [])

  datatype Signal = NoSignal | Live | AlreadyAborted

  datatype Event =
    | Request(size: nat, signal: Signal)
    | Data(gen: nat, chunk: seq<Byte>)
    | Error(gen: nat)
    | Close(gen: nat)
    | Timeout(id: string)
    | Abort(id: string)
    | Dispose

  function IdOf(n: nat): string { "dsh-" + Numeral(n) }

  // ---------------------------------------------------------------------------------------------
  // The steps
  // ---------------------------------------------------------------------------------------------

  function Start(s: State): State {
    if s.child.Some? then s else s.(child := Some(s.spawnCount + 1), spawnCount := s.spawnCount + 1)
  }

  function FailAll(ids: seq<string>, reason: Reason): (r: seq<Settlement>)
    ensures |r| == |ids|
    ensures forall i :: 0 <= i < |ids| ==> r[i] == Settlement(ids[i], Failed(reason))
  {
    seq(|ids|, i requires 0 <= i < |ids| => Settlement(ids[i], Failed(reason)))
  }

  function AsSet(ids: seq<string>): set<string> { set x | x in ids }

  function Fail(s: State, reason: Reason): State {
    s.(child := None, buffer := [], pending := [],
       timers := s.timers - AsSet(s.pending), listeners := s.listeners - AsSet(s.pending),
       settled := s.settled + FailAll(s.pending, reason))
  }

  /** A request joins the pending ones: timer armed, abort listener added if there is a signal. */
  function Enter(s: State, id: string, listen: bool): State
    requires s.child.Some?
  {
    s.(pending := s.pending + [id], timers := s.timers + {id},
       listeners := if listen then s.listeners + {id} else s.listeners,
       issued := s.issued[id := s.child.value])
  }

  function Issue(cfg: Config, s: State, size: nat, signal: Signal): State {
    var started := Start(s);
    if size > cfg.maxInput then started.(sequence := started.sequence + 1) else Accept(started, signal)
  }

  /** A request within the limit: it takes the next id and joins the pending ones; an already
      aborted signal then fails them all. */
  function Accept(s: State, signal: Signal): State
    requires s.child.Some?
  {
    var waiting := Enter(s.(sequence := s.sequence + 1), IdOf(s.sequence + 1), signal != NoSignal);
    if signal == AlreadyAborted then Fail(waiting, Aborted) else waiting
  }

  /** The first position of `x` from `i` on, or -1. */
  function IndexFrom(b: seq<Byte>, x: Byte, i: nat): (r: int)
    requires i <= |b|
    ensures -1 <= r < |b| && (r >= 0 ==> i <= r && b[r] == x)
    ensures forall k :: i <= k < (if r < 0 then |b| else r) ==> b[k] != x
    decreases |b| - i
  {
    if i == |b| then -1 else if b[i] == x then i else IndexFrom(b, x, i + 1)
  }

  function IndexOf(b: seq<Byte>, x: Byte): (r: int)
    ensures -1 <= r < |b| && (r >= 0 ==> b[r] == x)
    ensures forall k :: 0 <= k < (if r < 0 then |b| else r) ==> b[k] != x
  {
    IndexFrom(b, x, 0)
  }

  function Without(ids: seq<string>, id: string): (r: seq<string>)
    ensures forall x :: x in r <==> x in ids && x != id
    ensures |r| <= |ids|
  {
    if ids == [] then []
    else if ids[0] == id then Without(ids[1..], id)
    else [ids[0]] + Without(ids[1..], id)
  }

  /** The state after a reply to a pending request. */
  function Replied(s: State, id: string, answer: Answer): State
    requires s.child.Some?
  {
    s.(pending := Without(s.pending, id),
       timers := s.timers - {id}, listeners := s.listeners - {id},
       settled := s.settled + [Settlement(id, Answered(s.child.value, answer))])
  }

  /** One complete line of the child's output. */
  function TakeLine(cfg: Config, s: State, line: seq<Byte>): (r: State)
    requires s.child.Some?
    ensures r.child.Some? ==> r.child == s.child && r.buffer == s.buffer
    ensures s.settled <= r.settled
    ensures r.issued == s.issued && r.spawnCount == s.spawnCount && r.sequence == s.sequence
  {
    if |line| > cfg.maxOutput then Fail(s, TooLong)
    else
      match cfg.parse(line)
      case Malformed => Fail(s, BadJson)
      case Envelope(id, answer) =>
        if id.None? || id.value !in s.pending then Fail(s, UnknownId)
        else Replied(s, id.value, answer)
  }

  /** The state between two events: no complete line is left over and the limit holds. */
  ghost predicate Settled(cfg: Config, s: State) {
    NEWLINE !in s.buffer && |s.buffer| <= cfg.maxOutput
  }

  /** The loop of `onData`, from the current buffer on. */
  function Drain(cfg: Config, s: State): (r: State)
    requires s.child.Some?
    ensures Settled(cfg, r)
    ensures r.child == s.child || r.child.None?
    ensures s.settled <= r.settled
    ensures r.issued == s.issued && r.spawnCount == s.spawnCount && r.sequence == s.sequence
    decreases |s.buffer|
  {
    var n := IndexOf(s.buffer, NEWLINE);
    if n < 0 then (if |s.buffer| > cfg.maxOutput then Fail(s, TooLong) else s)
    else
      var next := TakeLine(cfg, s.(buffer := s.buffer[n + 1..]), s.buffer[..n]);
      if next.child.None? then next else Drain(cfg, next)
  }

  /** What the loop does after a line: stop if the child is gone, else go round again. */
  function Resume(cfg: Config, next: State): State {
    if next.child.None? then next else Drain(cfg, next)
  }

  lemma DrainLine(cfg: Config, s: State, line: seq<Byte>, rest: seq<Byte>)
    requires s.child.Some? && NEWLINE !in line && s.buffer == line + [NEWLINE] + rest
    ensures Drain(cfg, s) == Resume(cfg, TakeLine(cfg, s.(buffer := rest), line))
  {
    FirstFrame(line, rest);
  }

  lemma FirstFrame(line: seq<Byte>, rest: seq<Byte>)
    requires NEWLINE !in line
    ensures var b := line + [NEWLINE] + rest;
      IndexOf(b, NEWLINE) == |line| && b[..|line|] == line && b[|line| + 1..] == rest
  {
    var b := line + [NEWLINE] + rest;
    assert b[|line|] == NEWLINE;
    assert forall k :: 0 <= k < |line| ==> b[k] == line[k];
  }

  lemma DrainTail(cfg: Config, s: State)
    requires s.child.Some? && NEWLINE !in s.buffer
    ensures Drain(cfg, s) == if |s.buffer| > cfg.maxOutput then Fail(s, TooLong) else s
  {
  }

  function OnData(cfg: Config, s: State, chunk: seq<Byte>): State
    requires s.child.Some?
  {
    Drain(cfg, s.(buffer := s.buffer + chunk))
  }

  /** What one event does.  Output, errors and exits of a child that is no longer the current one
      are ignored; a timer or an abort listener that was cleared does not fire. */
  function Step(cfg: Config, s: State, e: Event): State {
    match e
    case Request(size, signal) => Issue(cfg, s, size, signal)
    case Data(gen, chunk) => if s.child == Some(gen) then OnData(cfg, s, chunk) else s
    case Error(gen) => if s.child == Some(gen) then Fail(s, ChildError) else s
    case Close(gen) => if s.child == Some(gen) then Fail(s, ChildClosed) else s
    case Timeout(id) => if id in s.timers then Fail(s, TimedOut) else s
    case Abort(id) => if id in s.listeners then Fail(s, Aborted) else s
    case Dispose => Fail(s, Disposed)
  }

  function Run(cfg: Config, s: State, es: seq<Event>): State
    decreases |es|
  {
    if es == [] then s else Run(cfg, Step(cfg, s, es[0]), es[1..])
  }

  // ---------------------------------------------------------------------------------------------
  // Chunking does not matter
  // ---------------------------------------------------------------------------------------------

  /** Draining with more output already appended is draining, then receiving that output. */
  lemma {:induction false} DrainMore(cfg: Config, s: State, more: seq<Byte>)
    requires s.child.Some?
    ensures Drain(cfg, s.(buffer := s.buffer + more))
         == (var r := Drain(cfg, s); if r.child.Some? then OnData(cfg, r, more) else r)
    decreases |s.buffer|
  {
    var n := IndexOf(s.buffer, NEWLINE);
    if n < 0 {
      DrainMoreTail(cfg, s, more);
    } else {
      var line, rest := s.buffer[..n], s.buffer[n + 1..];
      DrainMoreLine(cfg, s, line, rest, more);
      var next := TakeLine(cfg, s.(buffer := rest), line);
      if next.child.Some? {
        DrainMore(cfg, next, more);
      }
    }
  }

  /** A complete line is taken first, with or without more output behind it. */
  lemma DrainMoreLine(cfg: Config, s: State, line: seq<Byte>, rest: seq<Byte>, more: seq<Byte>)
    requires s.child.Some? && NEWLINE !in line && s.buffer == line + [NEWLINE] + rest
    ensures var next := TakeLine(cfg, s.(buffer := rest), line);
      && Drain(cfg, s) == Resume(cfg, next)
      && Drain(cfg, s.(buffer := s.buffer + more))
      == Resume(cfg, if next.child.None? then next else next.(buffer := next.buffer + more))
  {
    assert s.buffer + more == line + [NEWLINE] + (rest + more);
    DrainLine(cfg, s, line, rest);
    DrainLine(cfg, s.(buffer := s.buffer + more), line, rest + more);
    TakeLineBuffer(cfg, s.(buffer := rest), rest + more, line);
  }

  /** Without a complete line, an over-long buffer fails now just as it would with more output. */
  lemma DrainMoreTail(cfg: Config, s: State, more: seq<Byte>)
    requires s.child.Some? && NEWLINE !in s.buffer
    ensures Drain(cfg, s.(buffer := s.buffer + more))
         == (var r := Drain(cfg, s); if r.child.Some? then OnData(cfg, r, more) else r)
  {
    DrainTail(cfg, s);
    if |s.buffer| > cfg.maxOutput {
      DrainTooLong(cfg, s, more);
    }
  }

  lemma DrainTooLong(cfg: Config, s: State, more: seq<Byte>)
    requires s.child.Some? && NEWLINE !in s.buffer && |s.buffer| > cfg.maxOutput
    ensures Drain(cfg, s.(buffer := s.buffer + more)) == Fail(s, TooLong)
  {
    var whole := s.(buffer := s.buffer + more);
    var n := IndexOf(whole.buffer, NEWLINE);
    if n < 0 {
      DrainTail(cfg, whole);
    } else {
      assert forall k :: 0 <= k < |s.buffer| ==> whole.buffer[k] == s.buffer[k];
      assert n >= |s.buffer|;
      var line, rest := whole.buffer[..n], whole.buffer[n + 1..];
      assert whole.buffer == line + [NEWLINE] + rest;
      DrainLine(cfg, whole, line, rest);
    }
  }

  /** A line is dealt with in the same way whatever stands behind it. */
  lemma TakeLineBuffer(cfg: Config, s: State, b: seq<Byte>, line: seq<Byte>)
    requires s.child.Some?
    ensures TakeLine(cfg, s.(buffer := b), line)
         == (var r := TakeLine(cfg, s, line); if r.child.None? then r else r.(buffer := b))
  {
  }

  function Concat(chunks: seq<seq<Byte>>): seq<Byte> {
    if chunks == [] then [] else chunks[0] + Concat(chunks[1..])
  }

  function Deliver(cfg: Config, s: State, gen: nat, chunks: seq<seq<Byte>>): State
    decreases |chunks|
  {
    if chunks == [] then s else Deliver(cfg, Step(cfg, s, Data(gen, chunks[0])), gen, chunks[1..])
  }

  lemma {:induction false} DeliverIgnored(cfg: Config, s: State, gen: nat, chunks: seq<seq<Byte>>)
    requires s.child != Some(gen)
    decreases |chunks|
    ensures Deliver(cfg, s, gen, chunks) == s
  {
    if chunks != [] {
      DeliverIgnored(cfg, s, gen, chunks[1..]);
    }
  }

  lemma TwoChunks(cfg: Config, s: State, a: seq<Byte>, b: seq<Byte>)
    requires s.child.Some?
    ensures OnData(cfg, s, a + b)
         == (var first := OnData(cfg, s, a); if first.child.Some? then OnData(cfg, first, b) else first)
  {
    var start := s.(buffer := s.buffer + a);
    DrainMore(cfg, start, b);
    assert s.buffer + (a + b) == start.buffer + b;
  }

  /** Any cutting of the output into chunks gives the same settlements in the same order and the
      same final state as delivering it at once. */
  lemma {:induction false} ChunkingDoesNotMatter(cfg: Config, s: State, gen: nat, chunks: seq<seq<Byte>>)
    requires s.child == Some(gen) && Settled(cfg, s)
    ensures Deliver(cfg, s, gen, chunks) == OnData(cfg, s, Concat(chunks))
    decreases |chunks|
  {
    if chunks == [] {
      assert s.buffer + [] == s.buffer;
    } else {
      var first := OnData(cfg, s, chunks[0]);
      TwoChunks(cfg, s, chunks[0], Concat(chunks[1..]));
      if first.child.Some? {
        ChunkingDoesNotMatter(cfg, first, gen, chunks[1..]);
      } else {
        DeliverIgnored(cfg, first, gen, chunks[1..]);
      }
    }
  }

  /** Two cuttings of the same bytes cannot be told apart. */
  lemma {:induction false} SameBytesSameOutcome(cfg: Config, s: State, gen: nat, xs: seq<seq<Byte>>, ys: seq<seq<Byte>>)
    requires s.child == Some(gen) && Settled(cfg, s) && Concat(xs) == Concat(ys)
    ensures Deliver(cfg, s, gen, xs) == Deliver(cfg, s, gen, ys)
  {
    ChunkingDoesNotMatter(cfg, s, gen, xs);
    ChunkingDoesNotMatter(cfg, s, gen, ys);
  }

  // ---------------------------------------------------------------------------------------------
  // Every run
  // ---------------------------------------------------------------------------------------------

  ghost predicate Unique(ids: seq<string>) {
    forall i, j :: 0 <= i < j < |ids| ==> ids[i] != ids[j]
  }

  ghost predicate SettledOnce(log: seq<Settlement>) {
    forall i, j :: 0 <= i < j < |log| ==> log[i].id != log[j].id
  }

  ghost predicate IsSettled(s: State, id: string) {
    exists i :: 0 <= i < |s.settled| && s.settled[i].id == id
  }

  /** Every issued id carries one of the sequence numbers handed out so far. */
  ghost predicate Numbered(s: State) {
    forall id :: id in s.issued ==> exists n :: 1 <= n <= s.sequence && id == IdOf(n)
  }

  /** An issued id is pending or settled, never both, and settled at most once. */
  ghost predicate Accounted(s: State) {
    && Unique(s.pending)
    && SettledOnce(s.settled)
    && (forall id :: id in s.pending ==> id in s.issued && !IsSettled(s, id))
    && (forall id :: id in s.issued ==> id in s.pending || IsSettled(s, id))
  }

  /** Answers come only from the generation the request was issued under. */
  ghost predicate RightGeneration(s: State) {
    && (forall id :: id in s.pending && id in s.issued ==> s.child == Some(s.issued[id]))
    && (forall i :: 0 <= i < |s.settled| ==>
          && s.settled[i].id in s.issued
          && (s.settled[i].outcome.Answered? ==> s.issued[s.settled[i].id] == s.settled[i].outcome.from))
  }

  /** Timers are armed for exactly the pending ids; listeners only for pending ids. */
  ghost predicate Armed(s: State) {
    s.timers == AsSet(s.pending) && s.listeners <= s.timers
  }

  ghost predicate Idle(s: State) {
    s.child.None? ==> s.buffer == [] && s.pending == []
  }

  ghost predicate Core(s: State) {
    Numbered(s) && Accounted(s) && RightGeneration(s) && Armed(s) && Idle(s)
  }

  ghost predicate Inv(cfg: Config, s: State) {
    Core(s) && Settled(cfg, s)
  }

  lemma {:induction false} IdFresh(s: State)
    requires Numbered(s)
    ensures IdOf(s.sequence + 1) !in s.issued
  {
    if IdOf(s.sequence + 1) in s.issued {
      var n :| 1 <= n <= s.sequence && IdOf(s.sequence + 1) == IdOf(n);
      assert IdOf(n)[4..] == Numeral(n) && IdOf(s.sequence + 1)[4..] == Numeral(s.sequence + 1);
      NumeralInjective(n, s.sequence + 1);
    }
  }

  lemma FailSettled(s: State, reason: Reason, id: string)
    ensures IsSettled(Fail(s, reason), id) <==> IsSettled(s, id) || id in s.pending
  {
    var r := Fail(s, reason);
    if IsSettled(s, id) {
      var i :| 0 <= i < |s.settled| && s.settled[i].id == id;
      assert r.settled[i].id == id;
    }
    if id in s.pending {
      var i :| 0 <= i < |s.pending| && s.pending[i] == id;
      assert r.settled[|s.settled| + i].id == id;
    }
    if IsSettled(r, id) {
      var i :| 0 <= i < |r.settled| && r.settled[i].id == id;
      if |s.settled| <= i {
        assert s.pending[i - |s.settled|] == id;
      }
    }
  }

  lemma FailKeepsCore(s: State, reason: Reason)
    requires Core(s)
    ensures Core(Fail(s, reason))
  {
    var r := Fail(s, reason);
    forall id
      ensures IsSettled(r, id) <==> IsSettled(s, id) || id in s.pending
    {
      FailSettled(s, reason, id);
    }
    forall i, j | 0 <= i < j < |r.settled|
      ensures r.settled[i].id != r.settled[j].id
    {
      if i < |s.settled| <= j {
        assert IsSettled(s, s.settled[i].id);
        assert s.pending[j - |s.settled|] in s.pending;
      }
    }
    forall i | 0 <= i < |r.settled|
      ensures r.settled[i].id in s.issued
      ensures r.settled[i].outcome.Answered? ==> s.issued[r.settled[i].id] == r.settled[i].outcome.from
    {
      if |s.settled| <= i {
        assert s.pending[i - |s.settled|] in s.pending;
      }
    }
  }

  lemma StartKeepsCore(s: State)
    requires Core(s)
    ensures Core(Start(s))
  {
    assert forall id :: IsSettled(Start(s), id) <==> IsSettled(s, id);
  }

  lemma NumberKeepsCore(s: State)
    requires Core(s)
    ensures Core(s.(sequence := s.sequence + 1))
  {
    assert forall x :: IsSettled(s.(sequence := s.sequence + 1), x) <==> IsSettled(s, x);
  }

  lemma {:induction false} IssueKeepsCore(cfg: Config, s: State, size: nat, signal: Signal)
    requires Core(s)
    ensures Core(Issue(cfg, s, size, signal))
  {
    var started := Start(s);
    StartKeepsCore(s);
    if size > cfg.maxInput {
      NumberKeepsCore(started);
    } else {
      AcceptKeepsCore(started, signal);
    }
  }

  lemma {:induction false} AcceptKeepsCore(s: State, signal: Signal)
    requires Core(s) && s.child.Some?
    ensures Core(Accept(s, signal))
  {
    var waiting := Enter(s.(sequence := s.sequence + 1), IdOf(s.sequence + 1), signal != NoSignal);
    NextEnters(s, signal != NoSignal);
    if signal == AlreadyAborted {
      FailKeepsCore(waiting, Aborted);
    }
  }

  lemma NextEnters(s: State, listen: bool)
    requires Core(s) && s.child.Some?
    ensures Core(Enter(s.(sequence := s.sequence + 1), IdOf(s.sequence + 1), listen))
  {
    IdFresh(s);
    NumberKeepsCore(s);
    EnterKeepsCore(s.(sequence := s.sequence + 1), IdOf(s.sequence + 1), listen);
  }

  lemma EnterKeepsCore(s: State, id: string, listen: bool)
    requires Core(s) && s.child.Some? && id !in s.issued && (exists n :: 1 <= n <= s.sequence && id == IdOf(n))
    ensures Core(Enter(s, id, listen))
  {
    var r := Enter(s, id, listen);
    assert forall x :: IsSettled(r, x) <==> IsSettled(s, x);
    assert AsSet(r.pending) == AsSet(s.pending) + {id};
  }

  lemma {:induction false} WithoutUnique(ids: seq<string>, id: string)
    requires Unique(ids)
    ensures Unique(Without(ids, id))
  {
    if ids != [] {
      WithoutUnique(ids[1..], id);
      assert ids[0] !in ids[1..];
    }
  }

  lemma {:induction false} AnswerKeepsCore(s: State, id: string, answer: Answer)
    requires Core(s) && s.child.Some? && id in s.pending
    ensures Core(Replied(s, id, answer))
  {
    var r := Replied(s, id, answer);
    WithoutUnique(s.pending, id);
    forall x
      ensures IsSettled(r, x) <==> IsSettled(s, x) || x == id
    {
      if IsSettled(s, x) {
        var i :| 0 <= i < |s.settled| && s.settled[i].id == x;
        assert r.settled[i].id == x;
      }
      assert r.settled[|s.settled|].id == id;
    }
    forall i | 0 <= i < |s.settled|
      ensures s.settled[i].id != id
    {
      assert IsSettled(s, s.settled[i].id);
    }
    assert AsSet(r.pending) == AsSet(s.pending) - {id};
  }

  lemma CoreIgnoresBuffer(s: State, b: seq<Byte>)
    requires Core(s) && s.child.Some?
    ensures Core(s.(buffer := b))
  {
    assert forall x :: IsSettled(s.(buffer := b), x) <==> IsSettled(s, x);
  }

  lemma {:induction false} TakeLineKeepsCore(cfg: Config, s: State, line: seq<Byte>)
    requires Core(s) && s.child.Some?
    ensures Core(TakeLine(cfg, s, line))
  {
    if |line| > cfg.maxOutput {
      FailKeepsCore(s, TooLong);
    } else {
      match cfg.parse(line)
      case Malformed => FailKeepsCore(s, BadJson);
      case Envelope(id, answer) => EnvelopeKeepsCore(s, id, answer);
    }
  }

  lemma {:induction false} EnvelopeKeepsCore(s: State, id: Option<string>, answer: Answer)
    requires Core(s) && s.child.Some?
    ensures Core(if id.None? || id.value !in s.pending then Fail(s, UnknownId) else Replied(s, id.value, answer))
  {
    if id.None? || id.value !in s.pending {
      FailKeepsCore(s, UnknownId);
    } else {
      AnswerKeepsCore(s, id.value, answer);
    }
  }

  lemma {:induction false} DrainKeepsCore(cfg: Config, s: State)
    requires Core(s) && s.child.Some?
    ensures Core(Drain(cfg, s))
    decreases |s.buffer|
  {
    var n := IndexOf(s.buffer, NEWLINE);
    if n < 0 {
      DrainTail(cfg, s);
      FailKeepsCore(s, TooLong);
    } else {
      var line, rest := s.buffer[..n], s.buffer[n + 1..];
      DrainLine(cfg, s, line, rest);
      CoreIgnoresBuffer(s, rest);
      TakeLineKeepsCore(cfg, s.(buffer := rest), line);
      var next := TakeLine(cfg, s.(buffer := rest), line);
      if next.child.Some? {
        DrainKeepsCore(cfg, next);
      }
    }
  }

  lemma {:induction false} StepKeepsInv(cfg: Config, s: State, e: Event)
    requires Inv(cfg, s)
    ensures Inv(cfg, Step(cfg, s, e))
  {
    match e
    case Request(size, signal) =>
      IssueKeepsCore(cfg, s, size, signal);
    case Data(gen, chunk) =>
      if s.child == Some(gen) {
        var start := s.(buffer := s.buffer + chunk);
        CoreIgnoresBuffer(s, start.buffer);
        DrainKeepsCore(cfg, start);
      }
    case Error(gen) =>
      FailKeepsCore(s, ChildError);
    case Close(gen) =>
      FailKeepsCore(s, ChildClosed);
    case Timeout(id) =>
      FailKeepsCore(s, TimedOut);
    case Abort(id) =>
      FailKeepsCore(s, Aborted);
    case Dispose =>
      FailKeepsCore(s, Disposed);
  }

  /** The invariant holds after every run of events from the fresh client. */
  lemma {:induction false} RunKeepsInv(cfg: Config, s: State, es: seq<Event>)
    requires Inv(cfg, s)
    ensures Inv(cfg, Run(cfg, s, es))
    decreases |es|
  {
    if es != [] {
      StepKeepsInv(cfg, s, es[0]);
      RunKeepsInv(cfg, Step(cfg, s, es[0]), es[1..]);
    }
  }

  /** Every id ever issued is, after any run, either pending under the current child or settled
      exactly once; what settled it is an envelope of its own generation or a failure. */
  lemma {:induction false} EveryRunIsSafe(cfg: Config, es: seq<Event>)
    ensures Inv(cfg, Run(cfg, INITIAL, es))
  {
    RunKeepsInv(cfg, INITIAL, es);
  }

  /** Settlements are final: a run only ever appends to them. */
  lemma {:induction false} SettlementsAreFinal(cfg: Config, s: State, es: seq<Event>)
    ensures s.settled <= Run(cfg, s, es).settled
    decreases |es|
  {
    if es != [] {
      StepAppends(cfg, s, es[0]);
      SettlementsAreFinal(cfg, Step(cfg, s, es[0]), es[1..]);
    }
  }

  lemma StepAppends(cfg: Config, s: State, e: Event)
    ensures s.settled <= Step(cfg, s, e).settled
  {
  }

  /** Disposal leaves no promise unsettled. */
  lemma {:induction false} DisposalSettlesAll(cfg: Config, es: seq<Event>, id: string)
    requires id in Run(cfg, INITIAL, es).issued
    ensures IsSettled(Step(cfg, Run(cfg, INITIAL, es), Dispose), id)
  {
    EveryRunIsSafe(cfg, es);
    FailSettled(Run(cfg, INITIAL, es), Disposed, id);
  }

  // ---------------------------------------------------------------------------------------------
  // Multiplexing
  // ---------------------------------------------------------------------------------------------

  /** A reply line: it parses to the envelope of request `id` and fits the limit. */
  ghost predicate Replies(cfg: Config, line: seq<Byte>, id: string, answer: Answer) {
    NEWLINE !in line && |line| <= cfg.maxOutput && cfg.parse(line) == Envelope(Some(id), answer)
  }

  function Frames(lines: seq<seq<Byte>>): seq<Byte> {
    if lines == [] then [] else lines[0] + [NEWLINE] + Frames(lines[1..])
  }

  function Answers(gen: nat, ids: seq<string>, answers: seq<Answer>): seq<Settlement>
    requires |ids| == |answers|
  {
    if ids == [] then []
    else [Settlement(ids[0], Answered(gen, answers[0]))] + Answers(gen, ids[1..], answers[1..])
  }

  lemma OneReply(cfg: Config, s: State, line: seq<Byte>, rest: seq<Byte>, id: string, answer: Answer)
    requires s.child.Some? && s.buffer == line + [NEWLINE] + rest
    requires id in s.pending && Replies(cfg, line, id, answer)
    ensures Drain(cfg, s) == Drain(cfg, Replied(s.(buffer := rest), id, answer))
  {
    DrainLine(cfg, s, line, rest);
    assert TakeLine(cfg, s.(buffer := rest), line) == Replied(s.(buffer := rest), id, answer);
  }

  ghost predicate AllReplied(s: State, ids: seq<string>, answers: seq<Answer>, r: State)
    requires s.child.Some? && |ids| == |answers|
  {
    && r.child == s.child && r.buffer == []
    && r.settled == s.settled + Answers(s.child.value, ids, answers)
    && (forall x :: x in r.pending <==> x in s.pending && x !in ids)
  }

  lemma AllRepliedCons(s: State, ids: seq<string>, answers: seq<Answer>, rest: seq<Byte>, r: State)
    requires s.child.Some? && |ids| == |answers| && ids != []
    requires AllReplied(Replied(s.(buffer := rest), ids[0], answers[0]), ids[1..], answers[1..], r)
    ensures AllReplied(s, ids, answers, r)
  {
    assert ids == [ids[0]] + ids[1..];
  }

  ghost predicate AllReply(cfg: Config, pending: seq<string>, lines: seq<seq<Byte>>, ids: seq<string>, answers: seq<Answer>) {
    && |lines| == |ids| == |answers| && Unique(ids)
    && forall i :: 0 <= i < |ids| ==> ids[i] in pending && Replies(cfg, lines[i], ids[i], answers[i])
  }

  lemma AllReplyTail(cfg: Config, pending: seq<string>, lines: seq<seq<Byte>>, ids: seq<string>, answers: seq<Answer>)
    requires AllReply(cfg, pending, lines, ids, answers) && lines != []
    ensures AllReply(cfg, Without(pending, ids[0]), lines[1..], ids[1..], answers[1..])
  {
    assert forall i :: 0 < i < |ids| ==> ids[i] != ids[0];
  }

  /** Replies may come in any order: each settles its own request with its own answer, in the
      order of the replies, and the other requests stay pending. */
  lemma {:induction false} RepliesReachTheirRequests(cfg: Config, s: State, lines: seq<seq<Byte>>, ids: seq<string>, answers: seq<Answer>)
    requires s.child.Some? && s.buffer == Frames(lines)
    requires AllReply(cfg, s.pending, lines, ids, answers)
    ensures AllReplied(s, ids, answers, Drain(cfg, s))
    decreases |lines|
  {
    if lines == [] {
      DrainTail(cfg, s);
    } else {
      OneReply(cfg, s, lines[0], Frames(lines[1..]), ids[0], answers[0]);
      var next := Replied(s.(buffer := Frames(lines[1..])), ids[0], answers[0]);
      AllReplyTail(cfg, s.pending, lines, ids, answers);
      RepliesReachTheirRequests(cfg, next, lines[1..], ids[1..], answers[1..]);
      AllRepliedCons(s, ids, answers, Frames(lines[1..]), Drain(cfg, next));
    }
  }
}
