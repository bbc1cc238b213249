/**
 The bridge client.  Its methods rewrite the fields step by step; each is proved to take exactly
 the step of the protocol model, on which the properties of whole runs are proved.
 */
module BridgeClient {
  import opened Wrappers
  import opened BridgeProtocol
  import Protocol = BridgeProtocol
  import opened BridgeEvents

  class BridgeClient {
    const config: Config
    var child: Option<nat>
    var buffer: seq<Byte>
    var pending: seq<string>
    var sequence: nat
    var spawnCount: nat
    var timers: set<string>
    var listeners: set<string>
    ghost var issued: map<string, nat>
    ghost var settled: seq<Settlement>

    ghost function Abs(): State
      reads this
    {
      State(child, buffer, pending, sequence, spawnCount, timers, listeners, issued, settled)
    }

    constructor (config: Config)
      ensures this.config == config && Abs() == INITIAL
    {
      this.config := config;
      child := None;
      buffer := [];
      pending := [];
      sequence := 0;
      spawnCount := 0;
      timers := {};
      listeners := {};
      issued := map[];
      settled := [];
    }

    method Start()
      modifies this
      ensures Abs() == Protocol.Start(old(Abs())) && child.Some?
    {
      if child.Some? {
        return;
      }
      spawnCount := spawnCount + 1;
      child := Some(spawnCount);
    }

    method Fail(reason: Reason)
      modifies this
      ensures Abs() == Protocol.Fail(old(Abs()), reason)
    {
      ghost var s := Abs();
      child := None;
      buffer := [];
      for i := 0 to |pending|
        invariant pending == s.pending && child.None? && buffer == []
        invariant sequence == s.sequence && spawnCount == s.spawnCount && issued == s.issued
        invariant timers == s.timers - AsSet(pending[..i])
        invariant listeners == s.listeners - AsSet(pending[..i])
        invariant settled == s.settled + FailAll(pending[..i], reason)
      {
        assert pending[..i + 1] == pending[..i] + [pending[i]];
        timers := timers - {pending[i]};
        listeners := listeners - {pending[i]};
        settled := settled + [Settlement(pending[i], Failed(reason))];
        assert FailAll(pending[..i + 1], reason) == FailAll(pending[..i], reason) + [Settlement(pending[i], Failed(reason))];
      }
      assert pending[..|pending|] == pending;
      pending := [];
    }

    method OnData(chunk: seq<Byte>)
      requires child.Some?
      modifies this
      ensures Abs() == Protocol.OnData(config, old(Abs()), chunk)
    {
      buffer := buffer + chunk;
      ghost var goal := Drain(config, Abs());
      var more := true;
      while more
        invariant more ==> child.Some? && Drain(config, Abs()) == goal
        invariant !more ==> Abs() == goal
        decreases more, |buffer|
      {
        more := NextLine();
      }
    }

    /** One round of the loop; `more` tells whether it goes round again. */
    method NextLine() returns (more: bool)
      requires child.Some?
      modifies this
      ensures more ==> child.Some? && |buffer| < |old(buffer)| && Drain(config, Abs()) == Drain(config, old(Abs()))
      ensures !more ==> Abs() == Drain(config, old(Abs()))
    {
      ghost var s := Abs();
      var newline := IndexOf(buffer, NEWLINE);
      if newline < 0 {
        DrainTail(config, s);
        if |buffer| > config.maxOutput {
          Fail(TooLong);
        }
        return false;
      }
      var line, rest := buffer[..newline], buffer[newline + 1..];
      DrainLine(config, s, line, rest);
      buffer := rest;
      assert Abs() == s.(buffer := rest);
      TakeLine(line);
      more := child.Some?;
    }

    /** The part of the loop that deals with one complete line. */
    method TakeLine(line: seq<Byte>)
      requires child.Some?
      modifies this
      ensures Abs() == Protocol.TakeLine(config, old(Abs()), line)
      ensures child.Some? ==> buffer == old(buffer)
    {
      if |line| > config.maxOutput {
        Fail(TooLong);
        return;
      }
      var envelope := config.parse(line);
      if envelope.Malformed? {
        Fail(BadJson);
        return;
      }
      if envelope.id.None? || envelope.id.value !in pending {
        Fail(UnknownId);
        return;
      }
      pending := Without(pending, envelope.id.value);
      timers := timers - {envelope.id.value};
      listeners := listeners - {envelope.id.value};
      settled := settled + [Settlement(envelope.id.value, Answered(child.value, envelope.answer))];
    }

    /** `request`: the promise is rejected at once when `accepted` is false. */
    method Request(size: nat, signal: Signal) returns (id: string, accepted: bool)
      modifies this
      ensures Abs() == Issue(config, old(Abs()), size, signal)
      ensures id == IdOf(old(sequence) + 1) && accepted == (size <= config.maxInput)
    {
      Start();
      sequence := sequence + 1;
      id := IdOf(sequence);
      accepted := size <= config.maxInput;
      if !accepted {
        return;
      }
      pending := pending + [id];
      timers := timers + {id};
      issued := issued[id := child.value];
      if signal != NoSignal {
        listeners := listeners + {id};
      }
      if signal == AlreadyAborted {
        Fail(Aborted);
      }
    }

    /** The callbacks registered with the child process, the timers and the abort signals. */
    method Handle(e: Event)
      modifies this
      ensures Abs() == Step(config, old(Abs()), e)
      ensures forall reason :: Inv(config, old(Abs())) && Fires(old(Abs()), e, reason) ==> AllEnded(old(Abs()), Abs(), reason)
      ensures Inv(config, old(Abs())) && Stale(old(Abs()), e) ==> Abs() == old(Abs())
    {
      EventLaws(config, Abs(), e);
      match e
      case Request(size, signal) =>
        var id, accepted := Request(size, signal);
      case Data(gen, chunk) =>
        if child == Some(gen) {
          OnData(chunk);
        }
      case Error(gen) =>
        if child == Some(gen) {
          Fail(ChildError);
        }
      case Close(gen) =>
        if child == Some(gen) {
          Fail(ChildClosed);
        }
      case Timeout(id) =>
        if id in timers {
          Fail(TimedOut);
        }
      case Abort(id) =>
        if id in listeners {
          Fail(Aborted);
        }
      case Dispose =>
        Fail(Disposed);
    }
  }
}
