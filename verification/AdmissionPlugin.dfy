/**
 The plugin's admission handlers as they update the plugin's own maps in place.

 The plugin keeps less than the model: `pendingExecutions` holds only the decision of a record that is
 due, and `hiddenTools` is a set computed once.  `Coupled` ties both to the model, and each method,
 the stretch of a handler between two awaits, takes exactly the model's step, on which the properties
 of all interleavings are proved.  `flights` stands for the handlers suspended at an await.
 */
module AdmissionPlugin {
  import opened Wrappers
  import opened CanonicalJson
  import opened RouterConfig
  import opened Admission
  import Model = Admission

  class Plugin {
    const world: World
    const config: Config
    const hiddenTools: set<string>
    var hintedMessages: map<nat, Hint>
    var activeTurns: map<nat, Active>
    var admittedNested: map<nat, string>
    var pendingExecutions: map<string, Decision>
    var flights: map<nat, Flight>
    var flightCount: nat
    ghost var owed: map<string, Record>
    ghost var routed: set<Answer>
    ghost var written: seq<Record>

    ghost predicate Coupled()
      reads this
    {
      && (forall x :: x in hiddenTools <==> Hidden(config, x))
      && pendingExecutions.Keys == owed.Keys
      && forall c :: c in owed ==> pendingExecutions[c] == owed[c].decision
    }

    ghost function Abs(): State
      reads this
    {
      State(hintedMessages, activeTurns, admittedNested, flights, owed, routed, flightCount, written)
    }

    constructor (world: World, config: Config)
      ensures Coupled() && this.world == world && this.config == config && Abs() == INITIAL
    {
      var hidden := HiddenNames(config);
      this.world, this.config, this.hiddenTools := world, config, hidden;
      hintedMessages, activeTurns, admittedNested, pendingExecutions, flights := map[], map[], map[], map[], map[];
      flightCount, owed, routed, written := 0, map[], {}, [];
    }

    /** The `aeep` command, from the routing answer on. */
    method AdmitHint(message: nat, capability: string, input: Value, decision: Decision, tools: Registry, queued: bool)
      requires Coupled()
      modifies this
      ensures Coupled()
      ensures Abs() == Step(world, config, old(Abs()), HintRouted(message, capability, input, decision, tools, queued))
    {
      var route := FindCapability(config.routes, capability);
      if route.None? {
        return;
      }
      routed := routed + {Answer(capability, input, decision)};
      var selection := CheckedSelection(world, config, route.value.source, decision, tools, input);
      if selection.None? {
        return;
      }
      if queued {
        hintedMessages := hintedMessages[message := Hint(capability, input, route.value.source, decision)];
      } else {
        hintedMessages := hintedMessages - {message};
      }
    }

    /** `agent/inbox/claimed`: a hint is used up by the turn that claims its message. */
    method Claim(agent: nat, message: nat, turn: nat)
      requires Coupled()
      modifies this
      ensures Coupled()
      ensures Abs() == Model.OnClaimed(config, old(Abs()), agent, message, turn)
      ensures message !in hintedMessages && agent in activeTurns
    {
      var hint := if message in hintedMessages then Some(hintedMessages[message]) else None;
      hintedMessages := hintedMessages - {message};
      activeTurns := activeTurns[agent := Active(turn, hint, AllowedSet(config, hint))];
    }

    /** The tool guard. */
    method Allows(exec: Exec) returns (allowed: bool)
      requires Coupled()
      ensures allowed <==> Guard(config, Abs(), exec)
      ensures Abs() == old(Abs())
    {
      if exec.agent.None? {
        return true;
      }
      if exec.parent.Some? {
        if exec.name !in hiddenTools {
          return true;
        }
        return exec.parent.value in admittedNested && admittedNested[exec.parent.value] == exec.name;
      }
      var names := if exec.agent.value in activeTurns then activeTurns[exec.agent.value].allowed else AllowedSet(config, None);
      return exec.name in names;
    }

    /** `tools/execute` of a top-level call, up to its first await. */
    method Execute(exec: Exec, tools: Registry)
      requires Coupled()
      modifies this
      ensures Coupled()
      ensures Abs() == OnExecute(world, config, old(Abs()), exec, tools)
    {
      if exec.parent.Some? || exec.agent.None? || exec.agent.value !in activeTurns {
        return;
      }
      var hint := activeTurns[exec.agent.value].hint;
      if hint.None? || hint.value.source != exec.name {
        return;
      }
      Launch(exec, hint.value, tools);
    }

    /** A hinted call: arguments that print unlike the hint's input are routed again first. */
    method Launch(exec: Exec, hint: Hint, tools: Registry)
      requires Coupled()
      modifies this
      ensures Coupled()
      ensures Abs() == Begin(world, config, old(Abs()), exec, hint, tools)
    {
      var f := flightCount;
      flightCount := flightCount + 1;
      if world.text(exec.arguments) != world.text(hint.input) {
        flights := flights[f := Routing(exec, hint)];
      } else {
        var selection := CheckedSelection(world, config, exec.name, hint.decision, tools, exec.arguments);
        Proceed(f, exec, hint, hint.decision, selection);
      }
    }

    /** The stretch from the checked selection to the next await. */
    method Proceed(f: nat, exec: Exec, hint: Hint, decision: Decision, selection: Option<Selection>)
      requires Coupled()
      modifies this
      ensures Coupled()
      ensures Abs() == Select(old(Abs()), f, exec, hint, decision, selection)
      ensures selection.Some? && selection.value.tool != exec.name ==>
        exec.token in admittedNested && admittedNested[exec.token] == selection.value.tool
    {
      if selection.None? {
        Finish(f, exec.callId, decision, Record(f, exec, hint, decision, false));
        return;
      }
      flights := flights[f := Running(exec, hint, decision, selection.value)];
      if selection.value.tool != exec.name {
        admittedNested := admittedNested[exec.token := selection.value.tool];
      }
    }

    /** The handler ends, with a value or an error: a record is due. */
    method Finish(f: nat, callId: string, decision: Decision, ghost x: Record)
      requires Coupled() && x.flight == f && x.exec.callId == callId && x.decision == decision
      modifies this
      ensures Coupled()
      ensures Abs() == Ended(old(Abs()), x, old(admittedNested))
    {
      flights := flights - {f};
      pendingExecutions := pendingExecutions[callId := decision];
      owed := owed[callId := x];
    }

    /** `route` has answered for a call whose arguments differ from the hint's. */
    method Resume(f: nat, decision: Decision, tools: Registry)
      requires Coupled()
      modifies this
      ensures Coupled()
      ensures Abs() == OnRerouted(world, config, old(Abs()), f, decision, tools)
    {
      if f !in flights || !flights[f].Routing? {
        return;
      }
      var flight := flights[f];
      routed := routed + {Answer(flight.hint.capability, flight.exec.arguments, decision)};
      var selection := CheckedSelection(world, config, flight.exec.name, decision, tools, flight.exec.arguments);
      Proceed(f, flight.exec, flight.hint, decision, selection);
    }

    /** `route` has failed for such a call. */
    method GiveUp(f: nat)
      requires Coupled()
      modifies this
      ensures Coupled()
      ensures Abs() == OnRerouteFailed(old(Abs()), f)
    {
      if f !in flights || !flights[f].Routing? {
        return;
      }
      var flight := flights[f];
      Finish(f, flight.exec.callId, flight.hint.decision, Record(f, flight.exec, flight.hint, flight.hint.decision, true));
    }

    /** `next()` or the nested execution has settled. */
    method Return(f: nat)
      requires Coupled()
      modifies this
      ensures Coupled()
      ensures Abs() == OnReturned(old(Abs()), f)
    {
      if f !in flights || !flights[f].Running? {
        return;
      }
      var flight := flights[f];
      if flight.selection.tool != flight.exec.name {
        admittedNested := admittedNested - {flight.exec.token};
      }
      Finish(f, flight.exec.callId, flight.decision, Record(f, flight.exec, flight.hint, flight.decision, false));
    }

    /** `tools/result`: the record due for the call is written, once, under the decision kept for it. */
    method SeeResult(exec: Exec) returns (decision: Option<Decision>)
      requires Coupled()
      modifies this
      ensures Coupled()
      ensures Abs() == OnResultSeen(old(Abs()), exec)
      ensures decision.None? ==> Abs() == old(Abs())
      ensures decision.Some? ==>
        |written| == |old(written)| + 1 && written[|written| - 1].decision == decision.value
    {
      if exec.parent.Some? || exec.agent.None? || exec.callId !in pendingExecutions {
        return None;
      }
      decision := Some(pendingExecutions[exec.callId]);
      pendingExecutions := pendingExecutions - {exec.callId};
      written := written + [owed[exec.callId]];
      owed := owed - {exec.callId};
    }

    /** The host's dispatch of one event. */
    method Handle(e: Event)
      requires Coupled()
      modifies this
      ensures Coupled()
      ensures Abs() == Step(world, config, old(Abs()), e)
    {
      match e
      case HintRouted(message, capability, input, decision, tools, queued) =>
        AdmitHint(message, capability, input, decision, tools, queued);
      case Claimed(agent, message, turn) => Claim(agent, message, turn);
      case Discarded(message) => hintedMessages := hintedMessages - {message};
      case TurnEnded(agent) => activeTurns := activeTurns - {agent};
      case Execute(exec, tools) => Execute(exec, tools);
      case Rerouted(f, decision, tools) => Resume(f, decision, tools);
      case RerouteFailed(f) => GiveUp(f);
      case Returned(f) => Return(f);
      case ResultSeen(exec) =>
        var decision := SeeResult(exec);
    }
  }

  /** `hiddenTools`: the target tools that do not bear the name of their route's source. */
  function HiddenNames(config: Config): (hidden: set<string>)
    ensures forall x :: x in hidden <==> Hidden(config, x)
  {
    set r, t | r in config.routes && t in r.targets && t.tool != r.source :: t.tool
  }
}
