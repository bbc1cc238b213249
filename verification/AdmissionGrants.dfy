/**
 What the admission handlers grant: the nested call of a selected tool passes the guard for as long as
 the execution that selected it is in flight, a turn gives exactly its hint's tool, and a hinted call
 goes from its hint to one record.
 */
module AdmissionGrants {
  import opened Wrappers
  import opened CanonicalJson
  import opened RouterConfig
  import opened Admission

  // ---------------------------------------------------------------------------------------------
  // Nested calls
  // ---------------------------------------------------------------------------------------------

  /** No other execution in flight has the token of this one. */
  ghost predicate Alone(s: State, f: nat)
    requires f in s.flights
  {
    forall g :: g in s.flights && g != f ==> s.flights[g].exec.token != s.flights[f].exec.token
  }

  /** So it is in `s` and after every event of the run, as long as the execution is in flight. */
  ghost predicate AloneThroughout(w: World, cfg: Config, s: State, es: seq<Event>, f: nat)
    decreases |es|
  {
    (f in s.flights ==> Alone(s, f)) && (es == [] || AloneThroughout(w, cfg, Step(w, cfg, s, es[0]), es[1..], f))
  }

  /** An execution that runs another tool has that tool admitted under its token. */
  ghost predicate HasGrant(s: State, f: nat) {
    f in s.flights && s.flights[f].Running? && s.flights[f].selection.tool != s.flights[f].exec.name ==>
      Admits(s, s.flights[f].exec.token, s.flights[f].selection.tool)
  }

  ghost predicate Admits(s: State, token: nat, tool: string) {
    token in s.admitted && s.admitted[token] == tool
  }

  // What a step does to the executions in flight and to the admissions.

  /** An execution is sent to route, or runs: then it grants what it selected in its own tool's stead. */
  ghost predicate TookOff(s: State, r: State, e: Event, f: nat, fl: Flight) {
    && r.flights == s.flights[f := fl]
    && r.admitted == (if fl.Running? && fl.selection.tool != fl.exec.name
                      then s.admitted[fl.exec.token := fl.selection.tool] else s.admitted)
    && if f in s.flights then s.flights[f].Routing? && fl.exec == s.flights[f].exec
       else f == s.flightCount && e.Execute? && fl.exec == e.exec
  }

  /** An execution that ran another tool than its own takes its admission with it. */
  ghost predicate Landed(s: State, r: State, f: nat) {
    && f in s.flights && s.flights[f].Running? && r.flights == s.flights - {f}
    && r.admitted == (if s.flights[f].selection.tool == s.flights[f].exec.name then s.admitted
                      else s.admitted - {s.flights[f].exec.token})
  }

  ghost predicate Moved(s: State, r: State, e: Event) {
    || (r.admitted == s.admitted && r.flights == s.flights)
    || (r.admitted == s.admitted && exists f :: r.flights == s.flights - {f} && !(f in s.flights && s.flights[f].Running?))
    || (exists f, fl :: TookOff(s, r, e, f, fl))
    || (e.Returned? && Landed(s, r, e.flight))
  }

  lemma {:induction false} SelectMoves(s: State, e: Event, f: nat, exec: Exec, hint: Hint, decision: Decision, sel: Option<Selection>, r: State)
    requires r.flights == Select(s, f, exec, hint, decision, sel).flights
    requires r.admitted == Select(s, f, exec, hint, decision, sel).admitted
    requires if f in s.flights then s.flights[f].Routing? && s.flights[f].exec == exec
             else f == s.flightCount && e.Execute? && e.exec == exec
    ensures Moved(s, r, e)
  {
    if sel.None? {
      assert r.flights == s.flights - {f};
    } else {
      assert TookOff(s, r, e, f, Running(exec, hint, decision, sel.value));
    }
  }

  lemma {:induction false} BeginMoves(w: World, s: State, e: Event, exec: Exec, hint: Hint, sel: Option<Selection>, r: State)
    requires s.flightCount !in s.flights && e.Execute? && e.exec == exec && r == BeginWith(w, s, exec, hint, sel)
    ensures Moved(s, r, e)
  {
    var f := s.flightCount;
    if w.text(exec.arguments) == w.text(hint.input) {
      SelectMoves(s, e, f, exec, hint, hint.decision, sel, r);
    } else {
      assert TookOff(s, r, e, f, Routing(exec, hint));
    }
  }

  lemma {:induction false} ExecuteMoves(w: World, cfg: Config, s: State, exec: Exec, tools: Registry)
    requires s.flightCount !in s.flights
    ensures Moved(s, OnExecute(w, cfg, s, exec, tools), Execute(exec, tools))
  {
    var r := OnExecute(w, cfg, s, exec, tools);
    if exec.parent.None? && exec.agent.Some? && exec.agent.value in s.active {
      var hint := s.active[exec.agent.value].hint;
      if hint.Some? && hint.value.source == exec.name {
        var sel := CheckedSelection(w, cfg, exec.name, hint.value.decision, tools, exec.arguments);
        BeginMoves(w, s, Execute(exec, tools), exec, hint.value, sel, r);
      }
    }
  }

  lemma {:induction false} ReroutedMoves(w: World, cfg: Config, s: State, f: nat, decision: Decision, tools: Registry)
    ensures Moved(s, OnRerouted(w, cfg, s, f, decision, tools), Rerouted(f, decision, tools))
  {
    if f in s.flights && s.flights[f].Routing? {
      var fl := s.flights[f];
      var sel := CheckedSelection(w, cfg, fl.exec.name, decision, tools, fl.exec.arguments);
      SelectMoves(s, Rerouted(f, decision, tools), f, fl.exec, fl.hint, decision, sel, OnRerouted(w, cfg, s, f, decision, tools));
    }
  }

  lemma {:induction false} RerouteFailedMoves(s: State, f: nat)
    ensures Moved(s, OnRerouteFailed(s, f), RerouteFailed(f))
  {
    assert f !in s.flights || !s.flights[f].Routing? || OnRerouteFailed(s, f).flights == s.flights - {f};
  }

  lemma {:induction false} ReturnedMoves(s: State, f: nat)
    ensures Moved(s, OnReturned(s, f), Returned(f))
  {
    if f in s.flights && s.flights[f].Running? {
      assert Landed(s, OnReturned(s, f), f);
    }
  }

  lemma {:induction false} StepMoves(w: World, cfg: Config, s: State, e: Event)
    requires s.flightCount !in s.flights
    ensures Moved(s, Step(w, cfg, s, e), e)
  {
    match e
    case Execute(exec, tools) => ExecuteMoves(w, cfg, s, exec, tools);
    case Rerouted(f, decision, tools) => ReroutedMoves(w, cfg, s, f, decision, tools);
    case RerouteFailed(f) => RerouteFailedMoves(s, f);
    case Returned(f) => ReturnedMoves(s, f);
    case _ =>
  }

  /** An execution that takes off has its grant, and disturbs no other one with another token. */
  lemma {:induction false} TakeOffGrants(s: State, r: State, e: Event, f: nat, fl: Flight, g: nat)
    requires TookOff(s, r, e, f, fl) && HasGrant(s, g) && (g in r.flights ==> Alone(r, g))
    ensures HasGrant(r, g)
  {
    if g in r.flights && g != f {
      assert f in r.flights && r.flights[f] == fl;
    }
  }

  lemma {:induction false} LandingKeepsGrant(s: State, r: State, f: nat, g: nat)
    requires Landed(s, r, f) && HasGrant(s, g) && (g in s.flights ==> Alone(s, g))
    ensures HasGrant(r, g)
  {
  }

  lemma {:induction false} StepKeepsGrant(s: State, r: State, e: Event, g: nat)
    requires Moved(s, r, e) && HasGrant(s, g)
    requires (g in s.flights ==> Alone(s, g)) && (g in r.flights ==> Alone(r, g))
    ensures HasGrant(r, g)
  {
    if f, fl :| TookOff(s, r, e, f, fl) {
      TakeOffGrants(s, r, e, f, fl, g);
    } else if e.Returned? && Landed(s, r, e.flight) {
      LandingKeepsGrant(s, r, e.flight, g);
    }
  }

  lemma {:induction false} RunKeepsGrant(w: World, cfg: Config, s: State, es: seq<Event>, g: nat)
    requires Inv(w, cfg, s) && HasGrant(s, g) && AloneThroughout(w, cfg, s, es, g)
    ensures HasGrant(Run(w, cfg, s, es), g) && (g in Run(w, cfg, s, es).flights ==> Alone(Run(w, cfg, s, es), g))
    decreases |es|
  {
    if es != [] {
      var r := Step(w, cfg, s, es[0]);
      StepMoves(w, cfg, s, es[0]);
      StepKeepsInv(w, cfg, s, es[0]);
      assert AloneThroughout(w, cfg, r, es[1..], g);
      StepKeepsGrant(s, r, es[0], g);
      RunKeepsGrant(w, cfg, r, es[1..], g);
    }
  }

  /** Over every run in which an execution has its token to itself while it is in flight: from the step
      that starts it to the one that ends it, the guard lets an agent's nested call of a hidden tool
      through under that token exactly for the tool selected in its stead. */
  lemma {:induction false} NestedCallPassesIff(w: World, cfg: Config, es: seq<Event>, f: nat, exec: Exec)
    requires AloneThroughout(w, cfg, INITIAL, es, f)
    requires var s := Run(w, cfg, INITIAL, es);
      f in s.flights && s.flights[f].Running? && exec.parent == Some(s.flights[f].exec.token)
    requires exec.agent.Some? && Hidden(cfg, exec.name)
    ensures var s := Run(w, cfg, INITIAL, es); var fl := s.flights[f];
      Guard(cfg, s, exec) <==> fl.selection.tool != fl.exec.name && exec.name == fl.selection.tool
  {
    RunKeepsInv(w, cfg, INITIAL, es);
    RunKeepsGrant(w, cfg, INITIAL, es, f);
    NestedGuard(cfg, Run(w, cfg, INITIAL, es), f, exec);
  }

  lemma {:induction false} NestedGuard(cfg: Config, s: State, f: nat, exec: Exec)
    requires AdmittedOk(s) && f in s.flights && Alone(s, f) && s.flights[f].Running? && HasGrant(s, f)
    requires exec.parent == Some(s.flights[f].exec.token) && exec.agent.Some? && Hidden(cfg, exec.name)
    ensures Guard(cfg, s, exec) <==>
      s.flights[f].selection.tool != s.flights[f].exec.name && exec.name == s.flights[f].selection.tool
  {
    AloneAdmission(s, f);
    assert Guard(cfg, s, exec) <==> Admits(s, s.flights[f].exec.token, exec.name);
  }

  /** What is admitted under the token of an execution that has it to itself is its own selection. */
  lemma {:induction false} AloneAdmission(s: State, f: nat)
    requires AdmittedOk(s) && f in s.flights && Alone(s, f) && s.flights[f].Running? && HasGrant(s, f)
    ensures var fl := s.flights[f]; forall tool ::
      Admits(s, fl.exec.token, tool) <==> fl.selection.tool != fl.exec.name && tool == fl.selection.tool
  {
    var token := s.flights[f].exec.token;
    if token in s.admitted {
      var g :| Grants(s, g, token, s.admitted[token]);
      assert g == f;
    }
  }

  /** A host that gives each execution a token of its own meets that condition. */
  ghost predicate DistinctTokens(es: seq<Event>) {
    forall i, j :: 0 <= i < j < |es| && es[i].Execute? && es[j].Execute? ==> es[i].exec.token != es[j].exec.token
  }

  ghost predicate NoToken(s: State, token: nat) {
    forall f :: f in s.flights ==> s.flights[f].exec.token != token
  }

  ghost predicate AllAlone(s: State) {
    forall f :: f in s.flights ==> Alone(s, f)
  }

  lemma {:induction false} StepTokens(s: State, r: State, e: Event)
    requires Moved(s, r, e) && AllAlone(s) && (e.Execute? ==> NoToken(s, e.exec.token))
    ensures AllAlone(r)
    ensures forall token :: NoToken(s, token) && (e.Execute? ==> token != e.exec.token) ==> NoToken(r, token)
  {
    if f, fl :| TookOff(s, r, e, f, fl) {
      forall g | g in r.flights && g != f
        ensures g in s.flights && r.flights[g] == s.flights[g] && r.flights[g].exec.token != fl.exec.token
      {
        if f in s.flights {
          assert Alone(s, f);
        }
      }
      forall g | g in r.flights
        ensures Alone(r, g)
      {
        if g != f {
          assert Alone(s, g);
        }
      }
    } else {
      assert forall g :: g in r.flights ==> g in s.flights && r.flights[g] == s.flights[g];
      forall g | g in r.flights
        ensures Alone(r, g)
      {
        assert Alone(s, g);
      }
    }
  }

  lemma {:induction false} DistinctTokensAreAlone(w: World, cfg: Config, s: State, es: seq<Event>, f: nat)
    requires Inv(w, cfg, s) && AllAlone(s) && DistinctTokens(es)
    requires forall i :: 0 <= i < |es| && es[i].Execute? ==> NoToken(s, es[i].exec.token)
    ensures AloneThroughout(w, cfg, s, es, f)
    decreases |es|
  {
    if es != [] {
      var r := Step(w, cfg, s, es[0]);
      StepKeepsInv(w, cfg, s, es[0]);
      StepMoves(w, cfg, s, es[0]);
      StepTokens(s, r, es[0]);
      forall i | 0 <= i < |es[1..]| && es[1..][i].Execute?
        ensures NoToken(r, es[1..][i].exec.token)
      {
        assert es[1..][i] == es[i + 1];
      }
      DistinctTokensAreAlone(w, cfg, r, es[1..], f);
    }
  }

  /** So, whatever else happens: as long as an execution of such a host runs another tool than its own,
      the guard admits that tool under its token and no other hidden tool. */
  lemma {:induction false} NestedCallPasses(w: World, cfg: Config, es: seq<Event>, f: nat, exec: Exec)
    requires DistinctTokens(es)
    requires var s := Run(w, cfg, INITIAL, es);
      f in s.flights && s.flights[f].Running? && exec.parent == Some(s.flights[f].exec.token)
    requires exec.agent.Some? && Hidden(cfg, exec.name)
    ensures var s := Run(w, cfg, INITIAL, es); var fl := s.flights[f];
      Guard(cfg, s, exec) <==> fl.selection.tool != fl.exec.name && exec.name == fl.selection.tool
  {
    DistinctTokensAreAlone(w, cfg, INITIAL, es, f);
    NestedCallPassesIff(w, cfg, es, f, exec);
  }

  // That no other execution in flight has the token now is not enough: one that had it, and returned, took
  // the admission with it.

  lemma {:induction false} SharedTokenTakesTheGrant(w: World, cfg: Config, s: State, f: nat, g: nat, exec: Exec)
    requires f in s.flights && g in s.flights && f != g && s.flights[f].Running? && s.flights[g].Running?
    requires s.flights[f].exec.token == s.flights[g].exec.token && s.flights[g].selection.tool != s.flights[g].exec.name
    requires forall h :: h in s.flights && h != f && h != g ==> s.flights[h].exec.token != s.flights[f].exec.token
    requires exec.agent.Some? && exec.parent == Some(s.flights[f].exec.token) && Hidden(cfg, exec.name)
    ensures var r := Step(w, cfg, s, Returned(g));
      f in r.flights && r.flights[f] == s.flights[f] && Alone(r, f) && !Guard(cfg, r, exec)
  {
    var r := Step(w, cfg, s, Returned(g));
    assert r.flights == s.flights - {g} && r.admitted == s.admitted - {s.flights[g].exec.token};
  }

  ghost predicate Reachable(w: World, cfg: Config, s: State) {
    exists es :: Run(w, cfg, INITIAL, es) == s
  }

  lemma {:induction false} RunSnoc(w: World, cfg: Config, s: State, es: seq<Event>, e: Event)
    ensures Run(w, cfg, s, es + [e]) == Step(w, cfg, Run(w, cfg, s, es), e)
    decreases |es|
  {
    if es == [] {
      assert [] + [e] == [e] && [e][1..] == [];
    } else {
      assert (es + [e])[0] == es[0] && (es + [e])[1..] == es[1..] + [e];
      RunSnoc(w, cfg, Step(w, cfg, s, es[0]), es[1..], e);
    }
  }

  lemma {:induction false} ReachableStep(w: World, cfg: Config, s: State, e: Event, r: State)
    requires Reachable(w, cfg, s) && r == Step(w, cfg, s, e)
    ensures Reachable(w, cfg, r)
  {
    var es :| Run(w, cfg, INITIAL, es) == s;
    RunSnoc(w, cfg, INITIAL, es, e);
  }

  const SWAP := Route("read", "page.read", DIGEST, DIGEST, [Target("swapped", "fetch", DIGEST, DIGEST, None)])
  const ONE_SWAP := Config([], [SWAP])
  const TWO_TOOLS: Registry := map["read" := ToolDef(Json.Null, Some(Json.Null)), "fetch" := ToolDef(Json.Null, Some(Json.Null))]
  const SWAP_HINT := Hint("page.read", Json.Null, "read", Decision("d", "swapped"))
  const FETCH := Selection(TWO_TOOLS["read"], TWO_TOOLS["fetch"], "fetch")

  function Call(agent: nat): Exec {
    Exec("read", Json.Null, Some(agent), None, 9, "call")
  }

  lemma {:induction false} SwapIsSelected()
    ensures FindCapability(ONE_SWAP.routes, "page.read") == Some(SWAP)
    ensures CheckedSelection(ANY_WORLD, ONE_SWAP, "read", SWAP_HINT.decision, TWO_TOOLS, Json.Null) == Some(FETCH)
  {
    assert FindRoute([SWAP], "read") == Some(SWAP);
    assert FindTarget(SWAP.targets, "swapped") == Some(SWAP.targets[0]);
  }

  /** From any state, the agent gets the hint in two steps, and a third one runs the other tool. */
  lemma {:induction false} HintedCallRuns(s: State, agent: nat, s1: State, s2: State, s3: State)
    requires s1 == Step(ANY_WORLD, ONE_SWAP, s, HintRouted(agent, "page.read", Json.Null, SWAP_HINT.decision, TWO_TOOLS, true))
    requires s2 == Step(ANY_WORLD, ONE_SWAP, s1, Claimed(agent, agent, 1))
    requires s3 == Step(ANY_WORLD, ONE_SWAP, s2, Execute(Call(agent), TWO_TOOLS))
    ensures s3.flights == s.flights[s.flightCount := Running(Call(agent), SWAP_HINT, SWAP_HINT.decision, FETCH)]
    ensures s3.flightCount == s.flightCount + 1
  {
    SwapIsSelected();
    AdmissibleHintWaits(ANY_WORLD, ONE_SWAP, s, agent, SWAP_HINT, TWO_TOOLS);
    assert s1.hinted[agent] == SWAP_HINT && s1.flightCount == s.flightCount;
    assert s2.active[agent].hint == Some(SWAP_HINT) && s2.flights == s.flights && s2.flightCount == s.flightCount;
    BeginRuns(s2, Call(agent), s3);
  }

  lemma {:induction false} BeginRuns(s: State, exec: Exec, r: State)
    requires exec.agent.Some? && exec.parent.None? && exec.name == "read" && exec.arguments == Json.Null
    requires exec.agent.value in s.active && s.active[exec.agent.value].hint == Some(SWAP_HINT)
    requires r == Step(ANY_WORLD, ONE_SWAP, s, Execute(exec, TWO_TOOLS))
    ensures r.flights == s.flights[s.flightCount := Running(exec, SWAP_HINT, SWAP_HINT.decision, FETCH)]
    ensures r.flightCount == s.flightCount + 1
  {
    SwapIsSelected();
    assert r == BeginWith(ANY_WORLD, s, exec, SWAP_HINT, Some(FETCH));
  }

  /** A reachable state with an execution that runs another tool and now has its token to itself, under
      which the guard refuses that tool. */
  lemma {:induction false} SharedTokenOccurs() returns (s: State, nested: Exec)
    ensures Reachable(ANY_WORLD, ONE_SWAP, s) && 0 in s.flights && Alone(s, 0)
    ensures s.flights[0] == Running(Call(0), SWAP_HINT, SWAP_HINT.decision, FETCH)
    ensures nested.name == "fetch" && nested.agent == Some(0) && nested.parent == Some(9) && !Guard(ONE_SWAP, s, nested)
  {
    var a1 := Step(ANY_WORLD, ONE_SWAP, INITIAL, HintRouted(0, "page.read", Json.Null, SWAP_HINT.decision, TWO_TOOLS, true));
    var a2 := Step(ANY_WORLD, ONE_SWAP, a1, Claimed(0, 0, 1));
    var a3 := Step(ANY_WORLD, ONE_SWAP, a2, Execute(Call(0), TWO_TOOLS));
    var b1 := Step(ANY_WORLD, ONE_SWAP, a3, HintRouted(1, "page.read", Json.Null, SWAP_HINT.decision, TWO_TOOLS, true));
    var b2 := Step(ANY_WORLD, ONE_SWAP, b1, Claimed(1, 1, 1));
    var b3 := Step(ANY_WORLD, ONE_SWAP, b2, Execute(Call(1), TWO_TOOLS));
    HintedCallRuns(INITIAL, 0, a1, a2, a3);
    HintedCallRuns(a3, 1, b1, b2, b3);
    s := Step(ANY_WORLD, ONE_SWAP, b3, Returned(1));
    nested := Exec("fetch", Json.Null, Some(0), Some(9), 10, "nested");
    assert SWAP in ONE_SWAP.routes && SWAP.targets[0] in SWAP.targets && Hidden(ONE_SWAP, "fetch");
    SharedTokenTakesTheGrant(ANY_WORLD, ONE_SWAP, b3, 0, 1, nested);
    assert Run(ANY_WORLD, ONE_SWAP, INITIAL, []) == INITIAL;
    ReachableStep(ANY_WORLD, ONE_SWAP, INITIAL, HintRouted(0, "page.read", Json.Null, SWAP_HINT.decision, TWO_TOOLS, true), a1);
    ReachableStep(ANY_WORLD, ONE_SWAP, a1, Claimed(0, 0, 1), a2);
    ReachableStep(ANY_WORLD, ONE_SWAP, a2, Execute(Call(0), TWO_TOOLS), a3);
    ReachableStep(ANY_WORLD, ONE_SWAP, a3, HintRouted(1, "page.read", Json.Null, SWAP_HINT.decision, TWO_TOOLS, true), b1);
    ReachableStep(ANY_WORLD, ONE_SWAP, b1, Claimed(1, 1, 1), b2);
    ReachableStep(ANY_WORLD, ONE_SWAP, b2, Execute(Call(1), TWO_TOOLS), b3);
    ReachableStep(ANY_WORLD, ONE_SWAP, b3, Returned(1), s);
  }

  /** A nested call of a tool that is not hidden always passes. */
  lemma {:induction false} VisibleNestedCallPasses(cfg: Config, s: State, exec: Exec)
    requires exec.parent.Some? && !Hidden(cfg, exec.name)
    ensures Guard(cfg, s, exec)
  {
  }

  // ---------------------------------------------------------------------------------------------
  // Turns
  // ---------------------------------------------------------------------------------------------

  /** After a message is claimed, the turn's model-direct calls are the baseline and the source of the
      hint that waited for that message, which waits no longer. */
  lemma {:induction false} ClaimGivesTheHint(w: World, cfg: Config, s: State, agent: nat, message: nat, turn: nat, exec: Exec)
    requires exec.agent == Some(agent) && exec.parent.None?
    ensures var r := Step(w, cfg, s, Claimed(agent, message, turn));
      && message !in r.hinted
      && (Guard(cfg, r, exec) <==> exec.name in cfg.baseline || (message in s.hinted && exec.name == s.hinted[message].source))
  {
  }

  /** After a turn has ended, and before the agent's first, only the baseline is left. */
  lemma {:induction false} NoTurnNoHint(w: World, cfg: Config, s: State, agent: nat, exec: Exec)
    requires exec.agent == Some(agent) && exec.parent.None?
    ensures Guard(cfg, Step(w, cfg, s, TurnEnded(agent)), exec) <==> exec.name in cfg.baseline
    ensures agent !in s.active ==> (Guard(cfg, s, exec) <==> exec.name in cfg.baseline)
  {
  }

  /** A discarded message leaves no hint to claim. */
  lemma {:induction false} DiscardedHintIsGone(w: World, cfg: Config, s: State, agent: nat, message: nat, turn: nat, exec: Exec)
    requires exec.agent == Some(agent) && exec.parent.None?
    ensures var r := Step(w, cfg, Step(w, cfg, s, Discarded(message)), Claimed(agent, message, turn));
      Guard(cfg, r, exec) <==> exec.name in cfg.baseline
  {
    ClaimGivesTheHint(w, cfg, Step(w, cfg, s, Discarded(message)), agent, message, turn, exec);
  }

  /** The turn of one agent is not touched by the claims and ends of another. */
  lemma {:induction false} OtherAgentsTurnStays(w: World, cfg: Config, s: State, agent: nat, message: nat, turn: nat, exec: Exec)
    requires exec.agent.Some? && exec.agent != Some(agent)
    ensures Guard(cfg, Step(w, cfg, s, Claimed(agent, message, turn)), exec) <==> Guard(cfg, s, exec)
    ensures Guard(cfg, Step(w, cfg, s, TurnEnded(agent)), exec) <==> Guard(cfg, s, exec)
  {
  }

  // ---------------------------------------------------------------------------------------------
  // From the hint to the record
  // ---------------------------------------------------------------------------------------------

  /** A call of the source of the agent's current hint. */
  ghost predicate Hinted(s: State, agent: nat, hint: Hint, exec: Exec) {
    && agent in s.active && s.active[agent].hint == Some(hint)
    && exec.agent == Some(agent) && exec.parent.None? && exec.name == hint.source
  }

  /** A hinted call with arguments that print like the hint's input runs the tool that the hint's decision
      selects for them, and that tool is admitted under its token if it is another one; if no tool passes
      the checks, a record is due at once. */
  lemma {:induction false} SameArgumentsRun(w: World, cfg: Config, s: State, agent: nat, hint: Hint, exec: Exec, tools: Registry)
    requires Hinted(s, agent, hint, exec) && w.text(exec.arguments) == w.text(hint.input)
    ensures var r := Step(w, cfg, s, Execute(exec, tools)); var f := s.flightCount;
      match CheckedSelection(w, cfg, exec.name, hint.decision, tools, exec.arguments)
      case Some(sel) =>
        && f in r.flights && r.flights[f] == Running(exec, hint, hint.decision, sel)
        && r.owed == s.owed && (sel.tool != exec.name ==> Admits(r, exec.token, sel.tool))
      case None => f !in r.flights && r.owed == s.owed[exec.callId := Record(f, exec, hint, hint.decision, false)]
  {
    BeginSame(w, s, exec, hint, CheckedSelection(w, cfg, exec.name, hint.decision, tools, exec.arguments),
              Step(w, cfg, s, Execute(exec, tools)));
  }

  lemma {:induction false} BeginSame(w: World, s: State, exec: Exec, hint: Hint, sel: Option<Selection>, r: State)
    requires w.text(exec.arguments) == w.text(hint.input) && r == BeginWith(w, s, exec, hint, sel)
    ensures var f := s.flightCount;
      match sel
      case Some(chosen) =>
        && f in r.flights && r.flights[f] == Running(exec, hint, hint.decision, chosen)
        && r.owed == s.owed && (chosen.tool != exec.name ==> Admits(r, exec.token, chosen.tool))
      case None => f !in r.flights && r.owed == s.owed[exec.callId := Record(f, exec, hint, hint.decision, false)]
  {
  }

  /** With other arguments it waits for a second routing, and then runs what the new decision selects. */
  lemma {:induction false} OtherArgumentsReroute(w: World, cfg: Config, s: State, agent: nat, hint: Hint, exec: Exec, tools: Registry)
    requires Hinted(s, agent, hint, exec) && w.text(exec.arguments) != w.text(hint.input)
    ensures var r := Step(w, cfg, s, Execute(exec, tools)); var f := s.flightCount;
      && f in r.flights && r.flights[f] == Routing(exec, hint) && r.owed == s.owed && r.admitted == s.admitted
  {
  }

  lemma {:induction false} SecondDecisionRuns(w: World, cfg: Config, s: State, f: nat, decision: Decision, tools: Registry)
    requires f in s.flights && s.flights[f].Routing?
    ensures var r := Step(w, cfg, s, Rerouted(f, decision, tools)); var fl := s.flights[f]; var exec := fl.exec;
      match CheckedSelection(w, cfg, exec.name, decision, tools, exec.arguments)
      case Some(sel) =>
        && f in r.flights && r.flights[f] == Running(exec, fl.hint, decision, sel)
        && r.owed == s.owed && (sel.tool != exec.name ==> Admits(r, exec.token, sel.tool))
      case None => f !in r.flights && r.owed == s.owed[exec.callId := Record(f, exec, fl.hint, decision, false)]
  {
    var fl := s.flights[f];
    var answered := s.(routed := s.routed + {Answer(fl.hint.capability, fl.exec.arguments, decision)});
    SelectRuns(answered, f, fl.exec, fl.hint, decision,
               CheckedSelection(w, cfg, fl.exec.name, decision, tools, fl.exec.arguments),
               Step(w, cfg, s, Rerouted(f, decision, tools)));
  }

  lemma {:induction false} SelectRuns(s: State, f: nat, exec: Exec, hint: Hint, decision: Decision, sel: Option<Selection>, r: State)
    requires r == Select(s, f, exec, hint, decision, sel)
    ensures match sel
      case Some(chosen) =>
        && f in r.flights && r.flights[f] == Running(exec, hint, decision, chosen)
        && r.owed == s.owed && (chosen.tool != exec.name ==> Admits(r, exec.token, chosen.tool))
      case None => f !in r.flights && r.owed == s.owed[exec.callId := Record(f, exec, hint, decision, false)]
  {
  }

  /** A running execution that returns owes exactly one record, under the decision it ran with, and the
      result of its call pays it. */
  lemma {:induction false} ReturnIsRecorded(w: World, cfg: Config, s: State, f: nat)
    requires f in s.flights && s.flights[f].Running? && s.flights[f].exec.parent.None? && s.flights[f].exec.agent.Some?
    ensures var fl := s.flights[f];
      var due := Step(w, cfg, s, Returned(f));
      var paid := Step(w, cfg, due, ResultSeen(fl.exec));
      var x := Record(f, fl.exec, fl.hint, fl.decision, false);
      && f !in due.flights && due.owed == s.owed[fl.exec.callId := x] && due.written == s.written
      && paid.written == s.written + [x] && fl.exec.callId !in paid.owed
  {
  }

  /** The command queues the hint of an admissible decision under its message, and no other. */
  lemma {:induction false} AdmissibleHintWaits(w: World, cfg: Config, s: State, message: nat, hint: Hint, tools: Registry)
    requires FindCapability(cfg.routes, hint.capability).Some?
    requires FindCapability(cfg.routes, hint.capability).value.source == hint.source
    ensures var r := Step(w, cfg, s, HintRouted(message, hint.capability, hint.input, hint.decision, tools, true));
      && r.active == s.active && r.flights == s.flights && r.admitted == s.admitted
      && r.hinted == if CheckedSelection(w, cfg, hint.source, hint.decision, tools, hint.input).Some?
                     then s.hinted[message := hint] else s.hinted
  {
  }
}
