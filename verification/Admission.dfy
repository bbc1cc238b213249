/**
 The admission state machine of the router plugin: hints, turns, the tool guard, the execution
 handler and the nested admissions it grants.

 Every handler is split at its awaits, so that one event is what runs without interruption; the
 properties hold over every interleaving of events, for every tool registry and every routing
 answer the environment may produce.
 */
module Admission {
  import opened Wrappers
  import opened CanonicalJson
  import opened RouterConfig

  /** A JSON value proper (no repeated keys), as JavaScript objects and parsed arguments are. */
  type Value = v: Json | WellFormed(v) witness Json.Null

  /** The functions the handlers call: `schemaDigest`, `validateJsonSchemaValue`, `stableJson`. */
  datatype World = World(digest: Json -> string, conforms: (Json, Json) -> bool, text: Json -> Text)

  datatype ToolDef = ToolDef(parameters: Json, output: Option<Json>)

  /** What `ctx.tools.get` answers at the moment of the call. */
  type Registry = map<string, ToolDef>

  datatype Decision = Decision(id: string, executor: string)

  datatype Hint = Hint(capability: string, input: Value, source: string, decision: Decision)

  datatype Active = Active(turn: nat, hint: Option<Hint>, allowed: set<string>)

  datatype Exec = Exec(name: string, arguments: Value, agent: Option<nat>, parent: Option<nat>, token: nat, callId: string)

  /** An execution handler that is suspended at an await: in `route`, or in `next()` or the nested
      execution of the selected tool. */
  datatype Flight =
    | Routing(exec: Exec, hint: Hint)
    | Running(exec: Exec, hint: Hint, decision: Decision, selection: Selection)

  datatype Selection = Selection(source: ToolDef, target: ToolDef, tool: string)

  /** A record that is due or was written: the decision it goes under, and, as history, the execution
      it is for, its call and hint, and whether the second routing of that call failed. */
  datatype Record = Record(flight: nat, exec: Exec, hint: Hint, decision: Decision, rerouteFailed: bool)

  /** A routing answer of the bridge: the decision given for a capability and an input. */
  datatype Answer = Answer(capability: string, input: Value, decision: Decision)

  /** `routed`, `flightCount` and `written` are history: the answers given so far, the number of
      hinted executions begun, and the records written. */
  datatype State = State(
    hinted: map<nat, Hint>,
    active: map<nat, Active>,
    admitted: map<nat, string>,
    flights: map<nat, Flight>,
    owed: map<string, Record>,
    routed: set<Answer>,
    flightCount: nat,
    written: seq<Record>)

  const INITIAL := State(map[], map[], map[], map[], map[], {}, 0, [])

  // ---------------------------------------------------------------------------------------------
  // Selection
  // ---------------------------------------------------------------------------------------------

  function FindRoute(routes: seq<Route>, source: string): (r: Option<Route>)
    ensures r.Some? ==> r.value in routes && r.value.source == source
    ensures r.None? ==> forall x :: x in routes ==> x.source != source
  {
    if routes == [] then None else if routes[0].source == source then Some(routes[0]) else FindRoute(routes[1..], source)
  }

  /** `sourceForCapability`. */
  function FindCapability(routes: seq<Route>, capability: string): (r: Option<Route>)
    ensures r.Some? ==> r.value in routes && r.value.capability == capability
    ensures r.None? ==> forall x :: x in routes ==> x.capability != capability
  {
    if routes == [] then None else if routes[0].capability == capability then Some(routes[0]) else FindCapability(routes[1..], capability)
  }

  function FindTarget(targets: seq<Target>, executor: string): (r: Option<Target>)
    ensures r.Some? ==> r.value in targets && r.value.executor == executor
    ensures r.None? ==> forall x :: x in targets ==> x.executor != executor
  {
    if targets == [] then None else if targets[0].executor == executor then Some(targets[0]) else FindTarget(targets[1..], executor)
  }

  predicate SchemasMatch(w: World, def: ToolDef, parameterDigest: string, outputDigest: string) {
    && w.digest(def.parameters) == parameterDigest
    && def.output.Some? && w.digest(def.output.value) == outputDigest
  }

  /** `checkedSelection`: None stands for any of its errors. */
  function CheckedSelection(w: World, cfg: Config, source: string, decision: Decision, tools: Registry, input: Json): Option<Selection>
  {
    var route := FindRoute(cfg.routes, source);
    if route.None? || source !in tools then None
    else if !SchemasMatch(w, tools[source], route.value.parameterDigest, route.value.outputDigest) then None
    else if !w.conforms(tools[source].parameters, input) then None
    else
      var target := FindTarget(route.value.targets, decision.executor);
      if target.None? || target.value.tool !in tools then None
      else if !SchemasMatch(w, tools[target.value.tool], target.value.parameterDigest, target.value.outputDigest) then None
      else if !w.conforms(tools[target.value.tool].parameters, input) then None
      else if target.value.adapter.None? && route.value.outputDigest != target.value.outputDigest then None
      else Some(Selection(tools[source], tools[target.value.tool], target.value.tool))
  }

  /** What a selection guarantees: a reviewed target of the source's route, both schemas at their
      reviewed digests, the input fit for both tools, and equal output schemas unless an adapter
      stands between them. */
  ghost predicate Checked(w: World, cfg: Config, source: string, decision: Decision, input: Json, sel: Selection) {
    exists r, t ::
      && r in cfg.routes && r.source == source
      && t in r.targets && t.executor == decision.executor && t.tool == sel.tool
      && SchemasMatch(w, sel.source, r.parameterDigest, r.outputDigest)
      && SchemasMatch(w, sel.target, t.parameterDigest, t.outputDigest)
      && w.conforms(sel.source.parameters, input) && w.conforms(sel.target.parameters, input)
      && (t.adapter.None? ==> r.outputDigest == t.outputDigest)
  }

  lemma {:induction false} SelectionIsChecked(w: World, cfg: Config, source: string, decision: Decision, tools: Registry, input: Json)
    ensures var sel := CheckedSelection(w, cfg, source, decision, tools, input);
      sel.Some? ==> Checked(w, cfg, source, decision, input, sel.value)
  {
    var route := FindRoute(cfg.routes, source);
    if route.Some? {
      var target := FindTarget(route.value.targets, decision.executor);
    }
  }

  /** The selection is made of the registered tools. */
  ghost predicate Offered(tools: Registry, source: string, sel: Selection) {
    source in tools && sel.tool in tools && sel.source == tools[source] && sel.target == tools[sel.tool]
  }

  lemma OnlyRoute(cfg: Config, r: Route)
    requires DistinctKeys(cfg) && r in cfg.routes
    ensures FindRoute(cfg.routes, r.source) == Some(r)
  {
    var i :| 0 <= i < |cfg.routes| && cfg.routes[i] == r;
    var found := FindRoute(cfg.routes, r.source).value;
    var j :| 0 <= j < |cfg.routes| && cfg.routes[j] == found;
    assert i == j;
  }

  lemma OnlyTarget(cfg: Config, r: Route, t: Target)
    requires DistinctKeys(cfg) && r in cfg.routes && t in r.targets
    ensures FindTarget(r.targets, t.executor) == Some(t)
  {
    var i :| 0 <= i < |r.targets| && r.targets[i] == t;
    var found := FindTarget(r.targets, t.executor).value;
    var j :| 0 <= j < |r.targets| && r.targets[j] == found;
    assert i == j;
  }

  /** A selection is refused only when no registered tool passes the checks. */
  lemma {:induction false} SelectionIff(w: World, cfg: Config, source: string, decision: Decision, tools: Registry, input: Json, sel: Selection)
    requires DistinctKeys(cfg)
    ensures CheckedSelection(w, cfg, source, decision, tools, input) == Some(sel)
       <==> Offered(tools, source, sel) && Checked(w, cfg, source, decision, input, sel)
  {
    SelectionIsChecked(w, cfg, source, decision, tools, input);
    if Offered(tools, source, sel) && Checked(w, cfg, source, decision, input, sel) {
      var r, t :|
        && r in cfg.routes && r.source == source
        && t in r.targets && t.executor == decision.executor && t.tool == sel.tool
        && SchemasMatch(w, sel.source, r.parameterDigest, r.outputDigest)
        && SchemasMatch(w, sel.target, t.parameterDigest, t.outputDigest)
        && w.conforms(sel.source.parameters, input) && w.conforms(sel.target.parameters, input)
        && (t.adapter.None? ==> r.outputDigest == t.outputDigest);
      OnlyRoute(cfg, r);
      OnlyTarget(cfg, r, t);
    }
  }

  /** What makes a selection fail, whatever else holds. */
  lemma {:induction false} SelectionRefusals(w: World, cfg: Config, r: Route, t: Target, decision: Decision, tools: Registry, input: Json)
    requires DistinctKeys(cfg) && r in cfg.routes && t in r.targets && t.executor == decision.executor
    ensures var refused := CheckedSelection(w, cfg, r.source, decision, tools, input).None?;
      && (r.source !in tools || t.tool !in tools ==> refused)
      && (r.source in tools && w.digest(tools[r.source].parameters) != r.parameterDigest ==> refused)
      && (r.source in tools && tools[r.source].output.None? ==> refused)
      && (r.source in tools && tools[r.source].output.Some? && w.digest(tools[r.source].output.value) != r.outputDigest ==> refused)
      && (t.tool in tools && w.digest(tools[t.tool].parameters) != t.parameterDigest ==> refused)
      && (t.tool in tools && tools[t.tool].output.None? ==> refused)
      && (t.tool in tools && tools[t.tool].output.Some? && w.digest(tools[t.tool].output.value) != t.outputDigest ==> refused)
      && (r.source in tools && !w.conforms(tools[r.source].parameters, input) ==> refused)
      && (t.tool in tools && !w.conforms(tools[t.tool].parameters, input) ==> refused)
      && (t.adapter.None? && r.outputDigest != t.outputDigest ==> refused)
  {
    OnlyRoute(cfg, r);
    OnlyTarget(cfg, r, t);
  }

  // ---------------------------------------------------------------------------------------------
  // The handlers
  // ---------------------------------------------------------------------------------------------

  datatype Event =
    | HintRouted(message: nat, capability: string, input: Value, decision: Decision, tools: Registry, queued: bool)
    | Claimed(agent: nat, message: nat, turn: nat)
    | Discarded(message: nat)
    | TurnEnded(agent: nat)
    | Execute(exec: Exec, tools: Registry)
    | Rerouted(flight: nat, decision: Decision, tools: Registry)
    | RerouteFailed(flight: nat)
    | Returned(flight: nat)
    | ResultSeen(exec: Exec)

  function AllowedSet(cfg: Config, hint: Option<Hint>): set<string> {
    (set b | b in cfg.baseline) + (if hint.Some? then {hint.value.source} else {})
  }

  /** The `/aeep` command once its route is known; `queued` tells whether the follow-up message was
      accepted. */
  function OnHintRouted(w: World, cfg: Config, s: State, e: Event): State
    requires e.HintRouted?
  {
    var route := FindCapability(cfg.routes, e.capability);
    if route.None? then s
    else
      var answered := s.(routed := s.routed + {Answer(e.capability, e.input, e.decision)});
      var sel := CheckedSelection(w, cfg, route.value.source, e.decision, e.tools, e.input);
      Queue(answered, e.message, Hint(e.capability, e.input, route.value.source, e.decision), sel.Some?, e.queued)
  }

  function Queue(s: State, message: nat, hint: Hint, checked: bool, queued: bool): State {
    if !checked then s
    else if !queued then s.(hinted := s.hinted - {message})
    else s.(hinted := s.hinted[message := hint])
  }

  function OnClaimed(cfg: Config, s: State, agent: nat, message: nat, turn: nat): State {
    var hint := if message in s.hinted then Some(s.hinted[message]) else None;
    s.(hinted := s.hinted - {message}, active := s.active[agent := Active(turn, hint, AllowedSet(cfg, hint))])
  }

  /** The part of `tools/execute` from the checked selection to the next await. */
  function Select(s: State, f: nat, exec: Exec, hint: Hint, decision: Decision, sel: Option<Selection>): State {
    if sel.None? then s.(flights := s.flights - {f}, owed := s.owed[exec.callId := Record(f, exec, hint, decision, false)])
    else
      var running := s.(flights := s.flights[f := Running(exec, hint, decision, sel.value)]);
      if sel.value.tool == exec.name then running
      else running.(admitted := s.admitted[exec.token := sel.value.tool])
  }

  function OnExecute(w: World, cfg: Config, s: State, exec: Exec, tools: Registry): State {
    if exec.parent.Some? || exec.agent.None? || exec.agent.value !in s.active then s
    else
      var hint := s.active[exec.agent.value].hint;
      if hint.None? || hint.value.source != exec.name then s else Begin(w, cfg, s, exec, hint.value, tools)
  }

  function Begin(w: World, cfg: Config, s: State, exec: Exec, hint: Hint, tools: Registry): State {
    BeginWith(w, s, exec, hint, CheckedSelection(w, cfg, exec.name, hint.decision, tools, exec.arguments))
  }

  /** A hinted call: other arguments than the hint's input are routed again first. */
  function BeginWith(w: World, s: State, exec: Exec, hint: Hint, sel: Option<Selection>): State {
    Launch(w, s.(flightCount := s.flightCount + 1), s.flightCount, exec, hint, sel)
  }

  function Launch(w: World, s: State, f: nat, exec: Exec, hint: Hint, sel: Option<Selection>): State {
    if w.text(exec.arguments) != w.text(hint.input) then s.(flights := s.flights[f := Routing(exec, hint)])
    else Select(s, f, exec, hint, hint.decision, sel)
  }

  function OnRerouted(w: World, cfg: Config, s: State, f: nat, decision: Decision, tools: Registry): State {
    if f !in s.flights || !s.flights[f].Routing? then s
    else
      var fl := s.flights[f];
      var answered := s.(routed := s.routed + {Answer(fl.hint.capability, fl.exec.arguments, decision)});
      Select(answered, f, fl.exec, fl.hint, decision, CheckedSelection(w, cfg, fl.exec.name, decision, tools, fl.exec.arguments))
  }

  /** A failed second routing is recorded under the hint's own decision. */
  function OnRerouteFailed(s: State, f: nat): State {
    if f !in s.flights || !s.flights[f].Routing? then s
    else
      var fl := s.flights[f];
      s.(flights := s.flights - {f}, owed := s.owed[fl.exec.callId := Record(f, fl.exec, fl.hint, fl.hint.decision, true)])
  }

  /** `next()` or the nested execution has settled, with a value or with an error. */
  function OnReturned(s: State, f: nat): State {
    if f !in s.flights || !s.flights[f].Running? then s
    else
      var fl := s.flights[f];
      s.(flights := s.flights - {f},
         admitted := if fl.selection.tool == fl.exec.name then s.admitted else s.admitted - {fl.exec.token},
         owed := s.owed[fl.exec.callId := Record(f, fl.exec, fl.hint, fl.decision, false)])
  }

  function OnResultSeen(s: State, exec: Exec): State {
    if exec.parent.Some? || exec.agent.None? || exec.callId !in s.owed then s
    else s.(owed := s.owed - {exec.callId}, written := s.written + [s.owed[exec.callId]])
  }

  function Step(w: World, cfg: Config, s: State, e: Event): State {
    match e
    case HintRouted(_, _, _, _, _, _) => OnHintRouted(w, cfg, s, e)
    case Claimed(agent, message, turn) => OnClaimed(cfg, s, agent, message, turn)
    case Discarded(message) => s.(hinted := s.hinted - {message})
    case TurnEnded(agent) => s.(active := s.active - {agent})
    case Execute(exec, tools) => OnExecute(w, cfg, s, exec, tools)
    case Rerouted(f, decision, tools) => OnRerouted(w, cfg, s, f, decision, tools)
    case RerouteFailed(f) => OnRerouteFailed(s, f)
    case Returned(f) => OnReturned(s, f)
    case ResultSeen(exec) => OnResultSeen(s, exec)
  }

  function Run(w: World, cfg: Config, s: State, es: seq<Event>): State
    decreases |es|
  {
    if es == [] then s else Run(w, cfg, Step(w, cfg, s, es[0]), es[1..])
  }

  /** The tool guard: may this call go ahead? */
  ghost predicate Guard(cfg: Config, s: State, exec: Exec) {
    if exec.agent.None? then true
    else if exec.parent.Some? then
      !Hidden(cfg, exec.name) || (exec.parent.value in s.admitted && s.admitted[exec.parent.value] == exec.name)
    else
      var allowed := if exec.agent.value in s.active then s.active[exec.agent.value].allowed else AllowedSet(cfg, None);
      exec.name in allowed
  }

  // ---------------------------------------------------------------------------------------------
  // The invariant
  // ---------------------------------------------------------------------------------------------

  /** A hint names the canonical source of its capability and carries a decision that was routed
      for its input. */
  ghost predicate HintOk(cfg: Config, routed: set<Answer>, h: Hint) {
    && (exists r :: r in cfg.routes && r.source == h.source && r.capability == h.capability)
    && Answer(h.capability, h.input, h.decision) in routed
  }

  ghost predicate HintsOk(cfg: Config, s: State) {
    && (forall m :: m in s.hinted ==> HintOk(cfg, s.routed, s.hinted[m]))
    && (forall a :: a in s.active && s.active[a].hint.Some? ==> HintOk(cfg, s.routed, s.active[a].hint.value))
    && (forall a :: a in s.active ==> s.active[a].allowed == AllowedSet(cfg, s.active[a].hint))
  }

  /** The decision was routed for a value that prints like the arguments. */
  ghost predicate RoutedFor(w: World, routed: set<Answer>, capability: string, arguments: Json, decision: Decision) {
    exists a :: a in routed && a.capability == capability && a.decision == decision
                && w.text(a.input) == w.text(arguments)
  }

  ghost predicate FlightOk(w: World, cfg: Config, routed: set<Answer>, fl: Flight) {
    && HintOk(cfg, routed, fl.hint) && fl.exec.name == fl.hint.source && fl.exec.parent.None? && fl.exec.agent.Some?
    && (fl.Routing? ==> w.text(fl.exec.arguments) != w.text(fl.hint.input))
    && (fl.Running? ==>
          && RoutedFor(w, routed, fl.hint.capability, fl.exec.arguments, fl.decision)
          && Checked(w, cfg, fl.exec.name, fl.decision, fl.exec.arguments, fl.selection))
  }

  ghost predicate FlightsOk(w: World, cfg: Config, s: State) {
    forall f :: f in s.flights ==> FlightOk(w, cfg, s.routed, s.flights[f])
  }

  /** An execution in flight that was granted the nested call of `tool` under `token`. */
  ghost predicate Grants(s: State, f: nat, token: nat, tool: string) {
    && f in s.flights && s.flights[f].Running? && s.flights[f].exec.token == token
    && s.flights[f].selection.tool == tool && tool != s.flights[f].exec.name
  }

  ghost predicate AdmittedOk(s: State) {
    forall t :: t in s.admitted ==> exists f :: Grants(s, f, t, s.admitted[t])
  }

  /** Each execution is in flight, owed a record, recorded, or none of these, but never two. */
  ghost predicate RecordsOk(s: State) {
    && (forall f :: f in s.flights ==> f < s.flightCount && !WasWritten(s, f))
    && (forall c :: c in s.owed ==> s.owed[c].flight < s.flightCount && !WasWritten(s, s.owed[c].flight) && s.owed[c].flight !in s.flights)
    && (forall c, d :: c in s.owed && d in s.owed && s.owed[c].flight == s.owed[d].flight ==> c == d)
    && (forall i :: 0 <= i < |s.written| ==> s.written[i].flight < s.flightCount)
    && (forall i, j :: 0 <= i < j < |s.written| ==> s.written[i].flight != s.written[j].flight)
  }

  ghost predicate WasWritten(s: State, f: nat) {
    exists i :: 0 <= i < |s.written| && s.written[i].flight == f
  }

  /** A record goes under a decision routed for its own arguments, unless the second routing failed:
      then it goes under the hint's decision although the arguments print unlike the hint's input. */
  ghost predicate DecisionOk(w: World, cfg: Config, routed: set<Answer>, x: Record) {
    && HintOk(cfg, routed, x.hint) && x.exec.name == x.hint.source
    && if x.rerouteFailed
       then x.decision == x.hint.decision && w.text(x.exec.arguments) != w.text(x.hint.input)
       else RoutedFor(w, routed, x.hint.capability, x.exec.arguments, x.decision)
  }

  ghost predicate DecisionsOk(w: World, cfg: Config, routed: set<Answer>, owed: map<string, Record>, written: seq<Record>) {
    && (forall c :: c in owed ==> DecisionOk(w, cfg, routed, owed[c]))
    && (forall i :: 0 <= i < |written| ==> DecisionOk(w, cfg, routed, written[i]))
  }

  /** The same of a state. */
  ghost predicate Decided(w: World, cfg: Config, s: State) {
    DecisionsOk(w, cfg, s.routed, s.owed, s.written)
  }

  ghost predicate Inv(w: World, cfg: Config, s: State) {
    HintsOk(cfg, s) && FlightsOk(w, cfg, s) && AdmittedOk(s) && RecordsOk(s)
  }

  // Answers only accumulate, so what was routed stays routed.

  lemma HintOkGrows(cfg: Config, some: set<Answer>, more: set<Answer>, h: Hint)
    requires HintOk(cfg, some, h) && some <= more
    ensures HintOk(cfg, more, h)
  {
  }

  lemma FlightOkGrows(w: World, cfg: Config, some: set<Answer>, more: set<Answer>, fl: Flight)
    requires FlightOk(w, cfg, some, fl) && some <= more
    ensures FlightOk(w, cfg, more, fl)
  {
    HintOkGrows(cfg, some, more, fl.hint);
    if fl.Running? {
      var a :| a in some && a.capability == fl.hint.capability && a.decision == fl.decision
               && w.text(a.input) == w.text(fl.exec.arguments);
      assert a in more;
    }
  }

  lemma HintsFrame(cfg: Config, s: State, r: State)
    requires HintsOk(cfg, s) && s.routed <= r.routed && r.active == s.active
    requires forall m :: m in r.hinted ==> m in s.hinted && r.hinted[m] == s.hinted[m]
    ensures HintsOk(cfg, r)
  {
    forall m | m in r.hinted
      ensures HintOk(cfg, r.routed, r.hinted[m])
    {
      HintOkGrows(cfg, s.routed, r.routed, s.hinted[m]);
    }
    forall a | a in r.active && r.active[a].hint.Some?
      ensures HintOk(cfg, r.routed, r.active[a].hint.value)
    {
      HintOkGrows(cfg, s.routed, r.routed, s.active[a].hint.value);
    }
  }

  lemma FlightsFrame(w: World, cfg: Config, s: State, r: State)
    requires FlightsOk(w, cfg, s) && s.routed <= r.routed
    requires forall f :: f in r.flights ==> f in s.flights && r.flights[f] == s.flights[f]
    ensures FlightsOk(w, cfg, r)
  {
    forall f | f in r.flights
      ensures FlightOk(w, cfg, r.routed, r.flights[f])
    {
      FlightOkGrows(w, cfg, s.routed, r.routed, s.flights[f]);
    }
  }

  lemma AdmittedFrame(s: State, r: State)
    requires AdmittedOk(s) && r.admitted == s.admitted && r.flights == s.flights
    ensures AdmittedOk(r)
  {
    forall t | t in r.admitted
      ensures exists f :: Grants(r, f, t, r.admitted[t])
    {
      var f :| Grants(s, f, t, s.admitted[t]);
      assert Grants(r, f, t, r.admitted[t]);
    }
  }

  // ---------------------------------------------------------------------------------------------
  // Every handler keeps the invariant
  // ---------------------------------------------------------------------------------------------

  /** An answer of the bridge by itself. */
  lemma AnswerKeeps(w: World, cfg: Config, s: State, a: Answer)
    requires Inv(w, cfg, s)
    ensures Inv(w, cfg, s.(routed := s.routed + {a}))
  {
    var r := s.(routed := s.routed + {a});
    HintsFrame(cfg, s, r);
    FlightsFrame(w, cfg, s, r);
    AdmittedFrame(s, r);
  }

  /** Forgetting a hint. */
  lemma ForgetKeeps(w: World, cfg: Config, s: State, message: nat)
    requires Inv(w, cfg, s)
    ensures Inv(w, cfg, s.(hinted := s.hinted - {message}))
  {
    var r := s.(hinted := s.hinted - {message});
    HintsFrame(cfg, s, r);
    FlightsFrame(w, cfg, s, r);
    AdmittedFrame(s, r);
  }

  lemma HintAdded(w: World, cfg: Config, s: State, message: nat, h: Hint)
    requires Inv(w, cfg, s) && HintOk(cfg, s.routed, h)
    ensures Inv(w, cfg, s.(hinted := s.hinted[message := h]))
  {
    var r := s.(hinted := s.hinted[message := h]);
    forall m | m in r.hinted
      ensures HintOk(cfg, r.routed, r.hinted[m])
    {
      HintOkGrows(cfg, s.routed, r.routed, r.hinted[m]);
    }
    forall a | a in r.active && r.active[a].hint.Some?
      ensures HintOk(cfg, r.routed, r.active[a].hint.value)
    {
      HintOkGrows(cfg, s.routed, r.routed, s.active[a].hint.value);
    }
    FlightsFrame(w, cfg, s, r);
    AdmittedFrame(s, r);
  }

  lemma HintRoutedKeeps(w: World, cfg: Config, s: State, e: Event)
    requires Inv(w, cfg, s) && e.HintRouted?
    ensures Inv(w, cfg, OnHintRouted(w, cfg, s, e))
  {
    var route := FindCapability(cfg.routes, e.capability);
    if route.Some? {
      var a := Answer(e.capability, e.input, e.decision);
      var answered := s.(routed := s.routed + {a});
      AnswerKeeps(w, cfg, s, a);
      ForgetKeeps(w, cfg, answered, e.message);
      HintAdded(w, cfg, answered, e.message, Hint(e.capability, e.input, route.value.source, e.decision));
    }
  }

  lemma ClaimedKeeps(w: World, cfg: Config, s: State, agent: nat, message: nat, turn: nat)
    requires Inv(w, cfg, s)
    ensures Inv(w, cfg, OnClaimed(cfg, s, agent, message, turn))
  {
    var r := OnClaimed(cfg, s, agent, message, turn);
    forall m | m in r.hinted
      ensures HintOk(cfg, r.routed, r.hinted[m])
    {
      HintOkGrows(cfg, s.routed, r.routed, s.hinted[m]);
    }
    forall a | a in r.active && r.active[a].hint.Some?
      ensures HintOk(cfg, r.routed, r.active[a].hint.value)
    {
      HintOkGrows(cfg, s.routed, r.routed, if a == agent then s.hinted[message] else s.active[a].hint.value);
    }
    AdmittedFrame(s, r);
    FlightsFrame(w, cfg, s, r);
  }

  lemma TurnEndedKeeps(w: World, cfg: Config, s: State, agent: nat)
    requires Inv(w, cfg, s)
    ensures Inv(w, cfg, s.(active := s.active - {agent}))
  {
    var r := s.(active := s.active - {agent});
    forall m | m in r.hinted
      ensures HintOk(cfg, r.routed, r.hinted[m])
    {
      HintOkGrows(cfg, s.routed, r.routed, s.hinted[m]);
    }
    forall a | a in r.active && r.active[a].hint.Some?
      ensures HintOk(cfg, r.routed, r.active[a].hint.value)
    {
      HintOkGrows(cfg, s.routed, r.routed, s.active[a].hint.value);
    }
    AdmittedFrame(s, r);
    FlightsFrame(w, cfg, s, r);
  }

  /** A flight that ends owes a record. */
  ghost function Ended(s: State, x: Record, admitted: map<nat, string>): State {
    s.(flights := s.flights - {x.flight}, admitted := admitted, owed := s.owed[x.exec.callId := x])
  }

  ghost predicate Unrecorded(s: State, f: nat) {
    f < s.flightCount && !WasWritten(s, f) && forall c :: c in s.owed ==> s.owed[c].flight != f
  }

  lemma EndedRecords(s: State, x: Record, admitted: map<nat, string>)
    requires RecordsOk(s) && Unrecorded(s, x.flight)
    ensures RecordsOk(Ended(s, x, admitted))
  {
  }

  lemma EndedAdmitted(s: State, x: Record, admitted: map<nat, string>)
    requires AdmittedOk(s)
    requires forall t :: t in admitted ==> t in s.admitted && admitted[t] == s.admitted[t]
    requires forall t :: t in admitted ==> !Grants(s, x.flight, t, admitted[t])
    ensures AdmittedOk(Ended(s, x, admitted))
  {
    var r := Ended(s, x, admitted);
    forall t | t in r.admitted
      ensures exists g :: Grants(r, g, t, r.admitted[t])
    {
      var g :| Grants(s, g, t, s.admitted[t]);
      assert Grants(r, g, t, r.admitted[t]);
    }
  }

  lemma EndedKeeps(w: World, cfg: Config, s: State, x: Record, admitted: map<nat, string>)
    requires Inv(w, cfg, s) && Unrecorded(s, x.flight)
    requires forall t :: t in admitted ==> t in s.admitted && admitted[t] == s.admitted[t]
    requires forall t :: t in admitted ==> !Grants(s, x.flight, t, admitted[t])
    ensures Inv(w, cfg, Ended(s, x, admitted))
  {
    var r := Ended(s, x, admitted);
    HintsFrame(cfg, s, r);
    FlightsFrame(w, cfg, s, r);
    EndedAdmitted(s, x, admitted);
    EndedRecords(s, x, admitted);
  }

  /** A flight that takes off: at most the admission of its own token changes, to its own tool. */
  ghost function Airborne(s: State, f: nat, fl: Flight, admitted: map<nat, string>): State {
    s.(flights := s.flights[f := fl], admitted := admitted)
  }

  lemma AirborneKeeps(w: World, cfg: Config, s: State, f: nat, fl: Flight, admitted: map<nat, string>)
    requires Inv(w, cfg, s) && Unrecorded(s, f) && FlightOk(w, cfg, s.routed, fl)
    requires f in s.flights ==> s.flights[f].Routing?
    requires
      || admitted == s.admitted
      || (fl.Running? && fl.selection.tool != fl.exec.name && admitted == s.admitted[fl.exec.token := fl.selection.tool])
    ensures Inv(w, cfg, Airborne(s, f, fl, admitted))
  {
    var r := Airborne(s, f, fl, admitted);
    HintsFrame(cfg, s, r);
    forall g | g in r.flights
      ensures FlightOk(w, cfg, r.routed, r.flights[g])
    {
      FlightOkGrows(w, cfg, s.routed, r.routed, r.flights[g]);
    }
    AirborneAdmitted(s, f, fl, admitted);
  }

  lemma AirborneAdmitted(s: State, f: nat, fl: Flight, admitted: map<nat, string>)
    requires AdmittedOk(s)
    requires f in s.flights ==> s.flights[f].Routing?
    requires
      || admitted == s.admitted
      || (fl.Running? && fl.selection.tool != fl.exec.name && admitted == s.admitted[fl.exec.token := fl.selection.tool])
    ensures AdmittedOk(Airborne(s, f, fl, admitted))
  {
    var r := Airborne(s, f, fl, admitted);
    forall t | t in r.admitted
      ensures exists g :: Grants(r, g, t, r.admitted[t])
    {
      if t in s.admitted && r.admitted[t] == s.admitted[t] {
        var g :| Grants(s, g, t, s.admitted[t]);
        assert Grants(r, g, t, r.admitted[t]);
      } else {
        assert Grants(r, f, t, r.admitted[t]);
      }
    }
  }

  /** The selection step keeps the invariant; an admission it grants belongs to its own flight. */
  lemma {:induction false} SelectKeeps(w: World, cfg: Config, s: State, f: nat, exec: Exec, hint: Hint, decision: Decision, sel: Option<Selection>)
    requires Inv(w, cfg, s) && Unrecorded(s, f)
    requires f in s.flights ==> s.flights[f].Routing?
    requires HintOk(cfg, s.routed, hint) && exec.name == hint.source && exec.parent.None? && exec.agent.Some?
    requires RoutedFor(w, s.routed, hint.capability, exec.arguments, decision)
    requires sel.Some? ==> Checked(w, cfg, exec.name, decision, exec.arguments, sel.value)
    ensures Inv(w, cfg, Select(s, f, exec, hint, decision, sel))
  {
    if sel.None? {
      EndedKeeps(w, cfg, s, Record(f, exec, hint, decision, false), s.admitted);
    } else {
      var fl := Running(exec, hint, decision, sel.value);
      AirborneKeeps(w, cfg, s, f, fl,
                    if sel.value.tool == exec.name then s.admitted else s.admitted[exec.token := sel.value.tool]);
    }
  }

  /** A hinted call whose arguments differ from the hint's input waits for a second routing; any
      other runs under the hint's decision. */
  lemma {:induction false} BeginKeeps(w: World, cfg: Config, s: State, begun: State, exec: Exec, hint: Hint, sel: Option<Selection>, r: State)
    requires Inv(w, cfg, s) && HintOk(cfg, s.routed, hint) && begun == s.(flightCount := s.flightCount + 1)
    requires exec.name == hint.source && exec.parent.None? && exec.agent.Some?
    requires sel.Some? ==> Checked(w, cfg, exec.name, hint.decision, exec.arguments, sel.value)
    requires r == Launch(w, begun, s.flightCount, exec, hint, sel)
    ensures Inv(w, cfg, r)
  {
    BegunKeeps(w, cfg, s, begun);
    LaunchKeeps(w, cfg, begun, s.flightCount, exec, hint, sel, r);
  }

  lemma {:induction false} LaunchKeeps(w: World, cfg: Config, s: State, f: nat, exec: Exec, hint: Hint, sel: Option<Selection>, r: State)
    requires Inv(w, cfg, s) && Unrecorded(s, f) && f !in s.flights && HintOk(cfg, s.routed, hint)
    requires exec.name == hint.source && exec.parent.None? && exec.agent.Some?
    requires sel.Some? ==> Checked(w, cfg, exec.name, hint.decision, exec.arguments, sel.value)
    requires r == Launch(w, s, f, exec, hint, sel)
    ensures Inv(w, cfg, r)
  {
    if w.text(exec.arguments) == w.text(hint.input) {
      assert Answer(hint.capability, hint.input, hint.decision) in s.routed;
      SelectKeeps(w, cfg, s, f, exec, hint, hint.decision, sel);
    } else {
      AirborneKeeps(w, cfg, s, f, Routing(exec, hint), s.admitted);
    }
  }

  lemma {:induction false} ExecuteKeeps(w: World, cfg: Config, s: State, exec: Exec, tools: Registry)
    requires Inv(w, cfg, s)
    ensures Inv(w, cfg, OnExecute(w, cfg, s, exec, tools))
  {
    var r := OnExecute(w, cfg, s, exec, tools);
    if exec.parent.None? && exec.agent.Some? && exec.agent.value in s.active {
      var hint := s.active[exec.agent.value].hint;
      if hint.Some? && hint.value.source == exec.name {
        var sel := CheckedSelection(w, cfg, exec.name, hint.value.decision, tools, exec.arguments);
        SelectionIsChecked(w, cfg, exec.name, hint.value.decision, tools, exec.arguments);
        assert HintOk(cfg, s.routed, hint.value);
        BeginKeeps(w, cfg, s, s.(flightCount := s.flightCount + 1), exec, hint.value, sel, r);
      }
    }
  }

  lemma {:induction false} BegunKeeps(w: World, cfg: Config, s: State, r: State)
    requires Inv(w, cfg, s) && r == s.(flightCount := s.flightCount + 1)
    ensures Inv(w, cfg, r) && Unrecorded(r, s.flightCount) && s.flightCount !in r.flights
  {
    HintsFrame(cfg, s, r);
    FlightsFrame(w, cfg, s, r);
    AdmittedFrame(s, r);
  }

  lemma InFlightUnrecorded(s: State, f: nat)
    requires RecordsOk(s) && f in s.flights
    ensures Unrecorded(s, f)
  {
  }

  lemma ReroutedKeeps(w: World, cfg: Config, s: State, f: nat, decision: Decision, tools: Registry)
    requires Inv(w, cfg, s)
    ensures Inv(w, cfg, OnRerouted(w, cfg, s, f, decision, tools))
  {
    if f in s.flights && s.flights[f].Routing? {
      var fl := s.flights[f];
      var a := Answer(fl.hint.capability, fl.exec.arguments, decision);
      var answered := s.(routed := s.routed + {a});
      AnswerKeeps(w, cfg, s, a);
      InFlightUnrecorded(answered, f);
      assert FlightOk(w, cfg, answered.routed, answered.flights[f]);
      assert a in answered.routed;
      SelectionIsChecked(w, cfg, fl.exec.name, decision, tools, fl.exec.arguments);
      SelectKeeps(w, cfg, answered, f, fl.exec, fl.hint, decision,
                  CheckedSelection(w, cfg, fl.exec.name, decision, tools, fl.exec.arguments));
    }
  }

  lemma RerouteFailedKeeps(w: World, cfg: Config, s: State, f: nat)
    requires Inv(w, cfg, s)
    ensures Inv(w, cfg, OnRerouteFailed(s, f))
  {
    if f in s.flights && s.flights[f].Routing? {
      InFlightUnrecorded(s, f);
      var fl := s.flights[f];
      EndedKeeps(w, cfg, s, Record(f, fl.exec, fl.hint, fl.hint.decision, true), s.admitted);
    }
  }

  lemma ReturnedKeeps(w: World, cfg: Config, s: State, f: nat)
    requires Inv(w, cfg, s)
    ensures Inv(w, cfg, OnReturned(s, f))
  {
    if f in s.flights && s.flights[f].Running? {
      var fl := s.flights[f];
      InFlightUnrecorded(s, f);
      EndedKeeps(w, cfg, s, Record(f, fl.exec, fl.hint, fl.decision, false),
                 if fl.selection.tool == fl.exec.name then s.admitted else s.admitted - {fl.exec.token});
    }
  }

  lemma {:induction false} ResultSeenRecords(s: State, exec: Exec)
    requires RecordsOk(s)
    ensures RecordsOk(OnResultSeen(s, exec))
  {
    var r := OnResultSeen(s, exec);
    if r != s {
      var x := s.owed[exec.callId];
      forall f
        ensures WasWritten(r, f) <==> WasWritten(s, f) || f == x.flight
      {
        if WasWritten(s, f) {
          var i :| 0 <= i < |s.written| && s.written[i].flight == f;
          assert r.written[i].flight == f;
        }
        assert r.written[|s.written|].flight == x.flight;
      }
      forall i | 0 <= i < |s.written|
        ensures s.written[i].flight != x.flight
      {
        assert WasWritten(s, s.written[i].flight);
      }
    }
  }

  lemma {:induction false} ResultSeenKeeps(w: World, cfg: Config, s: State, exec: Exec)
    requires Inv(w, cfg, s)
    ensures Inv(w, cfg, OnResultSeen(s, exec))
  {
    var r := OnResultSeen(s, exec);
    ResultSeenRecords(s, exec);
    HintsFrame(cfg, s, r);
    FlightsFrame(w, cfg, s, r);
    AdmittedFrame(s, r);
  }

  lemma {:induction false} StepKeepsInv(w: World, cfg: Config, s: State, e: Event)
    requires Inv(w, cfg, s)
    ensures Inv(w, cfg, Step(w, cfg, s, e))
  {
    match e
    case HintRouted(_, _, _, _, _, _) => HintRoutedKeeps(w, cfg, s, e);
    case Claimed(agent, message, turn) => ClaimedKeeps(w, cfg, s, agent, message, turn);
    case Discarded(message) => ForgetKeeps(w, cfg, s, message);
    case TurnEnded(agent) => TurnEndedKeeps(w, cfg, s, agent);
    case Execute(exec, tools) => ExecuteKeeps(w, cfg, s, exec, tools);
    case Rerouted(f, decision, tools) => ReroutedKeeps(w, cfg, s, f, decision, tools);
    case RerouteFailed(f) => RerouteFailedKeeps(w, cfg, s, f);
    case Returned(f) => ReturnedKeeps(w, cfg, s, f);
    case ResultSeen(exec) => ResultSeenKeeps(w, cfg, s, exec);
  }

  lemma {:induction false} RunKeepsInv(w: World, cfg: Config, s: State, es: seq<Event>)
    requires Inv(w, cfg, s)
    ensures Inv(w, cfg, Run(w, cfg, s, es))
    decreases |es|
  {
    if es != [] {
      StepKeepsInv(w, cfg, s, es[0]);
      RunKeepsInv(w, cfg, Step(w, cfg, s, es[0]), es[1..]);
    }
  }

  // ---------------------------------------------------------------------------------------------
  // The decisions of the records
  // ---------------------------------------------------------------------------------------------

  lemma {:induction false} DecisionOkGrows(w: World, cfg: Config, some: set<Answer>, more: set<Answer>, x: Record)
    requires DecisionOk(w, cfg, some, x) && some <= more
    ensures DecisionOk(w, cfg, more, x)
  {
    HintOkGrows(cfg, some, more, x.hint);
    if !x.rerouteFailed {
      var a :| a in some && a.capability == x.hint.capability && a.decision == x.decision
               && w.text(a.input) == w.text(x.exec.arguments);
      assert a in more;
    }
  }

  lemma {:induction false} DecisionsGrow(w: World, cfg: Config, some: set<Answer>, more: set<Answer>, owed: map<string, Record>, written: seq<Record>)
    requires DecisionsOk(w, cfg, some, owed, written) && some <= more
    ensures DecisionsOk(w, cfg, more, owed, written)
  {
    forall c | c in owed
      ensures DecisionOk(w, cfg, more, owed[c])
    {
      DecisionOkGrows(w, cfg, some, more, owed[c]);
    }
    forall i | 0 <= i < |written|
      ensures DecisionOk(w, cfg, more, written[i])
    {
      DecisionOkGrows(w, cfg, some, more, written[i]);
    }
  }

  /** One more record is due. */
  lemma {:induction false} DecisionAdded(w: World, cfg: Config, routed: set<Answer>, owed: map<string, Record>, written: seq<Record>, x: Record)
    requires DecisionsOk(w, cfg, routed, owed, written) && DecisionOk(w, cfg, routed, x)
    ensures DecisionsOk(w, cfg, routed, owed[x.exec.callId := x], written)
  {
  }

  lemma {:induction false} SelectDecides(w: World, cfg: Config, s: State, f: nat, exec: Exec, hint: Hint, decision: Decision, sel: Option<Selection>)
    requires Decided(w, cfg, s) && HintOk(cfg, s.routed, hint) && exec.name == hint.source
    requires RoutedFor(w, s.routed, hint.capability, exec.arguments, decision)
    ensures Decided(w, cfg, Select(s, f, exec, hint, decision, sel))
  {
    if sel.None? {
      DecisionAdded(w, cfg, s.routed, s.owed, s.written, Record(f, exec, hint, decision, false));
    }
  }

  lemma {:induction false} BeginDecides(w: World, cfg: Config, s: State, exec: Exec, hint: Hint, sel: Option<Selection>)
    requires Decided(w, cfg, s) && HintOk(cfg, s.routed, hint) && exec.name == hint.source
    ensures Decided(w, cfg, BeginWith(w, s, exec, hint, sel))
  {
    if w.text(exec.arguments) == w.text(hint.input) {
      assert Answer(hint.capability, hint.input, hint.decision) in s.routed;
      SelectDecides(w, cfg, s.(flightCount := s.flightCount + 1), s.flightCount, exec, hint, hint.decision, sel);
    }
  }

  lemma {:induction false} ExecuteDecides(w: World, cfg: Config, s: State, exec: Exec, tools: Registry)
    requires Decided(w, cfg, s) && HintsOk(cfg, s)
    ensures Decided(w, cfg, OnExecute(w, cfg, s, exec, tools))
  {
    if exec.parent.None? && exec.agent.Some? && exec.agent.value in s.active {
      var hint := s.active[exec.agent.value].hint;
      if hint.Some? && hint.value.source == exec.name {
        assert HintOk(cfg, s.routed, hint.value);
        BeginDecides(w, cfg, s, exec, hint.value, CheckedSelection(w, cfg, exec.name, hint.value.decision, tools, exec.arguments));
      }
    }
  }

  lemma {:induction false} ReroutedDecides(w: World, cfg: Config, s: State, f: nat, decision: Decision, tools: Registry)
    requires Decided(w, cfg, s) && FlightsOk(w, cfg, s)
    ensures Decided(w, cfg, OnRerouted(w, cfg, s, f, decision, tools))
  {
    if f in s.flights && s.flights[f].Routing? {
      var fl := s.flights[f];
      assert FlightOk(w, cfg, s.routed, fl);
      var a := Answer(fl.hint.capability, fl.exec.arguments, decision);
      var answered := s.(routed := s.routed + {a});
      DecisionsGrow(w, cfg, s.routed, answered.routed, s.owed, s.written);
      HintOkGrows(cfg, s.routed, answered.routed, fl.hint);
      assert a in answered.routed;
      SelectDecides(w, cfg, answered, f, fl.exec, fl.hint, decision,
                    CheckedSelection(w, cfg, fl.exec.name, decision, tools, fl.exec.arguments));
    }
  }

  lemma {:induction false} EndDecides(w: World, cfg: Config, s: State, x: Record, admitted: map<nat, string>)
    requires Decided(w, cfg, s) && DecisionOk(w, cfg, s.routed, x)
    ensures Decided(w, cfg, Ended(s, x, admitted))
  {
    DecisionAdded(w, cfg, s.routed, s.owed, s.written, x);
  }

  lemma {:induction false} RerouteFailedDecides(w: World, cfg: Config, s: State, f: nat)
    requires Decided(w, cfg, s) && FlightsOk(w, cfg, s)
    ensures Decided(w, cfg, OnRerouteFailed(s, f))
  {
    if f in s.flights && s.flights[f].Routing? {
      var fl := s.flights[f];
      assert FlightOk(w, cfg, s.routed, fl);
      EndDecides(w, cfg, s, Record(f, fl.exec, fl.hint, fl.hint.decision, true), s.admitted);
    }
  }

  lemma {:induction false} ReturnedDecides(w: World, cfg: Config, s: State, f: nat)
    requires Decided(w, cfg, s) && FlightsOk(w, cfg, s)
    ensures Decided(w, cfg, OnReturned(s, f))
  {
    if f in s.flights && s.flights[f].Running? {
      var fl := s.flights[f];
      assert FlightOk(w, cfg, s.routed, fl);
      EndDecides(w, cfg, s, Record(f, fl.exec, fl.hint, fl.decision, false),
                 if fl.selection.tool == fl.exec.name then s.admitted else s.admitted - {fl.exec.token});
    }
  }

  lemma {:induction false} DecisionPaid(w: World, cfg: Config, routed: set<Answer>, owed: map<string, Record>, written: seq<Record>, c: string)
    requires DecisionsOk(w, cfg, routed, owed, written) && c in owed
    ensures DecisionsOk(w, cfg, routed, owed - {c}, written + [owed[c]])
  {
  }

  lemma {:induction false} HintDecides(w: World, cfg: Config, s: State, e: Event)
    requires Decided(w, cfg, s) && e.HintRouted?
    ensures Decided(w, cfg, OnHintRouted(w, cfg, s, e))
  {
    var answered := s.routed + {Answer(e.capability, e.input, e.decision)};
    DecisionsGrow(w, cfg, s.routed, answered, s.owed, s.written);
  }

  lemma {:induction false} StepKeepsDecisions(w: World, cfg: Config, s: State, e: Event)
    requires HintsOk(cfg, s) && FlightsOk(w, cfg, s) && Decided(w, cfg, s)
    ensures Decided(w, cfg, Step(w, cfg, s, e))
  {
    match e
    case Execute(exec, tools) => ExecuteDecides(w, cfg, s, exec, tools);
    case Rerouted(f, decision, tools) => ReroutedDecides(w, cfg, s, f, decision, tools);
    case RerouteFailed(f) => RerouteFailedDecides(w, cfg, s, f);
    case Returned(f) => ReturnedDecides(w, cfg, s, f);
    case ResultSeen(exec) =>
      if exec.callId in s.owed {
        DecisionPaid(w, cfg, s.routed, s.owed, s.written, exec.callId);
      }
    case HintRouted(_, _, _, _, _, _) => HintDecides(w, cfg, s, e);
    case _ =>
  }

  lemma {:induction false} RunKeepsDecisions(w: World, cfg: Config, s: State, es: seq<Event>)
    requires Inv(w, cfg, s) && Decided(w, cfg, s)
    ensures Decided(w, cfg, Run(w, cfg, s, es))
    decreases |es|
  {
    if es != [] {
      StepKeepsInv(w, cfg, s, es[0]);
      StepKeepsDecisions(w, cfg, s, es[0]);
      RunKeepsDecisions(w, cfg, Step(w, cfg, s, es[0]), es[1..]);
    }
  }

  // ---------------------------------------------------------------------------------------------
  // What holds in every reachable state
  // ---------------------------------------------------------------------------------------------

  /** The source tool of the hint on the agent's current turn. */
  ghost predicate HintedNow(s: State, agent: nat, tool: string) {
    agent in s.active && s.active[agent].hint.Some? && s.active[agent].hint.value.source == tool
  }

  /** A model-direct call of an agent passes the guard exactly for a baseline tool or the source
      tool of the hint on that agent's current turn. */
  lemma {:induction false} TopLevelGuard(w: World, cfg: Config, es: seq<Event>, exec: Exec)
    requires exec.agent.Some? && exec.parent.None?
    ensures var s := Run(w, cfg, INITIAL, es);
      Guard(cfg, s, exec) <==> exec.name in cfg.baseline || HintedNow(s, exec.agent.value, exec.name)
  {
    RunKeepsInv(w, cfg, INITIAL, es);
  }

  lemma HintedIsSource(cfg: Config, s: State, agent: nat, tool: string)
    requires HintsOk(cfg, s) && HintedNow(s, agent, tool)
    ensures IsSource(cfg, tool)
  {
    assert HintOk(cfg, s.routed, s.active[agent].hint.value);
  }

  ghost predicate Granted(s: State, token: nat, tool: string) {
    exists f :: Grants(s, f, token, tool)
  }

  lemma TopLevelTool(cfg: Config, s: State, exec: Exec)
    requires HintsOk(cfg, s) && exec.agent.Some? && exec.parent.None? && Guard(cfg, s, exec)
    ensures exec.name in cfg.baseline || IsSource(cfg, exec.name)
  {
    if HintedNow(s, exec.agent.value, exec.name) {
      HintedIsSource(cfg, s, exec.agent.value, exec.name);
    }
  }

  lemma HiddenToolsAt(cfg: Config, s: State, exec: Exec)
    requires HintsOk(cfg, s) && AdmittedOk(s)
    requires Valid(cfg) && Hidden(cfg, exec.name) && !IsSource(cfg, exec.name) && exec.agent.Some?
    requires Guard(cfg, s, exec)
    ensures exec.parent.Some? && Granted(s, exec.parent.value, exec.name)
  {
    if exec.parent.None? {
      TopLevelTool(cfg, s, exec);
    }
  }

  /** With a validated configuration, a hidden implementation tool that is no configured source
      passes the guard for an agent only as a nested call under the token of an execution in flight
      that selected exactly that tool. */
  lemma {:induction false} HiddenToolsRunOnlyNested(w: World, cfg: Config, es: seq<Event>, exec: Exec)
    requires Valid(cfg) && Hidden(cfg, exec.name) && !IsSource(cfg, exec.name) && exec.agent.Some?
    requires Guard(cfg, Run(w, cfg, INITIAL, es), exec)
    ensures exec.parent.Some? && Granted(Run(w, cfg, INITIAL, es), exec.parent.value, exec.name)
  {
    RunKeepsInv(w, cfg, INITIAL, es);
    HiddenToolsAt(cfg, Run(w, cfg, INITIAL, es), exec);
  }

  /** The guard does not look at calls without an agent: those pass whatever the tool. */
  lemma {:induction false} AgentlessCallsPass(cfg: Config, s: State, exec: Exec)
    requires exec.agent.None?
    ensures Guard(cfg, s, exec)
  {
  }

  /** No admission outlives the execution it was granted to: once an execution that was granted a
      nested call returns, the guard refuses that call. */
  lemma {:induction false} AdmissionEndsWithItsExecution(w: World, cfg: Config, es: seq<Event>, f: nat, exec: Exec)
    requires var s := Run(w, cfg, INITIAL, es);
      && exec.agent.Some? && exec.parent.Some? && Hidden(cfg, exec.name)
      && Grants(s, f, exec.parent.value, exec.name)
    ensures var s := Run(w, cfg, INITIAL, es);
      !Guard(cfg, Step(w, cfg, s, Returned(f)), exec)
  {
  }

  /** Every hinted call that reached `next()` or the nested execution carries a decision routed for
      its very arguments, up to member order, and passed both schema checks on them. */
  lemma {:induction false} RunningCallsAreRouted(w: World, cfg: Config, es: seq<Event>, f: nat)
    requires forall v :: w.text(v) == StableJson(v)
    requires var s := Run(w, cfg, INITIAL, es); f in s.flights && s.flights[f].Running?
    ensures var s := Run(w, cfg, INITIAL, es);
      var fl := s.flights[f];
      && Checked(w, cfg, fl.exec.name, fl.decision, fl.exec.arguments, fl.selection)
      && exists a :: a in s.routed && a.capability == fl.hint.capability && a.decision == fl.decision
                     && Equivalent(a.input, fl.exec.arguments)
  {
    var s := Run(w, cfg, INITIAL, es);
    RunKeepsInv(w, cfg, INITIAL, es);
    var fl := s.flights[f];
    assert FlightOk(w, cfg, s.routed, fl);
    var a :| a in s.routed && a.capability == fl.hint.capability && a.decision == fl.decision
             && w.text(a.input) == w.text(fl.exec.arguments);
    StableJsonIsCanonical(a.input, fl.exec.arguments);
  }

  /** Each hinted execution is recorded at most once, and never while it is still in flight. */
  lemma {:induction false} AtMostOneRecord(w: World, cfg: Config, es: seq<Event>)
    ensures var s := Run(w, cfg, INITIAL, es);
      && (forall i, j :: 0 <= i < j < |s.written| ==> s.written[i].flight != s.written[j].flight)
      && (forall f :: f in s.flights ==> !WasWritten(s, f))
      && (forall x :: x in s.written ==> x.flight < s.flightCount)
  {
    RunKeepsInv(w, cfg, INITIAL, es);
  }

  /** Record `x` is due or was written. */
  ghost predicate Recorded(s: State, x: Record) {
    x in s.written || exists c :: c in s.owed && s.owed[c] == x
  }

  /** Answered for this capability and for this value, up to member order. */
  ghost predicate AnsweredFor(s: State, capability: string, input: Json, decision: Decision) {
    exists a :: a in s.routed && a.capability == capability && a.decision == decision && Equivalent(a.input, input)
  }

  /** Over every interleaving, each record goes under a decision that was routed for its own
      arguments unless the second routing failed, and in that case under the hint's decision, which was
      routed for an input that differs from the arguments by more than member order. */
  lemma {:induction false} RecordedDecisions(w: World, cfg: Config, es: seq<Event>, x: Record)
    requires forall v :: w.text(v) == StableJson(v)
    requires Recorded(Run(w, cfg, INITIAL, es), x)
    ensures var s := Run(w, cfg, INITIAL, es);
      && x.exec.name == x.hint.source
      && (!x.rerouteFailed ==> AnsweredFor(s, x.hint.capability, x.exec.arguments, x.decision))
      && (x.rerouteFailed ==>
            && x.decision == x.hint.decision && !Equivalent(x.exec.arguments, x.hint.input)
            && Answer(x.hint.capability, x.hint.input, x.decision) in s.routed)
  {
    var s := Run(w, cfg, INITIAL, es);
    RunKeepsDecisions(w, cfg, INITIAL, es);
    assert DecisionOk(w, cfg, s.routed, x);
    StableJsonIsCanonical(x.exec.arguments, x.hint.input);
    if !x.rerouteFailed {
      var a :| a in s.routed && a.capability == x.hint.capability && a.decision == x.decision
               && w.text(a.input) == w.text(x.exec.arguments);
      StableJsonIsCanonical(a.input, x.exec.arguments);
    }
  }

  // The failing case can be met by every hint that is admitted: its turn calls the source tool with
  // other arguments, and the second routing fails.

  function FailingRun(message: nat, agent: nat, turn: nat, hint: Hint, tools: Registry, exec: Exec): seq<Event> {
    [HintRouted(message, hint.capability, hint.input, hint.decision, tools, true), Claimed(agent, message, turn),
     Execute(exec, tools), RerouteFailed(0), ResultSeen(exec)]
  }

  /** The hint is admitted: its source is the capability's canonical tool and passes the checks. */
  ghost predicate Admissible(w: World, cfg: Config, hint: Hint, tools: Registry) {
    && FindCapability(cfg.routes, hint.capability).Some?
    && FindCapability(cfg.routes, hint.capability).value.source == hint.source
    && CheckedSelection(w, cfg, hint.source, hint.decision, tools, hint.input).Some?
  }

  lemma {:induction false} HintIsQueued(w: World, cfg: Config, message: nat, hint: Hint, tools: Registry)
    requires Admissible(w, cfg, hint, tools)
    ensures Step(w, cfg, INITIAL, HintRouted(message, hint.capability, hint.input, hint.decision, tools, true))
         == INITIAL.(routed := {Answer(hint.capability, hint.input, hint.decision)}, hinted := map[message := hint])
  {
    assert {} + {Answer(hint.capability, hint.input, hint.decision)} == {Answer(hint.capability, hint.input, hint.decision)};
  }

  lemma {:induction false} CallIsRecorded(w: World, cfg: Config, s: State, agent: nat, hint: Hint, tools: Registry, exec: Exec)
    requires agent in s.active && s.active[agent].hint == Some(hint) && s.flightCount == 0 && s.written == []
    requires exec.agent == Some(agent) && exec.parent.None? && exec.name == hint.source
    requires w.text(exec.arguments) != w.text(hint.input)
    ensures var r := Step(w, cfg, Step(w, cfg, Step(w, cfg, s, Execute(exec, tools)), RerouteFailed(0)), ResultSeen(exec));
      r.written == [Record(0, exec, hint, hint.decision, true)] && r.routed == s.routed
  {
    var x := Record(0, exec, hint, hint.decision, true);
    var waiting := s.(flightCount := 1, flights := s.flights[0 := Routing(exec, hint)]);
    assert Step(w, cfg, s, Execute(exec, tools)) == waiting;
    var due := Step(w, cfg, waiting, RerouteFailed(0));
    assert due.owed == waiting.owed[exec.callId := x] && due.written == [] && due.routed == s.routed;
  }

  lemma {:induction false} RunFive(w: World, cfg: Config, s: State, a: Event, b: Event, c: Event, d: Event, e: Event)
    ensures Run(w, cfg, s, [a, b, c, d, e])
         == Step(w, cfg, Step(w, cfg, Step(w, cfg, Step(w, cfg, Step(w, cfg, s, a), b), c), d), e)
  {
    var s1 := Step(w, cfg, s, a);
    var s2 := Step(w, cfg, s1, b);
    var s3 := Step(w, cfg, s2, c);
    assert [a, b, c, d, e] == [a] + [b, c, d, e] && [b, c, d, e] == [b] + [c, d, e];
    assert [c, d, e] == [c] + [d, e] && [d, e] == [d] + [e] && [e] == [e] + [];
    RunCons(w, cfg, s, a, [b, c, d, e]);
    RunCons(w, cfg, s1, b, [c, d, e]);
    RunCons(w, cfg, s2, c, [d, e]);
    RunCons(w, cfg, s3, d, [e]);
    RunCons(w, cfg, Step(w, cfg, s3, d), e, []);
  }

  lemma {:induction false} RunCons(w: World, cfg: Config, s: State, e: Event, es: seq<Event>)
    ensures Run(w, cfg, s, [e] + es) == Run(w, cfg, Step(w, cfg, s, e), es)
  {
    assert ([e] + es)[0] == e && ([e] + es)[1..] == es;
  }

  /** Whatever hint is admitted: there is a run after which the call is recorded under a decision that
      was never routed for its arguments. */
  lemma {:induction false} FailedReroutingIsRecorded(w: World, cfg: Config, message: nat, agent: nat, turn: nat,
                                                     hint: Hint, tools: Registry, exec: Exec)
    requires forall v :: w.text(v) == StableJson(v)
    requires Admissible(w, cfg, hint, tools) && !Equivalent(exec.arguments, hint.input)
    requires exec.agent == Some(agent) && exec.parent.None? && exec.name == hint.source
    ensures var s := Run(w, cfg, INITIAL, FailingRun(message, agent, turn, hint, tools, exec));
      && s.written == [Record(0, exec, hint, hint.decision, true)]
      && !AnsweredFor(s, hint.capability, exec.arguments, hint.decision)
  {
    var es := FailingRun(message, agent, turn, hint, tools, exec);
    RunFive(w, cfg, INITIAL, es[0], es[1], es[2], es[3], es[4]);
    HintIsQueued(w, cfg, message, hint, tools);
    var queued := INITIAL.(routed := {Answer(hint.capability, hint.input, hint.decision)}, hinted := map[message := hint]);
    var claimed := Step(w, cfg, queued, Claimed(agent, message, turn));
    assert claimed.active[agent].hint == Some(hint) && claimed.routed == queued.routed;
    StableJsonIsCanonical(exec.arguments, hint.input);
    CallIsRecorded(w, cfg, claimed, agent, hint, tools, exec);
    if Equivalent(hint.input, exec.arguments) {
      EquivalentBack(hint.input, exec.arguments);
    }
  }

  lemma {:induction false} EquivalentBack(a: Value, b: Value)
    requires Equivalent(a, b)
    ensures Equivalent(b, a)
  {
    StableJsonIsCanonical(a, b);
    StableJsonIsCanonical(b, a);
  }

  // One such run, under a validated configuration.

  const DIGEST: string := "sha256:" + seq(64, i => '0')
  const READ := Route("read", "page.read", DIGEST, DIGEST, [Target("direct", "read", DIGEST, DIGEST, None)])
  const ONE_ROUTE := Config([], [READ])
  const ANY_WORLD := World(schema => DIGEST, (schema, value) => true, value => StableJson(value))
  const REGISTRY: Registry := map["read" := ToolDef(Json.Null, Some(Json.Null))]
  const READ_HINT := Hint("page.read", Json.Bool(false), "read", Decision("d", "direct"))
  const READ_CALL := Exec("read", Json.Bool(true), Some(0), None, 1, "call")

  lemma {:induction false} DigestIsDigest()
    ensures IsDigest(DIGEST)
  {
    assert DIGEST[..7] == "sha256:";
    assert forall i :: 7 <= i < 71 ==> DIGEST[i] == '0';
  }

  lemma {:induction false} OneRouteIsValid()
    ensures Valid(ONE_ROUTE) && DistinctKeys(ONE_ROUTE)
  {
    DigestIsDigest();
  }

  lemma {:induction false} ReadIsAdmissible()
    ensures Admissible(ANY_WORLD, ONE_ROUTE, READ_HINT, REGISTRY)
  {
    assert FindCapability([READ], "page.read") == Some(READ);
    assert FindRoute([READ], "read") == Some(READ);
    assert FindTarget(READ.targets, "direct") == Some(READ.targets[0]);
  }

  /** A reachable state, under a validated configuration, with a record under a decision that was not
      routed for its arguments. */
  lemma {:induction false} FailedReroutingOccurs()
    ensures Valid(ONE_ROUTE)
    ensures var s := Run(ANY_WORLD, ONE_ROUTE, INITIAL, FailingRun(0, 0, 1, READ_HINT, REGISTRY, READ_CALL));
      && s.written == [Record(0, READ_CALL, READ_HINT, Decision("d", "direct"), true)]
      && !AnsweredFor(s, "page.read", READ_CALL.arguments, Decision("d", "direct"))
  {
    OneRouteIsValid();
    ReadIsAdmissible();
    FailedReroutingIsRecorded(ANY_WORLD, ONE_ROUTE, 0, 0, 1, READ_HINT, REGISTRY, READ_CALL);
  }
}
