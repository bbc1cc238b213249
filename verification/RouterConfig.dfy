/**
 The router plugin's tool routes: `validateConfig`, the hidden implementation tools it keeps apart
 from the baseline, and `filterAssembly`.
 */
module RouterConfig {
  import opened Wrappers

  const ADAPTER := "read-url-to-web-fetch-v1"

  /** One executor mapping of a route. */
  datatype Target = Target(executor: string, tool: string, parameterDigest: string, outputDigest: string, adapter: Option<string>)

  /** One entry of `toolRoutes`: the canonical source tool and its reviewed implementations. */
  datatype Route = Route(source: string, capability: string, parameterDigest: string, outputDigest: string, targets: seq<Target>)

  /** The entries of a JavaScript object, in order; keys are distinct. */
  datatype Config = Config(baseline: seq<string>, routes: seq<Route>)

  ghost predicate DistinctKeys(cfg: Config) {
    && (forall i, j :: 0 <= i < j < |cfg.routes| ==> cfg.routes[i].source != cfg.routes[j].source)
    && (forall r :: r in cfg.routes ==>
          forall i, j :: 0 <= i < j < |r.targets| ==> r.targets[i].executor != r.targets[j].executor)
  }

  predicate HexDigit(c: char) { '0' <= c <= '9' || 'a' <= c <= 'f' }

  /** /^sha256:[a-f0-9]{64}$/ */
  predicate IsDigest(d: string) {
    |d| == 71 && d[..7] == "sha256:" && forall i :: 7 <= i < 71 ==> HexDigit(d[i])
  }

  predicate TargetOk(t: Target) {
    && t.executor != "" && t.tool != ""
    && IsDigest(t.parameterDigest) && IsDigest(t.outputDigest)
    && (t.adapter.None? || t.adapter.value == ADAPTER)
  }

  predicate RouteOk(r: Route) {
    && r.source != "" && r.capability != ""
    && IsDigest(r.parameterDigest) && IsDigest(r.outputDigest)
    && r.targets != []
    && forall t :: t in r.targets ==> TargetOk(t)
  }

  /** An implementation tool that stands behind another tool's name. */
  ghost predicate Hidden(cfg: Config, tool: string) {
    HiddenIn(cfg.routes, tool)
  }

  ghost predicate IsSource(cfg: Config, tool: string) {
    exists r :: r in cfg.routes && r.source == tool
  }

  ghost predicate Valid(cfg: Config) {
    && (forall b :: b in cfg.baseline ==> b != "")
    && (forall i, j :: 0 <= i < j < |cfg.baseline| ==> cfg.baseline[i] != cfg.baseline[j])
    && (forall r :: r in cfg.routes ==> RouteOk(r))
    && (forall i, j :: 0 <= i < j < |cfg.routes| ==> cfg.routes[i].capability != cfg.routes[j].capability)
    && (forall b :: b in cfg.baseline ==> !Hidden(cfg, b))
  }

  method CheckBaseline(names: seq<string>) returns (accepted: bool)
    ensures accepted <==>
      && (forall b :: b in names ==> b != "")
      && (forall i, j :: 0 <= i < j < |names| ==> names[i] != names[j])
  {
    var seen := {};
    for i := 0 to |names|
      invariant seen == set k | 0 <= k < i :: names[k]
      invariant forall k :: 0 <= k < i ==> names[k] != ""
      invariant forall j, k :: 0 <= j < k < i ==> names[j] != names[k]
    {
      assert names[i] in names;
      if names[i] == "" || names[i] in seen {
        return false;
      }
      seen := seen + {names[i]};
    }
    return true;
  }

  method CheckTargets(route: Route) returns (accepted: bool, hidden: set<string>)
    ensures accepted <==> forall t :: t in route.targets ==> TargetOk(t)
    ensures accepted ==> forall x :: x in hidden <==> HiddenIn([route], x)
  {
    hidden := {};
    for j := 0 to |route.targets|
      invariant forall k :: 0 <= k < j ==> TargetOk(route.targets[k])
      invariant hidden == set k | 0 <= k < j && route.targets[k].tool != route.source :: route.targets[k].tool
    {
      var target := route.targets[j];
      assert target in route.targets;
      if !TargetOk(target) {
        return false, {};
      }
      if target.tool != route.source {
        hidden := hidden + {target.tool};
      }
    }
    accepted := true;
    forall x
      ensures x in hidden <==> HiddenIn([route], x)
    {
      if HiddenIn([route], x) {
        var t :| t in route.targets && t.tool == x && x != route.source;
        var k :| 0 <= k < |route.targets| && route.targets[k] == t;
      }
      if x in hidden {
        var k :| 0 <= k < |route.targets| && route.targets[k].tool == x && x != route.source;
        assert route in [route] && route.targets[k] in route.targets;
      }
    }
  }

  /** What is left to check of a route with a name and a capability. */
  method CheckRoute(route: Route) returns (accepted: bool, hidden: set<string>)
    requires route.source != "" && route.capability != ""
    ensures accepted <==> RouteOk(route)
    ensures accepted ==> forall x :: x in hidden <==> HiddenIn([route], x)
  {
    if !IsDigest(route.parameterDigest) || !IsDigest(route.outputDigest) || route.targets == [] {
      return false, {};
    }
    accepted, hidden := CheckTargets(route);
  }

  /** What the loop has found of the first `i` routes. */
  ghost predicate Surveyed(routes: seq<Route>, i: nat, capabilities: set<string>, hidden: set<string>)
    requires i <= |routes|
  {
    && (forall x :: x in capabilities <==> exists k :: 0 <= k < i && routes[k].capability == x)
    && (forall k :: 0 <= k < i ==> RouteOk(routes[k]))
    && (forall j, k :: 0 <= j < k < i ==> routes[j].capability != routes[k].capability)
    && (forall x :: x in hidden <==> HiddenIn(routes[..i], x))
  }

  lemma {:induction false} OneMoreRoute(routes: seq<Route>, i: nat, capabilities: set<string>, hidden: set<string>, more: set<string>)
    requires i < |routes| && Surveyed(routes, i, capabilities, hidden)
    requires RouteOk(routes[i]) && routes[i].capability !in capabilities
    requires forall x :: x in more <==> HiddenIn([routes[i]], x)
    ensures Surveyed(routes, i + 1, capabilities + {routes[i].capability}, hidden + more)
  {
    HiddenInSnoc(routes, i);
  }

  lemma {:induction false} BadRouteRefuses(cfg: Config, i: nat, capabilities: set<string>, hidden: set<string>)
    requires i < |cfg.routes| && Surveyed(cfg.routes, i, capabilities, hidden)
    requires !RouteOk(cfg.routes[i]) || cfg.routes[i].capability in capabilities
    ensures !Valid(cfg)
  {
    assert cfg.routes[i] in cfg.routes;
  }

  lemma {:induction false} AllSurveyed(cfg: Config, capabilities: set<string>, hidden: set<string>)
    requires Surveyed(cfg.routes, |cfg.routes|, capabilities, hidden)
    ensures forall x :: x in hidden <==> Hidden(cfg, x)
    ensures forall r :: r in cfg.routes ==> RouteOk(r)
  {
    assert cfg.routes[..|cfg.routes|] == cfg.routes;
  }

  /** The part of `validateConfig` that concerns tools: it accepts exactly the valid configurations. */
  method ValidateTools(cfg: Config) returns (accepted: bool)
    ensures accepted <==> Valid(cfg)
  {
    var ok := CheckBaseline(cfg.baseline);
    if !ok {
      return false;
    }
    var capabilities: set<string> := {};
    var hidden: set<string> := {};
    for i := 0 to |cfg.routes|
      invariant Surveyed(cfg.routes, i, capabilities, hidden)
    {
      var route := cfg.routes[i];
      if route.source == "" || route.capability == "" || route.capability in capabilities {
        BadRouteRefuses(cfg, i, capabilities, hidden);
        return false;
      }
      var good, more := CheckRoute(route);
      if !good {
        BadRouteRefuses(cfg, i, capabilities, hidden);
        return false;
      }
      OneMoreRoute(cfg.routes, i, capabilities, hidden, more);
      capabilities := capabilities + {route.capability};
      hidden := hidden + more;
    }
    AllSurveyed(cfg, capabilities, hidden);
    accepted := forall b :: b in cfg.baseline ==> b !in hidden;
  }

  ghost predicate HiddenIn(routes: seq<Route>, tool: string) {
    exists r, t :: r in routes && t in r.targets && t.tool == tool && tool != r.source
  }

  lemma HiddenInSnoc(routes: seq<Route>, i: nat)
    requires i < |routes|
    ensures forall x :: HiddenIn(routes[..i + 1], x) <==> HiddenIn(routes[..i], x) || HiddenIn([routes[i]], x)
  {
    assert routes[..i + 1] == routes[..i] + [routes[i]];
    forall x
      ensures HiddenIn(routes[..i + 1], x) <==> HiddenIn(routes[..i], x) || HiddenIn([routes[i]], x)
    {
      if q, t :| q in routes[..i] + [routes[i]] && t in q.targets && t.tool == x && x != q.source {
        assert q in routes[..i] || q in [routes[i]];
      }
      if q, t :| q in routes[..i] && t in q.targets && t.tool == x && x != q.source {
        assert q in routes[..i + 1];
      }
      if q, t :| q in [routes[i]] && t in q.targets && t.tool == x && x != q.source {
        assert q in routes[..i + 1];
      }
    }
  }

  // ---------------------------------------------------------------------------------------------
  // filterAssembly
  // ---------------------------------------------------------------------------------------------

  datatype Assembly = Assembly(tools: seq<string>, sections: seq<string>)

  /** The sections to hide together with a tool. */
  datatype Prompt = Prompt(tool: string, sections: seq<string>)

  function Keep(xs: seq<string>, keep: string -> bool): (r: seq<string>)
    ensures forall x :: x in r <==> x in xs && keep(x)
  {
    if xs == [] then [] else (if keep(xs[0]) then [xs[0]] else []) + Keep(xs[1..], keep)
  }

  /** The sections that go with a tool that is not allowed. */
  ghost predicate HiddenSection(tools: seq<string>, prompts: seq<Prompt>, allowed: set<string>, section: string) {
    || (exists t :: t in tools && t !in allowed && section == "tool:" + t)
    || (exists p :: p in prompts && p.tool !in allowed && section in p.sections)
  }

  /** `filterAssembly`: order and repetitions of what stays are kept. */
  ghost function Filter(a: Assembly, allowed: set<string>, prompts: seq<Prompt>): Assembly {
    Assembly(Keep(a.tools, t => t in allowed),
             Keep(a.sections, s => !HiddenSection(a.tools, prompts, allowed, s)))
  }

  /** The source's loops over the tools and the configured prompt sections. */
  method FilterAssembly(a: Assembly, allowed: set<string>, prompts: seq<Prompt>) returns (r: Assembly)
    ensures r == Filter(a, allowed, prompts)
    ensures forall t :: t in r.tools <==> t in a.tools && t in allowed
    ensures forall s :: s in r.sections <==>
      && s in a.sections
      && (forall t :: t in a.tools && t !in allowed ==> s != "tool:" + t)
      && (forall p :: p in prompts && p.tool !in allowed ==> s !in p.sections)
  {
    var hidden := {};
    for i := 0 to |a.tools|
      invariant forall s :: s in hidden <==> exists t :: t in a.tools[..i] && t !in allowed && s == "tool:" + t
    {
      assert a.tools[..i + 1] == a.tools[..i] + [a.tools[i]];
      if a.tools[i] !in allowed {
        hidden := hidden + {"tool:" + a.tools[i]};
      }
    }
    assert a.tools[..|a.tools|] == a.tools;
    ghost var byTool := hidden;
    for i := 0 to |prompts|
      invariant forall s :: s in hidden <==>
        s in byTool || exists p :: p in prompts[..i] && p.tool !in allowed && s in p.sections
    {
      assert prompts[..i + 1] == prompts[..i] + [prompts[i]];
      if prompts[i].tool !in allowed {
        hidden := hidden + set s | s in prompts[i].sections;
      }
    }
    assert prompts[..|prompts|] == prompts;
    r := Assembly(Keep(a.tools, t => t in allowed), Keep(a.sections, s => s !in hidden));
    KeepSame(a.sections, s => s !in hidden, s => !HiddenSection(a.tools, prompts, allowed, s));
  }

  lemma {:induction false} KeepSame(xs: seq<string>, f: string -> bool, g: string -> bool)
    requires forall x :: x in xs ==> (f(x) <==> g(x))
    ensures Keep(xs, f) == Keep(xs, g)
  {
    if xs != [] {
      KeepSame(xs[1..], f, g);
    }
  }

  lemma {:induction false} KeepTwice(xs: seq<string>, f: string -> bool, g: string -> bool, h: string -> bool)
    requires forall x :: x in xs ==> (h(x) <==> f(x) && g(x))
    ensures Keep(Keep(xs, f), g) == Keep(xs, h)
  {
    if xs != [] {
      var rest := Keep(xs[1..], f);
      KeepTwice(xs[1..], f, g, h);
      if f(xs[0]) {
        assert Keep(xs, f) == [xs[0]] + rest;
        assert Keep([xs[0]] + rest, g) == (if g(xs[0]) then [xs[0]] else []) + Keep(rest, g) by {
          assert ([xs[0]] + rest)[1..] == rest;
        }
      } else {
        assert Keep(xs, f) == rest;
      }
    }
  }

  /** Filtering by A and then by B is filtering by A and B at once, for tools and for sections. */
  lemma {:induction false} FilterComposes(a: Assembly, allowedA: set<string>, allowedB: set<string>, prompts: seq<Prompt>)
    ensures Filter(Filter(a, allowedA, prompts), allowedB, prompts) == Filter(a, allowedA * allowedB, prompts)
  {
    var once := Filter(a, allowedA, prompts);
    KeepTwice(a.tools, t => t in allowedA, t => t in allowedB, t => t in allowedA * allowedB);
    forall s
      ensures !HiddenSection(a.tools, prompts, allowedA * allowedB, s)
         <==> !HiddenSection(a.tools, prompts, allowedA, s) && !HiddenSection(once.tools, prompts, allowedB, s)
    {
      if t :| t in a.tools && t !in allowedA * allowedB && s == "tool:" + t {
        assert t in allowedA ==> t in once.tools;
      }
    }
    KeepTwice(a.sections, s => !HiddenSection(a.tools, prompts, allowedA, s),
              s => !HiddenSection(once.tools, prompts, allowedB, s),
              s => !HiddenSection(a.tools, prompts, allowedA * allowedB, s));
  }

  /** Filtering twice by the same set changes nothing more, and a smaller set never shows more. */
  lemma {:induction false} FilterIdempotentAndMonotone(a: Assembly, small: set<string>, large: set<string>, prompts: seq<Prompt>)
    requires small <= large
    ensures Filter(Filter(a, small, prompts), small, prompts) == Filter(a, small, prompts)
    ensures Filter(Filter(a, large, prompts), small, prompts) == Filter(a, small, prompts)
    ensures forall s :: s in Filter(a, small, prompts).sections ==> s in Filter(a, large, prompts).sections
  {
    FilterComposes(a, small, small, prompts);
    FilterComposes(a, large, small, prompts);
    assert small * small == small && large * small == small;
  }

  // ---------------------------------------------------------------------------------------------
  // Refusals
  // ---------------------------------------------------------------------------------------------

  /** A text of the form `sha256:` and 64 lower-case hexadecimal digits. */
  ghost predicate Sha256(d: string) {
    && |d| == 7 + 64 && d[0] == 's' && d[1] == 'h' && d[2] == 'a' && d[3] == '2' && d[4] == '5' && d[5] == '6' && d[6] == ':'
    && forall i :: 7 <= i < |d| ==> d[i] in "0123456789abcdef"
  }

  lemma {:induction false} DigestForm(d: string)
    ensures IsDigest(d) <==> Sha256(d)
  {
    var hex := "0123456789abcdef";
    forall c
      ensures HexDigit(c) <==> c in hex
    {
      HexDigitIsListed(c);
    }
    if |d| == 71 {
      assert d[..7] == [d[0], d[1], d[2], d[3], d[4], d[5], d[6]];
    }
  }

  lemma {:induction false} HexDigitIsListed(c: char)
    ensures HexDigit(c) <==> c in "0123456789abcdef"
  {
    var hex := "0123456789abcdef";
    if '0' <= c <= '9' {
      assert hex[c as int - '0' as int] == c;
    } else if 'a' <= c <= 'f' {
      assert hex[10 + (c as int - 'a' as int)] == c;
    }
  }

  /** Each of these faults makes a configuration invalid. */
  ghost predicate Faulty(cfg: Config) {
    || "" in cfg.baseline
    || (exists i, j :: 0 <= i < j < |cfg.baseline| && cfg.baseline[i] == cfg.baseline[j])
    || (exists i, j :: 0 <= i < j < |cfg.routes| && cfg.routes[i].capability == cfg.routes[j].capability)
    || (exists r :: r in cfg.routes && FaultyRoute(r))
    || (exists r, t :: r in cfg.routes && t in r.targets && (FaultyTarget(t) || (t.tool != r.source && t.tool in cfg.baseline)))
  }

  ghost predicate FaultyRoute(r: Route) {
    r.source == "" || r.capability == "" || !Sha256(r.parameterDigest) || !Sha256(r.outputDigest) || r.targets == []
  }

  ghost predicate FaultyTarget(t: Target) {
    || t.executor == "" || t.tool == "" || !Sha256(t.parameterDigest) || !Sha256(t.outputDigest)
    || (t.adapter.Some? && t.adapter.value != "read-url-to-web-fetch-v1")
  }

  lemma {:induction false} TargetFaults(t: Target)
    ensures TargetOk(t) <==> !FaultyTarget(t)
  {
    DigestForm(t.parameterDigest);
    DigestForm(t.outputDigest);
  }

  lemma {:induction false} RouteFaults(r: Route)
    ensures RouteOk(r) <==> !FaultyRoute(r) && forall t :: t in r.targets ==> !FaultyTarget(t)
  {
    DigestForm(r.parameterDigest);
    DigestForm(r.outputDigest);
    forall t | t in r.targets
      ensures TargetOk(t) <==> !FaultyTarget(t)
    {
      TargetFaults(t);
    }
  }

  /** The valid configurations are exactly those without a fault. */
  lemma {:induction false} ValidIffFaultless(cfg: Config)
    ensures Valid(cfg) <==> !Faulty(cfg)
  {
    forall r | r in cfg.routes
      ensures RouteOk(r) <==> !FaultyRoute(r) && forall t :: t in r.targets ==> !FaultyTarget(t)
    {
      RouteFaults(r);
    }
    assert forall b :: b in cfg.baseline ==>
      (Hidden(cfg, b) <==> exists r, t :: r in cfg.routes && t in r.targets && t.tool == b && b != r.source);
  }

  /** What stays keeps its order and its repetitions. */
  lemma {:induction false} KeepInOrder(xs: seq<string>, ys: seq<string>, keep: string -> bool)
    ensures Keep(xs + ys, keep) == Keep(xs, keep) + Keep(ys, keep)
  {
    if xs == [] {
      assert [] + ys == ys;
    } else {
      assert (xs + ys)[0] == xs[0] && (xs + ys)[1..] == xs[1..] + ys;
      KeepInOrder(xs[1..], ys, keep);
      var h := if keep(xs[0]) then [xs[0]] else [];
      assert h + (Keep(xs[1..], keep) + Keep(ys, keep)) == (h + Keep(xs[1..], keep)) + Keep(ys, keep);
    }
  }

  lemma {:induction false} KeepOne(x: string, keep: string -> bool)
    ensures Keep([x], keep) == if keep(x) then [x] else []
  {
    assert [x][1..] == [];
  }
}
