/**
 The reduction of a session log to usage and pressure counters.

 A line stands for its parsed event: the printed size and the digest of a JSON list come with the
 list, and a counter is the integer found, or `None` for a missing or non-integer one.
 */
module SessionEvents {
  import opened Wrappers

  /** A `content` field: missing (or null), a list, or something else. */
  datatype Content = Missing | Items(bytes: nat, digest: string) | Other

  datatype Usage = Usage(input: Option<int>, output: Option<int>, cacheRead: Option<int>,
                         cacheWrite: Option<int>, reasoning: Option<int>)

  datatype Event =
    | Header(names: Option<(seq<string>, nat)>)   // the named tools of a schema list, and its size
    | ToolCall(name: Option<string>)
    | ToolResult(content: Content, message: Content, result: Content)
    | Message(model: bool, usage: Option<Usage>, inner: Usage, texts: seq<string>)
    | TurnEnd(completed: bool)
    | Unknown

  /** The first of the three places of a result that is there. */
  function Rendered(e: Event): Content
    requires e.ToolResult?
  {
    if e.content != Missing then e.content
    else if e.message != Missing then e.message
    else e.result
  }

  predicate IsResult(e: Event) {
    e.ToolResult? && Rendered(e).Items?
  }

  predicate IsModel(e: Event) {
    e.Message? && e.model
  }

  /** The usage of a message: its event's, or else its own. */
  function Measured(e: Event): Usage
    requires e.Message?
  {
    if e.usage.Some? then e.usage.value else e.inner
  }

  function Tokens(c: Option<int>): nat {
    if c.Some? && c.value >= 0 then c.value else 0
  }

  datatype Bucket = Calls | Input | Output | CacheRead | CacheWrite | Reasoning

  /** What one model message adds to a usage counter. */
  function Amount(b: Bucket, u: Usage): nat {
    match b
    case Calls => 1
    case Input => Tokens(u.input)
    case Output => Tokens(u.output)
    case CacheRead => Tokens(u.cacheRead)
    case CacheWrite => Tokens(u.cacheWrite)
    case Reasoning => Tokens(u.reasoning)
  }

  function InputSide(u: Usage): nat {
    Tokens(u.input) + Tokens(u.cacheRead) + Tokens(u.cacheWrite)
  }

  // ---------------------------------------------------------------------------------------------
  // What the counters mean
  // ---------------------------------------------------------------------------------------------

  /** Before position `i` stands a tool result with no model message in between. */
  ghost predicate AfterResult(log: seq<Event>, i: nat)
    requires i <= |log|
  {
    exists j :: 0 <= j < i && IsResult(log[j]) && forall k :: j < k < i ==> !IsModel(log[k])
  }

  /** A usage counter over the model messages among the first `n` events. */
  ghost function UsageSum(log: seq<Event>, b: Bucket, n: nat): nat
    requires n <= |log|
  {
    if n == 0 then 0
    else UsageSum(log, b, n - 1) + if IsModel(log[n - 1]) then Amount(b, Measured(log[n - 1])) else 0
  }

  /** A model message that follows tool results. */
  ghost predicate Charged(log: seq<Event>, i: nat)
    requires i < |log|
  {
    IsModel(log[i]) && AfterResult(log, i)
  }

  /** The input side of exactly the charged messages. */
  ghost function ChargedSum(log: seq<Event>, n: nat): nat
    requires n <= |log|
  {
    if n == 0 then 0
    else ChargedSum(log, n - 1) + if Charged(log, n - 1) then InputSide(Measured(log[n - 1])) else 0
  }

  ghost function ChargedCalls(log: seq<Event>, n: nat): nat
    requires n <= |log|
  {
    if n == 0 then 0 else ChargedCalls(log, n - 1) + if Charged(log, n - 1) then 1 else 0
  }

  /** The rendered results, in order. */
  function Results(log: seq<Event>, n: nat): seq<Content>
    requires n <= |log|
  {
    if n == 0 then []
    else if IsResult(log[n - 1]) then Results(log, n - 1) + [Rendered(log[n - 1])]
    else Results(log, n - 1)
  }

  function CallNames(log: seq<Event>, n: nat): seq<string>
    requires n <= |log|
  {
    if n == 0 then []
    else if log[n - 1].ToolCall? && log[n - 1].name.Some? then CallNames(log, n - 1) + [log[n - 1].name.value]
    else CallNames(log, n - 1)
  }

  function Approximate(bytes: nat): nat {
    (bytes + 3) / 4
  }

  function Size(c: Content): nat {
    if c.Items? then c.bytes else 0
  }

  function Bytes(rs: seq<Content>): nat {
    if rs == [] then 0 else Bytes(rs[..|rs| - 1]) + Size(rs[|rs| - 1])
  }

  function ApproximateTokens(rs: seq<Content>): nat {
    if rs == [] then 0 else ApproximateTokens(rs[..|rs| - 1]) + Approximate(Size(rs[|rs| - 1]))
  }

  function Join(texts: seq<string>): string {
    if |texts| == 0 then "" else if |texts| == 1 then texts[0] else texts[0] + "\n" + Join(texts[1..])
  }

  /** The joined texts of the last model message that has any. */
  ghost predicate IsFinalText(log: seq<Event>, n: nat, text: string)
    requires n <= |log|
  {
    if exists i :: 0 <= i < n && Speaks(log[i])
    then exists i :: 0 <= i < n && Speaks(log[i]) && text == Join(log[i].texts) && forall k :: i < k < n ==> !Speaks(log[k])
    else text == ""
  }

  predicate Speaks(e: Event) {
    IsModel(e) && e.texts != []
  }

  /** The last turn that ended was completed. */
  ghost predicate LastTurnCompleted(log: seq<Event>, n: nat)
    requires n <= |log|
  {
    exists i :: 0 <= i < n && log[i].TurnEnd? && log[i].completed && forall k :: i < k < n ==> !log[k].TurnEnd?
  }

  predicate HasSchemas(e: Event) {
    e.Header? && e.names.Some?
  }

  ghost predicate Exposed(log: seq<Event>, n: nat, name: string)
    requires n <= |log|
  {
    exists i :: 0 <= i < n && HasSchemas(log[i]) && name in log[i].names.value.0
  }

  /** The size of the largest schema list. */
  ghost predicate IsGreatestSchema(log: seq<Event>, n: nat, bytes: nat)
    requires n <= |log|
  {
    && (forall i :: 0 <= i < n && HasSchemas(log[i]) ==> log[i].names.value.1 <= bytes)
    && (bytes == 0 || exists i :: 0 <= i < n && HasSchemas(log[i]) && log[i].names.value.1 == bytes)
  }

  datatype Counters = Counters(calls: nat, input: nat, output: nat, cacheRead: nat, cacheWrite: nat, reasoning: nat,
                               tools: seq<string>, exposed: set<string>, schemaBytes: nat,
                               resultBytes: nat, resultTokens: nat, digests: seq<string>, nextInput: nat,
                               text: string, completed: bool)

  function TotalInput(c: Counters): nat {
    c.input + c.cacheRead + c.cacheWrite
  }

  function Get(c: Counters, b: Bucket): nat {
    match b
    case Calls => c.calls
    case Input => c.input
    case Output => c.output
    case CacheRead => c.cacheRead
    case CacheWrite => c.cacheWrite
    case Reasoning => c.reasoning
  }

  function Digests(rs: seq<Content>): (r: seq<string>)
    ensures |r| == |rs|
  {
    seq(|rs|, i requires 0 <= i < |rs| => if rs[i].Items? then rs[i].digest else "")
  }

  /** The usage counters, and the tokens charged to tool results. */
  ghost predicate CountsUsage(log: seq<Event>, n: nat, c: Counters)
    requires n <= |log|
  {
    (forall b :: Get(c, b) == UsageSum(log, b, n)) && c.nextInput == ChargedSum(log, n)
  }

  ghost predicate CountsTools(log: seq<Event>, n: nat, c: Counters)
    requires n <= |log|
  {
    && c.tools == CallNames(log, n)
    && c.digests == Digests(Results(log, n))
    && c.resultBytes == Bytes(Results(log, n))
    && c.resultTokens == ApproximateTokens(Results(log, n))
    && IsGreatestSchema(log, n, c.schemaBytes)
    && (forall name :: name in c.exposed <==> Exposed(log, n, name))
  }

  ghost predicate Ends(log: seq<Event>, n: nat, c: Counters)
    requires n <= |log|
  {
    IsFinalText(log, n, c.text) && (c.completed <==> LastTurnCompleted(log, n))
  }

  // ---------------------------------------------------------------------------------------------
  // The loop
  // ---------------------------------------------------------------------------------------------

  lemma {:induction false} AfterResultStep(log: seq<Event>, n: nat)
    requires n < |log|
    ensures AfterResult(log, n + 1) <==> IsResult(log[n]) || (AfterResult(log, n) && !IsModel(log[n]))
  {
    if AfterResult(log, n) && !IsModel(log[n]) {
      var j :| 0 <= j < n && IsResult(log[j]) && forall k :: j < k < n ==> !IsModel(log[k]);
      assert forall k :: j < k < n + 1 ==> !IsModel(log[k]);
    }
  }

  lemma TextStep(log: seq<Event>, n: nat, text: string)
    requires n < |log| && IsFinalText(log, n, text)
    ensures IsFinalText(log, n + 1, if Speaks(log[n]) then Join(log[n].texts) else text)
  {
    if !Speaks(log[n]) && exists i :: 0 <= i < n && Speaks(log[i]) {
      var i :| 0 <= i < n && Speaks(log[i]) && text == Join(log[i].texts) && forall k :: i < k < n ==> !Speaks(log[k]);
      assert forall k :: i < k < n + 1 ==> !Speaks(log[k]);
    }
  }

  lemma TurnStep(log: seq<Event>, n: nat)
    requires n < |log|
    ensures LastTurnCompleted(log, n + 1) <==> if log[n].TurnEnd? then log[n].completed else LastTurnCompleted(log, n)
  {
    if !log[n].TurnEnd? && LastTurnCompleted(log, n) {
      var i :| 0 <= i < n && log[i].TurnEnd? && log[i].completed && forall k :: i < k < n ==> !log[k].TurnEnd?;
      assert forall k :: i < k < n + 1 ==> !log[k].TurnEnd?;
    }
  }

  lemma SchemaStep(log: seq<Event>, n: nat, bytes: nat)
    requires n < |log| && IsGreatestSchema(log, n, bytes)
    ensures IsGreatestSchema(log, n + 1,
      if HasSchemas(log[n]) && log[n].names.value.1 > bytes then log[n].names.value.1 else bytes)
  {
  }

  lemma ExposedStep(log: seq<Event>, n: nat)
    requires n < |log|
    ensures forall name ::
      Exposed(log, n + 1, name) <==> Exposed(log, n, name) || (HasSchemas(log[n]) && name in log[n].names.value.0)
  {
  }

  lemma ResultStep(rs: seq<Content>, r: Content)
    ensures Bytes(rs + [r]) == Bytes(rs) + Size(r)
    ensures ApproximateTokens(rs + [r]) == ApproximateTokens(rs) + Approximate(Size(r))
    ensures Digests(rs + [r]) == Digests(rs) + [if r.Items? then r.digest else ""]
  {
    assert (rs + [r])[..|rs|] == rs;
  }

  /** What one event adds to the usage counters. */
  ghost predicate UsageStep(c: Counters, waiting: bool, e: Event, r: Counters) {
    && (forall b :: Get(r, b) == Get(c, b) + if IsModel(e) then Amount(b, Measured(e)) else 0)
    && r.nextInput == c.nextInput + if IsModel(e) && waiting then InputSide(Measured(e)) else 0
  }

  ghost predicate ToolsStep(c: Counters, e: Event, r: Counters) {
    && r.tools == (if e.ToolCall? && e.name.Some? then c.tools + [e.name.value] else c.tools)
    && r.digests == (if IsResult(e) then c.digests + [Rendered(e).digest] else c.digests)
    && r.resultBytes == c.resultBytes + (if IsResult(e) then Rendered(e).bytes else 0)
    && r.resultTokens == c.resultTokens + (if IsResult(e) then Approximate(Rendered(e).bytes) else 0)
    && r.schemaBytes == (if HasSchemas(e) && e.names.value.1 > c.schemaBytes then e.names.value.1 else c.schemaBytes)
    && (forall name :: name in r.exposed <==> name in c.exposed || (HasSchemas(e) && name in e.names.value.0))
  }

  ghost predicate EndStep(c: Counters, e: Event, r: Counters) {
    && r.text == (if Speaks(e) then Join(e.texts) else c.text)
    && r.completed == (if e.TurnEnd? then e.completed else c.completed)
  }

  method AddMessage(c: Counters, waiting: bool, e: Event) returns (r: Counters)
    requires IsModel(e)
    ensures UsageStep(c, waiting, e, r) && ToolsStep(c, e, r) && EndStep(c, e, r)
  {
    var u := if e.usage.Some? then e.usage.value else e.inner;
    var next := c.nextInput;
    if waiting {
      next := next + Tokens(u.input) + Tokens(u.cacheRead) + Tokens(u.cacheWrite);
    }
    var text := c.text;
    if e.texts != [] {
      text := Join(e.texts);
    }
    r := Counters(c.calls + 1, c.input + Tokens(u.input), c.output + Tokens(u.output), c.cacheRead + Tokens(u.cacheRead),
      c.cacheWrite + Tokens(u.cacheWrite), c.reasoning + Tokens(u.reasoning),
      c.tools, c.exposed, c.schemaBytes, c.resultBytes, c.resultTokens, c.digests, next, text, c.completed);
  }

  /** One turn of the loop. */
  method Consume(c: Counters, waiting: bool, e: Event) returns (r: Counters, w: bool)
    ensures w <==> IsResult(e) || (waiting && !IsModel(e))
    ensures UsageStep(c, waiting, e, r) && ToolsStep(c, e, r) && EndStep(c, e, r)
  {
    r, w := c, waiting;
    match e {
      case Header(names) =>
        if names.Some? {
          r := c.(exposed := c.exposed + (set x | x in names.value.0),
                  schemaBytes := if names.value.1 > c.schemaBytes then names.value.1 else c.schemaBytes);
        }
      case ToolCall(name) =>
        if name.Some? {
          r := c.(tools := c.tools + [name.value]);
        }
      case ToolResult(content, message, result) =>
        var rendered := content;
        if rendered == Missing {
          rendered := message;
        }
        if rendered == Missing {
          rendered := result;
        }
        if rendered.Items? {
          r := c.(resultBytes := c.resultBytes + rendered.bytes,
                  resultTokens := c.resultTokens + Approximate(rendered.bytes),
                  digests := c.digests + [rendered.digest]);
          w := true;
        }
      case Message(model, usage, inner, texts) =>
        if model {
          r := AddMessage(c, waiting, e);
          w := false;
        }
      case TurnEnd(completed) =>
        r := c.(completed := completed);
      case Unknown =>
    }
  }

  lemma {:induction false} ToolsKept(log: seq<Event>, n: nat, c: Counters, r: Counters)
    requires n < |log| && CountsTools(log, n, c) && ToolsStep(c, log[n], r)
    ensures CountsTools(log, n + 1, r)
  {
    if IsResult(log[n]) {
      ResultStep(Results(log, n), Rendered(log[n]));
    }
    SchemaStep(log, n, c.schemaBytes);
    ExposedStep(log, n);
  }

  /** `parse_session_events`. */
  method ParseSession(log: seq<Event>) returns (c: Counters)
    ensures CountsUsage(log, |log|, c) && CountsTools(log, |log|, c) && Ends(log, |log|, c)
  {
    c := Counters(0, 0, 0, 0, 0, 0, [], {}, 0, 0, 0, [], 0, "", false);
    var waiting := false;
    for n := 0 to |log|
      invariant waiting <==> AfterResult(log, n)
      invariant CountsUsage(log, n, c)
      invariant CountsTools(log, n, c)
      invariant Ends(log, n, c)
    {
      var r, w := Consume(c, waiting, log[n]);
      AfterResultStep(log, n);
      ToolsKept(log, n, c, r);
      TextStep(log, n, c.text);
      TurnStep(log, n);
      c, waiting := r, w;
    }
  }

  // ---------------------------------------------------------------------------------------------
  // What the counters bound
  // ---------------------------------------------------------------------------------------------

  lemma {:induction false} ChargedWithinInput(log: seq<Event>, n: nat)
    requires n <= |log|
    ensures ChargedSum(log, n) <= UsageSum(log, Input, n) + UsageSum(log, CacheRead, n) + UsageSum(log, CacheWrite, n)
  {
    if n > 0 {
      ChargedWithinInput(log, n - 1);
    }
  }

  /** Each charged call answers at least one result of its own. */
  lemma {:induction false} ChargedCallsBounded(log: seq<Event>, n: nat)
    requires n <= |log|
    ensures ChargedCalls(log, n) + (if AfterResult(log, n) then 1 else 0) <= |Results(log, n)|
    ensures ChargedCalls(log, n) <= UsageSum(log, Calls, n)
  {
    if n > 0 {
      ChargedCallsBounded(log, n - 1);
      AfterResultStep(log, n - 1);
    }
  }

  lemma {:induction false} ApproximationIsClose(rs: seq<Content>)
    ensures Bytes(rs) <= 4 * ApproximateTokens(rs) <= Bytes(rs) + 3 * |rs|
  {
    if rs != [] {
      ApproximationIsClose(rs[..|rs| - 1]);
    }
  }

  /** For every log: the tokens charged to tool results stay within the input tokens, no more calls are
      charged than there are results or model calls, and the token estimate is the bytes in fours,
      rounded up for each result. */
  lemma {:induction false} CountersAreBounded(log: seq<Event>, c: Counters)
    requires CountsUsage(log, |log|, c) && CountsTools(log, |log|, c)
    ensures c.nextInput <= TotalInput(c)
    ensures ChargedCalls(log, |log|) <= |c.digests| && ChargedCalls(log, |log|) <= c.calls
    ensures c.resultBytes <= 4 * c.resultTokens <= c.resultBytes + 3 * |c.digests|
    ensures |c.digests| == 0 ==> c.nextInput == 0
  {
    ChargedWithinInput(log, |log|);
    assert Get(c, Input) == c.input && Get(c, CacheRead) == c.cacheRead && Get(c, CacheWrite) == c.cacheWrite;
    assert Get(c, Calls) == c.calls;
    ChargedCallsBounded(log, |log|);
    ApproximationIsClose(Results(log, |log|));
    NothingCharged(log, |log|);
  }

  lemma {:induction false} NothingCharged(log: seq<Event>, n: nat)
    requires n <= |log|
    ensures ChargedCalls(log, n) == 0 ==> ChargedSum(log, n) == 0
  {
    if n > 0 {
      NothingCharged(log, n - 1);
    }
  }

  // ---------------------------------------------------------------------------------------------
  // The smallest logs, spelled out
  // ---------------------------------------------------------------------------------------------

  /** A count that is there and not negative counts; anything else counts as nothing. */
  ghost predicate Counts(c: Option<int>, n: nat) {
    if c.Some? && c.value >= 0 then n == c.value else n == 0
  }

  /** The usage `u` applies to the message: the event's own if there is one, else the message's. */
  ghost predicate Applies(e: Event, u: Usage) {
    e.Message? && (e.usage == Some(u) || (e.usage.None? && u == e.inner))
  }

  /** One model message: each counter is its field of the usage that applies. */
  lemma {:induction false} OneMessage(e: Event, u: Usage)
    requires e.Message? && e.model && Applies(e, u)
    ensures UsageSum([e], Calls, 1) == 1 && ChargedSum([e], 1) == 0
    ensures Counts(u.input, UsageSum([e], Input, 1)) && Counts(u.output, UsageSum([e], Output, 1))
    ensures Counts(u.cacheRead, UsageSum([e], CacheRead, 1)) && Counts(u.cacheWrite, UsageSum([e], CacheWrite, 1))
    ensures Counts(u.reasoning, UsageSum([e], Reasoning, 1))
  {
    assert forall b :: UsageSum([e], b, 0) == 0;
  }

  /** A message of another source counts nothing. */
  lemma {:induction false} OtherMessage(e: Event, b: Bucket)
    requires e.Message? && !e.model
    ensures UsageSum([e], b, 1) == 0 && ChargedSum([e], 1) == 0
  {
    assert UsageSum([e], b, 0) == 0;
  }

  /** The list that a result shows: its own content, or else the message's, or else the result's. */
  ghost predicate Shows(e: Event, c: Content) {
    && e.ToolResult? && c.Items?
    && (e.content == c || (e.content.Missing? && (e.message == c || (e.message.Missing? && e.result == c))))
  }

  lemma {:induction false} ShownIsRendered(r: Event, c: Content)
    requires Shows(r, c)
    ensures IsResult(r) && Rendered(r) == c
  {
  }

  /** A result is measured by its bytes and its bytes in fours, rounded up. */
  lemma {:induction false} ResultIsMeasured(r: Event, c: Content)
    requires Shows(r, c)
    ensures Results([r], 1) == [c] && Bytes([c]) == c.bytes && ApproximateTokens([c]) == (c.bytes + 3) / 4
  {
    ShownIsRendered(r, c);
    assert Results([r], 0) == [];
    assert [c][..0] == [];
  }

  /** A model message after a result is charged its input, cache reads and cache writes. */
  lemma {:induction false} ResultThenMessage(r: Event, c: Content, e: Event, u: Usage)
    requires Shows(r, c) && e.Message? && e.model && Applies(e, u)
    ensures ChargedSum([r, e], 2) == UsageSum([e], Input, 1) + UsageSum([e], CacheRead, 1) + UsageSum([e], CacheWrite, 1)
  {
    var log := [r, e];
    ShownIsRendered(r, c);
    assert IsResult(log[0]) && AfterResult(log, 1);
    assert ChargedSum(log, 1) == ChargedSum(log, 0) == 0;
    assert ChargedSum(log, 2) == InputSide(Measured(e));
    assert forall b :: UsageSum([e], b, 1) == UsageSum([e], b, 0) + Amount(b, Measured(e));
    assert forall b :: UsageSum([e], b, 0) == 0;
  }

  /** A result that shows no list charges nothing to the message after it. */
  lemma {:induction false} NoListNoCharge(r: Event, e: Event)
    requires r.ToolResult? && (forall c :: !Shows(r, c)) && e.Message? && e.model
    ensures ChargedSum([r, e], 2) == 0 && Results([r, e], 2) == []
  {
    var log := [r, e];
    assert !Rendered(r).Items? || Shows(r, Rendered(r));
    assert ChargedSum(log, 1) == ChargedSum(log, 0) == 0;
    assert Results(log, 1) == Results(log, 0) == [];
  }

  /** Tool names, results and texts keep their order. */
  lemma {:induction false} OrderIsKept(x: string, y: string, r: Event, c: Content, q: Event, d: Content)
    requires Shows(r, c) && Shows(q, d)
    ensures CallNames([ToolCall(Some(x)), ToolCall(Some(y))], 2) == [x, y]
    ensures Results([r, q], 2) == [c, d] && Digests([c, d]) == [c.digest, d.digest]
    ensures Join([x, y]) == x + "\n" + y && Join([x]) == x
  {
    var calls := [ToolCall(Some(x)), ToolCall(Some(y))];
    assert CallNames(calls, 0) == [] && CallNames(calls, 1) == [x];
    ShownIsRendered(r, c);
    ShownIsRendered(q, d);
    assert Results([r, q], 0) == [] && Results([r, q], 1) == [c];
    assert [x, y][1..] == [y];
  }
}
