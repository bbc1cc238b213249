/**
 Receipt attribution of the router plugin: record writes that complete at any time, turns that are
 claimed, and model requests that collect the receipts of the tool results before them.

 A write is a promise chain: it settles (and only then pushes its receipt), and in a later step it
 leaves the set of pending writes.  A request first waits for the writes pending when it began,
 then takes the receipts of its turn.  All steps may interleave.
 */
module Receipts {
  import opened Wrappers

  /** The life of one record write. */
  datatype Stage = Outstanding | Settled | Gone

  /** `receipt` is the id the bridge answered with, if the write succeeded. */
  datatype Write = Write(agent: nat, turn: nat, stage: Stage, receipt: Option<string>)

  /** An entry of `completedReceipts`, tagged with the write it came from. */
  datatype Entry = Entry(write: nat, turn: nat, receiptId: string)

  /** A model request between its first await and `takeReceipts`. */
  datatype Request = Request(agent: nat, turn: nat, waiting: set<nat>)

  /** What a request was given. */
  datatype Handed = Handed(request: nat, agent: nat, turn: nat, entries: seq<Entry>)

  datatype State = State(
    turns: map<nat, nat>,
    writes: map<nat, Write>,
    pendingWrites: map<nat, set<nat>>,
    completed: map<nat, seq<Entry>>,
    requests: map<nat, Request>,
    handed: seq<Handed>)

  const INITIAL := State(map[], map[], map[], map[], map[], [])

  datatype Event =
    | ToolResult(agent: nat, write: nat)
    | WriteSettles(write: nat, receipt: Option<string>)
    | WriteLeaves(write: nat)
    | Claimed(agent: nat, turn: nat)
    | RequestBegins(request: nat, agent: nat, turn: nat)
    | RequestTakes(request: nat)
    | TurnEnds(agent: nat)
    | Disposed(agent: nat)

  function CompletedOf(s: State, agent: nat): seq<Entry> {
    if agent in s.completed then s.completed[agent] else []
  }

  function PendingOf(s: State, agent: nat): set<nat> {
    if agent in s.pendingWrites then s.pendingWrites[agent] else {}
  }

  function OfTurn(es: seq<Entry>, turn: nat): (r: seq<Entry>)
    ensures forall e :: e in r <==> e in es && e.turn == turn
  {
    if es == [] then [] else (if es[0].turn == turn then [es[0]] else []) + OfTurn(es[1..], turn)
  }

  function From(es: seq<Entry>, turn: nat): (r: seq<Entry>)
    ensures forall e :: e in r <==> e in es && e.turn >= turn
  {
    if es == [] then [] else (if es[0].turn >= turn then [es[0]] else []) + From(es[1..], turn)
  }

  // ---------------------------------------------------------------------------------------------
  // The steps
  // ---------------------------------------------------------------------------------------------

  /** `enqueueWrite`: the result is recorded under the turn the agent is in, or turn 0. */
  function OnToolResult(s: State, agent: nat, w: nat): State {
    if w in s.writes then s
    else
      var turn := if agent in s.turns then s.turns[agent] else 0;
      s.(writes := s.writes[w := Write(agent, turn, Outstanding, None)],
         pendingWrites := s.pendingWrites[agent := PendingOf(s, agent) + {w}])
  }

  /** The `then` and `catch` callbacks: a write that answered with a receipt id pushes it. */
  function OnWriteSettles(s: State, w: nat, receipt: Option<string>): State {
    if w !in s.writes || s.writes[w].stage != Outstanding then s
    else
      var x := s.writes[w];
      var settled := s.(writes := s.writes[w := x.(stage := Settled, receipt := receipt)]);
      if receipt.None? then settled
      else settled.(completed := s.completed[x.agent := CompletedOf(s, x.agent) + [Entry(w, x.turn, receipt.value)]])
  }

  /** The `finally` callback: only now is the promise that `flushWrites` waits for fulfilled. */
  function OnWriteLeaves(s: State, w: nat): State {
    if w !in s.writes || s.writes[w].stage != Settled then s
    else
      var x := s.writes[w];
      s.(writes := s.writes[w := x.(stage := Gone)],
         pendingWrites := if x.agent in s.pendingWrites
                          then s.pendingWrites[x.agent := s.pendingWrites[x.agent] - {w}] else s.pendingWrites)
  }

  function OnClaimed(s: State, agent: nat, turn: nat): State {
    s.(turns := s.turns[agent := turn], completed := s.completed[agent := From(CompletedOf(s, agent), turn)])
  }

  function OnRequestBegins(s: State, r: nat, agent: nat, turn: nat): State {
    if r in s.requests || (exists i :: 0 <= i < |s.handed| && s.handed[i].request == r) then s
    else s.(requests := s.requests[r := Request(agent, turn, PendingOf(s, agent))])
  }

  /** `flushWrites` has returned. */
  predicate Ready(s: State, r: nat) {
    r in s.requests && forall w :: w in s.requests[r].waiting ==> w in s.writes && s.writes[w].stage == Gone
  }

  /** `takeReceipts`: hand over the entries of the turn, keep only later ones. */
  function OnRequestTakes(s: State, r: nat): State {
    if !Ready(s, r) then s else Taken(s, r)
  }

  function Taken(s: State, r: nat): State
    requires r in s.requests
  {
    var q := s.requests[r];
    var entries := CompletedOf(s, q.agent);
    s.(requests := s.requests - {r},
       completed := s.completed[q.agent := From(entries, q.turn + 1)],
       handed := s.handed + [Handed(r, q.agent, q.turn, OfTurn(entries, q.turn))])
  }

  function OnDisposed(s: State, agent: nat): State {
    s.(turns := s.turns - {agent}, pendingWrites := s.pendingWrites - {agent}, completed := s.completed - {agent})
  }

  function Step(s: State, e: Event): State {
    match e
    case ToolResult(agent, w) => OnToolResult(s, agent, w)
    case WriteSettles(w, receipt) => OnWriteSettles(s, w, receipt)
    case WriteLeaves(w) => OnWriteLeaves(s, w)
    case Claimed(agent, turn) => OnClaimed(s, agent, turn)
    case RequestBegins(r, agent, turn) => OnRequestBegins(s, r, agent, turn)
    case RequestTakes(r) => OnRequestTakes(s, r)
    case TurnEnds(agent) => s.(turns := s.turns - {agent})
    case Disposed(agent) => OnDisposed(s, agent)
  }

  function Run(s: State, es: seq<Event>): State
    decreases |es|
  {
    if es == [] then s else Run(Step(s, es[0]), es[1..])
  }

  // ---------------------------------------------------------------------------------------------
  // The invariant
  // ---------------------------------------------------------------------------------------------

  /** An entry tells the truth about its write. */
  ghost predicate Honest(s: State, agent: nat, e: Entry) {
    && e.write in s.writes
    && s.writes[e.write].agent == agent && s.writes[e.write].turn == e.turn
    && s.writes[e.write].stage != Outstanding && s.writes[e.write].receipt == Some(e.receiptId)
  }

  ghost predicate DistinctWrites(es: seq<Entry>) {
    forall i, j :: 0 <= i < j < |es| ==> es[i].write != es[j].write
  }

  ghost predicate Mentions(es: seq<Entry>, w: nat) {
    exists e :: e in es && e.write == w
  }

  ghost predicate WasHanded(s: State, w: nat) {
    exists i :: 0 <= i < |s.handed| && Mentions(s.handed[i].entries, w)
  }

  ghost predicate CompletedOk(s: State) {
    forall a :: a in s.completed ==>
      && DistinctWrites(s.completed[a])
      && forall e :: e in s.completed[a] ==> Honest(s, a, e) && !WasHanded(s, e.write)
  }

  /** Handed entries belong to the agent and the turn of the request; no write appears twice. */
  ghost predicate HandedOk(s: State) {
    && (forall i :: 0 <= i < |s.handed| ==>
          && DistinctWrites(s.handed[i].entries)
          && forall e :: e in s.handed[i].entries ==> Honest(s, s.handed[i].agent, e) && e.turn == s.handed[i].turn)
    && (forall i, j, w :: 0 <= i < j < |s.handed| && Mentions(s.handed[i].entries, w) ==> !Mentions(s.handed[j].entries, w))
  }

  ghost predicate Inv(s: State) {
    CompletedOk(s) && HandedOk(s)
  }

  lemma {:induction false} FilterDistinct(es: seq<Entry>, turn: nat)
    requires DistinctWrites(es)
    ensures DistinctWrites(OfTurn(es, turn)) && DistinctWrites(From(es, turn))
  {
    if es != [] {
      FilterDistinct(es[1..], turn);
      forall e | e in es[1..]
        ensures e.write != es[0].write
      {
        var k :| 0 <= k < |es[1..]| && es[1..][k] == e;
        assert es[k + 1] == e;
      }
      ConsDistinct(es[0], OfTurn(es[1..], turn));
      ConsDistinct(es[0], From(es[1..], turn));
      assert [] + OfTurn(es[1..], turn) == OfTurn(es[1..], turn);
      assert [] + From(es[1..], turn) == From(es[1..], turn);
    }
  }

  lemma ConsDistinct(e: Entry, es: seq<Entry>)
    requires DistinctWrites(es) && forall x :: x in es ==> x.write != e.write
    ensures DistinctWrites([e] + es)
  {
    var r := [e] + es;
    forall i, j | 0 <= i < j < |r|
      ensures r[i].write != r[j].write
    {
      assert r[j] == es[j - 1] && r[j] in es;
      assert i > 0 ==> r[i] == es[i - 1];
    }
  }

  /** A step that leaves settled writes as they are keeps what was handed over. */
  ghost predicate WritesKept(s: State, r: State) {
    forall w :: w in s.writes && s.writes[w].stage != Outstanding ==>
      && w in r.writes && r.writes[w].stage != Outstanding
      && r.writes[w].agent == s.writes[w].agent && r.writes[w].turn == s.writes[w].turn
      && r.writes[w].receipt == s.writes[w].receipt
  }

  lemma HandedFrame(s: State, r: State)
    requires HandedOk(s) && WritesKept(s, r) && r.handed == s.handed
    ensures HandedOk(r)
  {
  }

  lemma SameHanded(s: State, r: State, w: nat)
    requires r.handed == s.handed
    ensures WasHanded(r, w) <==> WasHanded(s, w)
  {
  }

  lemma CompletedFrame(s: State, r: State)
    requires CompletedOk(s) && WritesKept(s, r) && r.handed == s.handed
    requires forall a :: a in r.completed ==>
      && DistinctWrites(r.completed[a])
      && forall e :: e in r.completed[a] ==> e in CompletedOf(s, a)
    ensures CompletedOk(r)
  {
    forall a, e | a in r.completed && e in r.completed[a]
      ensures Honest(r, a, e) && !WasHanded(r, e.write)
    {
      assert a in s.completed && e in s.completed[a];
      SameHanded(s, r, e.write);
    }
  }

  lemma ToolResultKeeps(s: State, agent: nat, w: nat)
    requires Inv(s)
    ensures Inv(OnToolResult(s, agent, w))
  {
    var r := OnToolResult(s, agent, w);
    HandedFrame(s, r);
    CompletedFrame(s, r);
  }

  lemma OutstandingIsNowhere(s: State, w: nat)
    requires Inv(s) && w in s.writes && s.writes[w].stage == Outstanding
    ensures !WasHanded(s, w) && forall a :: !Mentions(CompletedOf(s, a), w)
  {
    forall i, e | 0 <= i < |s.handed| && e in s.handed[i].entries
      ensures e.write != w
    {
      assert Honest(s, s.handed[i].agent, e);
    }
    forall a, e | e in CompletedOf(s, a)
      ensures e.write != w
    {
      assert Honest(s, a, e);
    }
  }

  /** The write's own record changes from outstanding to settled. */
  lemma SettleKeeps(s: State, w: nat, receipt: Option<string>)
    requires Inv(s) && w in s.writes && s.writes[w].stage == Outstanding
    ensures Inv(s.(writes := s.writes[w := s.writes[w].(stage := Settled, receipt := receipt)]))
  {
    var r := s.(writes := s.writes[w := s.writes[w].(stage := Settled, receipt := receipt)]);
    HandedFrame(s, r);
    CompletedFrame(s, r);
  }

  lemma PushKeeps(s: State, agent: nat, e: Entry)
    requires Inv(s) && Honest(s, agent, e) && !WasHanded(s, e.write) && !Mentions(CompletedOf(s, agent), e.write)
    ensures Inv(s.(completed := s.completed[agent := CompletedOf(s, agent) + [e]]))
  {
    var r := s.(completed := s.completed[agent := CompletedOf(s, agent) + [e]]);
    HandedFrame(s, r);
    forall a, x | a in r.completed && x in r.completed[a]
      ensures Honest(r, a, x) && !WasHanded(r, x.write)
    {
      if x != e || a != agent {
        assert a in s.completed && x in s.completed[a];
      }
      SameHanded(s, r, x.write);
    }
    var es := CompletedOf(s, agent);
    forall i | 0 <= i < |es|
      ensures es[i].write != e.write
    {
      assert es[i] in es;
    }
  }

  lemma WriteSettlesKeeps(s: State, w: nat, receipt: Option<string>)
    requires Inv(s)
    ensures Inv(OnWriteSettles(s, w, receipt))
  {
    if w in s.writes && s.writes[w].stage == Outstanding {
      OutstandingIsNowhere(s, w);
      SettleKeeps(s, w, receipt);
      if receipt.Some? {
        var x := s.writes[w];
        var settled := s.(writes := s.writes[w := x.(stage := Settled, receipt := receipt)]);
        SameHanded(s, settled, w);
        assert CompletedOf(settled, x.agent) == CompletedOf(s, x.agent);
        PushKeeps(settled, x.agent, Entry(w, x.turn, receipt.value));
      }
    }
  }

  lemma FrameKeeps(s: State, r: State)
    requires Inv(s) && WritesKept(s, r) && r.handed == s.handed && r.completed == s.completed
    ensures Inv(r)
  {
    HandedFrame(s, r);
    CompletedFrame(s, r);
  }

  lemma ClaimedKeeps(s: State, agent: nat, turn: nat)
    requires Inv(s)
    ensures Inv(OnClaimed(s, agent, turn))
  {
    var r := OnClaimed(s, agent, turn);
    FilterDistinct(CompletedOf(s, agent), turn);
    HandedFrame(s, r);
    CompletedFrame(s, r);
  }

  lemma DisposedKeeps(s: State, agent: nat)
    requires Inv(s)
    ensures Inv(OnDisposed(s, agent))
  {
    var r := OnDisposed(s, agent);
    HandedFrame(s, r);
    CompletedFrame(s, r);
  }

  lemma RequestTakesKeeps(s: State, q: nat)
    requires Inv(s)
    ensures Inv(OnRequestTakes(s, q))
  {
    if Ready(s, q) {
      var req := s.requests[q];
      FilterDistinct(CompletedOf(s, req.agent), req.turn);
      FilterDistinct(CompletedOf(s, req.agent), req.turn + 1);
      TakesHanded(s, q);
      TakesCompleted(s, q);
    }
  }

  lemma TakesHanded(s: State, q: nat)
    requires Inv(s) && Ready(s, q)
    requires DistinctWrites(OfTurn(CompletedOf(s, s.requests[q].agent), s.requests[q].turn))
    ensures HandedOk(OnRequestTakes(s, q))
  {
    var r := OnRequestTakes(s, q);
    var n := |s.handed|;
    forall i | 0 <= i < n
      ensures r.handed[i] == s.handed[i]
    {
    }
    forall i, w | 0 <= i < n && Mentions(s.handed[i].entries, w)
      ensures !Mentions(r.handed[n].entries, w)
    {
      assert WasHanded(s, w);
      forall e | e in r.handed[n].entries
        ensures e.write != w
      {
        assert e in CompletedOf(s, s.requests[q].agent);
      }
    }
  }

  lemma NowHanded(s: State, q: nat, w: nat)
    requires Ready(s, q)
    ensures WasHanded(OnRequestTakes(s, q), w) ==>
      WasHanded(s, w) || Mentions(OfTurn(CompletedOf(s, s.requests[q].agent), s.requests[q].turn), w)
  {
    var r := OnRequestTakes(s, q);
    if i :| 0 <= i < |r.handed| && Mentions(r.handed[i].entries, w) {
      assert i < |s.handed| ==> Mentions(s.handed[i].entries, w);
    }
  }

  lemma TakesCompleted(s: State, q: nat)
    requires Inv(s) && Ready(s, q)
    requires DistinctWrites(From(CompletedOf(s, s.requests[q].agent), s.requests[q].turn + 1))
    ensures CompletedOk(OnRequestTakes(s, q))
  {
    var r := OnRequestTakes(s, q);
    var req, n := s.requests[q], |s.handed|;
    forall a, e | a in r.completed && e in r.completed[a]
      ensures Honest(r, a, e) && !WasHanded(r, e.write)
    {
      assert a in s.completed && e in s.completed[a];
      NowHanded(s, q, e.write);
      forall x | x in CompletedOf(s, req.agent) && x.write == e.write
        ensures x.turn == e.turn && a == req.agent
      {
        assert Honest(s, req.agent, x);
      }
    }
  }

  lemma {:induction false} StepKeepsInv(s: State, e: Event)
    requires Inv(s)
    ensures Inv(Step(s, e))
  {
    match e
    case ToolResult(agent, w) => ToolResultKeeps(s, agent, w);
    case WriteSettles(w, receipt) => WriteSettlesKeeps(s, w, receipt);
    case WriteLeaves(w) => FrameKeeps(s, Step(s, e));
    case Claimed(agent, turn) => ClaimedKeeps(s, agent, turn);
    case RequestBegins(r, agent, turn) => FrameKeeps(s, Step(s, e));
    case RequestTakes(r) => RequestTakesKeeps(s, r);
    case TurnEnds(agent) => FrameKeeps(s, Step(s, e));
    case Disposed(agent) => DisposedKeeps(s, agent);
  }

  lemma {:induction false} RunKeepsInv(s: State, es: seq<Event>)
    requires Inv(s)
    ensures Inv(Run(s, es))
    decreases |es|
  {
    if es != [] {
      StepKeepsInv(s, es[0]);
      RunKeepsInv(Step(s, es[0]), es[1..]);
    }
  }

  /** Over all interleavings: the receipt of a write is handed to at most one request, at most
      once, and only to a request of the agent and the turn its result was recorded in. */
  lemma {:induction false} ReceiptsAreAttributedOnce(es: seq<Event>)
    ensures HandedOk(Run(INITIAL, es))
  {
    RunKeepsInv(INITIAL, es);
  }

  // ---------------------------------------------------------------------------------------------
  // Nothing is lost without a reason
  // ---------------------------------------------------------------------------------------------

  /** The receipt of write `w` is waiting to be taken. */
  ghost predicate Available(s: State, w: nat) {
    w in s.writes && Mentions(CompletedOf(s, s.writes[w].agent), w)
  }

  /** The events that throw a waiting receipt away or give it to another request: a later turn is
      claimed, the agent is disposed, or a request of the same or a later turn takes. */
  ghost predicate Discards(s: State, e: Event, w: nat)
    requires w in s.writes
  {
    match e
    case Claimed(agent, turn) => agent == s.writes[w].agent && turn > s.writes[w].turn
    case Disposed(agent) => agent == s.writes[w].agent
    case RequestTakes(q) =>
      Ready(s, q) && s.requests[q].agent == s.writes[w].agent && s.requests[q].turn >= s.writes[w].turn
    case _ => false
  }

  lemma MentionsFrom(s: State, agent: nat, w: nat, turn: nat)
    requires Inv(s) && w in s.writes && s.writes[w].agent == agent
    ensures Mentions(From(CompletedOf(s, agent), turn), w)
       <==> Mentions(CompletedOf(s, agent), w) && s.writes[w].turn >= turn
  {
    forall e | e in CompletedOf(s, agent) && e.write == w
      ensures e.turn == s.writes[w].turn
    {
      assert Honest(s, agent, e);
    }
  }

  /** A step keeps a waiting receipt exactly when it does not discard it. */
  lemma {:induction false} AvailableStep(s: State, e: Event, w: nat)
    requires Inv(s) && Available(s, w)
    ensures Available(Step(s, e), w) <==> !Discards(s, e, w)
  {
    StepKeepsPlace(s, e, w);
    var agent := s.writes[w].agent;
    var x :| x in CompletedOf(s, agent) && x.write == w;
    assert Honest(s, agent, x);
    match e
    case Claimed(a, turn) =>
      MentionsFrom(s, agent, w, turn);
    case RequestTakes(q) =>
      if Ready(s, q) {
        MentionsFrom(s, agent, w, s.requests[q].turn + 1);
      }
    case WriteSettles(v, receipt) =>
      assert x in CompletedOf(Step(s, e), agent);
    case _ =>
  }

  /** Once settled, a receipt that is not waiting never waits again. */
  lemma UnavailableStep(s: State, e: Event, w: nat)
    requires Inv(s) && w in s.writes && s.writes[w].stage != Outstanding && !Available(s, w)
    ensures var r := Step(s, e);
      w in r.writes && r.writes[w].stage != Outstanding && r.writes[w].receipt == s.writes[w].receipt && !Available(r, w)
  {
    var agent := s.writes[w].agent;
    var r := Step(s, e);
    forall x | x in CompletedOf(r, agent)
      ensures x.write != w
    {
      assert x in CompletedOf(s, agent) || (e.WriteSettles? && x.write == e.write);
    }
  }

  /** From its settlement on, no event of the run discards the receipt. */
  ghost predicate Undisturbed(s: State, es: seq<Event>, w: nat)
    requires w in s.writes
    decreases |es|
  {
    es == [] ||
    (&& (Available(s, w) ==> !Discards(s, es[0], w))
     && w in Step(s, es[0]).writes && Undisturbed(Step(s, es[0]), es[1..], w))
  }

  /** Until it settles, a write stays as it was recorded. */
  lemma OutstandingStep(s: State, e: Event, w: nat)
    requires Inv(s) && w in s.writes && s.writes[w].stage == Outstanding
    ensures var r := Step(s, e);
      && w in r.writes
      && (r.writes[w].stage == Outstanding || Available(r, w)
          || (r.writes[w].stage == Settled && r.writes[w].receipt.None?))
  {
    var r := Step(s, e);
    if e.WriteSettles? && e.write == w && e.receipt.Some? {
      var x := s.writes[w];
      var entry := Entry(w, x.turn, e.receipt.value);
      var es := CompletedOf(s, x.agent) + [entry];
      assert CompletedOf(r, x.agent) == es && entry in es;
    }
  }

  /** For every run: the receipt of a write that had not settled, or was waiting, is waiting at the
      end exactly when the write succeeded and nothing discarded the receipt in between. */
  lemma {:induction false} AvailableIff(s: State, es: seq<Event>, w: nat)
    requires Inv(s) && w in s.writes
    requires s.writes[w].stage == Outstanding || Available(s, w)
    ensures var r := Run(s, es);
      && w in r.writes
      && (Available(r, w) <==> r.writes[w].stage != Outstanding && r.writes[w].receipt.Some? && Undisturbed(s, es, w))
    decreases |es|
  {
    if es == [] {
      if Available(s, w) {
        var x :| x in CompletedOf(s, s.writes[w].agent) && x.write == w;
        assert Honest(s, s.writes[w].agent, x);
      } else {
        assert s.writes[w].stage == Outstanding;
      }
    } else {
      var next := Step(s, es[0]);
      StepKeepsInv(s, es[0]);
      if Available(s, w) {
        AvailableStep(s, es[0], w);
        StepKeepsPlace(s, es[0], w);
        if Discards(s, es[0], w) {
          AvailableIsSettled(s, w);
          SettledStep(s, es[0], w);
          UnavailableRun(next, es[1..], w);
        } else {
          AvailableIff(next, es[1..], w);
        }
      } else {
        OutstandingStep(s, es[0], w);
        if next.writes[w].stage == Outstanding || Available(next, w) {
          AvailableIff(next, es[1..], w);
        } else {
          FailedIsUnavailable(next, w);
          UnavailableRun(next, es[1..], w);
        }
      }
    }
  }

  lemma AvailableIsSettled(s: State, w: nat)
    requires Inv(s) && Available(s, w)
    ensures s.writes[w].stage != Outstanding && s.writes[w].receipt.Some?
  {
    var x :| x in CompletedOf(s, s.writes[w].agent) && x.write == w;
    assert Honest(s, s.writes[w].agent, x);
  }

  lemma SettledStep(s: State, e: Event, w: nat)
    requires w in s.writes && s.writes[w].stage != Outstanding
    ensures w in Step(s, e).writes && Step(s, e).writes[w].stage != Outstanding
  {
  }

  lemma FailedIsUnavailable(s: State, w: nat)
    requires Inv(s) && w in s.writes && s.writes[w].receipt.None?
    ensures !Available(s, w)
  {
    forall x | x in CompletedOf(s, s.writes[w].agent)
      ensures x.write != w
    {
      assert Honest(s, s.writes[w].agent, x);
    }
  }

  lemma {:induction false} UnavailableRun(s: State, es: seq<Event>, w: nat)
    requires Inv(s) && w in s.writes && s.writes[w].stage != Outstanding && !Available(s, w)
    ensures var r := Run(s, es); w in r.writes && r.writes[w].receipt == s.writes[w].receipt && !Available(r, w)
    decreases |es|
  {
    if es != [] {
      StepKeepsInv(s, es[0]);
      UnavailableStep(s, es[0], w);
      UnavailableRun(Step(s, es[0]), es[1..], w);
    }
  }

  /**
   Any write, from the moment it is recorded: when a request of its turn that began while the write
   was pending takes its receipts, the write is included exactly when it succeeded and, from its
   settlement on (be that before or after the request began), no later turn was claimed, the agent
   was not disposed, and no other request of the same or a later turn took.
   */
  lemma {:induction false} PendingWriteIsIncludedIff(s: State, es: seq<Event>, q: nat, w: nat)
    requires Inv(s) && w in s.writes && s.writes[w].stage == Outstanding
    requires var r := Run(s, es);
      && Ready(r, q) && w in r.requests[q].waiting
      && r.requests[q].agent == s.writes[w].agent && r.requests[q].turn == s.writes[w].turn
    ensures var r := Run(s, es);
      var taken := Step(r, RequestTakes(q)).handed;
      && w in r.writes
      && |taken| == |r.handed| + 1 && taken[|r.handed|].request == q
      && (Mentions(taken[|r.handed|].entries, w) <==> r.writes[w].receipt.Some? && Undisturbed(s, es, w))
  {
    var r := Run(s, es);
    AvailableIff(s, es, w);
    RunKeepsInv(s, es);
    WriteKeepsPlace(s, es, w);
    MentionsOfTurn(r, r.requests[q].agent, w, r.requests[q].turn);
  }

  lemma StepKeepsPlace(s: State, e: Event, w: nat)
    requires w in s.writes
    ensures var r := Step(s, e); w in r.writes && r.writes[w].agent == s.writes[w].agent && r.writes[w].turn == s.writes[w].turn
  {
  }

  lemma {:induction false} WriteKeepsPlace(s: State, es: seq<Event>, w: nat)
    requires w in s.writes
    ensures w in Run(s, es).writes
    ensures Run(s, es).writes[w].agent == s.writes[w].agent && Run(s, es).writes[w].turn == s.writes[w].turn
    decreases |es|
  {
    if es != [] {
      StepKeepsPlace(s, es[0], w);
      WriteKeepsPlace(Step(s, es[0]), es[1..], w);
    }
  }

  lemma MentionsOfTurn(s: State, agent: nat, w: nat, turn: nat)
    requires Inv(s) && w in s.writes && s.writes[w].agent == agent && s.writes[w].turn == turn
    ensures Mentions(OfTurn(CompletedOf(s, agent), turn), w) <==> Mentions(CompletedOf(s, agent), w)
  {
    forall e | e in CompletedOf(s, agent) && e.write == w
      ensures e.turn == turn
    {
      assert Honest(s, agent, e);
    }
  }

  /** Of two overlapping requests of one turn, the one that takes second gets nothing. */
  lemma {:induction false} SecondTakerGetsNothing(s: State, first: nat, second: nat)
    requires Ready(s, first) && Ready(s, second) && first != second
    requires s.requests[first].agent == s.requests[second].agent && s.requests[first].turn == s.requests[second].turn
    ensures var r := Step(Step(s, RequestTakes(first)), RequestTakes(second));
      r.handed[|r.handed| - 1].request == second && r.handed[|r.handed| - 1].entries == []
  {
    var agent, turn := s.requests[first].agent, s.requests[first].turn;
    var later := From(CompletedOf(s, agent), turn + 1);
    assert Ready(Step(s, RequestTakes(first)), second);
    NoneOfTurn(later, turn);
  }

  lemma NoneOfTurn(es: seq<Entry>, turn: nat)
    requires forall e :: e in es ==> e.turn > turn
    ensures OfTurn(es, turn) == []
  {
    if OfTurn(es, turn) != [] {
      assert OfTurn(es, turn)[0] in OfTurn(es, turn);
    }
  }

  // The concrete case: both requests begin while write 7 is pending, and no later turn is claimed.

  const CLAIMED := State(map[0 := 1], map[], map[], map[0 := []], map[], [])
  const RECORDED := CLAIMED.(writes := map[7 := Write(0, 1, Outstanding, None)], pendingWrites := map[0 := {7}])
  const BOTH_WAIT := RECORDED.(requests := map[1 := Request(0, 1, {7}), 2 := Request(0, 1, {7})])
  const BOTH_READY := BOTH_WAIT.(writes := map[7 := Write(0, 1, Gone, Some("receipt"))],
                                 pendingWrites := map[0 := {}], completed := map[0 := [Entry(7, 1, "receipt")]])

  ghost predicate Reachable(s: State) {
    exists es :: Run(INITIAL, es) == s
  }

  lemma {:induction false} RunSnoc(s: State, es: seq<Event>, e: Event)
    ensures Run(s, es + [e]) == Step(Run(s, es), e)
    decreases |es|
  {
    if es == [] {
      assert [e][1..] == [];
    } else {
      assert (es + [e])[1..] == es[1..] + [e];
      RunSnoc(Step(s, es[0]), es[1..], e);
    }
  }

  lemma ReachableStep(s: State, e: Event)
    requires Reachable(s)
    ensures Reachable(Step(s, e))
  {
    var es :| Run(INITIAL, es) == s;
    RunSnoc(INITIAL, es, e);
  }

  lemma RecordedReached()
    ensures Step(INITIAL, Claimed(0, 1)) == CLAIMED && Step(CLAIMED, ToolResult(0, 7)) == RECORDED
  {
    assert {} + {7} == {7};
    assert PendingOf(CLAIMED, 0) == {};
  }

  lemma BothWaitReached()
    ensures Step(Step(RECORDED, RequestBegins(1, 0, 1)), RequestBegins(2, 0, 1)) == BOTH_WAIT
  {
    assert PendingOf(RECORDED, 0) == {7};
    var one := Step(RECORDED, RequestBegins(1, 0, 1));
    assert one.requests == map[1 := Request(0, 1, {7})];
    assert Step(one, RequestBegins(2, 0, 1)).requests == BOTH_WAIT.requests;
  }

  lemma BothReadyReached()
    ensures Step(Step(BOTH_WAIT, WriteSettles(7, Some("receipt"))), WriteLeaves(7)) == BOTH_READY
  {
    var settled := Step(BOTH_WAIT, WriteSettles(7, Some("receipt")));
    assert settled.writes == map[7 := Write(0, 1, Settled, Some("receipt"))];
    assert CompletedOf(BOTH_WAIT, 0) + [Entry(7, 1, "receipt")] == [Entry(7, 1, "receipt")];
    assert settled.completed == map[0 := [Entry(7, 1, "receipt")]];
    var left := Step(settled, WriteLeaves(7));
    assert {7} - {7} == {};
    assert left.writes == BOTH_READY.writes && left.pendingWrites == BOTH_READY.pendingWrites;
  }

  lemma BothReadyIsReachable()
    ensures Reachable(BOTH_READY)
  {
    assert Run(INITIAL, []) == INITIAL;
    RecordedReached();
    BothWaitReached();
    BothReadyReached();
    ReachableStep(INITIAL, Claimed(0, 1));
    ReachableStep(CLAIMED, ToolResult(0, 7));
    ReachableStep(RECORDED, RequestBegins(1, 0, 1));
    ReachableStep(Step(RECORDED, RequestBegins(1, 0, 1)), RequestBegins(2, 0, 1));
    ReachableStep(BOTH_WAIT, WriteSettles(7, Some("receipt")));
    ReachableStep(Step(BOTH_WAIT, WriteSettles(7, Some("receipt"))), WriteLeaves(7));
  }

  /** A reachable state, still in turn 1, in which a request that began while the write was pending
      misses the receipt of that write. */
  lemma {:induction false} OverlappingRequestsCompete()
    ensures Reachable(BOTH_READY) && 7 in BOTH_READY.requests[1].waiting && BOTH_READY.turns[0] == 1
    ensures var r := Step(Step(BOTH_READY, RequestTakes(2)), RequestTakes(1));
      r.handed[|r.handed| - 1].request == 1 && r.handed[|r.handed| - 1].entries == []
  {
    BothReadyIsReachable();
    SecondTakerGetsNothing(BOTH_READY, 2, 1);
  }

  // The second concrete case: the write settles while an earlier request of the turn, which did not
  // wait for it, is still open; that request takes the receipt before the write leaves the set of
  // pending writes, so that the next request begins while it is pending and finds nothing.

  const OPEN := CLAIMED.(requests := map[1 := Request(0, 1, {})])
  const OPEN_SETTLED := OPEN.(writes := map[7 := Write(0, 1, Settled, Some("receipt"))], pendingWrites := map[0 := {7}],
                              completed := map[0 := [Entry(7, 1, "receipt")]])
  const TAKEN := OPEN_SETTLED.(requests := map[], completed := map[0 := []],
                               handed := [Handed(1, 0, 1, [Entry(7, 1, "receipt")])])
  const LATE := TAKEN.(requests := map[2 := Request(0, 1, {7})])
  const LATE_READY := LATE.(writes := map[7 := Write(0, 1, Gone, Some("receipt"))], pendingWrites := map[0 := {}])

  lemma {:induction false} OpenSettledReached()
    ensures Step(Step(Step(CLAIMED, RequestBegins(1, 0, 1)), ToolResult(0, 7)), WriteSettles(7, Some("receipt"))) == OPEN_SETTLED
  {
    assert Step(CLAIMED, RequestBegins(1, 0, 1)) == OPEN;
    assert {} + {7} == {7};
    var recorded := Step(OPEN, ToolResult(0, 7));
    assert recorded.writes == map[7 := Write(0, 1, Outstanding, None)] && recorded.pendingWrites == map[0 := {7}];
    assert [] + [Entry(7, 1, "receipt")] == [Entry(7, 1, "receipt")];
    assert Step(recorded, WriteSettles(7, Some("receipt"))).completed == OPEN_SETTLED.completed;
  }

  lemma {:induction false} TakenReached()
    ensures Step(OPEN_SETTLED, RequestTakes(1)) == TAKEN
  {
    var es := [Entry(7, 1, "receipt")];
    assert es[1..] == [];
    assert OfTurn(es, 1) == es && From(es, 2) == [];
    assert Step(OPEN_SETTLED, RequestTakes(1)).completed == TAKEN.completed;
  }

  lemma {:induction false} LateReadyReached()
    ensures Step(TAKEN, RequestBegins(2, 0, 1)) == LATE && Step(LATE, WriteLeaves(7)) == LATE_READY
  {
    assert PendingOf(TAKEN, 0) == {7};
    assert Step(TAKEN, RequestBegins(2, 0, 1)).requests == LATE.requests;
    assert {7} - {7} == {};
    assert Step(LATE, WriteLeaves(7)).writes == LATE_READY.writes;
  }

  lemma {:induction false} LateIsReachable()
    ensures Reachable(LATE)
  {
    assert Run(INITIAL, []) == INITIAL;
    RecordedReached();
    OpenSettledReached();
    TakenReached();
    LateReadyReached();
    var begun := Step(CLAIMED, RequestBegins(1, 0, 1));
    ReachableStep(INITIAL, Claimed(0, 1));
    ReachableStep(CLAIMED, RequestBegins(1, 0, 1));
    ReachableStep(begun, ToolResult(0, 7));
    ReachableStep(Step(begun, ToolResult(0, 7)), WriteSettles(7, Some("receipt")));
    ReachableStep(OPEN_SETTLED, RequestTakes(1));
    ReachableStep(TAKEN, RequestBegins(2, 0, 1));
  }

  /** A reachable state in which the only open request began while a successful write of its turn was
      pending, and misses its receipt although nothing but the end of that write happens in between. */
  lemma {:induction false} EarlierRequestCanTakeFirst()
    ensures Reachable(LATE) && LATE.requests.Keys == {2} && LATE.turns[0] == 1
    ensures 7 in LATE.requests[2].waiting && LATE.writes[7].receipt.Some?
    ensures var r := Step(Step(LATE, WriteLeaves(7)), RequestTakes(2));
      r.handed[|r.handed| - 1].request == 2 && r.handed[|r.handed| - 1].entries == []
  {
    LateIsReachable();
    LateReadyReached();
    assert Ready(LATE_READY, 2);
    assert CompletedOf(LATE_READY, 0) == [];
  }

  // ---------------------------------------------------------------------------------------------
  // Receipt ids
  // ---------------------------------------------------------------------------------------------

  /** The bridge answered different writes with different receipt ids. */
  ghost predicate DistinctReceipts(s: State) {
    forall v, w :: v in s.writes && w in s.writes && s.writes[v].receipt.Some? && s.writes[v].receipt == s.writes[w].receipt ==> v == w
  }

  /** Then no receipt id is ever handed over twice, neither to two requests nor to one. */
  lemma {:induction false} ReceiptIdsAreHandedOnce(es: seq<Event>, i: nat, j: nat, x: nat, y: nat)
    requires DistinctReceipts(Run(INITIAL, es))
    requires var h := Run(INITIAL, es).handed;
      && i < |h| && j < |h| && x < |h[i].entries| && y < |h[j].entries|
      && h[i].entries[x].receiptId == h[j].entries[y].receiptId
    ensures i == j && x == y
  {
    var s := Run(INITIAL, es);
    RunKeepsInv(INITIAL, es);
    var a, b := s.handed[i].entries[x], s.handed[j].entries[y];
    assert a in s.handed[i].entries && b in s.handed[j].entries;
    assert Honest(s, s.handed[i].agent, a) && Honest(s, s.handed[j].agent, b);
    assert Mentions(s.handed[i].entries, a.write) && Mentions(s.handed[j].entries, a.write);
  }
}
