/**
 Which turn a write belongs to, and for which writes a request waits, said of the events alone.
 */
module ReceiptTurns {
  import opened Wrappers
  import opened Receipts

  // ---------------------------------------------------------------------------------------------
  // Turns
  // ---------------------------------------------------------------------------------------------

  /** The events that begin or end a turn of the agent. */
  predicate TurnEvent(e: Event, agent: nat) {
    (e.Claimed? && e.agent == agent) || e == TurnEnds(agent) || e == Disposed(agent)
  }

  /** Event `i` is a claim of the agent, and nothing after it begins or ends a turn of the agent. */
  ghost predicate LastClaim(es: seq<Event>, agent: nat, i: nat) {
    && i < |es| && es[i].Claimed? && es[i].agent == agent
    && forall j :: i < j < |es| ==> !TurnEvent(es[j], agent)
  }

  lemma {:induction false} StepTurn(s: State, e: Event, agent: nat)
    ensures !TurnEvent(e, agent) ==> (agent in Step(s, e).turns <==> agent in s.turns)
    ensures !TurnEvent(e, agent) && agent in s.turns ==> Step(s, e).turns[agent] == s.turns[agent]
    ensures e.Claimed? && e.agent == agent ==> agent in Step(s, e).turns && Step(s, e).turns[agent] == e.turn
    ensures e == TurnEnds(agent) || e == Disposed(agent) ==> agent !in Step(s, e).turns
  {
  }

  /** Without a turn event nothing changes the agent's turn. */
  lemma {:induction false} QuietRun(s: State, es: seq<Event>, agent: nat)
    requires forall j :: 0 <= j < |es| ==> !TurnEvent(es[j], agent)
    ensures agent in Run(s, es).turns <==> agent in s.turns
    ensures agent in s.turns ==> Run(s, es).turns[agent] == s.turns[agent]
    decreases |es|
  {
    if es != [] {
      StepTurn(s, es[0], agent);
      QuietRun(Step(s, es[0]), es[1..], agent);
    }
  }

  /** The agent is in a turn exactly after a last claim, and it is the claimed one. */
  lemma {:induction false} TurnIsLastClaim(es: seq<Event>, agent: nat)
    ensures agent in Run(INITIAL, es).turns <==> exists i: nat :: LastClaim(es, agent, i)
    ensures forall i: nat :: LastClaim(es, agent, i) ==> agent in Run(INITIAL, es).turns && Run(INITIAL, es).turns[agent] == es[i].turn
    decreases |es|
  {
    if es != [] {
      var n := |es| - 1;
      var front, e := es[..n], es[n];
      assert es == front + [e];
      RunSnoc(INITIAL, front, e);
      StepTurn(Run(INITIAL, front), e, agent);
      TurnIsLastClaim(front, agent);
      forall i: nat
        ensures LastClaim(es, agent, i) <==>
          if i == n then e.Claimed? && e.agent == agent else LastClaim(front, agent, i) && !TurnEvent(e, agent)
      {
        LastClaimSnoc(front, e, agent, i);
      }
      assert e.Claimed? && e.agent == agent ==> LastClaim(es, agent, n);
      if agent in Run(INITIAL, front).turns && !TurnEvent(e, agent) {
        var i: nat :| LastClaim(front, agent, i);
        assert LastClaim(es, agent, i);
      }
    }
  }

  lemma {:induction false} LastClaimSnoc(es: seq<Event>, e: Event, agent: nat, i: nat)
    ensures LastClaim(es + [e], agent, i) <==>
      if i == |es| then e.Claimed? && e.agent == agent else LastClaim(es, agent, i) && !TurnEvent(e, agent)
  {
    var now := es + [e];
    assert now[|es|] == e;
    assert forall j :: 0 <= j < |es| ==> now[j] == es[j];
  }

  /** A result is recorded under the turn of the agent's last claim that no end of the turn and no disposal
      followed, or under turn 0 if there is none; the write is pending from then on. */
  lemma {:induction false} WriteHasItsTurn(es: seq<Event>, agent: nat, w: nat)
    requires w !in Run(INITIAL, es).writes
    ensures var r := Run(INITIAL, es + [ToolResult(agent, w)]);
      && w in r.writes && r.writes[w].agent == agent && r.writes[w].stage == Outstanding && w in PendingOf(r, agent)
      && (forall i: nat :: LastClaim(es, agent, i) ==> r.writes[w].turn == es[i].turn)
      && ((forall i: nat :: !LastClaim(es, agent, i)) ==> r.writes[w].turn == 0)
  {
    RunSnoc(INITIAL, es, ToolResult(agent, w));
    TurnIsLastClaim(es, agent);
  }

  // ---------------------------------------------------------------------------------------------
  // Pending writes
  // ---------------------------------------------------------------------------------------------

  /** The agent's pending writes are those that have not left. */
  ghost predicate PendingOk(s: State, agent: nat) {
    forall w :: w in PendingOf(s, agent) <==> w in s.writes && s.writes[w].agent == agent && s.writes[w].stage != Gone
  }

  lemma {:induction false} StepKeepsPending(s: State, e: Event, agent: nat)
    requires PendingOk(s, agent) && e != Disposed(agent)
    ensures PendingOk(Step(s, e), agent)
  {
  }

  lemma {:induction false} RunKeepsPending(s: State, es: seq<Event>, agent: nat)
    requires PendingOk(s, agent) && Disposed(agent) !in es
    ensures PendingOk(Run(s, es), agent)
    decreases |es|
  {
    if es != [] {
      assert es[0] in es;
      StepKeepsPending(s, es[0], agent);
      RunKeepsPending(Step(s, es[0]), es[1..], agent);
    }
  }

  /** As long as the agent is not disposed of, a new request waits for exactly the agent's writes that have
      not left, and takes once all of them have. */
  lemma {:induction false} RequestWaitsForItsWrites(es: seq<Event>, q: nat, agent: nat, turn: nat)
    requires Disposed(agent) !in es
    requires var s := Run(INITIAL, es); q !in s.requests && forall i :: 0 <= i < |s.handed| ==> s.handed[i].request != q
    ensures var s := Run(INITIAL, es); var r := Step(s, RequestBegins(q, agent, turn));
      && q in r.requests && r.requests[q].agent == agent && r.requests[q].turn == turn
      && forall w :: w in r.requests[q].waiting <==> w in s.writes && s.writes[w].agent == agent && s.writes[w].stage != Gone
  {
    RunKeepsPending(INITIAL, es, agent);
  }

  // ---------------------------------------------------------------------------------------------
  // Order
  // ---------------------------------------------------------------------------------------------

  lemma {:induction false} OfTurnConcat(a: seq<Entry>, b: seq<Entry>, turn: nat)
    ensures OfTurn(a + b, turn) == OfTurn(a, turn) + OfTurn(b, turn)
  {
    if a == [] {
      assert [] + b == b;
    } else {
      assert (a + b)[0] == a[0] && (a + b)[1..] == a[1..] + b;
      OfTurnConcat(a[1..], b, turn);
      Regroup(if a[0].turn == turn then [a[0]] else [], OfTurn(a[1..], turn), OfTurn(b, turn));
    }
  }

  lemma {:induction false} FromConcat(a: seq<Entry>, b: seq<Entry>, turn: nat)
    ensures From(a + b, turn) == From(a, turn) + From(b, turn)
  {
    if a == [] {
      assert [] + b == b;
    } else {
      assert (a + b)[0] == a[0] && (a + b)[1..] == a[1..] + b;
      FromConcat(a[1..], b, turn);
      Regroup(if a[0].turn >= turn then [a[0]] else [], From(a[1..], turn), From(b, turn));
    }
  }

  lemma {:induction false} Regroup(h: seq<Entry>, x: seq<Entry>, y: seq<Entry>)
    ensures h + (x + y) == (h + x) + y
  {
  }

  /** A receipt that comes in waits behind those that came in before it, and a request of its turn gets
      them in that order: what it would have got before, and then this one. */
  lemma {:induction false} ReceiptsComeInOrder(s: State, w: nat, receipt: string, turn: nat)
    requires w in s.writes && s.writes[w].stage == Outstanding
    ensures var r := Step(s, WriteSettles(w, Some(receipt)));
      var x := s.writes[w];
      var entry := Entry(w, x.turn, receipt);
      && OfTurn(CompletedOf(r, x.agent), turn) == OfTurn(CompletedOf(s, x.agent), turn) + (if x.turn == turn then [entry] else [])
      && From(CompletedOf(r, x.agent), turn) == From(CompletedOf(s, x.agent), turn) + (if x.turn >= turn then [entry] else [])
  {
    var x := s.writes[w];
    var entry := Entry(w, x.turn, receipt);
    OfTurnConcat(CompletedOf(s, x.agent), [entry], turn);
    FromConcat(CompletedOf(s, x.agent), [entry], turn);
    assert [entry][1..] == [];
  }
}
