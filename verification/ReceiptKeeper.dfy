/**
 The plugin's bookkeeping of writes and receipts as it updates the plugin's own maps in place.

 The plugin keeps less than the model: a completed receipt is a turn and an id, without the write it
 came from, a write's stage is known only to its promise, and a request's waiting set only to the
 suspended handler.  Those are ghost here; `Valid` couples the untagged lists to the model's, and each
 method, the stretch of a handler between two awaits, takes exactly the model's step.
 */
module ReceiptKeeper {
  import opened Wrappers
  import opened Receipts

  /** An entry of `completedReceipts`. */
  datatype Item = Item(turn: nat, receiptId: string)

  // ---------------------------------------------------------------------------------------------
  // Lists with and without the write tags
  // ---------------------------------------------------------------------------------------------

  ghost function Untagged(es: seq<Entry>): (items: seq<Item>)
    ensures |items| == |es|
  {
    if es == [] then [] else [Item(es[0].turn, es[0].receiptId)] + Untagged(es[1..])
  }

  /** The ids of the items of one turn: `filter` and `map` in `takeReceipts`. */
  function IdsOfTurn(items: seq<Item>, turn: nat): seq<string> {
    if items == [] then []
    else (if items[0].turn == turn then [items[0].receiptId] else []) + IdsOfTurn(items[1..], turn)
  }

  function ItemsFrom(items: seq<Item>, turn: nat): seq<Item> {
    if items == [] then []
    else (if items[0].turn >= turn then [items[0]] else []) + ItemsFrom(items[1..], turn)
  }

  ghost function ReceiptIds(es: seq<Entry>): seq<string> {
    if es == [] then [] else [es[0].receiptId] + ReceiptIds(es[1..])
  }

  lemma {:induction false} UntaggedSnoc(es: seq<Entry>, e: Entry)
    ensures Untagged(es + [e]) == Untagged(es) + [Item(e.turn, e.receiptId)]
  {
    if es == [] {
      assert [] + [e] == [e];
    } else {
      assert (es + [e])[1..] == es[1..] + [e];
      UntaggedSnoc(es[1..], e);
    }
  }

  /** Taking by turn gives the ids of the entries the model takes. */
  lemma {:induction false} UntaggedOfTurn(es: seq<Entry>, turn: nat)
    ensures IdsOfTurn(Untagged(es), turn) == ReceiptIds(OfTurn(es, turn))
  {
    if es != [] {
      UntaggedOfTurn(es[1..], turn);
      assert Untagged(es)[1..] == Untagged(es[1..]);
      assert [] + OfTurn(es[1..], turn) == OfTurn(es[1..], turn);
    }
  }

  lemma {:induction false} UntaggedFrom(es: seq<Entry>, turn: nat)
    ensures ItemsFrom(Untagged(es), turn) == Untagged(From(es, turn))
  {
    if es != [] {
      UntaggedFrom(es[1..], turn);
      assert Untagged(es)[1..] == Untagged(es[1..]);
      assert [] + From(es[1..], turn) == From(es[1..], turn);
    }
  }

  // ---------------------------------------------------------------------------------------------
  // The keeper
  // ---------------------------------------------------------------------------------------------

  class Keeper {
    var turns: map<nat, nat>
    var pendingWrites: map<nat, set<nat>>
    var completedReceipts: map<nat, seq<Item>>
    ghost var tagged: map<nat, seq<Entry>>
    ghost var writes: map<nat, Write>
    ghost var requests: map<nat, Request>
    ghost var handed: seq<Handed>

    ghost predicate Valid()
      reads this`completedReceipts, this`tagged
    {
      completedReceipts.Keys == tagged.Keys && forall a :: a in tagged ==> completedReceipts[a] == Untagged(tagged[a])
    }

    ghost function Abs(): State
      reads this
    {
      State(turns, writes, pendingWrites, tagged, requests, handed)
    }

    constructor ()
      ensures Valid() && Abs() == INITIAL
    {
      turns, pendingWrites, completedReceipts := map[], map[], map[];
      tagged, writes, requests, handed := map[], map[], map[], [];
    }

    function Items(agent: nat): seq<Item>
      reads this
    {
      if agent in completedReceipts then completedReceipts[agent] else []
    }

    /** `enqueueWrite`, called by `tools/result` with the turn the agent is in, which the write keeps. */
    method Enqueue(agent: nat, w: nat) returns (turn: nat)
      requires Valid() && w !in writes
      modifies this
      ensures Valid() && Abs() == OnToolResult(old(Abs()), agent, w)
      ensures w in writes && writes[w] == Write(agent, turn, Outstanding, None)
    {
      turn := if agent in turns then turns[agent] else 0;
      if agent !in pendingWrites {
        pendingWrites := pendingWrites[agent := {}];
      }
      pendingWrites := pendingWrites[agent := pendingWrites[agent] + {w}];
      writes := writes[w := Write(agent, turn, Outstanding, None)];
    }

    /** The `then` and `catch` callbacks of a write, which knows its agent and turn. */
    method Settle(w: nat, agent: nat, turn: nat, receipt: Option<string>)
      requires Valid() && w in writes && writes[w] == Write(agent, turn, Outstanding, None)
      modifies this
      ensures Valid() && Abs() == OnWriteSettles(old(Abs()), w, receipt)
    {
      if receipt.Some? {
        completedReceipts := completedReceipts[agent := Items(agent) + [Item(turn, receipt.value)]];
        ghost var es := CompletedOf(Abs(), agent);
        UntaggedSnoc(es, Entry(w, turn, receipt.value));
        tagged := tagged[agent := es + [Entry(w, turn, receipt.value)]];
      }
      writes := writes[w := writes[w].(stage := Settled, receipt := receipt)];
    }

    /** The `finally` callback of a write. */
    method Leave(w: nat, agent: nat)
      requires Valid() && w in writes && writes[w].stage == Settled && writes[w].agent == agent
      modifies this
      ensures Valid() && Abs() == OnWriteLeaves(old(Abs()), w)
    {
      if agent in pendingWrites {
        pendingWrites := pendingWrites[agent := pendingWrites[agent] - {w}];
      }
      writes := writes[w := writes[w].(stage := Gone)];
    }

    /** `agent/inbox/claimed`: receipts of earlier turns are dropped. */
    method Claim(agent: nat, turn: nat)
      requires Valid()
      modifies this
      ensures Valid() && Abs() == OnClaimed(old(Abs()), agent, turn)
    {
      turns := turns[agent := turn];
      KeepFrom(agent, turn);
    }

    ghost method HandOver(next: State)
      requires Abs() == next.(requests := requests, handed := handed)
      modifies this`requests, this`handed
      ensures Abs() == next
    {
      requests, handed := next.requests, next.handed;
    }

    /** Only the receipts of `turn` and later stay. */
    method KeepFrom(agent: nat, turn: nat)
      requires Valid()
      modifies this`completedReceipts, this`tagged
      ensures Valid() && tagged == old(tagged)[agent := From(CompletedOf(old(Abs()), agent), turn)]
    {
      ghost var es := CompletedOf(Abs(), agent);
      UntaggedFrom(es, turn);
      completedReceipts := completedReceipts[agent := ItemsFrom(Items(agent), turn)];
      tagged := tagged[agent := From(es, turn)];
    }

    /** The ids of the receipts of `turn`. */
    method Ids(agent: nat, turn: nat) returns (ids: seq<string>)
      requires Valid()
      ensures ids == ReceiptIds(OfTurn(CompletedOf(Abs(), agent), turn)) && Abs() == old(Abs())
    {
      UntaggedOfTurn(CompletedOf(Abs(), agent), turn);
      ids := IdsOfTurn(Items(agent), turn);
    }

    /** `agent/request` up to its first await: the writes to wait for are fixed now. */
    method Begin(agent: nat, turn: nat, ghost r: nat) returns (waiting: set<nat>)
      requires Valid() && r !in requests && forall i :: 0 <= i < |handed| ==> handed[i].request != r
      modifies this
      ensures Valid() && Abs() == OnRequestBegins(old(Abs()), r, agent, turn)
      ensures r in requests && requests[r] == Request(agent, turn, waiting)
    {
      waiting := if agent in pendingWrites then pendingWrites[agent] else {};
      requests := requests[r := Request(agent, turn, waiting)];
    }

    /** `takeReceipts`, once the awaited writes are gone. */
    method Take(agent: nat, turn: nat, ghost r: nat) returns (ids: seq<string>)
      requires Valid() && Ready(Abs(), r) && requests[r].agent == agent && requests[r].turn == turn
      modifies this
      ensures Valid() && Abs() == OnRequestTakes(old(Abs()), r)
      ensures ids == ReceiptIds(OfTurn(CompletedOf(old(Abs()), agent), turn))
    {
      ids := Ids(agent, turn);
      Close(agent, turn, r);
    }

    /** The state half of `takeReceipts`. */
    method Close(agent: nat, turn: nat, ghost r: nat)
      requires Valid() && r in requests && requests[r].agent == agent && requests[r].turn == turn
      modifies this
      ensures Valid() && Abs() == Taken(old(Abs()), r)
    {
      ghost var next := Taken(Abs(), r);
      KeepFrom(agent, turn + 1);
      HandOver(next);
    }

    /** `agent/turn-stopping`, after its await. */
    method Stop(agent: nat)
      requires Valid()
      modifies this
      ensures Valid() && Abs() == Step(old(Abs()), TurnEnds(agent))
    {
      turns := turns - {agent};
    }

    /** `agent/disposed`, after its await. */
    method Dispose(agent: nat)
      requires Valid()
      modifies this
      ensures Valid() && Abs() == OnDisposed(old(Abs()), agent)
    {
      turns := turns - {agent};
      pendingWrites := pendingWrites - {agent};
      completedReceipts := completedReceipts - {agent};
      tagged := tagged - {agent};
    }
  }
}
