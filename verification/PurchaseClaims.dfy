/** The claim protocol: every agent's requests are handed out once, oldest first. */
module PurchaseClaims {
  import opened Common
  import opened ActionStore
  import opened PurchaseQueue

  // ---------------------------------------------------------------- the claim invariant

  ghost predicate Distinct(ids: seq<string>) {
    forall i, j :: 0 <= i < j < |ids| ==> ids[i] != ids[j]
  }

  ghost predicate Tabled(order: seq<string>, rows: map<string, Request>) {
    && (forall i :: 0 <= i < |order| ==> order[i] in rows)
    && (forall k :: k in rows ==> k in order)
    && Distinct(order)
  }

  /** An agent's queued requests were all created after those already handed out. */
  ghost predicate QueuedComeLast(order: seq<string>, rows: map<string, Request>) {
    forall i, j :: 0 <= i < j < |order| && order[i] in rows && order[j] in rows
                   && rows[order[i]].agent == rows[order[j]].agent && rows[order[i]].status == Queued
                   ==> rows[order[j]].status == Queued
  }

  ghost predicate InCreationOrder(order: seq<string>, rows: map<string, Request>) {
    forall i, j :: 0 <= i < j < |order| ==> CreatedAt(rows, order[i]) <= CreatedAt(rows, order[j])
  }

  /** What the agent's claim has read is still its oldest queued request, and it is still that claim's
      turn; what the agent was handed is what has left the queue. */
  ghost predicate AgentInOrder(q: Queue, agent: string) {
    && (agent in q.cursors ==>
          TurnOf(q, agent) != [] && FirstQueued(Mine(q.order, q.rows, agent), q.rows) == Some(q.cursors[agent]))
    && HandedTo(q, agent) == Taken(q.order, q.rows, agent)
  }

  ghost predicate TableInOrder(order: seq<string>, rows: map<string, Request>) {
    && Tabled(order, rows)
    && InCreationOrder(order, rows)
    && QueuedComeLast(order, rows)
  }

  ghost predicate Orderly(q: Queue) {
    && TableInOrder(q.order, q.rows)
    && (forall agent :: AgentInOrder(q, agent))
  }

  // ---------------------------------------------------------------- facts about the filters

  /** Two tables hold the same requests of one agent, and the same ones of them are queued. */
  ghost predicate SameQueueOf(order: seq<string>, rows: map<string, Request>, after: map<string, Request>,
                              agent: string)
  {
    forall i :: 0 <= i < |order| ==> SameEntry(rows, after, order[i], agent)
  }

  predicate SameEntry(rows: map<string, Request>, after: map<string, Request>, id: string, agent: string) {
    && (id in rows <==> id in after)
    && (id in rows ==>
          && after[id].agent == rows[id].agent
          && (rows[id].agent == agent ==> (after[id].status == Queued <==> rows[id].status == Queued)))
  }

  lemma {:induction false} FiltersAgree(order: seq<string>, rows: map<string, Request>, after: map<string, Request>,
                                        agent: string)
    requires SameQueueOf(order, rows, after, agent)
    ensures Mine(order, after, agent) == Mine(order, rows, agent)
    ensures Taken(order, after, agent) == Taken(order, rows, agent)
    ensures FirstQueued(Mine(order, after, agent), after) == FirstQueued(Mine(order, rows, agent), rows)
  {
    if order == [] {
    } else {
      var init, last := order[..|order| - 1], order[|order| - 1];
      FiltersAgree(init, rows, after, agent);
      assert SameEntry(rows, after, last, agent);
      FirstQueuedOfAppend(Mine(init, rows, agent), [last], rows);
      FirstQueuedOfAppend(Mine(init, rows, agent), [last], after);
      assert Mine(init, rows, agent) + [] == Mine(init, rows, agent);
    }
  }

  lemma {:induction false} MineIsListed(order: seq<string>, rows: map<string, Request>, agent: string)
    ensures forall x :: x in Mine(order, rows, agent) <==> x in order && x in rows && rows[x].agent == agent
  {
    if order == [] {
    } else {
      MineIsListed(order[..|order| - 1], rows, agent);
    }
  }

  lemma {:induction false} FirstQueuedOfAppend(ids: seq<string>, more: seq<string>, rows: map<string, Request>)
    ensures FirstQueued(ids + more, rows)
         == if FirstQueued(ids, rows).Some? then FirstQueued(ids, rows) else FirstQueued(more, rows)
  {
    if ids == [] {
      assert ids + more == more;
    } else {
      assert (ids + more)[1..] == ids[1..] + more;
      FirstQueuedOfAppend(ids[1..], more, rows);
    }
  }

  lemma {:induction false} FirstQueuedIsQueued(ids: seq<string>, rows: map<string, Request>)
    ensures match FirstQueued(ids, rows)
            case Some(x) => x in ids && x in rows && rows[x].status == Queued
            case None => forall x :: x in ids && x in rows ==> rows[x].status != Queued
  {
    if ids == [] {
    } else {
      FirstQueuedIsQueued(ids[1..], rows);
    }
  }

  /** In a table filled in creation order, sorting changes nothing. */
  lemma {:induction false} SortIsIdle(ids: seq<string>, rows: map<string, Request>)
    requires InCreationOrder(ids, rows)
    ensures SortByCreation(ids, rows) == ids
  {
    if ids == [] {
    } else {
      var init, last := ids[..|ids| - 1], ids[|ids| - 1];
      SortIsIdle(init, rows);
      assert init != [] ==> CreatedAt(rows, ids[|ids| - 2]) <= CreatedAt(rows, last);
      assert ids == init + [last];
    }
  }

  lemma {:induction false} MineIsInCreationOrder(order: seq<string>, rows: map<string, Request>, agent: string)
    requires InCreationOrder(order, rows)
    ensures InCreationOrder(Mine(order, rows, agent), rows)
  {
    if order == [] {
    } else {
      var init, last := order[..|order| - 1], order[|order| - 1];
      MineIsInCreationOrder(init, rows, agent);
      MineIsListed(init, rows, agent);
      var mine := Mine(init, rows, agent);
      forall i | 0 <= i < |mine| ensures CreatedAt(rows, mine[i]) <= CreatedAt(rows, last) {
        assert mine[i] in init;
      }
    }
  }

  /** What was handed out is an initial stretch of what the agent asked for. */
  lemma {:induction false} TakenIsPrefix(order: seq<string>, rows: map<string, Request>, agent: string)
    requires QueuedComeLast(order, rows)
    ensures Taken(order, rows, agent) <= Mine(order, rows, agent)
    ensures FirstQueued(Mine(order, rows, agent), rows).None? ==> Taken(order, rows, agent) == Mine(order, rows, agent)
  {
    if order == [] {
    } else {
      var init, last := order[..|order| - 1], order[|order| - 1];
      TakenIsPrefix(init, rows, agent);
      var mine := Mine(init, rows, agent);
      if last in rows && rows[last].agent == agent {
        FirstQueuedOfAppend(mine, [last], rows);
        FirstQueuedIsQueued(mine, rows);
        MineIsListed(init, rows, agent);
        if FirstQueued(mine, rows).Some? {
          var x := FirstQueued(mine, rows).value;
          var i :| 0 <= i < |init| && init[i] == x;
          assert order[i] == x;
        }
      } else {
        assert mine + [] == mine;
        assert Taken(init, rows, agent) + [] == Taken(init, rows, agent);
      }
    }
  }

  /** Handing out the agent's oldest queued request puts it at the end of what was handed out. */
  lemma {:induction false} TakeFirst(order: seq<string>, rows: map<string, Request>, agent: string, id: string,
                                     row: Request)
    requires Distinct(order)
    requires QueuedComeLast(order, rows)
    requires id in rows && FirstQueued(Mine(order, rows, agent), rows) == Some(id)
    requires rows[id].agent == agent && row.agent == agent && row.status != Queued
    ensures Taken(order, rows[id := row], agent) == Taken(order, rows, agent) + [id]
  {
    if order == [] {
      assert false;
    } else {
      var init, last := order[..|order| - 1], order[|order| - 1];
      var mine := Mine(init, rows, agent);
      FirstQueuedIsQueued(mine, rows);
      MineIsListed(init, rows, agent);
      if FirstQueued(mine, rows).Some? {
        assert FirstQueued(mine, rows) == Some(id) by {
          FirstQueuedOfAppend(mine, [last], rows);
          assert mine + [] == mine;
        }
        LastStaysQueued(order, rows, id);
        TakeFirst(init, rows, agent, id, row);
      } else {
        TakeLast(order, rows, agent, id, row);
      }
    }
  }

  /** Behind a queued request of the same agent everything of that agent is queued. */
  lemma LastStaysQueued(order: seq<string>, rows: map<string, Request>, id: string)
    requires order != [] && Distinct(order)
    requires QueuedComeLast(order, rows)
    requires id in order[..|order| - 1] && id in rows && rows[id].status == Queued
    ensures var last := order[|order| - 1];
            last != id && (last in rows && rows[last].agent == rows[id].agent ==> rows[last].status == Queued)
  {
    var i :| 0 <= i < |order| - 1 && order[i] == id;
  }

  lemma TakeLast(order: seq<string>, rows: map<string, Request>, agent: string, id: string, row: Request)
    requires order != [] && Distinct(order)
    requires id in rows && rows[id].agent == agent && row.agent == agent && row.status != Queued
    requires FirstQueued(Mine(order, rows, agent), rows) == Some(id)
    requires FirstQueued(Mine(order[..|order| - 1], rows, agent), rows).None?
    ensures Taken(order, rows[id := row], agent) == Taken(order, rows, agent) + [id]
  {
    var init, last := order[..|order| - 1], order[|order| - 1];
    var mine := Mine(init, rows, agent);
    FirstQueuedOfAppend(mine, [last], rows);
    assert mine + [] == mine;
    assert last == id && rows[id].status == Queued;
    assert id !in init;
    FiltersAgree(init, rows, rows[id := row], agent);
  }

  /** Nothing queued of the agent's stands before its first queued request. */
  lemma {:induction false} FirstQueuedIsFirst(order: seq<string>, rows: map<string, Request>, agent: string, i: nat,
                                              j: nat)
    requires Distinct(order)
    requires i < j < |order| && FirstQueued(Mine(order, rows, agent), rows) == Some(order[j])
    requires order[i] in rows && rows[order[i]].agent == agent
    ensures rows[order[i]].status != Queued
  {
    var init, last := order[..|order| - 1], order[|order| - 1];
    var mine := Mine(init, rows, agent);
    FirstQueuedOfAppend(mine, [last], rows);
    assert mine + [] == mine;
    FirstQueuedIsQueued(mine, rows);
    MineIsListed(init, rows, agent);
    if j < |order| - 1 {
      assert init[j] in init;
      FirstQueuedIsFirst(init, rows, agent, i, j);
    } else {
      assert last !in init;
      assert init[i] in mine;
    }
  }

  lemma {:induction false} MineIsDistinct(order: seq<string>, rows: map<string, Request>, agent: string)
    requires Distinct(order)
    ensures Distinct(Mine(order, rows, agent))
  {
    if order == [] {
    } else {
      var init, last := order[..|order| - 1], order[|order| - 1];
      MineIsDistinct(init, rows, agent);
      MineIsListed(init, rows, agent);
      var mine := Mine(init, rows, agent);
      assert last !in init;
      assert mine + [] == mine;
      assert forall x :: 0 <= x < |mine| ==> mine[x] in mine && mine[x] != last;
    }
  }

  // ---------------------------------------------------------------- every step keeps the queue orderly

  lemma EnqueueKeepsTable(q: Queue, id: string, row: Request)
    requires TableInOrder(q.order, q.rows) && id !in q.rows && row.status == Queued
    requires forall k :: k in q.rows ==> q.rows[k].createdAt <= row.createdAt
    ensures TableInOrder(q.order + [id], q.rows[id := row])
  {
  }

  lemma EnqueueKeepsAgent(q: Queue, t: Queue, id: string, agent: string)
    requires Tabled(q.order, q.rows) && AgentInOrder(q, agent) && id !in q.rows
    requires t.order == q.order + [id] && id in t.rows && t.rows[id].status == Queued
    requires forall k :: k in q.rows ==> k in t.rows && t.rows[k] == q.rows[k]
    requires t.locks == q.locks && t.cursors == q.cursors && t.handed == q.handed
    ensures AgentInOrder(t, agent)
  {
    assert t.order[..|t.order| - 1] == q.order;
    FiltersAgree(q.order, q.rows, t.rows, agent);
    var mine := Mine(q.order, t.rows, agent);
    FirstQueuedOfAppend(mine, [id], t.rows);
    assert mine + [] == mine;
    assert Taken(q.order, t.rows, agent) + [] == Taken(q.order, t.rows, agent);
  }

  lemma EnqueueKeepsOrderly(q: Queue, id: string, userId: string, agent: string, resourceUrl: string, now: nat)
    requires Orderly(q) && id !in q.rows
    requires forall k :: k in q.rows ==> q.rows[k].createdAt <= now
    ensures Orderly(Enqueue(q, id, userId, agent, resourceUrl, now))
  {
    var t := Enqueue(q, id, userId, agent, resourceUrl, now);
    EnqueueKeepsTable(q, id, NewRequest(id, userId, agent, resourceUrl, now));
    forall a ensures AgentInOrder(t, a) {
      EnqueueKeepsAgent(q, t, id, a);
    }
  }

  lemma ArriveKeepsOrderly(q: Queue, agent: string, claim: nat)
    requires Orderly(q)
    ensures Orderly(Arrive(q, agent, claim))
  {
    hide TableInOrder;
    forall a ensures AgentInOrder(Arrive(q, agent, claim), a) {
      assert AgentInOrder(q, a);
    }
  }

  /** While the table fills in creation order, the query's sort changes nothing. */
  lemma OldestIsFirst(q: Queue, agent: string)
    requires TableInOrder(q.order, q.rows)
    ensures OldestQueued(q, agent) == FirstQueued(Mine(q.order, q.rows, agent), q.rows)
  {
    MineIsInCreationOrder(q.order, q.rows, agent);
    SortIsIdle(Mine(q.order, q.rows, agent), q.rows);
  }

  lemma ReadKeepsOrderly(q: Queue, agent: string)
    requires Orderly(q) && MayRead(q, agent)
    ensures Orderly(Read(q, agent).0)
  {
    hide TableInOrder, Mine, Taken, FirstQueued, OldestQueued, AgentInOrder;
    OldestIsFirst(q, agent);
    var t := Read(q, agent).0;
    assert t.order == q.order && t.rows == q.rows && t.handed == q.handed;
    forall a ensures AgentInOrder(t, a) {
      assert AgentInOrder(q, a);
      if a == agent {
        ReaderIsInOrder(q, t, a);
      } else {
        SameAnswersKeepAgent(q, t, a);
      }
    }
  }

  lemma ReaderIsInOrder(q: Queue, t: Queue, agent: string)
    requires AgentInOrder(q, agent) && t.order == q.order && t.rows == q.rows && t.handed == q.handed
    requires agent in t.cursors ==>
               TurnOf(t, agent) != [] && FirstQueued(Mine(q.order, q.rows, agent), q.rows) == Some(t.cursors[agent])
    ensures AgentInOrder(t, agent)
  {
  }

  /** What the head claim reads is still there when it writes. */
  lemma CursorIsQueued(q: Queue, agent: string)
    requires Orderly(q) && MayWrite(q, agent)
    ensures IsQueued(q, q.cursors[agent]) && q.rows[q.cursors[agent]].agent == agent
    ensures FirstQueued(Mine(q.order, q.rows, agent), q.rows) == Some(q.cursors[agent])
  {
    assert AgentInOrder(q, agent);
    FirstQueuedIsQueued(Mine(q.order, q.rows, agent), q.rows);
    MineIsListed(q.order, q.rows, agent);
  }

  lemma TakenRowKeepsTable(q: Queue, agent: string, id: string, row: Request)
    requires TableInOrder(q.order, q.rows)
    requires id in q.rows && FirstQueued(Mine(q.order, q.rows, agent), q.rows) == Some(id)
    requires q.rows[id].agent == agent && row.agent == agent && row.status != Queued
    requires row.createdAt == q.rows[id].createdAt
    ensures TableInOrder(q.order, q.rows[id := row])
  {
    hide FirstQueued, Mine, Distinct;
    var after := q.rows[id := row];
    forall i, j | 0 <= i < j < |q.order| && q.order[i] in after && q.order[j] in after
                  && after[q.order[i]].agent == after[q.order[j]].agent && after[q.order[i]].status == Queued
      ensures after[q.order[j]].status == Queued
    {
      if q.order[j] == id {
        FirstQueuedIsFirst(q.order, q.rows, agent, i, j);
      }
    }
  }

  /** A queue whose table answers the agent's queries as before. */
  lemma SameAnswersKeepAgent(q: Queue, t: Queue, agent: string)
    requires AgentInOrder(q, agent) && t.order == q.order && SameQueueOf(q.order, q.rows, t.rows, agent)
    requires TurnOf(t, agent) == TurnOf(q, agent) && HandedTo(t, agent) == HandedTo(q, agent)
    requires agent in t.cursors ==> agent in q.cursors && t.cursors[agent] == q.cursors[agent]
    ensures AgentInOrder(t, agent)
  {
    FiltersAgree(q.order, q.rows, t.rows, agent);
  }

  lemma WriterIsInOrder(q: Queue, t: Queue, agent: string, id: string, row: Request)
    requires TableInOrder(q.order, q.rows) && AgentInOrder(q, agent)
    requires id in q.rows && FirstQueued(Mine(q.order, q.rows, agent), q.rows) == Some(id)
    requires q.rows[id].agent == agent && row.agent == agent && row.status != Queued
    requires t.order == q.order && t.rows == q.rows[id := row]
    requires HandedTo(t, agent) == HandedTo(q, agent) + [id] && agent !in t.cursors
    ensures AgentInOrder(t, agent)
  {
    TakeFirst(q.order, q.rows, agent, id, row);
  }

  lemma WriteKeepsOrderly(q: Queue, agent: string, now: nat)
    requires Orderly(q) && MayWrite(q, agent)
    ensures Orderly(Write(q, agent, now).0)
  {
    hide TableInOrder, AgentInOrder, Mine, Taken, FirstQueued;
    CursorIsQueued(q, agent);
    var id := q.cursors[agent];
    var row := q.rows[id].(status := Processing, updatedAt := now);
    var t := Write(q, agent, now).0;
    TakenRowKeepsTable(q, agent, id, row);
    forall a ensures AgentInOrder(t, a) {
      assert AgentInOrder(q, a);
      if a == agent {
        WriterIsInOrder(q, t, agent, id, row);
      } else {
        SameAnswersKeepAgent(q, t, a);
      }
    }
  }

  lemma RowUpdateKeepsTable(order: seq<string>, rows: map<string, Request>, id: string, row: Request)
    requires TableInOrder(order, rows) && id in rows
    requires row.agent == rows[id].agent && row.createdAt == rows[id].createdAt
    requires row.status != Queued && rows[id].status != Queued
    ensures TableInOrder(order, rows[id := row])
  {
  }

  /** Reports move rows that have left the queue, and leave the queue alone. */
  lemma RowUpdateKeepsOrderly(q: Queue, id: string, row: Request)
    requires Orderly(q) && id in q.rows
    requires row.agent == q.rows[id].agent && row.createdAt == q.rows[id].createdAt
    requires row.status != Queued && q.rows[id].status != Queued
    ensures Orderly(q.(rows := q.rows[id := row]))
  {
    hide TableInOrder, AgentInOrder, Mine, Taken, FirstQueued;
    RowUpdateKeepsTable(q.order, q.rows, id, row);
    var t := q.(rows := q.rows[id := row]);
    forall a ensures AgentInOrder(t, a) {
      assert AgentInOrder(q, a);
      SameAnswersKeepAgent(q, t, a);
    }
  }

  // ---------------------------------------------------------------- what orderly means for claims

  /** Nobody is handed a request twice, nobody is handed somebody else's, and no two agents get the same one. */
  lemma HandedOnce(q: Queue, a: string, b: string, i: nat, j: nat)
    requires Orderly(q) && i < |HandedTo(q, a)| && j < |HandedTo(q, b)|
    requires HandedTo(q, a)[i] == HandedTo(q, b)[j]
    ensures a == b && i == j
    ensures HandedTo(q, a)[i] in q.rows && q.rows[HandedTo(q, a)[i]].agent == a
  {
    TakenIsPrefix(q.order, q.rows, a);
    TakenIsPrefix(q.order, q.rows, b);
    MineIsListed(q.order, q.rows, a);
    MineIsListed(q.order, q.rows, b);
    MineIsDistinct(q.order, q.rows, a);
    assert AgentInOrder(q, a) && AgentInOrder(q, b);
    assert HandedTo(q, a)[i] == Mine(q.order, q.rows, a)[i] && Mine(q.order, q.rows, a)[i] in Mine(q.order, q.rows, a);
    assert HandedTo(q, b)[j] == Mine(q.order, q.rows, b)[j] && Mine(q.order, q.rows, b)[j] in Mine(q.order, q.rows, b);
  }

  /** An agent is handed its requests in the order they were created, leaving none out. */
  lemma HandedInCreationOrder(q: Queue, agent: string)
    requires Orderly(q)
    ensures HandedTo(q, agent) <= Mine(q.order, q.rows, agent)
    ensures InCreationOrder(HandedTo(q, agent), q.rows)
    ensures forall k :: k in q.rows && q.rows[k].agent == agent ==>
              (k in HandedTo(q, agent) <==> q.rows[k].status != Queued)
  {
    TakenIsPrefix(q.order, q.rows, agent);
    MineIsInCreationOrder(q.order, q.rows, agent);
    TakenIsListed(q.order, q.rows, agent);
    assert AgentInOrder(q, agent);
  }

  lemma {:induction false} TakenIsListed(order: seq<string>, rows: map<string, Request>, agent: string)
    ensures forall x :: x in Taken(order, rows, agent)
                  <==> x in order && x in rows && rows[x].agent == agent && rows[x].status != Queued
  {
    if order == [] {
    } else {
      TakenIsListed(order[..|order| - 1], rows, agent);
    }
  }

  /** A claim answers null exactly when its agent had nothing queued as its turn began; otherwise it is
      given the agent's oldest queued request, whatever happened between its read and its write. */
  lemma NullMeansNothingQueued(q: Queue, agent: string)
    requires Orderly(q) && MayRead(q, agent)
    ensures Read(q, agent).1 == Some(None)
            <==> (forall k :: k in q.rows && q.rows[k].agent == agent ==> q.rows[k].status != Queued)
    ensures Read(q, agent).1 == Some(None) || Read(q, agent).1 == None
  {
    OldestIsFirst(q, agent);
    FirstQueuedIsQueued(Mine(q.order, q.rows, agent), q.rows);
    MineIsListed(q.order, q.rows, agent);
  }

  lemma WriteHandsOutTheOldest(q: Queue, agent: string, now: nat)
    requires Orderly(q) && MayWrite(q, agent)
    ensures var (t, answer) := Write(q, agent, now);
            && answer == OldestQueued(q, agent) && answer.Some?
            && answer.value in t.rows && t.rows[answer.value].status == Processing
            && HandedTo(t, agent) == HandedTo(q, agent) + [answer.value]
            && forall other :: other != agent ==> HandedTo(t, other) == HandedTo(q, other)
  {
    CursorIsQueued(q, agent);
    OldestIsFirst(q, agent);
  }

  // ---------------------------------------------------------------- the conditional write alone

  /** Everything handed out has left the queue, and was handed out once. */
  ghost predicate HandedOut(q: Queue) {
    && (forall a, i :: 0 <= i < |HandedTo(q, a)| ==> HandedTo(q, a)[i] in q.rows && !IsQueued(q, HandedTo(q, a)[i]))
    && (forall a, b, i, j :: 0 <= i < |HandedTo(q, a)| && 0 <= j < |HandedTo(q, b)| && (a != b || i != j)
                             ==> HandedTo(q, a)[i] != HandedTo(q, b)[j])
  }

  /** Whatever a claim has read, and whoever else writes, the conditional write never hands a request out
      twice: the turns only decide the order. */
  lemma WriteAloneHandsOutOnce(q: Queue, agent: string, now: nat)
    requires HandedOut(q) && MayWrite(q, agent)
    ensures HandedOut(Write(q, agent, now).0)
    ensures Write(q, agent, now).1.Some? <==> IsQueued(q, q.cursors[agent])
  {
    var t := Write(q, agent, now).0;
    var id := q.cursors[agent];
    if IsQueued(q, id) {
      forall a, i | 0 <= i < |HandedTo(t, a)| && i < |HandedTo(q, a)|
        ensures HandedTo(t, a)[i] == HandedTo(q, a)[i] && HandedTo(t, a)[i] != id
      {
      }
    } else {
      forall a ensures HandedTo(t, a) == HandedTo(q, a) {
      }
    }
  }
}
