/** The purchase queue over every run, whatever the action store does beside it: requests only move forward,
    and every agent is handed its own, once, in creation order. */
module PurchaseProofs {
  import opened Common
  import opened ActionStore
  import opened PurchaseQueue
  import opened PurchaseClaims

  // ---------------------------------------------------------------- steps of the queue

  datatype QueueEvent =
    | Enqueued(id: string, userId: string, agent: string, resourceUrl: string, now: nat)
    | Arrived(agent: string, claim: nat)
    | TurnRead(agent: string)
    | TurnWritten(agent: string, now: nat)
    | Progressed(agent: string, id: string, progress: Progress, now: nat)
    | Resolved(agent: string, id: string, report: ResultReport, now: nat)
      // a new process: claims in progress are gone
    | Forgotten

  function ApplyToQueue(env: Env, store: Store, q: Queue, e: QueueEvent): Queue {
    match e
    case Enqueued(id, userId, agent, resourceUrl, now) => Enqueue(q, id, userId, agent, resourceUrl, now)
    case Arrived(agent, claim) => Arrive(q, agent, claim)
    case TurnRead(agent) => if MayRead(q, agent) then Read(q, agent).0 else q
    case TurnWritten(agent, now) => if MayWrite(q, agent) then Write(q, agent, now).0 else q
    case Progressed(agent, id, progress, now) => ReportProgress(env, q, store, agent, id, progress, now).0
    case Resolved(agent, id, report, now) => ReportResult(env, q, store, agent, id, report, now).0
    case Forgotten => q.(locks := map[], cursors := map[])
  }

  /** Ids are fresh, the clock does not go backwards, and agents are known by their checksummed address. */
  ghost predicate IsTimely(env: Env, q: Queue, e: QueueEvent) {
    match e
    case Enqueued(id, _, agent, _, now) =>
      IsChecksummed(env, agent) && id !in q.rows && forall k :: k in q.rows ==> q.rows[k].createdAt <= now
    case Progressed(agent, _, _, _) => IsChecksummed(env, agent)
    case Resolved(agent, _, _, _) => IsChecksummed(env, agent)
    case _ => true
  }

  lemma ForgettingKeepsOrderly(q: Queue)
    requires Orderly(q)
    ensures Orderly(q.(locks := map[], cursors := map[]))
  {
    hide TableInOrder;
    forall a ensures AgentInOrder(q.(locks := map[], cursors := map[]), a) {
      assert AgentInOrder(q, a);
    }
  }

  lemma QueueStepKeepsOrderly(env: Env, store: Store, q: Queue, e: QueueEvent)
    requires Orderly(q) && IsTimely(env, q, e)
    ensures Orderly(ApplyToQueue(env, store, q, e))
  {
    hide Orderly, Enqueue, Arrive, Read, Write, MayRead, MayWrite;
    match e
    case Enqueued(id, userId, agent, resourceUrl, now) => EnqueueKeepsOrderly(q, id, userId, agent, resourceUrl, now);
    case Arrived(agent, claim) => ArriveKeepsOrderly(q, agent, claim);
    case TurnRead(agent) => if MayRead(q, agent) { ReadKeepsOrderly(q, agent); }
    case TurnWritten(agent, now) => if MayWrite(q, agent) { WriteKeepsOrderly(q, agent, now); }
    case Progressed(agent, id, progress, now) => ProgressKeepsOrderly(env, q, store, agent, id, progress, now);
    case Resolved(agent, id, report, now) => ResultKeepsOrderly(env, q, store, agent, id, report, now);
    case Forgotten => ForgettingKeepsOrderly(q);
  }

  lemma ProgressKeepsOrderly(env: Env, q: Queue, store: Store, agent: string, id: string, dto: Progress, now: nat)
    requires Orderly(q)
    ensures Orderly(ReportProgress(env, q, store, agent, id, dto, now).0)
  {
    hide Orderly, SameOwner, Authorizes;
    var (t, reply) := ReportProgress(env, q, store, agent, id, dto, now);
    if reply.Ok? {
      RowUpdateKeepsOrderly(q, id, reply.value);
    }
  }

  lemma ResultKeepsOrderly(env: Env, q: Queue, store: Store, agent: string, id: string, dto: ResultReport, now: nat)
    requires Orderly(q)
    ensures Orderly(ReportResult(env, q, store, agent, id, dto, now).0)
  {
    hide Orderly, SameOwner, IsExecutedBy;
    var (t, reply) := ReportResult(env, q, store, agent, id, dto, now);
    if reply.Ok? {
      RowUpdateKeepsOrderly(q, id, reply.value);
    }
  }

  // ---------------------------------------------------------------- the life of a request

  function Rank(s: RequestStatus): nat {
    if s == Queued then 0 else if s == Processing then 1 else if s == Authorized then 2 else 3
  }

  /** A request either stays as it is or moves up, and what was asked for is never rewritten. */
  predicate RowAdvances(a: Request, b: Request) {
    b == a
    || (&& Rank(a.status) < Rank(b.status)
        && b.id == a.id && b.userId == a.userId && b.agent == a.agent && b.resourceUrl == a.resourceUrl
        && b.createdAt == a.createdAt)
  }

  ghost predicate RowsAdvance(rows: map<string, Request>, after: map<string, Request>) {
    forall k :: k in rows ==> k in after && RowAdvances(rows[k], after[k])
  }

  ghost predicate QueueAdvances(q: Queue, t: Queue) {
    && RowsAdvance(q.rows, t.rows)
    && (forall a :: HandedTo(q, a) <= HandedTo(t, a))
  }

  lemma OneRowAdvances(rows: map<string, Request>, id: string, row: Request)
    requires id in rows ==> RowAdvances(rows[id], row)
    ensures RowsAdvance(rows, rows[id := row])
  {
    hide RowAdvances;
    forall k | k in rows && k != id ensures RowAdvances(rows[k], rows[id := row][k]) {
      StandingStillAdvances(rows[k]);
    }
  }

  lemma StandingStillAdvances(row: Request)
    ensures RowAdvances(row, row)
  {
  }

  lemma SameRowsAdvance(rows: map<string, Request>)
    ensures RowsAdvance(rows, rows)
  {
  }

  lemma QueueStepAdvances(env: Env, store: Store, q: Queue, e: QueueEvent)
    requires IsTimely(env, q, e)
    ensures QueueAdvances(q, ApplyToQueue(env, store, q, e))
  {
    hide RowsAdvance, ReportProgress, ReportResult, OldestQueued;
    SameRowsAdvance(q.rows);
    var t := ApplyToQueue(env, store, q, e);
    match e
    case Enqueued(id, _, _, _, _) => OneRowAdvances(q.rows, id, t.rows[id]);
    case Arrived(_, _) =>
    case TurnRead(_) =>
    case TurnWritten(agent, _) =>
      if MayWrite(q, agent) && IsQueued(q, q.cursors[agent]) {
        OneRowAdvances(q.rows, q.cursors[agent], t.rows[q.cursors[agent]]);
      }
    case Progressed(agent, id, progress, now) => ProgressAdvances(env, store, q, agent, id, progress, now);
    case Resolved(agent, id, report, now) => ResultAdvances(env, store, q, agent, id, report, now);
    case Forgotten =>
  }

  lemma ProgressAdvances(env: Env, store: Store, q: Queue, agent: string, id: string, dto: Progress, now: nat)
    ensures QueueAdvances(q, ReportProgress(env, q, store, agent, id, dto, now).0)
  {
    hide RowsAdvance, SameOwner, Authorizes, Find;
    SameRowsAdvance(q.rows);
    var (t, reply) := ReportProgress(env, q, store, agent, id, dto, now);
    if reply.Ok? {
      OneRowAdvances(q.rows, id, t.rows[id]);
    }
  }

  lemma ResultAdvances(env: Env, store: Store, q: Queue, agent: string, id: string, dto: ResultReport, now: nat)
    ensures QueueAdvances(q, ReportResult(env, q, store, agent, id, dto, now).0)
  {
    hide RowsAdvance, SameOwner, IsExecutedBy, Utf8Length;
    SameRowsAdvance(q.rows);
    var (t, reply) := ReportResult(env, q, store, agent, id, dto, now);
    if reply.Ok? {
      OneRowAdvances(q.rows, id, t.rows[id]);
    }
  }

  lemma AdvancingIsTransitive(q: Queue, t: Queue, u: Queue)
    requires QueueAdvances(q, t) && QueueAdvances(t, u)
    ensures QueueAdvances(q, u)
  {
    forall k | k in q.rows ensures k in u.rows && RowAdvances(q.rows[k], u.rows[k]) {
      assert RowAdvances(q.rows[k], t.rows[k]) && RowAdvances(t.rows[k], u.rows[k]);
    }
    forall a ensures HandedTo(q, a) <= HandedTo(u, a) {
      assert HandedTo(q, a) <= HandedTo(t, a) <= HandedTo(u, a);
    }
  }

  lemma StandingStill(q: Queue)
    ensures QueueAdvances(q, q)
  {
    SameRowsAdvance(q.rows);
  }

  // ---------------------------------------------------------------- every run of the queue

  ghost predicate QueueStepAt(env: Env, trace: seq<Queue>, events: seq<QueueEvent>, stores: seq<Store>, i: nat)
    requires i < |events| && i < |stores| && i + 1 < |trace|
  {
    IsTimely(env, trace[i], events[i]) && trace[i + 1] == ApplyToQueue(env, stores[i], trace[i], events[i])
  }

  /** A run from the empty table; `stores[i]` is whatever the action store holds as `events[i]` happens. */
  ghost predicate IsQueueRun(env: Env, trace: seq<Queue>, events: seq<QueueEvent>, stores: seq<Store>) {
    && |trace| == |events| + 1 && |stores| == |events|
    && trace[0] == EMPTY_QUEUE
    && forall i :: 0 <= i < |events| ==> QueueStepAt(env, trace, events, stores, i)
  }

  lemma {:induction false} EveryQueueRunIsOrderly(env: Env, trace: seq<Queue>, events: seq<QueueEvent>,
                                                  stores: seq<Store>, i: nat)
    requires IsQueueRun(env, trace, events, stores) && i < |trace|
    ensures Orderly(trace[i])
    decreases i
  {
    if i == 0 {
    } else {
      hide Orderly, ApplyToQueue, IsTimely;
      EveryQueueRunIsOrderly(env, trace, events, stores, i - 1);
      assert QueueStepAt(env, trace, events, stores, i - 1);
      QueueStepKeepsOrderly(env, stores[i - 1], trace[i - 1], events[i - 1]);
    }
  }

  lemma {:induction false} QueuesOnlyAdvance(env: Env, trace: seq<Queue>, events: seq<QueueEvent>, stores: seq<Store>,
                                             i: nat, j: nat)
    requires IsQueueRun(env, trace, events, stores) && i <= j < |trace|
    ensures QueueAdvances(trace[i], trace[j])
    decreases j
  {
    hide QueueAdvances, ApplyToQueue, IsTimely;
    if i == j {
      StandingStill(trace[i]);
    } else {
      QueuesOnlyAdvance(env, trace, events, stores, i, j - 1);
      assert QueueStepAt(env, trace, events, stores, j - 1);
      QueueStepAdvances(env, stores[j - 1], trace[j - 1], events[j - 1]);
      AdvancingIsTransitive(trace[i], trace[j - 1], trace[j]);
    }
  }

  /** A terminal request never changes again, whatever happens after. */
  lemma TerminalIsFinal(env: Env, trace: seq<Queue>, events: seq<QueueEvent>, stores: seq<Store>, i: nat, j: nat,
                        k: string)
    requires IsQueueRun(env, trace, events, stores) && i <= j < |trace|
    requires k in trace[i].rows && IsTerminal(trace[i].rows[k].status)
    ensures k in trace[j].rows && trace[j].rows[k] == trace[i].rows[k]
  {
    QueuesOnlyAdvance(env, trace, events, stores, i, j);
    TerminalRowsStand(trace[i], trace[j], k);
  }

  lemma TerminalRowsStand(q: Queue, t: Queue, k: string)
    requires QueueAdvances(q, t) && k in q.rows && IsTerminal(q.rows[k].status)
    ensures k in t.rows && t.rows[k] == q.rows[k]
  {
    assert RowAdvances(q.rows[k], t.rows[k]);
  }

  /** The agent has been handed its own requests, each once, in creation order, leaving none out, and no other agent
      any of them. */
  ghost predicate IsServed(q: Queue, agent: string) {
    && HandedTo(q, agent) <= Mine(q.order, q.rows, agent)
    && InCreationOrder(HandedTo(q, agent), q.rows)
    && Distinct(HandedTo(q, agent))
    && (forall k :: k in q.rows && q.rows[k].agent == agent ==>
          (k in HandedTo(q, agent) <==> q.rows[k].status != Queued))
    && (forall other, m, n :: 0 <= m < |HandedTo(q, agent)| && 0 <= n < |HandedTo(q, other)| && other != agent
          ==> HandedTo(q, agent)[m] != HandedTo(q, other)[n])
  }

  lemma OrderlyServes(q: Queue, agent: string)
    requires Orderly(q)
    ensures IsServed(q, agent)
  {
    hide Orderly, Mine, InCreationOrder;
    HandedInCreationOrder(q, agent);
    forall other, m, n | 0 <= m < |HandedTo(q, agent)| && 0 <= n < |HandedTo(q, other)| && (other != agent || m < n)
      ensures HandedTo(q, agent)[m] != HandedTo(q, other)[n]
    {
      if HandedTo(q, agent)[m] == HandedTo(q, other)[n] {
        HandedOnce(q, agent, other, m, n);
      }
    }
  }

  /** At every moment of every run, every agent is served. */
  lemma ClaimsAreServedInOrder(env: Env, trace: seq<Queue>, events: seq<QueueEvent>, stores: seq<Store>, i: nat,
                               agent: string)
    requires IsQueueRun(env, trace, events, stores) && i < |trace|
    ensures IsServed(trace[i], agent)
  {
    hide IsQueueRun, Orderly, IsServed;
    EveryQueueRunIsOrderly(env, trace, events, stores, i);
    OrderlyServes(trace[i], agent);
  }

  /** At any moment of any run: a claim whose turn begins answers null exactly when its agent has nothing
      queued, and a claim that has read hands out the agent's oldest queued request. */
  lemma ClaimsAnswerRight(env: Env, trace: seq<Queue>, events: seq<QueueEvent>, stores: seq<Store>, i: nat,
                          agent: string, now: nat)
    requires IsQueueRun(env, trace, events, stores) && i < |trace|
    ensures var q := trace[i];
            && (MayRead(q, agent) ==>
                  (Read(q, agent).1 == Some(None)
                   <==> forall k :: k in q.rows && q.rows[k].agent == agent ==> q.rows[k].status != Queued))
            && (MayWrite(q, agent) ==>
                  Write(q, agent, now).1.Some? && Write(q, agent, now).1 == OldestQueued(q, agent))
  {
    hide IsQueueRun, Orderly, Read, Write, OldestQueued;
    EveryQueueRunIsOrderly(env, trace, events, stores, i);
    var q := trace[i];
    if MayRead(q, agent) {
      NullMeansNothingQueued(q, agent);
    }
    if MayWrite(q, agent) {
      WriteHandsOutTheOldest(q, agent, now);
    }
  }

  // ---------------------------------------------------------------- the first request handed out

  lemma OnlyRowIsOldest(q: Queue, agent: string, id: string)
    requires q.order == [id] && id in q.rows && q.rows[id].agent == agent && q.rows[id].status == Queued
    ensures OldestQueued(q, agent) == Some(id)
  {
    assert q.order[..0] == [];
    assert Mine(q.order, q.rows, agent) == [id];
    SortIsIdle([id], q.rows);
  }

  /** A request is queued, claimed and handed out. */
  lemma ClaimedRequest(agent: string, id: string, now: nat)
    ensures var q1 := Enqueue(EMPTY_QUEUE, id, "", agent, "", now);
            var q2 := Arrive(q1, agent, 0);
            && MayRead(q2, agent)
            && var q3 := Read(q2, agent).0;
               && MayWrite(q3, agent)
               && Write(q3, agent, now).0.rows == map[id := NewRequest(id, "", agent, "", now).(status := Processing)]
  {
    hide OldestQueued;
    var q1 := Enqueue(EMPTY_QUEUE, id, "", agent, "", now);
    var q2 := Arrive(q1, agent, 0);
    OnlyRowIsOldest(q2, agent, id);
  }
}
