/** The purchase queue and the x402 rail running side by side: what an AUTHORIZED and a PAID request rest on,
    and for how long. */
module PurchaseBacking {
  import opened Common
  import opened ActionStore
  import opened PurchaseQueue
  import opened PurchaseClaims
  import opened PurchaseProofs
  import opened X402Proofs
  import opened X402Writes
  import Normaliser
  import PurchaseHandlers
  import X402

  // ---------------------------------------------------------------- requests backed by actions

  predicate NamesAction(row: Request, actions: map<string, TreasuryAction>) {
    row.actionId.Some? && row.actionId.value in actions
  }

  /** What an AUTHORIZED request rests on. */
  predicate IsAuthorized(env: Env, actions: map<string, TreasuryAction>, row: Request) {
    && NamesAction(row, actions)
    && var a := actions[row.actionId.value];
       SameOwner(env, a.agentAddress, row.agent) && Authorizes(a.justification, row.resourceUrl)
  }

  /** What a PAID request rests on. */
  predicate IsPaid(env: Env, actions: map<string, TreasuryAction>, row: Request) {
    && NamesAction(row, actions)
    && var a := actions[row.actionId.value];
       && SameOwner(env, a.agentAddress, row.agent)
       && a.status == EXECUTED && a.txHash.Some?
       && row.transactionHash == Some(ToLower(a.txHash.value))
  }

  ghost predicate AgentsAreChecksummed(env: Env, rows: map<string, Request>) {
    forall k :: k in rows ==> IsChecksummed(env, rows[k].agent)
  }

  /** Two checksummed addresses the service takes for one are one. */
  lemma OwnersCoincide(env: Env, a: string, b: string)
    requires IsChecksummed(env, a) && IsChecksummed(env, b) && SameOwner(env, a, b)
    ensures a == b
  {
  }

  lemma QueueStepKeepsAgents(env: Env, store: Store, q: Queue, e: QueueEvent)
    requires AgentsAreChecksummed(env, q.rows) && IsTimely(env, q, e)
    ensures AgentsAreChecksummed(env, ApplyToQueue(env, store, q, e).rows)
  {
    hide SameOwner, Authorizes, IsExecutedBy, OldestQueued, IsChecksummed;
  }

  /** A request that becomes AUTHORIZED names an action of its agent that pays for its resource. */
  lemma AuthorizedOnAnAction(env: Env, store: Store, q: Queue, e: QueueEvent, k: string)
    requires Mirrored(store) && AgentsAreChecksummed(env, q.rows) && IsTimely(env, q, e)
    requires var t := ApplyToQueue(env, store, q, e);
             k in t.rows && t.rows[k].status == Authorized && !(k in q.rows && q.rows[k] == t.rows[k])
    ensures IsAuthorized(env, Known(store), ApplyToQueue(env, store, q, e).rows[k])
  {
    hide Mirrored, Known, SameOwner, Authorizes, IsExecutedBy, OldestQueued;
    if e.Progressed? {
      FindIsKnown(store, e.progress.actionId);
      ProgressedByItsAgent(env, q, store, e.agent, e.id, e.progress, e.now);
    }
  }

  lemma ProgressedByItsAgent(env: Env, q: Queue, store: Store, agent: string, id: string, dto: Progress, now: nat)
    requires IsChecksummed(env, agent) && AgentsAreChecksummed(env, q.rows)
    ensures ReportProgress(env, q, store, agent, id, dto, now).1.Ok? ==> id in q.rows && q.rows[id].agent == agent
  {
    hide Find, Authorizes;
    if id in q.rows && SameOwner(env, q.rows[id].agent, agent) {
      OwnersCoincide(env, q.rows[id].agent, agent);
    }
  }

  lemma ResolvedByItsAgent(env: Env, q: Queue, store: Store, agent: string, id: string, dto: ResultReport, now: nat)
    requires IsChecksummed(env, agent) && AgentsAreChecksummed(env, q.rows)
    ensures ReportResult(env, q, store, agent, id, dto, now).1.Ok? ==> id in q.rows && q.rows[id].agent == agent
  {
    hide Find, IsExecutedBy;
    if id in q.rows && SameOwner(env, q.rows[id].agent, agent) {
      OwnersCoincide(env, q.rows[id].agent, agent);
    }
  }

  /** A request that becomes PAID names an EXECUTED action of its agent with its transaction hash. */
  lemma PaidOnAnExecutedAction(env: Env, store: Store, q: Queue, e: QueueEvent, k: string)
    requires Mirrored(store) && AgentsAreChecksummed(env, q.rows) && IsTimely(env, q, e)
    requires var t := ApplyToQueue(env, store, q, e);
             k in t.rows && t.rows[k].status == Paid && !(k in q.rows && q.rows[k] == t.rows[k])
    ensures IsPaid(env, Known(store), ApplyToQueue(env, store, q, e).rows[k])
  {
    hide Mirrored, Known, SameOwner, Authorizes, OldestQueued;
    if e.Resolved? {
      if e.report.actionId.Some? {
        FindIsKnown(store, e.report.actionId.value);
      }
      ResolvedByItsAgent(env, q, store, e.agent, e.id, e.report, e.now);
    }
  }

  // ---------------------------------------------------------------- the two services together

  datatype System = System(x402: X402.State, queue: Queue)

  datatype Step = Paying(payment: X402.Event) | Queueing(request: QueueEvent)

  /** A restart also forgets the claims in progress. */
  ghost function Advance(w: X402.World, s: System, step: Step): System {
    match step
    case Paying(e) =>
      System(X402.Apply(w, s.x402, e),
             if e.Restarted? then ApplyToQueue(w.env, s.x402.store, s.queue, Forgotten) else s.queue)
    case Queueing(e) => s.(queue := ApplyToQueue(w.env, s.x402.store, s.queue, e))
  }

  ghost predicate IsAllowed(w: X402.World, s: System, step: Step) {
    match step
    case Paying(e) => X402.Admissible(w, s.x402, e)
    case Queueing(e) => IsTimely(w.env, s.queue, e)
  }

  ghost predicate SystemStepAt(w: X402.World, trace: seq<System>, steps: seq<Step>, i: nat)
    requires i < |steps| < |trace|
  {
    IsAllowed(w, trace[i], steps[i]) && trace[i + 1] == Advance(w, trace[i], steps[i])
  }

  /** A run of both services from empty tables: `trace[i]` is the system before `steps[i]`. */
  ghost predicate IsSystemRun(w: X402.World, trace: seq<System>, steps: seq<Step>) {
    && |trace| == |steps| + 1
    && trace[0] == System(X402.START, EMPTY_QUEUE)
    && forall i :: 0 <= i < |steps| ==> SystemStepAt(w, trace, steps, i)
  }

  /** What a PAID request rests on for good: an action of its agent that a settlement was accepted for. */
  ghost predicate IsSettled(env: Env, s: X402.State, row: Request) {
    && NamesAction(row, Known(s.store))
    && var id := row.actionId.value;
       var a := Known(s.store)[id];
       && SameOwner(env, a.agentAddress, row.agent) && a.txHash.Some?
       && (id in s.issued ==> id in s.receipts)
  }

  ghost predicate RowStands(env: Env, s: X402.State, row: Request) {
    && (row.status == Authorized ==> IsAuthorized(env, Known(s.store), row))
    && (row.status == Paid ==> IsSettled(env, s, row))
  }

  ghost predicate Standing(env: Env, s: X402.State, rows: map<string, Request>) {
    forall k :: k in rows ==> RowStands(env, s, rows[k])
  }

  ghost predicate SystemIsSound(w: X402.World, s: System) {
    && Sound(w, s.x402)
    && AgentsAreChecksummed(w.env, s.queue.rows)
    && Standing(w.env, s.x402, s.queue.rows)
  }

  lemma PaidIsSettled(w: X402.World, s: X402.State, row: Request)
    requires Sound(w, s) && IsPaid(w.env, Known(s.store), row)
    ensures IsSettled(w.env, s, row)
  {
    hide Sound, Known, SameOwner;
    if row.actionId.value in s.issued {
      ExecutedHasReceipt(w, s, row.actionId.value);
    }
  }

  lemma QueueStepStands(w: X402.World, s: X402.State, q: Queue, e: QueueEvent)
    requires Sound(w, s) && AgentsAreChecksummed(w.env, q.rows) && IsTimely(w.env, q, e)
    requires Standing(w.env, s, q.rows)
    ensures Standing(w.env, s, ApplyToQueue(w.env, s.store, q, e).rows)
  {
    hide Sound, Mirrored, Known, ApplyToQueue, IsTimely, AgentsAreChecksummed, IsAuthorized, IsPaid, IsSettled;
    StoreIsMirrored(w, s);
    var t := ApplyToQueue(w.env, s.store, q, e);
    forall k | k in t.rows ensures RowStands(w.env, s, t.rows[k]) {
      if k in q.rows && q.rows[k] == t.rows[k] {
        assert RowStands(w.env, s, q.rows[k]);
      } else if t.rows[k].status == Authorized {
        AuthorizedOnAnAction(w.env, s.store, q, e, k);
      } else if t.rows[k].status == Paid {
        PaidOnAnExecutedAction(w.env, s.store, q, e, k);
        PaidIsSettled(w, s, t.rows[k]);
      }
    }
  }

  lemma RowStaysStanding(env: Env, s: X402.State, t: X402.State, row: Request, write: Option<StatusUpdate>)
    requires RowStands(env, s, row) && ActionsKept(Known(s.store), Known(t.store), write)
    requires forall k :: k in Known(s.store) && k in t.issued ==> k in s.issued
    requires s.receipts.Keys <= t.receipts.Keys
    ensures RowStands(env, t, row)
  {
    hide SameOwner, Authorizes, Known;
    if row.status == Authorized || row.status == Paid {
      var id := row.actionId.value;
      assert ActionKept(Known(s.store)[id], Known(t.store)[id], WriteTo(write, id));
    }
  }

  lemma PayingKeepsSystemSound(w: X402.World, s: System, e: X402.Event)
    requires SystemIsSound(w, s) && IsAllowed(w, s, Paying(e))
    ensures SystemIsSound(w, Advance(w, s, Paying(e)))
  {
    hide Sound, X402.Apply, X402.Admissible, RowStands, ActionsKept, Known, WriteOf;
    var t := X402.Apply(w, s.x402, e);
    ReceiptsStay(w, s.x402, e);
    StoredStaysUnissued(w, s.x402, e);
    PayStepKeepsActions(w, s.x402, e);
    forall k | k in s.queue.rows ensures RowStands(w.env, t, s.queue.rows[k]) {
      RowStaysStanding(w.env, s.x402, t, s.queue.rows[k], WriteOf(w, s.x402, e));
    }
  }

  lemma StepKeepsSystemSound(w: X402.World, s: System, step: Step)
    requires SystemIsSound(w, s) && IsAllowed(w, s, step)
    ensures SystemIsSound(w, Advance(w, s, step))
  {
    match step
    case Paying(e) =>
      hide *;
      PayingKeepsSystemSound(w, s, e);
    case Queueing(e) =>
      hide Sound, ApplyToQueue, Standing, AgentsAreChecksummed, IsTimely, Known;
      QueueStepKeepsAgents(w.env, s.x402.store, s.queue, e);
      QueueStepStands(w, s.x402, s.queue, e);
  }

  /** Over every run of both services, whatever overlaps and restarts: an AUTHORIZED request names an action of its
      agent that pays for its resource, and a PAID one an action of its agent that a settlement was accepted for. */
  lemma {:induction false} EverySystemRunIsSound(w: X402.World, trace: seq<System>, steps: seq<Step>, i: nat)
    requires IsSystemRun(w, trace, steps) && i < |trace|
    ensures SystemIsSound(w, trace[i])
    decreases i
  {
    if i == 0 {
      StartIsSound(w);
    } else {
      hide SystemIsSound, Advance, IsAllowed;
      EverySystemRunIsSound(w, trace, steps, i - 1);
      assert SystemStepAt(w, trace, steps, i - 1);
      StepKeepsSystemSound(w, trace[i - 1], steps[i - 1]);
    }
  }

  // ---------------------------------------------------------------- the queue's part of a run

  /** The queue of a system run takes queue steps, or stands still. */
  lemma SystemStepAdvances(w: X402.World, s: System, step: Step)
    requires IsAllowed(w, s, step)
    ensures QueueAdvances(s.queue, Advance(w, s, step).queue)
  {
    StandingStill(s.queue);
    hide QueueAdvances, ApplyToQueue, X402.Apply, X402.Admissible;
    match step
    case Paying(e) => QueueStepAdvances(w.env, s.x402.store, s.queue, Forgotten);
    case Queueing(e) => QueueStepAdvances(w.env, s.x402.store, s.queue, e);
  }

  lemma {:induction false} SystemQueuesAdvance(w: X402.World, trace: seq<System>, steps: seq<Step>, i: nat, j: nat)
    requires IsSystemRun(w, trace, steps) && i <= j < |trace|
    ensures QueueAdvances(trace[i].queue, trace[j].queue)
    decreases j
  {
    hide QueueAdvances, Advance, IsAllowed;
    if i == j {
      StandingStill(trace[i].queue);
    } else {
      SystemQueuesAdvance(w, trace, steps, i, j - 1);
      assert SystemStepAt(w, trace, steps, j - 1);
      SystemStepAdvances(w, trace[j - 1], steps[j - 1]);
      AdvancingIsTransitive(trace[i].queue, trace[j - 1].queue, trace[j].queue);
    }
  }

  // ---------------------------------------------------------------- when a PAID request is backed

  function StepWrites(w: X402.World, s: System, step: Step, id: string): Option<StatusUpdate> {
    if step.Paying? then WriteTo(WriteOf(w, s.x402, step.payment), id) else None
  }

  /** The last write to `id` from moment `i` to moment `j`. */
  ghost function LastWrite(w: X402.World, trace: seq<System>, steps: seq<Step>, i: nat, j: nat, id: string)
    : Option<StatusUpdate>
    requires j <= |steps| < |trace|
    decreases j
  {
    if j <= i then None
    else if StepWrites(w, trace[j - 1], steps[j - 1], id).Some? then StepWrites(w, trace[j - 1], steps[j - 1], id)
    else LastWrite(w, trace, steps, i, j - 1, id)
  }

  /** What one step does to a stored action. */
  lemma SystemStepKeepsAction(w: X402.World, s: System, step: Step, id: string)
    requires Sound(w, s.x402) && IsAllowed(w, s, step) && id in Known(s.x402.store)
    ensures id in Known(Advance(w, s, step).x402.store)
    ensures ActionKept(Known(s.x402.store)[id], Known(Advance(w, s, step).x402.store)[id],
                       StepWrites(w, s, step, id))
    ensures var write := StepWrites(w, s, step, id);
            write.Some? && write.value.status == EXECUTED ==> write.value.txHash.Some?
  {
    StandingStillIsAllowed();
    if step.Paying? {
      hide Sound, X402.Apply, X402.Admissible, Known, ActionKept, WriteOf;
      PayStepKeepsActions(w, s.x402, step.payment);
      if WriteOf(w, s.x402, step.payment).Some? {
        ExecutingIsSettling(w, s.x402, step.payment);
      }
    } else {
      hide Known, ApplyToQueue, IsTimely, Sound;
    }
  }

  /** Between any two moments of any run, an action shows its last write, and its request stays as it was. */
  lemma {:induction false} ActionShowsLastWrite(w: X402.World, trace: seq<System>, steps: seq<Step>, i: nat, j: nat,
                                                id: string)
    requires IsSystemRun(w, trace, steps) && i <= j < |trace| && id in Known(trace[i].x402.store)
    ensures id in Known(trace[j].x402.store)
    ensures var a, b := Known(trace[i].x402.store)[id], Known(trace[j].x402.store)[id];
            var last := LastWrite(w, trace, steps, i, j, id);
            && SameRequest(a, b)
            && b.status == (if last.Some? then last.value.status else a.status)
            && (last.None? ==> b.txHash == a.txHash)
            && (last.Some? && last.value.status == EXECUTED ==>
                  last.value.txHash.Some? && b.txHash == last.value.txHash)
    decreases j
  {
    hide SystemIsSound, Advance, IsAllowed, Known, SameRequest, StepWrites;
    StandingStillIsAllowed();
    if i == j {
    } else {
      ActionShowsLastWrite(w, trace, steps, i, j - 1, id);
      SystemRunIsSound(w, trace, steps, j - 1);
      assert SystemStepAt(w, trace, steps, j - 1);
      SystemStepKeepsAction(w, trace[j - 1], steps[j - 1], id);
      SameRequestFurther(Known(trace[i].x402.store)[id], Known(trace[j - 1].x402.store)[id],
                         Known(trace[j].x402.store)[id]);
    }
  }

  lemma SameRequestFurther(a: TreasuryAction, b: TreasuryAction, c: TreasuryAction)
    requires SameRequest(a, b)
    ensures SameRequest(b, c) ==> SameRequest(a, c)
  {
  }

  lemma SystemRunIsSound(w: X402.World, trace: seq<System>, steps: seq<Step>, i: nat)
    requires IsSystemRun(w, trace, steps) && i < |trace|
    ensures Sound(w, trace[i].x402)
  {
    hide IsSystemRun, Sound, Standing, AgentsAreChecksummed;
    EverySystemRunIsSound(w, trace, steps, i);
  }

  /** A PAID request that was backed is backed later on exactly when the last write to its action since, if there
      was any, is a settlement accepted on the request's own hash: neither a settlement on another hash, nor an
      approval or rejection that resumed late. It never changes itself, and its action stays its agent's and
      settled in any case. */
  lemma PaidIsBackedIff(w: X402.World, trace: seq<System>, steps: seq<Step>, i: nat, j: nat, k: string)
    requires IsSystemRun(w, trace, steps) && i <= j < |trace|
    requires k in trace[i].queue.rows && trace[i].queue.rows[k].status == Paid
    requires IsPaid(w.env, Known(trace[i].x402.store), trace[i].queue.rows[k])
    ensures k in trace[j].queue.rows && trace[j].queue.rows[k] == trace[i].queue.rows[k]
    ensures IsSettled(w.env, trace[j].x402, trace[j].queue.rows[k])
    ensures var row := trace[i].queue.rows[k];
            var last := LastWrite(w, trace, steps, i, j, row.actionId.value);
            IsPaid(w.env, Known(trace[j].x402.store), row)
            <==> (last.Some? ==>
                    && last.value.status == EXECUTED && last.value.txHash.Some?
                    && row.transactionHash == Some(ToLower(last.value.txHash.value)))
  {
    hide IsSystemRun, Known, LastWrite, Sound, QueueAdvances, SameOwner;
    SystemQueuesAdvance(w, trace, steps, i, j);
    TerminalRowsStand(trace[i].queue, trace[j].queue, k);
    EverySystemRunIsSound(w, trace, steps, j);
    assert RowStands(w.env, trace[j].x402, trace[j].queue.rows[k]);
    ActionShowsLastWrite(w, trace, steps, i, j, trace[i].queue.rows[k].actionId.value);
  }

  /** A request is backed at the moment it becomes PAID. */
  lemma BecomesPaidBacked(w: X402.World, trace: seq<System>, steps: seq<Step>, i: nat, k: string)
    requires IsSystemRun(w, trace, steps) && i < |steps|
    requires k in trace[i + 1].queue.rows && trace[i + 1].queue.rows[k].status == Paid
    requires !(k in trace[i].queue.rows && trace[i].queue.rows[k].status == Paid)
    ensures IsPaid(w.env, Known(trace[i + 1].x402.store), trace[i + 1].queue.rows[k])
  {
    hide Known, Sound, ApplyToQueue, IsTimely, X402.Apply, X402.Admissible, IsPaid, Standing;
    EverySystemRunIsSound(w, trace, steps, i);
    assert SystemStepAt(w, trace, steps, i);
    StoreIsMirrored(w, trace[i].x402);
    match steps[i]
    case Queueing(e) => PaidOnAnExecutedAction(w.env, trace[i].x402.store, trace[i].queue, e, k);
    case Paying(e) => ForgettingKeepsRows(w.env, trace[i].x402.store, trace[i].queue);
  }

  lemma ForgettingKeepsRows(env: Env, store: Store, q: Queue)
    ensures ApplyToQueue(env, store, q, Forgotten).rows == q.rows
  {
  }

  // ---------------------------------------------------------------- executed actions left alone

  ghost predicate AreDistinct(jobs: map<nat, X402.Settlement>) {
    forall t, u :: t in jobs && u in jobs && t != u ==> jobs[t].actionId != jobs[u].actionId
  }

  predicate IsOpen(actions: map<string, TreasuryAction>, id: string) {
    id in actions && actions[id].status != EXECUTED
  }

  ghost predicate AreOpen(jobs: map<nat, X402.Settlement>, actions: map<string, TreasuryAction>) {
    forall t :: t in jobs ==> IsOpen(actions, jobs[t].actionId)
  }

  /** No two suspended settlements are for one action, and none is for an executed one. */
  ghost predicate OneSettlementEach(s: X402.State) {
    AreDistinct(s.settling) && AreOpen(s.settling, Known(s.store))
  }

  /** A settlement does not begin while another one of the same action is under way, and approvals, rejections and
      the legacy rail do not reach an action that was executed meanwhile. */
  predicate LeavesAlone(w: X402.World, s: X402.State, e: X402.Event) {
    && (e.SettleBegun? ==> forall t :: t in s.settling ==> s.settling[t].actionId != e.id)
    && (WriteOf(w, s, e).Some? && !e.SettleFinished? ==>
          WriteOf(w, s, e).value.id in Known(s.store) ==> IsOpen(Known(s.store), WriteOf(w, s, e).value.id))
  }

  lemma OneMoreSettlement(jobs: map<nat, X402.Settlement>, actions: map<string, TreasuryAction>, task: nat,
                          job: X402.Settlement)
    requires AreDistinct(jobs) && AreOpen(jobs, actions) && task !in jobs
    requires forall t :: t in jobs ==> jobs[t].actionId != job.actionId
    requires IsOpen(actions, job.actionId)
    ensures AreDistinct(jobs[task := job]) && AreOpen(jobs[task := job], actions)
  {
  }

  lemma OneSettlementLess(jobs: map<nat, X402.Settlement>, actions: map<string, TreasuryAction>, task: nat)
    requires AreDistinct(jobs) && AreOpen(jobs, actions)
    ensures AreDistinct(jobs - {task}) && AreOpen(jobs - {task}, actions)
    ensures task in jobs ==> IsOpen(actions, jobs[task].actionId)
    ensures forall t :: t in jobs - {task} ==> task in jobs ==> jobs[t].actionId != jobs[task].actionId
  {
  }

  lemma NoSettlements(actions: map<string, TreasuryAction>)
    ensures AreDistinct(map[]) && AreOpen(map[], actions)
  {
  }

  /** Steps other than those of `settle` suspend no settlement; a restart forgets them all. */
  lemma OthersSuspendNothing(w: X402.World, s: X402.State, e: X402.Event)
    requires !e.SettleBegun? && !e.SettleFinished?
    ensures X402.Apply(w, s, e).settling == if e.Restarted? then map[] else s.settling
  {
    hide Create, Update, Annotate, X402.Evaluate, Cache, Find, X402.IsValidTypedData, X402.SameAddress, Restart,
         X402.Marked;
  }

  lemma FinishingForgetsOne(w: X402.World, s: X402.State, e: X402.Event)
    requires e.SettleFinished?
    ensures X402.Apply(w, s, e).settling == s.settling - {e.task}
  {
    hide Update, X402.VerifyTransfer;
  }

  lemma ApplyBegins(w: X402.World, s: X402.State, e: X402.Event)
    requires e.SettleBegun?
    ensures X402.Apply(w, s, e) == X402.BeginSettle(w, s, e.agent, e.id, e.txHash, e.task).0
  {
    hide X402.BeginSettle;
  }

  lemma BegunSettlements(w: X402.World, s: X402.State, e: X402.Event)
    requires Mirrored(s.store) && e.SettleBegun? && e.task !in s.settling
    requires OneSettlementEach(s) && forall t :: t in s.settling ==> s.settling[t].actionId != e.id
    ensures var t := X402.Apply(w, s, e);
            AreDistinct(t.settling) && AreOpen(t.settling, Known(s.store))
  {
    hide Mirrored, Known, AreDistinct, AreOpen, X402.Apply, X402.BeginSettle, Cache;
    ApplyBegins(w, s, e);
    BegunSettlement(w, s, e.agent, e.id, e.txHash, e.task);
    var (t, reply) := X402.BeginSettle(w, s, e.agent, e.id, e.txHash, e.task);
    if reply.Ok? {
      OneMoreSettlement(s.settling, Known(s.store), e.task, t.settling[e.task]);
    }
  }

  /** The settlements a step leaves suspended are distinct, open before the step, and not the one it accepts. */
  lemma LeftSettlements(w: X402.World, s: X402.State, e: X402.Event)
    requires Mirrored(s.store) && X402.Admissible(w, s, e) && OneSettlementEach(s) && LeavesAlone(w, s, e)
    ensures var t := X402.Apply(w, s, e);
            && AreDistinct(t.settling) && AreOpen(t.settling, Known(s.store))
            && (e.SettleFinished? ==> forall u :: u in t.settling ==> !IsOf(WriteOf(w, s, e), t.settling[u].actionId))
  {
    hide Mirrored, Known, AreDistinct, AreOpen, X402.Apply, X402.Covers;
    if e.SettleBegun? {
      BegunSettlements(w, s, e);
    } else if e.SettleFinished? {
      FinishingForgetsOne(w, s, e);
      OneSettlementLess(s.settling, Known(s.store), e.task);
    } else {
      OthersSuspendNothing(w, s, e);
      NoSettlements(Known(s.store));
    }
  }

  lemma OthersStayOpen(jobs: map<nat, X402.Settlement>, m: map<string, TreasuryAction>, n: map<string, TreasuryAction>,
                       write: Option<StatusUpdate>)
    requires AreOpen(jobs, m) && ActionsKept(m, n, write)
    requires forall t :: t in jobs ==> IsOf(write, jobs[t].actionId) ==> write.value.status != EXECUTED
    ensures AreOpen(jobs, n)
  {
    hide SameRequest;
    forall t | t in jobs ensures IsOpen(n, jobs[t].actionId) {
      assert IsOpen(m, jobs[t].actionId);
      assert ActionKept(m[jobs[t].actionId], n[jobs[t].actionId], WriteTo(write, jobs[t].actionId));
    }
  }

  lemma StepKeepsOneSettlementEach(w: X402.World, s: X402.State, e: X402.Event)
    requires Sound(w, s) && X402.Admissible(w, s, e) && OneSettlementEach(s) && LeavesAlone(w, s, e)
    ensures OneSettlementEach(X402.Apply(w, s, e))
  {
    hide Sound, X402.Apply, X402.Admissible, AreDistinct, AreOpen, ActionsKept, WriteOf, LeavesAlone, Known, Mirrored;
    StoreIsMirrored(w, s);
    LeftSettlements(w, s, e);
    PayStepKeepsActions(w, s, e);
    if WriteOf(w, s, e).Some? {
      ExecutingIsSettling(w, s, e);
    }
    OthersStayOpen(X402.Apply(w, s, e).settling, Known(s.store), Known(X402.Apply(w, s, e).store), WriteOf(w, s, e));
  }

  /** So what a step writes to was not executed before. */
  lemma WrittenWasOpen(w: X402.World, s: X402.State, e: X402.Event, id: string)
    requires OneSettlementEach(s) && LeavesAlone(w, s, e) && IsOf(WriteOf(w, s, e), id) && id in Known(s.store)
    ensures Known(s.store)[id].status != EXECUTED
  {
    hide X402.Covers, Known;
  }

  predicate StepLeavesAlone(w: X402.World, s: System, step: Step) {
    step.Paying? ==> LeavesAlone(w, s.x402, step.payment)
  }

  lemma {:induction false} RunsKeepOneSettlementEach(w: X402.World, trace: seq<System>, steps: seq<Step>, i: nat)
    requires IsSystemRun(w, trace, steps) && i < |trace|
    requires forall m :: 0 <= m < i ==> StepLeavesAlone(w, trace[m], steps[m])
    ensures OneSettlementEach(trace[i].x402)
    decreases i
  {
    if i == 0 {
      NoSettlements(Known(X402.START.store));
    } else {
      hide OneSettlementEach, Sound, X402.Apply, X402.Admissible, ApplyToQueue, IsTimely, LeavesAlone;
      RunsKeepOneSettlementEach(w, trace, steps, i - 1);
      SystemRunIsSound(w, trace, steps, i - 1);
      assert SystemStepAt(w, trace, steps, i - 1) && StepLeavesAlone(w, trace[i - 1], steps[i - 1]);
      if steps[i - 1].Paying? {
        StepKeepsOneSettlementEach(w, trace[i - 1].x402, steps[i - 1].payment);
      }
    }
  }

  lemma ExecutedIsNotWritten(w: X402.World, trace: seq<System>, steps: seq<Step>, j: nat, id: string)
    requires IsSystemRun(w, trace, steps) && j < |steps|
    requires forall m :: 0 <= m <= j ==> StepLeavesAlone(w, trace[m], steps[m])
    requires id in Known(trace[j].x402.store) && Known(trace[j].x402.store)[id].status == EXECUTED
    ensures StepWrites(w, trace[j], steps[j], id) == None
  {
    assert |trace| == |steps| + 1;
    hide IsSystemRun, Known, WriteOf, LeavesAlone, OneSettlementEach;
    RunsKeepOneSettlementEach(w, trace, steps, j);
    if StepWrites(w, trace[j], steps[j], id).Some? {
      WrittenWasOpen(w, trace[j].x402, steps[j].payment, id);
    }
  }

  /** Where settlements do not overlap and late decisions do not come through, nothing is written to an executed
      action. */
  lemma {:induction false} NothingWrittenAgain(w: X402.World, trace: seq<System>, steps: seq<Step>, i: nat, j: nat,
                                               id: string)
    requires IsSystemRun(w, trace, steps) && i <= j < |trace|
    requires forall m :: 0 <= m < j ==> StepLeavesAlone(w, trace[m], steps[m])
    requires id in Known(trace[i].x402.store) && Known(trace[i].x402.store)[id].status == EXECUTED
    ensures LastWrite(w, trace, steps, i, j, id) == None
    decreases j
  {
    assert |trace| == |steps| + 1;
    hide IsSystemRun, Known, StepWrites, StepLeavesAlone, SameRequest;
    if i == j {
    } else {
      NothingWrittenAgain(w, trace, steps, i, j - 1, id);
      ActionShowsLastWrite(w, trace, steps, i, j - 1, id);
      ExecutedIsNotWritten(w, trace, steps, j - 1, id);
    }
  }

  /** There, a PAID request stays backed at every later moment. */
  lemma PaidStaysBacked(w: X402.World, trace: seq<System>, steps: seq<Step>, i: nat, j: nat, k: string)
    requires IsSystemRun(w, trace, steps) && i <= j < |trace|
    requires forall m :: 0 <= m < j ==> StepLeavesAlone(w, trace[m], steps[m])
    requires k in trace[i].queue.rows && trace[i].queue.rows[k].status == Paid
    requires IsPaid(w.env, Known(trace[i].x402.store), trace[i].queue.rows[k])
    ensures k in trace[j].queue.rows && trace[j].queue.rows[k] == trace[i].queue.rows[k]
    ensures IsPaid(w.env, Known(trace[j].x402.store), trace[j].queue.rows[k])
  {
    hide IsSystemRun, Known, LastWrite, StepLeavesAlone, SameOwner, IsSettled;
    PaidIsBackedIff(w, trace, steps, i, j, k);
    NothingWrittenAgain(w, trace, steps, i, j, trace[i].queue.rows[k].actionId.value);
  }

  // ---------------------------------------------------------------- which requests an action authorises

  /** The action `authorize` stores for a resource authorises exactly the requests whose URL its own
      resource URL, query string included, starts with. */
  lemma PaymentAuthorizesItsResource(request: X402.PaymentRequest, resourceUrl: string)
    requires request.resourceUrl != ""
    requires forall i :: 0 <= i < |request.resourceUrl| ==> !Normaliser.IsSpace(request.resourceUrl[i])
    ensures Authorizes(X402.FullJustification(request), resourceUrl) <==> resourceUrl <= request.resourceUrl
  {
    var rest := " | " + request.justification;
    PurchaseHandlers.PrefixIsTheUrl(request.resourceUrl, rest);
    var full := X402.FullJustification(request);
    assert full == X402.PREFIX + (request.resourceUrl + rest);
    assert full[|X402.PREFIX|..] == request.resourceUrl + rest;
  }
}
