/** Runs in which a PAID request loses its backing: to a second settlement of its action that was suspended together
    with the first, and to a second approval of it that was. */
module PurchaseWitness {
  import opened Common
  import opened ActionStore
  import opened PurchaseQueue
  import opened PurchaseClaims
  import opened PurchaseProofs
  import opened PurchaseBacking
  import opened X402Proofs
  import X402
  import X402Order
  import X402Cap
  import X402Witness

  // ---------------------------------------------------------------- the payment's part

  predicate Covered(w: X402.World, request: X402.PaymentRequest, receipt: X402.Receipt) {
    X402.Covers(w.env, receipt, request.asset, request.payTo, X402.Units(w.env, request.amount))
  }

  /** A payment the policy has no objection to. */
  predicate IsAllowable(w: X402.World, request: X402.PaymentRequest) {
    X402Cap.IsUnobjectionable(w, request) && X402.Units(w.env, request.amount) <= w.config.dailyLimit
  }

  lemma AllowableParses(w: X402.World, request: X402.PaymentRequest)
    requires IsAllowable(w, request)
    ensures w.env.bigInt(request.amount).Some?
  {
    hide X402.FullJustification;
  }

  lemma AllowedStep(w: X402.World, agent: string, request: X402.PaymentRequest, id: string, t: nat)
    returns (s: X402.State)
    requires IsAllowable(w, request)
    ensures X402Witness.Takes(w, X402.START, X402.Authorized(agent, request, id, t, t), s)
    ensures X402Witness.Holds(w, s, agent, request, id, APPROVED) && s.settling == map[]
  {
    hide X402.Authorize, JudgedStore, Sound, Known, X402.FullJustification;
    StartIsSound(w);
    s := X402.Authorize(w, X402.START, agent, request, id, t, t).0;
    var p := X402.Authorize(w, X402.START, agent, request, id, t, t).1;
    X402Cap.AllowedWhenNothingIsCounted(w, X402.START, agent, request, id, t, t);
    AuthorizeInTwoCases(w, X402.START, agent, request, id, t, t);
    StoreIsMirrored(w, X402.START);
    JudgedStoreHoldsTheAction(X402.START, agent, request, id, t, p.value, t);
    X402Witness.TakesSoundly(w, X402.START, X402.Authorized(agent, request, id, t, t), s);
  }

  // ---------------------------------------------------------------- the request's part

  function PaidReport(actionId: string, txHash: string): ResultReport {
    ResultReport(Paid, Some(actionId), Some(ALLOW), None, Some(txHash), None, None)
  }

  lemma PaidIsAccepted(env: Env, q: Queue, store: Store, agent: string, id: string, actionId: string, txHash: string,
                       now: nat)
    requires IsChecksummed(env, agent) && id in q.rows && q.rows[id].agent == agent && q.rows[id].status == Processing
    requires Mirrored(store) && actionId in Known(store) && actionId != "" && txHash != ""
    requires var a := Known(store)[actionId];
             a.agentAddress == agent && a.status == EXECUTED && a.txHash == Some(txHash)
    ensures var t := ReportResult(env, q, store, agent, id, PaidReport(actionId, txHash), now).0;
            && id in t.rows && t.rows[id].status == Paid && t.rows[id].actionId == Some(actionId)
            && t.rows[id].agent == agent && t.rows[id].transactionHash == Some(ToLower(txHash))
  {
    FindIsKnown(store, actionId);
    hide Mirrored, Known, Find;
  }

  // ---------------------------------------------------------------- the run

  ghost predicate Queues(env: Env, store: Store, q: Queue, e: QueueEvent, t: Queue) {
    IsTimely(env, q, e) && t == ApplyToQueue(env, store, q, e)
  }

  /** One step of either service. */
  ghost predicate Moves(w: X402.World, s: System, step: Step, t: System) {
    match step
    case Paying(e) => X402Witness.Takes(w, s.x402, e, t.x402) && !e.Restarted? && t.queue == s.queue
    case Queueing(e) => Queues(w.env, s.x402.store, s.queue, e, t.queue) && t.x402 == s.x402
  }

  /** Part of a run. */
  ghost predicate IsChain(w: X402.World, trace: seq<System>, steps: seq<Step>) {
    && |trace| == |steps| + 1
    && forall i :: 0 <= i < |steps| ==> Moves(w, trace[i], steps[i], trace[i + 1])
  }

  lemma ChainsJoin(w: X402.World, a: seq<System>, first: seq<Step>, b: seq<System>, second: seq<Step>)
    requires IsChain(w, a, first) && IsChain(w, b, second) && a[|first|] == b[0]
    ensures IsChain(w, a[..|first|] + b, first + second)
  {
    hide Moves;
    var trace, steps := a[..|first|] + b, first + second;
    forall i | 0 <= i < |steps| ensures Moves(w, trace[i], steps[i], trace[i + 1]) {
      if i < |first| {
        assert Moves(w, a[i], first[i], a[i + 1]);
      } else {
        assert Moves(w, b[i - |first|], second[i - |first|], b[i - |first| + 1]);
      }
    }
  }

  lemma ChainIsRun(w: X402.World, trace: seq<System>, steps: seq<Step>)
    requires IsChain(w, trace, steps) && trace[0] == System(X402.START, EMPTY_QUEUE)
    ensures IsSystemRun(w, trace, steps)
  {
    hide X402.Admissible, X402.Apply, ApplyToQueue, IsTimely;
    forall i | 0 <= i < |steps| ensures SystemStepAt(w, trace, steps, i) {
      assert Moves(w, trace[i], steps[i], trace[i + 1]);
    }
  }

  /** A request queued, claimed, handed out, and reported PAID on the executed action. */
  lemma RequestSteps(env: Env, store: Store, agent: string, id: string, actionId: string, h: string, t: nat)
    returns (q1: Queue, q2: Queue, q3: Queue, q4: Queue, q5: Queue)
    requires IsChecksummed(env, agent) && actionId != "" && h != ""
    requires Mirrored(store) && actionId in Known(store)
    requires var a := Known(store)[actionId]; a.agentAddress == agent && a.status == EXECUTED && a.txHash == Some(h)
    ensures Queues(env, store, EMPTY_QUEUE, Enqueued(id, "", agent, "", t), q1)
    ensures Queues(env, store, q1, Arrived(agent, 0), q2)
    ensures Queues(env, store, q2, TurnRead(agent), q3)
    ensures Queues(env, store, q3, TurnWritten(agent, t), q4)
    ensures Queues(env, store, q4, Resolved(agent, id, PaidReport(actionId, h), t), q5)
    ensures id in q5.rows && q5.rows[id].status == Paid && q5.rows[id].actionId == Some(actionId)
    ensures q5.rows[id].agent == agent && q5.rows[id].transactionHash == Some(ToLower(h))
  {
    hide Known, Mirrored, Enqueue, Arrive, Read, Write, MayRead, MayWrite, ReportResult;
    ClaimedRequest(agent, id, t);
    q1 := Enqueue(EMPTY_QUEUE, id, "", agent, "", t);
    q2 := Arrive(q1, agent, 0);
    q3 := Read(q2, agent).0;
    q4 := Write(q3, agent, t).0;
    PaidIsAccepted(env, q4, store, agent, id, actionId, h, t);
    q5 := ReportResult(env, q4, store, agent, id, PaidReport(actionId, h), t).0;
  }

  /** The payment allowed, two settlements of it suspended, and both accepted. */
  lemma OverlappingSettlements(w: X402.World, agent: string, request: X402.PaymentRequest, receipt: X402.Receipt,
                               id: string, h: string, other: string, t: nat)
    returns (s1: X402.State, s2: X402.State, s3: X402.State, s4: X402.State, s5: X402.State)
    requires IsAllowable(w, request) && Covered(w, request, receipt) && h != "" && other != ""
    ensures X402Witness.Takes(w, X402.START, X402.Authorized(agent, request, id, t, t), s1)
    ensures X402Witness.Takes(w, s1, X402.SettleBegun(agent, id, h, 1), s2)
    ensures X402Witness.Takes(w, s2, X402.SettleBegun(agent, id, other, 2), s3)
    ensures X402Witness.Takes(w, s3, X402.SettleFinished(1, Some(receipt), t), s4)
    ensures X402Witness.Takes(w, s4, X402.SettleFinished(2, Some(receipt), t), s5)
    ensures X402Witness.Holds(w, s4, agent, request, id, EXECUTED) && id in Known(s5.store)
    ensures Known(s4.store)[id].txHash == Some(h) && Known(s5.store)[id].txHash == Some(other)
  {
    hide Known, Sound, IsAllowable, X402Witness.Takes, X402.Covers;
    AllowableParses(w, request);
    s1 := AllowedStep(w, agent, request, id, t);
    s2 := X402Witness.SettleStep(w, s1, agent, request, id, h, 1);
    s3 := X402Witness.SettleStep(w, s2, agent, request, id, other, 2);
    s4 := X402Witness.SettledStep(w, s3, agent, request, id, h, 1, receipt, APPROVED, t);
    s5 := X402Witness.SettledStep(w, s4, agent, request, id, other, 2, receipt, EXECUTED, t);
  }

  lemma HoldingIsMirrored(w: X402.World, s: X402.State, agent: string, request: X402.PaymentRequest, id: string,
                          status: Status)
    requires X402Witness.Holds(w, s, agent, request, id, status)
    ensures Mirrored(s.store)
  {
    hide Sound, Known, Mirrored;
    StoreIsMirrored(w, s);
  }

  /** The request's part of either run, with the action executed. */
  lemma RequestChain(w: X402.World, s: X402.State, agent: string, request: X402.PaymentRequest, action: string,
                     id: string, h: string, t: nat)
    returns (trace: seq<System>, steps: seq<Step>)
    requires X402Witness.Holds(w, s, agent, request, action, EXECUTED) && Known(s.store)[action].txHash == Some(h)
    requires IsChecksummed(w.env, agent) && action != "" && h != ""
    ensures IsChain(w, trace, steps) && |steps| == 5 && trace[0] == System(s, EMPTY_QUEUE) && trace[5].x402 == s
    ensures id in trace[5].queue.rows
            && var row := trace[5].queue.rows[id];
               && row.status == Paid && row.agent == agent
               && row.actionId == Some(action) && row.transactionHash == Some(ToLower(h))
  {
    hide Known, Sound, Mirrored, Queues;
    HoldingIsMirrored(w, s, agent, request, action, EXECUTED);
    var q1, q2, q3, q4, q5 := RequestSteps(w.env, s.store, agent, id, action, h, t);
    trace := [System(s, EMPTY_QUEUE), System(s, q1), System(s, q2), System(s, q3), System(s, q4), System(s, q5)];
    steps := [Queueing(Enqueued(id, "", agent, "", t)), Queueing(Arrived(agent, 0)), Queueing(TurnRead(agent)),
              Queueing(TurnWritten(agent, t)), Queueing(Resolved(agent, id, PaidReport(action, h), t))];
  }

  /** A request reported PAID after the steps of `pays`, and backed until the last of `late`. */
  lemma BackingIsLost(w: X402.World, pays: seq<System>, first: seq<Step>, late: seq<System>, last: seq<Step>,
                      queued: seq<System>, second: seq<Step>)
    returns (trace: seq<System>, steps: seq<Step>)
    requires IsChain(w, pays, first) && IsChain(w, queued, second) && IsChain(w, late, last)
    requires pays[0] == System(X402.START, EMPTY_QUEUE) && pays[|first|] == queued[0] && queued[|second|] == late[0]
    ensures IsSystemRun(w, trace, steps) && steps == first + (second + last) && |trace| == |steps| + 1
    ensures forall i :: 0 <= i < |late| ==> trace[|first| + |second| + i] == late[i]
  {
    hide Moves, IsSystemRun;
    ChainsJoin(w, queued, second, late, last);
    ChainsJoin(w, pays, first, queued[..|second|] + late, second + last);
    trace, steps := pays[..|first|] + (queued[..|second|] + late), first + (second + last);
    ChainIsRun(w, trace, steps);
  }

  lemma ExecutedBacks(env: Env, actions: map<string, TreasuryAction>, row: Request, action: string, h: string)
    requires row.actionId == Some(action) && row.transactionHash == Some(ToLower(h)) && action in actions
    requires var a := actions[action]; a.agentAddress == row.agent && a.status == EXECUTED && a.txHash == Some(h)
    ensures IsPaid(env, actions, row)
  {
  }

  lemma OthersDoNotBack(env: Env, actions: map<string, TreasuryAction>, row: Request, action: string)
    requires row.actionId == Some(action) && action in actions
    requires var a := actions[action];
             a.status != EXECUTED || a.txHash.None? || row.transactionHash != Some(ToLower(a.txHash.value))
    ensures !IsPaid(env, actions, row)
  {
  }

  /** Backed before its last step, the second settlement's acceptance, and not after. */
  lemma OverlapWitness(w: X402.World, agent: string, request: X402.PaymentRequest, receipt: X402.Receipt,
                       action: string, id: string, h: string, other: string, t: nat)
    returns (trace: seq<System>, steps: seq<Step>)
    requires IsAllowable(w, request) && Covered(w, request, receipt)
    requires IsChecksummed(w.env, agent) && action != "" && h != "" && other != "" && ToLower(h) != ToLower(other)
    ensures IsSystemRun(w, trace, steps) && |steps| == 10
    ensures steps[1] == Paying(X402.SettleBegun(agent, action, h, 1))
            && steps[2] == Paying(X402.SettleBegun(agent, action, other, 2))
            && steps[9] == Paying(X402.SettleFinished(2, Some(receipt), t))
    ensures id in trace[9].queue.rows && trace[9].queue.rows[id].status == Paid && trace[10].queue == trace[9].queue
    ensures IsPaid(w.env, Known(trace[9].x402.store), trace[9].queue.rows[id])
    ensures !IsPaid(w.env, Known(trace[10].x402.store), trace[10].queue.rows[id])
  {
    hide Covered, Known, Sound, IsAllowable, X402Witness.Takes, IsPaid, IsSystemRun, IsChecksummed, ToLower;
    var s1, s2, s3, s4, s5 := OverlappingSettlements(w, agent, request, receipt, action, h, other, t);
    var q := EMPTY_QUEUE;
    var pays := [System(X402.START, q), System(s1, q), System(s2, q), System(s3, q), System(s4, q)];
    var first := [Paying(X402.Authorized(agent, request, action, t, t)), Paying(X402.SettleBegun(agent, action, h, 1)),
                  Paying(X402.SettleBegun(agent, action, other, 2)), Paying(X402.SettleFinished(1, Some(receipt), t))];
    var queued, second := RequestChain(w, s4, agent, request, action, id, h, t);
    var late, last := [queued[5], System(s5, queued[5].queue)], [Paying(X402.SettleFinished(2, Some(receipt), t))];
    ExecutedBacks(w.env, Known(s4.store), queued[5].queue.rows[id], action, h);
    OthersDoNotBack(w.env, Known(s5.store), queued[5].queue.rows[id], action);
    trace, steps := BackingIsLost(w, pays, first, late, last, queued, second);
    assert trace[4 + 5 + 0] == late[0] && trace[4 + 5 + 1] == late[1];
  }

  /** A payment escalated, approved once and settled, with a second approval of it suspended. */
  lemma SettledChain(w: X402.World, agent: string, request: X402.PaymentRequest, typedData: X402.TypedData,
                     signature: string, receipt: X402.Receipt, action: string, h: string, t: nat)
    returns (trace: seq<System>, steps: seq<Step>)
    requires X402Witness.IsEscalated(w, request) && X402Witness.IsFor(w, typedData, request, t)
    requires X402Order.Signs(w, typedData, signature) && signature != "" && Covered(w, request, receipt) && h != ""
    ensures IsChain(w, trace, steps) && |steps| == 8 && trace[0] == System(X402.START, EMPTY_QUEUE)
    ensures steps[2] == Paying(X402.ApprovalBegun(action, signature, 1, t))
            && steps[3] == Paying(X402.ApprovalBegun(action, signature, 2, t))
    ensures trace[8].queue == EMPTY_QUEUE
            && var s := trace[8].x402;
               && X402Witness.Holds(w, s, agent, request, action, EXECUTED) && action in s.escalations
               && Known(s.store)[action].txHash == Some(h)
               && s.deciding == map[2 := X402.HumanDecision(action, signature, true)] && s.marked == map[]
  {
    hide Known, Sound, X402Witness.IsEscalated, X402Witness.IsFor, X402Order.Signs, X402Witness.Takes, X402.Covers;
    X402Witness.EscalatedParses(w, request);
    var s1, s2, s3, s4 := X402Witness.TwoApprovals(w, agent, request, typedData, signature, action, t);
    var s5, s6, s7, s8 := X402Witness.SettledBeforeTheSecond(w, s4, agent, request, signature, receipt, action, h, t);
    var q := EMPTY_QUEUE;
    trace := [System(X402.START, q), System(s1, q), System(s2, q), System(s3, q), System(s4, q), System(s5, q),
              System(s6, q), System(s7, q), System(s8, q)];
    steps := [Paying(X402.Authorized(agent, request, action, t, t)),
              Paying(X402.Submitted(agent, action, typedData, 0, t)),
              Paying(X402.ApprovalBegun(action, signature, 1, t)), Paying(X402.ApprovalBegun(action, signature, 2, t)),
              Paying(X402.RowMarked(1, true, t)), Paying(X402.DecisionFinished(1, t)),
              Paying(X402.SettleBegun(agent, action, h, 3)), Paying(X402.SettleFinished(3, Some(receipt), t))];
  }

  /** Backed before its last step, the second approval's update of the action, and not after. */
  lemma LateApprovalWitness(w: X402.World, agent: string, request: X402.PaymentRequest, typedData: X402.TypedData,
                            signature: string, receipt: X402.Receipt, action: string, id: string, h: string, t: nat)
    returns (trace: seq<System>, steps: seq<Step>)
    requires X402Witness.IsEscalated(w, request) && X402Witness.IsFor(w, typedData, request, t)
    requires X402Order.Signs(w, typedData, signature) && signature != "" && Covered(w, request, receipt)
    requires IsChecksummed(w.env, agent) && action != "" && h != ""
    ensures IsSystemRun(w, trace, steps) && |steps| == 15
    ensures steps[2] == Paying(X402.ApprovalBegun(action, signature, 1, t))
            && steps[3] == Paying(X402.ApprovalBegun(action, signature, 2, t))
            && steps[14] == Paying(X402.DecisionFinished(2, t))
    ensures id in trace[14].queue.rows && trace[14].queue.rows[id].status == Paid
            && trace[15].queue == trace[14].queue
    ensures IsPaid(w.env, Known(trace[14].x402.store), trace[14].queue.rows[id])
    ensures !IsPaid(w.env, Known(trace[15].x402.store), trace[15].queue.rows[id])
  {
    hide Known, Sound, X402Witness.IsEscalated, X402Witness.IsFor, X402Order.Signs, X402Witness.Takes, X402.Covers,
         IsPaid, IsSystemRun, IsChecksummed, ToLower;
    var pays, first := SettledChain(w, agent, request, typedData, signature, receipt, action, h, t);
    var queued, second := RequestChain(w, pays[8].x402, agent, request, action, id, h, t);
    var s9, s10 := X402Witness.LateApproval(w, pays[8].x402, agent, request, signature, action, t);
    var late := [queued[5], System(s9, queued[5].queue), System(s10, queued[5].queue)];
    var last := [Paying(X402.RowMarked(2, true, t)), Paying(X402.DecisionFinished(2, t))];
    ExecutedBacks(w.env, Known(pays[8].x402.store), queued[5].queue.rows[id], action, h);
    OthersDoNotBack(w.env, Known(s10.store), queued[5].queue.rows[id], action);
    trace, steps := BackingIsLost(w, pays, first, late, last, queued, second);
    assert trace[8 + 5 + 1] == late[1] && trace[8 + 5 + 2] == late[2];
  }

  /** The examples' payments, each covered by one transfer log. */
  lemma ExamplesAreCovered()
    ensures IsAllowable(X402Cap.EXAMPLE_WORLD, X402Cap.EXAMPLE_REQUEST)
    ensures Covered(X402Cap.EXAMPLE_WORLD, X402Cap.EXAMPLE_REQUEST, X402Witness.EXAMPLE_RECEIPT)
    ensures Covered(X402Witness.EXAMPLE_WORLD, X402Witness.EXAMPLE_REQUEST, X402Witness.EXAMPLE_RECEIPT)
    ensures IsChecksummed(X402Cap.EXAMPLE_WORLD.env, "agent") && ToLower("0x1") != ToLower("0x2")
  {
    hide X402Cap.IsUnobjectionable;
    X402Cap.ExampleFitsOnce();
    X402Witness.ExampleIsEscalated();
    var log := X402.Log("usdc", Some(X402.Transfer("shop", 6)));
    assert [log][..0] == [];
    assert X402.Transferred(X402Cap.EXAMPLE_WORLD.env, [log], Some("usdc"), Some("shop")) == 6;
    assert ToLower("0x1")[2] == '1' && ToLower("0x2")[2] == '2';
  }
}
