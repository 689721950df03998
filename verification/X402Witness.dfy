/** Runs that reach the steps X402Order rules out: an approval that resumes after its action was settled, a
    submission that overtakes an approval, and a process that ends between the two updates of a decision. */
module X402Witness {
  import opened Common
  import opened ActionStore
  import opened X402
  import opened X402Proofs
  import opened X402Order
  import Normaliser

  // ---------------------------------------------------------------- what the runs are made of

  /** A payment the policy escalates. */
  predicate IsEscalated(w: World, request: PaymentRequest) {
    && IsApprovedDestination(w, request)
    && w.env.bigInt(request.amount).Some?
    && 0 <= Units(w.env, request.amount) && w.config.autonomousLimit < Units(w.env, request.amount)
  }

  /** Typed data for exactly the payment's transfer, not expired at `now`. */
  predicate IsFor(w: World, typedData: TypedData, request: PaymentRequest, now: nat) {
    && typedData.primaryType == "TransferWithAuthorization"
    && SameAddress(w.env, typedData.verifyingContract, w.config.usdcAddress)
    && typedData.chainId == Some(CHAIN_ID)
    && SameAddress(w.env, typedData.from, w.config.ledgerApproverAddress)
    && SameAddress(w.env, typedData.to, request.payTo)
    && typedData.value == request.amount
    && typedData.validBefore.Some? && typedData.validBefore.value > (now / 1000) as real
  }

  /** The agent's payment, stored with this status. */
  ghost predicate Holds(w: World, s: State, agent: string, request: PaymentRequest, id: string, status: Status) {
    && Sound(w, s)
    && id in Known(s.store)
    && var a := Known(s.store)[id];
       && a.status == status && a.agentAddress == agent
       && a.token == request.asset && a.recipient == request.payTo && a.amount == request.amount
  }

  /** One step of the rail. */
  ghost predicate Takes(w: World, s: State, e: Event, t: State) {
    Admissible(w, s, e) && t == Apply(w, s, e)
  }

  /** A step leaves the invariant. */
  lemma TakesSoundly(w: World, s: State, e: Event, t: State)
    requires Sound(w, s) && Takes(w, s, e, t)
    ensures Sound(w, t)
  {
    hide Sound, Apply, Admissible, Keeps;
    ApplyKeepsSound(w, s, e);
    SoundFromKeeps(w, s, t);
  }

  lemma TakenAt(w: World, trace: seq<State>, events: seq<Event>, i: nat)
    requires i < |events| < |trace| && Takes(w, trace[i], events[i], trace[i + 1])
    ensures StepAt(w, trace, events, i)
  {
    hide Apply, Admissible;
  }

  // ---------------------------------------------------------------- the steps

  /** The first payment, escalated: nothing is under way yet. */
  lemma EscalatedStep(w: World, agent: string, request: PaymentRequest, id: string, t: nat) returns (s: State)
    requires IsEscalated(w, request)
    ensures Takes(w, START, Authorized(agent, request, id, t, t), s)
    ensures Holds(w, s, agent, request, id, PENDING) && id in s.issued && id in s.reasons
    ensures s.escalations == map[] && s.deciding == map[] && s.marked == map[] && s.settling == map[]
            && s.submitting == map[]
  {
    hide Authorize, JudgedStore, Sound, Known, FullJustification, Evaluate;
    StartIsSound(w);
    s := Authorize(w, START, agent, request, id, t, t).0;
    var p := Authorize(w, START, agent, request, id, t, t).1;
    AuthorizeInTwoCases(w, START, agent, request, id, t, t);
    IsRuledEscalate(w, Create(START.store, Proposal(agent, request), id, t).actions, agent, request,
                    FullJustification(request), t);
    StoreIsMirrored(w, START);
    JudgedStoreHoldsTheAction(START, agent, request, id, t, p.value, t);
    TakesSoundly(w, START, Authorized(agent, request, id, t, t), s);
  }

  lemma IsRuledEscalate(w: World, actions: map<string, TreasuryAction>, agent: string, request: PaymentRequest,
                        justification: string, now: nat)
    requires IsEscalated(w, request)
    ensures var p := Evaluate(w, actions, agent, request, justification, now);
            p.Ok? && p.value.decision == ESCALATE
  {
    hide Evaluate, TodaysApprovedTotal, Normaliser.Analyse;
    PolicyDecides(w, actions, agent, request, justification, now);
  }

  lemma OwnedIsFound(w: World, s: State, agent: string, request: PaymentRequest, id: string, status: Status)
    requires Holds(w, s, agent, request, id, status)
    ensures OwnedAction(s, agent, id) == Ok(Known(s.store)[id])
    ensures Known(Cache(s.store, id)) == Known(s.store)
  {
    hide Sound, Known, Cache, Find;
    StoreIsMirrored(w, s);
    FindIsKnown(s.store, id);
    CacheKeepsKnown(s.store, id);
  }

  lemma ForIsValid(w: World, typedData: TypedData, request: PaymentRequest, a: TreasuryAction, now: nat)
    requires IsFor(w, typedData, request, now) && a.recipient == request.payTo && a.amount == request.amount
    ensures IsValidTypedData(w, typedData, a, now)
  {
    hide SameAddress;
  }

  function RowOf(s: State, typedData: TypedData, id: string, now: nat): Escalation
    requires id in s.reasons
  {
    Escalation(typedData, s.reasons[id], None, AwaitingSignature, now, now)
  }

  /** A submission, the first or a later one. */
  lemma SubmitStep(w: World, s: State, agent: string, request: PaymentRequest, id: string, typedData: TypedData,
                   task: nat, now: nat)
    returns (t: State)
    requires Holds(w, s, agent, request, id, PENDING) && id in s.reasons && task !in s.submitting
    requires IsFor(w, typedData, request, now)
    ensures SubmitEscalation(w, s, agent, id, typedData, task, now).1.Ok?
    ensures Takes(w, s, Submitted(agent, id, typedData, task, now), t)
    ensures Holds(w, t, agent, request, id, PENDING) && Known(t.store) == Known(s.store)
    ensures t == s.(store := t.store, escalations := s.escalations[id := RowOf(s, typedData, id, now)],
                    submitting := s.submitting[task := id])
  {
    hide Sound, Known, Cache, OwnedAction, IsFor, IsValidTypedData;
    OwnedIsFound(w, s, agent, request, id, PENDING);
    ForIsValid(w, typedData, request, Known(s.store)[id], now);
    t := SubmitEscalation(w, s, agent, id, typedData, task, now).0;
    TakesSoundly(w, s, Submitted(agent, id, typedData, task, now), t);
  }

  /** An approval suspended at the gate. */
  lemma ApproveStep(w: World, s: State, id: string, signature: string, task: nat, now: nat)
    returns (t: State)
    requires Sound(w, s) && IsAwaiting(s, id) && signature != "" && task !in s.deciding && task !in s.marked
    requires Signs(w, s.escalations[id].typedData, signature)
    requires var e := s.escalations[id].typedData.validBefore; e.Some? ==> e.value > (now / 1000) as real
    ensures Takes(w, s, ApprovalBegun(id, signature, task, now), t) && Sound(w, t)
    ensures t == s.(deciding := s.deciding[task := HumanDecision(id, signature, true)])
  {
    hide Sound, SameAddress;
    t := BeginApprove(w, s, id, signature, task, now).0;
    TakesSoundly(w, s, ApprovalBegun(id, signature, task, now), t);
  }

  /** It resumes and marks its row. */
  lemma MarkStep(w: World, s: State, id: string, task: nat, now: nat) returns (t: State)
    requires Sound(w, s) && task in s.deciding && s.deciding[task].actionId == id && id in s.escalations
    ensures Takes(w, s, RowMarked(task, true, now), t) && Sound(w, t)
    ensures var job := s.deciding[task];
            t == s.(deciding := s.deciding - {task}, marked := s.marked[task := job],
                    escalations := s.escalations[id := Marked(s.escalations[id], MarkOf(job), job.signature, now)])
    ensures MarkRow(s, task, true, now).1.Ok?
  {
    hide Sound;
    t := MarkRow(s, task, true, now).0;
    TakesSoundly(w, s, RowMarked(task, true, now), t);
  }

  /** And updates its action, whatever that is by then. */
  lemma ApprovedStep(w: World, s: State, agent: string, request: PaymentRequest, id: string, task: nat, status: Status,
                     now: nat)
    returns (t: State)
    requires Holds(w, s, agent, request, id, status)
    requires task in s.marked && s.marked[task].actionId == id && s.marked[task].isApproval
    ensures Takes(w, s, DecisionFinished(task, now), t)
    ensures Holds(w, t, agent, request, id, APPROVED)
    ensures t == s.(marked := s.marked - {task}, store := t.store)
    ensures Known(t.store)[id].txHash == Known(s.store)[id].txHash
  {
    hide Sound, Known, Decide, DecisionFits;
    t := FinishDecision(s, task, now);
    MarkedFits(w, s, task);
    DecisionUpdates(w, s, s.marked[task], now);
    TakesSoundly(w, s, DecisionFinished(task, now), t);
  }

  lemma MarkedFits(w: World, s: State, task: nat)
    requires Sound(w, s) && task in s.marked
    ensures DecisionFits(w, s, s.marked[task])
  {
    hide Known, Mirrored, AllInStep, JobsInStep, Scoped, DecisionFits;
  }

  function Job(w: World, request: PaymentRequest, id: string, txHash: string): Settlement {
    Settlement(id, txHash, request.asset, request.payTo, Units(w.env, request.amount))
  }

  /** A settlement suspended at its RPC call. */
  lemma SettleStep(w: World, s: State, agent: string, request: PaymentRequest, id: string, txHash: string, task: nat)
    returns (t: State)
    requires Holds(w, s, agent, request, id, APPROVED) && w.env.bigInt(request.amount).Some? && txHash != ""
    requires task !in s.settling
    ensures Takes(w, s, SettleBegun(agent, id, txHash, task), t)
    ensures Holds(w, t, agent, request, id, APPROVED) && Known(t.store) == Known(s.store)
    ensures t == s.(store := t.store, settling := s.settling[task := Job(w, request, id, txHash)])
  {
    hide Sound, Known, Cache, OwnedAction;
    OwnedIsFound(w, s, agent, request, id, APPROVED);
    t := BeginSettle(w, s, agent, id, txHash, task).0;
    TakesSoundly(w, s, SettleBegun(agent, id, txHash, task), t);
  }

  /** It is accepted. */
  lemma SettledStep(w: World, s: State, agent: string, request: PaymentRequest, id: string, txHash: string, task: nat,
                    receipt: Receipt, status: Status, now: nat)
    returns (t: State)
    requires Holds(w, s, agent, request, id, status) && txHash != ""
    requires task in s.settling && s.settling[task] == Job(w, request, id, txHash)
    requires Covers(w.env, receipt, request.asset, request.payTo, Units(w.env, request.amount))
    ensures Takes(w, s, SettleFinished(task, Some(receipt), now), t)
    ensures Holds(w, t, agent, request, id, EXECUTED) && Known(t.store)[id].txHash == Some(txHash)
    ensures t == s.(store := t.store, settling := s.settling - {task}, receipts := s.receipts[id := receipt])
  {
    hide Sound, Known, Covers, JobFits, Update, Find, FinishSettle;
    StoreIsMirrored(w, s);
    ResumedSettlement(w, s, task, Some(receipt), now);
    UpdateChangesOneAction(s.store, id, EXECUTED, Metadata(None, Some(txHash)), now);
    t := FinishSettle(w, s, task, Some(receipt), now).0;
    TakesSoundly(w, s, SettleFinished(task, Some(receipt), now), t);
  }

  // ---------------------------------------------------------------- the runs

  /** A payment escalated, its typed data submitted, and two approvals of it suspended at the gate. */
  lemma TwoApprovals(w: World, agent: string, request: PaymentRequest, typedData: TypedData, signature: string,
                     id: string, t: nat)
    returns (s1: State, s2: State, s3: State, s4: State)
    requires IsEscalated(w, request) && IsFor(w, typedData, request, t)
    requires Signs(w, typedData, signature) && signature != ""
    ensures Takes(w, START, Authorized(agent, request, id, t, t), s1)
    ensures Takes(w, s1, Submitted(agent, id, typedData, 0, t), s2)
    ensures Takes(w, s2, ApprovalBegun(id, signature, 1, t), s3)
    ensures Takes(w, s3, ApprovalBegun(id, signature, 2, t), s4)
    ensures Holds(w, s4, agent, request, id, PENDING) && id in s4.issued && IsAwaiting(s4, id)
    ensures s4.deciding == map[1 := HumanDecision(id, signature, true), 2 := HumanDecision(id, signature, true)]
    ensures s4.marked == map[] && s4.settling == map[]
  {
    hide Sound, Known, IsEscalated, Signs, Takes;
    s1 := EscalatedStep(w, agent, request, id, t);
    s2 := SubmitStep(w, s1, agent, request, id, typedData, 0, t);
    s3 := ApproveStep(w, s2, id, signature, 1, t);
    s4 := ApproveStep(w, s3, id, signature, 2, t);
  }

  /** The first of them goes through, and the payment is settled while the second still waits. */
  lemma SettledBeforeTheSecond(w: World, s4: State, agent: string, request: PaymentRequest, signature: string,
                               receipt: Receipt, id: string, h: string, t: nat)
    returns (s5: State, s6: State, s7: State, s8: State)
    requires Holds(w, s4, agent, request, id, PENDING) && id in s4.escalations && s4.marked == map[]
    requires s4.deciding == map[1 := HumanDecision(id, signature, true), 2 := HumanDecision(id, signature, true)]
    requires s4.settling == map[] && h != "" && w.env.bigInt(request.amount).Some?
    requires Covers(w.env, receipt, request.asset, request.payTo, Units(w.env, request.amount))
    ensures Takes(w, s4, RowMarked(1, true, t), s5)
    ensures Takes(w, s5, DecisionFinished(1, t), s6)
    ensures Takes(w, s6, SettleBegun(agent, id, h, 3), s7)
    ensures Takes(w, s7, SettleFinished(3, Some(receipt), t), s8)
    ensures Holds(w, s8, agent, request, id, EXECUTED) && Known(s8.store)[id].txHash == Some(h)
    ensures s8.deciding == map[2 := HumanDecision(id, signature, true)] && s8.marked == map[]
    ensures id in s8.escalations && s8.escalations[id].status == Signed && s8.issued == s4.issued
  {
    hide Sound, Known, Takes, Covers;
    s5 := MarkStep(w, s4, id, 1, t);
    s6 := ApprovedStep(w, s5, agent, request, id, 1, PENDING, t);
    s7 := SettleStep(w, s6, agent, request, id, h, 3);
    s8 := SettledStep(w, s7, agent, request, id, h, 3, receipt, APPROVED, t);
  }

  /** And then the second goes through as well. */
  lemma LateApproval(w: World, s8: State, agent: string, request: PaymentRequest, signature: string, id: string, t: nat)
    returns (s9: State, s10: State)
    requires Holds(w, s8, agent, request, id, EXECUTED) && id in s8.escalations && s8.marked == map[]
    requires s8.deciding == map[2 := HumanDecision(id, signature, true)]
    ensures Takes(w, s8, RowMarked(2, true, t), s9) && MarkRow(s8, 2, true, t).1.Ok?
    ensures s9.store == s8.store
    ensures Takes(w, s9, DecisionFinished(2, t), s10)
    ensures Holds(w, s10, agent, request, id, APPROVED) && Known(s10.store)[id].txHash == Known(s8.store)[id].txHash
  {
    hide Sound, Known, Takes;
    s9 := MarkStep(w, s8, id, 2, t);
    s10 := ApprovedStep(w, s9, agent, request, id, 2, EXECUTED, t);
  }

  /** An EXECUTED payment is set back to APPROVED by an approval that was suspended all along, and the step that is
      out of order is the update of its row. */
  lemma LateApprovalWitness(w: World, agent: string, request: PaymentRequest, typedData: TypedData, signature: string,
                            receipt: Receipt, id: string, h: string, t: nat)
    returns (trace: seq<State>, events: seq<Event>)
    requires IsEscalated(w, request) && IsFor(w, typedData, request, t)
    requires Signs(w, typedData, signature) && signature != "" && h != ""
    requires Covers(w.env, receipt, request.asset, request.payTo, Units(w.env, request.amount))
    ensures IsRun(w, trace, events) && |events| == 10
    ensures !IsInOrder(w, trace[8], events[8])
    ensures id in Known(trace[8].store) && Known(trace[8].store)[id].status == EXECUTED
    ensures id in Known(trace[10].store) && Known(trace[10].store)[id].status == APPROVED
  {
    hide Sound, Known, Takes, Covers, IsEscalated, Signs, IsFor, StepAt;
    EscalatedParses(w, request);
    var s1, s2, s3, s4 := TwoApprovals(w, agent, request, typedData, signature, id, t);
    var s5, s6, s7, s8 := SettledBeforeTheSecond(w, s4, agent, request, signature, receipt, id, h, t);
    var s9, s10 := LateApproval(w, s8, agent, request, signature, id, t);
    trace := [START, s1, s2, s3, s4, s5, s6, s7, s8, s9, s10];
    events := [Authorized(agent, request, id, t, t), Submitted(agent, id, typedData, 0, t),
               ApprovalBegun(id, signature, 1, t), ApprovalBegun(id, signature, 2, t), RowMarked(1, true, t),
               DecisionFinished(1, t), SettleBegun(agent, id, h, 3), SettleFinished(3, Some(receipt), t),
               RowMarked(2, true, t), DecisionFinished(2, t)];
    forall i | 0 <= i < |events| ensures StepAt(w, trace, events, i) {
      assert Takes(w, trace[i], events[i], trace[i + 1]);
      TakenAt(w, trace, events, i);
    }
  }

  lemma EscalatedParses(w: World, request: PaymentRequest)
    requires IsEscalated(w, request)
    ensures w.env.bigInt(request.amount).Some?
  {
  }

  /** Typed data is submitted again, with another expiry, before the first submission has resumed; an approval of
      the first data that waited meanwhile leaves a SIGNED row whose signature is not one over the row's data. */
  lemma OvertakingWitness(w: World, agent: string, request: PaymentRequest, first: TypedData, second: TypedData,
                          signature: string, id: string, t: nat)
    returns (trace: seq<State>, events: seq<Event>)
    requires IsEscalated(w, request) && IsFor(w, first, request, t) && IsFor(w, second, request, t)
    requires Signs(w, first, signature) && !Signs(w, second, signature) && signature != ""
    ensures IsRun(w, trace, events) && |events| == 6
    ensures events[1] == Submitted(agent, id, first, 0, t) && events[3] == Submitted(agent, id, second, 1, t)
    ensures !IsInOrder(w, trace[3], events[3])
    ensures id in trace[6].escalations
            && var e := trace[6].escalations[id];
               e.status == Signed && e.signature == Some(signature) && !Signs(w, e.typedData, signature)
    ensures id in Known(trace[6].store) && Known(trace[6].store)[id].status == APPROVED
  {
    hide Sound, Known, Takes, IsEscalated, Signs, StepAt, SubmitEscalation;
    var s1 := EscalatedStep(w, agent, request, id, t);
    var s2 := SubmitStep(w, s1, agent, request, id, first, 0, t);
    var s3 := ApproveStep(w, s2, id, signature, 1, t);
    var s4 := SubmitStep(w, s3, agent, request, id, second, 1, t);
    var s5 := MarkStep(w, s4, id, 1, t);
    var s6 := ApprovedStep(w, s5, agent, request, id, 1, PENDING, t);
    trace := [START, s1, s2, s3, s4, s5, s6];
    events := [Authorized(agent, request, id, t, t), Submitted(agent, id, first, 0, t),
               ApprovalBegun(id, signature, 1, t), Submitted(agent, id, second, 1, t), RowMarked(1, true, t),
               DecisionFinished(1, t)];
    forall i | 0 <= i < |events| ensures StepAt(w, trace, events, i) {
      assert Takes(w, trace[i], events[i], trace[i + 1]);
      TakenAt(w, trace, events, i);
    }
  }

  /** A process that ends between the two updates of an approval leaves a SIGNED row beside a PENDING action that no
      handler will touch. */
  lemma CutOffWitness(w: World, agent: string, request: PaymentRequest, typedData: TypedData, signature: string,
                      id: string, t: nat, early: set<string>)
    returns (trace: seq<State>, events: seq<Event>)
    requires IsEscalated(w, request) && IsFor(w, typedData, request, t)
    requires Signs(w, typedData, signature) && signature != ""
    ensures IsRun(w, trace, events) && |events| == 5 && events[4] == Restarted(early)
    ensures !IsInOrder(w, trace[4], events[4])
    ensures var s := trace[5];
            && id in s.escalations && s.escalations[id].status == Signed
            && id in Known(s.store) && Known(s.store)[id].status == PENDING
            && s.reasons == map[] && s.deciding == map[] && s.marked == map[]
  {
    hide Sound, Known, Takes, IsEscalated, Signs, StepAt;
    var s1 := EscalatedStep(w, agent, request, id, t);
    var s2 := SubmitStep(w, s1, agent, request, id, typedData, 0, t);
    var s3 := ApproveStep(w, s2, id, signature, 1, t);
    var s4 := MarkStep(w, s3, id, 1, t);
    var s5 := RestartStep(w, s4, early);
    trace := [START, s1, s2, s3, s4, s5];
    events := [Authorized(agent, request, id, t, t), Submitted(agent, id, typedData, 0, t),
               ApprovalBegun(id, signature, 1, t), RowMarked(1, true, t), Restarted(early)];
    assert 1 in s4.marked;
    forall i | 0 <= i < |events| ensures StepAt(w, trace, events, i) {
      assert Takes(w, trace[i], events[i], trace[i + 1]);
      TakenAt(w, trace, events, i);
    }
  }

  lemma RestartStep(w: World, s: State, early: set<string>) returns (t: State)
    requires Sound(w, s)
    ensures Takes(w, s, Restarted(early), t) && t == AfterRestart(s, t.store)
    ensures Known(t.store).Keys == Known(s.store).Keys
    ensures forall k :: k in Known(s.store) ==>
              Known(t.store)[k] == Known(s.store)[k].(riskScore := 0, requiresHumanApproval := false)
  {
    hide Sound, Known, Restart;
    StoreIsMirrored(w, s);
    RestartKeepsKnown(s.store, early);
    t := AfterRestart(s, Restart(s.store.table, early));
  }

  // ---------------------------------------------------------------- an example to run them on

  const EXAMPLE_REQUEST := PaymentRequest("", "base-sepolia", "usdc", "shop", "6", "")

  const FIRST_DATA := TypedData("TransferWithAuthorization", Some("usdc"), Some(CHAIN_ID), Some("ledger"),
                                Some("shop"), "6", Some(1.0))

  const SECOND_DATA := FIRST_DATA.(validBefore := Some(2.0))

  const EXAMPLE_RECEIPT := Receipt(1, [Log("usdc", Some(Transfer("shop", 6)))])

  /** Six units, of which five may be spent without the approver, who signs the first typed data alone. */
  const EXAMPLE_WORLD := World(
    Env((a: string) => Some(a), (n: string) => Some(6)),
    Config("base-sepolia", "usdc", ["shop"], 5, 10, "ledger"),
    (t: TypedData, signature: string) => Some(if t.validBefore == Some(1.0) then "ledger" else "other"),
    (text: string, signature: string) => Some("ledger"))

  lemma ExampleIsEscalated()
    ensures IsEscalated(EXAMPLE_WORLD, EXAMPLE_REQUEST)
    ensures IsFor(EXAMPLE_WORLD, FIRST_DATA, EXAMPLE_REQUEST, 0)
    ensures IsFor(EXAMPLE_WORLD, SECOND_DATA, EXAMPLE_REQUEST, 0)
    ensures Signs(EXAMPLE_WORLD, FIRST_DATA, "signature") && !Signs(EXAMPLE_WORLD, SECOND_DATA, "signature")
    ensures Covers(EXAMPLE_WORLD.env, EXAMPLE_RECEIPT, EXAMPLE_REQUEST.asset, EXAMPLE_REQUEST.payTo,
                   Units(EXAMPLE_WORLD.env, EXAMPLE_REQUEST.amount))
  {
    var log := Log("usdc", Some(Transfer("shop", 6)));
    assert [log][..0] == [];
    assert Transferred(EXAMPLE_WORLD.env, [log], Some("usdc"), Some("shop")) == 6;
  }
}
