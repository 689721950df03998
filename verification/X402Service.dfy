/** The x402 service itself: handlers updating the action store, the escalation table and the pending
    reasons step by step, each proved to do what X402 specifies. */
module X402Service {
  import opened Common
  import opened ActionStore
  import opened Normaliser
  import opened X402

  class X402PaymentsService {
    const world: World
    const actionStore: ActionStoreService
    var escalationReasons: map<string, seq<Reason>>
    var escalations: map<string, Escalation>
    var submitting: map<nat, string>
    var deciding: map<nat, HumanDecision>
    var marked: map<nat, HumanDecision>
    var settling: map<nat, Settlement>
    ghost var issued: set<string>
    ghost var rulings: map<string, Ruling>
    ghost var receipts: map<string, Receipt>

    ghost function View(): State
      reads this, actionStore
    {
      State(actionStore.View(), escalationReasons, escalations, submitting, deciding, marked, settling, issued,
            rulings, receipts)
    }

    /** A service over a store and an escalation table; the last three parameters are what earlier
        processes did. */
    constructor (w: World, store: ActionStoreService, rows: map<string, Escalation>,
                 ghost issuedBefore: set<string>, ghost ruledBefore: map<string, Ruling>,
                 ghost receiptsBefore: map<string, Receipt>)
      ensures world == w && actionStore == store
      ensures View() == State(store.View(), map[], rows, map[], map[], map[], map[], issuedBefore, ruledBefore,
                              receiptsBefore)
    {
      world := w;
      actionStore := store;
      escalationReasons := map[];
      escalations := rows;
      submitting, deciding, marked, settling := map[], map[], map[], map[];
      issued := issuedBefore;
      rulings := ruledBefore;
      receipts := receiptsBefore;
    }

    // -------------------------------------------------------------- spending policy

    method GetTodaysApprovedTotal(agent: string, now: nat) returns (total: Option<int>)
      ensures total == TodaysApprovedTotal(world.env, actionStore.actions, agent, now)
    {
      total := SumCounted(world.env, actionStore.actions, agent, (now / DAY_MS) * DAY_MS);
    }

    static method SumCounted(env: Env, actions: map<string, TreasuryAction>, agent: string, since: nat)
      returns (total: Option<int>)
      ensures total == if CountedParse(env, actions, agent, since)
              then Some(Sum(Counted(env, actions, agent, since))) else None
    {
      hide Counted, IsCounted, CountedParse, ParseOutside, Sum;
      var sum := 0;
      var todo := actions.Keys;
      NothingCounted(env, actions, agent, since);
      while todo != {}
        invariant todo <= actions.Keys
        invariant sum == Sum(Counted(env, actions, agent, since) - todo)
        invariant ParseOutside(env, actions, agent, since, todo)
        decreases |todo|
      {
        var id :| id in todo;
        CountOne(env, actions, agent, since, todo, id);
        if IsCounted(actions[id], agent, since) {
          var amount := env.bigInt(actions[id].amount);
          if amount.None? {
            return None;
          }
          sum := sum + amount.value;
        }
        todo := todo - {id};
      }
      AllCounted(env, actions, agent, since);
      total := Some(sum);
    }

    /** The counted amounts outside `todo` parse. */
    static ghost predicate ParseOutside(env: Env, actions: map<string, TreasuryAction>, agent: string, since: nat,
                                        todo: set<string>)
    {
      forall k :: k in actions && k !in todo && IsCounted(actions[k], agent, since) ==>
        env.bigInt(actions[k].amount).Some?
    }

    static lemma AllCounted(env: Env, actions: map<string, TreasuryAction>, agent: string, since: nat)
      ensures Counted(env, actions, agent, since) - {} == Counted(env, actions, agent, since)
      ensures ParseOutside(env, actions, agent, since, {}) <==> CountedParse(env, actions, agent, since)
    {
      hide IsCounted;
    }

    static lemma NothingCounted(env: Env, actions: map<string, TreasuryAction>, agent: string, since: nat)
      ensures Sum(Counted(env, actions, agent, since) - actions.Keys) == 0
      ensures ParseOutside(env, actions, agent, since, actions.Keys)
    {
      assert Counted(env, actions, agent, since) - actions.Keys == map[];
    }

    static lemma CountOne(env: Env, actions: map<string, TreasuryAction>, agent: string, since: nat, todo: set<string>,
                          id: string)
      requires id in todo && todo <= actions.Keys
      ensures Sum(Counted(env, actions, agent, since) - (todo - {id}))
              == Sum(Counted(env, actions, agent, since) - todo)
           + if IsCounted(actions[id], agent, since) then Units(env, actions[id].amount) else 0
      ensures IsCounted(actions[id], agent, since) && env.bigInt(actions[id].amount).None? ==>
                !CountedParse(env, actions, agent, since)
      ensures ParseOutside(env, actions, agent, since, todo)
              && !(IsCounted(actions[id], agent, since) && env.bigInt(actions[id].amount).None?) ==>
                ParseOutside(env, actions, agent, since, todo - {id})
    {
      var counted := Counted(env, actions, agent, since);
      if id in counted {
        SumWithout(counted, todo, id);
      } else {
        assert counted - (todo - {id}) == counted - todo;
      }
    }

    method EvaluatePolicy(agent: string, request: PaymentRequest, justification: string, now: nat)
      returns (p: Result<PolicyDecision, Error>)
      ensures p == Evaluate(world, actionStore.actions, agent, request, justification, now)
    {
      if request.network != world.config.network {
        return Ok(PolicyDecision(BLOCK, 100, [NetworkNotApproved]));
      }
      var normalizedAsset := world.env.getAddress(request.asset);
      var normalizedPayTo := world.env.getAddress(request.payTo);
      if normalizedAsset.None? || normalizedPayTo.None? {
        return Ok(PolicyDecision(BLOCK, 100, [MalformedAddress]));
      }
      if normalizedAsset != world.env.getAddress(world.config.usdcAddress) {
        return Ok(PolicyDecision(BLOCK, 100, [AssetNotApproved]));
      }
      if normalizedPayTo.value !in world.config.approvedPayTo {
        return Ok(PolicyDecision(BLOCK, 100, [PayeeNotApproved]));
      }
      var amount := world.env.bigInt(request.amount);
      if amount.None? {
        return Err(SyntaxError);
      }
      var draft := PolicyDecision(ALLOW, 10, []);
      if amount.value > world.config.autonomousLimit {
        draft := PolicyDecision(ESCALATE, 60, [ExceedsAutonomousLimit]);
      } else {
        var todaysTotal := GetTodaysApprovedTotal(agent, now);
        if todaysTotal.None? {
          return Err(SyntaxError);
        }
        if todaysTotal.value + amount.value > world.config.dailyLimit {
          draft := PolicyDecision(ESCALATE, 60, [ExceedsDailyLimit]);
        }
      }
      var sharpened := ApplySemantics(draft, justification);
      p := Ok(sharpened);
    }

    static method ApplySemantics(draft: PolicyDecision, justification: string) returns (p: PolicyDecision)
      ensures p == Sharpen(draft, Analyse(justification))
    {
      var semantic := PerformMultiLayerSemanticAnalysis(justification);
      var decision, riskScore, reasons := draft.decision, draft.riskScore, draft.reasons;
      if |semantic.detectedIntents| > 0 {
        reasons := reasons + [AdversarialJustification(semantic.detectedIntents)];
        riskScore := Max(riskScore, semantic.riskScore);
        if decision == ALLOW {
          decision := ESCALATE;
        }
      }
      if decision == ALLOW {
        reasons := reasons + [Complies];
      }
      p := PolicyDecision(decision, riskScore, reasons);
    }

    // -------------------------------------------------------------- agent handlers

    method AuthorizePayment(agent: string, request: PaymentRequest, id: string, createdAt: nat, evaluatedAt: nat)
      returns (reply: Result<PolicyDecision, Error>)
      modifies this, actionStore
      ensures (View(), reply) == Authorize(world, old(View()), agent, request, id, createdAt, evaluatedAt)
    {
      hide Evaluate, Create, Annotate, Update;
      var fullJustification := PREFIX + request.resourceUrl + " | " + request.justification;
      var _ := actionStore.CreateAction(
        ProposeAction(request.asset, "0", "0x", request.asset, request.payTo, request.amount, agent, fullJustification),
        id, createdAt);
      issued := issued + {id};
      reply := EvaluatePolicy(agent, request, fullJustification, evaluatedAt);
      if reply.Err? {
        return;
      }
      var policy := reply.value;
      CreatedIsStored(old(actionStore.View()), Proposal(agent, request), id, createdAt);
      actionStore.SetVerdict(id, policy.riskScore, policy.decision != ALLOW);
      rulings := rulings[id := Ruling(policy.decision, ToLower(agent), createdAt, Units(world.env, request.amount))];
      if policy.decision == BLOCK {
        var _ := actionStore.UpdateStatus(id, REJECTED, NO_METADATA, evaluatedAt);
      } else if policy.decision == ESCALATE {
        var _ := actionStore.UpdateStatus(id, PENDING, NO_METADATA, evaluatedAt);
        escalationReasons := escalationReasons[id := policy.reasons];
      } else {
        var _ := actionStore.UpdateStatus(id, APPROVED, NO_METADATA, evaluatedAt);
      }
    }

    lemma CreatedIsStored(s: Store, dto: ProposeAction, id: string, now: nat)
      ensures id in Create(s, dto, id, now).actions
    {
    }

    method GetOwnedAction(agent: string, id: string) returns (owned: Result<TreasuryAction, Error>)
      modifies actionStore`actions
      ensures owned == OwnedAction(old(View()), agent, id)
      ensures actionStore.View() == Cache(old(actionStore.View()), id)
    {
      var found := actionStore.GetAction(id);
      if found.None? {
        return Err(NotFound);
      }
      if ToLower(found.value.agentAddress) != ToLower(agent) {
        return Err(Forbidden);
      }
      owned := Ok(found.value);
    }

    method IsValidSubmission(typedData: TypedData, action: TreasuryAction, now: nat) returns (valid: bool)
      ensures valid <==> IsValidTypedData(world, typedData, action, now)
    {
      if typedData.primaryType != "TransferWithAuthorization" {
        return false;
      }
      if !SameAddress(world.env, typedData.verifyingContract, world.config.usdcAddress) {
        return false;
      }
      if typedData.chainId != Some(84532) {
        return false;
      }
      if !SameAddress(world.env, typedData.from, world.config.ledgerApproverAddress) {
        return false;
      }
      if !SameAddress(world.env, typedData.to, action.recipient) {
        return false;
      }
      if typedData.value != action.amount {
        return false;
      }
      if typedData.validBefore.None? || typedData.validBefore.value <= (now / 1000) as real {
        return false;
      }
      valid := true;
    }

    /** The stretch of `submitEscalation` before the await of its insert. */
    method SubmitForApproval(agent: string, id: string, typedData: TypedData, task: nat, now: nat)
      returns (reply: Result<EscalationStatus, Error>)
      modifies this, actionStore`actions
      ensures (View(), reply) == SubmitEscalation(world, old(View()), agent, id, typedData, task, now)
    {
      hide Cache, Find;
      var owned := GetOwnedAction(agent, id);
      if owned.Err? {
        return Err(owned.error);
      }
      if owned.value.status != PENDING {
        return Err(BadRequest);
      }
      var valid := IsValidSubmission(typedData, owned.value, now);
      if !valid {
        return Err(BadRequest);
      }
      if id !in escalationReasons {
        return Err(BadRequest);
      }
      escalations := escalations[id := Escalation(typedData, escalationReasons[id], None, AwaitingSignature, now, now)];
      submitting := submitting[task := id];
      reply := Ok(AwaitingSignature);
    }

    /** The stretch after it. */
    method FinishSubmission(task: nat)
      requires task in submitting
      modifies this
      ensures View() == FinishSubmit(old(View()), task)
    {
      escalationReasons := escalationReasons - {submitting[task]};
      submitting := submitting - {task};
    }

    /** The stretch of `settle` before its RPC call. */
    method BeginSettlement(agent: string, id: string, txHash: string, task: nat) returns (reply: Result<bool, Error>)
      modifies this, actionStore`actions
      ensures (View(), reply) == BeginSettle(world, old(View()), agent, id, txHash, task)
    {
      hide Cache, Find;
      if txHash == "" {
        return Err(BadRequest);
      }
      var owned := GetOwnedAction(agent, id);
      if owned.Err? {
        return Err(owned.error);
      }
      var action := owned.value;
      if action.status != APPROVED {
        return Err(BadRequest);
      }
      var minimumAmount := world.env.bigInt(action.amount);
      if minimumAmount.None? {
        return Err(SyntaxError);
      }
      settling := settling[task := Settlement(id, txHash, action.token, action.recipient, minimumAmount.value)];
      reply := Ok(true);
    }

    /** Sums the decoded transfers of the token to the recipient. */
    static method VerifyTokenTransfer(env: Env, lookup: Option<Receipt>, token: string, recipient: string,
                                      minimumAmount: int)
      returns (verified: Result<bool, Error>)
      ensures verified == VerifyTransfer(env, lookup, token, recipient, minimumAmount)
    {
      if lookup.None? {
        return Ok(false);
      }
      var receipt := lookup.value;
      if receipt.status != 1 {
        return Ok(false);
      }
      var expectedToken := env.getAddress(token);
      if expectedToken.None? {
        return Err(Malformed);
      }
      var expectedRecipient := env.getAddress(recipient);
      if expectedRecipient.None? {
        return Err(Malformed);
      }
      var transferredAmount: nat := 0;
      for i := 0 to |receipt.logs|
        invariant transferredAmount == Transferred(env, receipt.logs[..i], expectedToken, expectedRecipient)
      {
        var log := receipt.logs[i];
        assert receipt.logs[..i + 1][..i] == receipt.logs[..i];
        if env.getAddress(log.address) != expectedToken {
          continue;
        }
        if log.transfer.None? {
          continue;
        }
        if env.getAddress(log.transfer.value.to) != expectedRecipient {
          continue;
        }
        transferredAmount := transferredAmount + log.transfer.value.value;
      }
      assert receipt.logs[..|receipt.logs|] == receipt.logs;
      verified := Ok(transferredAmount >= minimumAmount);
    }

    /** The stretch of `settle` from the RPC answer on. */
    method FinishSettlement(task: nat, lookup: Option<Receipt>, now: nat) returns (reply: Result<bool, Error>)
      modifies this, actionStore
      ensures (View(), reply) == FinishSettle(world, old(View()), task, lookup, now)
    {
      hide VerifyTransfer, Covers, Update;
      if task !in settling {
        return Err(NotFound);
      }
      var job := settling[task];
      settling := settling - {task};
      var verified := VerifyTokenTransfer(world.env, lookup, job.token, job.recipient, job.minimumAmount);
      if verified.Err? {
        return Err(verified.error);
      }
      if !verified.value {
        return Err(BadRequest);
      }
      var _ := actionStore.UpdateStatus(job.actionId, EXECUTED, Metadata(None, Some(job.txHash)), now);
      receipts := receipts[job.actionId := lookup.value];
      reply := Ok(true);
    }

    // -------------------------------------------------------------- approver handlers

    /** The stretch of `approveWithSignature` before the World ID gate. */
    method BeginApproval(id: string, signature: string, task: nat, now: nat) returns (reply: Result<bool, Error>)
      modifies this`deciding
      ensures (View(), reply) == BeginApprove(world, old(View()), id, signature, task, now)
    {
      if signature == "" {
        return Err(BadRequest);
      }
      if id !in escalations || escalations[id].status != AwaitingSignature {
        return Err(NotFound);
      }
      var escalation := escalations[id];
      if escalation.typedData.validBefore.Some? && escalation.typedData.validBefore.value <= (now / 1000) as real {
        return Err(BadRequest);
      }
      var recovered := world.recoverTyped(escalation.typedData, signature);
      if recovered.None? {
        return Err(Unauthorized);
      }
      if !SameAddress(world.env, recovered, world.config.ledgerApproverAddress) {
        return Err(Unauthorized);
      }
      deciding := deciding[task := HumanDecision(id, signature, true)];
      reply := Ok(true);
    }

    /** The stretch of `rejectWithSignature` before the update of the row. */
    method BeginRejection(id: string, signature: string, task: nat) returns (reply: Result<bool, Error>)
      modifies this`deciding
      ensures (View(), reply) == BeginReject(world, old(View()), id, signature, task)
    {
      if signature == "" {
        return Err(BadRequest);
      }
      if id !in escalations || escalations[id].status != AwaitingSignature {
        return Err(NotFound);
      }
      var recovered := world.recoverText("chapter2-reject:" + id, signature);
      if recovered.None? {
        return Err(Unauthorized);
      }
      if !SameAddress(world.env, recovered, world.config.ledgerApproverAddress) {
        return Err(Unauthorized);
      }
      deciding := deciding[task := HumanDecision(id, signature, false)];
      reply := Ok(true);
    }

    /** The update of the row in either handler, after the gate in the approval's. */
    method MarkEscalation(task: nat, worldIdOk: bool, now: nat) returns (reply: Result<EscalationStatus, Error>)
      requires task in deciding
      modifies this
      ensures (View(), reply) == MarkRow(old(View()), task, worldIdOk, now)
    {
      var job := deciding[task];
      deciding := deciding - {task};
      if job.isApproval {
        if !worldIdOk {
          return Err(Forbidden);
        }
        UpdateEscalation(job.actionId, Signed, job.signature, now);
        reply := Ok(Signed);
      } else {
        UpdateEscalation(job.actionId, Refused, job.signature, now);
        reply := Ok(Refused);
      }
      marked := marked[task := job];
    }

    /** The last stretch of either handler: the action's update. */
    method FinishHumanDecision(task: nat, now: nat)
      requires task in marked
      modifies this`marked, actionStore
      ensures View() == FinishDecision(old(View()), task, now)
    {
      hide Update;
      var job := marked[task];
      marked := marked - {task};
      if job.isApproval {
        var _ := actionStore.UpdateStatus(job.actionId, APPROVED, Metadata(Some(job.signature), None), now);
      } else {
        var _ := actionStore.UpdateStatus(job.actionId, REJECTED, NO_METADATA, now);
      }
    }

    /** `UPDATE x402_escalations SET status, signature, updated_at WHERE action_id`. */
    method UpdateEscalation(id: string, status: EscalationStatus, signature: string, now: nat)
      modifies this`escalations
      ensures escalations == if id in old(escalations)
                             then old(escalations)[id := Marked(old(escalations)[id], status, signature, now)]
                             else old(escalations)
    {
      if id in escalations {
        var row := escalations[id].(status := status, updatedAt := now);
        row := row.(signature := if signature == "" then None else Some(signature));
        escalations := escalations[id := row];
      }
    }

    method GetPaymentStatus(agent: string, id: string) returns (reply: Result<PaymentStatus, Error>)
      modifies actionStore`actions
      ensures View() == old(View()).(store := Cache(old(View()).store, id))
      ensures reply == match OwnedAction(old(View()), agent, id)
                       case Err(e) => Err(e)
                       case Ok(a) => Ok(PaymentStatus(DeriveDecision(a.status, id in escalations), a.status,
                                                      if id in escalations then Some(escalations[id].status) else None,
                                                      a.signature))
    {
      var owned := GetOwnedAction(agent, id);
      if owned.Err? {
        return Err(owned.error);
      }
      var action := owned.value;
      var decision := BLOCK;
      var escalationStatus: Option<EscalationStatus> := None;
      if action.status == APPROVED || action.status == EXECUTED {
        decision := ALLOW;
      } else if action.status == PENDING {
        decision := ESCALATE;
      } else if id in escalations {
        decision := ESCALATE;
      }
      if id in escalations {
        escalationStatus := Some(escalations[id].status);
      }
      reply := Ok(PaymentStatus(decision, action.status, escalationStatus, action.signature));
    }
  }
}
