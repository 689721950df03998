/** What each handler of the x402 rail answers and leaves behind, case by case, in terms of what is stored and of
    literal values. */
module X402Handlers {
  import opened Common
  import opened ActionStore
  import opened X402
  import opened X402Proofs
  import Normaliser

  /** Whose action it is, and whether there is one. */
  lemma OwnerAnswers(s: State, agent: string, id: string)
    requires Mirrored(s.store)
    ensures OwnedAction(s, agent, id)
            == if id !in Known(s.store) then Err(NotFound)
               else if ToLower(Known(s.store)[id].agentAddress) != ToLower(agent) then Err(Forbidden)
               else Ok(Known(s.store)[id])
    ensures Known(Cache(s.store, id)) == Known(s.store)
  {
    FindIsKnown(s.store, id);
    CacheKeepsKnown(s.store, id);
    hide Mirrored, Known, Cache, Find;
  }

  // ---------------------------------------------------------------- submitEscalation

  /** The typed data of exactly one transfer, at the literal values it must have. */
  lemma TypedDataFitsIff(w: World, t: TypedData, a: TreasuryAction, now: nat)
    ensures IsValidTypedData(w, t, a, now)
            <==> && t.primaryType == "TransferWithAuthorization" && t.chainId == Some(84532)
                 && t.verifyingContract.Some? && w.env.getAddress(t.verifyingContract.value).Some?
                 && w.env.getAddress(t.verifyingContract.value) == w.env.getAddress(w.config.usdcAddress)
                 && t.from.Some? && w.env.getAddress(t.from.value).Some?
                 && w.env.getAddress(t.from.value) == w.env.getAddress(w.config.ledgerApproverAddress)
                 && t.to.Some? && w.env.getAddress(t.to.value).Some?
                 && w.env.getAddress(t.to.value) == w.env.getAddress(a.recipient)
                 && t.value == a.amount
                 && t.validBefore.Some? && t.validBefore.value > (now / 1000) as real
  {
  }

  /** Typed data is accepted exactly from the owner of a PENDING action whose reasons wait, if type, chain, contract,
      sender, recipient, value and expiry all fit; then its row is the one new thing. */
  lemma SubmissionAnswers(w: World, s: State, agent: string, id: string, t: TypedData, task: nat, now: nat)
    requires Mirrored(s.store)
    ensures var (after, reply) := SubmitEscalation(w, s, agent, id, t, task, now);
            var known, address := Known(s.store), w.env.getAddress;
            && Known(after.store) == known
            && after == s.(store := after.store, escalations := after.escalations, submitting := after.submitting)
            && (reply == Err(NotFound) <==> id !in known)
            && (reply == Err(Forbidden) <==> id in known && ToLower(known[id].agentAddress) != ToLower(agent))
            && (reply.Ok? <==>
                  && id in known && ToLower(known[id].agentAddress) == ToLower(agent)
                  && known[id].status == PENDING && id in s.reasons
                  && t.primaryType == "TransferWithAuthorization" && t.chainId == Some(84532)
                  && t.verifyingContract.Some? && address(t.verifyingContract.value).Some?
                  && address(t.verifyingContract.value) == address(w.config.usdcAddress)
                  && t.from.Some? && address(t.from.value).Some?
                  && address(t.from.value) == address(w.config.ledgerApproverAddress)
                  && t.to.Some? && address(t.to.value).Some?
                  && address(t.to.value) == address(known[id].recipient)
                  && t.value == known[id].amount
                  && t.validBefore.Some? && t.validBefore.value > (now / 1000) as real)
            && (reply.Err? ==>
                  && (reply.error == NotFound || reply.error == Forbidden || reply.error == BadRequest)
                  && after.escalations == s.escalations && after.submitting == s.submitting)
            && (reply.Ok? ==>
                  && reply.value == AwaitingSignature
                  && after.escalations == s.escalations[id := Escalation(t, s.reasons[id], None, AwaitingSignature, now,
                                                                         now)]
                  && after.submitting == s.submitting[task := id])
  {
    hide Mirrored, Known, Cache, OwnedAction, IsValidTypedData, ToLower;
    OwnerAnswers(s, agent, id);
    if id in Known(s.store) {
      TypedDataFitsIff(w, t, Known(s.store)[id], now);
    }
  }

  /** Its second stretch uses the reasons up, and nothing else. */
  lemma SubmissionEnds(s: State, task: nat)
    requires task in s.submitting
    ensures var after := FinishSubmit(s, task);
            && s.submitting[task] !in after.reasons
            && (forall k :: k != s.submitting[task] ==> At(after.reasons, k) == At(s.reasons, k))
            && after == s.(reasons := after.reasons, submitting := s.submitting - {task})
  {
  }

  // ---------------------------------------------------------------- settle

  /** A settlement begins exactly for the owner of an APPROVED action with a parsable amount and a hash; what is
      checked later is the transfer as it is stored now. */
  lemma SettlementBegins(w: World, s: State, agent: string, id: string, txHash: string, task: nat)
    requires Mirrored(s.store)
    ensures var (after, reply) := BeginSettle(w, s, agent, id, txHash, task);
            var known := Known(s.store);
            && Known(after.store) == known
            && after == s.(store := after.store, settling := after.settling)
            && (reply == Err(NotFound) <==> txHash != "" && id !in known)
            && (reply == Err(Forbidden) <==>
                  txHash != "" && id in known && ToLower(known[id].agentAddress) != ToLower(agent))
            && (reply == Err(SyntaxError) <==>
                  && txHash != "" && id in known && ToLower(known[id].agentAddress) == ToLower(agent)
                  && known[id].status == APPROVED && w.env.bigInt(known[id].amount).None?)
            && (reply.Ok? <==>
                  && txHash != "" && id in known && ToLower(known[id].agentAddress) == ToLower(agent)
                  && known[id].status == APPROVED && w.env.bigInt(known[id].amount).Some?)
            && (reply.Err? ==>
                  && (reply.error == NotFound || reply.error == Forbidden || reply.error == SyntaxError
                      || reply.error == BadRequest)
                  && after.settling == s.settling)
            && (reply.Ok? ==>
                  after.settling
                  == s.settling[task := Settlement(id, txHash, known[id].token, known[id].recipient,
                                                   w.env.bigInt(known[id].amount).value)])
  {
    hide Mirrored, Known, Cache, OwnedAction, ToLower;
    OwnerAnswers(s, agent, id);
  }

  /** It ends as EXECUTED on its hash exactly when the receipt is a success whose transfers of the token to the
      recipient add up to the amount; otherwise nothing is written. */
  lemma SettlementEnds(w: World, s: State, task: nat, lookup: Option<Receipt>, now: nat)
    requires Mirrored(s.store) && task in s.settling
    ensures var (after, reply) := FinishSettle(w, s, task, lookup, now);
            var job, address := s.settling[task], w.env.getAddress;
            && (reply == Ok(true) <==>
                  && lookup.Some? && lookup.value.status == 1
                  && address(job.token).Some? && address(job.recipient).Some?
                  && var logs := lookup.value.logs;
                     Sum(map i | 0 <= i < |logs| && address(logs[i].address) == address(job.token)
                                 && logs[i].transfer.Some?
                                 && address(logs[i].transfer.value.to) == address(job.recipient)
                           :: logs[i].transfer.value.value as int) >= job.minimumAmount)
            && (reply == Err(Malformed) <==>
                  && lookup.Some? && lookup.value.status == 1
                  && (address(job.token).None? || address(job.recipient).None?))
            && (reply != Ok(true) ==>
                  && (reply == Err(Malformed) || reply == Err(BadRequest))
                  && after == s.(settling := s.settling - {task}))
            && (reply == Ok(true) ==>
                  && after == s.(settling := s.settling - {task}, store := after.store, receipts := after.receipts)
                  && after.receipts == s.receipts[job.actionId := lookup.value]
                  && Mirrored(after.store)
                  && ChangedOnly(Known(s.store), Known(after.store), job.actionId)
                  && (job.actionId in Known(s.store) ==>
                        && Known(after.store)[job.actionId].status == EXECUTED
                        && (job.txHash != "" ==> Known(after.store)[job.actionId].txHash == Some(job.txHash))
                        && Known(after.store)[job.actionId].signature == Known(s.store)[job.actionId].signature))
  {
    var job := s.settling[task];
    TransferVerifiedIff(w.env, lookup, job.token, job.recipient, job.minimumAmount);
    UpdateKeepsMirrored(s.store, job.actionId, EXECUTED, Metadata(None, Some(job.txHash)), now);
    UpdateChangesOneAction(s.store, job.actionId, EXECUTED, Metadata(None, Some(job.txHash)), now);
    hide Mirrored, Known, Update, VerifyTransfer, Covers, Sum, Transferred, SameRequest;
  }

  // ---------------------------------------------------------------- approveWithSignature, rejectWithSignature

  /** An approval gets to the World ID gate exactly with the approver's signature over the typed data of a row that
      still waits and has not expired. */
  lemma ApprovalBegins(w: World, s: State, id: string, signature: string, task: nat, now: nat)
    ensures var (after, reply) := BeginApprove(w, s, id, signature, task, now);
            var waits := id in s.escalations && s.escalations[id].status == AwaitingSignature;
            && (reply == Err(NotFound) <==> signature != "" && !waits)
            && (reply == Err(BadRequest) <==>
                  || signature == ""
                  || (&& waits && s.escalations[id].typedData.validBefore.Some?
                      && s.escalations[id].typedData.validBefore.value <= (now / 1000) as real))
            && (reply.Ok? <==>
                  && signature != "" && waits
                  && var t := s.escalations[id].typedData;
                     var signer := w.recoverTyped(t, signature);
                     && (t.validBefore.Some? ==> t.validBefore.value > (now / 1000) as real)
                     && signer.Some? && w.env.getAddress(signer.value).Some?
                     && w.env.getAddress(signer.value) == w.env.getAddress(w.config.ledgerApproverAddress))
            && (reply.Err? ==>
                  && (reply.error == NotFound || reply.error == BadRequest || reply.error == Unauthorized)
                  && after == s)
            && (reply.Ok? ==> after == s.(deciding := s.deciding[task := HumanDecision(id, signature, true)]))
  {
  }

  /** A rejection gets to the row's update exactly with the approver's signature over the rejection message of a row
      that still waits. */
  lemma RejectionBegins(w: World, s: State, id: string, signature: string, task: nat)
    ensures var (after, reply) := BeginReject(w, s, id, signature, task);
            var waits := id in s.escalations && s.escalations[id].status == AwaitingSignature;
            var signer := w.recoverText("chapter2-reject:" + id, signature);
            && (reply == Err(BadRequest) <==> signature == "")
            && (reply == Err(NotFound) <==> signature != "" && !waits)
            && (reply.Ok? <==>
                  && signature != "" && waits
                  && signer.Some? && w.env.getAddress(signer.value).Some?
                  && w.env.getAddress(signer.value) == w.env.getAddress(w.config.ledgerApproverAddress))
            && (reply.Err? ==>
                  && (reply.error == NotFound || reply.error == BadRequest || reply.error == Unauthorized)
                  && after == s)
            && (reply.Ok? ==> after == s.(deciding := s.deciding[task := HumanDecision(id, signature, false)]))
  {
  }

  /** The gate stops an approval it does not pass, which then leaves everything as it is. What passes, and every
      rejection, marks the row, if there is one, and no other. */
  lemma GateDecides(s: State, task: nat, isPassed: bool, now: nat)
    requires task in s.deciding
    ensures var (after, reply) := MarkRow(s, task, isPassed, now);
            var job := s.deciding[task];
            && (job.isApproval && !isPassed ==>
                  reply == Err(Forbidden) && after == s.(deciding := s.deciding - {task}))
            && (!job.isApproval || isPassed ==>
                  && reply == Ok(if job.isApproval then Signed else Refused)
                  && after == s.(deciding := s.deciding - {task}, marked := s.marked[task := job],
                                 escalations := after.escalations)
                  && after.escalations.Keys == s.escalations.Keys
                  && (forall k :: k in s.escalations && k != job.actionId ==>
                        after.escalations[k] == s.escalations[k])
                  && (job.actionId in s.escalations ==>
                        && var row, marked := s.escalations[job.actionId], after.escalations[job.actionId];
                        && marked.status == (if job.isApproval then Signed else Refused)
                        && marked.signature == (if job.signature == "" then None else Some(job.signature))
                        && marked.typedData == row.typedData && marked.reasons == row.reasons
                        && marked.createdAt == row.createdAt && marked.updatedAt == now))
  {
  }

  // ---------------------------------------------------------------- what each step leaves alone

  lemma AuthorizeLeaves(w: World, s: State, agent: string, request: PaymentRequest, id: string, createdAt: nat,
                        evaluatedAt: nat)
    ensures var t := Authorize(w, s, agent, request, id, createdAt, evaluatedAt).0;
            t == s.(store := t.store, issued := s.issued + {id}, reasons := t.reasons, rulings := t.rulings)
  {
    hide Evaluate, Create, Annotate, Update, FullJustification;
  }

  lemma SubmissionLeaves(w: World, s: State, agent: string, id: string, typedData: TypedData, task: nat, now: nat)
    ensures var t := SubmitEscalation(w, s, agent, id, typedData, task, now).0;
            t == s.(store := t.store, escalations := t.escalations, submitting := t.submitting)
  {
    hide Cache, OwnedAction, IsValidTypedData;
  }

  lemma SettlementLeaves(w: World, s: State, agent: string, id: string, txHash: string, task: nat)
    ensures var t := BeginSettle(w, s, agent, id, txHash, task).0;
            t == s.(store := t.store, settling := t.settling)
  {
    hide Cache, OwnedAction;
    var owned := OwnedAction(s, agent, id);
    if txHash == "" || owned.Err? || owned.value.status != APPROVED {
    } else if w.env.bigInt(owned.value.amount).None? {
    } else {
    }
  }

  lemma AnsweredSettlementLeaves(w: World, s: State, task: nat, lookup: Option<Receipt>, now: nat)
    ensures var t := FinishSettle(w, s, task, lookup, now).0;
            t == s.(store := t.store, settling := s.settling - {task}, receipts := t.receipts)
  {
    hide Update, VerifyTransfer;
    assert task !in s.settling ==> s.settling - {task} == s.settling;
  }

  lemma MarkingLeaves(s: State, task: nat, isPassed: bool, now: nat)
    ensures var t := MarkRow(s, task, isPassed, now).0;
            t == s.(deciding := t.deciding, marked := t.marked, escalations := t.escalations)
  {
    hide Marked;
  }

  lemma FinishingLeaves(s: State, task: nat, now: nat)
    ensures var t := FinishDecision(s, task, now);
            t == s.(marked := s.marked - {task}, store := t.store)
  {
    hide Decide;
    assert task !in s.marked ==> s.marked - {task} == s.marked;
  }

  /** Which parts of the state a step may touch. */
  lemma StepLeaves(w: World, s: State, e: Event)
    ensures var t := Apply(w, s, e);
            match e
            case Authorized(_, _, id, _, _) =>
              t == s.(store := t.store, issued := s.issued + {id}, reasons := t.reasons, rulings := t.rulings)
            case Submitted(_, _, _, _, _) =>
              t == s.(store := t.store, escalations := t.escalations, submitting := t.submitting)
            case SubmissionFinished(_) => t == s.(reasons := t.reasons, submitting := t.submitting)
            case ApprovalBegun(_, _, _, _) => t == s.(deciding := t.deciding)
            case RejectionBegun(_, _, _) => t == s.(deciding := t.deciding)
            case RowMarked(_, _, _) =>
              t == s.(deciding := t.deciding, marked := t.marked, escalations := t.escalations)
            case DecisionFinished(task, _) => t == s.(marked := s.marked - {task}, store := t.store)
            case SettleBegun(_, _, _, _) => t == s.(store := t.store, settling := t.settling)
            case SettleFinished(task, _, _) =>
              t == s.(store := t.store, settling := s.settling - {task}, receipts := t.receipts)
            case Restarted(early) =>
              && t == s.(store := t.store, reasons := map[], submitting := map[], deciding := map[], marked := map[],
                         settling := map[])
              && t.store.table == s.store.table && t.store.actions.Keys == s.store.table.Keys * early
            case _ => t == s.(store := t.store)
  {
    hide Authorize, SubmitEscalation, BeginSettle, FinishSettle, BeginApprove, BeginReject, MarkRow, FinishDecision,
         Create, Update, Restart;
    match e
    case Authorized(agent, request, id, createdAt, evaluatedAt) =>
      AuthorizeLeaves(w, s, agent, request, id, createdAt, evaluatedAt);
    case Submitted(agent, id, typedData, task, now) => SubmissionLeaves(w, s, agent, id, typedData, task, now);
    case SubmissionFinished(_) =>
    case SettleBegun(agent, id, txHash, task) => SettlementLeaves(w, s, agent, id, txHash, task);
    case SettleFinished(task, lookup, now) => AnsweredSettlementLeaves(w, s, task, lookup, now);
    case Restarted(early) => RestartCaches(s.store.table, early);
    case OtherCreated(_, _, _) =>
    case OtherUpdated(_, _, _, _) =>
    case ApprovalBegun(id, signature, task, now) => ApprovalBegins(w, s, id, signature, task, now);
    case RejectionBegun(id, signature, task) => RejectionBegins(w, s, id, signature, task);
    case RowMarked(task, isPassed, now) => MarkingLeaves(s, task, isPassed, now);
    case DecisionFinished(task, now) => FinishingLeaves(s, task, now);
  }
}
