/** What the steps of the x402 rail write to the actions there are, and what of them never changes. */
module X402Writes {
  import opened Common
  import opened ActionStore
  import opened X402
  import opened X402Proofs
  import opened X402Handlers
  import Normaliser

  // ---------------------------------------------------------------- what the x402 rail writes to an action

  /** An update of an action's status; only some carry a signature or a hash. */
  datatype StatusUpdate = StatusUpdate(id: string, status: Status, signature: Option<string>, txHash: Option<string>)

  /** The update a step makes of an action there already is. */
  function WriteOf(w: World, s: State, e: Event): Option<StatusUpdate> {
    match e
    case SettleFinished(task, lookup, _) =>
      if task !in s.settling then None
      else
        var job := s.settling[task];
        if lookup.Some? && Covers(w.env, lookup.value, job.token, job.recipient, job.minimumAmount)
        then Some(StatusUpdate(job.actionId, EXECUTED, None, Some(job.txHash))) else None
    case DecisionFinished(task, _) =>
      if task !in s.marked then None
      else
        var job := s.marked[task];
        Some(if job.isApproval then StatusUpdate(job.actionId, APPROVED, Truthy(Some(job.signature), None), None)
             else StatusUpdate(job.actionId, REJECTED, None, None))
    case OtherUpdated(id, status, meta, _) =>
      Some(StatusUpdate(id, status, Truthy(meta.signature, None), Truthy(meta.txHash, None)))
    case _ => None
  }

  predicate IsOf(write: Option<StatusUpdate>, id: string) { write.Some? && write.value.id == id }

  /** One action before and after: its request is never rewritten, and a write shows. */
  predicate ActionKept(a: TreasuryAction, b: TreasuryAction, write: Option<StatusUpdate>) {
    && SameRequest(a, b)
    && b.status == (if write.Some? then write.value.status else a.status)
    && b.signature == (if write.Some? && write.value.signature.Some? then write.value.signature else a.signature)
    && b.txHash == (if write.Some? && write.value.txHash.Some? then write.value.txHash else a.txHash)
  }

  function WriteTo(write: Option<StatusUpdate>, id: string): Option<StatusUpdate> {
    if IsOf(write, id) then write else None
  }

  ghost predicate ActionsKept(m: map<string, TreasuryAction>, n: map<string, TreasuryAction>,
                              write: Option<StatusUpdate>) {
    forall k :: k in m ==> k in n && ActionKept(m[k], n[k], WriteTo(write, k))
  }

  lemma NothingHappensToActions(m: map<string, TreasuryAction>)
    ensures ActionsKept(m, m, None)
  {
  }

  lemma UpdateKeepsActions(store: Store, id: string, status: Status, meta: Metadata, now: nat)
    requires Mirrored(store)
    ensures ActionsKept(Known(store), Known(Update(store, id, status, meta, now)),
                        Some(StatusUpdate(id, status, Truthy(meta.signature, None), Truthy(meta.txHash, None))))
  {
    hide Update, Mirrored, SameRequest, Known;
    UpdateChangesOneAction(store, id, status, meta, now);
    StandingStillIsAllowed();
  }

  lemma MoreActionsKeepActions(m: map<string, TreasuryAction>, n: map<string, TreasuryAction>)
    requires forall k :: k in m ==> k in n && n[k] == m[k]
    ensures ActionsKept(m, n, None)
  {
  }

  lemma AuthorizeKeepsActions(w: World, s: State, agent: string, request: PaymentRequest, id: string,
                              createdAt: nat, evaluatedAt: nat)
    requires Sound(w, s) && id !in s.store.table && IsUnits(w.env, request.amount)
    ensures ActionsKept(Known(s.store), Known(Authorize(w, s, agent, request, id, createdAt, evaluatedAt).0.store),
                        None)
  {
    hide Sound, Mirrored, ActionsKept, Authorize, Known, InStep, IsUnits;
    AuthorizeAddsOne(w, s, agent, request, id, createdAt, evaluatedAt);
    MoreActionsKeepActions(Known(s.store),
                           Known(Authorize(w, s, agent, request, id, createdAt, evaluatedAt).0.store));
  }

  /** Handlers that touch no action. */
  lemma HandlerKeepsActions(w: World, s: State, e: Event)
    requires Mirrored(s.store)
    requires e.Submitted? || e.SubmissionFinished? || e.ApprovalBegun? || e.RejectionBegun? || e.RowMarked?
             || e.SettleBegun?
    ensures Known(Apply(w, s, e).store) == Known(s.store)
  {
    if e.Submitted? || e.SettleBegun? {
      hide Apply, Cache, Mirrored, Known;
      LookupsOnlyCache(w, s, e);
      CacheKeepsKnown(s.store, e.id);
    } else {
      hide Known, Mirrored, SameAddress, Marked;
    }
  }

  lemma DecisionKeepsActions(w: World, s: State, e: Event)
    requires Mirrored(s.store) && e.DecisionFinished?
    ensures ActionsKept(Known(s.store), Known(FinishDecision(s, e.task, e.now).store), WriteOf(w, s, e))
  {
    hide Mirrored, ActionsKept, Update, Known;
    NothingHappensToActions(Known(s.store));
    if e.task in s.marked {
      var job := s.marked[e.task];
      UpdateKeepsActions(s.store, job.actionId, if job.isApproval then APPROVED else REJECTED,
                         if job.isApproval then Metadata(Some(job.signature), None) else NO_METADATA, e.now);
    }
  }

  lemma FinishSettleKeepsActions(w: World, s: State, e: Event)
    requires Sound(w, s) && e.SettleFinished?
    ensures ActionsKept(Known(s.store), Known(FinishSettle(w, s, e.task, e.lookup, e.now).0.store),
                        WriteOf(w, s, e))
  {
    hide Sound, Mirrored, ActionsKept, Update, Covers, FinishSettle, JobInStep, Known;
    StoreIsMirrored(w, s);
    NothingHappensToActions(Known(s.store));
    if e.task in s.settling {
      ResumedSettlement(w, s, e.task, e.lookup, e.now);
      var job := s.settling[e.task];
      UpdateKeepsActions(s.store, job.actionId, EXECUTED, Metadata(None, Some(job.txHash)), e.now);
    } else {
      UnknownSettlementIsIdle(w, s, e.task, e.lookup, e.now);
    }
  }

  lemma RestartKeepsActions(w: World, s: State, early: set<string>)
    requires Sound(w, s)
    ensures ActionsKept(Known(s.store), Known(Restart(s.store.table, early)), None)
  {
    hide Sound, Restart, Known, Mirrored;
    StoreIsMirrored(w, s);
    RestartKeepsKnown(s.store, early);
  }

  /** What any step does to the actions there are: exactly its write. */
  lemma PayStepKeepsActions(w: World, s: State, e: Event)
    requires Sound(w, s) && Admissible(w, s, e)
    ensures ActionsKept(Known(s.store), Known(Apply(w, s, e).store), WriteOf(w, s, e))
  {
    hide Sound, ActionsKept, Mirrored, Update, Create, Restart, Known, Covers, Authorize,
         SubmitEscalation, FinishSubmit, BeginApprove, BeginReject, MarkRow,
         FinishDecision, BeginSettle, FinishSettle, IsUnits;
    StoreIsMirrored(w, s);
    NothingHappensToActions(Known(s.store));
    match e
    case Authorized(agent, request, id, createdAt, evaluatedAt) =>
      AuthorizeKeepsActions(w, s, agent, request, id, createdAt, evaluatedAt);
    case DecisionFinished(_, _) => DecisionKeepsActions(w, s, e);
    case SettleFinished(_, _, _) => FinishSettleKeepsActions(w, s, e);
    case Restarted(early) => RestartKeepsActions(w, s, early);
    case OtherCreated(dto, id, now) =>
      CreateAddsOneAction(s.store, dto, id, now);
      MoreActionsKeepActions(Known(s.store), Known(Create(s.store, dto, id, now)));
    case OtherUpdated(id, status, meta, now) => UpdateKeepsActions(s.store, id, status, meta, now);
    case _ => HandlerKeepsActions(w, s, e);
  }

  /** Only a settlement marks an action EXECUTED, and never without a hash. */
  lemma ExecutingIsSettling(w: World, s: State, e: Event)
    requires Admissible(w, s, e) && WriteOf(w, s, e).Some?
    ensures WriteOf(w, s, e).value.status == EXECUTED <==> e.SettleFinished?
    ensures e.SettleFinished? ==>
              e.task in s.settling && WriteOf(w, s, e).value.txHash == Some(s.settling[e.task].txHash)
  {
    hide Covers;
  }

  // ---------------------------------------------------------------- and what it records

  lemma StoredStaysUnissued(w: World, s: State, e: Event)
    requires Admissible(w, s, e)
    ensures forall k :: k in Known(s.store) && k in Apply(w, s, e).issued ==> k in s.issued
  {
    hide Apply, IsUnits, Known;
    KnownIsTable(s.store);
    OnlyAuthorizeIssues(w, s, e);
  }

  lemma OnlyAuthorizeIssues(w: World, s: State, e: Event)
    ensures Apply(w, s, e).issued == s.issued + if e.Authorized? then {e.id} else {}
  {
    hide Apply;
    StepLeaves(w, s, e);
  }

  lemma ReceiptsStay(w: World, s: State, e: Event)
    requires Sound(w, s) && Admissible(w, s, e)
    ensures s.receipts.Keys <= Apply(w, s, e).receipts.Keys
    ensures Sound(w, Apply(w, s, e))
  {
    hide Sound, Apply, Admissible, ActionsAdvance;
    ApplyKeepsSound(w, s, e);
  }

  lemma ExecutedHasReceipt(w: World, s: State, id: string)
    requires Sound(w, s) && id in s.issued && id in Known(s.store) && Known(s.store)[id].status == EXECUTED
    ensures id in s.receipts
  {
    LookAt(w, s, id);
    hide Sound, Known, Mirrored, IsVouched, Covers;
  }
}
