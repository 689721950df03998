/** What the x402 rail guarantees over every run, however its handlers interleave. */
module X402Proofs {
  import opened Common
  import opened ActionStore
  import opened X402
  import Normaliser

  // ---------------------------------------------------------------- the invariant, action by action

  /** What a ruling other than BLOCK says about the stored request. */
  predicate Vetted(w: World, a: TreasuryAction, r: Ruling) {
    && w.env.bigInt(a.amount) == Some(r.amount)
    && SameAddress(w.env, Some(a.token), w.config.usdcAddress)
    && w.env.getAddress(a.recipient).Some?
    && w.env.getAddress(a.recipient).value in w.config.approvedPayTo
  }

  predicate Vouches(w: World, a: TreasuryAction, typedData: TypedData, signature: string) {
    && NamesTransfer(w, typedData, a)
    && SameAddress(w.env, w.recoverTyped(typedData, signature), w.config.ledgerApproverAddress)
  }

  /** The signature is the approver's over typed data for exactly this action's transfer. */
  ghost predicate IsVouched(w: World, a: TreasuryAction, signature: string) {
    exists typedData :: Vouches(w, a, typedData, signature)
  }

  ghost predicate RowIsInStep(w: World, a: TreasuryAction, e: Escalation) {
    && NamesTransfer(w, e.typedData, a)
    && (e.status == Signed ==> e.signature.Some? && IsVouched(w, a, e.signature.value))
  }

  /** An action `authorize` created, with everything the service keeps about it: the recorded ruling,
      whether its reasons still wait for an escalation, its escalation row, and its receipt. */
  ghost predicate InStep(w: World, a: TreasuryAction, ruling: Option<Ruling>, waiting: bool,
                         row: Option<Escalation>, receipt: Option<Receipt>) {
    && HasPrefix(a.justification)
    && (a.status == EXECUTED ==> receipt.Some?)
    && (receipt.Some? ==>
          && a.txHash.Some? && ruling.Some?
          && Covers(w.env, receipt.value, a.token, a.recipient, ruling.value.amount))
    && (row.Some? ==> ruling.Some? && ruling.value.decision == ESCALATE && RowIsInStep(w, a, row.value))
    && match ruling
       case None => a.status == PENDING && !waiting
       case Some(r) =>
         && r.agent == ToLower(a.agentAddress)
         && r.createdAt == a.createdAt
         && (r.decision != BLOCK ==> Vetted(w, a, r))
         && match r.decision
            case ALLOW => && !waiting && (a.status == APPROVED || a.status == EXECUTED)
                          && (receipt.Some? ==> a.status == EXECUTED)
                          && r.amount <= w.config.autonomousLimit
            case BLOCK => !waiting && a.status == REJECTED && receipt.None?
            case ESCALATE =>
              && (row.None? ==> a.status == PENDING && a.signature.None? && receipt.None?)
              && (a.signature.Some? ==> IsVouched(w, a, a.signature.value))
              && (a.status == APPROVED || a.status == EXECUTED || receipt.Some? ==> a.signature.Some?)
  }

  function At<V>(m: map<string, V>, k: string): Option<V> { if k in m then Some(m[k]) else None }

  ghost predicate InStepAt(w: World, s: State, k: string)
    requires k in Known(s.store)
  {
    InStep(w, Known(s.store)[k], At(s.rulings, k), k in s.reasons, At(s.escalations, k), At(s.receipts, k))
  }

  /** Everything recorded is about an issued action, and every issued action is stored. */
  predicate Scoped(s: State) {
    && s.issued <= Known(s.store).Keys
    && s.rulings.Keys <= s.issued
    && s.reasons.Keys <= s.issued
    && s.escalations.Keys <= s.issued
    && s.receipts.Keys <= Known(s.store).Keys
  }

  /** A suspended settlement is for a transfer that was allowed or signed for. */
  predicate JobInStep(w: World, a: TreasuryAction, ruling: Option<Ruling>, job: Settlement) {
    && job.token == a.token && job.recipient == a.recipient
    && w.env.bigInt(a.amount) == Some(job.minimumAmount)
    && ruling.Some?
    && (ruling.value.decision == ALLOW || (ruling.value.decision == ESCALATE && a.signature.Some?))
  }

  predicate JobFits(w: World, s: State, job: Settlement) {
    && job.actionId in Known(s.store)
    && job.txHash != ""
    && (job.actionId in s.issued ==> JobInStep(w, Known(s.store)[job.actionId], At(s.rulings, job.actionId), job))
  }

  ghost predicate JobsInStep(w: World, s: State) {
    forall task :: task in s.settling ==> JobFits(w, s, s.settling[task])
  }

  /** A human decision under way is about a submitted escalation, and an approval is signed for. */
  ghost predicate DecisionFits(w: World, s: State, job: HumanDecision) {
    && job.actionId in s.escalations && job.actionId in Known(s.store) && job.signature != ""
    && (job.isApproval ==> IsVouched(w, Known(s.store)[job.actionId], job.signature))
  }

  ghost predicate DecisionsFit(w: World, s: State) {
    && s.deciding.Keys !! s.marked.Keys
    && (forall task :: task in s.deciding ==> DecisionFits(w, s, s.deciding[task]))
    && (forall task :: task in s.marked ==> DecisionFits(w, s, s.marked[task]))
  }

  ghost predicate AmountsAreUnits(w: World, m: map<string, TreasuryAction>) {
    forall k :: k in m ==> IsUnits(w.env, m[k].amount)
  }

  ghost predicate AllInStep(w: World, s: State)
    requires Scoped(s)
  {
    forall k :: k in s.issued ==> InStepAt(w, s, k)
  }

  ghost predicate Sound(w: World, s: State) {
    && Mirrored(s.store)
    && Scoped(s)
    && AllInStep(w, s)
    && JobsInStep(w, s)
    && DecisionsFit(w, s)
    && AmountsAreUnits(w, Known(s.store))
  }

  // ---------------------------------------------------------------- what no step undoes

  /** Requests are never rewritten, a decided action never waits again, and a signature is never dropped. */
  predicate ActionAdvances(a: TreasuryAction, b: TreasuryAction) {
    && SameRequest(a, b)
    && (b.status == PENDING ==> a.status == PENDING)
    && (a.signature.Some? ==> b.signature.Some?)
  }

  ghost predicate ActionsAdvance(ids: set<string>, m: map<string, TreasuryAction>, n: map<string, TreasuryAction>) {
    forall k :: k in ids ==> k in m && k in n && ActionAdvances(m[k], n[k])
  }

  /** Rulings are final, and rows and receipts are never lost. */
  ghost predicate OnlyAdvances(s: State, t: State) {
    && s.issued <= t.issued
    && (forall k :: k in s.rulings ==> k in t.rulings && t.rulings[k] == s.rulings[k])
    && s.escalations.Keys <= t.escalations.Keys
    && s.receipts.Keys <= t.receipts.Keys
    && ActionsAdvance(s.issued, Known(s.store), Known(t.store))
  }

  /** What every step does: keep the invariant, and undo nothing. */
  ghost predicate Keeps(w: World, s: State, t: State) {
    Sound(w, t) && OnlyAdvances(s, t)
  }

  lemma ActionAdvancesFurther(a: TreasuryAction, b: TreasuryAction, c: TreasuryAction)
    requires ActionAdvances(a, b) && ActionAdvances(b, c)
    ensures ActionAdvances(a, c)
  {
  }

  lemma KeepsIsTransitive(w: World, s: State, t: State, u: State)
    requires Keeps(w, s, t) && Keeps(w, t, u)
    ensures Keeps(w, s, u)
  {
    hide Sound, Known, ActionAdvances;
    forall k | k in s.issued ensures ActionAdvances(Known(s.store)[k], Known(u.store)[k]) {
      ActionAdvancesFurther(Known(s.store)[k], Known(t.store)[k], Known(u.store)[k]);
    }
  }

  lemma StandingStillIsAllowed()
    ensures forall a: TreasuryAction :: SameRequest(a, a) && ActionAdvances(a, a)
  {
  }

  lemma DoingNothingKeeps(w: World, s: State)
    requires Sound(w, s)
    ensures Keeps(w, s, s)
  {
    hide Mirrored, JobsInStep, DecisionsFit, AllInStep, InStep, Known, ActionAdvances;
    StandingStillIsAllowed();
  }

  lemma SoundFromKeeps(w: World, s: State, t: State)
    requires Keeps(w, s, t)
    ensures Sound(w, t)
  {
    hide Sound, OnlyAdvances;
  }

  lemma StoreIsMirrored(w: World, s: State)
    requires Sound(w, s)
    ensures Mirrored(s.store)
  {
    hide Mirrored, AllInStep, JobsInStep, DecisionsFit, Known;
  }

  // ---------------------------------------------------------------- one action changes at a time

  /** Two states that differ at most in what they hold about the stored action `id`. */
  ghost predicate SameElsewhere(s: State, t: State, id: string) {
    && id in Known(s.store)
    && t.issued == s.issued
    && t.rulings == s.rulings
    && ChangedOnly(Known(s.store), Known(t.store), id)
    && (id !in s.issued ==> id !in t.reasons && id !in t.escalations)
    && (forall k :: k != id ==>
          && (k in t.reasons <==> k in s.reasons)
          && At(t.escalations, k) == At(s.escalations, k)
          && At(t.receipts, k) == At(s.receipts, k))
  }

  /** What the change itself must respect. */
  ghost predicate ChangesWell(w: World, s: State, t: State, id: string) {
    && SameElsewhere(s, t, id)
    && Mirrored(t.store)
    && (id in s.issued ==> InStepAt(w, t, id) && ActionAdvances(Known(s.store)[id], Known(t.store)[id]))
    && (id in s.escalations ==> id in t.escalations)
    && (id in s.receipts ==> id in t.receipts)
  }

  /** The handlers suspended by the step itself fit, and the others were suspended before. */
  ghost predicate NewJobsFit(w: World, s: State, t: State) {
    && (forall task :: task in t.settling ==>
          (task in s.settling && t.settling[task] == s.settling[task]) || JobFits(w, t, t.settling[task]))
    && t.deciding.Keys !! t.marked.Keys
    && (forall task :: task in t.deciding ==>
          (task in s.deciding && t.deciding[task] == s.deciding[task]) || DecisionFits(w, t, t.deciding[task]))
    && (forall task :: task in t.marked ==>
          || (task in s.marked && t.marked[task] == s.marked[task])
          || (task in s.deciding && t.marked[task] == s.deciding[task]))
  }

  lemma VouchedStays(w: World, a: TreasuryAction, b: TreasuryAction, signature: string)
    requires SameRequest(a, b) && IsVouched(w, a, signature)
    ensures IsVouched(w, b, signature)
  {
    var typedData :| Vouches(w, a, typedData, signature);
    assert Vouches(w, b, typedData, signature);
  }

  lemma OthersStayInStep(w: World, s: State, t: State, id: string)
    requires Sound(w, s) && ChangesWell(w, s, t, id)
    ensures Scoped(t) && AllInStep(w, t) && AmountsAreUnits(w, Known(t.store))
  {
    hide Mirrored, InStep, JobsInStep, DecisionsFit, Known, ActionAdvances;
    forall k | k in t.issued ensures InStepAt(w, t, k) {
      if k != id {
        assert InStepAt(w, s, k);
      }
    }
  }

  lemma JobsStayFit(w: World, s: State, t: State, id: string)
    requires Sound(w, s) && ChangesWell(w, s, t, id) && NewJobsFit(w, s, t)
    ensures JobsInStep(w, t)
  {
    hide Mirrored, InStep, DecisionsFit, AllInStep, Known;
    forall task | task in t.settling ensures JobFits(w, t, t.settling[task]) {
      if task in s.settling && t.settling[task] == s.settling[task] {
        assert JobFits(w, s, s.settling[task]);
      }
    }
  }

  lemma DecisionStaysFit(w: World, s: State, t: State, id: string, job: HumanDecision)
    requires DecisionFits(w, s, job) && ChangesWell(w, s, t, id)
    ensures DecisionFits(w, t, job)
  {
    hide Mirrored, InStep, Known, IsVouched, ActionAdvances, SameRequest;
    var k := job.actionId;
    assert k != id ==> At(t.escalations, k) == At(s.escalations, k);
    if job.isApproval && k == id {
      VouchedStays(w, Known(s.store)[k], Known(t.store)[k], job.signature);
    }
  }

  lemma DecisionsStayFit(w: World, s: State, t: State, id: string)
    requires Sound(w, s) && ChangesWell(w, s, t, id) && NewJobsFit(w, s, t)
    ensures DecisionsFit(w, t)
  {
    hide Mirrored, InStep, JobsInStep, AllInStep, Known, ChangesWell, DecisionFits, JobFits;
    forall task | task in t.deciding ensures DecisionFits(w, t, t.deciding[task]) {
      if task in s.deciding && t.deciding[task] == s.deciding[task] {
        DecisionStaysFit(w, s, t, id, s.deciding[task]);
      }
    }
    forall task | task in t.marked ensures DecisionFits(w, t, t.marked[task]) {
      DecisionStaysFit(w, s, t, id, t.marked[task]);
    }
  }

  lemma OneActionAdvances(w: World, s: State, t: State, id: string)
    requires Scoped(s) && ChangesWell(w, s, t, id)
    ensures OnlyAdvances(s, t)
  {
    hide Mirrored, InStep, SameRequest, Known, ActionAdvances;
    StandingStillIsAllowed();
    forall k | k in s.escalations ensures k in t.escalations {
      assert k != id ==> At(t.escalations, k) == At(s.escalations, k);
    }
    forall k | k in s.receipts ensures k in t.receipts {
      assert k != id ==> At(t.receipts, k) == At(s.receipts, k);
    }
  }

  /** It is enough to look at the one action that changed, and at the handlers newly suspended. */
  lemma OneActionKeepsSound(w: World, s: State, t: State, id: string)
    requires Sound(w, s) && ChangesWell(w, s, t, id) && NewJobsFit(w, s, t)
    ensures Keeps(w, s, t)
  {
    ParametersOfChange(w, s, t, id);
    hide ChangesWell, NewJobsFit, OnlyAdvances, AllInStep, JobsInStep, DecisionsFit, Mirrored, Known, AmountsAreUnits;
    OthersStayInStep(w, s, t, id);
    JobsStayFit(w, s, t, id);
    DecisionsStayFit(w, s, t, id);
    OneActionAdvances(w, s, t, id);
  }

  lemma ParametersOfChange(w: World, s: State, t: State, id: string)
    requires ChangesWell(w, s, t, id)
    ensures Mirrored(t.store)
  {
    hide Mirrored, InStep, Known;
  }

  lemma LookAt(w: World, s: State, k: string)
    requires Sound(w, s)
    ensures Scoped(s) && Mirrored(s.store)
    ensures k in s.issued ==> InStepAt(w, s, k)
    ensures k !in s.issued ==> k !in s.reasons && k !in s.escalations
    ensures k in Known(s.store) ==>
              SameRequest(Known(s.store)[k], Known(s.store)[k]) && ActionAdvances(Known(s.store)[k], Known(s.store)[k])
    ensures k in Known(s.store) ==> ChangedOnly(Known(s.store), Known(s.store), k)
    ensures s.deciding.Keys !! s.marked.Keys
    ensures forall task :: task in s.settling ==> JobFits(w, s, s.settling[task])
    ensures forall task :: task in s.deciding ==> DecisionFits(w, s, s.deciding[task])
    ensures forall task :: task in s.marked ==> DecisionFits(w, s, s.marked[task])
  {
    hide Known, Mirrored, InStep;
  }

  /** Steps that touch no action, no row and no receipt, and suspend nothing new. */
  lemma BookkeepingKeepsSound(w: World, s: State, t: State)
    requires Sound(w, s)
    requires Mirrored(t.store) && Known(t.store) == Known(s.store)
    requires t.issued == s.issued && t.rulings == s.rulings && t.escalations == s.escalations
             && t.receipts == s.receipts
    requires t.reasons.Keys <= s.reasons.Keys
    requires forall task :: task in t.settling ==> task in s.settling && t.settling[task] == s.settling[task]
    requires forall task :: task in t.deciding ==> task in s.deciding && t.deciding[task] == s.deciding[task]
    requires forall task :: task in t.marked ==> task in s.marked && t.marked[task] == s.marked[task]
    ensures Keeps(w, s, t)
  {
    hide Mirrored, Known, InStep, ActionAdvances, JobFits, DecisionFits;
    StandingStillIsAllowed();
    forall k | k in t.issued ensures InStepAt(w, t, k) {
      assert InStepAt(w, s, k);
      LessWaitingStaysInStep(w, Known(s.store)[k], At(s.rulings, k), k in s.reasons, k in t.reasons,
                             At(s.escalations, k), At(s.receipts, k));
    }
    forall task | task in t.settling ensures JobFits(w, t, t.settling[task]) {
      SameActionsSameJobs(w, s, t, s.settling[task]);
    }
    forall job: HumanDecision ensures DecisionFits(w, t, job) <==> DecisionFits(w, s, job) {
      SameActionsSameDecisions(w, s, t, job);
    }
  }

  lemma SameActionsSameJobs(w: World, s: State, t: State, job: Settlement)
    requires Known(t.store) == Known(s.store) && t.issued == s.issued && t.rulings == s.rulings
    ensures JobFits(w, t, job) <==> JobFits(w, s, job)
  {
    hide Known;
  }

  lemma SameActionsSameDecisions(w: World, s: State, t: State, job: HumanDecision)
    requires Known(t.store) == Known(s.store) && t.escalations == s.escalations
    ensures DecisionFits(w, t, job) <==> DecisionFits(w, s, job)
  {
    hide Known, IsVouched;
  }

  lemma LessWaitingStaysInStep(w: World, a: TreasuryAction, ruling: Option<Ruling>, waiting: bool, still: bool,
                               row: Option<Escalation>, receipt: Option<Receipt>)
    requires InStep(w, a, ruling, waiting, row, receipt) && (still ==> waiting)
    ensures InStep(w, a, ruling, still, row, receipt)
  {
    hide Covers, IsVouched;
  }

  lemma NothingNewFits(w: World, s: State, t: State)
    requires t.settling == s.settling && t.deciding == s.deciding && t.marked == s.marked
    requires s.deciding.Keys !! s.marked.Keys
    ensures NewJobsFit(w, s, t)
  {
    hide JobFits, DecisionFits;
  }

  // ---------------------------------------------------------------- one action's own steps

  /** A row is written only for an escalated action. */
  lemma SubmittedStaysInStep(w: World, a: TreasuryAction, ruling: Option<Ruling>, row: Option<Escalation>,
                             receipt: Option<Receipt>, e: Escalation)
    requires InStep(w, a, ruling, true, row, receipt)
    requires NamesTransfer(w, e.typedData, a) && e.status == AwaitingSignature
    ensures InStep(w, a, ruling, true, Some(e), receipt)
  {
    hide Covers, IsVouched;
  }

  lemma MarkedStaysInStep(w: World, a: TreasuryAction, ruling: Option<Ruling>, waiting: bool, e: Escalation,
                          f: Escalation, receipt: Option<Receipt>)
    requires InStep(w, a, ruling, waiting, Some(e), receipt) && f.typedData == e.typedData
    requires f.status == Signed ==> f.signature.Some? && IsVouched(w, a, f.signature.value)
    ensures InStep(w, a, ruling, waiting, Some(f), receipt)
  {
    hide Covers, IsVouched;
  }

  lemma RowStaysInStep(w: World, a: TreasuryAction, b: TreasuryAction, e: Escalation)
    requires RowIsInStep(w, a, e) && SameRequest(a, b)
    ensures RowIsInStep(w, b, e)
  {
    hide IsVouched;
    if e.status == Signed {
      VouchedStays(w, a, b, e.signature.value);
    }
  }

  /** A human decision on an action with a row, whatever its status is by then. */
  lemma DecidedStaysInStep(w: World, a: TreasuryAction, b: TreasuryAction, ruling: Option<Ruling>, waiting: bool,
                           e: Escalation, receipt: Option<Receipt>)
    requires InStep(w, a, ruling, waiting, Some(e), receipt)
    requires SameRequest(a, b) && b.txHash == a.txHash && (b.status == APPROVED || b.status == REJECTED)
    requires b.signature == a.signature || (b.signature.Some? && IsVouched(w, a, b.signature.value))
    requires b.status == APPROVED ==> b.signature.Some?
    ensures InStep(w, b, ruling, waiting, Some(e), receipt)
  {
    hide Covers, IsVouched, RowIsInStep;
    RowStaysInStep(w, a, b, e);
    if b.signature.Some? {
      VouchedStays(w, a, b, b.signature.value);
    }
  }

  lemma ExecutedStaysInStep(w: World, a: TreasuryAction, b: TreasuryAction, ruling: Option<Ruling>, waiting: bool,
                            row: Option<Escalation>, receipt: Option<Receipt>, accepted: Receipt, job: Settlement)
    requires InStep(w, a, ruling, waiting, row, receipt) && JobInStep(w, a, ruling, job)
    requires SameRequest(a, b) && b.status == EXECUTED && b.signature == a.signature && b.txHash.Some?
    requires Covers(w.env, accepted, job.token, job.recipient, job.minimumAmount)
    ensures InStep(w, b, ruling, waiting, row, Some(accepted))
  {
    hide Covers, IsVouched, RowIsInStep;
    if row.Some? {
      RowStaysInStep(w, a, b, row.value);
    }
    if ruling.value.decision == ESCALATE {
      VouchedStays(w, a, b, b.signature.value);
    }
  }

  /** Restarting forgets the waiting reasons and the two verdict fields, on which nothing depends. */
  lemma RestartedStaysInStep(w: World, a: TreasuryAction, b: TreasuryAction, ruling: Option<Ruling>, waiting: bool,
                             row: Option<Escalation>, receipt: Option<Receipt>)
    requires InStep(w, a, ruling, waiting, row, receipt)
    requires b == a.(riskScore := 0, requiresHumanApproval := false)
    ensures InStep(w, b, ruling, false, row, receipt)
  {
    hide Covers, IsVouched, RowIsInStep;
    if row.Some? {
      RowStaysInStep(w, a, b, row.value);
    }
    if ruling.Some? && ruling.value.decision == ESCALATE && a.signature.Some? {
      VouchedStays(w, a, b, a.signature.value);
    }
  }

  // ---------------------------------------------------------------- submissions

  lemma CachingKeepsSound(w: World, s: State, id: string)
    requires Sound(w, s)
    ensures Keeps(w, s, s.(store := Cache(s.store, id)))
    ensures Known(Cache(s.store, id)) == Known(s.store)
  {
    StoreIsMirrored(w, s);
    CacheKeepsKnown(s.store, id);
    hide Sound, Keeps, Known, Cache, Mirrored;
    BookkeepingKeepsSound(w, s, s.(store := Cache(s.store, id)));
  }

  lemma SubmittedChangesWell(w: World, s: State, id: string, e: Escalation, task: nat)
    requires Sound(w, s) && id in s.reasons && id in Known(s.store)
    requires NamesTransfer(w, e.typedData, Known(s.store)[id]) && e.status == AwaitingSignature
    ensures ChangesWell(w, s, s.(escalations := s.escalations[id := e], submitting := s.submitting[task := id]), id)
  {
    hide Sound, Scoped, JobFits, DecisionFits, Mirrored, InStep, NamesTransfer, SameRequest, ChangedOnly, Known,
         ActionAdvances;
    LookAt(w, s, id);
    SubmittedStaysInStep(w, Known(s.store)[id], At(s.rulings, id), At(s.escalations, id), At(s.receipts, id), e);
    var t := s.(escalations := s.escalations[id := e], submitting := s.submitting[task := id]);
    assert At(t.escalations, id) == Some(e);
    assert SameElsewhere(s, t, id);
  }

  /** A submission that got through: its typed data names the action's transfer, and its reasons are held. */
  lemma SubmissionIsVetted(w: World, s: State, agent: string, id: string, typedData: TypedData, task: nat, now: nat)
    requires Mirrored(s.store)
    ensures var (t, reply) := SubmitEscalation(w, s, agent, id, typedData, task, now);
            && (reply.Err? ==> t == s.(store := Cache(s.store, id)))
            && (reply.Ok? ==>
                  && id in s.reasons && id in Known(s.store)
                  && NamesTransfer(w, typedData, Known(s.store)[id]) && Known(s.store)[id].status == PENDING
                  && t == s.(store := Cache(s.store, id),
                             escalations := s.escalations[id := Escalation(typedData, s.reasons[id], None,
                                                                           AwaitingSignature, now, now)],
                             submitting := s.submitting[task := id]))
  {
    FindIsKnown(s.store, id);
    hide Mirrored, Known, Cache, NamesTransfer;
  }

  lemma SubmitKeepsSound(w: World, s: State, agent: string, id: string, typedData: TypedData, task: nat, now: nat)
    requires Sound(w, s)
    ensures Keeps(w, s, SubmitEscalation(w, s, agent, id, typedData, task, now).0)
  {
    hide Sound, Keeps, Cache, ChangesWell, NamesTransfer, Known, SubmitEscalation, Mirrored, JobFits, DecisionFits,
         InStep, SameRequest, ActionAdvances, ChangedOnly;
    StoreIsMirrored(w, s);
    SubmissionIsVetted(w, s, agent, id, typedData, task, now);
    CachingKeepsSound(w, s, id);
    var (t, reply) := SubmitEscalation(w, s, agent, id, typedData, task, now);
    if reply.Ok? {
      var cached := s.(store := Cache(s.store, id));
      SoundFromKeeps(w, s, cached);
      SubmittedChangesWell(w, cached, id, t.escalations[id], task);
      LookAt(w, cached, id);
      NothingNewFits(w, cached, t);
      OneActionKeepsSound(w, cached, t, id);
      KeepsIsTransitive(w, s, cached, t);
    }
  }

  lemma FinishSubmitKeepsSound(w: World, s: State, task: nat)
    requires Sound(w, s)
    ensures Keeps(w, s, FinishSubmit(s, task))
  {
    hide Sound, Keeps, Known, Mirrored;
    StoreIsMirrored(w, s);
    BookkeepingKeepsSound(w, s, FinishSubmit(s, task));
  }

  // ---------------------------------------------------------------- human decisions

  lemma BeginDecisionKeepsSound(w: World, s: State, job: HumanDecision, task: nat)
    requires Sound(w, s) && DecisionFits(w, s, job) && task !in s.marked
    ensures Keeps(w, s, s.(deciding := s.deciding[task := job]))
  {
    hide Sound, Keeps, Known, Mirrored, InStep, ChangedOnly, SameRequest, JobFits, ActionAdvances, IsVouched;
    LookAt(w, s, job.actionId);
    var t := s.(deciding := s.deciding[task := job]);
    assert DecisionFits(w, t, job);
    assert ChangesWell(w, s, t, job.actionId);
    OneActionKeepsSound(w, s, t, job.actionId);
  }

  /** The row an approval reads is for exactly its action's transfer. */
  lemma SignedRowVouches(w: World, s: State, id: string, signature: string)
    requires Sound(w, s) && id in s.escalations && signature != ""
    requires SameAddress(w.env, w.recoverTyped(s.escalations[id].typedData, signature), w.config.ledgerApproverAddress)
    ensures DecisionFits(w, s, HumanDecision(id, signature, true))
    ensures DecisionFits(w, s, HumanDecision(id, signature, false))
  {
    hide Mirrored, Known, JobsInStep, DecisionsFit, NamesTransfer, SameAddress;
    LookAt(w, s, id);
    assert Vouches(w, Known(s.store)[id], s.escalations[id].typedData, signature);
  }

  lemma BeginApproveKeepsSound(w: World, s: State, id: string, signature: string, task: nat, now: nat)
    requires Sound(w, s) && task !in s.marked
    ensures Keeps(w, s, BeginApprove(w, s, id, signature, task, now).0)
  {
    hide Sound, Keeps, DecisionFits, SameAddress;
    DoingNothingKeeps(w, s);
    if BeginApprove(w, s, id, signature, task, now).1.Ok? {
      SignedRowVouches(w, s, id, signature);
      BeginDecisionKeepsSound(w, s, HumanDecision(id, signature, true), task);
    }
  }

  lemma RejectionFits(w: World, s: State, id: string, signature: string)
    requires Sound(w, s) && id in s.escalations && signature != ""
    ensures DecisionFits(w, s, HumanDecision(id, signature, false))
  {
    hide Mirrored, Known, JobsInStep, DecisionsFit, InStep;
    LookAt(w, s, id);
  }

  lemma BeginRejectKeepsSound(w: World, s: State, id: string, signature: string, task: nat)
    requires Sound(w, s) && task !in s.marked
    ensures Keeps(w, s, BeginReject(w, s, id, signature, task).0)
  {
    hide Sound, Keeps, DecisionFits, SameAddress;
    DoingNothingKeeps(w, s);
    if BeginReject(w, s, id, signature, task).1.Ok? {
      RejectionFits(w, s, id, signature);
      BeginDecisionKeepsSound(w, s, HumanDecision(id, signature, false), task);
    }
  }

  /** A decision that reads its row anew. */
  lemma MarkKeepsSound(w: World, s: State, task: nat, now: nat)
    requires Sound(w, s) && task in s.deciding
    ensures Keeps(w, s, MarkRow(s, task, true, now).0)
  {
    hide Sound, Keeps, Known, Mirrored, InStep, ChangedOnly, SameRequest, JobFits, ActionAdvances, IsVouched;
    var job := s.deciding[task];
    var id := job.actionId;
    LookAt(w, s, id);
    var t := MarkRow(s, task, true, now).0;
    MarkedStaysInStep(w, Known(s.store)[id], At(s.rulings, id), id in s.reasons, s.escalations[id], t.escalations[id],
                      At(s.receipts, id));
    assert At(t.escalations, id) == Some(t.escalations[id]);
    assert ChangesWell(w, s, t, id);
    OneActionKeepsSound(w, s, t, id);
  }

  lemma MarkRowKeepsSound(w: World, s: State, task: nat, isPassed: bool, now: nat)
    requires Sound(w, s)
    ensures Keeps(w, s, MarkRow(s, task, isPassed, now).0)
  {
    hide Sound, Keeps, Known, Mirrored, Marked;
    StoreIsMirrored(w, s);
    if task !in s.deciding {
      DoingNothingKeeps(w, s);
    } else if s.deciding[task].isApproval && !isPassed {
      BookkeepingKeepsSound(w, s, s.(deciding := s.deciding - {task}));
    } else {
      MarkKeepsSound(w, s, task, now);
    }
  }

  /** What the action's update does. */
  lemma DecisionUpdates(w: World, s: State, job: HumanDecision, now: nat)
    requires Sound(w, s) && DecisionFits(w, s, job)
    ensures var id, store := job.actionId, Decide(s.store, job, now);
            && Mirrored(store) && id in Known(s.store) && id in Known(store) && id in s.issued
            && ChangedOnly(Known(s.store), Known(store), id)
            && var a, b := Known(s.store)[id], Known(store)[id];
               && SameRequest(a, b) && b.txHash == a.txHash
               && b.status == (if job.isApproval then APPROVED else REJECTED)
               && b.signature == (if job.isApproval then Some(job.signature) else a.signature)
  {
    hide Sound, Known, Mirrored, InStep, Update, SameRequest, IsVouched, ActionAdvances, JobFits;
    var meta := if job.isApproval then Metadata(Some(job.signature), None) else NO_METADATA;
    var status := if job.isApproval then APPROVED else REJECTED;
    LookAt(w, s, job.actionId);
    UpdateKeepsMirrored(s.store, job.actionId, status, meta, now);
    UpdateChangesOneAction(s.store, job.actionId, status, meta, now);
  }

  lemma DecidedKeepsSound(w: World, s: State, job: HumanDecision, now: nat)
    requires Sound(w, s) && DecisionFits(w, s, job)
    ensures Keeps(w, s, s.(store := Decide(s.store, job, now)))
  {
    hide Sound, Known, Mirrored, InStep, Decide, SameRequest, Keeps, ChangedOnly, IsVouched, JobFits;
    var id := job.actionId;
    LookAt(w, s, id);
    DecisionUpdates(w, s, job, now);
    var t := s.(store := Decide(s.store, job, now));
    DecidedStaysInStep(w, Known(s.store)[id], Known(t.store)[id], At(s.rulings, id), id in s.reasons,
                       s.escalations[id], At(s.receipts, id));
    assert ChangesWell(w, s, t, id);
    NothingNewFits(w, s, t);
    OneActionKeepsSound(w, s, t, id);
  }

  lemma FinishDecisionKeepsSound(w: World, s: State, task: nat, now: nat)
    requires Sound(w, s)
    ensures Keeps(w, s, FinishDecision(s, task, now))
  {
    hide Sound, Keeps, Known, Mirrored, Decide, IsVouched, JobFits, InStep, SameRequest, ChangedOnly, ActionAdvances;
    if task !in s.marked {
      DoingNothingKeeps(w, s);
    } else {
      LookAt(w, s, s.marked[task].actionId);
      var resumed := s.(marked := s.marked - {task});
      BookkeepingKeepsSound(w, s, resumed);
      SoundFromKeeps(w, s, resumed);
      DecidedKeepsSound(w, resumed, s.marked[task], now);
      KeepsIsTransitive(w, s, resumed, FinishDecision(s, task, now));
    }
  }

  lemma ChangedOnlyOneRequest(m: map<string, TreasuryAction>, n: map<string, TreasuryAction>, id: string)
    requires ChangedOnly(m, n, id) && id in m
    ensures id in n && SameRequest(m[id], n[id])
  {
    hide SameRequest;
  }

  // ---------------------------------------------------------------- settlements

  /** What each log moves of the token to the recipient. */
  function Moved(env: Env, logs: seq<Log>, token: Option<string>, recipient: Option<string>): map<int, int> {
    map i | 0 <= i < |logs| && env.getAddress(logs[i].address) == token && logs[i].transfer.Some?
            && env.getAddress(logs[i].transfer.value.to) == recipient
      :: logs[i].transfer.value.value as int
  }

  lemma MovedByOneMore(env: Env, logs: seq<Log>, token: Option<string>, recipient: Option<string>)
    requires logs != []
    ensures var n := |logs| - 1;
            var before := Moved(env, logs[..n], token, recipient);
            Moved(env, logs, token, recipient)
            == if env.getAddress(logs[n].address) == token && logs[n].transfer.Some?
                  && env.getAddress(logs[n].transfer.value.to) == recipient
               then before[n := logs[n].transfer.value.value as int] else before
  {
  }

  /** The loop adds up exactly that. */
  lemma {:induction false} TransferredIsSum(env: Env, logs: seq<Log>, token: Option<string>, recipient: Option<string>)
    ensures Transferred(env, logs, token, recipient) == Sum(Moved(env, logs, token, recipient))
  {
    if logs == [] {
      assert Moved(env, logs, token, recipient) == map[];
    } else {
      var n := |logs| - 1;
      var before := Moved(env, logs[..n], token, recipient);
      assert n !in before;
      TransferredIsSum(env, logs[..n], token, recipient);
      MovedByOneMore(env, logs, token, recipient);
      hide Sum, Moved;
      if logs[n].transfer.Some? {
        SumPut(before, n, logs[n].transfer.value.value as int);
      }
    }
  }

  lemma MovedIs(env: Env, logs: seq<Log>, token: Option<string>, recipient: Option<string>)
    ensures Transferred(env, logs, token, recipient)
            == Sum(map i | 0 <= i < |logs| && env.getAddress(logs[i].address) == token && logs[i].transfer.Some?
                           && env.getAddress(logs[i].transfer.value.to) == recipient
                     :: logs[i].transfer.value.value as int)
  {
    TransferredIsSum(env, logs, token, recipient);
    assert Moved(env, logs, token, recipient)
      == map i | 0 <= i < |logs| && env.getAddress(logs[i].address) == token && logs[i].transfer.Some?
                 && env.getAddress(logs[i].transfer.value.to) == recipient
           :: logs[i].transfer.value.value as int;
    hide Sum;
  }

  /** When a settlement is verified: a successful receipt, well-formed expectations, and transfers of the token to the
      recipient that add up to the amount; when it throws; and otherwise it is refused. */
  lemma TransferVerifiedIff(env: Env, lookup: Option<Receipt>, token: string, recipient: string, minimum: int)
    ensures var verified := VerifyTransfer(env, lookup, token, recipient, minimum);
            && (verified == Ok(true) <==>
                  && lookup.Some? && lookup.value.status == 1
                  && env.getAddress(token).Some? && env.getAddress(recipient).Some?
                  && var logs := lookup.value.logs;
                     Sum(map i | 0 <= i < |logs| && env.getAddress(logs[i].address) == env.getAddress(token)
                                 && logs[i].transfer.Some?
                                 && env.getAddress(logs[i].transfer.value.to) == env.getAddress(recipient)
                           :: logs[i].transfer.value.value as int) >= minimum)
            && (verified.Err? <==>
                  && lookup.Some? && lookup.value.status == 1
                  && (env.getAddress(token).None? || env.getAddress(recipient).None?))
  {
    if lookup.Some? {
      MovedIs(env, lookup.value.logs, env.getAddress(token), env.getAddress(recipient));
    }
    hide Sum, Transferred;
  }

  /** An APPROVED action was allowed or signed for. */
  lemma ApprovedIsSpendable(w: World, a: TreasuryAction, ruling: Option<Ruling>, waiting: bool,
                            row: Option<Escalation>, receipt: Option<Receipt>)
    requires InStep(w, a, ruling, waiting, row, receipt) && a.status == APPROVED
    ensures ruling.Some?
    ensures ruling.value.decision == ALLOW || (ruling.value.decision == ESCALATE && a.signature.Some?)
  {
    hide Covers, IsVouched;
  }

  /** The settlement a handler suspends: the action is APPROVED, and its transfer is fixed for the check. */
  lemma BegunSettlement(w: World, s: State, agent: string, id: string, txHash: string, task: nat)
    requires Mirrored(s.store)
    ensures var (t, reply) := BeginSettle(w, s, agent, id, txHash, task);
            && (reply.Err? ==> t == s || t == s.(store := Cache(s.store, id)))
            && (reply.Ok? ==>
                  && id in Known(s.store) && Known(s.store)[id].status == APPROVED
                  && w.env.bigInt(Known(s.store)[id].amount).Some?
                  && var a := Known(s.store)[id];
                     var job := Settlement(id, txHash, a.token, a.recipient, w.env.bigInt(a.amount).value);
                     txHash != "" && t == s.(store := Cache(s.store, id), settling := s.settling[task := job]))
  {
    FindIsKnown(s.store, id);
    hide Mirrored, Known, Cache;
  }

  /** All that submitting and settling do to the store before their await. */
  lemma LookupsOnlyCache(w: World, s: State, e: Event)
    requires Mirrored(s.store) && (e.Submitted? || e.SettleBegun?)
    ensures Apply(w, s, e).store == s.store || Apply(w, s, e).store == Cache(s.store, e.id)
  {
    hide SubmitEscalation, BeginSettle, Cache, Mirrored, Known, NamesTransfer;
    if e.Submitted? {
      SubmissionIsVetted(w, s, e.agent, e.id, e.typedData, e.task, e.now);
    } else {
      BegunSettlement(w, s, e.agent, e.id, e.txHash, e.task);
    }
  }

  lemma SuspendedKeepsSound(w: World, s: State, job: Settlement, task: nat)
    requires Sound(w, s) && JobFits(w, s, job)
    ensures Keeps(w, s, s.(settling := s.settling[task := job]))
  {
    hide Sound, Keeps, Known, Mirrored, InStep, ChangedOnly, SameRequest, DecisionFits, JobInStep, ActionAdvances;
    LookAt(w, s, job.actionId);
    var t := s.(settling := s.settling[task := job]);
    assert JobFits(w, t, job);
    assert ChangesWell(w, s, t, job.actionId);
    OneActionKeepsSound(w, s, t, job.actionId);
  }

  lemma BegunSettlementFits(w: World, s: State, id: string, job: Settlement)
    requires Sound(w, s) && id in Known(s.store) && Known(s.store)[id].status == APPROVED
    requires w.env.bigInt(Known(s.store)[id].amount).Some? && job.txHash != ""
    requires var a := Known(s.store)[id];
             job == Settlement(id, job.txHash, a.token, a.recipient, w.env.bigInt(a.amount).value)
    ensures JobFits(w, s, job)
  {
    hide Sound, Known, Mirrored, InStep, SameRequest, ChangedOnly, DecisionFits, ActionAdvances;
    LookAt(w, s, id);
    if id in s.issued {
      ApprovedIsSpendable(w, Known(s.store)[id], At(s.rulings, id), id in s.reasons, At(s.escalations, id),
                          At(s.receipts, id));
    }
  }

  lemma BeginSettleKeepsSound(w: World, s: State, agent: string, id: string, txHash: string, task: nat)
    requires Sound(w, s)
    ensures Keeps(w, s, BeginSettle(w, s, agent, id, txHash, task).0)
  {
    hide Sound, Keeps, Known, Mirrored, Cache, BeginSettle, JobFits;
    StoreIsMirrored(w, s);
    DoingNothingKeeps(w, s);
    CachingKeepsSound(w, s, id);
    BegunSettlement(w, s, agent, id, txHash, task);
    var (t, reply) := BeginSettle(w, s, agent, id, txHash, task);
    if reply.Ok? {
      var cached := s.(store := Cache(s.store, id));
      SoundFromKeeps(w, s, cached);
      BegunSettlementFits(w, cached, id, t.settling[task]);
      SuspendedKeepsSound(w, cached, t.settling[task], task);
      KeepsIsTransitive(w, s, cached, t);
    }
  }

  lemma ForgottenSettlementKeepsSound(w: World, s: State, task: nat)
    requires Sound(w, s)
    ensures Keeps(w, s, s.(settling := s.settling - {task}))
    ensures Sound(w, s.(settling := s.settling - {task}))
  {
    hide Sound, Keeps, Known, Mirrored;
    StoreIsMirrored(w, s);
    BookkeepingKeepsSound(w, s, s.(settling := s.settling - {task}));
    SoundFromKeeps(w, s, s.(settling := s.settling - {task}));
  }

  /** What resuming a settlement amounts to. */
  lemma ResumedSettlement(w: World, s: State, task: nat, lookup: Option<Receipt>, now: nat)
    requires Sound(w, s) && task in s.settling
    ensures var job := s.settling[task];
            var resumed := s.(settling := s.settling - {task});
            && JobFits(w, resumed, job)
            && FinishSettle(w, s, task, lookup, now).0
               == if lookup.Some? && Covers(w.env, lookup.value, job.token, job.recipient, job.minimumAmount)
                  then resumed.(store := Update(s.store, job.actionId, EXECUTED, Metadata(None, Some(job.txHash)), now),
                                receipts := s.receipts[job.actionId := lookup.value])
                  else resumed
  {
    hide Sound, Known, Mirrored, InStep, ChangedOnly, SameRequest, DecisionFits, JobInStep, Covers, Update,
         VerifyTransfer, ActionAdvances;
    LookAt(w, s, s.settling[task].actionId);
    assert JobFits(w, s, s.settling[task]);
  }

  lemma FinishSettleKeepsSound(w: World, s: State, task: nat, lookup: Option<Receipt>, now: nat)
    requires Sound(w, s)
    ensures Keeps(w, s, FinishSettle(w, s, task, lookup, now).0)
  {
    hide Sound, Keeps, Update, Covers, JobFits, Known, FinishSettle, VerifyTransfer;
    if task in s.settling {
      var job := s.settling[task];
      var resumed := s.(settling := s.settling - {task});
      ForgottenSettlementKeepsSound(w, s, task);
      ResumedSettlement(w, s, task, lookup, now);
      if lookup.Some? && Covers(w.env, lookup.value, job.token, job.recipient, job.minimumAmount) {
        AcceptedSettlementKeepsSound(w, resumed, job, lookup.value, now);
        KeepsIsTransitive(w, s, resumed, FinishSettle(w, s, task, lookup, now).0);
      }
    } else {
      UnknownSettlementIsIdle(w, s, task, lookup, now);
      DoingNothingKeeps(w, s);
    }
  }

  lemma UnknownSettlementIsIdle(w: World, s: State, task: nat, lookup: Option<Receipt>, now: nat)
    requires task !in s.settling
    ensures FinishSettle(w, s, task, lookup, now).0 == s
  {
    hide Covers, Update, VerifyTransfer;
  }

  lemma SettlingChangesWell(w: World, s: State, store: Store, job: Settlement, receipt: Receipt)
    requires Sound(w, s) && JobFits(w, s, job)
    requires Covers(w.env, receipt, job.token, job.recipient, job.minimumAmount)
    requires Mirrored(store) && ChangedOnly(Known(s.store), Known(store), job.actionId)
    requires job.actionId in Known(store)
    requires var a, b := Known(s.store)[job.actionId], Known(store)[job.actionId];
             SameRequest(a, b) && b.status == EXECUTED && b.signature == a.signature && b.txHash.Some?
    ensures ChangesWell(w, s, s.(store := store, receipts := s.receipts[job.actionId := receipt]), job.actionId)
  {
    hide Sound, Covers, InStep, SameRequest, ChangedOnly, JobInStep, Mirrored, Known, DecisionFits;
    var id := job.actionId;
    LookAt(w, s, id);
    if id in s.issued {
      ExecutedStaysInStep(w, Known(s.store)[id], Known(store)[id], At(s.rulings, id), id in s.reasons,
                          At(s.escalations, id), At(s.receipts, id), receipt, job);
    }
  }

  lemma AcceptedSettlementKeepsSound(w: World, s: State, job: Settlement, receipt: Receipt, now: nat)
    requires Sound(w, s) && JobFits(w, s, job)
    requires Covers(w.env, receipt, job.token, job.recipient, job.minimumAmount)
    ensures Keeps(w, s, s.(store := Update(s.store, job.actionId, EXECUTED, Metadata(None, Some(job.txHash)), now),
                           receipts := s.receipts[job.actionId := receipt]))
  {
    hide Sound, Keeps, Update, Covers, SameRequest, ChangesWell, Mirrored, Known, JobInStep, InStep, DecisionFits,
         ActionAdvances;
    var meta := Metadata(None, Some(job.txHash));
    var store := Update(s.store, job.actionId, EXECUTED, meta, now);
    LookAt(w, s, job.actionId);
    UpdateKeepsMirrored(s.store, job.actionId, EXECUTED, meta, now);
    UpdateChangesOneAction(s.store, job.actionId, EXECUTED, meta, now);
    ChangedOnlyOneRequest(Known(s.store), Known(store), job.actionId);
    SettlingChangesWell(w, s, store, job, receipt);
    var t := s.(store := store, receipts := s.receipts[job.actionId := receipt]);
    NothingNewFits(w, s, t);
    OneActionKeepsSound(w, s, t, job.actionId);
  }

  // ---------------------------------------------------------------- restarts and the legacy rail

  lemma RestartAdvances(w: World, s: State, store: Store)
    requires Scoped(s) && Known(store).Keys == Known(s.store).Keys
    requires forall k :: k in Known(s.store) ==>
               Known(store)[k] == Known(s.store)[k].(riskScore := 0, requiresHumanApproval := false)
    ensures OnlyAdvances(s, AfterRestart(s, store))
  {
    hide Known;
  }

  lemma RestartStaysSound(w: World, s: State, store: Store)
    requires Sound(w, s) && Mirrored(store) && Known(store).Keys == Known(s.store).Keys
    requires forall k :: k in Known(s.store) ==>
               Known(store)[k] == Known(s.store)[k].(riskScore := 0, requiresHumanApproval := false)
    ensures Sound(w, AfterRestart(s, store))
  {
    hide Mirrored, InStep, Known;
    var t := AfterRestart(s, store);
    forall k | k in t.issued ensures InStepAt(w, t, k) {
      assert InStepAt(w, s, k);
      RestartedStaysInStep(w, Known(s.store)[k], Known(t.store)[k], At(s.rulings, k), k in s.reasons,
                           At(s.escalations, k), At(s.receipts, k));
    }
  }

  /** A new process keeps everything, whatever part of the table it found loaded. */
  lemma RestartKeepsSound(w: World, s: State, early: set<string>)
    requires Sound(w, s)
    ensures Keeps(w, s, AfterRestart(s, Restart(s.store.table, early)))
  {
    hide Mirrored, AllInStep, JobsInStep, DecisionsFit, OnlyAdvances, Restart, Known, AfterRestart, AmountsAreUnits;
    RestartKeepsKnown(s.store, early);
    RestartStaysSound(w, s, Restart(s.store.table, early));
    RestartAdvances(w, s, Restart(s.store.table, early));
  }

  lemma OtherCreateKeepsSound(w: World, s: State, dto: ProposeAction, id: string, now: nat)
    requires Sound(w, s) && id !in s.store.table && IsUnits(w.env, dto.amount)
    ensures Keeps(w, s, s.(store := Create(s.store, dto, id, now)))
  {
    IssuedAreKnown(s);
    hide Sound, Create, Known;
    CreateAddsOneAction(s.store, dto, id, now);
    KnownIsTable(s.store);
    NewKeyAdvances(s, s.(store := Create(s.store, dto, id, now)));
    OtherCreateStaysSound(w, s, dto, id, now);
  }

  lemma NewKeyAdvances(s: State, t: State)
    requires t == s.(store := t.store)
    requires forall k :: k in s.issued ==> k in Known(s.store)
    requires forall k :: k in Known(s.store) ==> k in Known(t.store) && Known(t.store)[k] == Known(s.store)[k]
    ensures OnlyAdvances(s, t)
  {
    hide Known, ActionAdvances;
    StandingStillIsAllowed();
  }

  /** Actions beside the old ones leave what was suspended fitting. */
  lemma MoreActionsSameJobs(w: World, s: State, t: State)
    requires forall k :: k in Known(s.store) ==> k in Known(t.store) && Known(t.store)[k] == Known(s.store)[k]
    requires t.settling == s.settling && t.deciding == s.deciding && t.marked == s.marked
    requires forall k :: k in Known(s.store) ==>
               (k in t.issued <==> k in s.issued) && At(t.rulings, k) == At(s.rulings, k)
    requires t.escalations == s.escalations && JobsInStep(w, s) && DecisionsFit(w, s)
    ensures JobsInStep(w, t) && DecisionsFit(w, t)
  {
    hide Known, IsVouched, JobInStep;
    forall task | task in t.settling ensures JobFits(w, t, t.settling[task]) {
      assert JobFits(w, s, s.settling[task]);
    }
    forall task | task in t.deciding ensures DecisionFits(w, t, t.deciding[task]) {
      assert DecisionFits(w, s, s.deciding[task]);
    }
    forall task | task in t.marked ensures DecisionFits(w, t, t.marked[task]) {
      assert DecisionFits(w, s, s.marked[task]);
    }
  }

  lemma OtherCreateStaysSound(w: World, s: State, dto: ProposeAction, id: string, now: nat)
    requires Sound(w, s) && id !in s.store.table && IsUnits(w.env, dto.amount)
    ensures Sound(w, s.(store := Create(s.store, dto, id, now)))
  {
    hide Mirrored, Create, InStep, IsUnits, Known, JobsInStep, DecisionsFit;
    CreateKeepsMirrored(s.store, dto, id, now);
    CreateAddsOneAction(s.store, dto, id, now);
    KnownIsTable(s.store);
    var t := s.(store := Create(s.store, dto, id, now));
    assert AmountsAreUnits(w, Known(t.store));
    assert Scoped(t);
    forall k | k in t.issued ensures InStepAt(w, t, k) {
      assert InStepAt(w, s, k);
    }
    MoreActionsSameJobs(w, s, t);
  }

  lemma KnownIsTable(store: Store)
    ensures Known(store).Keys == store.table.Keys
  {
  }

  lemma OtherUpdateKeepsSound(w: World, s: State, id: string, status: Status, meta: Metadata, now: nat)
    requires Sound(w, s) && id !in s.issued
    ensures Keeps(w, s, s.(store := Update(s.store, id, status, meta, now)))
  {
    hide Sound, Update, Mirrored, Known, ChangedOnly, Keeps;
    StoreIsMirrored(w, s);
    KnownIsTable(s.store);
    if id in s.store.table {
      UpdateKeepsMirrored(s.store, id, status, meta, now);
      UpdateChangesOneAction(s.store, id, status, meta, now);
      ForeignChangeKeepsSound(w, s, Update(s.store, id, status, meta, now), id);
    } else {
      UpdateOfUnknownIsIdle(s.store, id, status, meta, now);
      DoingNothingKeeps(w, s);
    }
  }

  lemma ForeignChangeKeepsSound(w: World, s: State, store: Store, id: string)
    requires Sound(w, s) && id !in s.issued && id in Known(s.store)
    requires Mirrored(store) && ChangedOnly(Known(s.store), Known(store), id)
    ensures Keeps(w, s, s.(store := store))
  {
    hide Sound, Keeps, Mirrored, InStep, ChangedOnly, SameRequest, JobFits, DecisionFits, Known, ActionAdvances;
    LookAt(w, s, id);
    var t := s.(store := store);
    assert ChangesWell(w, s, t, id);
    NothingNewFits(w, s, t);
    OneActionKeepsSound(w, s, t, id);
  }

  // ---------------------------------------------------------------- authorize

  /** What the policy lets through without a human: a parsed amount within the single-payment limit
      that, with today's counted total, stays within the daily limit. */
  lemma AllowedPaymentsFit(w: World, actions: map<string, TreasuryAction>, agent: string, request: PaymentRequest,
                           justification: string, now: nat)
    ensures var p := Evaluate(w, actions, agent, request, justification, now);
            p.Ok? && p.value.decision != BLOCK ==>
              && w.env.bigInt(request.amount).Some?
              && w.env.getAddress(request.asset).Some?
              && w.env.getAddress(request.asset) == w.env.getAddress(w.config.usdcAddress)
              && w.env.getAddress(request.payTo).Some?
              && w.env.getAddress(request.payTo).value in w.config.approvedPayTo
              && (p.value.decision == ALLOW ==>
                    && Units(w.env, request.amount) <= w.config.autonomousLimit
                    && Sum(Counted(w.env, actions, agent, StartOfDay(now))) + Units(w.env, request.amount)
                       <= w.config.dailyLimit)
  {
    hide Normaliser.Analyse, Sum;
  }

  /** The new action, as it stands when `authorize` returns. */
  lemma NewActionInStep(w: World, a: TreasuryAction, agent: string, request: PaymentRequest, createdAt: nat,
                        d: Decision)
    requires a.agentAddress == agent && a.justification == FullJustification(request) && a.createdAt == createdAt
    requires a.token == request.asset && a.recipient == request.payTo && a.amount == request.amount
    requires a.status == StatusOf(d) && a.signature == None
    requires d != BLOCK ==> Vetted(w, a, Ruling(d, ToLower(agent), createdAt, Units(w.env, request.amount)))
    requires d == ALLOW ==> Units(w.env, request.amount) <= w.config.autonomousLimit
    ensures InStep(w, a, Some(Ruling(d, ToLower(agent), createdAt, Units(w.env, request.amount))), d == ESCALATE,
                   None, None)
  {
  }

  /** The store `authorize` leaves once it has a decision. */
  function JudgedStore(s: State, agent: string, request: PaymentRequest, id: string, createdAt: nat,
                       p: PolicyDecision, evaluatedAt: nat): Store {
    Update(Annotate(Create(s.store, Proposal(agent, request), id, createdAt), id, p.riskScore, p.decision != ALLOW),
           id, StatusOf(p.decision), NO_METADATA, evaluatedAt)
  }

  lemma JudgedStoreHoldsTheAction(s: State, agent: string, request: PaymentRequest, id: string, createdAt: nat,
                                  p: PolicyDecision, evaluatedAt: nat)
    requires Mirrored(s.store) && id !in s.store.table
    ensures var t := JudgedStore(s, agent, request, id, createdAt, p, evaluatedAt);
            var m, n := Known(s.store), Known(t);
            && Mirrored(t)
            && n.Keys == m.Keys + {id}
            && (forall k :: k in m ==> n[k] == m[k])
            && t.actions.Keys == s.store.actions.Keys + {id}
            && var a := n[id];
               && a.agentAddress == agent && a.justification == FullJustification(request) && a.createdAt == createdAt
               && a.token == request.asset && a.recipient == request.payTo && a.amount == request.amount
               && a.target == request.asset && a.value == "0" && a.data == "0x"
               && a.deadline == createdAt / 1000 + 3600
               && a.status == StatusOf(p.decision) && a.signature == None
               && a.riskScore == p.riskScore && a.requiresHumanApproval == (p.decision != ALLOW)
  {
    hide Mirrored, Create, Annotate, Update, FullJustification, Known, StatusOf;
    var dto := Proposal(agent, request);
    var created := Create(s.store, dto, id, createdAt);
    var judged := Annotate(created, id, p.riskScore, p.decision != ALLOW);
    CreateKeepsMirrored(s.store, dto, id, createdAt);
    CreateAddsOneAction(s.store, dto, id, createdAt);
    KnownIsTable(created);
    KnownIsTable(s.store);
    AnnotateKeepsMirrored(created, id, p.riskScore, p.decision != ALLOW);
    AnnotateChangesOneAction(created, id, p.riskScore, p.decision != ALLOW);
    KnownIsTable(judged);
    UpdateKeepsMirrored(judged, id, StatusOf(p.decision), NO_METADATA, evaluatedAt);
    UpdateChangesOneAction(judged, id, StatusOf(p.decision), NO_METADATA, evaluatedAt);
  }

  /** A new issued action beside an otherwise unchanged state. */
  ghost predicate AddsOne(w: World, s: State, t: State, id: string) {
    && id !in Known(s.store)
    && Mirrored(t.store)
    && Known(t.store).Keys == Known(s.store).Keys + {id}
    && (forall k :: k in Known(s.store) ==> Known(t.store)[k] == Known(s.store)[k])
    && IsUnits(w.env, Known(t.store)[id].amount)
    && t.issued == s.issued + {id} && t.settling == s.settling
    && t.deciding == s.deciding && t.marked == s.marked
    && t.escalations == s.escalations && t.receipts == s.receipts
    && (forall k :: k != id ==> At(t.rulings, k) == At(s.rulings, k) && (k in t.reasons <==> k in s.reasons))
    && InStep(w, Known(t.store)[id], At(t.rulings, id), id in t.reasons, None, None)
  }

  lemma NewActionIsScoped(w: World, s: State, t: State, id: string)
    requires Scoped(s) && AddsOne(w, s, t, id)
    ensures Scoped(t)
  {
    hide Mirrored, InStep, Known;
    forall k | k in t.rulings ensures k in t.issued {
      if k != id {
        assert At(t.rulings, k) == At(s.rulings, k);
      }
    }
  }

  lemma NewActionStaysSound(w: World, s: State, t: State, id: string)
    requires Sound(w, s) && AddsOne(w, s, t, id)
    ensures Sound(w, t)
  {
    hide Mirrored, InStep, Known, IsUnits, JobsInStep, DecisionsFit, Scoped;
    NewActionIsScoped(w, s, t, id);
    IssuedAreKnown(s);
    forall k | k in t.issued ensures InStepAt(w, t, k) {
      if k != id {
        assert InStepAt(w, s, k);
      }
    }
    MoreActionsSameJobs(w, s, t);
  }

  lemma IssuedAreKnown(s: State)
    requires Scoped(s)
    ensures s.issued <= Known(s.store).Keys && s.escalations.Keys <= s.issued && s.receipts.Keys <= Known(s.store).Keys
  {
    hide Known;
  }

  lemma NewActionAdvances(w: World, s: State, t: State, id: string)
    requires Scoped(s) && AddsOne(w, s, t, id)
    ensures OnlyAdvances(s, t)
  {
    hide Mirrored, InStep, ActionAdvances, Known;
    StandingStillIsAllowed();
    forall k | k in s.rulings ensures k in t.rulings && t.rulings[k] == s.rulings[k] {
      assert At(t.rulings, k) == At(s.rulings, k);
    }
  }

  lemma NewActionKeepsSound(w: World, s: State, t: State, id: string)
    requires Sound(w, s) && AddsOne(w, s, t, id)
    ensures Keeps(w, s, t)
  {
    hide AddsOne, OnlyAdvances, AllInStep, JobsInStep, DecisionsFit, Mirrored, Known;
    NewActionStaysSound(w, s, t, id);
    NewActionAdvances(w, s, t, id);
  }

  /** The state `authorize` leaves once it has a decision. */
  function JudgedState(w: World, s: State, agent: string, request: PaymentRequest, id: string, createdAt: nat,
                       p: PolicyDecision, evaluatedAt: nat): State {
    s.(store := JudgedStore(s, agent, request, id, createdAt, p, evaluatedAt),
       issued := s.issued + {id},
       reasons := if p.decision == ESCALATE then s.reasons[id := p.reasons] else s.reasons,
       rulings := s.rulings[id := Ruling(p.decision, ToLower(agent), createdAt, Units(w.env, request.amount))])
  }

  /** What the policy guarantees of a decision other than BLOCK. */
  predicate IsVettedDecision(w: World, request: PaymentRequest, d: Decision) {
    d != BLOCK ==>
      && w.env.bigInt(request.amount).Some?
      && SameAddress(w.env, Some(request.asset), w.config.usdcAddress)
      && w.env.getAddress(request.payTo).Some?
      && w.env.getAddress(request.payTo).value in w.config.approvedPayTo
      && (d == ALLOW ==> Units(w.env, request.amount) <= w.config.autonomousLimit)
  }

  lemma JudgedActionInStep(w: World, s: State, agent: string, request: PaymentRequest, id: string, createdAt: nat,
                           p: PolicyDecision, evaluatedAt: nat)
    requires Mirrored(s.store) && id !in s.store.table && IsVettedDecision(w, request, p.decision)
    ensures var n := Known(JudgedStore(s, agent, request, id, createdAt, p, evaluatedAt));
            id in n && n[id].amount == request.amount
            && InStep(w, n[id], Some(Ruling(p.decision, ToLower(agent), createdAt, Units(w.env, request.amount))),
                      p.decision == ESCALATE, None, None)
  {
    hide Mirrored, InStep, JudgedStore, FullJustification, SameAddress, Known;
    JudgedStoreHoldsTheAction(s, agent, request, id, createdAt, p, evaluatedAt);
    NewActionInStep(w, Known(JudgedStore(s, agent, request, id, createdAt, p, evaluatedAt))[id],
                    agent, request, createdAt, p.decision);
  }

  lemma RuledAddsOne(w: World, s: State, store: Store, id: string, r: Ruling, reasons: seq<Reason>)
    requires Scoped(s) && id !in Known(s.store) && Mirrored(store)
    requires Known(store).Keys == Known(s.store).Keys + {id}
    requires forall k :: k in Known(s.store) ==> Known(store)[k] == Known(s.store)[k]
    requires IsUnits(w.env, Known(store)[id].amount)
    requires InStep(w, Known(store)[id], Some(r), r.decision == ESCALATE, None, None)
    ensures AddsOne(w, s, s.(store := store, issued := s.issued + {id}, rulings := s.rulings[id := r],
                             reasons := if r.decision == ESCALATE then s.reasons[id := reasons] else s.reasons), id)
  {
    hide Mirrored, InStep, Known, IsUnits;
    IssuedAreKnown(s);
  }

  lemma JudgedAddsOne(w: World, s: State, agent: string, request: PaymentRequest, id: string, createdAt: nat,
                      p: PolicyDecision, evaluatedAt: nat)
    requires Mirrored(s.store) && Scoped(s) && id !in s.store.table && IsUnits(w.env, request.amount)
    requires IsVettedDecision(w, request, p.decision)
    ensures AddsOne(w, s, JudgedState(w, s, agent, request, id, createdAt, p, evaluatedAt), id)
  {
    hide Mirrored, InStep, JudgedStore, IsUnits, IsVettedDecision, Units, Known, FullJustification, Scoped, AddsOne;
    KnownIsTable(s.store);
    JudgedStoreHoldsTheAction(s, agent, request, id, createdAt, p, evaluatedAt);
    JudgedActionInStep(w, s, agent, request, id, createdAt, p, evaluatedAt);
    RuledAddsOne(w, s, JudgedStore(s, agent, request, id, createdAt, p, evaluatedAt), id,
                 Ruling(p.decision, ToLower(agent), createdAt, Units(w.env, request.amount)), p.reasons);
  }

  lemma FailedAddsOne(w: World, s: State, agent: string, request: PaymentRequest, id: string, createdAt: nat)
    requires Mirrored(s.store) && Scoped(s) && id !in s.store.table && IsUnits(w.env, request.amount)
    ensures AddsOne(w, s, s.(store := Create(s.store, Proposal(agent, request), id, createdAt),
                             issued := s.issued + {id}), id)
  {
    hide Mirrored, Create, IsUnits, Known;
    IssuedAreKnown(s);
    KnownIsTable(s.store);
    CreateKeepsMirrored(s.store, Proposal(agent, request), id, createdAt);
    CreateAddsOneAction(s.store, Proposal(agent, request), id, createdAt);
  }

  /** `authorize` either fails after creating the action, or leaves the judged state. */
  lemma AuthorizeInTwoCases(w: World, s: State, agent: string, request: PaymentRequest, id: string,
                            createdAt: nat, evaluatedAt: nat)
    ensures var p := Evaluate(w, Create(s.store, Proposal(agent, request), id, createdAt).actions, agent, request,
                              FullJustification(request), evaluatedAt);
            Authorize(w, s, agent, request, id, createdAt, evaluatedAt)
            == if p.Ok? then (JudgedState(w, s, agent, request, id, createdAt, p.value, evaluatedAt), p)
               else (s.(store := Create(s.store, Proposal(agent, request), id, createdAt), issued := s.issued + {id}),
                     p)
  {
    hide Evaluate, Create, Annotate, Update, FullJustification;
  }

  lemma EvaluationIsVetted(w: World, actions: map<string, TreasuryAction>, agent: string, request: PaymentRequest,
                           justification: string, now: nat)
    ensures var p := Evaluate(w, actions, agent, request, justification, now);
            p.Ok? ==> IsVettedDecision(w, request, p.value.decision)
  {
    hide Evaluate, Sum, Counted;
    AllowedPaymentsFit(w, actions, agent, request, justification, now);
  }

  /** Either way it adds one action, in step with its ruling. */
  lemma AuthorizeAddsOne(w: World, s: State, agent: string, request: PaymentRequest, id: string,
                         createdAt: nat, evaluatedAt: nat)
    requires Sound(w, s) && id !in s.store.table && IsUnits(w.env, request.amount)
    ensures AddsOne(w, s, Authorize(w, s, agent, request, id, createdAt, evaluatedAt).0, id)
  {
    LookAt(w, s, id);
    hide Sound, AddsOne, Evaluate, Authorize, Create, FullJustification, JudgedState, IsVettedDecision, IsUnits,
         Mirrored, Scoped, JobFits, DecisionFits, InStep, SameRequest, ActionAdvances, ChangedOnly, Known;
    var actions := Create(s.store, Proposal(agent, request), id, createdAt).actions;
    var p := Evaluate(w, actions, agent, request, FullJustification(request), evaluatedAt);
    AuthorizeInTwoCases(w, s, agent, request, id, createdAt, evaluatedAt);
    if p.Err? {
      FailedAddsOne(w, s, agent, request, id, createdAt);
    } else {
      EvaluationIsVetted(w, actions, agent, request, FullJustification(request), evaluatedAt);
      JudgedAddsOne(w, s, agent, request, id, createdAt, p.value, evaluatedAt);
    }
  }

  lemma AuthorizeKeepsSound(w: World, s: State, agent: string, request: PaymentRequest, id: string,
                            createdAt: nat, evaluatedAt: nat)
    requires Sound(w, s) && id !in s.store.table && IsUnits(w.env, request.amount)
    ensures Keeps(w, s, Authorize(w, s, agent, request, id, createdAt, evaluatedAt).0)
  {
    hide Sound, Keeps, Authorize, AddsOne, IsUnits;
    AuthorizeAddsOne(w, s, agent, request, id, createdAt, evaluatedAt);
    NewActionKeepsSound(w, s, Authorize(w, s, agent, request, id, createdAt, evaluatedAt).0, id);
  }

  // ---------------------------------------------------------------- every run

  lemma ApplyKeepsSound(w: World, s: State, e: Event)
    requires Sound(w, s) && Admissible(w, s, e)
    ensures Keeps(w, s, Apply(w, s, e))
  {
    hide Sound, Keeps, Authorize, SubmitEscalation, FinishSubmit, BeginApprove, BeginReject, MarkRow, FinishDecision,
         BeginSettle, FinishSettle, Restart, Create, Update, AfterRestart, IsUnits;
    match e
    case Authorized(agent, request, id, createdAt, evaluatedAt) =>
      AuthorizeKeepsSound(w, s, agent, request, id, createdAt, evaluatedAt);
    case Submitted(agent, id, typedData, task, now) => SubmitKeepsSound(w, s, agent, id, typedData, task, now);
    case SubmissionFinished(task) => FinishSubmitKeepsSound(w, s, task);
    case ApprovalBegun(id, signature, task, now) => BeginApproveKeepsSound(w, s, id, signature, task, now);
    case RejectionBegun(id, signature, task) => BeginRejectKeepsSound(w, s, id, signature, task);
    case RowMarked(task, isPassed, now) => MarkRowKeepsSound(w, s, task, isPassed, now);
    case DecisionFinished(task, now) => FinishDecisionKeepsSound(w, s, task, now);
    case SettleBegun(agent, id, txHash, task) => BeginSettleKeepsSound(w, s, agent, id, txHash, task);
    case SettleFinished(task, lookup, now) => FinishSettleKeepsSound(w, s, task, lookup, now);
    case Restarted(early) => RestartKeepsSound(w, s, early);
    case OtherCreated(dto, id, now) => OtherCreateKeepsSound(w, s, dto, id, now);
    case OtherUpdated(id, status, meta, now) => OtherUpdateKeepsSound(w, s, id, status, meta, now);
  }

  lemma StartIsSound(w: World)
    ensures Sound(w, START)
  {
  }

  lemma {:induction false} EveryRunIsSound(w: World, trace: seq<State>, events: seq<Event>, i: nat)
    requires IsRun(w, trace, events) && i < |trace|
    ensures Sound(w, trace[i])
    decreases i
  {
    hide Sound, Apply, Admissible, Keeps;
    if i == 0 {
      StartIsSound(w);
    } else {
      EveryRunIsSound(w, trace, events, i - 1);
      assert StepAt(w, trace, events, i - 1);
      ApplyKeepsSound(w, trace[i - 1], events[i - 1]);
      SoundFromKeeps(w, trace[i - 1], trace[i]);
    }
  }

  /** From any moment of a run to any later one: rulings are final, requests are never rewritten, what was decided
      never waits again, and no row, receipt or signature is lost. */
  lemma {:induction false} LaterStatesOnlyAdvance(w: World, trace: seq<State>, events: seq<Event>, i: nat, j: nat)
    requires IsRun(w, trace, events) && i <= j < |trace|
    ensures Keeps(w, trace[i], trace[j])
    decreases j
  {
    hide Sound, Apply, Admissible, OnlyAdvances, Keeps;
    EveryRunIsSound(w, trace, events, i);
    if i == j {
      DoingNothingKeeps(w, trace[i]);
    } else {
      LaterStatesOnlyAdvance(w, trace, events, i, j - 1);
      EveryRunIsSound(w, trace, events, j - 1);
      assert StepAt(w, trace, events, j - 1);
      ApplyKeepsSound(w, trace[j - 1], events[j - 1]);
      KeepsIsTransitive(w, trace[i], trace[j - 1], trace[j]);
    }
  }

  // ---------------------------------------------------------------- what soundness says

  /** Every issued action of every reachable state is in step with what is recorded about it. */
  lemma RunIsInStep(w: World, trace: seq<State>, events: seq<Event>, i: nat, id: string)
    requires IsRun(w, trace, events) && i < |trace|
    ensures Scoped(trace[i])
    ensures id in trace[i].issued ==> InStepAt(w, trace[i], id)
  {
    hide IsRun, Known, InStep, Mirrored, JobsInStep, DecisionsFit, AmountsAreUnits;
    EveryRunIsSound(w, trace, events, i);
  }

  /** Every single allowed payment kept to the single-payment limit, the approved token and an approved
      payee, needed no signature row, and still counts as approved, or executed once it was settled. */
  lemma AllowedPaymentsStayCounted(w: World, trace: seq<State>, events: seq<Event>, i: nat, id: string)
    requires IsRun(w, trace, events) && i < |trace|
    requires var s := trace[i]; id in s.rulings && s.rulings[id].decision == ALLOW
    ensures var s := trace[i];
            && id in Known(s.store)
            && var a := Known(s.store)[id];
               && a.status == (if id in s.receipts then EXECUTED else APPROVED)
               && w.env.bigInt(a.amount) == Some(s.rulings[id].amount)
               && s.rulings[id].amount <= w.config.autonomousLimit
               && SameAddress(w.env, Some(a.token), w.config.usdcAddress)
               && w.env.getAddress(a.recipient).Some?
               && w.env.getAddress(a.recipient).value in w.config.approvedPayTo
               && id !in s.escalations
  {
    hide IsRun, Known, Transferred, IsVouched;
    RunIsInStep(w, trace, events, i, id);
  }

  /** No escalated payment is ever APPROVED or EXECUTED without the approver's signature, which the action carries,
      over typed data for exactly its transfer. */
  lemma SpendingIsSignedFor(w: World, trace: seq<State>, events: seq<Event>, i: nat, id: string)
    requires IsRun(w, trace, events) && i < |trace|
    requires var s := trace[i]; id in s.rulings && s.rulings[id].decision != ALLOW
    ensures var s := trace[i];
            && id in Known(s.store)
            && var a := Known(s.store)[id];
               a.status == APPROVED || a.status == EXECUTED || id in s.receipts ==>
                 && s.rulings[id].decision == ESCALATE && id in s.escalations
                 && a.signature.Some?
                 && exists t: TypedData ::
                      && t.primaryType == "TransferWithAuthorization" && t.chainId == Some(84532)
                      && t.verifyingContract.Some? && w.env.getAddress(t.verifyingContract.value).Some?
                      && w.env.getAddress(t.verifyingContract.value) == w.env.getAddress(w.config.usdcAddress)
                      && t.from.Some? && w.env.getAddress(t.from.value).Some?
                      && w.env.getAddress(t.from.value) == w.env.getAddress(w.config.ledgerApproverAddress)
                      && t.to.Some? && w.env.getAddress(t.to.value).Some?
                      && w.env.getAddress(t.to.value) == w.env.getAddress(a.recipient)
                      && t.value == a.amount
                      && w.recoverTyped(t, a.signature.value).Some?
                      && w.env.getAddress(w.recoverTyped(t, a.signature.value).value).Some?
                      && w.env.getAddress(w.recoverTyped(t, a.signature.value).value)
                         == w.env.getAddress(w.config.ledgerApproverAddress)
  {
    hide IsRun, Known, Transferred;
    RunIsInStep(w, trace, events, i, id);
    var a := Known(trace[i].store)[id];
    hide InStepAt, Scoped;
    if a.signature.Some? && IsVouched(w, a, a.signature.value) {
      var t :| Vouches(w, a, t, a.signature.value);
    }
  }

  /** Of an escalation row: its typed data names its action's transfer, token, recipient and amount, and its
      signature, once it is SIGNED, is the approver's over such typed data. */
  lemma RowsNameTheirTransfer(w: World, trace: seq<State>, events: seq<Event>, i: nat, id: string)
    requires IsRun(w, trace, events) && i < |trace|
    requires id in trace[i].escalations
    ensures var s := trace[i];
            && id in Known(s.store)
            && var a, e := Known(s.store)[id], s.escalations[id];
               && var t := e.typedData;
               && t.primaryType == "TransferWithAuthorization" && t.chainId == Some(84532)
               && t.verifyingContract.Some? && w.env.getAddress(t.verifyingContract.value).Some?
               && w.env.getAddress(t.verifyingContract.value) == w.env.getAddress(w.config.usdcAddress)
               && w.env.getAddress(a.token) == w.env.getAddress(w.config.usdcAddress)
               && t.from.Some? && w.env.getAddress(t.from.value).Some?
               && w.env.getAddress(t.from.value) == w.env.getAddress(w.config.ledgerApproverAddress)
               && t.to.Some? && w.env.getAddress(t.to.value).Some?
               && w.env.getAddress(t.to.value) == w.env.getAddress(a.recipient)
               && t.value == a.amount
               && (e.status == Signed ==> e.signature.Some? && IsVouched(w, a, e.signature.value))
  {
    hide IsRun, Known, Transferred, IsVouched;
    RunIsInStep(w, trace, events, i, id);
  }

  /** Whatever is EXECUTED was settled, on a successful receipt whose matching transfers reach its amount. */
  lemma ExecutedWasPaid(w: World, trace: seq<State>, events: seq<Event>, i: nat, id: string)
    requires IsRun(w, trace, events) && i < |trace|
    requires id in trace[i].issued
    ensures var s := trace[i];
            && id in Known(s.store)
            && var a := Known(s.store)[id];
               && (a.status == EXECUTED ==> id in s.receipts)
               && (id in s.receipts ==>
                     && a.txHash.Some?
                     && id in s.rulings
                     && w.env.bigInt(a.amount) == Some(s.rulings[id].amount)
                     && s.receipts[id].status == 1
                     && w.env.getAddress(a.token).Some? && w.env.getAddress(a.recipient).Some?
                     && var logs := s.receipts[id].logs;
                        Sum(map i | 0 <= i < |logs| && w.env.getAddress(logs[i].address) == w.env.getAddress(a.token)
                                    && logs[i].transfer.Some?
                                    && w.env.getAddress(logs[i].transfer.value.to) == w.env.getAddress(a.recipient)
                              :: logs[i].transfer.value.value as int) >= s.rulings[id].amount)
  {
    hide IsRun, Known, Transferred, IsVouched, Sum;
    RunIsInStep(w, trace, events, i, id);
    var s := trace[i];
    if id in s.receipts {
      var a := Known(s.store)[id];
      MovedIs(w.env, s.receipts[id].logs, w.env.getAddress(a.token), w.env.getAddress(a.recipient));
    }
  }

  /** What the status endpoint derives from status and row alone is BLOCK exactly for the actions that
      `authorize` blocked, and never less than ALLOW for those it allowed. */
  lemma DerivedBlockIsFaithful(w: World, trace: seq<State>, events: seq<Event>, i: nat, id: string)
    requires IsRun(w, trace, events) && i < |trace|
    requires id in trace[i].issued
    ensures var s := trace[i];
            && id in Known(s.store)
            && var derived := DeriveDecision(Known(s.store)[id].status, id in s.escalations);
               && (derived == BLOCK <==> id in s.rulings && s.rulings[id].decision == BLOCK)
               && (id in s.rulings && s.rulings[id].decision == ALLOW ==> derived == ALLOW)
  {
    hide IsRun, Known, Transferred, IsVouched;
    RunIsInStep(w, trace, events, i, id);
  }

  // ---------------------------------------------------------------- one authorisation

  /** Network, asset and payee are the configured ones. */
  predicate IsApprovedDestination(w: World, request: PaymentRequest) {
    && request.network == w.config.network
    && SameAddress(w.env, Some(request.asset), w.config.usdcAddress)
    && w.env.getAddress(request.payTo).Some?
    && w.env.getAddress(request.payTo).value in w.config.approvedPayTo
  }

  /** When the policy blocks, throws, allows, and by elimination escalates; the score tells the three
      decisions apart. */
  lemma PolicyDecides(w: World, actions: map<string, TreasuryAction>, agent: string, request: PaymentRequest,
                      justification: string, now: nat)
    ensures var p := Evaluate(w, actions, agent, request, justification, now);
            var address, amount := w.env.getAddress, w.env.bigInt(request.amount);
            var fine := && request.network == w.config.network
                        && address(request.asset).Some? && address(request.asset) == address(w.config.usdcAddress)
                        && address(request.payTo).Some? && address(request.payTo).value in w.config.approvedPayTo;
            var semantic := Normaliser.Analyse(justification);
            var total := TodaysApprovedTotal(w.env, actions, agent, now);
            && (p.Ok? && p.value.decision == BLOCK <==> !fine)
            && (p.Err? ==> p.error == SyntaxError)
            && (p.Err? <==> fine && (amount.None? || (amount.value <= w.config.autonomousLimit && total.None?)))
            && (p.Ok? && p.value.decision == ALLOW <==>
                  && fine && amount.Some? && amount.value <= w.config.autonomousLimit
                  && total.Some? && total.value + amount.value <= w.config.dailyLimit
                  && semantic.detectedIntents == [])
            && (p.Ok? ==>
                  && (p.value.decision == ALLOW <==> p.value.riskScore == 10)
                  && (p.value.decision == BLOCK ==> p.value.riskScore == 100)
                  && (p.value.decision == ESCALATE ==>
                        var least := if amount.value > w.config.autonomousLimit
                                        || total.value + amount.value > w.config.dailyLimit then 60 else 10;
                        p.value.riskScore == if semantic.riskScore > least then semantic.riskScore else least))
  {
    Normaliser.AnalysisScore(justification);
    SomeIntentScores(justification);
    hide Normaliser.Analyse, Sum, Counted, CountedParse;
  }

  /** The reasons it gives: the first thing wrong with the destination; else the limit that is exceeded, if one is, and
      the detected intents, if there are any; or that the payment complies. */
  lemma PolicyExplains(w: World, actions: map<string, TreasuryAction>, agent: string, request: PaymentRequest,
                       justification: string, now: nat)
    ensures var p := Evaluate(w, actions, agent, request, justification, now);
            var address, amount := w.env.getAddress, w.env.bigInt(request.amount);
            var intents := Normaliser.Analyse(justification).detectedIntents;
            var total := TodaysApprovedTotal(w.env, actions, agent, now);
            p.Ok? ==>
              p.value.reasons
              == if request.network != w.config.network then [NetworkNotApproved]
                 else if address(request.asset).None? || address(request.payTo).None? then [MalformedAddress]
                 else if address(request.asset) != address(w.config.usdcAddress) then [AssetNotApproved]
                 else if address(request.payTo).value !in w.config.approvedPayTo then [PayeeNotApproved]
                 else
                   (if amount.value > w.config.autonomousLimit then [ExceedsAutonomousLimit]
                    else if total.value + amount.value > w.config.dailyLimit then [ExceedsDailyLimit]
                    else if intents == [] then [Complies] else [])
                   + (if intents == [] then [] else [AdversarialJustification(intents)])
  {
    hide Normaliser.Analyse, Sum, Counted, CountedParse;
  }

  /** What today's total is: over the agent's own actions of this rail, approved or executed, since UTC midnight. */
  lemma TodaysTotalIs(env: Env, actions: map<string, TreasuryAction>, agent: string, now: nat)
    ensures var total := TodaysApprovedTotal(env, actions, agent, now);
            var counted := map k | k in actions && ToLower(actions[k].agentAddress) == ToLower(agent)
                                   && "x402: " <= actions[k].justification
                                   && (actions[k].status == APPROVED || actions[k].status == EXECUTED)
                                   && actions[k].createdAt >= now / 86_400_000 * 86_400_000
                             :: if env.bigInt(actions[k].amount).Some? then env.bigInt(actions[k].amount).value else 0;
            && (total.Some? <==> forall k :: k in counted ==> env.bigInt(actions[k].amount).Some?)
            && (total.Some? ==> total.value == Sum(counted))
  {
    var counted := map k | k in actions && ToLower(actions[k].agentAddress) == ToLower(agent)
                           && "x402: " <= actions[k].justification
                           && (actions[k].status == APPROVED || actions[k].status == EXECUTED)
                           && actions[k].createdAt >= now / 86_400_000 * 86_400_000
                     :: if env.bigInt(actions[k].amount).Some? then env.bigInt(actions[k].amount).value else 0;
    assert Counted(env, actions, agent, StartOfDay(now)) == counted;
    hide Sum, ToLower;
  }

  /** A detected intent is worth at least 15 points. */
  lemma SomeIntentScores(text: string)
    ensures Normaliser.Analyse(text).detectedIntents != [] ==> 15 <= Normaliser.Analyse(text).riskScore
  {
  }

  /** What `authorize` leaves behind: one new action with the request as made and the status and verdict of
      the reply, its reasons waiting exactly when it escalated, and nothing else of the store touched. */
  lemma AuthorizeStoresTheRuling(w: World, s: State, agent: string, request: PaymentRequest, id: string,
                                 createdAt: nat, evaluatedAt: nat)
    requires Mirrored(s.store) && id !in s.store.table && id !in s.reasons
    ensures var (t, reply) := Authorize(w, s, agent, request, id, createdAt, evaluatedAt);
            && Known(t.store).Keys == Known(s.store).Keys + {id}
            && (forall k :: k in Known(s.store) ==> Known(t.store)[k] == Known(s.store)[k])
            && t.escalations == s.escalations && t.settling == s.settling
            && var a := Known(t.store)[id];
               && a.token == request.asset && a.recipient == request.payTo && a.amount == request.amount
               && a.target == request.asset && a.value == "0" && a.data == "0x"
               && a.agentAddress == agent && a.createdAt == createdAt && a.deadline == createdAt / 1000 + 3600
               && a.justification == "x402: " + request.resourceUrl + " | " + request.justification
               && (reply.Err? ==> a.status == PENDING && id !in t.reasons)
               && (reply.Ok? ==>
                     && a.status == (match reply.value.decision
                                     case ALLOW => APPROVED case ESCALATE => PENDING case BLOCK => REJECTED)
                     && a.riskScore == reply.value.riskScore
                     && (a.requiresHumanApproval <==> reply.value.decision != ALLOW)
                     && At(t.reasons, id)
                        == if reply.value.decision == ESCALATE then Some(reply.value.reasons) else None)
  {
    hide Mirrored, Evaluate, Create, JudgedStore, Known, Authorize;
    AuthorizeInTwoCases(w, s, agent, request, id, createdAt, evaluatedAt);
    var p := Evaluate(w, Create(s.store, Proposal(agent, request), id, createdAt).actions, agent, request,
                      FullJustification(request), evaluatedAt);
    if p.Err? {
      CreateAddsOneAction(s.store, Proposal(agent, request), id, createdAt);
    } else {
      JudgedStoreHoldsTheAction(s, agent, request, id, createdAt, p.value, evaluatedAt);
    }
  }
}
