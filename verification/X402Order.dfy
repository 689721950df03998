/** Escalation rows against action statuses: that they agree but for the decision in flight, over runs in which
    no handler overtakes another, and exactly which steps end the agreement. */
module X402Order {
  import opened Common
  import opened ActionStore
  import opened X402
  import opened X402Proofs

  // ---------------------------------------------------------------- agreement

  /** The signature is the approver's over this typed data. */
  predicate Signs(w: World, typedData: TypedData, signature: string) {
    SameAddress(w.env, w.recoverTyped(typedData, signature), w.config.ledgerApproverAddress)
  }

  /** Row and action while no decision is between its two updates. */
  predicate AtRest(w: World, a: TreasuryAction, e: Escalation) {
    match e.status
    case AwaitingSignature => a.status == PENDING && e.signature == None && a.signature == None
    case Signed =>
      && (a.status == APPROVED || a.status == EXECUTED)
      && e.signature.Some? && e.signature == a.signature && Signs(w, e.typedData, e.signature.value)
    case Refused => a.status == REJECTED
  }

  /** Row and action between the two updates of a decision. */
  predicate InFlight(w: World, a: TreasuryAction, e: Escalation, job: HumanDecision) {
    && a.status == PENDING && a.signature == None
    && e.status == MarkOf(job) && e.signature == Some(job.signature)
    && (job.isApproval ==> Signs(w, e.typedData, job.signature))
  }

  /** No decision on the action is between its two updates. */
  predicate IsIdle(s: State, id: string) {
    forall task :: task in s.marked ==> s.marked[task].actionId != id
  }

  ghost predicate RowAgrees(w: World, s: State, id: string)
    requires id in s.escalations && id in Known(s.store)
  {
    var a, e := Known(s.store)[id], s.escalations[id];
    && (forall task :: task in s.deciding && s.deciding[task].actionId == id && s.deciding[task].isApproval ==>
          Signs(w, e.typedData, s.deciding[task].signature))
    && (forall task :: task in s.marked && s.marked[task].actionId == id ==> InFlight(w, a, e, s.marked[task]))
    && (IsIdle(s, id) ==> AtRest(w, a, e))
  }

  predicate IsSpendable(a: TreasuryAction) { a.status == APPROVED || a.status == EXECUTED }

  ghost predicate Agrees(w: World, s: State, id: string)
    requires id in Known(s.store)
  {
    && (id in s.receipts ==> Known(s.store)[id].status == EXECUTED)
    && (forall task :: task in s.settling && s.settling[task].actionId == id ==> IsSpendable(Known(s.store)[id]))
    && (forall t, u :: t in s.marked && u in s.marked && s.marked[t].actionId == id && s.marked[u].actionId == id
          ==> t == u)
    && (id in s.escalations ==> RowAgrees(w, s, id))
  }

  ghost predicate Orderly(w: World, s: State) {
    && s.issued <= Known(s.store).Keys
    && forall id :: id in s.issued ==> Agrees(w, s, id)
  }

  /** Submitted typed data is not replaced. */
  ghost predicate KeepsTypedData(s: State, t: State) {
    forall id :: id in s.escalations ==>
      id in t.escalations && t.escalations[id].typedData == s.escalations[id].typedData
  }

  /** Statuses only move along PENDING, then APPROVED or REJECTED, and from APPROVED to EXECUTED. */
  predicate MayBecome(a: Status, b: Status) {
    a == b || a == PENDING || (a == APPROVED && b == EXECUTED)
  }

  ghost predicate MovesForward(s: State, t: State) {
    && KeepsTypedData(s, t)
    && forall id :: id in s.issued ==>
         && id in Known(s.store) && id in Known(t.store)
         && MayBecome(Known(s.store)[id].status, Known(t.store)[id].status)
  }

  /** A step that overtakes nothing: a submission finds no row, or repeats one that still waits; a decision finds
      its row still waiting as it marks it; and no process ends between the two updates of a decision. */
  predicate IsInOrder(w: World, s: State, e: Event) {
    match e
    case Submitted(agent, id, typedData, task, now) =>
      SubmitEscalation(w, s, agent, id, typedData, task, now).1.Ok? && id in s.escalations ==>
        IsAwaiting(s, id) && s.escalations[id].typedData == typedData
    case RowMarked(task, isPassed, now) =>
      MarkRow(s, task, isPassed, now).1.Ok? ==> IsAwaiting(s, s.deciding[task].actionId)
    case Restarted(_) => s.marked == map[]
    case _ => true
  }

  // ---------------------------------------------------------------- what a step leaves alone

  /** Two states that hold the same about one action, but for handlers that are gone. */
  ghost predicate SameAbout(s: State, t: State, id: string) {
    && id in Known(s.store) && id in Known(t.store)
    && Known(t.store)[id].status == Known(s.store)[id].status
    && Known(t.store)[id].signature == Known(s.store)[id].signature
    && At(t.escalations, id) == At(s.escalations, id)
    && (id in t.receipts ==> id in s.receipts)
    && (forall task :: task in t.settling && t.settling[task].actionId == id ==>
          task in s.settling && s.settling[task] == t.settling[task])
    && (forall task :: task in t.deciding && t.deciding[task].actionId == id ==>
          task in s.deciding && s.deciding[task] == t.deciding[task])
    && (forall task :: task in t.marked && t.marked[task].actionId == id ==>
          task in s.marked && s.marked[task] == t.marked[task])
    && (forall task :: task in s.marked && s.marked[task].actionId == id ==>
          task in t.marked && t.marked[task] == s.marked[task])
  }

  lemma SameAboutAgrees(w: World, s: State, t: State, id: string)
    requires SameAbout(s, t, id) && Agrees(w, s, id)
    ensures Agrees(w, t, id)
  {
    hide Known, Signs;
    assert id in t.escalations <==> id in s.escalations;
    assert IsIdle(t, id) <==> IsIdle(s, id);
  }

  /** It is enough to look at the one action a step is about. */
  lemma OneIdStaysOrderly(w: World, s: State, t: State, id: string)
    requires Orderly(w, s) && t.issued == s.issued
    requires forall k :: k in s.issued && k != id ==> SameAbout(s, t, k)
    requires id in s.issued ==> id in Known(t.store) && Agrees(w, t, id)
    ensures Orderly(w, t)
  {
    hide Agrees, Known;
    forall k | k in t.issued ensures k in Known(t.store) && Agrees(w, t, k) {
      if k != id {
        hide SameAbout;
        assert k in Known(t.store) by {
          SameAboutKnows(s, t, k);
        }
        SameAboutAgrees(w, s, t, k);
      }
    }
  }

  lemma OneIdMovesForward(s: State, t: State, id: string)
    requires forall k :: k in s.issued && k != id ==> SameAbout(s, t, k)
    requires s.escalations.Keys <= s.issued
    requires id in s.issued ==>
               && id in Known(s.store) && id in Known(t.store)
               && MayBecome(Known(s.store)[id].status, Known(t.store)[id].status)
    requires id in s.escalations ==>
               id in t.escalations && t.escalations[id].typedData == s.escalations[id].typedData
    ensures MovesForward(s, t)
  {
    hide Known;
    forall k | k in s.escalations
      ensures k in t.escalations && t.escalations[k].typedData == s.escalations[k].typedData
    {
      assert k != id ==> At(t.escalations, k) == At(s.escalations, k);
    }
  }

  lemma SameAboutKnows(s: State, t: State, id: string)
    requires SameAbout(s, t, id)
    ensures id in Known(s.store) && id in Known(t.store)
  {
    hide Known;
  }

  /** A step that leaves everything alone. */
  lemma IdleStepStaysOrderly(w: World, s: State, t: State)
    requires Orderly(w, s) && t.issued == s.issued
    requires forall k :: k in s.issued ==> SameAbout(s, t, k)
    requires forall k :: k in s.escalations ==> At(t.escalations, k) == At(s.escalations, k)
    ensures Orderly(w, t) && MovesForward(s, t)
  {
    hide Agrees, Known;
    forall k | k in t.issued ensures k in Known(t.store) && Agrees(w, t, k) {
      SameAboutAgrees(w, s, t, k);
    }
    forall k | k in s.escalations ensures k in t.escalations && t.escalations[k] == s.escalations[k] {
      assert At(t.escalations, k) == At(s.escalations, k);
    }
  }

  // ---------------------------------------------------------------- one action's own steps

  lemma LookAtOrder(w: World, s: State, id: string)
    requires Sound(w, s) && Orderly(w, s)
    ensures Scoped(s) && Mirrored(s.store)
    ensures id in s.issued ==> id in Known(s.store) && Agrees(w, s, id)
    ensures id !in s.issued ==> id !in s.escalations
    ensures s.deciding.Keys !! s.marked.Keys
    ensures forall task :: task in s.settling ==> s.settling[task].actionId in Known(s.store)
    ensures forall task :: task in s.deciding ==> s.deciding[task].actionId in s.escalations
    ensures forall task :: task in s.marked ==> s.marked[task].actionId in s.escalations
  {
    hide Sound, Known, Mirrored, InStep, Agrees, IsVouched, JobInStep;
    LookAt(w, s, id);
  }

  /** An escalated action without a row is unsigned, and nothing is under way for it. */
  lemma NoRowNoDecision(w: World, s: State, id: string)
    requires Sound(w, s) && id in s.reasons && id !in s.escalations
    ensures id in Known(s.store) && Known(s.store)[id].signature == None
    ensures IsIdle(s, id)
    ensures forall task :: task in s.deciding ==> s.deciding[task].actionId != id
  {
    hide Sound, Known, Mirrored, IsVouched, JobInStep, Covers, SameRequest, ChangedOnly, NamesTransfer;
    LookAt(w, s, id);
  }

  /** A row that waits has nothing in flight, and its action is PENDING. */
  lemma AwaitingIsIdle(w: World, s: State, id: string)
    requires id in Known(s.store) && Agrees(w, s, id) && IsAwaiting(s, id)
    ensures IsIdle(s, id) && Known(s.store)[id].status == PENDING && Known(s.store)[id].signature == None
  {
    hide Known, Signs;
    assert forall task :: task in s.marked && s.marked[task].actionId == id ==>
      InFlight(w, Known(s.store)[id], s.escalations[id], s.marked[task]);
  }

  lemma SubmittedAgrees(w: World, s: State, id: string, e: Escalation, task: nat)
    requires Sound(w, s) && Orderly(w, s) && id in s.reasons && Known(s.store)[id].status == PENDING
    requires e.status == AwaitingSignature && e.signature == None
    requires id in s.escalations ==> IsAwaiting(s, id) && s.escalations[id].typedData == e.typedData
    ensures var t := s.(escalations := s.escalations[id := e], submitting := s.submitting[task := id]);
            Agrees(w, t, id)
  {
    hide Sound, Orderly, Known, Signs, Mirrored, InStep, IsAwaiting;
    LookAtOrder(w, s, id);
    if id in s.escalations {
      AwaitingIsIdle(w, s, id);
    } else {
      NoRowNoDecision(w, s, id);
    }
  }

  lemma SubmittedStaysOrderly(w: World, s: State, id: string, e: Escalation, task: nat)
    requires Sound(w, s) && Orderly(w, s) && id in s.reasons && Known(s.store)[id].status == PENDING
    requires e.status == AwaitingSignature && e.signature == None
    requires id in s.escalations ==> IsAwaiting(s, id) && s.escalations[id].typedData == e.typedData
    ensures var t := s.(escalations := s.escalations[id := e], submitting := s.submitting[task := id]);
            Orderly(w, t) && MovesForward(s, t)
  {
    hide Sound, Agrees, Known, Orderly, Mirrored, InStep;
    SubmittedAgrees(w, s, id, e, task);
    LookAtOrder(w, s, id);
    OrderlyIssuedAreKnown(w, s);
    OneIdStaysOrderly(w, s, s.(escalations := s.escalations[id := e], submitting := s.submitting[task := id]), id);
    OneIdMovesForward(s, s.(escalations := s.escalations[id := e], submitting := s.submitting[task := id]), id);
  }

  lemma BegunStaysOrderly(w: World, s: State, job: HumanDecision, task: nat)
    requires Sound(w, s) && Orderly(w, s) && task !in s.deciding && job.actionId in s.escalations
    requires job.isApproval ==> Signs(w, s.escalations[job.actionId].typedData, job.signature)
    ensures var t := s.(deciding := s.deciding[task := job]);
            Orderly(w, t) && MovesForward(s, t)
  {
    hide Sound, Known, Orderly, Mirrored, InStep, Agrees, Signs;
    LookAtOrder(w, s, job.actionId);
    BegunAgrees(w, s, job, task);
    OrderlyIssuedAreKnown(w, s);
    OneIdStaysOrderly(w, s, s.(deciding := s.deciding[task := job]), job.actionId);
    OneIdMovesForward(s, s.(deciding := s.deciding[task := job]), job.actionId);
  }

  lemma BegunAgrees(w: World, s: State, job: HumanDecision, task: nat)
    requires job.actionId in s.escalations && job.actionId in Known(s.store) && Agrees(w, s, job.actionId)
    requires task !in s.deciding && (job.isApproval ==> Signs(w, s.escalations[job.actionId].typedData, job.signature))
    ensures Agrees(w, s.(deciding := s.deciding[task := job]), job.actionId)
  {
    hide Known, Signs;
    var t := s.(deciding := s.deciding[task := job]);
    assert IsIdle(t, job.actionId) <==> IsIdle(s, job.actionId);
  }

  lemma OrderlyIssuedAreKnown(w: World, s: State)
    requires Orderly(w, s)
    ensures s.issued <= Known(s.store).Keys
  {
    hide Agrees, Known;
  }

  /** The row a decision marks while it still waits. */
  lemma MarkedAgrees(w: World, s: State, task: nat, now: nat)
    requires Sound(w, s) && Orderly(w, s) && task in s.deciding && s.deciding[task].signature != ""
    requires IsAwaiting(s, s.deciding[task].actionId)
    ensures s.deciding[task].actionId in s.issued
    ensures Agrees(w, MarkRow(s, task, true, now).0, s.deciding[task].actionId)
  {
    hide Sound, Orderly, Known, Signs, InStep, Mirrored;
    var id := s.deciding[task].actionId;
    LookAtOrder(w, s, id);
    AwaitingIsIdle(w, s, id);
    var t := MarkRow(s, task, true, now).0;
    assert !IsIdle(t, id) by {
      assert task in t.marked && t.marked[task].actionId == id;
    }
  }

  lemma MarkStaysOrderly(w: World, s: State, task: nat, now: nat)
    requires Sound(w, s) && Orderly(w, s) && task in s.deciding && s.deciding[task].signature != ""
    requires IsAwaiting(s, s.deciding[task].actionId)
    ensures var t := MarkRow(s, task, true, now).0;
            Orderly(w, t) && MovesForward(s, t)
  {
    hide Sound, Agrees, Known, InStep, Orderly, Mirrored, IsAwaiting;
    MarkedAgrees(w, s, task, now);
    LookAtOrder(w, s, s.deciding[task].actionId);
    OrderlyIssuedAreKnown(w, s);
    OneIdStaysOrderly(w, s, MarkRow(s, task, true, now).0, s.deciding[task].actionId);
    OneIdMovesForward(s, MarkRow(s, task, true, now).0, s.deciding[task].actionId);
  }

  /** The action a decision in flight updates. */
  lemma DecidedAgrees(w: World, s: State, task: nat, store: Store)
    requires Sound(w, s) && Orderly(w, s) && task in s.marked
    requires var id := s.marked[task].actionId;
             && id in Known(store) && id in s.issued && id in s.escalations
             && Known(store)[id].status == (if s.marked[task].isApproval then APPROVED else REJECTED)
             && (s.marked[task].isApproval ==> Known(store)[id].signature == Some(s.marked[task].signature))
    ensures var t := s.(marked := s.marked - {task}, store := store);
            Agrees(w, t, s.marked[task].actionId)
    ensures Known(s.store)[s.marked[task].actionId].status == PENDING
  {
    hide Sound, Orderly, Known, Signs, InStep, Mirrored;
    var id := s.marked[task].actionId;
    LookAtOrder(w, s, id);
    assert InFlight(w, Known(s.store)[id], s.escalations[id], s.marked[task]);
  }

  lemma OthersAreSame(s: State, task: nat, store: Store, id: string)
    requires s.issued <= Known(s.store).Keys && ChangedOnly(Known(s.store), Known(store), id)
    requires task in s.marked && s.marked[task].actionId == id
    ensures forall k :: k in s.issued && k != id ==> SameAbout(s, s.(marked := s.marked - {task}, store := store), k)
  {
    hide Known, SameRequest;
  }

  lemma FinishStaysOrderly(w: World, s: State, task: nat, now: nat)
    requires Sound(w, s) && Orderly(w, s)
    ensures Orderly(w, FinishDecision(s, task, now)) && MovesForward(s, FinishDecision(s, task, now))
  {
    hide Agrees, Known, InStep, Decide, SameRequest, IsVouched, Sound, Orderly, Mirrored, JobFits, ChangedOnly,
         SameAbout, MovesForward, ActionAdvances;
    OrderlyIssuedAreKnown(w, s);
    if task in s.marked {
      var id := s.marked[task].actionId;
      LookAt(w, s, id);
      DecisionUpdates(w, s, s.marked[task], now);
      DecidedAgrees(w, s, task, Decide(s.store, s.marked[task], now));
      OthersAreSame(s, task, Decide(s.store, s.marked[task], now), id);
      OneIdStaysOrderly(w, s, FinishDecision(s, task, now), id);
      OneIdMovesForward(s, FinishDecision(s, task, now), id);
    } else {
      StandsForward(w, s);
    }
  }

  lemma SuspendedStaysOrderly(w: World, s: State, job: Settlement, task: nat)
    requires Sound(w, s) && Orderly(w, s) && task !in s.settling
    requires job.actionId in Known(s.store) && Known(s.store)[job.actionId].status == APPROVED
    ensures var t := s.(settling := s.settling[task := job]);
            Orderly(w, t) && MovesForward(s, t)
  {
    hide Sound, Known, Orderly, Mirrored, Agrees;
    var t := s.(settling := s.settling[task := job]);
    LookAtOrder(w, s, job.actionId);
    if job.actionId in s.issued {
      SuspendedAgrees(w, s, job, task);
    }
    OrderlyIssuedAreKnown(w, s);
    OneIdStaysOrderly(w, s, t, job.actionId);
    OneIdMovesForward(s, t, job.actionId);
  }

  lemma SuspendedAgrees(w: World, s: State, job: Settlement, task: nat)
    requires job.actionId in Known(s.store) && Agrees(w, s, job.actionId) && task !in s.settling
    requires Known(s.store)[job.actionId].status == APPROVED
    ensures Agrees(w, s.(settling := s.settling[task := job]), job.actionId)
  {
    hide Known, Signs;
    var t := s.(settling := s.settling[task := job]);
    assert IsIdle(t, job.actionId) <==> IsIdle(s, job.actionId);
  }

  /** What is settled has nothing in flight, and its row, if any, is SIGNED. */
  lemma SettledAgrees(w: World, s: State, task: nat, store: Store, receipt: Receipt)
    requires Sound(w, s) && Orderly(w, s) && task in s.settling && s.settling[task].actionId in s.issued
    requires var id := s.settling[task].actionId;
             && id in Known(s.store) && id in Known(store)
             && Known(store)[id].status == EXECUTED && Known(store)[id].signature == Known(s.store)[id].signature
    ensures var id := s.settling[task].actionId;
            var t := s.(settling := s.settling - {task}, store := store, receipts := s.receipts[id := receipt]);
            Agrees(w, t, id)
    ensures IsSpendable(Known(s.store)[s.settling[task].actionId])
  {
    hide Sound, Orderly, Known, Signs, InStep, Mirrored;
    var id := s.settling[task].actionId;
    LookAtOrder(w, s, id);
    var t := s.(settling := s.settling - {task}, store := store, receipts := s.receipts[id := receipt]);
    assert forall u :: u in s.marked && s.marked[u].actionId == id ==>
      InFlight(w, Known(s.store)[id], s.escalations[id], s.marked[u]);
    assert IsIdle(s, id) && IsIdle(t, id);
  }

  lemma AcceptedStaysOrderly(w: World, s: State, task: nat, receipt: Receipt, now: nat)
    requires Sound(w, s) && Orderly(w, s) && task in s.settling
    ensures var job := s.settling[task];
            var t := s.(settling := s.settling - {task},
                        store := Update(s.store, job.actionId, EXECUTED, Metadata(None, Some(job.txHash)), now),
                        receipts := s.receipts[job.actionId := receipt]);
            Orderly(w, t) && MovesForward(s, t)
  {
    hide Sound, Agrees, Known, InStep, Update, SameRequest, Orderly, Mirrored;
    var job := s.settling[task];
    var id := job.actionId;
    var meta := Metadata(None, Some(job.txHash));
    var store := Update(s.store, id, EXECUTED, meta, now);
    LookAtOrder(w, s, id);
    OrderlyIssuedAreKnown(w, s);
    UpdateChangesOneAction(s.store, id, EXECUTED, meta, now);
    var t := s.(settling := s.settling - {task}, store := store, receipts := s.receipts[id := receipt]);
    if id in s.issued {
      SettledAgrees(w, s, task, store, receipt);
    }
    OneIdStaysOrderly(w, s, t, id);
    OneIdMovesForward(s, t, id);
  }

  // ---------------------------------------------------------------- the steps

  lemma CachedStaysOrderly(w: World, s: State, id: string)
    requires Sound(w, s) && Orderly(w, s)
    ensures var t := s.(store := Cache(s.store, id));
            Sound(w, t) && Orderly(w, t) && Known(t.store) == Known(s.store)
  {
    hide Sound, Agrees, Known, Mirrored, Cache, Orderly, OnlyAdvances;
    StoreIsMirrored(w, s);
    CacheKeepsKnown(s.store, id);
    CachingKeepsSound(w, s, id);
    SoundFromKeeps(w, s, s.(store := Cache(s.store, id)));
    OrderlyIssuedAreKnown(w, s);
    LookAtOrder(w, s, id);
    IdleStepStaysOrderly(w, s, s.(store := Cache(s.store, id)));
  }

  lemma KnownMovesForward(s: State, t: State, u: State)
    requires MovesForward(t, u) && t.issued == s.issued && t.escalations == s.escalations
    requires Known(t.store) == Known(s.store)
    ensures MovesForward(s, u)
  {
    hide Known;
  }

  lemma SubmitStaysOrderly(w: World, s: State, agent: string, id: string, typedData: TypedData, task: nat, now: nat)
    requires Sound(w, s) && Orderly(w, s)
    requires IsInOrder(w, s, Submitted(agent, id, typedData, task, now))
    ensures var t := SubmitEscalation(w, s, agent, id, typedData, task, now).0;
            Orderly(w, t) && MovesForward(s, t)
  {
    hide Sound, Orderly, Known, Mirrored, Cache, NamesTransfer, SubmitEscalation, MovesForward;
    StoreIsMirrored(w, s);
    SubmissionIsVetted(w, s, agent, id, typedData, task, now);
    CachedStaysOrderly(w, s, id);
    var cached := s.(store := Cache(s.store, id));
    var (t, reply) := SubmitEscalation(w, s, agent, id, typedData, task, now);
    if reply.Ok? {
      SubmittedStaysOrderly(w, cached, id, t.escalations[id], task);
    } else {
      StandsForward(w, cached);
    }
    KnownMovesForward(s, cached, t);
  }

  lemma StandsForward(w: World, s: State)
    requires Orderly(w, s)
    ensures MovesForward(s, s)
  {
    hide Agrees, Known;
  }

  lemma FinishSubmitStaysOrderly(w: World, s: State, task: nat)
    requires Orderly(w, s)
    ensures Orderly(w, FinishSubmit(s, task)) && MovesForward(s, FinishSubmit(s, task))
  {
    hide Agrees, Known;
    IdleStepStaysOrderly(w, s, FinishSubmit(s, task));
  }

  lemma ApprovalStaysOrderly(w: World, s: State, id: string, signature: string, task: nat, now: nat)
    requires Sound(w, s) && Orderly(w, s) && task !in s.deciding
    ensures var t := BeginApprove(w, s, id, signature, task, now).0;
            Orderly(w, t) && MovesForward(s, t)
  {
    hide Sound, Orderly, SameAddress, MovesForward;
    if BeginApprove(w, s, id, signature, task, now).1.Ok? {
      BegunStaysOrderly(w, s, HumanDecision(id, signature, true), task);
    } else {
      StandsForward(w, s);
    }
  }

  lemma RejectionStaysOrderly(w: World, s: State, id: string, signature: string, task: nat)
    requires Sound(w, s) && Orderly(w, s) && task !in s.deciding
    ensures var t := BeginReject(w, s, id, signature, task).0;
            Orderly(w, t) && MovesForward(s, t)
  {
    hide Sound, Orderly, SameAddress, MovesForward, Signs;
    if BeginReject(w, s, id, signature, task).1.Ok? {
      BegunStaysOrderly(w, s, HumanDecision(id, signature, false), task);
    } else {
      StandsForward(w, s);
    }
  }

  lemma DroppedStaysOrderly(w: World, s: State, task: nat)
    requires Orderly(w, s)
    ensures var t := s.(deciding := s.deciding - {task});
            Orderly(w, t) && MovesForward(s, t)
  {
    hide Agrees, Known;
    IdleStepStaysOrderly(w, s, s.(deciding := s.deciding - {task}));
  }

  lemma MarkRowStaysOrderly(w: World, s: State, task: nat, isPassed: bool, now: nat)
    requires Sound(w, s) && Orderly(w, s) && IsInOrder(w, s, RowMarked(task, isPassed, now))
    ensures var t := MarkRow(s, task, isPassed, now).0;
            Orderly(w, t) && MovesForward(s, t)
  {
    hide Sound, Orderly, MovesForward, IsAwaiting, Marked;
    if task !in s.deciding {
      StandsForward(w, s);
    } else if s.deciding[task].isApproval && !isPassed {
      DroppedStaysOrderly(w, s, task);
    } else {
      SuspendedIsSigned(w, s, task);
      MarkStaysOrderly(w, s, task, now);
    }
  }

  lemma SuspendedIsSigned(w: World, s: State, task: nat)
    requires Sound(w, s) && task in s.deciding
    ensures s.deciding[task].signature != ""
  {
    hide Mirrored, Known, AllInStep, JobsInStep, Scoped, IsVouched;
    assert DecisionFits(w, s, s.deciding[task]);
  }

  lemma BeginSettleStaysOrderly(w: World, s: State, agent: string, id: string, txHash: string, task: nat)
    requires Sound(w, s) && Orderly(w, s) && task !in s.settling
    ensures var t := BeginSettle(w, s, agent, id, txHash, task).0;
            Orderly(w, t) && MovesForward(s, t)
  {
    hide Sound, Orderly, Known, Mirrored, Cache, BeginSettle, MovesForward;
    StoreIsMirrored(w, s);
    BegunSettlement(w, s, agent, id, txHash, task);
    CachedStaysOrderly(w, s, id);
    var cached := s.(store := Cache(s.store, id));
    var (t, reply) := BeginSettle(w, s, agent, id, txHash, task);
    StandsForward(w, s);
    StandsForward(w, cached);
    if reply.Ok? {
      SuspendedStaysOrderly(w, cached, t.settling[task], task);
    }
    KnownMovesForward(s, cached, if reply.Ok? then t else cached);
  }

  lemma FinishSettleStaysOrderly(w: World, s: State, task: nat, lookup: Option<Receipt>, now: nat)
    requires Sound(w, s) && Orderly(w, s)
    ensures var t := FinishSettle(w, s, task, lookup, now).0;
            Orderly(w, t) && MovesForward(s, t)
  {
    hide Sound, Orderly, Known, FinishSettle, MovesForward, JobFits, Update, Covers;
    if task in s.settling {
      var job := s.settling[task];
      ResumedSettlement(w, s, task, lookup, now);
      if lookup.Some? && Covers(w.env, lookup.value, job.token, job.recipient, job.minimumAmount) {
        AcceptedStaysOrderly(w, s, task, lookup.value, now);
      } else {
        ForgottenStaysOrderly(w, s, task);
      }
    } else {
      UnknownSettlementIsIdle(w, s, task, lookup, now);
      StandsForward(w, s);
    }
  }

  lemma ForgottenStaysOrderly(w: World, s: State, task: nat)
    requires Orderly(w, s)
    ensures var t := s.(settling := s.settling - {task});
            Orderly(w, t) && MovesForward(s, t)
  {
    hide Agrees, Known;
    IdleStepStaysOrderly(w, s, s.(settling := s.settling - {task}));
  }

  /** A restart that no decision is between its updates for. */
  lemma RestartStaysOrderly(w: World, s: State, early: set<string>)
    requires Sound(w, s) && Orderly(w, s) && s.marked == map[]
    ensures var t := AfterRestart(s, Restart(s.store.table, early));
            Orderly(w, t) && MovesForward(s, t)
  {
    hide Sound, Agrees, Known, Restart, Mirrored;
    StoreIsMirrored(w, s);
    RestartKeepsKnown(s.store, early);
    IdleStepStaysOrderly(w, s, AfterRestart(s, Restart(s.store.table, early)));
  }

  /** Actions beside the issued ones. */
  lemma OtherActionsStayOrderly(w: World, s: State, store: Store)
    requires Orderly(w, s)
    requires forall k :: k in s.issued ==>
               k in Known(s.store) && k in Known(store) && Known(store)[k] == Known(s.store)[k]
    ensures var t := s.(store := store);
            Orderly(w, t) && MovesForward(s, t)
  {
    hide Agrees, Known;
    IdleStepStaysOrderly(w, s, s.(store := store));
  }

  lemma OtherStepStaysOrderly(w: World, s: State, e: Event)
    requires Sound(w, s) && Orderly(w, s) && Admissible(w, s, e) && (e.OtherCreated? || e.OtherUpdated?)
    ensures Orderly(w, Apply(w, s, e)) && MovesForward(s, Apply(w, s, e))
  {
    hide Sound, Orderly, Known, Mirrored, Create, Update, MovesForward, SameRequest;
    StoreIsMirrored(w, s);
    OrderlyIssuedAreKnown(w, s);
    if e.OtherCreated? {
      CreateAddsOneAction(s.store, e.dto, e.id, e.now);
      OtherActionsStayOrderly(w, s, Create(s.store, e.dto, e.id, e.now));
    } else {
      UpdateChangesOneAction(s.store, e.id, e.status, e.meta, e.now);
      OtherActionsStayOrderly(w, s, Update(s.store, e.id, e.status, e.meta, e.now));
    }
  }

  /** A new action has nothing recorded about it but its ruling. */
  lemma NewIdStaysOrderly(w: World, s: State, t: State, id: string)
    requires Sound(w, s) && Orderly(w, s) && AddsOne(w, s, t, id)
    ensures Orderly(w, t) && MovesForward(s, t)
  {
    hide Sound, Known, Mirrored, InStep, Agrees;
    OrderlyIssuedAreKnown(w, s);
    LookAtOrder(w, s, id);
    assert id !in s.issued;
    forall k | k in t.issued ensures k in Known(t.store) && Agrees(w, t, k) {
      if k == id {
        NewIdAgrees(w, s, t, id);
      } else {
        SameAboutAgrees(w, s, t, k);
      }
    }
  }

  lemma NewIdAgrees(w: World, s: State, t: State, id: string)
    requires Sound(w, s) && AddsOne(w, s, t, id)
    ensures id in Known(t.store) && Agrees(w, t, id)
  {
    hide Sound, Known, Mirrored, InStep, RowAgrees, JobInStep, IsVouched, SameRequest, ChangedOnly;
    LookAt(w, s, id);
    forall task | task in t.settling ensures t.settling[task].actionId != id {
      assert JobFits(w, s, s.settling[task]);
    }
    forall task | task in t.marked ensures t.marked[task].actionId != id {
      assert DecisionFits(w, s, s.marked[task]);
    }
  }

  lemma AuthorizeStaysOrderly(w: World, s: State, agent: string, request: PaymentRequest, id: string,
                              createdAt: nat, evaluatedAt: nat)
    requires Sound(w, s) && Orderly(w, s) && id !in s.store.table && IsUnits(w.env, request.amount)
    ensures var t := Authorize(w, s, agent, request, id, createdAt, evaluatedAt).0;
            Orderly(w, t) && MovesForward(s, t)
  {
    hide Sound, Orderly, AddsOne, Authorize, IsUnits, MovesForward;
    AuthorizeAddsOne(w, s, agent, request, id, createdAt, evaluatedAt);
    NewIdStaysOrderly(w, s, Authorize(w, s, agent, request, id, createdAt, evaluatedAt).0, id);
  }

  /** A step in order keeps the agreement and moves statuses only forward. */
  lemma StepStaysOrderly(w: World, s: State, e: Event)
    requires Sound(w, s) && Orderly(w, s) && Admissible(w, s, e) && IsInOrder(w, s, e)
    ensures Orderly(w, Apply(w, s, e)) && MovesForward(s, Apply(w, s, e))
  {
    hide Sound, Orderly, MovesForward, Authorize, SubmitEscalation, FinishSubmit, BeginApprove, BeginReject, MarkRow,
         FinishDecision, BeginSettle, FinishSettle, Restart, AfterRestart, IsUnits, IsAwaiting, Create, Update;
    match e
    case Authorized(agent, request, id, createdAt, evaluatedAt) =>
      AuthorizeStaysOrderly(w, s, agent, request, id, createdAt, evaluatedAt);
    case Submitted(agent, id, typedData, task, now) => SubmitStaysOrderly(w, s, agent, id, typedData, task, now);
    case SubmissionFinished(task) => FinishSubmitStaysOrderly(w, s, task);
    case ApprovalBegun(id, signature, task, now) => ApprovalStaysOrderly(w, s, id, signature, task, now);
    case RejectionBegun(id, signature, task) => RejectionStaysOrderly(w, s, id, signature, task);
    case RowMarked(task, isPassed, now) => MarkRowStaysOrderly(w, s, task, isPassed, now);
    case DecisionFinished(task, now) => FinishStaysOrderly(w, s, task, now);
    case SettleBegun(agent, id, txHash, task) => BeginSettleStaysOrderly(w, s, agent, id, txHash, task);
    case SettleFinished(task, lookup, now) => FinishSettleStaysOrderly(w, s, task, lookup, now);
    case Restarted(early) => RestartStaysOrderly(w, s, early);
    case OtherCreated(_, _, _) => OtherStepStaysOrderly(w, s, e);
    case OtherUpdated(_, _, _, _) => OtherStepStaysOrderly(w, s, e);
  }

  // ---------------------------------------------------------------- and no other step

  /** A row that no longer waits, of an action that does: its decision is in flight. */
  lemma SomethingIsInFlight(w: World, s: State, id: string) returns (task: nat)
    requires id in s.escalations && id in Known(s.store) && Agrees(w, s, id)
    requires !IsAwaiting(s, id) && Known(s.store)[id].status == PENDING
    ensures task in s.marked && s.marked[task].actionId == id
  {
    hide Known, Signs;
    assert !IsIdle(s, id);
    task :| task in s.marked && s.marked[task].actionId == id;
  }

  lemma NotOrderly(w: World, s: State, id: string)
    requires id in s.issued && id in Known(s.store) && !Agrees(w, s, id)
    ensures !Orderly(w, s)
  {
    hide Agrees, Known;
  }

  lemma OvertakenRowDisagrees(w: World, s: State, agent: string, id: string, typedData: TypedData, task: nat, now: nat)
    requires Sound(w, s) && Orderly(w, s)
    requires SubmitEscalation(w, s, agent, id, typedData, task, now).1.Ok?
    requires id in s.escalations && !IsAwaiting(s, id)
    ensures !Orderly(w, SubmitEscalation(w, s, agent, id, typedData, task, now).0)
  {
    hide Sound, Known, Mirrored, Cache, NamesTransfer, SubmitEscalation, Signs, Orderly;
    StoreIsMirrored(w, s);
    SubmissionIsVetted(w, s, agent, id, typedData, task, now);
    CacheKeepsKnown(s.store, id);
    LookAtOrder(w, s, id);
    var t := SubmitEscalation(w, s, agent, id, typedData, task, now).0;
    var u := SomethingIsInFlight(w, s, id);
    assert !InFlight(w, Known(t.store)[id], t.escalations[id], t.marked[u]);
    NotOrderly(w, t, id);
  }

  lemma RemarkedRowDisagrees(w: World, s: State, task: nat, now: nat)
    requires Sound(w, s) && Orderly(w, s) && task in s.deciding && !IsAwaiting(s, s.deciding[task].actionId)
    ensures !Orderly(w, MarkRow(s, task, true, now).0)
  {
    hide Sound, Known, Mirrored, Signs, Orderly;
    var id := s.deciding[task].actionId;
    LookAtOrder(w, s, id);
    var t := MarkRow(s, task, true, now).0;
    assert task in t.marked && t.marked[task].actionId == id;
    if Known(s.store)[id].status == PENDING {
      var u := SomethingIsInFlight(w, s, id);
      assert u in t.marked && t.marked[u].actionId == id && u != task;
    } else {
      assert !InFlight(w, Known(t.store)[id], t.escalations[id], t.marked[task]);
    }
    NotOrderly(w, t, id);
  }

  lemma CutOffRowDisagrees(w: World, s: State, early: set<string>)
    requires Sound(w, s) && Orderly(w, s) && s.marked != map[]
    ensures !Orderly(w, AfterRestart(s, Restart(s.store.table, early)))
  {
    hide Sound, Known, Mirrored, Signs, Orderly, Restart;
    StoreIsMirrored(w, s);
    RestartKeepsKnown(s.store, early);
    var task :| task in s.marked;
    var id := s.marked[task].actionId;
    LookAtOrder(w, s, id);
    assert InFlight(w, Known(s.store)[id], s.escalations[id], s.marked[task]);
    var t := AfterRestart(s, Restart(s.store.table, early));
    assert IsIdle(t, id) && !AtRest(w, Known(t.store)[id], t.escalations[id]);
    NotOrderly(w, t, id);
  }

  lemma OutOfOrderBreaks(w: World, s: State, e: Event)
    requires Sound(w, s) && Orderly(w, s) && Admissible(w, s, e) && !IsInOrder(w, s, e)
    ensures !(Orderly(w, Apply(w, s, e)) && KeepsTypedData(s, Apply(w, s, e)))
  {
    hide Sound, Orderly, SubmitEscalation, Restart, AfterRestart, IsAwaiting, Known, Mirrored, Cache, NamesTransfer;
    match e
    case Submitted(agent, id, typedData, task, now) =>
      if IsAwaiting(s, id) {
        StoreIsMirrored(w, s);
        SubmissionIsVetted(w, s, agent, id, typedData, task, now);
      } else {
        OvertakenRowDisagrees(w, s, agent, id, typedData, task, now);
      }
    case RowMarked(task, isPassed, now) => RemarkedRowDisagrees(w, s, task, now);
    case Restarted(early) => CutOffRowDisagrees(w, s, early);
  }

  /** The exact steps: rows and actions go on agreeing, and typed data stays, if and only if nothing overtakes. */
  lemma StepStaysOrderlyIff(w: World, s: State, e: Event)
    requires Sound(w, s) && Orderly(w, s) && Admissible(w, s, e)
    ensures Orderly(w, Apply(w, s, e)) && KeepsTypedData(s, Apply(w, s, e)) <==> IsInOrder(w, s, e)
  {
    hide Sound, Orderly, Apply, Admissible, IsInOrder, KeepsTypedData;
    if IsInOrder(w, s, e) {
      StepStaysOrderly(w, s, e);
      ForwardKeepsTypedData(s, Apply(w, s, e));
    } else {
      OutOfOrderBreaks(w, s, e);
    }
  }

  lemma ForwardKeepsTypedData(s: State, t: State)
    requires MovesForward(s, t)
    ensures KeepsTypedData(s, t)
  {
    hide KeepsTypedData, Known;
  }

  // ---------------------------------------------------------------- every run

  lemma StartIsOrderly(w: World)
    ensures Orderly(w, START)
  {
  }

  /** Over every run: at all moments so far rows agree with actions, and no typed data was replaced, if and only if
      no step so far overtook another. */
  lemma {:induction false} OrderHoldsIff(w: World, trace: seq<State>, events: seq<Event>, i: nat)
    requires IsRun(w, trace, events) && i < |trace|
    ensures && (forall k :: 0 <= k <= i ==> Orderly(w, trace[k]))
            && (forall k :: 0 <= k < i ==> KeepsTypedData(trace[k], trace[k + 1]))
            <==> forall k :: 0 <= k < i ==> IsInOrder(w, trace[k], events[k])
    decreases i
  {
    hide Sound, Orderly, Apply, Admissible, IsInOrder, KeepsTypedData;
    if i == 0 {
      StartIsOrderly(w);
    } else {
      OrderHoldsIff(w, trace, events, i - 1);
      EveryRunIsSound(w, trace, events, i - 1);
      assert StepAt(w, trace, events, i - 1);
      if Orderly(w, trace[i - 1]) {
        StepStaysOrderlyIff(w, trace[i - 1], events[i - 1]);
      }
    }
  }

  /** The runs in which nothing overtakes. */
  ghost predicate IsOrderlyRun(w: World, trace: seq<State>, events: seq<Event>) {
    IsRun(w, trace, events) && forall k :: 0 <= k < |events| ==> IsInOrder(w, trace[k], events[k])
  }

  lemma OrderlyAt(w: World, trace: seq<State>, events: seq<Event>, i: nat)
    requires IsOrderlyRun(w, trace, events) && i < |trace|
    ensures Orderly(w, trace[i]) && Sound(w, trace[i])
  {
    hide Sound, Orderly, Apply, Admissible, IsInOrder, KeepsTypedData;
    EveryRunIsSound(w, trace, events, i);
    OrderHoldsIff(w, trace, events, i);
  }

  /** In such runs typed data is never replaced and statuses only move forward, between any two moments. */
  lemma {:induction false} StatusesMoveForward(w: World, trace: seq<State>, events: seq<Event>, i: nat, j: nat)
    requires IsOrderlyRun(w, trace, events) && i <= j < |trace|
    ensures MovesForward(trace[i], trace[j])
    decreases j
  {
    hide Sound, Orderly, Apply, Admissible, IsInOrder, MovesForward;
    if i == j {
      OrderlyAt(w, trace, events, i);
      StandsForward(w, trace[i]);
    } else {
      StatusesMoveForward(w, trace, events, i, j - 1);
      OrderlyAt(w, trace, events, j - 1);
      assert StepAt(w, trace, events, j - 1);
      StepStaysOrderly(w, trace[j - 1], events[j - 1]);
      IssuedStayIssued(w, trace, events, i, j - 1);
      ForwardFurther(trace[i], trace[j - 1], trace[j]);
    }
  }

  lemma IssuedStayIssued(w: World, trace: seq<State>, events: seq<Event>, i: nat, j: nat)
    requires IsRun(w, trace, events) && i <= j < |trace|
    ensures trace[i].issued <= trace[j].issued
  {
    hide Sound, Known, IsRun, ActionAdvances;
    LaterStatesOnlyAdvance(w, trace, events, i, j);
  }

  lemma ForwardFurther(s: State, t: State, u: State)
    requires MovesForward(s, t) && MovesForward(t, u) && s.issued <= t.issued
    ensures MovesForward(s, u)
  {
    hide Known;
  }

  /** In such runs row and action agree: a waiting row with a PENDING action, a SIGNED one with a spendable action
      that carries the row's signature by the approver over the row's own typed data, a REJECTED one with a REJECTED
      action; or else the one decision between its two updates is what the row already shows. */
  lemma EscalationsMatchActions(w: World, trace: seq<State>, events: seq<Event>, i: nat, id: string)
    requires IsOrderlyRun(w, trace, events) && i < |trace|
    requires id in trace[i].escalations
    ensures var s := trace[i];
            && id in Known(s.store)
            && var a, e := Known(s.store)[id], s.escalations[id];
               && (IsIdle(s, id) ==> AtRest(w, a, e))
               && (forall task :: task in s.marked && s.marked[task].actionId == id ==>
                     InFlight(w, a, e, s.marked[task]))
               && (forall t, u :: t in s.marked && u in s.marked && s.marked[t].actionId == s.marked[u].actionId == id
                     ==> t == u)
  {
    hide IsOrderlyRun, Sound, Orderly, AtRest, InFlight, IsIdle, Known, Mirrored;
    OrderlyAt(w, trace, events, i);
    LookAtOrder(w, trace[i], id);
  }

  /** In such runs an issued action is EXECUTED exactly when a settlement was accepted for it. */
  lemma ExecutedMeansPaid(w: World, trace: seq<State>, events: seq<Event>, i: nat, id: string)
    requires IsOrderlyRun(w, trace, events) && i < |trace|
    requires id in trace[i].issued
    ensures id in Known(trace[i].store)
    ensures Known(trace[i].store)[id].status == EXECUTED <==> id in trace[i].receipts
  {
    hide IsOrderlyRun, Sound, Orderly, RowAgrees, Known, Mirrored, Covers, IsVouched;
    OrderlyAt(w, trace, events, i);
    LookAtOrder(w, trace[i], id);
    LookAt(w, trace[i], id);
  }

  /** In such runs the derived decision is ALLOW exactly for what `authorize` allowed or the approver signed for, as
      soon as that reached the action. */
  lemma DerivedDecisionIsFaithful(w: World, trace: seq<State>, events: seq<Event>, i: nat, id: string)
    requires IsOrderlyRun(w, trace, events) && i < |trace|
    requires id in trace[i].issued
    ensures var s := trace[i];
            && id in Known(s.store)
            && var derived := DeriveDecision(Known(s.store)[id].status, id in s.escalations);
               derived == ALLOW <==>
                 || (id in s.rulings && s.rulings[id].decision == ALLOW)
                 || (id in s.escalations && s.escalations[id].status == Signed && IsIdle(s, id))
  {
    hide IsOrderlyRun, Sound, Orderly, Known, Mirrored, Covers, IsVouched, Signs;
    OrderlyAt(w, trace, events, i);
    LookAtOrder(w, trace[i], id);
    LookAt(w, trace[i], id);
  }
}
