/** Where a SIGNED or REJECTED row and an approved escalation come from, over every run: the owner's submission, the
    approver's signature, and the World ID gate, in that order. */
module X402Gate {
  import opened Common
  import opened ActionStore
  import opened X402
  import opened X402Proofs
  import opened X402Handlers
  import opened X402Writes
  import Normaliser

  // ---------------------------------------------------------------- the three steps on the way

  /** The row with this typed data was submitted at step `j`: by the action's agent, unexpired. */
  ghost predicate SubmittedAt(w: World, trace: seq<State>, events: seq<Event>, j: int, id: string, typedData: TypedData)
    requires 0 <= j < |events| < |trace|
  {
    && events[j].Submitted? && events[j].id == id && events[j].typedData == typedData
    && typedData.validBefore.Some? && typedData.validBefore.value > (events[j].now / 1000) as real
    && id in Known(trace[j].store)
    && Known(trace[j].store)[id].status == PENDING
    && ToLower(Known(trace[j].store)[id].agentAddress) == ToLower(events[j].agent)
  }

  /** An approval with this signature began at step `j`: over the typed data of a waiting, unexpired row. */
  predicate ApprovedAt(w: World, trace: seq<State>, events: seq<Event>, j: int, id: string, signature: string)
    requires 0 <= j < |events| < |trace|
  {
    && events[j].ApprovalBegun? && events[j].id == id && events[j].signature == signature && signature != ""
    && id in trace[j].escalations && trace[j].escalations[id].status == AwaitingSignature
    && var t := trace[j].escalations[id].typedData;
       var signer := w.recoverTyped(t, signature);
       && (t.validBefore.Some? ==> t.validBefore.value > (events[j].now / 1000) as real)
       && signer.Some? && w.env.getAddress(signer.value).Some?
       && w.env.getAddress(signer.value) == w.env.getAddress(w.config.ledgerApproverAddress)
  }

  /** A rejection with this signature began at step `j`, of a waiting row. */
  predicate RejectedAt(w: World, trace: seq<State>, events: seq<Event>, j: int, id: string, signature: string)
    requires 0 <= j < |events| < |trace|
  {
    && events[j].RejectionBegun? && events[j].id == id && events[j].signature == signature && signature != ""
    && id in trace[j].escalations && trace[j].escalations[id].status == AwaitingSignature
    && var signer := w.recoverText("chapter2-reject:" + id, signature);
       && signer.Some? && w.env.getAddress(signer.value).Some?
       && w.env.getAddress(signer.value) == w.env.getAddress(w.config.ledgerApproverAddress)
  }

  /** Step `j` marks a row for this decision; an approval has passed the gate. */
  predicate MarkedAt(trace: seq<State>, events: seq<Event>, j: int, job: HumanDecision)
    requires 0 <= j < |events| < |trace|
  {
    && events[j].RowMarked? && events[j].task in trace[j].deciding && trace[j].deciding[events[j].task] == job
    && (job.isApproval ==> events[j].isPassed)
  }

  ghost predicate WasSubmitted(w: World, trace: seq<State>, events: seq<Event>, i: nat, id: string,
                               typedData: TypedData)
    requires i <= |events| < |trace|
  {
    exists j :: 0 <= j < i && SubmittedAt(w, trace, events, j, id, typedData)
  }

  ghost predicate WasBegun(w: World, trace: seq<State>, events: seq<Event>, i: nat, job: HumanDecision)
    requires i <= |events| < |trace|
  {
    exists j :: 0 <= j < i && if job.isApproval then ApprovedAt(w, trace, events, j, job.actionId, job.signature)
                              else RejectedAt(w, trace, events, j, job.actionId, job.signature)
  }

  ghost predicate WasMarked(trace: seq<State>, events: seq<Event>, i: nat, job: HumanDecision)
    requires i <= |events| < |trace|
  {
    exists j :: 0 <= j < i && MarkedAt(trace, events, j, job)
  }

  // ---------------------------------------------------------------- what one step can do

  /** Whether the row comes from this step, and how. */
  predicate RowComesFrom(w: World, s: State, e: Event, t: State, id: string)
    requires id in t.escalations
  {
    var row := t.escalations[id];
    || (id in s.escalations && row == s.escalations[id])
    || (&& e.Submitted? && e.id == id
        && SubmitEscalation(w, s, e.agent, id, e.typedData, e.task, e.now).1.Ok?
        && row.status == AwaitingSignature && row.typedData == e.typedData)
    || (&& e.RowMarked? && e.task in s.deciding && s.deciding[e.task].actionId == id && id in s.escalations
        && (s.deciding[e.task].isApproval ==> e.isPassed)
        && row.typedData == s.escalations[id].typedData
        && row.status == (if s.deciding[e.task].isApproval then Signed else Refused)
        && (s.deciding[e.task].signature != "" ==> row.signature == Some(s.deciding[e.task].signature)))
  }

  /** The parts of the state that record human decisions. */
  predicate SameDecisions(s: State, t: State) {
    t.escalations == s.escalations && t.deciding == s.deciding && t.marked == s.marked
  }

  /** What the remaining steps are. */
  lemma ApplyIs(w: World, s: State, e: Event)
    ensures e.Submitted? ==> Apply(w, s, e) == SubmitEscalation(w, s, e.agent, e.id, e.typedData, e.task, e.now).0
    ensures e.ApprovalBegun? ==> Apply(w, s, e) == BeginApprove(w, s, e.id, e.signature, e.task, e.now).0
    ensures e.RejectionBegun? ==> Apply(w, s, e) == BeginReject(w, s, e.id, e.signature, e.task).0
    ensures e.RowMarked? ==> Apply(w, s, e) == MarkRow(s, e.task, e.isPassed, e.now).0
  {
    hide SubmitEscalation, BeginApprove, BeginReject, MarkRow;
  }

  lemma UnknownMarkIsIdle(s: State, task: nat, isPassed: bool, now: nat)
    requires task !in s.deciding
    ensures MarkRow(s, task, isPassed, now).0 == s
  {
  }

  lemma DecidingStepIs(w: World, s: State, e: Event)
    requires Mirrored(s.store)
    ensures var t := Apply(w, s, e);
            || SameDecisions(s, t)
            || (&& e.Submitted? && SubmitEscalation(w, s, e.agent, e.id, e.typedData, e.task, e.now).1.Ok?
                && t.deciding == s.deciding && t.marked == s.marked && e.id in s.reasons
                && t.escalations == s.escalations[e.id := Escalation(e.typedData, s.reasons[e.id], None,
                                                                     AwaitingSignature, e.now, e.now)])
            || (&& e.ApprovalBegun? && BeginApprove(w, s, e.id, e.signature, e.task, e.now).1.Ok?
                && t == s.(deciding := s.deciding[e.task := HumanDecision(e.id, e.signature, true)]))
            || (&& e.RejectionBegun? && BeginReject(w, s, e.id, e.signature, e.task).1.Ok?
                && t == s.(deciding := s.deciding[e.task := HumanDecision(e.id, e.signature, false)]))
            || (e.RowMarked? && e.task in s.deciding && t == MarkRow(s, e.task, e.isPassed, e.now).0)
            || (&& e.DecisionFinished? && t.escalations == s.escalations && t.deciding == s.deciding
                && t.marked == s.marked - {e.task})
            || (&& e.Restarted? && t.escalations == s.escalations && t.deciding == map[] && t.marked == map[])
  {
    ApplyIs(w, s, e);
    StepLeaves(w, s, e);
    hide Mirrored, Apply, SubmitEscalation, BeginApprove, BeginReject, MarkRow, FinishDecision, Restart, Known;
    match e
    case Submitted(agent, id, typedData, task, now) => SubmissionAnswers(w, s, agent, id, typedData, task, now);
    case ApprovalBegun(id, signature, task, now) => ApprovalBegins(w, s, id, signature, task, now);
    case RejectionBegun(id, signature, task) => RejectionBegins(w, s, id, signature, task);
    case RowMarked(task, isPassed, now) => if task !in s.deciding { UnknownMarkIsIdle(s, task, isPassed, now); }
    case _ =>
  }

  lemma MarkedRowIs(s: State, task: nat, isPassed: bool, now: nat, id: string)
    requires task in s.deciding && id in MarkRow(s, task, isPassed, now).0.escalations
    ensures var row, job := MarkRow(s, task, isPassed, now).0.escalations[id], s.deciding[task];
            && id in s.escalations
            && (|| row == s.escalations[id]
                || (&& job.actionId == id && (job.isApproval ==> isPassed)
                    && row.typedData == s.escalations[id].typedData
                    && row.status == (if job.isApproval then Signed else Refused)
                    && (job.signature != "" ==> row.signature == Some(job.signature))))
  {
    GateDecides(s, task, isPassed, now);
    hide MarkRow;
  }

  lemma EveryRowComesFrom(w: World, s: State, e: Event, id: string)
    requires Mirrored(s.store) && id in Apply(w, s, e).escalations
    ensures RowComesFrom(w, s, e, Apply(w, s, e), id)
  {
    DecidingStepIs(w, s, e);
    hide Mirrored, Apply, SubmitEscalation, BeginApprove, BeginReject, MarkRow;
    if e.RowMarked? && e.task in s.deciding && !SameDecisions(s, Apply(w, s, e)) {
      MarkedRowIs(s, e.task, e.isPassed, e.now, id);
    }
  }

  lemma MarkingSuspends(s: State, task: nat, isPassed: bool, now: nat)
    requires task in s.deciding
    ensures var t, job := MarkRow(s, task, isPassed, now).0, s.deciding[task];
            && t.deciding == s.deciding - {task}
            && (t.marked == s.marked || (t.marked == s.marked[task := job] && (job.isApproval ==> isPassed)))
  {
    GateDecides(s, task, isPassed, now);
    hide MarkRow;
  }

  /** Where a suspended decision comes from. */
  lemma DecidingComesFrom(w: World, s: State, e: Event, task: nat)
    requires Mirrored(s.store) && task in Apply(w, s, e).deciding
    ensures var job := Apply(w, s, e).deciding[task];
            || (task in s.deciding && job == s.deciding[task])
            || (&& e.ApprovalBegun? && job == HumanDecision(e.id, e.signature, true)
                && BeginApprove(w, s, e.id, e.signature, e.task, e.now).1.Ok?)
            || (&& e.RejectionBegun? && job == HumanDecision(e.id, e.signature, false)
                && BeginReject(w, s, e.id, e.signature, e.task).1.Ok?)
  {
    DecidingStepIs(w, s, e);
    hide Mirrored, Apply, SubmitEscalation, BeginApprove, BeginReject, MarkRow;
    if e.RowMarked? && e.task in s.deciding {
      MarkingSuspends(s, e.task, e.isPassed, e.now);
    }
  }

  /** Where a decision between its two updates comes from. */
  lemma MarkedComesFrom(w: World, s: State, e: Event, task: nat)
    requires Mirrored(s.store) && task in Apply(w, s, e).marked
    ensures var job := Apply(w, s, e).marked[task];
            || (task in s.marked && job == s.marked[task])
            || (&& e.RowMarked? && e.task in s.deciding && job == s.deciding[e.task]
                && (job.isApproval ==> e.isPassed))
  {
    DecidingStepIs(w, s, e);
    hide Mirrored, Apply, SubmitEscalation, BeginApprove, BeginReject, MarkRow;
    if e.RowMarked? && e.task in s.deciding {
      MarkingSuspends(s, e.task, e.isPassed, e.now);
    }
  }

  /** Where the signature on an action comes from, but for the legacy rail's own. */
  lemma SignatureComesFrom(w: World, s: State, e: Event, id: string)
    requires Sound(w, s) && Admissible(w, s, e) && id in s.issued
    ensures id in Known(s.store) && id in Known(Apply(w, s, e).store)
    ensures var before, after := Known(s.store)[id].signature, Known(Apply(w, s, e).store)[id].signature;
            || after == before
            || (&& e.DecisionFinished? && e.task in s.marked && s.marked[e.task].isApproval
                && s.marked[e.task].actionId == id && after == Some(s.marked[e.task].signature))
  {
    IssuedIsKnown(w, s, id);
    PayStepKeepsActions(w, s, e);
    hide Sound, Mirrored, Known, Apply, SameRequest, Covers, Admissible;
    assert ActionKept(Known(s.store)[id], Known(Apply(w, s, e).store)[id], WriteTo(WriteOf(w, s, e), id));
  }

  lemma IssuedIsKnown(w: World, s: State, id: string)
    requires Sound(w, s) && id in s.issued
    ensures id in Known(s.store)
  {
    hide Mirrored, Known, AllInStep, JobsInStep, DecisionsFit;
  }

  // ---------------------------------------------------------------- every run

  /** A decision that was begun, and whose row was marked. */
  ghost predicate WasTaken(w: World, trace: seq<State>, events: seq<Event>, i: nat, job: HumanDecision)
    requires i <= |events| < |trace|
  {
    WasBegun(w, trace, events, i, job) && WasMarked(trace, events, i, job)
  }

  /** A row was submitted as it is, and shows a decision that was taken. */
  ghost predicate RowIsEarned(w: World, trace: seq<State>, events: seq<Event>, i: nat, id: string)
    requires i <= |events| < |trace| && id in trace[i].escalations
  {
    var row := trace[i].escalations[id];
    && WasSubmitted(w, trace, events, i, id, row.typedData)
    && (row.status != AwaitingSignature ==>
          && row.signature.Some?
          && WasTaken(w, trace, events, i, HumanDecision(id, row.signature.value, row.status == Signed)))
  }

  ghost predicate SignatureIsEarned(w: World, trace: seq<State>, events: seq<Event>, i: nat, id: string)
    requires i <= |events| < |trace|
  {
    id in Known(trace[i].store) && Known(trace[i].store)[id].signature.Some? ==>
      WasTaken(w, trace, events, i, HumanDecision(id, Known(trace[i].store)[id].signature.value, true))
  }

  ghost predicate RowsAreEarned(w: World, trace: seq<State>, events: seq<Event>, i: nat)
    requires i <= |events| < |trace|
  {
    forall id :: id in trace[i].escalations ==> RowIsEarned(w, trace, events, i, id)
  }

  ghost predicate DecisionsAreEarned(w: World, trace: seq<State>, events: seq<Event>, i: nat)
    requires i <= |events| < |trace|
  {
    && (forall task :: task in trace[i].deciding ==>
          WasBegun(w, trace, events, i, trace[i].deciding[task]) && trace[i].deciding[task].signature != "")
    && (forall task :: task in trace[i].marked ==> WasTaken(w, trace, events, i, trace[i].marked[task]))
  }

  ghost predicate SignaturesAreEarned(w: World, trace: seq<State>, events: seq<Event>, i: nat)
    requires i <= |events| < |trace|
  {
    forall id :: id in trace[i].issued ==> SignatureIsEarned(w, trace, events, i, id)
  }

  lemma TakenStaysTaken(w: World, trace: seq<State>, events: seq<Event>, i: nat, job: HumanDecision)
    requires i < |events| < |trace|
    ensures WasBegun(w, trace, events, i, job) ==> WasBegun(w, trace, events, i + 1, job)
    ensures WasMarked(trace, events, i, job) ==> WasMarked(trace, events, i + 1, job)
  {
    hide ApprovedAt, RejectedAt, MarkedAt;
  }

  lemma SubmittedStaysSubmitted(w: World, trace: seq<State>, events: seq<Event>, i: nat, id: string, t: TypedData)
    requires i < |events| < |trace|
    ensures WasSubmitted(w, trace, events, i, id, t) ==> WasSubmitted(w, trace, events, i + 1, id, t)
  {
    hide SubmittedAt;
  }

  /** A step of a run, with what it starts from. */
  ghost predicate IsStep(w: World, trace: seq<State>, events: seq<Event>, i: nat)
    requires i < |events| < |trace|
  {
    Sound(w, trace[i]) && StepAt(w, trace, events, i)
  }

  lemma StepIs(w: World, trace: seq<State>, events: seq<Event>, i: nat)
    requires i < |events| < |trace| && IsStep(w, trace, events, i)
    ensures Sound(w, trace[i]) && Mirrored(trace[i].store) && Admissible(w, trace[i], events[i])
    ensures trace[i + 1] == Apply(w, trace[i], events[i])
  {
    StoreIsMirrored(w, trace[i]);
    hide Sound, Apply, Admissible, Mirrored;
  }

  lemma NewSubmissionIsEarned(w: World, trace: seq<State>, events: seq<Event>, i: nat)
    requires i < |events| < |trace| && IsStep(w, trace, events, i) && events[i].Submitted?
    requires var e := events[i]; SubmitEscalation(w, trace[i], e.agent, e.id, e.typedData, e.task, e.now).1.Ok?
    ensures SubmittedAt(w, trace, events, i, events[i].id, events[i].typedData)
  {
    StepIs(w, trace, events, i);
    var e := events[i];
    SubmissionAnswers(w, trace[i], e.agent, e.id, e.typedData, e.task, e.now);
    hide IsStep, Sound, Mirrored, Known, SubmitEscalation;
  }

  lemma RowsStayEarned(w: World, trace: seq<State>, events: seq<Event>, i: nat)
    requires i < |events| < |trace| && IsStep(w, trace, events, i)
    requires RowsAreEarned(w, trace, events, i) && DecisionsAreEarned(w, trace, events, i)
    ensures RowsAreEarned(w, trace, events, i + 1)
  {
    hide IsStep, Sound, Mirrored, Apply, SubmitEscalation, Admissible, WasBegun, WasMarked, WasSubmitted;
    StepIs(w, trace, events, i);
    var s, e, t := trace[i], events[i], trace[i + 1];
    forall id | id in t.escalations ensures RowIsEarned(w, trace, events, i + 1, id) {
      EveryRowComesFrom(w, s, e, id);
      if e.Submitted? && e.id == id && !(id in s.escalations && t.escalations[id] == s.escalations[id]) {
        NewSubmissionIsEarned(w, trace, events, i);
        SubmittedNow(w, trace, events, i, id, e.typedData);
      } else {
        assert RowIsEarned(w, trace, events, i, id);
        SubmittedStaysSubmitted(w, trace, events, i, id, t.escalations[id].typedData);
        if t.escalations[id] == s.escalations[id] {
          if t.escalations[id].status != AwaitingSignature {
            TakenStaysTaken(w, trace, events, i,
                            HumanDecision(id, t.escalations[id].signature.value, t.escalations[id].status == Signed));
          }
        } else {
          var job := s.deciding[e.task];
          assert WasBegun(w, trace, events, i, job);
          TakenStaysTaken(w, trace, events, i, job);
          MarkedNow(trace, events, i, job);
        }
      }
    }
  }

  lemma SubmittedNow(w: World, trace: seq<State>, events: seq<Event>, i: nat, id: string, t: TypedData)
    requires i < |events| < |trace| && SubmittedAt(w, trace, events, i, id, t)
    ensures WasSubmitted(w, trace, events, i + 1, id, t)
  {
    hide SubmittedAt;
  }

  lemma MarkedNow(trace: seq<State>, events: seq<Event>, i: nat, job: HumanDecision)
    requires i < |events| < |trace| && MarkedAt(trace, events, i, job)
    ensures WasMarked(trace, events, i + 1, job)
  {
    hide MarkedAt;
  }

  lemma BegunNow(w: World, trace: seq<State>, events: seq<Event>, i: nat, task: nat)
    requires i < |events| < |trace| && IsStep(w, trace, events, i)
    requires task in trace[i + 1].deciding
    requires !(task in trace[i].deciding && trace[i + 1].deciding[task] == trace[i].deciding[task])
    ensures WasBegun(w, trace, events, i + 1, trace[i + 1].deciding[task])
    ensures trace[i + 1].deciding[task].signature != ""
  {
    StepIs(w, trace, events, i);
    var s, e := trace[i], events[i];
    DecidingComesFrom(w, s, e, task);
    if e.ApprovalBegun? {
      ApprovalBegins(w, s, e.id, e.signature, e.task, e.now);
      assert ApprovedAt(w, trace, events, i, e.id, e.signature);
    } else {
      RejectionBegins(w, s, e.id, e.signature, e.task);
      assert RejectedAt(w, trace, events, i, e.id, e.signature);
    }
    hide IsStep, Sound, Mirrored, Apply, Admissible, BeginApprove, BeginReject;
  }

  lemma DecisionsStayEarned(w: World, trace: seq<State>, events: seq<Event>, i: nat)
    requires i < |events| < |trace| && IsStep(w, trace, events, i) && DecisionsAreEarned(w, trace, events, i)
    ensures DecisionsAreEarned(w, trace, events, i + 1)
  {
    hide IsStep, Sound, Mirrored, Apply, Admissible, WasBegun, WasMarked;
    StepIs(w, trace, events, i);
    var s, e, t := trace[i], events[i], trace[i + 1];
    forall task | task in t.deciding
      ensures WasBegun(w, trace, events, i + 1, t.deciding[task]) && t.deciding[task].signature != ""
    {
      if task in s.deciding && t.deciding[task] == s.deciding[task] {
        TakenStaysTaken(w, trace, events, i, t.deciding[task]);
      } else {
        BegunNow(w, trace, events, i, task);
      }
    }
    forall task | task in t.marked ensures WasTaken(w, trace, events, i + 1, t.marked[task]) {
      MarkedComesFrom(w, s, e, task);
      var job := t.marked[task];
      TakenStaysTaken(w, trace, events, i, job);
      if !(task in s.marked && job == s.marked[task]) {
        assert WasBegun(w, trace, events, i, s.deciding[e.task]);
        MarkedNow(trace, events, i, job);
      }
    }
  }

  lemma SignaturesStayEarned(w: World, trace: seq<State>, events: seq<Event>, i: nat)
    requires i < |events| < |trace| && IsStep(w, trace, events, i)
    requires DecisionsAreEarned(w, trace, events, i) && SignaturesAreEarned(w, trace, events, i)
    ensures SignaturesAreEarned(w, trace, events, i + 1)
  {
    hide IsStep, Sound, Mirrored, Apply, Admissible, WasBegun, WasMarked, Known;
    StepIs(w, trace, events, i);
    var s, e, t := trace[i], events[i], trace[i + 1];
    forall id | id in t.issued ensures SignatureIsEarned(w, trace, events, i + 1, id) {
      if id in s.issued {
        SignatureComesFrom(w, s, e, id);
        assert SignatureIsEarned(w, trace, events, i, id);
        if Known(t.store)[id].signature.Some? {
          TakenStaysTaken(w, trace, events, i, HumanDecision(id, Known(t.store)[id].signature.value, true));
        }
      } else {
        NewActionIsUnsigned(w, s, e, id);
      }
    }
  }

  lemma NewActionIsUnsigned(w: World, s: State, e: Event, id: string)
    requires Sound(w, s) && Admissible(w, s, e) && id !in s.issued && id in Apply(w, s, e).issued
    ensures id in Known(Apply(w, s, e).store) && Known(Apply(w, s, e).store)[id].signature == None
  {
    OnlyAuthorizeIssues(w, s, e);
    StoreIsMirrored(w, s);
    AuthorizedIsUnsigned(s, e, w);
    hide Sound, Mirrored, Known, Apply;
  }

  lemma AuthorizedIsUnsigned(s: State, e: Event, w: World)
    requires Mirrored(s.store) && e.Authorized? && e.id !in s.store.table
    ensures e.id in Known(Apply(w, s, e).store) && Known(Apply(w, s, e).store)[e.id].signature == None
  {
    hide Mirrored, Known, Authorize, Create, Evaluate, JudgedStore, FullJustification;
    AuthorizeInTwoCases(w, s, e.agent, e.request, e.id, e.createdAt, e.evaluatedAt);
    var p := Authorize(w, s, e.agent, e.request, e.id, e.createdAt, e.evaluatedAt).1;
    CreateAddsOneAction(s.store, Proposal(e.agent, e.request), e.id, e.createdAt);
    if p.Ok? {
      JudgedStoreHoldsTheAction(s, e.agent, e.request, e.id, e.createdAt, p.value, e.evaluatedAt);
    }
  }

  /** Over every run: rows, decisions under way and signatures are all earned. */
  lemma {:induction false} EveryRunIsEarned(w: World, trace: seq<State>, events: seq<Event>, i: nat)
    requires IsRun(w, trace, events) && i < |trace|
    ensures RowsAreEarned(w, trace, events, i) && DecisionsAreEarned(w, trace, events, i)
    ensures SignaturesAreEarned(w, trace, events, i)
    decreases i
  {
    hide Sound, Apply, Admissible, RowIsEarned, SignatureIsEarned, WasBegun, WasTaken;
    if i == 0 {
    } else {
      hide RowsAreEarned, DecisionsAreEarned, SignaturesAreEarned;
      EveryRunIsEarned(w, trace, events, i - 1);
      EveryRunIsSound(w, trace, events, i - 1);
      assert StepAt(w, trace, events, i - 1);
      assert IsStep(w, trace, events, i - 1);
      RowsStayEarned(w, trace, events, i - 1);
      DecisionsStayEarned(w, trace, events, i - 1);
      SignaturesStayEarned(w, trace, events, i - 1);
    }
  }

  // ---------------------------------------------------------------- what it comes to

  /** Whenever a row is SIGNED, an approval of that action with the row's signature had begun, and the World ID gate
      passed it. */
  lemma SignedRowsPassedTheGate(w: World, trace: seq<State>, events: seq<Event>, i: nat, id: string)
    requires IsRun(w, trace, events) && i < |trace|
    requires id in trace[i].escalations && trace[i].escalations[id].status == Signed
    ensures trace[i].escalations[id].signature.Some?
    ensures exists j :: 0 <= j < i && ApprovedAt(w, trace, events, j, id, trace[i].escalations[id].signature.value)
    ensures exists j :: 0 <= j < i && events[j].RowMarked? && events[j].isPassed
                        && events[j].task in trace[j].deciding
                        && trace[j].deciding[events[j].task]
                           == HumanDecision(id, trace[i].escalations[id].signature.value, true)
  {
    hide Sound, Apply, Admissible, ApprovedAt, RejectedAt;
    EveryRunIsEarned(w, trace, events, i);
    assert RowIsEarned(w, trace, events, i, id);
    var job := HumanDecision(id, trace[i].escalations[id].signature.value, true);
    var j :| 0 <= j < i && MarkedAt(trace, events, j, job);
  }

  /** Whenever a row is REJECTED, a rejection of that action signed by the approver had begun, and marked it. */
  lemma RejectedRowsWereSigned(w: World, trace: seq<State>, events: seq<Event>, i: nat, id: string)
    requires IsRun(w, trace, events) && i < |trace|
    requires id in trace[i].escalations && trace[i].escalations[id].status == Refused
    ensures trace[i].escalations[id].signature.Some?
    ensures exists j :: 0 <= j < i && RejectedAt(w, trace, events, j, id, trace[i].escalations[id].signature.value)
  {
    hide Sound, Apply, Admissible, ApprovedAt, RejectedAt;
    EveryRunIsEarned(w, trace, events, i);
    assert RowIsEarned(w, trace, events, i, id);
  }

  /** Whenever an action that was not allowed outright can be spent, or was, an approval of it with the signature it
      carries had begun, and the gate passed it. */
  lemma SpendingPassedTheGate(w: World, trace: seq<State>, events: seq<Event>, i: nat, id: string)
    requires IsRun(w, trace, events) && i < |trace|
    requires id in trace[i].rulings && trace[i].rulings[id].decision != ALLOW && id in Known(trace[i].store)
    requires var a := Known(trace[i].store)[id]; a.status == APPROVED || a.status == EXECUTED || a.signature.Some?
    ensures var a := Known(trace[i].store)[id];
            && a.signature.Some?
            && (exists j :: 0 <= j < i && ApprovedAt(w, trace, events, j, id, a.signature.value))
            && exists j :: 0 <= j < i && events[j].RowMarked? && events[j].isPassed
                           && events[j].task in trace[j].deciding
                           && trace[j].deciding[events[j].task] == HumanDecision(id, a.signature.value, true)
  {
    assert |trace| == |events| + 1;
    hide Sound, Apply, Admissible, ApprovedAt, RejectedAt, Known, IsRun;
    EveryRunIsEarned(w, trace, events, i);
    SpendingNeedsSignature(w, trace, events, i, id);
    assert SignatureIsEarned(w, trace, events, i, id);
    var job := HumanDecision(id, Known(trace[i].store)[id].signature.value, true);
    var j :| 0 <= j < i && MarkedAt(trace, events, j, job);
  }

  lemma SpendingNeedsSignature(w: World, trace: seq<State>, events: seq<Event>, i: nat, id: string)
    requires IsRun(w, trace, events) && i < |trace|
    requires id in trace[i].rulings && trace[i].rulings[id].decision != ALLOW && id in Known(trace[i].store)
    requires var a := Known(trace[i].store)[id]; a.status == APPROVED || a.status == EXECUTED || a.signature.Some?
    ensures id in trace[i].issued && Known(trace[i].store)[id].signature.Some?
  {
    hide IsRun, Known, Transferred, IsVouched;
    RunIsInStep(w, trace, events, i, id);
  }

  /** Whatever an escalation row holds, its action's own agent submitted, unexpired, while the action was PENDING. */
  lemma RowsWereSubmitted(w: World, trace: seq<State>, events: seq<Event>, i: nat, id: string)
    requires IsRun(w, trace, events) && i < |trace| && id in trace[i].escalations
    ensures exists j :: 0 <= j < i && SubmittedAt(w, trace, events, j, id, trace[i].escalations[id].typedData)
  {
    hide Sound, Apply, Admissible, SubmittedAt;
    EveryRunIsEarned(w, trace, events, i);
    assert RowIsEarned(w, trace, events, i, id);
  }
}
