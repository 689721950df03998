/** The daily cap of the x402 rail: when it holds, exactly, over runs in which a new process may have lost any
    part of memory and a handler may straddle midnight. */
module X402Cap {
  import opened Common
  import opened ActionStore
  import opened X402
  import opened X402Proofs
  import Normaliser

  // ---------------------------------------------------------------- what was allowed, and what is counted

  predicate IsAllowedOn(r: Ruling, agent: string, day: nat) {
    r.decision == ALLOW && r.agent == agent && DayOf(r.createdAt) == day
  }

  function AllowedOn(rulings: map<string, Ruling>, agent: string, day: nat): map<string, int> {
    map k | k in rulings && IsAllowedOn(rulings[k], agent, day) :: rulings[k].amount
  }

  ghost function AllowedTotal(rulings: map<string, Ruling>, agent: string, day: nat): int {
    Sum(AllowedOn(rulings, agent, day))
  }

  /** The daily cap: what `authorize` allowed one agent on one UTC day. */
  ghost predicate Capped(w: World, rulings: map<string, Ruling>) {
    forall agent: string, day: nat :: AllowedTotal(rulings, agent, day) <= w.config.dailyLimit
  }

  /** Allowed without a human, as the tables have it: an action of `authorize` for the agent, created that day,
      APPROVED or EXECUTED without an escalation row. */
  predicate IsFree(s: State, k: string, agent: string, day: nat)
    requires k in Known(s.store)
  {
    var a := Known(s.store)[k];
    && k in s.issued && k !in s.escalations
    && (a.status == APPROVED || a.status == EXECUTED)
    && ToLower(a.agentAddress) == ToLower(agent) && DayOf(a.createdAt) == day
  }

  function Stored(w: World, s: State, agent: string, day: nat): map<string, int> {
    map k | k in Known(s.store) && IsFree(s, k, agent, day) :: Units(w.env, Known(s.store)[k].amount)
  }

  /** The policy finds the action in memory and counts it. */
  predicate IsSeen(s: State, k: string, agent: string, since: nat) {
    k in s.store.actions && IsCounted(s.store.actions[k], agent, since)
  }

  /** What the tables have for the day the new action is created on, and the policy counts as it evaluates. */
  function Seen(w: World, s: State, agent: string, createdAt: nat, evaluatedAt: nat): map<string, int> {
    map k | k in Known(s.store) && IsFree(s, k, agent, DayOf(createdAt))
            && IsSeen(s, k, agent, StartOfDay(evaluatedAt))
      :: Units(w.env, Known(s.store)[k].amount)
  }

  /** What the tables have for that day and the policy misses. */
  function Missing(w: World, s: State, agent: string, createdAt: nat, evaluatedAt: nat): map<string, int> {
    map k | k in Known(s.store) && IsFree(s, k, agent, DayOf(createdAt))
            && !IsSeen(s, k, agent, StartOfDay(evaluatedAt))
      :: Units(w.env, Known(s.store)[k].amount)
  }

  lemma StoredIsSeenOrMissing(w: World, s: State, agent: string, createdAt: nat, evaluatedAt: nat)
    ensures Sum(Stored(w, s, agent, DayOf(createdAt)))
         == Sum(Seen(w, s, agent, createdAt, evaluatedAt)) + Sum(Missing(w, s, agent, createdAt, evaluatedAt))
  {
    hide IsFree, IsSeen, Known;
    var seen, missing := Seen(w, s, agent, createdAt, evaluatedAt), Missing(w, s, agent, createdAt, evaluatedAt);
    assert Stored(w, s, agent, DayOf(createdAt)) == seen + missing;
    SumOfUnion(seen, missing);
  }

  /** Over every run an action of `authorize` was allowed by it exactly when it is APPROVED or EXECUTED and has no
      escalation row. */
  lemma AllowedIff(w: World, s: State, k: string)
    requires Sound(w, s) && k in s.issued
    ensures k in Known(s.store)
    ensures var a := Known(s.store)[k];
            k in s.rulings && s.rulings[k].decision == ALLOW
            <==> k !in s.escalations && (a.status == APPROVED || a.status == EXECUTED)
  {
    hide Sound, Mirrored, Known, IsVouched, Covers, JobFits, DecisionFits, ChangedOnly, SameRequest, Vetted;
    LookAt(w, s, k);
  }

  /** In a sound state an allowed action is worth what it was allowed for. */
  lemma AllowedIsWorthItsAmount(w: World, s: State, k: string)
    requires Sound(w, s) && k in s.rulings && s.rulings[k].decision == ALLOW
    ensures k in Known(s.store) && Units(w.env, Known(s.store)[k].amount) == s.rulings[k].amount
    ensures k in s.issued && 0 <= s.rulings[k].amount
    ensures k in s.store.actions ==> s.store.actions[k] == Known(s.store)[k]
    ensures s.rulings[k].createdAt == Known(s.store)[k].createdAt
    ensures s.rulings[k].agent == ToLower(Known(s.store)[k].agentAddress)
    ensures HasPrefix(Known(s.store)[k].justification)
    ensures Known(s.store)[k].status == APPROVED || Known(s.store)[k].status == EXECUTED
  {
    hide Sound, Mirrored, Known, IsVouched, Covers, JobFits, DecisionFits, ChangedOnly, SameRequest;
    LookAt(w, s, k);
    AmountsAreNotNegative(w, s, k);
    FindIsKnown(s.store, k);
  }

  lemma AmountsAreNotNegative(w: World, s: State, k: string)
    requires Sound(w, s)
    ensures k in Known(s.store) ==> 0 <= Units(w.env, Known(s.store)[k].amount)
  {
    hide Mirrored, AllInStep, JobsInStep, DecisionsFit, Scoped;
  }

  /** The tables tell what was allowed. */
  lemma StoredIsAllowed(w: World, s: State, agent: string, day: nat)
    requires Sound(w, s)
    ensures Stored(w, s, agent, day) == AllowedOn(s.rulings, ToLower(agent), day)
    ensures Sum(Stored(w, s, agent, day)) == AllowedTotal(s.rulings, ToLower(agent), day)
  {
    hide Sound, Known, Sum, Units;
    var stored, allowed := Stored(w, s, agent, day), AllowedOn(s.rulings, ToLower(agent), day);
    forall k | k in stored ensures k in allowed {
      AllowedIff(w, s, k);
      AllowedIsWorthItsAmount(w, s, k);
    }
    forall k | k in allowed ensures k in stored && stored[k] == allowed[k] {
      AllowedIsWorthItsAmount(w, s, k);
      AllowedIff(w, s, k);
    }
    assert stored == allowed;
  }

  /** What the policy sees of the day is part of its total. */
  lemma SeenIsCounted(w: World, s: State, agent: string, createdAt: nat, evaluatedAt: nat)
    requires Sound(w, s)
    ensures Sum(Seen(w, s, agent, createdAt, evaluatedAt))
         <= Sum(Counted(w.env, s.store.actions, agent, StartOfDay(evaluatedAt)))
  {
    StoreIsMirrored(w, s);
    hide Sound, IsCounted, Known, IsFree, Sum, Units;
    var seen := Seen(w, s, agent, createdAt, evaluatedAt);
    var counted := Counted(w.env, s.store.actions, agent, StartOfDay(evaluatedAt));
    forall k | k in s.store.actions
      ensures k in Known(s.store) && Known(s.store)[k] == s.store.actions[k]
      ensures 0 <= Units(w.env, s.store.actions[k].amount)
    {
      MemoryIsKnown(s.store, k);
      AmountsAreNotNegative(w, s, k);
    }
    SumMonotone(seen, counted);
  }

  lemma MemoryIsKnown(store: Store, k: string)
    requires Mirrored(store) && k in store.actions
    ensures k in Known(store) && Known(store)[k] == store.actions[k]
  {
    FindIsKnown(store, k);
  }

  // ---------------------------------------------------------------- one authorisation

  lemma AllowedOnNewRuling(rulings: map<string, Ruling>, id: string, r: Ruling, agent: string, day: nat)
    requires id !in rulings
    ensures AllowedOn(rulings[id := r], agent, day)
         == if IsAllowedOn(r, agent, day) then AllowedOn(rulings, agent, day)[id := r.amount]
            else AllowedOn(rulings, agent, day)
  {
  }

  lemma AllowedTotalWithNewRuling(rulings: map<string, Ruling>, id: string, r: Ruling, agent: string, day: nat)
    requires id !in rulings
    ensures AllowedTotal(rulings[id := r], agent, day)
         == AllowedTotal(rulings, agent, day) + if IsAllowedOn(r, agent, day) then r.amount else 0
  {
    AllowedOnNewRuling(rulings, id, r, agent, day);
    SumPut(AllowedOn(rulings, agent, day), id, r.amount);
  }

  lemma RulingKeepsCappedIff(w: World, rulings: map<string, Ruling>, id: string, r: Ruling)
    requires Capped(w, rulings) && id !in rulings
    ensures Capped(w, rulings[id := r])
       <==> (r.decision == ALLOW ==>
               AllowedTotal(rulings, r.agent, DayOf(r.createdAt)) + r.amount <= w.config.dailyLimit)
  {
    var ruled := rulings[id := r];
    forall agent: string, day: nat
      ensures AllowedTotal(ruled, agent, day) <= w.config.dailyLimit
         <==> (IsAllowedOn(r, agent, day) ==> AllowedTotal(rulings, agent, day) + r.amount <= w.config.dailyLimit)
    {
      assert AllowedTotal(rulings, agent, day) <= w.config.dailyLimit;
      hide Capped, AllowedTotal;
      AllowedTotalWithNewRuling(rulings, id, r, agent, day);
    }
  }

  /** The rulings `authorize` leaves. */
  lemma AuthorizeRules(w: World, s: State, agent: string, request: PaymentRequest, id: string, createdAt: nat,
                       evaluatedAt: nat)
    ensures var (t, reply) := Authorize(w, s, agent, request, id, createdAt, evaluatedAt);
            t.rulings == if reply.Err? then s.rulings
                         else s.rulings[id := Ruling(reply.value.decision, ToLower(agent), createdAt,
                                                     Units(w.env, request.amount))]
  {
    hide Evaluate, Create, Annotate, Update, FullJustification;
  }

  /** From any state at all in which the cap holds: it survives an authorisation exactly when that does not
      allow the payment, or the day it was created on still has room for it. */
  lemma CapSurvivesIff(w: World, s: State, agent: string, request: PaymentRequest, id: string, createdAt: nat,
                       evaluatedAt: nat)
    requires Capped(w, s.rulings) && id !in s.rulings
    ensures var (t, reply) := Authorize(w, s, agent, request, id, createdAt, evaluatedAt);
            Capped(w, t.rulings)
            <==> (reply.Ok? && reply.value.decision == ALLOW ==>
                    AllowedTotal(s.rulings, ToLower(agent), DayOf(createdAt)) + Units(w.env, request.amount)
                    <= w.config.dailyLimit)
  {
    hide Authorize, Capped, AllowedTotal;
    AuthorizeRules(w, s, agent, request, id, createdAt, evaluatedAt);
    var reply := Authorize(w, s, agent, request, id, createdAt, evaluatedAt).1;
    if reply.Ok? {
      RulingKeepsCappedIff(w, s.rulings, id,
                           Ruling(reply.value.decision, ToLower(agent), createdAt, Units(w.env, request.amount)));
    }
  }

  /** The same room as the tables tell it. */
  ghost predicate HasRoom(w: World, s: State, agent: string, amount: int, createdAt: nat) {
    Sum(Stored(w, s, agent, DayOf(createdAt))) + amount <= w.config.dailyLimit
  }

  ghost predicate Fits(w: World, s: State, e: Event) {
    e.Authorized? ==>
      var reply := Authorize(w, s, e.agent, e.request, e.id, e.createdAt, e.evaluatedAt).1;
      reply.Ok? && reply.value.decision == ALLOW ==>
        HasRoom(w, s, e.agent, Units(w.env, e.request.amount), e.createdAt)
  }

  // ---------------------------------------------------------------- every run

  lemma AgentStepsRuleNothing(w: World, s: State, e: Event)
    requires e.Submitted? || e.SubmissionFinished? || e.SettleBegun? || e.SettleFinished?
    ensures Apply(w, s, e).rulings == s.rulings
  {
    hide Update, Cache, Find, IsValidTypedData, SameAddress, VerifyTransfer, Covers;
  }

  lemma HumanStepsRuleNothing(w: World, s: State, e: Event)
    requires e.ApprovalBegun? || e.RejectionBegun? || e.RowMarked? || e.DecisionFinished?
    ensures Apply(w, s, e).rulings == s.rulings
  {
    hide Update, SameAddress, Marked;
  }

  /** Steps other than `authorize` rule nothing. */
  lemma OthersRuleNothing(w: World, s: State, e: Event)
    requires !e.Authorized?
    ensures Apply(w, s, e).rulings == s.rulings
  {
    hide Update, Create, Restart, SubmitEscalation, FinishSubmit, BeginSettle, FinishSettle, BeginApprove, BeginReject,
         MarkRow, FinishDecision;
    if e.Submitted? || e.SubmissionFinished? || e.SettleBegun? || e.SettleFinished? {
      AgentStepsRuleNothing(w, s, e);
    } else if e.ApprovalBegun? || e.RejectionBegun? || e.RowMarked? || e.DecisionFinished? {
      HumanStepsRuleNothing(w, s, e);
    }
  }

  lemma StepKeepsCappedIff(w: World, s: State, e: Event)
    requires Sound(w, s) && Admissible(w, s, e) && Capped(w, s.rulings)
    ensures Capped(w, Apply(w, s, e).rulings) <==> Fits(w, s, e)
  {
    if e.Authorized? {
      RuledIsStored(w, s, e.id);
      ApplyAuthorizes(w, s, e);
      hide Sound, Capped, Authorize, Apply, AllowedTotal, Stored;
      CapSurvivesIff(w, s, e.agent, e.request, e.id, e.createdAt, e.evaluatedAt);
      StoredIsAllowed(w, s, e.agent, DayOf(e.createdAt));
    } else {
      OthersRuleNothing(w, s, e);
    }
  }

  lemma ApplyAuthorizes(w: World, s: State, e: Event)
    requires e.Authorized?
    ensures Apply(w, s, e) == Authorize(w, s, e.agent, e.request, e.id, e.createdAt, e.evaluatedAt).0
  {
    hide Authorize;
  }

  lemma RuledIsStored(w: World, s: State, id: string)
    requires Sound(w, s) && id !in s.store.table
    ensures id !in s.rulings
  {
    hide Mirrored, AllInStep, JobsInStep, DecisionsFit, AmountsAreUnits;
  }

  /** What an earlier state allowed, a later one still counts against the cap. */
  lemma CappedBefore(w: World, s: State, t: State)
    requires Sound(w, t) && OnlyAdvances(s, t) && Capped(w, t.rulings)
    ensures Capped(w, s.rulings)
  {
    hide Sound, Known;
    forall agent: string, day: nat ensures AllowedTotal(s.rulings, agent, day) <= w.config.dailyLimit {
      var before, after := AllowedOn(s.rulings, agent, day), AllowedOn(t.rulings, agent, day);
      forall k | k in after ensures 0 <= after[k] {
        AllowedIsWorthItsAmount(w, t, k);
      }
      SumMonotone(before, after);
      assert AllowedTotal(t.rulings, agent, day) <= w.config.dailyLimit;
    }
  }

  lemma StartIsCapped(w: World)
    requires 0 <= w.config.dailyLimit
    ensures Capped(w, START.rulings)
  {
    forall agent: string, day: nat ensures AllowedTotal(map[], agent, day) == 0 {
      assert AllowedOn(map[], agent, day) == map[];
    }
  }

  /** The cap over every run, exactly: it holds so far if and only if every payment allowed so far had room
      beside what the tables then had for its day. Restarts may lose any part of memory, handlers may straddle
      midnight, and human decisions may interleave as they like. */
  lemma {:induction false} CapHoldsIff(w: World, trace: seq<State>, events: seq<Event>, i: nat)
    requires 0 <= w.config.dailyLimit && IsRun(w, trace, events) && i < |trace|
    ensures Capped(w, trace[i].rulings) <==> forall j :: 0 <= j < i ==> Fits(w, trace[j], events[j])
    decreases i
  {
    hide Sound, Apply, Admissible, Fits, Capped, OnlyAdvances, Keeps;
    if i == 0 {
      StartIsCapped(w);
    } else {
      CapHoldsIff(w, trace, events, i - 1);
      EveryRunIsSound(w, trace, events, i - 1);
      EveryRunIsSound(w, trace, events, i);
      assert StepAt(w, trace, events, i - 1);
      if Capped(w, trace[i - 1].rulings) {
        StepKeepsCappedIff(w, trace[i - 1], events[i - 1]);
      } else {
        StepAdvances(w, trace, events, i - 1);
        if Capped(w, trace[i].rulings) {
          CappedBefore(w, trace[i - 1], trace[i]);
        }
      }
    }
  }

  lemma StepAdvances(w: World, trace: seq<State>, events: seq<Event>, i: nat)
    requires IsRun(w, trace, events) && i < |events|
    ensures OnlyAdvances(trace[i], trace[i + 1])
  {
    hide Sound, Apply, Admissible, OnlyAdvances;
    LaterStatesOnlyAdvance(w, trace, events, i, i + 1);
  }

  // ---------------------------------------------------------------- runs in which nothing is missing

  predicate MissesNothing(w: World, s: State, e: Event) {
    e.Authorized? ==> Missing(w, s, e.agent, e.createdAt, e.evaluatedAt) == map[]
  }

  /** What is missing, exactly: of a handler that straddles midnight everything its day allowed; of any
      other what is not in memory. */
  lemma MissingIs(w: World, s: State, agent: string, createdAt: nat, evaluatedAt: nat, k: string)
    requires Sound(w, s) && k in Known(s.store) && IsFree(s, k, agent, DayOf(createdAt))
    ensures k in Missing(w, s, agent, createdAt, evaluatedAt)
            <==> DayOf(createdAt) < DayOf(evaluatedAt) || k !in s.store.actions
  {
    hide Sound, Known;
    AllowedIff(w, s, k);
    AllowedIsWorthItsAmount(w, s, k);
  }

  lemma AllowedFitsWhenNothingMisses(w: World, s: State, e: Event)
    requires Sound(w, s) && Admissible(w, s, e) && MissesNothing(w, s, e)
    ensures Fits(w, s, e)
  {
    if e.Authorized? {
      StoreIsMirrored(w, s);
      hide Sound, Authorize, Missing, Seen, Stored, Counted, Mirrored;
      AllowedIsWithinLimits(w, s, e.agent, e.request, e.id, e.createdAt, e.evaluatedAt);
      StoredIsSeenOrMissing(w, s, e.agent, e.createdAt, e.evaluatedAt);
      SeenIsCounted(w, s, e.agent, e.createdAt, e.evaluatedAt);
    }
  }

  /** Creating the new action first does not change what is counted. */
  lemma NewActionIsNotCounted(w: World, s: State, agent: string, request: PaymentRequest, id: string, createdAt: nat,
                              since: nat)
    requires id !in s.store.actions
    ensures Counted(w.env, Create(s.store, Proposal(agent, request), id, createdAt).actions, agent, since)
         == Counted(w.env, s.store.actions, agent, since)
  {
    hide FullJustification;
  }

  lemma AllowedIsWithinLimits(w: World, s: State, agent: string, request: PaymentRequest, id: string, createdAt: nat,
                              evaluatedAt: nat)
    requires Mirrored(s.store) && id !in s.store.table
    ensures var reply := Authorize(w, s, agent, request, id, createdAt, evaluatedAt).1;
            reply.Ok? && reply.value.decision == ALLOW ==>
              Sum(Counted(w.env, s.store.actions, agent, StartOfDay(evaluatedAt))) + Units(w.env, request.amount)
              <= w.config.dailyLimit
  {
    assert id !in s.store.actions;
    hide Mirrored, Authorize, Create, Evaluate, Counted, FullJustification, JudgedState;
    AuthorizeInTwoCases(w, s, agent, request, id, createdAt, evaluatedAt);
    var actions := Create(s.store, Proposal(agent, request), id, createdAt).actions;
    AllowedPaymentsFit(w, actions, agent, request, FullJustification(request), evaluatedAt);
    NewActionIsNotCounted(w, s, agent, request, id, createdAt, StartOfDay(evaluatedAt));
  }

  /** The daily cap over every run in which no authorisation misses an allowed payment of its day: what
      `authorize` allowed one agent on one UTC day never exceeds the daily limit, whatever humans approved
      beside it and whatever else memory lost. */
  lemma DailyCapHolds(w: World, trace: seq<State>, events: seq<Event>, i: nat, agent: string, day: nat)
    requires 0 <= w.config.dailyLimit && IsRun(w, trace, events) && i < |trace|
    requires forall j :: 0 <= j < i ==> MissesNothing(w, trace[j], events[j])
    ensures AllowedTotal(trace[i].rulings, ToLower(agent), day) <= w.config.dailyLimit
  {
    forall j | 0 <= j < i ensures Fits(w, trace[j], events[j]) {
      hide Sound, Apply, Admissible, Fits, MissesNothing;
      EveryRunIsSound(w, trace, events, j);
      assert StepAt(w, trace, events, j);
      assert MissesNothing(w, trace[j], events[j]);
      AllowedFitsWhenNothingMisses(w, trace[j], events[j]);
    }
    CapHoldsIff(w, trace, events, i);
  }

  // ---------------------------------------------------------------- runs in which memory is never short

  predicate IsAllCached(s: State) { s.store.table.Keys <= s.store.actions.Keys }

  /** Restarts find the whole table loaded, and no handler straddles midnight. */
  predicate IsUnbroken(s: State, e: Event) {
    && (e.Restarted? ==> s.store.table.Keys <= e.early)
    && (e.Authorized? ==> DayOf(e.createdAt) == DayOf(e.evaluatedAt))
  }

  lemma UpdateKeepsAllCached(store: Store, id: string, status: Status, meta: Metadata, now: nat)
    requires Mirrored(store) && store.table.Keys <= store.actions.Keys
    ensures var t := Update(store, id, status, meta, now); t.table.Keys <= t.actions.Keys
  {
    hide WithStatus, RowWithStatus;
  }

  lemma AuthorizeKeepsAllCached(w: World, s: State, agent: string, request: PaymentRequest, id: string,
                                createdAt: nat, evaluatedAt: nat)
    requires Mirrored(s.store) && id !in s.store.table && IsAllCached(s)
    ensures IsAllCached(Authorize(w, s, agent, request, id, createdAt, evaluatedAt).0)
  {
    hide Mirrored, Authorize, Create, Evaluate, FullJustification, JudgedStore, Known;
    AuthorizeInTwoCases(w, s, agent, request, id, createdAt, evaluatedAt);
    var p := Authorize(w, s, agent, request, id, createdAt, evaluatedAt).1;
    CreateAddsOneAction(s.store, Proposal(agent, request), id, createdAt);
    KnownIsTable(s.store);
    KnownIsTable(Create(s.store, Proposal(agent, request), id, createdAt));
    if p.Ok? {
      JudgedStoreHoldsTheAction(s, agent, request, id, createdAt, p.value, evaluatedAt);
      KnownIsTable(JudgedStore(s, agent, request, id, createdAt, p.value, evaluatedAt));
    }
  }

  lemma CachingKeepsAllCached(store: Store, id: string)
    requires Mirrored(store) && store.table.Keys <= store.actions.Keys
    ensures Cache(store, id).table.Keys <= Cache(store, id).actions.Keys
  {
    hide Known;
    CacheKeepsKnown(store, id);
  }

  lemma AgentStepsKeepAllCached(w: World, s: State, e: Event)
    requires Mirrored(s.store) && IsAllCached(s)
    requires e.Submitted? || e.SubmissionFinished? || e.SettleBegun?
    ensures IsAllCached(Apply(w, s, e))
  {
    if e.SubmissionFinished? {
    } else {
      hide Apply, Cache, Mirrored;
      LookupsOnlyCache(w, s, e);
      CachingKeepsAllCached(s.store, e.id);
    }
  }

  lemma DecidingStepsKeepAllCached(w: World, s: State, e: Event)
    requires Mirrored(s.store) && IsAllCached(s)
    requires e.ApprovalBegun? || e.RejectionBegun? || e.RowMarked? || e.DecisionFinished? || e.SettleFinished?
    ensures IsAllCached(Apply(w, s, e))
  {
    hide Update, SameAddress, Marked, Mirrored, VerifyTransfer;
    if e.DecisionFinished? && e.task in s.marked {
      UpdateKeepsAllCached(s.store, s.marked[e.task].actionId, APPROVED,
                           Metadata(Some(s.marked[e.task].signature), None), e.now);
      UpdateKeepsAllCached(s.store, s.marked[e.task].actionId, REJECTED, NO_METADATA, e.now);
    } else if e.SettleFinished? && e.task in s.settling {
      UpdateKeepsAllCached(s.store, s.settling[e.task].actionId, EXECUTED,
                           Metadata(None, Some(s.settling[e.task].txHash)), e.now);
    }
  }

  lemma StepKeepsAllCached(w: World, s: State, e: Event)
    requires Sound(w, s) && Admissible(w, s, e) && IsUnbroken(s, e) && IsAllCached(s)
    ensures IsAllCached(Apply(w, s, e))
  {
    StoreIsMirrored(w, s);
    match e
    case Authorized(agent, request, id, createdAt, evaluatedAt) =>
      ApplyAuthorizes(w, s, e);
      hide Apply;
      AuthorizeKeepsAllCached(w, s, agent, request, id, createdAt, evaluatedAt);
    case Restarted(early) =>
    case OtherCreated(_, _, _) =>
    case OtherUpdated(id, status, meta, now) => UpdateKeepsAllCached(s.store, id, status, meta, now);
    case _ =>
      if e.Submitted? || e.SubmissionFinished? || e.SettleBegun? {
        AgentStepsKeepAllCached(w, s, e);
      } else {
        DecidingStepsKeepAllCached(w, s, e);
      }
  }

  lemma {:induction false} UnbrokenRunsCacheAll(w: World, trace: seq<State>, events: seq<Event>, i: nat)
    requires IsRun(w, trace, events) && i < |trace|
    requires forall j :: 0 <= j < i ==> IsUnbroken(trace[j], events[j])
    ensures IsAllCached(trace[i])
    decreases i
  {
    hide Sound, Apply, Admissible, IsUnbroken, IsAllCached;
    if i == 0 {
      NothingIsUncached();
    } else {
      UnbrokenRunsCacheAll(w, trace, events, i - 1);
      EveryRunIsSound(w, trace, events, i - 1);
      assert StepAt(w, trace, events, i - 1);
      assert IsUnbroken(trace[i - 1], events[i - 1]);
      StepKeepsAllCached(w, trace[i - 1], events[i - 1]);
    }
  }

  lemma NothingIsUncached()
    ensures IsAllCached(START)
  {
  }

  /** Such runs miss nothing. */
  lemma UnbrokenStepsMissNothing(w: World, s: State, e: Event)
    requires Sound(w, s) && IsAllCached(s) && IsUnbroken(s, e)
    ensures MissesNothing(w, s, e)
  {
    if e.Authorized? {
      hide Sound, Known, IsFree;
      KnownIsTable(s.store);
      var missing := Missing(w, s, e.agent, e.createdAt, e.evaluatedAt);
      forall k | k in missing ensures false {
        MissingIs(w, s, e.agent, e.createdAt, e.evaluatedAt, k);
      }
      assert missing == map[];
    }
  }

  /** So the cap holds over every run that keeps its memory. */
  lemma DailyCapHoldsUnbroken(w: World, trace: seq<State>, events: seq<Event>, i: nat, agent: string, day: nat)
    requires 0 <= w.config.dailyLimit && IsRun(w, trace, events) && i < |trace|
    requires forall j :: 0 <= j < i ==> IsUnbroken(trace[j], events[j])
    ensures AllowedTotal(trace[i].rulings, ToLower(agent), day) <= w.config.dailyLimit
  {
    forall j | 0 <= j < i ensures MissesNothing(w, trace[j], events[j]) {
      hide Sound, Apply, Admissible, IsUnbroken, IsAllCached, MissesNothing;
      UnbrokenRunsCacheAll(w, trace, events, j);
      EveryRunIsSound(w, trace, events, j);
      assert IsUnbroken(trace[j], events[j]);
      UnbrokenStepsMissNothing(w, trace[j], events[j]);
    }
    DailyCapHolds(w, trace, events, i, agent, day);
  }

  // ---------------------------------------------------------------- runs in which the cap is exceeded

  /** A request the policy has no objection to but, possibly, the day's total. */
  predicate IsUnobjectionable(w: World, request: PaymentRequest) {
    && IsApprovedDestination(w, request)
    && w.env.bigInt(request.amount).Some?
    && 0 <= Units(w.env, request.amount) <= w.config.autonomousLimit
    && Normaliser.Analyse(FullJustification(request)).detectedIntents == []
  }

  /** One such payment fits the daily limit, two do not. */
  predicate FitsOnce(w: World, request: PaymentRequest) {
    && IsUnobjectionable(w, request)
    && Units(w.env, request.amount) <= w.config.dailyLimit < 2 * Units(w.env, request.amount)
  }

  /** Where nothing of the agent's is counted, such a payment is allowed. */
  lemma AllowedWhenNothingIsCounted(w: World, s: State, agent: string, request: PaymentRequest, id: string,
                                    createdAt: nat, evaluatedAt: nat)
    requires IsUnobjectionable(w, request) && Units(w.env, request.amount) <= w.config.dailyLimit
    requires id !in s.store.actions
    requires forall k :: k in s.store.actions ==> !IsCounted(s.store.actions[k], agent, StartOfDay(evaluatedAt))
    ensures var (t, reply) := Authorize(w, s, agent, request, id, createdAt, evaluatedAt);
            && reply.Ok? && reply.value.decision == ALLOW
            && t.rulings == s.rulings[id := Ruling(ALLOW, ToLower(agent), createdAt, Units(w.env, request.amount))]
  {
    hide Authorize, Create, Evaluate, FullJustification, JudgedState, Normaliser.Analyse;
    var actions := Create(s.store, Proposal(agent, request), id, createdAt).actions;
    NewActionIsNotCounted(w, s, agent, request, id, createdAt, StartOfDay(evaluatedAt));
    assert Counted(w.env, s.store.actions, agent, StartOfDay(evaluatedAt)) == map[];
    NothingCountedParses(w, actions, agent, StartOfDay(evaluatedAt));
    AuthorizeInTwoCases(w, s, agent, request, id, createdAt, evaluatedAt);
    AuthorizeRules(w, s, agent, request, id, createdAt, evaluatedAt);
    PolicyDecides(w, actions, agent, request, FullJustification(request), evaluatedAt);
  }

  lemma NothingCountedParses(w: World, actions: map<string, TreasuryAction>, agent: string, since: nat)
    requires Counted(w.env, actions, agent, since) == map[]
    ensures CountedParse(w.env, actions, agent, since)
  {
    hide IsCounted;
    assert forall k :: k in actions && IsCounted(actions[k], agent, since) ==>
                         k in Counted(w.env, actions, agent, since);
  }

  /** The state after a first allowed payment. */
  lemma AfterFirstPayment(w: World, agent: string, request: PaymentRequest, id: string, t: nat)
    requires FitsOnce(w, request)
    ensures var s := Authorize(w, START, agent, request, id, t, t).0;
            && s.rulings == map[id := Ruling(ALLOW, ToLower(agent), t, Units(w.env, request.amount))]
            && s.store.table.Keys == {id} && s.store.actions.Keys == {id}
            && s.store.actions[id].createdAt == t
  {
    hide Authorize, FullJustification, JudgedStore, IsUnobjectionable, Create;
    AllowedWhenNothingIsCounted(w, START, agent, request, id, t, t);
    AuthorizeInTwoCases(w, START, agent, request, id, t, t);
    var p := Authorize(w, START, agent, request, id, t, t).1;
    JudgedStoreHoldsTheAction(START, agent, request, id, t, p.value, t);
    KnownIsTable(START.store);
    KnownIsTable(JudgedStore(START, agent, request, id, t, p.value, t));
    FindIsKnown(JudgedStore(START, agent, request, id, t, p.value, t), id);
  }

  lemma TwoPaymentsExceed(w: World, rulings: map<string, Ruling>, agent: string, request: PaymentRequest, a: string,
                          b: string, t: nat, u: nat)
    requires FitsOnce(w, request) && a != b && DayOf(t) == DayOf(u)
    requires rulings == map[a := Ruling(ALLOW, ToLower(agent), t, Units(w.env, request.amount))]
    ensures Capped(w, rulings)
    ensures !Capped(w, rulings[b := Ruling(ALLOW, ToLower(agent), u, Units(w.env, request.amount))])
  {
    var r := Ruling(ALLOW, ToLower(agent), t, Units(w.env, request.amount));
    var q := Ruling(ALLOW, ToLower(agent), u, Units(w.env, request.amount));
    forall x: string, day: nat ensures AllowedTotal(map[], x, day) == 0 {
      assert AllowedOn(map[], x, day) == map[];
    }
    assert map[][a := r] == rulings;
    hide AllowedTotal, IsUnobjectionable;
    RulingKeepsCappedIff(w, map[], a, r);
    AllowedTotalWithNewRuling(map[], a, r, ToLower(agent), DayOf(t));
    RulingKeepsCappedIff(w, rulings, b, q);
  }

  /** The run the application takes over a restart: allow, start a process that finds nothing loaded, allow
      again. The cap holds until the last step and is exceeded by it. */
  lemma RestartWitness(w: World, agent: string, request: PaymentRequest, a: string, b: string, t: nat)
    returns (trace: seq<State>, events: seq<Event>)
    requires FitsOnce(w, request) && a != b
    ensures events == [Authorized(agent, request, a, t, t), Restarted({}), Authorized(agent, request, b, t, t)]
    ensures IsRun(w, trace, events)
    ensures Sound(w, trace[2]) && Capped(w, trace[2].rulings) && !Capped(w, trace[3].rulings)
  {
    hide Authorize, FullJustification, Sound, Capped, Normaliser.Analyse, NextNonce;
    AfterFirstPayment(w, agent, request, a, t);
    var s1 := Authorize(w, START, agent, request, a, t, t).0;
    var s2 := AfterRestart(s1, Restart(s1.store.table, {}));
    assert Restrict(s1.store.table, {}) == map[];
    AllowedWhenNothingIsCounted(w, s2, agent, request, b, t, t);
    var s3 := Authorize(w, s2, agent, request, b, t, t).0;
    TwoPaymentsExceed(w, s1.rulings, agent, request, a, b, t, t);
    trace := [START, s1, s2, s3];
    events := [Authorized(agent, request, a, t, t), Restarted({}), Authorized(agent, request, b, t, t)];
    assert StepAt(w, trace, events, 0) && StepAt(w, trace, events, 1) && StepAt(w, trace, events, 2);
    EveryRunIsSound(w, trace, events, 2);
  }

  /** Two payments of one day, the second evaluated after midnight. */
  lemma MidnightWitness(w: World, agent: string, request: PaymentRequest, a: string, b: string, t: nat, later: nat)
    returns (trace: seq<State>, events: seq<Event>)
    requires FitsOnce(w, request) && a != b && DayOf(t) < DayOf(later)
    ensures events == [Authorized(agent, request, a, t, t), Authorized(agent, request, b, t, later)]
    ensures IsRun(w, trace, events)
    ensures Sound(w, trace[1]) && Capped(w, trace[1].rulings) && !Capped(w, trace[2].rulings)
  {
    hide Authorize, FullJustification, Sound, Capped, Normaliser.Analyse;
    AfterFirstPayment(w, agent, request, a, t);
    var s1 := Authorize(w, START, agent, request, a, t, t).0;
    assert s1.store.actions[a].createdAt < StartOfDay(later);
    AllowedWhenNothingIsCounted(w, s1, agent, request, b, t, later);
    var s2 := Authorize(w, s1, agent, request, b, t, later).0;
    TwoPaymentsExceed(w, s1.rulings, agent, request, a, b, t, t);
    trace := [START, s1, s2];
    events := [Authorized(agent, request, a, t, t), Authorized(agent, request, b, t, later)];
    assert StepAt(w, trace, events, 0) && StepAt(w, trace, events, 1);
    EveryRunIsSound(w, trace, events, 1);
  }

  // ---------------------------------------------------------------- an example to run them on

  const EXAMPLE_REQUEST := PaymentRequest("", "base-sepolia", "usdc", "shop", "6", "")

  const EXAMPLE_WORLD := World(
    Env((a: string) => Some(a), (n: string) => Some(6)),
    Config("base-sepolia", "usdc", ["shop"], 10, 10, "ledger"),
    (t: TypedData, signature: string) => Some("ledger"),
    (text: string, signature: string) => Some("ledger"))

  /** One clean word and breaks after it. */
  lemma WordsOfOneWord(word: string, rest: string)
    requires Normaliser.IsClean(word) && rest != ""
    requires forall i :: 0 <= i < |rest| ==> Normaliser.IsBreak(rest[i])
    ensures Normaliser.Words(word + rest) == [word]
  {
    hide Normaliser.IsBreak;
    Normaliser.RunOfCleanPrefix(word, rest);
    Normaliser.NoWordsInBreaks(rest);
    var text := word + rest;
    assert text[0] == word[0] && text[..|word|] == word && text[|word|..] == rest;
  }

  lemma ExampleWordIsRewritten()
    ensures Normaliser.NormalWord("x402") == "xao2" && ToLower("xao2") == "xao2"
  {
    assert "x402"[1] in Normaliser.LEET;
    assert Normaliser.Deobfuscated("x402") == "xao2";
  }

  lemma ExampleNormalises()
    ensures Normaliser.Words("x402:  | ") == ["x402"]
    ensures Normaliser.Normal("x402:  | ") == "xao2"
    ensures ToLower("xao2") == "xao2"
  {
    assert "x402:  | " == "x402" + ":  | ";
    WordsOfOneWord("x402", ":  | ");
    hide Normaliser.Words, Normaliser.NormalWord, Normaliser.IsBreak, ToLower;
    ExampleWordIsRewritten();
    assert Normaliser.NormalWords(["x402"]) == ["xao2"];
  }

  predicate IsAbsent(token: string) {
    token != "" && (token[0] in "xao2" ==> 2 <= |token| && token[1] !in "xao2")
  }

  /** No token of a cluster stands in the example's text. */
  lemma ExampleHasNoToken(cluster: seq<string>)
    requires forall k :: 0 <= k < |cluster| ==> IsAbsent(cluster[k])
    ensures !Normaliser.ContainsToken("xao2", cluster)
  {
    forall k, i | 0 <= k < |cluster| && 0 <= i <= 4 ensures !Normaliser.TokenAt("xao2", cluster[k], i) {
      assert IsAbsent(cluster[k]);
    }
  }

  lemma ClustersAreAbsent()
    ensures forall k :: 0 <= k < |Normaliser.SUBVERSION| ==> IsAbsent(Normaliser.SUBVERSION[k])
    ensures forall k :: 0 <= k < |Normaliser.TARGETS| ==> IsAbsent(Normaliser.TARGETS[k])
    ensures forall k :: 0 <= k < |Normaliser.EXFILTRATION| ==> IsAbsent(Normaliser.EXFILTRATION[k])
  {
  }

  lemma ExampleIsHarmless()
    ensures Normaliser.Analyse("x402:  | ").detectedIntents == []
  {
    hide IsAbsent, Normaliser.ContainsToken, Normaliser.Normal, Normaliser.SUBVERSION, Normaliser.TARGETS,
         Normaliser.EXFILTRATION;
    ExampleNormalises();
    ClustersAreAbsent();
    ExampleHasNoToken(Normaliser.SUBVERSION);
    ExampleHasNoToken(Normaliser.TARGETS);
    ExampleHasNoToken(Normaliser.EXFILTRATION);
  }

  /** Such requests exist: here a payment of 6 within a daily limit of 10. */
  lemma ExampleFitsOnce()
    ensures FitsOnce(EXAMPLE_WORLD, EXAMPLE_REQUEST)
  {
    hide Normaliser.Analyse;
    assert FullJustification(EXAMPLE_REQUEST) == "x402:  | ";
    ExampleIsHarmless();
  }
}
