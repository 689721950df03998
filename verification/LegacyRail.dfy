/** The legacy rail end to end: a proposal reserves budget, is judged, and is then blocked,
    committed, or left holding its reservation for a human. */
module LegacyRail {
  import opened Common
  import opened ActionStore
  import opened PolicyEngine
  import opened Reservations
  import opened Guardian

  datatype Error = BadRequest | NotFound | Forbidden | SyntaxError

  /** `spent` records the actions whose commit found its reservation. */
  datatype Rail = Rail(store: Store, budget: Budget, mandate: Mandate, spent: set<string>)

  const REFUSED := Verdict(BLOCK, 100, false, false)

  // ---------------------------------------------------------------- specification

  ghost function Committed(r: Rail, id: string, t: nat): Rail {
    var (budget, found) := Commit(r.budget, id, t);
    r.(budget := budget, spent := if found then r.spent + {id} else r.spent)
  }

  ghost function Resolved(r: Rail, id: string, status: Status, meta: Metadata, now: nat): Rail {
    r.(store := Update(r.store, id, status, meta, now))
  }

  ghost function Propose(env: Env, r: Rail, dto: ProposeAction, id: string, now: nat): (Rail, Result<Verdict, Error>) {
    var t := now / 1000;
    var (budget, got) := Acquire(r.budget, id, env.bigInt(dto.amount), DEFAULT_TTL_SECONDS, t);
    var created := r.(store := Create(r.store, dto, id, now), budget := budget);
    match got
    case Throws => (created, Err(SyntaxError))
    case Refused => (Resolved(created, id, REJECTED, NO_METADATA, now), Ok(REFUSED))
    case Granted(reservation) =>
      var v := Judge(r.mandate, SpentOn(budget.book, DayId(t)), dto.recipient, dto.token,
                     reservation.amount, dto.justification);
      var judged := created.(store := Annotate(created.store, id, v.riskScore, v.requiresHumanApproval));
      match v.decision
      case BLOCK =>
        (Resolved(judged.(budget := Release(judged.budget, id).0), id, REJECTED, NO_METADATA, now), Ok(v))
      case ESCALATE =>
        (Resolved(judged, id, PENDING, NO_METADATA, now), Ok(v))
      case ALLOW =>
        (Resolved(Committed(judged, id, t), id, APPROVED, NO_METADATA, now), Ok(v))
  }

  /** Everything `approveAction` does after its last await; the PENDING check lies before it. */
  ghost function FinishApproval(r: Rail, id: string, signature: string, now: nat): Rail {
    Resolved(Committed(r, id, now / 1000), id, APPROVED, Metadata(Some(signature), None), now)
  }

  ghost function Reject(r: Rail, id: string, now: nat): (Rail, Result<bool, Error>) {
    var found := Find(r.store, id);
    var cached := r.(store := Cache(r.store, id));
    if found.None? then (cached, Err(NotFound))
    else if found.value.status != PENDING then (cached, Err(BadRequest))
    else (Resolved(cached.(budget := Release(r.budget, id).0), id, REJECTED, NO_METADATA, now), Ok(true))
  }

  /** The mandate is replaced; the reservation service reads its limit from it. */
  ghost function WithMandate(r: Rail, m: Mandate): Rail {
    r.(mandate := m, budget := ChangeLimit(r.budget, m.dailyAutonomousLimit))
  }

  // ---------------------------------------------------------------- the controller

  class ActionsController {
    const actionStore: ActionStoreService
    const policyEngine: PolicyEngineService
    const balanceReservation: BalanceReservationService
    ghost var spent: set<string>

    ghost predicate Valid() {
      balanceReservation.policyEngine == policyEngine
    }

    ghost function View(): Rail
      requires Valid()
      reads this, actionStore, policyEngine, balanceReservation
    {
      Rail(actionStore.View(), balanceReservation.View(), policyEngine.mandate, spent)
    }

    constructor (store: ActionStoreService, engine: PolicyEngineService, reservations: BalanceReservationService)
      requires reservations.policyEngine == engine
      ensures Valid()
      ensures actionStore == store && policyEngine == engine && balanceReservation == reservations
      ensures View() == Rail(store.View(), reservations.View(), engine.mandate, {})
    {
      actionStore := store;
      policyEngine := engine;
      balanceReservation := reservations;
      spent := {};
    }

    method CommitHeld(id: string, t: nat)
      requires Valid()
      modifies this, balanceReservation, policyEngine`dailySpentMap, policyEngine`ledger
      ensures View() == Committed(old(View()), id, t)
    {
      var committed := balanceReservation.CommitReservation(id, t);
      if committed {
        spent := spent + {id};
      }
    }

    /** `selfie` is the outcome of the World ID proof, where the proposal carries one. */
    method ProposeAction(env: Env, dto: ProposeAction, selfie: Option<bool>, id: string, now: nat)
      returns (r: Result<Verdict, Error>)
      requires Valid()
      modifies this, actionStore, balanceReservation, policyEngine`dailySpentMap, policyEngine`ledger
      ensures (View(), r) == if selfie == Some(false) then (old(View()), Err(BadRequest))
                             else Propose(env, old(View()), dto, id, now)
    {
      hide Judge, Update, Annotate, Commit, Release, Prune;
      if selfie == Some(false) {
        return Err(BadRequest);
      }
      var t := now / 1000;
      var action := actionStore.CreateAction(dto, id, now);
      var amount := env.bigInt(action.amount);
      assert amount == env.bigInt(dto.amount);
      hide NewAction;
      var outcome := balanceReservation.AcquireReservation(id, amount, DEFAULT_TTL_SECONDS, t);
      if outcome.Throws? {
        return Err(SyntaxError);
      }
      if outcome.Refused? {
        var _ := actionStore.UpdateStatus(id, REJECTED, NO_METADATA, now);
        return Ok(REFUSED);
      }
      var v := EvaluateAction(policyEngine, action.recipient, action.token, amount.value, action.justification, t);
      actionStore.SetVerdict(id, v.riskScore, v.requiresHumanApproval);
      if v.decision == BLOCK {
        var _ := balanceReservation.ReleaseReservation(id);
        var _ := actionStore.UpdateStatus(id, REJECTED, NO_METADATA, now);
        return Ok(v);
      }
      if v.decision == ESCALATE {
        var _ := actionStore.UpdateStatus(id, PENDING, NO_METADATA, now);
        return Ok(v);
      }
      CommitHeld(id, t);
      var _ := actionStore.UpdateStatus(id, APPROVED, NO_METADATA, now);
      r := Ok(v);
    }

    /** The stretch of `approveAction` up to its first await: the action must be PENDING and the
        signature valid for the declared signer. */
    method BeginApproval(id: string, isSignatureValid: bool) returns (r: Result<bool, Error>)
      requires Valid()
      modifies actionStore`actions
      ensures View() == old(View()).(store := Cache(old(View()).store, id))
      ensures r == match Find(old(View()).store, id)
                   case None => Err(NotFound)
                   case Some(a) => if a.status != PENDING || !isSignatureValid then Err(BadRequest) else Ok(true)
    {
      var found := actionStore.GetAction(id);
      if found.None? {
        return Err(NotFound);
      }
      if found.value.status != PENDING {
        return Err(BadRequest);
      }
      if !isSignatureValid {
        return Err(BadRequest);
      }
      r := Ok(true);
    }

    /** The stretch after its last await: the declared signer must be the one the guard contract names. */
    method CompleteApproval(id: string, signature: string, isAuthorizedSigner: bool, now: nat)
      returns (r: Result<bool, Error>)
      requires Valid()
      modifies this, actionStore, balanceReservation, policyEngine`dailySpentMap, policyEngine`ledger
      ensures View() == if isAuthorizedSigner then FinishApproval(old(View()), id, signature, now) else old(View())
      ensures r == if isAuthorizedSigner then Ok(true) else Err(Forbidden)
    {
      if !isAuthorizedSigner {
        return Err(Forbidden);
      }
      CommitHeld(id, now / 1000);
      var _ := actionStore.UpdateStatus(id, APPROVED, Metadata(Some(signature), None), now);
      r := Ok(true);
    }

    method RejectAction(id: string, now: nat) returns (r: Result<bool, Error>)
      requires Valid()
      modifies actionStore, balanceReservation
      ensures (View(), r) == Reject(old(View()), id, now)
    {
      var found := actionStore.GetAction(id);
      if found.None? {
        return Err(NotFound);
      }
      if found.value.status != PENDING {
        return Err(BadRequest);
      }
      var _ := balanceReservation.ReleaseReservation(id);
      var _ := actionStore.UpdateStatus(id, REJECTED, NO_METADATA, now);
      r := Ok(true);
    }
  }

  /** What an owner may deploy his agent with: amounts as decimal strings, `None` or empty for none given. */
  datatype Deployment = Deployment(
    maxAutonomousAmount: Option<string>,
    dailyAutonomousLimit: Option<string>,
    approvedRecipients: Option<seq<string>>,
    approvedTokens: Option<seq<string>>)

  function ParseGiven(env: Env, amount: Option<string>): Result<Option<int>, Error> {
    if Truthy(amount, None).None? then Ok(None)
    else if env.bigInt(amount.value).None? then Err(SyntaxError)
    else Ok(env.bigInt(amount.value))
  }

  function LowerAll(given: Option<seq<string>>): Option<seq<string>> {
    if given.None? then None
    else Some(seq(|given.value|, i requires 0 <= i < |given.value| => ToLower(given.value[i])))
  }

  /** The update a deployment asks for. */
  function UpdateOf(env: Env, dto: Deployment): Result<MandateUpdate, Error> {
    var maxAmount, dailyLimit := ParseGiven(env, dto.maxAutonomousAmount), ParseGiven(env, dto.dailyAutonomousLimit);
    if maxAmount.Err? then Err(maxAmount.error)
    else if dailyLimit.Err? then Err(dailyLimit.error)
    else Ok(MandateUpdate(maxAmount.value, dailyLimit.value, LowerAll(dto.approvedRecipients),
                          LowerAll(dto.approvedTokens)))
  }

  /** The controller that rewrites the mandate under the running rail. */
  class MandatesController {
    const policyEngine: PolicyEngineService
    ghost const rail: ActionsController

    ghost predicate Valid() { rail.Valid() && rail.policyEngine == policyEngine }

    constructor (engine: PolicyEngineService, ghost running: ActionsController)
      requires running.Valid() && running.policyEngine == engine
      ensures Valid() && policyEngine == engine && rail == running
    {
      policyEngine := engine;
      rail := running;
    }

    method DeployAgent(env: Env, dto: Deployment, isOwner: bool) returns (reply: Result<bool, Error>)
      requires Valid()
      modifies policyEngine`mandate, rail.balanceReservation`peak
      ensures reply == if !isOwner then Err(Forbidden)
                       else match UpdateOf(env, dto) case Ok(_) => Ok(true) case Err(e) => Err(e)
      ensures rail.View()
              == if reply.Err? then old(rail.View())
                 else WithMandate(old(rail.View()), Updated(old(policyEngine.mandate), UpdateOf(env, dto).value))
    {
      if !isOwner {
        return Err(Forbidden);
      }
      var update := UpdateOf(env, dto);
      if update.Err? {
        return Err(update.error);
      }
      ghost var before := rail.balanceReservation.View();
      policyEngine.UpdateMandate(update.value);
      rail.balanceReservation.LimitChanged(before);
      reply := Ok(true);
    }

    method UpdateCaps(env: Env, maxAutonomousAmount: string, dailyAutonomousLimit: string, isOwner: bool)
      returns (reply: Result<bool, Error>)
      requires Valid()
      modifies policyEngine`mandate, rail.balanceReservation`peak
      ensures reply == if !isOwner then Err(Forbidden)
                       else if env.bigInt(maxAutonomousAmount).None? || env.bigInt(dailyAutonomousLimit).None?
                       then Err(SyntaxError) else Ok(true)
      ensures rail.View()
              == if reply.Err? then old(rail.View())
                 else WithMandate(old(rail.View()),
                                  old(policyEngine.mandate).(
                                    maxAutonomousAmount := env.bigInt(maxAutonomousAmount).value,
                                    dailyAutonomousLimit := env.bigInt(dailyAutonomousLimit).value))
    {
      if !isOwner {
        return Err(Forbidden);
      }
      var maxAmount, dailyLimit := env.bigInt(maxAutonomousAmount), env.bigInt(dailyAutonomousLimit);
      if maxAmount.None? || dailyLimit.None? {
        return Err(SyntaxError);
      }
      ghost var before := rail.balanceReservation.View();
      policyEngine.UpdateMandate(MandateUpdate(maxAmount, dailyLimit, None, None));
      rail.balanceReservation.LimitChanged(before);
      reply := Ok(true);
    }
  }

  // ---------------------------------------------------------------- what one proposal does

  /** From a granted reservation, releasing gives the pruned budget back and committing turns exactly
      the amount into spend of the day. */
  lemma GrantedThenLeft(b: Budget, id: string, amount: int, ttl: nat, t: nat)
    requires Consistent(b.book) && id !in b.active
    ensures var p := Prune(b, t);
            var (q, got) := Acquire(b, id, Some(amount), ttl, t);
            && (forall d :: SpentOn(q.book, d) == SpentOn(p.book, d))
            && (got.Refused? ==> q.active == p.active)
            && (got.Granted? ==>
                  && got.reservation.amount == amount
                  && id in q.active
                  && Held(q.active) == Held(p.active) + amount
                  && Release(q, id).0.active == p.active
                  && Release(q, id).0.book == q.book
                  && Commit(q, id, t).1
                  && Commit(q, id, t).0.active == p.active
                  && forall d :: SpentOn(Commit(q, id, t).0.book, d)
                                 == SpentOn(p.book, d) + if d == DayId(t) then amount else 0)
  {
    var p := Prune(b, t);
    ReadKeepsSpend(p.book, DayId(t));
    var reservation := Reservation("res-" + id, id, amount, t + ttl);
    HeldPut(p.active, id, reservation);
    assert p.active[id := reservation] - {id} == p.active;
    RecordAddsExactly(Read(p.book, DayId(t)), amount, DayId(t));
  }

  /** Compared with the budget just pruned: a blocked proposal leaves spend and holdings alone, an
      autonomous one adds its amount to today's spend, an escalated one adds it to the holdings; an
      amount that is no integer throws with nothing reserved. */
  lemma ProposeMovesExactlyTheAmount(env: Env, r: Rail, dto: ProposeAction, id: string, now: nat)
    requires Consistent(r.budget.book) && id !in r.budget.active
    ensures var p := Prune(r.budget, now / 1000);
            var (after, reply) := Propose(env, r, dto, id, now);
            var amount := env.bigInt(dto.amount);
            && (reply.Err? <==> amount.None?)
            && (reply.Err? ==> after.budget == p)
            && (reply.Ok? ==>
                  var d := reply.value.decision;
                  && (forall day :: SpentOn(after.budget.book, day) == SpentOn(p.book, day)
                        + if d == ALLOW && day == DayId(now / 1000) then amount.value else 0)
                  && Held(after.budget.active) == Held(p.active) + (if d == ESCALATE then amount.value else 0)
                  && (id in after.budget.active <==> d == ESCALATE)
                  && (id !in r.spent ==> (id in after.spent <==> d == ALLOW)))
  {
    hide Create, Update, Annotate, Judge, Acquire, Commit, Release, SpentOn;
    var t := now / 1000;
    var amount := env.bigInt(dto.amount);
    if amount.Some? {
      GrantedThenLeft(r.budget, id, amount.value, DEFAULT_TTL_SECONDS, t);
      AcquireNeverThrows(r.budget, id, amount.value, DEFAULT_TTL_SECONDS, t);
    } else {
      AcquireThrows(r.budget, id, DEFAULT_TTL_SECONDS, t);
    }
  }

  lemma AcquireThrows(b: Budget, id: string, ttl: nat, t: nat)
    ensures Acquire(b, id, None, ttl, t) == (Prune(b, t), Throws)
  {
  }

  lemma AcquireNeverThrows(b: Budget, id: string, amount: int, ttl: nat, t: nat)
    ensures !Acquire(b, id, Some(amount), ttl, t).1.Throws?
  {
  }

  /** The store a proposal leaves: the new action with its request and final status, nothing else touched. */
  ghost predicate Stored(s: Store, after: Store, dto: ProposeAction, id: string, status: Status) {
    && Mirrored(after)
    && Known(after).Keys == Known(s).Keys + {id}
    && (forall k :: k in Known(s) ==> Known(after)[k] == Known(s)[k])
    && id in after.actions
    && Known(after)[id].amount == dto.amount
    && Known(after)[id].status == status
  }

  lemma UpdateAfterCreate(s: Store, mid: Store, dto: ProposeAction, id: string, was: Status, status: Status, now: nat)
    requires id !in Known(s) && Stored(s, mid, dto, id, was)
    ensures Stored(s, Update(mid, id, status, NO_METADATA, now), dto, id, status)
  {
    UpdateKeepsMirrored(mid, id, status, NO_METADATA, now);
    UpdateChangesOneAction(mid, id, status, NO_METADATA, now);
    hide Update, Mirrored;
  }

  lemma AnnotateAfterCreate(s: Store, mid: Store, dto: ProposeAction, id: string, was: Status, v: Verdict)
    requires id !in Known(s) && Stored(s, mid, dto, id, was)
    ensures Stored(s, Annotate(mid, id, v.riskScore, v.requiresHumanApproval), dto, id, was)
  {
    AnnotateKeepsMirrored(mid, id, v.riskScore, v.requiresHumanApproval);
    AnnotateChangesOneAction(mid, id, v.riskScore, v.requiresHumanApproval);
    hide Annotate, Mirrored;
  }

  /** The stored status follows the reply, and the request is stored as made. */
  lemma ProposeStoresTheVerdict(env: Env, r: Rail, dto: ProposeAction, id: string, now: nat)
    requires Mirrored(r.store) && id !in Known(r.store)
    ensures var (after, reply) := Propose(env, r, dto, id, now);
            Stored(r.store, after.store, dto, id,
                   if reply.Err? then PENDING
                   else match reply.value.decision
                     case BLOCK => REJECTED
                     case ESCALATE => PENDING
                     case ALLOW => APPROVED)
  {
    var t := now / 1000;
    var s := Create(r.store, dto, id, now);
    assert Stored(r.store, s, dto, id, PENDING) by {
      CreateKeepsMirrored(r.store, dto, id, now);
      CreateAddsOneAction(r.store, dto, id, now);
    }
    hide Stored, Create, Update, Annotate, Judge, Acquire, Committed, Release;
    var (budget, got) := Acquire(r.budget, id, env.bigInt(dto.amount), DEFAULT_TTL_SECONDS, t);
    match got
    case Throws =>
    case Refused =>
      UpdateAfterCreate(r.store, s, dto, id, PENDING, REJECTED, now);
    case Granted(reservation) =>
      var v := Judge(r.mandate, SpentOn(budget.book, DayId(t)), dto.recipient, dto.token,
                     reservation.amount, dto.justification);
      var judged := Annotate(s, id, v.riskScore, v.requiresHumanApproval);
      AnnotateAfterCreate(r.store, s, dto, id, PENDING, v);
      CommittingLeavesTheStore(r.(store := judged, budget := budget), id, t);
      match v.decision
      case BLOCK => UpdateAfterCreate(r.store, judged, dto, id, PENDING, REJECTED, now);
      case ESCALATE => UpdateAfterCreate(r.store, judged, dto, id, PENDING, PENDING, now);
      case ALLOW => UpdateAfterCreate(r.store, judged, dto, id, PENDING, APPROVED, now);
  }

  lemma CommittingLeavesTheStore(r: Rail, id: string, t: nat)
    ensures Committed(r, id, t).store == r.store
  {
  }

  /** Once the reservation is granted the daily-limit rule cannot fire: a proposal escalated by a
      deterministic rule exceeds the single-payment limit. */
  lemma DailyLimitRuleIsUnreachable(env: Env, r: Rail, dto: ProposeAction, id: string, now: nat)
    requires Consistent(r.budget.book) && NonNegative(r.budget.active)
    requires r.budget.limit == r.mandate.dailyAutonomousLimit
    ensures var reply := Propose(env, r, dto, id, now).1;
            reply.Ok? && reply.value.decision == ESCALATE && !reply.value.deterministicPassed
            ==> env.bigInt(dto.amount).value > r.mandate.maxAutonomousAmount
  {
    var p := Prune(r.budget, now / 1000);
    HeldLive(r.budget.active, now / 1000);
    ReadKeepsSpend(p.book, DayId(now / 1000));
  }

  // ---------------------------------------------------------------- runs

  datatype Event =
    | Proposed(dto: ProposeAction, id: string, now: nat)
    | ApprovalFinished(id: string, signature: string, now: nat)
    | Rejected(id: string, now: nat)
    | MandateUpdated(update: MandateUpdate, now: nat)
      // a new process: reservations are lost, the store and the book were built over part of their tables,
      // and the mandate is whatever it then found
    | Restarted(early: set<string>, days: set<nat>, found: Mandate, now: nat)

  ghost function Apply(env: Env, r: Rail, e: Event): Rail {
    match e
    case Proposed(dto, id, now) => Propose(env, r, dto, id, now).0
    case ApprovalFinished(id, signature, now) => FinishApproval(r, id, signature, now)
    case Rejected(id, now) => Reject(r, id, now).0
    case MandateUpdated(update, now) => WithMandate(r, Updated(r.mandate, update))
    case Restarted(early, days, found, now) => WithMandate(AfterRestart(r, early, days), found)
  }

  ghost function AfterRestart(r: Rail, early: set<string>, days: set<nat>): Rail {
    r.(store := Restart(r.store.table, early), budget := Emptied(r.budget, days))
  }

  /** Ids are fresh and no proposal is for a negative amount. */
  ghost predicate Admissible(env: Env, r: Rail, e: Event) {
    e.Proposed? ==>
      && e.id !in r.store.table
      && (env.bigInt(e.dto.amount).Some? ==> 0 <= env.bigInt(e.dto.amount).value)
  }

  function AmountOf(env: Env, a: TreasuryAction): int {
    var n := env.bigInt(a.amount);
    if n.Some? then n.value else 0
  }

  ghost function SpentAmounts(env: Env, r: Rail): map<string, int> {
    map k | k in r.spent && k in Known(r.store) :: AmountOf(env, Known(r.store)[k])
  }

  /** Budget is held for PENDING actions only, in the amount they requested. */
  ghost predicate HeldForPending(env: Env, r: Rail) {
    forall k :: k in r.budget.active ==>
      && k in Known(r.store)
      && k !in r.spent
      && Known(r.store)[k].status == PENDING
      && env.bigInt(Known(r.store)[k].amount) == Some(r.budget.active[k].amount)
  }

  ghost predicate SpentWereApproved(r: Rail) {
    forall k :: k in r.spent ==> k in Known(r.store) && Known(r.store)[k].status == APPROVED
  }

  /** What every event keeps; `opening` is the ledger's total when the run began. */
  ghost predicate Sound(env: Env, r: Rail, today: nat, opening: int) {
    && Mirrored(r.store)
    && Solvent(r.budget, today)
    && r.budget.limit == r.mandate.dailyAutonomousLimit
    && HeldForPending(env, r)
    && SpentWereApproved(r)
    && Sum(r.budget.book.ledger) == opening + Sum(SpentAmounts(env, r))
  }

  lemma SpentAmountsGrow(env: Env, r: Rail, after: Rail, id: string, amount: int)
    requires ChangedOnly(Known(r.store), Known(after.store), id) && id in Known(r.store)
    requires env.bigInt(Known(r.store)[id].amount) == Some(amount)
    requires after.spent == r.spent + {id}
    ensures SpentAmounts(env, after) == SpentAmounts(env, r)[id := amount]
  {
    var m, n := SpentAmounts(env, after), SpentAmounts(env, r)[id := amount];
    assert m.Keys == n.Keys;
    forall k | k in m ensures m[k] == n[k] {
    }
  }

  /** A change to one action that commits nothing: it may drop reservations, and must keep the action's
      own only if the action stays PENDING. */
  lemma UncommittedChangeKeepsSound(env: Env, r: Rail, after: Rail, id: string, today: nat, opening: int)
    requires Sound(env, r, today, opening)
    requires Mirrored(after.store) && Solvent(after.budget, today)
    requires after.mandate == r.mandate && after.budget.limit == r.budget.limit
    requires ChangedOnly(Known(r.store), Known(after.store), id)
    requires after.spent == r.spent && Sum(after.budget.book.ledger) == Sum(r.budget.book.ledger)
    requires forall k :: k in after.budget.active ==>
               k in r.budget.active && after.budget.active[k] == r.budget.active[k]
    requires id in after.budget.active ==> Known(after.store)[id].status == PENDING
    requires id in r.spent ==> Known(after.store)[id].status == APPROVED
    ensures Sound(env, after, today, opening)
  {
    hide Mirrored, Solvent, Known, SpentAmounts, Sum, HeldForPending, SpentWereApproved, SameRequest;
    SpentAmountsSurvive(env, r, after, id);
    assert after.(spent := r.spent) == after;
    UncommittedStaysHeld(env, r, after, id);
  }

  lemma UncommittedStaysHeld(env: Env, r: Rail, after: Rail, id: string)
    requires HeldForPending(env, r) && SpentWereApproved(r)
    requires ChangedOnly(Known(r.store), Known(after.store), id) && after.spent == r.spent
    requires forall k :: k in after.budget.active ==>
               k in r.budget.active && after.budget.active[k] == r.budget.active[k]
    requires id in after.budget.active ==> Known(after.store)[id].status == PENDING
    requires id in r.spent ==> Known(after.store)[id].status == APPROVED
    ensures HeldForPending(env, after) && SpentWereApproved(after)
  {
    hide Known;
  }

  lemma SpentAmountsSurvive(env: Env, r: Rail, after: Rail, id: string)
    requires ChangedOnly(Known(r.store), Known(after.store), id)
    ensures SpentAmounts(env, after.(spent := r.spent)) == SpentAmounts(env, r)
  {
  }

  lemma CommitMovesAmount(b: Budget, id: string, t: nat)
    requires Solvent(b, DayId(t)) && id in b.active
    ensures Solvent(Commit(b, id, t).0, DayId(t))
    ensures Sum(Commit(b, id, t).0.book.ledger) == Sum(b.book.ledger) + b.active[id].amount
  {
    CommitKeepsSolvent(b, id, t);
    RecordAddsExactly(b.book, b.active[id].amount, DayId(t));
  }

  lemma CommittedHoldsTheRest(env: Env, r: Rail, after: Rail, id: string)
    requires HeldForPending(env, r) && SpentWereApproved(r) && id in r.budget.active
    requires after.budget.active == r.budget.active - {id} && after.spent == r.spent + {id}
    requires ChangedOnly(Known(r.store), Known(after.store), id)
    requires id in Known(after.store) && Known(after.store)[id].status == APPROVED
    ensures HeldForPending(env, after) && SpentWereApproved(after)
  {
    hide Known, SameRequest;
  }

  lemma CommitLeaves(b: Budget, id: string, t: nat)
    requires id in b.active
    ensures var after := Commit(b, id, t).0;
            after.active == b.active - {id} && after.limit == b.limit
  {
    hide Record;
  }

  /** Committing a held reservation and approving its action moves the amount into the ledger, once. */
  lemma CommittedChangeKeepsSound(env: Env, r: Rail, after: Rail, id: string, t: nat, opening: int)
    requires Sound(env, r, DayId(t), opening)
    requires id in r.budget.active
    requires Mirrored(after.store)
    requires after.mandate == r.mandate && after.budget == Commit(r.budget, id, t).0
    requires after.spent == r.spent + {id}
    requires ChangedOnly(Known(r.store), Known(after.store), id) && id in Known(after.store)
    requires Known(after.store)[id].status == APPROVED
    ensures Sound(env, after, DayId(t), opening)
  {
    hide Mirrored, Solvent, Commit, Known, ChangedOnly, SpentAmounts, SpentWereApproved;
    CommitMovesAmount(r.budget, id, t);
    CommitLeaves(r.budget, id, t);
    CommittedHoldsTheRest(env, r, after, id);
    var amount := r.budget.active[id].amount;
    SpentAmountsGrow(env, r, after, id, amount);
    SpentIsNotHeld(env, r, id);
    SumPut(SpentAmounts(env, r), id, amount);
  }

  lemma SpentIsNotHeld(env: Env, r: Rail, id: string)
    requires HeldForPending(env, r) && id in r.budget.active
    ensures id !in SpentAmounts(env, r)
  {
    hide Known;
  }

  /** Acquiring adds at most the one reservation, for the amount asked, and spends nothing. */
  lemma AcquireHolds(b: Budget, id: string, amount: Option<int>, ttl: nat, t: nat)
    ensures var after := Acquire(b, id, amount, ttl, t).0;
            && after.limit == b.limit && after.book.ledger == b.book.ledger
            && (forall k :: k in after.active && k != id ==> k in b.active && after.active[k] == b.active[k])
            && (id in after.active && id !in b.active ==> amount == Some(after.active[id].amount))
  {
    ReadKeepsSpend(Prune(b, t).book, DayId(t));
  }

  /** The first half of a proposal: the action is created and its reservation tried. */
  lemma OpeningKeepsSound(env: Env, r: Rail, begun: Rail, dto: ProposeAction, id: string, now: nat, opening: int)
    requires Sound(env, r, DayId(now / 1000), opening)
    requires Admissible(env, r, Proposed(dto, id, now))
    requires begun == r.(store := Create(r.store, dto, id, now),
                          budget := Acquire(r.budget, id, env.bigInt(dto.amount), DEFAULT_TTL_SECONDS, now / 1000).0)
    ensures Sound(env, begun, DayId(now / 1000), opening)
    ensures id in begun.store.actions && id in begun.store.table
    ensures id !in begun.spent && Known(begun.store)[id].status == PENDING
  {
    hide Solvent, Mirrored, Acquire, Create;
    var t := now / 1000;
    AcquireKeepsSolvent(r.budget, id, env.bigInt(dto.amount), DEFAULT_TTL_SECONDS, t);
    AcquireHolds(r.budget, id, env.bigInt(dto.amount), DEFAULT_TTL_SECONDS, t);
    CreateKeepsMirrored(r.store, dto, id, now);
    CreateAddsOneAction(r.store, dto, id, now);
    FindIsKnown(begun.store, id);
    assert SpentAmounts(env, begun) == SpentAmounts(env, r);
    assert HeldForPending(env, begun);
  }

  lemma ResolvingKeepsSound(env: Env, r: Rail, id: string, status: Status, meta: Metadata, now: nat, today: nat,
                            opening: int)
    requires Sound(env, r, today, opening)
    requires id in r.budget.active ==> status == PENDING
    requires id in r.spent ==> status == APPROVED
    ensures Sound(env, Resolved(r, id, status, meta, now), today, opening)
  {
    UpdateKeepsMirrored(r.store, id, status, meta, now);
    UpdateChangesOneAction(r.store, id, status, meta, now);
    hide Update, Mirrored, Solvent;
    UncommittedChangeKeepsSound(env, r, Resolved(r, id, status, meta, now), id, today, opening);
  }

  lemma ReleasingKeepsSound(env: Env, r: Rail, id: string, today: nat, opening: int)
    requires Sound(env, r, today, opening)
    ensures Sound(env, r.(budget := Release(r.budget, id).0), today, opening)
  {
    ReleaseKeepsSolvent(r.budget, id, today);
    hide Mirrored, Solvent;
    UncommittedChangeKeepsSound(env, r, r.(budget := Release(r.budget, id).0), id, today, opening);
  }

  /** Committing, then approving, whether or not a reservation is still there. */
  lemma ApprovalKeepsSound(env: Env, r: Rail, id: string, meta: Metadata, now: nat, opening: int)
    requires Sound(env, r, DayId(now / 1000), opening)
    ensures Sound(env, Resolved(Committed(r, id, now / 1000), id, APPROVED, meta, now), DayId(now / 1000), opening)
  {
    if id in r.budget.active {
      UpdateKeepsMirrored(r.store, id, APPROVED, meta, now);
      UpdateChangesOneAction(r.store, id, APPROVED, meta, now);
      hide Update, Mirrored, Solvent;
      var after := Resolved(Committed(r, id, now / 1000), id, APPROVED, meta, now);
      CommittedChangeKeepsSound(env, r, after, id, now / 1000, opening);
    } else {
      ResolvingKeepsSound(env, r, id, APPROVED, meta, now, DayId(now / 1000), opening);
    }
  }

  lemma AnnotatingKeepsSound(env: Env, r: Rail, id: string, v: Verdict, today: nat, opening: int)
    requires Sound(env, r, today, opening) && id in r.store.actions && id in r.store.table
    ensures Sound(env, r.(store := Annotate(r.store, id, v.riskScore, v.requiresHumanApproval)), today, opening)
  {
    AnnotateKeepsMirrored(r.store, id, v.riskScore, v.requiresHumanApproval);
    AnnotateChangesOneAction(r.store, id, v.riskScore, v.requiresHumanApproval);
    hide Annotate, Mirrored, Solvent;
    UncommittedChangeKeepsSound(env, r, r.(store := Annotate(r.store, id, v.riskScore, v.requiresHumanApproval)),
                                id, today, opening);
  }

  lemma ProposeKeepsSound(env: Env, r: Rail, dto: ProposeAction, id: string, now: nat, opening: int)
    requires Sound(env, r, DayId(now / 1000), opening)
    requires Admissible(env, r, Proposed(dto, id, now))
    ensures Sound(env, Propose(env, r, dto, id, now).0, DayId(now / 1000), opening)
  {
    hide Sound, Create, Update, Annotate, Commit, Release, Judge, Rule;
    var t := now / 1000;
    var today := DayId(t);
    var (budget, got) := Acquire(r.budget, id, env.bigInt(dto.amount), DEFAULT_TTL_SECONDS, t);
    var begun := r.(store := Create(r.store, dto, id, now), budget := budget);
    OpeningKeepsSound(env, r, begun, dto, id, now, opening);
    match got
    case Throws =>
    case Refused =>
      assert id !in budget.active by {
        NotHeldWhenUnknown(env, r, id, today, opening);
      }
      ResolvingKeepsSound(env, begun, id, REJECTED, NO_METADATA, now, today, opening);
    case Granted(reservation) =>
      var v := Judge(r.mandate, SpentOn(budget.book, today), dto.recipient, dto.token,
                     reservation.amount, dto.justification);
      AnnotatingKeepsSound(env, begun, id, v, today, opening);
      var judged := begun.(store := Annotate(begun.store, id, v.riskScore, v.requiresHumanApproval));
      match v.decision
      case BLOCK =>
        ReleasingKeepsSound(env, judged, id, today, opening);
        ReleasedIsNotHeld(judged.budget, id);
        ResolvingKeepsSound(env, judged.(budget := Release(judged.budget, id).0), id, REJECTED, NO_METADATA, now, today,
                            opening);
      case ESCALATE =>
        ResolvingKeepsSound(env, judged, id, PENDING, NO_METADATA, now, today, opening);
      case ALLOW =>
        ApprovalKeepsSound(env, judged, id, NO_METADATA, now, opening);
  }

  lemma NotHeldWhenUnknown(env: Env, r: Rail, id: string, today: nat, opening: int)
    requires Sound(env, r, today, opening) && id !in Known(r.store)
    ensures id !in r.budget.active
  {
  }

  lemma ReleasedIsNotHeld(b: Budget, id: string)
    ensures id !in Release(b, id).0.active
  {
  }

  lemma CachingKeepsSound(env: Env, r: Rail, id: string, today: nat, opening: int)
    requires Sound(env, r, today, opening)
    ensures Sound(env, r.(store := Cache(r.store, id)), today, opening)
    ensures Known(Cache(r.store, id)) == Known(r.store)
    ensures Find(r.store, id) == if id in Known(r.store) then Some(Known(r.store)[id]) else None
  {
    FindIsKnown(r.store, id);
    CacheKeepsKnown(r.store, id);
    hide Mirrored, Solvent, Known, Cache;
  }

  lemma RejectKeepsSound(env: Env, r: Rail, id: string, now: nat, opening: int)
    requires Sound(env, r, DayId(now / 1000), opening)
    ensures Sound(env, Reject(r, id, now).0, DayId(now / 1000), opening)
  {
    hide Sound, Update, Release, Cache, Find;
    var today := DayId(now / 1000);
    CachingKeepsSound(env, r, id, today, opening);
    if Reject(r, id, now).1.Ok? {
      var cached := r.(store := Cache(r.store, id));
      ReleasingKeepsSound(env, cached, id, today, opening);
      ReleasedIsNotHeld(cached.budget, id);
      PendingIsNotSpent(env, cached, id, today, opening);
      ResolvingKeepsSound(env, cached.(budget := Release(r.budget, id).0), id, REJECTED, NO_METADATA, now, today,
                          opening);
    }
  }

  lemma PendingIsNotSpent(env: Env, r: Rail, id: string, today: nat, opening: int)
    requires Sound(env, r, today, opening)
    requires id in Known(r.store) ==> Known(r.store)[id].status == PENDING
    ensures id !in r.spent
  {
  }

  lemma MandateKeepsSound(env: Env, r: Rail, m: Mandate, today: nat, opening: int)
    requires Sound(env, r, today, opening)
    ensures Sound(env, WithMandate(r, m), today, opening)
  {
    hide Mirrored, Solvent, Known;
    ChangeLimitKeepsSolvent(r.budget, m.dailyAutonomousLimit, today);
  }

  function Emptied(b: Budget, days: set<nat>): Budget {
    b.(active := map[], book := Book(map d | d in b.book.ledger && d in days :: b.book.ledger[d], b.book.ledger))
  }

  lemma RestartedBudgetIsSolvent(b: Budget, days: set<nat>, today: nat)
    requires Solvent(b, today)
    ensures Solvent(Emptied(b, days), today)
  {
    var t := Emptied(b, days);
    assert Amounts(t.active) == map[];
    assert Held(t.active) == 0;
    assert forall d :: SpentOn(t.book, d) == SpentOn(b.book, d);
  }

  lemma SameAmounts(env: Env, r: Rail, after: Rail)
    requires after.spent == r.spent && Known(after.store).Keys == Known(r.store).Keys
    requires forall k :: k in Known(r.store) ==> Known(after.store)[k].amount == Known(r.store)[k].amount
    ensures SpentAmounts(env, after) == SpentAmounts(env, r)
  {
    hide Known;
  }

  lemma RestartKeepsSound(env: Env, r: Rail, early: set<string>, days: set<nat>, today: nat, opening: int)
    requires Sound(env, r, today, opening)
    ensures Sound(env, AfterRestart(r, early, days), today, opening)
  {
    hide Mirrored, Solvent, Known, Restart, SpentAmounts;
    RestartKeepsKnown(r.store, early);
    RestartedBudgetIsSolvent(r.budget, days, today);
    SameAmounts(env, r, AfterRestart(r, early, days));
  }

  /** Nothing stored, nothing spent, nothing held. */
  function FreshRail(m: Mandate): Rail {
    var limit := m.dailyAutonomousLimit;
    Rail(EMPTY, Budget(limit, limit, Book(map[], map[]), map[], NOTHING), m, {})
  }

  /** A run can begin. */
  lemma FreshRailIsSound(env: Env, m: Mandate, today: nat)
    requires 0 <= m.dailyAutonomousLimit
    ensures Sound(env, FreshRail(m), today, 0)
  {
    hide Solvent, Mirrored, Known;
    EmptyIsCoherent();
    FreshBudgetIsSolvent(m.dailyAutonomousLimit, today);
    var r := FreshRail(m);
    assert SpentAmounts(env, r) == map[];
    assert Sum(SpentAmounts(env, r)) == 0;
    assert Sum(r.budget.book.ledger) == 0;
  }

  ghost function Run(env: Env, r: Rail, events: seq<Event>): Rail {
    if events == [] then r else Apply(env, Run(env, r, events[..|events| - 1]), events[|events| - 1])
  }

  ghost predicate RunIsAdmissible(env: Env, r: Rail, start: nat, events: seq<Event>) {
    events != [] ==>
      var init, last := events[..|events| - 1], events[|events| - 1];
      && RunIsAdmissible(env, r, start, init)
      && LastTime(start, init) <= last.now
      && Admissible(env, Run(env, r, init), last)
  }

  function LastTime(start: nat, events: seq<Event>): nat {
    if events == [] then start else events[|events| - 1].now
  }

  lemma SoundOnALaterDay(env: Env, r: Rail, today: nat, later: nat, opening: int)
    requires Sound(env, r, today, opening) && today <= later
    ensures Sound(env, r, later, opening)
  {
    SolventOnALaterDay(r.budget, today, later);
  }

  /** Over every run of proposals, rejections and approvals, however the approvals' awaits interleave:
      no day is overspent, budget is held for PENDING actions only, and the ledger has grown by the
      amounts of approved actions alone, each counted at most once. */
  lemma {:induction false} EveryRunIsSound(env: Env, r: Rail, start: nat, events: seq<Event>, opening: int)
    requires Sound(env, r, DayId(start / 1000), opening)
    requires RunIsAdmissible(env, r, start, events)
    ensures Sound(env, Run(env, r, events), DayId(LastTime(start, events) / 1000), opening)
  {
    if events == [] {
    } else {
      var init, last := events[..|events| - 1], events[|events| - 1];
      EveryRunIsSound(env, r, start, init, opening);
      var mid := Run(env, r, init);
      var was, today := DayId(LastTime(start, init) / 1000), DayId(last.now / 1000);
      DayIsMonotone(LastTime(start, init) / 1000, last.now / 1000);
      SoundOnALaterDay(env, mid, was, today, opening);
      hide Sound, Propose, Reject, Committed, Resolved, Run, WithMandate, AfterRestart;
      match last
      case Proposed(dto, id, now) => ProposeKeepsSound(env, mid, dto, id, now, opening);
      case ApprovalFinished(id, signature, now) =>
        ApprovalKeepsSound(env, mid, id, Metadata(Some(signature), None), now, opening);
      case Rejected(id, now) => RejectKeepsSound(env, mid, id, now, opening);
      case MandateUpdated(update, now) => MandateKeepsSound(env, mid, Updated(mid.mandate, update), today, opening);
      case Restarted(early, days, found, now) =>
        RestartKeepsSound(env, mid, early, days, today, opening);
        MandateKeepsSound(env, AfterRestart(mid, early, days), found, today, opening);
    }
  }
}
