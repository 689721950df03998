/** What the legacy rail answers and writes, case by case, in terms of what is stored and of literal values. */
module LegacyHandlers {
  import opened Common
  import opened ActionStore
  import opened Normaliser
  import opened PolicyEngine
  import opened Guardian
  import opened Reservations
  import opened LegacyRail

  // ---------------------------------------------------------------- proposeAction

  /** The reply to a proposal, exactly: it throws for an amount that is no integer; blocks without budget, or off the
      lists; allows within the single-payment limit and below 50 points; and escalates otherwise. */
  lemma ProposalAnswers(env: Env, r: Rail, dto: ProposeAction, id: string, now: nat)
    requires NonNegative(r.budget.active) && r.budget.limit == r.mandate.dailyAutonomousLimit
    ensures var reply := Propose(env, r, dto, id, now).1;
            var t, m, amount := now / 1000, r.mandate, env.bigInt(dto.amount);
            var held := Sum(map k | k in r.budget.active && r.budget.active[k].expiresAt > t
                              :: r.budget.active[k].amount);
            var listed := && (exists i :: 0 <= i < |m.approvedRecipients|
                                          && ToLower(m.approvedRecipients[i]) == ToLower(dto.recipient))
                          && (exists i :: 0 <= i < |m.approvedTokens|
                                          && ToLower(m.approvedTokens[i]) == ToLower(dto.token));
            && (reply.Err? <==> amount.None?) && (reply.Err? ==> reply.error == SyntaxError)
            && (amount.Some? ==>
                  var used := if m.maxAutonomousAmount == 0 then 0
                              else if amount.value >= 0 then amount.value * 10000 / m.maxAutonomousAmount
                              else -(-amount.value * 10000 / m.maxAutonomousAmount);
                  var room := SpentOn(r.budget.book, DayId(t)) + held + amount.value <= m.dailyAutonomousLimit;
                  && (reply.value.decision == BLOCK <==> !room || !listed)
                  && (reply.value.decision == ALLOW <==>
                        && room && listed && amount.value <= m.maxAutonomousAmount && m.maxAutonomousAmount != 0
                        && Analyse(dto.justification).riskScore + used / 400 < 50)
                  && (reply.value.decision == BLOCK ==> reply.value == Verdict(BLOCK, 100, false, false)))
  {
    hide Analyse, ToLower, Create, Update, Annotate, Judge, Acquire, Commit, Release, Held;
    var t, amount := now / 1000, env.bigInt(dto.amount);
    GrantedIff(r.budget, id, amount, DEFAULT_TTL_SECONDS, t);
    AcquiringReadsOnly(r.budget, id, amount, DEFAULT_TTL_SECONDS, t);
    if amount.Some? {
      var spent := SpentOn(r.budget.book, DayId(t));
      VerdictIs(r.mandate, spent, dto.recipient, dto.token, amount.value, dto.justification);
      BlockedIs(r.mandate, spent, dto.recipient, dto.token, amount.value, dto.justification);
      HeldIsNotNegative(r.budget, t);
    }
  }

  lemma BlockedIs(m: Mandate, spent: int, recipient: string, token: string, amount: int, why: string)
    ensures var v := Judge(m, spent, recipient, token, amount, why);
            v.decision == BLOCK ==> v == Verdict(BLOCK, 100, false, false)
  {
    hide Analyse, ListsIgnoringCase;
  }

  lemma AcquiringReadsOnly(b: Budget, id: string, amount: Option<int>, ttl: nat, t: nat)
    ensures SpentOn(Acquire(b, id, amount, ttl, t).0.book, DayId(t)) == SpentOn(b.book, DayId(t))
  {
    ReadKeepsSpend(b.book, DayId(t));
  }

  lemma HeldIsNotNegative(b: Budget, t: nat)
    requires NonNegative(b.active)
    ensures 0 <= Sum(map k | k in b.active && b.active[k].expiresAt > t :: b.active[k].amount)
  {
    SumNonNegative(map k | k in b.active && b.active[k].expiresAt > t :: b.active[k].amount);
  }

  /** The action carries the request as made, under the nonce and from the moment given, unsigned and unsettled. */
  predicate Carries(a: TreasuryAction, dto: ProposeAction, id: string, nonce: nat, now: nat) {
    && a.id == id && a.nonce == nonce && a.createdAt == now && a.updatedAt == now && a.deadline == now / 1000 + 3600
    && a.target == dto.target && a.token == dto.token && a.recipient == dto.recipient
    && a.amount == dto.amount && a.agentAddress == dto.agentAddress && a.justification == dto.justification
    && a.value == (if dto.value == "" then "0" else dto.value)
    && a.data == (if dto.data == "" then "0x" else dto.data)
    && a.signature == None && a.txHash == None
  }

  /** What a proposal leaves stored: the request as made, the status of its reply, and in memory the score and
      approval flag of the reply if its reservation was granted, which `GrantedIff` decides. */
  lemma ProposalIsStored(env: Env, r: Rail, dto: ProposeAction, id: string, now: nat)
    requires Mirrored(r.store) && id !in r.store.table
    ensures var (after, reply) := Propose(env, r, dto, id, now);
            var isJudged := Acquire(r.budget, id, env.bigInt(dto.amount), DEFAULT_TTL_SECONDS, now / 1000).1.Granted?;
            && id in Known(after.store)
            && var a := Known(after.store)[id];
               && Carries(a, dto, id, r.store.currentNonce, now)
               && a.status == (if reply.Err? then PENDING
                               else match reply.value.decision
                                 case BLOCK => REJECTED case ESCALATE => PENDING case ALLOW => APPROVED)
               && a.riskScore == (if isJudged then reply.value.riskScore else 0)
               && a.requiresHumanApproval == (isJudged && reply.value.requiresHumanApproval)
  {
    var s := Create(r.store, dto, id, now);
    CreatedCarries(r.store, dto, id, now);
    hide Create, Update, Annotate, Judge, Acquire, Committed, Release, Known, Mirrored, SpentOn, Carries;
    var got := Acquire(r.budget, id, env.bigInt(dto.amount), DEFAULT_TTL_SECONDS, now / 1000).1;
    if got.Granted? {
      JudgedIsStored(env, r, dto, id, now);
    } else if got.Refused? {
      UpdatedCarries(s, dto, id, r.store.currentNonce, now, REJECTED);
    }
  }

  lemma JudgedIsStored(env: Env, r: Rail, dto: ProposeAction, id: string, now: nat)
    requires Mirrored(r.store) && id !in r.store.table
    requires Acquire(r.budget, id, env.bigInt(dto.amount), DEFAULT_TTL_SECONDS, now / 1000).1.Granted?
    ensures var (after, reply) := Propose(env, r, dto, id, now);
            && reply.Ok? && id in Known(after.store)
            && var a := Known(after.store)[id];
               && Carries(a, dto, id, r.store.currentNonce, now)
               && a.status == (match reply.value.decision
                               case BLOCK => REJECTED case ESCALATE => PENDING case ALLOW => APPROVED)
               && a.riskScore == reply.value.riskScore
               && a.requiresHumanApproval == reply.value.requiresHumanApproval
  {
    var s := Create(r.store, dto, id, now);
    CreatedCarries(r.store, dto, id, now);
    hide Create, Update, Annotate, Judge, Acquire, Committed, Release, Known, Mirrored, SpentOn, Carries;
    var (budget, got) := Acquire(r.budget, id, env.bigInt(dto.amount), DEFAULT_TTL_SECONDS, now / 1000);
    var v := Judge(r.mandate, SpentOn(budget.book, DayId(now / 1000)), dto.recipient, dto.token,
                   got.reservation.amount, dto.justification);
    var judged := Annotate(s, id, v.riskScore, v.requiresHumanApproval);
    AnnotatedCarries(s, dto, id, r.store.currentNonce, now, v);
    CommittingLeavesTheStore(r.(store := judged, budget := budget), id, now / 1000);
    UpdatedCarries(judged, dto, id, r.store.currentNonce, now,
                   match v.decision case BLOCK => REJECTED case ESCALATE => PENDING case ALLOW => APPROVED);
  }

  lemma CreatedCarries(s: Store, dto: ProposeAction, id: string, now: nat)
    requires Mirrored(s) && id !in s.table
    ensures var t := Create(s, dto, id, now);
            && Mirrored(t) && id in t.actions && id in Known(t) && id in t.table
            && var a := Known(t)[id];
               && Carries(a, dto, id, s.currentNonce, now)
               && a.status == PENDING && a.riskScore == 0 && !a.requiresHumanApproval
  {
    CreateKeepsMirrored(s, dto, id, now);
    CreateAddsOneAction(s, dto, id, now);
    hide Create, Mirrored;
  }

  lemma AnnotatedCarries(s: Store, dto: ProposeAction, id: string, nonce: nat, now: nat, v: Verdict)
    requires Mirrored(s) && id in s.actions && id in Known(s) && id in s.table
    requires Carries(Known(s)[id], dto, id, nonce, now)
    ensures var t := Annotate(s, id, v.riskScore, v.requiresHumanApproval);
            && Mirrored(t) && id in Known(t)
            && var a := Known(t)[id];
               && Carries(a, dto, id, nonce, now)
               && a.riskScore == v.riskScore && a.requiresHumanApproval == v.requiresHumanApproval
  {
    AnnotateKeepsMirrored(s, id, v.riskScore, v.requiresHumanApproval);
  }

  lemma UpdatedCarries(s: Store, dto: ProposeAction, id: string, nonce: nat, now: nat, status: Status)
    requires Mirrored(s) && id in Known(s) && Carries(Known(s)[id], dto, id, nonce, now)
    ensures var t := Update(s, id, status, NO_METADATA, now);
            && id in Known(t)
            && var a := Known(t)[id];
               && Carries(a, dto, id, nonce, now)
               && a.status == status && a.riskScore == Known(s)[id].riskScore
               && a.requiresHumanApproval == Known(s)[id].requiresHumanApproval
  {
    UpdateChangesOneAction(s, id, status, NO_METADATA, now);
    hide Mirrored, Update, Known;
  }

  /** An escalated proposal holds its amount for five minutes. */
  lemma EscalatedIsHeld(env: Env, r: Rail, dto: ProposeAction, id: string, now: nat)
    requires NonNegative(r.budget.active)
    ensures var (after, reply) := Propose(env, r, dto, id, now);
            reply.Ok? && reply.value.decision == ESCALATE ==>
              && id in after.budget.active
              && after.budget.active[id] == Reservation("res-" + id, id, env.bigInt(dto.amount).value, now / 1000 + 300)
  {
    hide Create, Update, Annotate, Judge, Acquire, Commit, Release;
    GrantedIff(r.budget, id, env.bigInt(dto.amount), DEFAULT_TTL_SECONDS, now / 1000);
  }

  // ---------------------------------------------------------------- rejectAction, approveAction

  /** A rejection is for a PENDING action, which then is REJECTED and holds nothing. */
  lemma RejectionAnswers(r: Rail, id: string, now: nat)
    requires Mirrored(r.store)
    ensures var (after, reply) := Reject(r, id, now);
            var known := Known(r.store);
            && (reply == Err(NotFound) <==> id !in known)
            && (reply == Err(BadRequest) <==> id in known && known[id].status != PENDING)
            && (reply == Ok(true) <==> id in known && known[id].status == PENDING)
            && (reply != Ok(true) ==> Known(after.store) == known && after == r.(store := after.store))
            && (reply == Ok(true) ==>
                  && ChangedOnly(known, Known(after.store), id) && Known(after.store)[id].status == REJECTED
                  && after.mandate == r.mandate && after.spent == r.spent && after.budget.book == r.budget.book
                  && id !in after.budget.active
                  && (forall k :: k != id ==>
                        (k in after.budget.active <==> k in r.budget.active)
                        && (k in after.budget.active ==> after.budget.active[k] == r.budget.active[k])))
  {
    FindIsKnown(r.store, id);
    CacheKeepsKnown(r.store, id);
    UpdateChangesOneAction(Cache(r.store, id), id, REJECTED, NO_METADATA, now);
    hide Mirrored, Known, Find, Cache, Update, SameRequest;
  }

  /** An approval that is through writes APPROVED with its signature, whatever the action is by then. */
  lemma ApprovalWrites(r: Rail, id: string, signature: string, now: nat)
    requires Mirrored(r.store)
    ensures var after := FinishApproval(r, id, signature, now);
            && ChangedOnly(Known(r.store), Known(after.store), id)
            && (id in Known(r.store) ==>
                  && Known(after.store)[id].status == APPROVED
                  && (signature != "" ==> Known(after.store)[id].signature == Some(signature)))
            && after.mandate == r.mandate
  {
    UpdateChangesOneAction(r.store, id, APPROVED, Metadata(Some(signature), None), now);
    hide Mirrored, Known, Update, Commit, ChangedOnly;
  }

  /** It turns what is still held for the action into spend of the day. */
  lemma ApprovalSpends(r: Rail, id: string, signature: string, now: nat)
    requires Consistent(r.budget.book)
    ensures var after := FinishApproval(r, id, signature, now);
            && id !in after.budget.active
            && after.spent == (if id in r.budget.active then r.spent + {id} else r.spent)
            && (forall k :: k != id ==>
                  (k in after.budget.active <==> k in r.budget.active)
                  && (k in after.budget.active ==> after.budget.active[k] == r.budget.active[k]))
            && (forall day :: SpentOn(after.budget.book, day)
                              == SpentOn(r.budget.book, day)
                               + if id in r.budget.active && day == now / 1000 / 86_400
                                 then r.budget.active[id].amount else 0)
  {
    if id in r.budget.active {
      RecordAddsExactly(r.budget.book, r.budget.active[id].amount, DayId(now / 1000));
    }
    hide Update, SpentOn, Record;
  }

  // ---------------------------------------------------------------- mandates

  /** A deployment sets the amounts it gives, which must be integers, and the lists it gives, in lower case. */
  lemma DeploymentSets(env: Env, dto: Deployment)
    ensures var update := UpdateOf(env, dto);
            var isBad := (amount: Option<string>) =>
                           amount.Some? && amount.value != "" && env.bigInt(amount.value).None?;
            && (update.Err? <==> isBad(dto.maxAutonomousAmount) || isBad(dto.dailyAutonomousLimit))
            && (update.Err? ==> update.error == SyntaxError)
            && (update.Ok? ==>
                  var u := update.value;
                  && u.maxAutonomousAmount
                     == (if dto.maxAutonomousAmount.Some? && dto.maxAutonomousAmount.value != ""
                         then env.bigInt(dto.maxAutonomousAmount.value) else None)
                  && u.dailyAutonomousLimit
                     == (if dto.dailyAutonomousLimit.Some? && dto.dailyAutonomousLimit.value != ""
                         then env.bigInt(dto.dailyAutonomousLimit.value) else None)
                  && (u.approvedRecipients.Some? <==> dto.approvedRecipients.Some?)
                  && (u.approvedTokens.Some? <==> dto.approvedTokens.Some?)
                  && (dto.approvedRecipients.Some? ==>
                        IsLowered(dto.approvedRecipients.value, u.approvedRecipients.value))
                  && (dto.approvedTokens.Some? ==> IsLowered(dto.approvedTokens.value, u.approvedTokens.value)))
  {
  }

  predicate IsLowered(given: seq<string>, list: seq<string>) {
    |list| == |given| && forall i :: 0 <= i < |given| ==> list[i] == ToLower(given[i])
  }
}
