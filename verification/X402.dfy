/** The x402 rail as functions on its state: the spending policy and the handlers, stretch by stretch. */
module X402 {
  import opened Common
  import opened ActionStore
  import opened Normaliser

  // ---------------------------------------------------------------- data

  /** The EIP-3009 typed data an agent submits; `None` is a missing or non-numeric field. */
  datatype TypedData = TypedData(
    primaryType: string,
    verifyingContract: Option<string>,
    chainId: Option<int>,
    from: Option<string>,
    to: Option<string>,
    value: string,
    validBefore: Option<real>)

  datatype Config = Config(
    network: string,
    usdcAddress: string,
    approvedPayTo: seq<string>,
    autonomousLimit: int,
    dailyLimit: int,
    ledgerApproverAddress: string)

  /** Configuration, parsers and the two signature recoveries; `None` is a malformed signature. */
  datatype World = World(
    env: Env,
    config: Config,
    recoverTyped: (TypedData, string) -> Option<string>,
    recoverText: (string, string) -> Option<string>)

  datatype PaymentRequest = PaymentRequest(
    resourceUrl: string,
    network: string,
    asset: string,
    payTo: string,
    amount: string,
    justification: string)

  datatype Reason =
    | NetworkNotApproved
    | MalformedAddress
    | AssetNotApproved
    | PayeeNotApproved
    | ExceedsAutonomousLimit
    | ExceedsDailyLimit
    | AdversarialJustification(intents: seq<Intent>)
    | Complies

  datatype PolicyDecision = PolicyDecision(decision: Decision, riskScore: int, reasons: seq<Reason>)

  datatype EscalationStatus = AwaitingSignature | Signed | Refused

  datatype Escalation = Escalation(
    typedData: TypedData,
    reasons: seq<Reason>,
    signature: Option<string>,
    status: EscalationStatus,
    createdAt: nat,
    updatedAt: nat)

  /** A transaction log; `transfer` holds the decoded ERC-20 Transfer, if it decodes as one. */
  datatype Log = Log(address: string, transfer: Option<Transfer>)
  datatype Transfer = Transfer(to: string, value: nat)
  datatype Receipt = Receipt(status: int, logs: seq<Log>)

  /** A settlement suspended at its RPC call. */
  datatype Settlement = Settlement(actionId: string, txHash: string, token: string, recipient: string,
                                   minimumAmount: int)

  /** An approval or a rejection under way. */
  datatype HumanDecision = HumanDecision(actionId: string, signature: string, isApproval: bool)

  /** `Malformed` is the address parser's exception. */
  datatype Error = BadRequest | NotFound | Forbidden | Unauthorized | SyntaxError | Malformed

  /** What the status endpoint reports. */
  datatype PaymentStatus = PaymentStatus(
    decision: Decision,
    actionStatus: Status,
    escalationStatus: Option<EscalationStatus>,
    signature: Option<string>)

  /** What `authorize` replied, kept for good. */
  datatype Ruling = Ruling(decision: Decision, agent: string, createdAt: nat, amount: int)

  /** `submitting`, `deciding`, `marked` and `settling` hold the suspended handlers: `deciding` the human
      decisions that have read their row, `marked` those that have updated it and not yet the action. `issued`,
      `rulings` and `receipts` are history: the ids `authorize` created, its replies, and the receipts that
      settlements were accepted on. */
  datatype State = State(
    store: Store,
    reasons: map<string, seq<Reason>>,
    escalations: map<string, Escalation>,
    submitting: map<nat, string>,
    deciding: map<nat, HumanDecision>,
    marked: map<nat, HumanDecision>,
    settling: map<nat, Settlement>,
    issued: set<string>,
    rulings: map<string, Ruling>,
    receipts: map<string, Receipt>)

  const START := State(EMPTY, map[], map[], map[], map[], map[], map[], {}, map[], map[])

  const PREFIX: string := "x402: "
  const REJECT_PREFIX: string := "chapter2-reject:"
  const CHAIN_ID: int := 84532

  // ---------------------------------------------------------------- the spending policy

  predicate SameAddress(env: Env, a: Option<string>, b: string) {
    a.Some? && env.getAddress(a.value).Some? && env.getAddress(a.value) == env.getAddress(b)
  }

  predicate HasPrefix(s: string) { PREFIX <= s }

  function StartOfDay(now: nat): nat { DayOf(now) * DAY_MS }

  predicate IsCounted(a: TreasuryAction, agent: string, since: nat) {
    && ToLower(a.agentAddress) == ToLower(agent)
    && HasPrefix(a.justification)
    && (a.status == APPROVED || a.status == EXECUTED)
    && a.createdAt >= since
  }

  function Units(env: Env, amount: string): int {
    var n := env.bigInt(amount);
    if n.Some? then n.value else 0
  }

  function Counted(env: Env, actions: map<string, TreasuryAction>, agent: string, since: nat): map<string, int> {
    map k | k in actions && IsCounted(actions[k], agent, since) :: Units(env, actions[k].amount)
  }

  predicate CountedParse(env: Env, actions: map<string, TreasuryAction>, agent: string, since: nat) {
    forall k :: k in actions && IsCounted(actions[k], agent, since) ==> env.bigInt(actions[k].amount).Some?
  }

  /** Today's approved and executed x402 total, or the exception a malformed amount in it throws. */
  ghost function TodaysApprovedTotal(env: Env, actions: map<string, TreasuryAction>, agent: string,
                                     now: nat)
    : Option<int>
  {
    if CountedParse(env, actions, agent, StartOfDay(now))
    then Some(Sum(Counted(env, actions, agent, StartOfDay(now))))
    else None
  }

  function Blocked(reason: Reason): PolicyDecision { PolicyDecision(BLOCK, 100, [reason]) }

  /** The semantic layer may raise the score and turn ALLOW into ESCALATE, nothing else. */
  function Sharpen(p: PolicyDecision, a: Analysis): PolicyDecision {
    var q := if a.detectedIntents == [] then p
             else PolicyDecision(if p.decision == ALLOW then ESCALATE else p.decision,
                                 Max(p.riskScore, a.riskScore),
                                 p.reasons + [AdversarialJustification(a.detectedIntents)]);
    if q.decision == ALLOW then q.(reasons := q.reasons + [Complies]) else q
  }

  ghost function Evaluate(w: World, actions: map<string, TreasuryAction>, agent: string, request: PaymentRequest,
                          justification: string, now: nat)
    : Result<PolicyDecision, Error>
  {
    var asset, payTo := w.env.getAddress(request.asset), w.env.getAddress(request.payTo);
    if request.network != w.config.network then Ok(Blocked(NetworkNotApproved))
    else if asset.None? || payTo.None? then Ok(Blocked(MalformedAddress))
    else if asset != w.env.getAddress(w.config.usdcAddress) then Ok(Blocked(AssetNotApproved))
    else if payTo.value !in w.config.approvedPayTo then Ok(Blocked(PayeeNotApproved))
    else
      var amount := w.env.bigInt(request.amount);
      if amount.None? then Err(SyntaxError)
      else if amount.value > w.config.autonomousLimit then
        Ok(Sharpen(PolicyDecision(ESCALATE, 60, [ExceedsAutonomousLimit]), Analyse(justification)))
      else
        var total := TodaysApprovedTotal(w.env, actions, agent, now);
        if total.None? then Err(SyntaxError)
        else if total.value + amount.value > w.config.dailyLimit then
          Ok(Sharpen(PolicyDecision(ESCALATE, 60, [ExceedsDailyLimit]), Analyse(justification)))
        else
          Ok(Sharpen(PolicyDecision(ALLOW, 10, []), Analyse(justification)))
  }

  // ---------------------------------------------------------------- handlers

  function FullJustification(request: PaymentRequest): string {
    PREFIX + request.resourceUrl + " | " + request.justification
  }

  function Proposal(agent: string, request: PaymentRequest): ProposeAction {
    ProposeAction(request.asset, "0", "0x", request.asset, request.payTo, request.amount, agent,
                  FullJustification(request))
  }

  function StatusOf(d: Decision): Status {
    match d case BLOCK => REJECTED case ESCALATE => PENDING case ALLOW => APPROVED
  }

  /** `createdAt` and `evaluatedAt` are the handler's two readings of the clock. */
  ghost function Authorize(w: World, s: State, agent: string, request: PaymentRequest, id: string,
                           createdAt: nat, evaluatedAt: nat)
    : (State, Result<PolicyDecision, Error>)
  {
    var created := s.(store := Create(s.store, Proposal(agent, request), id, createdAt), issued := s.issued + {id});
    var p := Evaluate(w, created.store.actions, agent, request, FullJustification(request), evaluatedAt);
    if p.Err? then (created, p)
    else
      var d := p.value.decision;
      var judged := Annotate(created.store, id, p.value.riskScore, d != ALLOW);
      (created.(store := Update(judged, id, StatusOf(d), NO_METADATA, evaluatedAt),
                reasons := if d == ESCALATE then s.reasons[id := p.value.reasons] else s.reasons,
                rulings := s.rulings[id := Ruling(d, ToLower(agent), createdAt, Units(w.env, request.amount))]),
       p)
  }

  /** The caller's own action, or the exception for a missing or foreign one. */
  function OwnedAction(s: State, agent: string, id: string): Result<TreasuryAction, Error> {
    var found := Find(s.store, id);
    if found.None? then Err(NotFound)
    else if ToLower(found.value.agentAddress) != ToLower(agent) then Err(Forbidden)
    else Ok(found.value)
  }

  /** The part of the typed-data check that does not depend on the clock. */
  predicate NamesTransfer(w: World, t: TypedData, a: TreasuryAction) {
    && t.primaryType == "TransferWithAuthorization"
    && SameAddress(w.env, t.verifyingContract, w.config.usdcAddress)
    && t.chainId == Some(CHAIN_ID)
    && SameAddress(w.env, t.from, w.config.ledgerApproverAddress)
    && SameAddress(w.env, t.to, a.recipient)
    && t.value == a.amount
  }

  predicate IsValidTypedData(w: World, t: TypedData, a: TreasuryAction, now: nat) {
    NamesTransfer(w, t, a) && t.validBefore.Some? && t.validBefore.value > (now / 1000) as real
  }

  /** `submitEscalation` up to the await of its insert; `task` names the suspended handler. */
  function SubmitEscalation(w: World, s: State, agent: string, id: string, typedData: TypedData, task: nat, now: nat)
    : (State, Result<EscalationStatus, Error>)
  {
    var owned := OwnedAction(s, agent, id);
    var cached := s.(store := Cache(s.store, id));
    if owned.Err? then (cached, Err(owned.error))
    else if owned.value.status != PENDING then (cached, Err(BadRequest))
    else if !IsValidTypedData(w, typedData, owned.value, now) then (cached, Err(BadRequest))
    else if id !in s.reasons then (cached, Err(BadRequest))
    else
      var row := Escalation(typedData, s.reasons[id], None, AwaitingSignature, now, now);
      (cached.(escalations := s.escalations[id := row], submitting := s.submitting[task := id]), Ok(AwaitingSignature))
  }

  /** `submitEscalation` from there on: the reasons are used up. */
  function FinishSubmit(s: State, task: nat): State {
    if task !in s.submitting then s
    else s.(reasons := s.reasons - {s.submitting[task]}, submitting := s.submitting - {task})
  }

  predicate IsAwaiting(s: State, id: string) {
    id in s.escalations && s.escalations[id].status == AwaitingSignature
  }

  function Marked(row: Escalation, status: EscalationStatus, signature: string, now: nat): Escalation {
    row.(status := status, signature := Truthy(Some(signature), None), updatedAt := now)
  }

  /** `approveWithSignature` from the row it reads up to the World ID gate. The request pipe refuses an empty
      signature. */
  function BeginApprove(w: World, s: State, id: string, signature: string, task: nat, now: nat)
    : (State, Result<bool, Error>)
  {
    if signature == "" then (s, Err(BadRequest))
    else if !IsAwaiting(s, id) then (s, Err(NotFound))
    else
      var row := s.escalations[id];
      if row.typedData.validBefore.Some? && row.typedData.validBefore.value <= (now / 1000) as real
      then (s, Err(BadRequest))
      else
        var recovered := w.recoverTyped(row.typedData, signature);
        if !SameAddress(w.env, recovered, w.config.ledgerApproverAddress) then (s, Err(Unauthorized))
        else (s.(deciding := s.deciding[task := HumanDecision(id, signature, true)]), Ok(true))
  }

  /** `rejectWithSignature` from the row it reads up to its update. */
  function BeginReject(w: World, s: State, id: string, signature: string, task: nat): (State, Result<bool, Error>) {
    if signature == "" then (s, Err(BadRequest))
    else if !IsAwaiting(s, id) then (s, Err(NotFound))
    else if !SameAddress(w.env, w.recoverText(REJECT_PREFIX + id, signature), w.config.ledgerApproverAddress) then
      (s, Err(Unauthorized))
    else (s.(deciding := s.deciding[task := HumanDecision(id, signature, false)]), Ok(true))
  }

  function MarkOf(job: HumanDecision): EscalationStatus { if job.isApproval then Signed else Refused }

  /** The row's update, for an approval once the gate has passed it. Neither looks at the row again. */
  function MarkRow(s: State, task: nat, isPassed: bool, now: nat): (State, Result<EscalationStatus, Error>) {
    if task !in s.deciding then (s, Err(NotFound))
    else
      var job := s.deciding[task];
      var resumed := s.(deciding := s.deciding - {task});
      if job.isApproval && !isPassed then (resumed, Err(Forbidden))
      else
        (resumed.(escalations := if job.actionId in s.escalations
                                 then s.escalations[job.actionId := Marked(s.escalations[job.actionId], MarkOf(job),
                                                                           job.signature, now)]
                                 else s.escalations,
                  marked := s.marked[task := job]),
         Ok(MarkOf(job)))
  }

  function Decide(store: Store, job: HumanDecision, now: nat): Store {
    if job.isApproval then Update(store, job.actionId, APPROVED, Metadata(Some(job.signature), None), now)
    else Update(store, job.actionId, REJECTED, NO_METADATA, now)
  }

  /** The action's update, after the await of the row's. */
  function FinishDecision(s: State, task: nat, now: nat): State {
    if task !in s.marked then s
    else s.(marked := s.marked - {task}, store := Decide(s.store, s.marked[task], now))
  }

  /** `settle` up to its RPC call; `task` names the suspended handler. */
  function BeginSettle(w: World, s: State, agent: string, id: string, txHash: string, task: nat)
    : (State, Result<bool, Error>)
  {
    var owned := OwnedAction(s, agent, id);
    var cached := s.(store := Cache(s.store, id));
    if txHash == "" then (s, Err(BadRequest))
    else if owned.Err? then (cached, Err(owned.error))
    else if owned.value.status != APPROVED then (cached, Err(BadRequest))
    else
      var amount := w.env.bigInt(owned.value.amount);
      if amount.None? then (cached, Err(SyntaxError))
      else
        (cached.(settling := s.settling[task := Settlement(id, txHash, owned.value.token, owned.value.recipient,
                                                           amount.value)]),
         Ok(true))
  }

  predicate IsMatching(env: Env, log: Log, token: Option<string>, recipient: Option<string>) {
    && env.getAddress(log.address) == token
    && log.transfer.Some?
    && env.getAddress(log.transfer.value.to) == recipient
  }

  /** The tokens a receipt's matching Transfer logs moved. */
  function Transferred(env: Env, logs: seq<Log>, token: Option<string>, recipient: Option<string>): nat {
    if logs == [] then 0
    else
      var last := logs[|logs| - 1];
      Transferred(env, logs[..|logs| - 1], token, recipient)
      + if IsMatching(env, last, token, recipient) then last.transfer.value.value else 0
  }

  /** A receipt that proves at least `minimum` of the token moved to the recipient. */
  predicate Covers(env: Env, receipt: Receipt, token: string, recipient: string, minimum: int) {
    && receipt.status == 1
    && env.getAddress(token).Some? && env.getAddress(recipient).Some?
    && Transferred(env, receipt.logs, env.getAddress(token), env.getAddress(recipient)) >= minimum
  }

  /** The check of a settlement: verified, refused, or the exception of a malformed expectation. */
  function VerifyTransfer(env: Env, lookup: Option<Receipt>, token: string, recipient: string,
                          minimum: int)
    : (r: Result<bool, Error>)
    ensures r == Ok(true) <==> lookup.Some? && Covers(env, lookup.value, token, recipient, minimum)
  {
    if lookup.None? || lookup.value.status != 1 then Ok(false)
    else if env.getAddress(token).None? || env.getAddress(recipient).None? then Err(Malformed)
    else Ok(Covers(env, lookup.value, token, recipient, minimum))
  }

  /** `settle` from the RPC answer on. */
  function FinishSettle(w: World, s: State, task: nat, lookup: Option<Receipt>, now: nat): (State, Result<bool, Error>)
  {
    if task !in s.settling then (s, Err(NotFound))
    else
      var job := s.settling[task];
      var resumed := s.(settling := s.settling - {task});
      var verified := VerifyTransfer(w.env, lookup, job.token, job.recipient, job.minimumAmount);
      if verified.Err? then (resumed, Err(verified.error))
      else if !verified.value || lookup.None? then (resumed, Err(BadRequest))
      else
        (resumed.(store := Update(s.store, job.actionId, EXECUTED, Metadata(None, Some(job.txHash)), now),
                  receipts := s.receipts[job.actionId := lookup.value]),
         Ok(true))
  }

  /** The decision the status endpoint reports, from what is stored alone. */
  function DeriveDecision(status: Status, hasEscalation: bool): Decision {
    if status == APPROVED || status == EXECUTED then ALLOW
    else if status == PENDING then ESCALATE
    else if hasEscalation then ESCALATE
    else BLOCK
  }

  // ---------------------------------------------------------------- events and runs

  datatype Event =
    | Authorized(agent: string, request: PaymentRequest, id: string, createdAt: nat, evaluatedAt: nat)
    | Submitted(agent: string, id: string, typedData: TypedData, task: nat, now: nat)
    | SubmissionFinished(task: nat)
    | ApprovalBegun(id: string, signature: string, task: nat, now: nat)
    | RejectionBegun(id: string, signature: string, task: nat)
    | RowMarked(task: nat, isPassed: bool, now: nat)
    | DecisionFinished(task: nat, now: nat)
    | SettleBegun(agent: string, id: string, txHash: string, task: nat)
    | SettleFinished(task: nat, lookup: Option<Receipt>, now: nat)
      // a new process whose store was built while `early` of the table was loaded: nothing else of memory
      // survives, and suspended handlers are gone
    | Restarted(early: set<string>)
      // the legacy rail at work in the same action store
    | OtherCreated(dto: ProposeAction, id: string, now: nat)
    | OtherUpdated(id: string, status: Status, meta: Metadata, now: nat)

  ghost function Apply(w: World, s: State, e: Event): State {
    match e
    case Authorized(agent, request, id, createdAt, evaluatedAt) =>
      Authorize(w, s, agent, request, id, createdAt, evaluatedAt).0
    case Submitted(agent, id, typedData, task, now) => SubmitEscalation(w, s, agent, id, typedData, task, now).0
    case SubmissionFinished(task) => FinishSubmit(s, task)
    case ApprovalBegun(id, signature, task, now) => BeginApprove(w, s, id, signature, task, now).0
    case RejectionBegun(id, signature, task) => BeginReject(w, s, id, signature, task).0
    case RowMarked(task, isPassed, now) => MarkRow(s, task, isPassed, now).0
    case DecisionFinished(task, now) => FinishDecision(s, task, now)
    case SettleBegun(agent, id, txHash, task) => BeginSettle(w, s, agent, id, txHash, task).0
    case SettleFinished(task, lookup, now) => FinishSettle(w, s, task, lookup, now).0
    case Restarted(early) => AfterRestart(s, Restart(s.store.table, early))
    case OtherCreated(dto, id, now) => s.(store := Create(s.store, dto, id, now))
    case OtherUpdated(id, status, meta, now) => s.(store := Update(s.store, id, status, meta, now))
  }

  function AfterRestart(s: State, store: Store): State {
    s.(store := store, reasons := map[], submitting := map[], deciding := map[], marked := map[], settling := map[])
  }

  ghost predicate IsUnits(env: Env, amount: string) {
    env.bigInt(amount).Some? ==> 0 <= env.bigInt(amount).value
  }

  /** Ids and task names are fresh, amounts are not negative, and the legacy rail keeps to its own actions,
      none of which it marks EXECUTED. */
  ghost predicate Admissible(w: World, s: State, e: Event) {
    match e
    case Authorized(_, request, id, _, _) => id !in s.store.table && IsUnits(w.env, request.amount)
    case Submitted(_, _, _, task, _) => task !in s.submitting
    case ApprovalBegun(_, _, task, _) => task !in s.deciding && task !in s.marked
    case RejectionBegun(_, _, task) => task !in s.deciding && task !in s.marked
    case SettleBegun(_, _, _, task) => task !in s.settling
    case OtherCreated(dto, id, _) => id !in s.store.table && IsUnits(w.env, dto.amount)
    case OtherUpdated(id, status, _, _) => id !in s.issued && status != EXECUTED
    case _ => true
  }

  ghost predicate StepAt(w: World, trace: seq<State>, events: seq<Event>, i: nat)
    requires i < |events| < |trace|
  {
    Admissible(w, trace[i], events[i]) && trace[i + 1] == Apply(w, trace[i], events[i])
  }

  /** A run from the empty state: `trace[i]` is the state before `events[i]`. */
  ghost predicate IsRun(w: World, trace: seq<State>, events: seq<Event>) {
    |trace| == |events| + 1 && trace[0] == START && forall i :: 0 <= i < |events| ==> StepAt(w, trace, events, i)
  }
}
