/** A World ID Orb verification session. Poll ticks, awaited answers, status reads and binds interleave on
    one session record; each stretch between awaits is one step. */
module OrbSession {
  import opened Common

  // ---------------------------------------------------------------- data

  datatype Status = WaitingForWorldApp | AwaitingConfirmation | Verified | Bound | Failed | Expired

  datatype Failure =
    | BridgeError(error: string)
    | Thrown
    | ProofRejected
    | OrbCredentialFailed
    | ActionMismatch
    | MissingOrbResponse
    | SignalMismatch
    | MissingNullifier
    | NullifierTaken

  /** One item of the proof payload; `None` is an absent field. */
  datatype Response = Response(identifier: string, signalHash: Option<string>, nullifier: Option<string>)
  datatype Proof = Proof(action: string, responses: seq<Response>)

  /** The developer portal's answer. */
  datatype Credential = Credential(identifier: string, success: bool)
  datatype Verdict = Verdict(success: bool, results: seq<Credential>)

  /** What the bridge answers; `Unknown` is any other message. */
  datatype Poll = Confirming | PollFailed(error: string) | Confirmed(proof: Proof) | Unknown

  /** An awaited call either answers or throws. */
  datatype Awaited<+T> = Answer(value: T) | Throws

  /** Where the polling closure is suspended; anything but `Idle` is its in-flight flag. */
  datatype Phase =
    | Idle
    | Polling
    | Verifying(proof: Proof)
    | CheckingBindings(proof: Proof, verdict: Verdict, candidate: string)

  /** A suspended bind: before its conflict check, or past its insert. */
  datatype Bind = Querying | Inserting

  /** What the five checks were passed on. */
  datatype Evidence = Evidence(proof: Proof, verdict: Verdict, rows: seq<string>)

  /** The session as a bind found it, and the signature it was given. */
  datatype Checked = Checked(status: Status, nullifier: Option<string>, expiresAt: nat, now: nat, signature: string)

  /** The session record, the suspended handlers, and history: how often the portal was asked, what
      verified the session, what each bind was checked on, and which bind bound it. */
  datatype State = State(
    status: Status,
    connectorUrl: Option<string>,
    expiresAt: nat,
    bindMessage: Option<string>,
    failure: Option<Failure>,
    nullifier: Option<string>,
    hasTimer: bool,
    phase: Phase,
    binds: map<nat, Bind>,
    verifyCalls: nat,
    evidence: Option<Evidence>,
    checks: map<nat, Checked>,
    boundBy: Option<nat>)

  /** `approver` is the checksummed Ledger address; the World ID hash and signature recovery are
      uninterpreted, `None` being a malformed signature. */
  datatype Service = Service(
    env: Env,
    approver: string,
    action: string,
    userId: string,
    hashSignal: string -> string,
    recoverText: (string, string) -> Option<string>)

  datatype Error = NotFound | Conflict | BadRequest | Unauthorized

  const SESSION_TTL_MS: nat := 15 * 60 * 1000
  const BIND_PREFIX: string := "chapter2-world-bind:"
  const ORB: string := "orb"

  function NewSession(connectorUrl: string, now: nat): State {
    State(WaitingForWorldApp, Some(connectorUrl), now + SESSION_TTL_MS, None, None, None, true, Idle, map[], 0, None,
          map[], None)
  }

  predicate IsAwaiting(s: Status) { s == WaitingForWorldApp || s == AwaitingConfirmation }

  // ---------------------------------------------------------------- the polling closure

  function Fail(s: State, failure: Failure): State {
    s.(status := Failed, connectorUrl := None, failure := Some(failure))
  }

  function Tick(s: State, now: nat): State {
    if !s.hasTimer || s.phase != Idle || !IsAwaiting(s.status) then s
    else if s.expiresAt <= now then s.(hasTimer := false, status := Expired, connectorUrl := None)
    else s.(phase := Polling)
  }

  function PollAnswered(s: State, answer: Awaited<Option<Poll>>): State {
    if s.phase != Polling then s
    else
      var idle := s.(phase := Idle);
      match answer
      case Throws =>
        var stopped := idle.(hasTimer := false);
        if IsAwaiting(s.status) then Fail(stopped, Thrown) else stopped
      case Answer(None) => idle
      case Answer(Some(poll)) =>
        if !IsAwaiting(s.status) then idle
        else
          match poll
          case Confirming => idle.(status := AwaitingConfirmation)
          case PollFailed(error) => Fail(idle.(hasTimer := false), BridgeError(error))
          case Confirmed(proof) => s.(hasTimer := false, phase := Verifying(proof), verifyCalls := s.verifyCalls + 1)
          case Unknown => idle
  }

  function FindCredential(results: seq<Credential>): Option<Credential> {
    if results == [] then None
    else if results[0].identifier == ORB then Some(results[0])
    else FindCredential(results[1..])
  }

  function FindResponse(responses: seq<Response>): Option<Response> {
    if responses == [] then None
    else if responses[0].identifier == ORB then Some(responses[0])
    else FindResponse(responses[1..])
  }

  function OrEmpty(s: Option<string>): string { if s.Some? then s.value else "" }

  /** Checks 1 to 4 and the nullifier's presence: the nullifier to look up, or why the proof fails. */
  function CheckProof(v: Service, proof: Proof, verdict: Option<Verdict>): (r: Result<string, Failure>)
    ensures r.Ok? ==> verdict.Some? && r.value != ""
  {
    if verdict.None? || !verdict.value.success then Err(ProofRejected)
    else
      var orb, response := FindCredential(verdict.value.results), FindResponse(proof.responses);
      if orb.None? || !orb.value.success then Err(OrbCredentialFailed)
      else if proof.action != v.action then Err(ActionMismatch)
      else if response.None? then Err(MissingOrbResponse)
      else if OrEmpty(response.value.signalHash) == ""
              || ToLower(response.value.signalHash.value) != ToLower(v.hashSignal(v.approver)) then Err(SignalMismatch)
      else if OrEmpty(response.value.nullifier) == "" then Err(MissingNullifier)
      else Ok(ToLower(response.value.nullifier.value))
  }

  function VerifyAnswered(v: Service, s: State, answer: Awaited<Option<Verdict>>): State {
    if !s.phase.Verifying? then s
    else if answer.Throws? then Fail(s.(phase := Idle), Thrown)
    else
      var checked := CheckProof(v, s.phase.proof, answer.value);
      if checked.Err? then Fail(s.(phase := Idle), checked.error)
      else s.(phase := CheckingBindings(s.phase.proof, answer.value.value, checked.value))
  }

  /** The signers a nullifier is bound to, in table order: the first that is not the approver decides. */
  function CheckRows(v: Service, rows: seq<string>): Option<Failure> {
    if rows == [] then None
    else
      var signer := v.env.getAddress(rows[0]);
      if signer.None? then Some(Thrown)
      else if signer.value != v.approver then Some(NullifierTaken)
      else CheckRows(v, rows[1..])
  }

  function BindingsAnswered(v: Service, s: State, answer: Awaited<seq<string>>): State {
    if !s.phase.CheckingBindings? then s
    else
      var idle := s.(phase := Idle);
      if answer.Throws? then Fail(idle, Thrown)
      else
        var failure := CheckRows(v, answer.value);
        if failure.Some? then Fail(idle, failure.value)
        else
          idle.(status := Verified, nullifier := Some(s.phase.candidate),
                bindMessage := Some(BIND_PREFIX + s.phase.candidate),
                connectorUrl := None, evidence := Some(Evidence(s.phase.proof, s.phase.verdict, answer.value)))
  }

  // ---------------------------------------------------------------- status reads and binds

  function ReadStatus(v: Service, s: State, userId: string, now: nat): (State, Result<Status, Error>) {
    if userId != v.userId then (s, Err(NotFound))
    else
      var t := if s.expiresAt <= now && s.status != Bound then s.(status := Expired, connectorUrl := None) else s;
      (t, Ok(t.status))
  }

  /** A bind up to its conflict check; `task` names the suspended handler. */
  function BeginBind(v: Service, s: State, userId: string, signature: string, task: nat, now: nat)
    : (State, Result<bool, Error>)
  {
    if userId != v.userId then (s, Err(NotFound))
    else if s.expiresAt <= now || s.status != Verified then (s, Err(Conflict))
    else if OrEmpty(s.bindMessage) == "" || OrEmpty(s.nullifier) == "" then (s, Err(Conflict))
    else
      var recovered := v.recoverText(s.bindMessage.value, signature);
      if recovered.None? then (s, Err(BadRequest))
      else if v.env.getAddress(recovered.value) != Some(v.approver) then (s, Err(Unauthorized))
      else
        (s.(binds := s.binds[task := Querying],
            checks := s.checks[task := Checked(s.status, s.nullifier, s.expiresAt, now, signature)]),
         Ok(true))
  }

  /** From the conflict check to the insert, which returns the row to write. */
  function BindBindingsAnswered(v: Service, s: State, task: nat, rows: seq<string>)
    : (State, Result<Option<string>, Error>)
  {
    if task !in s.binds || s.binds[task] != Querying then (s, Err(NotFound))
    else
      var failure := CheckRows(v, rows);
      if failure.Some? then (s.(binds := s.binds - {task}),
                             Err(if failure.value == NullifierTaken then Conflict else BadRequest))
      else (s.(binds := s.binds[task := Inserting]), Ok(s.nullifier))
  }

  function FinishBind(s: State, task: nat): State {
    if task !in s.binds || s.binds[task] != Inserting then s
    else s.(binds := s.binds - {task}, status := Bound, hasTimer := false, boundBy := Some(task))
  }

  // ---------------------------------------------------------------- the session object

  class VerificationSession {
    const service: Service
    const expiresAt: nat
    var status: Status
    var connectorUrl: Option<string>
    var bindMessage: Option<string>
    var failure: Option<Failure>
    var nullifier: Option<string>
    var hasTimer: bool
    var phase: Phase
    var binds: map<nat, Bind>
    ghost var verifyCalls: nat
    ghost var evidence: Option<Evidence>
    ghost var checks: map<nat, Checked>
    ghost var boundBy: Option<nat>

    ghost function View(): State
      reads this
    {
      State(status, connectorUrl, expiresAt, bindMessage, failure, nullifier, hasTimer, phase, binds, verifyCalls,
            evidence, checks, boundBy)
    }

    constructor (service: Service, connectorUrl: string, now: nat)
      ensures this.service == service
      ensures View() == NewSession(connectorUrl, now)
    {
      this.service := service;
      expiresAt := now + SESSION_TTL_MS;
      status, this.connectorUrl, hasTimer, phase := WaitingForWorldApp, Some(connectorUrl), true, Idle;
      bindMessage, failure, nullifier, binds := None, None, None, map[];
      verifyCalls, evidence, checks, boundBy := 0, None, map[], None;
    }

    method SetFailed(reason: Failure)
      modifies this`status, this`connectorUrl, this`failure
      ensures View() == Fail(old(View()), reason)
    {
      status := Failed;
      connectorUrl := None;
      failure := Some(reason);
    }

    /** The timer fires. */
    method OnTick(now: nat)
      modifies this
      ensures View() == Tick(old(View()), now)
    {
      if !hasTimer || phase != Idle || !IsAwaiting(status) {
        return;
      }
      if expiresAt <= now {
        hasTimer := false;
        status := Expired;
        connectorUrl := None;
        return;
      }
      phase := Polling;
    }

    /** The bridge answers. */
    method OnPoll(answer: Awaited<Option<Poll>>)
      requires phase == Polling
      modifies this
      ensures View() == PollAnswered(old(View()), answer)
    {
      phase := Idle;
      if answer.Throws? {
        hasTimer := false;
        if IsAwaiting(status) {
          SetFailed(Thrown);
        }
        return;
      }
      if answer.value.None? || !IsAwaiting(status) {
        return;
      }
      match answer.value.value
      case Confirming =>
        if status == WaitingForWorldApp {
          status := AwaitingConfirmation;
        }
      case PollFailed(error) =>
        hasTimer := false;
        SetFailed(BridgeError(error));
      case Confirmed(proof) =>
        hasTimer := false;
        phase := Verifying(proof);
        verifyCalls := verifyCalls + 1;
      case Unknown =>
    }

    /** The developer portal answers. */
    method OnVerified(answer: Awaited<Option<Verdict>>)
      requires phase.Verifying?
      modifies this
      ensures View() == VerifyAnswered(service, old(View()), answer)
    {
      var proof := phase.proof;
      phase := Idle;
      if answer.Throws? {
        SetFailed(Thrown);
        return;
      }
      if answer.value.None? || !answer.value.value.success {
        SetFailed(ProofRejected);
        return;
      }
      var orb := FindCredential(answer.value.value.results);
      if orb.None? || !orb.value.success {
        SetFailed(OrbCredentialFailed);
        return;
      }
      if proof.action != service.action {
        SetFailed(ActionMismatch);
        return;
      }
      var response := FindResponse(proof.responses);
      if response.None? {
        SetFailed(MissingOrbResponse);
        return;
      }
      var expected := service.hashSignal(service.approver);
      if OrEmpty(response.value.signalHash) == "" || ToLower(response.value.signalHash.value) != ToLower(expected) {
        SetFailed(SignalMismatch);
        return;
      }
      var candidate := ToLower(OrEmpty(response.value.nullifier));
      if candidate == "" {
        SetFailed(MissingNullifier);
        return;
      }
      phase := CheckingBindings(proof, answer.value.value, candidate);
    }

    /** The loop over the rows that hold the nullifier. */
    method FindForeignRow(rows: seq<string>) returns (found: Option<Failure>)
      ensures found == CheckRows(service, rows)
    {
      var i := 0;
      assert rows[0..] == rows;
      while i < |rows|
        invariant 0 <= i <= |rows|
        invariant CheckRows(service, rows) == CheckRows(service, rows[i..])
      {
        var signer := service.env.getAddress(rows[i]);
        if signer.None? {
          return Some(Thrown);
        }
        if signer.value != service.approver {
          return Some(NullifierTaken);
        }
        assert rows[i..][1..] == rows[i + 1..];
        i := i + 1;
      }
      found := None;
    }

    /** The bindings table answers the polling closure. */
    method OnBindings(answer: Awaited<seq<string>>)
      requires phase.CheckingBindings?
      modifies this
      ensures View() == BindingsAnswered(service, old(View()), answer)
    {
      var suspended := phase;
      phase := Idle;
      if answer.Throws? {
        SetFailed(Thrown);
        return;
      }
      var foreign := FindForeignRow(answer.value);
      if foreign.Some? {
        SetFailed(foreign.value);
        return;
      }
      status := Verified;
      nullifier := Some(suspended.candidate);
      bindMessage := Some(BIND_PREFIX + suspended.candidate);
      connectorUrl := None;
      evidence := Some(Evidence(suspended.proof, suspended.verdict, answer.value));
    }

    method GetOrbVerification(userId: string, now: nat) returns (reply: Result<Status, Error>)
      modifies this`status, this`connectorUrl
      ensures (View(), reply) == ReadStatus(service, old(View()), userId, now)
    {
      if userId != service.userId {
        return Err(NotFound);
      }
      if expiresAt <= now && status != Bound {
        status := Expired;
        connectorUrl := None;
      }
      reply := Ok(status);
    }

    method BindLedgerApprover(userId: string, signature: string, task: nat, now: nat)
      returns (reply: Result<bool, Error>)
      modifies this`binds, this`checks
      ensures (View(), reply) == BeginBind(service, old(View()), userId, signature, task, now)
    {
      if userId != service.userId {
        return Err(NotFound);
      }
      if expiresAt <= now || status != Verified {
        return Err(Conflict);
      }
      if OrEmpty(bindMessage) == "" || OrEmpty(nullifier) == "" {
        return Err(Conflict);
      }
      var recovered := service.recoverText(bindMessage.value, signature);
      if recovered.None? {
        return Err(BadRequest);
      }
      if service.env.getAddress(recovered.value) != Some(service.approver) {
        return Err(Unauthorized);
      }
      binds := binds[task := Querying];
      checks := checks[task := Checked(status, nullifier, expiresAt, now, signature)];
      reply := Ok(true);
    }

    /** The bindings table answers a bind. */
    method OnBindBindings(task: nat, rows: seq<string>) returns (reply: Result<Option<string>, Error>)
      requires task in binds && binds[task] == Querying
      modifies this`binds
      ensures (View(), reply) == BindBindingsAnswered(service, old(View()), task, rows)
    {
      var foreign := FindForeignRow(rows);
      if foreign.Some? {
        binds := binds - {task};
        return Err(if foreign.value == NullifierTaken then Conflict else BadRequest);
      }
      binds := binds[task := Inserting];
      reply := Ok(nullifier);
    }

    /** The insert is written. */
    method OnInserted(task: nat)
      requires task in binds && binds[task] == Inserting
      modifies this
      ensures View() == FinishBind(old(View()), task)
    {
      binds := binds - {task};
      status := Bound;
      hasTimer := false;
      boundBy := Some(task);
    }
  }

  // ---------------------------------------------------------------- interleavings

  datatype Event =
    | Ticked(now: nat)
    | Polled(poll: Awaited<Option<Poll>>)
    | PortalAnswered(verdict: Awaited<Option<Verdict>>)
    | TableAnswered(rows: Awaited<seq<string>>)
    | StatusRead(userId: string, now: nat)
    | BindBegun(userId: string, signature: string, task: nat, now: nat)
    | BindChecked(task: nat, signers: seq<string>)
    | BindFinished(task: nat)

  function Apply(v: Service, s: State, e: Event): State {
    match e
    case Ticked(now) => Tick(s, now)
    case Polled(poll) => PollAnswered(s, poll)
    case PortalAnswered(verdict) => VerifyAnswered(v, s, verdict)
    case TableAnswered(rows) => BindingsAnswered(v, s, rows)
    case StatusRead(userId, now) => ReadStatus(v, s, userId, now).0
    case BindBegun(userId, signature, task, now) => BeginBind(v, s, userId, signature, task, now).0
    case BindChecked(task, signers) => BindBindingsAnswered(v, s, task, signers).0
    case BindFinished(task) => FinishBind(s, task)
  }

  /** Each bind has its own name; everything else may happen in any order, at any time. */
  predicate IsFreshTask(s: State, e: Event) { e.BindBegun? ==> e.task !in s.checks }

  function Run(v: Service, start: State, events: seq<Event>): State {
    if events == [] then start else Apply(v, Run(v, start, events[..|events| - 1]), events[|events| - 1])
  }

  predicate RunIsFresh(v: Service, start: State, events: seq<Event>) {
    events != [] ==>
      && RunIsFresh(v, start, events[..|events| - 1])
      && IsFreshTask(Run(v, start, events[..|events| - 1]), events[|events| - 1])
  }

  // ---------------------------------------------------------------- the invariant

  /** All five checks hold of the evidence, and the nullifier is the proof's own. */
  predicate IsGenuine(v: Service, evidence: Evidence, nullifier: string) {
    && CheckProof(v, evidence.proof, Some(evidence.verdict)) == Ok(nullifier)
    && nullifier != ""
    && forall i :: 0 <= i < |evidence.rows| ==> v.env.getAddress(evidence.rows[i]) == Some(v.approver)
  }

  /** A bind was checked on a verified, unexpired session, its nullifier, and the approver's signature. */
  predicate IsProperCheck(v: Service, s: State, c: Checked) {
    && c.status == Verified && c.now < c.expiresAt && c.expiresAt == s.expiresAt
    && c.nullifier.Some? && c.nullifier == s.nullifier
    && var recovered := v.recoverText(BIND_PREFIX + c.nullifier.value, c.signature);
       recovered.Some? && v.env.getAddress(recovered.value) == Some(v.approver)
  }

  /** The portal was asked once exactly when polling is over with a confirmed proof. */
  predicate AsksOnce(s: State) {
    match s.phase
    case Idle => s.verifyCalls <= 1 && (s.verifyCalls == 1 ==> !IsAwaiting(s.status) && !s.hasTimer)
    case Polling => s.verifyCalls == 0
    case _ => s.verifyCalls == 1 && !s.hasTimer && s.status != Failed
  }

  predicate IsVouchedFor(v: Service, s: State) {
    && (s.nullifier.Some? <==> s.evidence.Some?)
    && (s.status == Verified || s.status == Bound ==> s.evidence.Some?)
    && (s.evidence.Some? ==>
          && (s.status == Verified || s.status == Bound || s.status == Expired)
          && s.phase == Idle && s.verifyCalls == 1
          && s.bindMessage == Some(BIND_PREFIX + s.nullifier.value)
          && IsGenuine(v, s.evidence.value, s.nullifier.value))
    && (s.phase.CheckingBindings? ==>
          && s.phase.candidate != ""
          && CheckProof(v, s.phase.proof, Some(s.phase.verdict)) == Ok(s.phase.candidate))
  }

  ghost predicate BindsAreChecked(v: Service, s: State) {
    && s.binds.Keys <= s.checks.Keys
    && (forall t :: t in s.checks ==> IsProperCheck(v, s, s.checks[t]))
    && (s.status == Bound <==> s.boundBy.Some?)
    && (s.boundBy.Some? ==> s.boundBy.value in s.checks)
    && (s.checks != map[] ==> s.evidence.Some?)
  }

  ghost predicate Sound(v: Service, s: State) {
    AsksOnce(s) && IsVouchedFor(v, s) && BindsAreChecked(v, s)
  }

  lemma {:induction false} RowsAreTheApprovers(v: Service, rows: seq<string>)
    requires CheckRows(v, rows).None?
    ensures forall i :: 0 <= i < |rows| ==> v.env.getAddress(rows[i]) == Some(v.approver)
  {
    if rows == [] {
    } else {
      RowsAreTheApprovers(v, rows[1..]);
      assert forall i :: 1 <= i < |rows| ==> rows[i] == rows[1..][i - 1];
    }
  }

  // ---------------------------------------------------------------- every interleaving

  lemma PollingKeepsSound(v: Service, s: State, e: Event)
    requires Sound(v, s) && (e.Ticked? || e.Polled?)
    ensures Sound(v, Apply(v, s, e))
  {
    hide CheckProof;
  }

  lemma PortalKeepsSound(v: Service, s: State, verdict: Awaited<Option<Verdict>>)
    requires Sound(v, s)
    ensures Sound(v, VerifyAnswered(v, s, verdict))
  {
    hide CheckProof;
  }

  lemma TableKeepsSound(v: Service, s: State, rows: Awaited<seq<string>>)
    requires Sound(v, s)
    ensures Sound(v, BindingsAnswered(v, s, rows))
  {
    hide CheckProof;
    if rows.Answer? && CheckRows(v, rows.value).None? {
      RowsAreTheApprovers(v, rows.value);
    }
  }

  lemma BindingKeepsSound(v: Service, s: State, e: Event)
    requires Sound(v, s) && IsFreshTask(s, e)
    requires e.StatusRead? || e.BindBegun? || e.BindChecked? || e.BindFinished?
    ensures Sound(v, Apply(v, s, e))
  {
    hide CheckProof, CheckRows;
  }

  lemma ApplyKeepsSound(v: Service, s: State, e: Event)
    requires Sound(v, s) && IsFreshTask(s, e)
    ensures Sound(v, Apply(v, s, e))
  {
    hide Sound;
    match e
    case Ticked(_) => PollingKeepsSound(v, s, e);
    case Polled(_) => PollingKeepsSound(v, s, e);
    case PortalAnswered(verdict) => PortalKeepsSound(v, s, verdict);
    case TableAnswered(rows) => TableKeepsSound(v, s, rows);
    case _ => BindingKeepsSound(v, s, e);
  }

  lemma {:induction false} EveryRunIsSound(v: Service, connectorUrl: string, start: nat, events: seq<Event>)
    requires RunIsFresh(v, NewSession(connectorUrl, start), events)
    ensures Sound(v, Run(v, NewSession(connectorUrl, start), events))
  {
    if events == [] {
    } else {
      EveryRunIsSound(v, connectorUrl, start, events[..|events| - 1]);
      ApplyKeepsSound(v, Run(v, NewSession(connectorUrl, start), events[..|events| - 1]), events[|events| - 1]);
    }
  }

  // ---------------------------------------------------------------- what no step undoes

  /** What was verified stays verified by the same evidence, checks are kept, and BOUND is never left. */
  ghost predicate OnlyAdvances(s: State, t: State) {
    && t.expiresAt == s.expiresAt
    && s.verifyCalls <= t.verifyCalls
    && (s.evidence.Some? ==> t.evidence == s.evidence && t.nullifier == s.nullifier && t.bindMessage == s.bindMessage)
    && (forall k :: k in s.checks ==> k in t.checks && t.checks[k] == s.checks[k])
    && (s.status == Bound ==> t.status == Bound)
  }

  lemma ApplyOnlyAdvances(v: Service, s: State, e: Event)
    requires Sound(v, s) && IsFreshTask(s, e)
    ensures OnlyAdvances(s, Apply(v, s, e))
  {
    hide CheckProof, CheckRows;
  }

  lemma {:induction false} LaterStatesOnlyAdvance(v: Service, connectorUrl: string, start: nat, events: seq<Event>,
                                                  i: nat)
    requires RunIsFresh(v, NewSession(connectorUrl, start), events) && i <= |events|
    ensures var s0 := NewSession(connectorUrl, start); OnlyAdvances(Run(v, s0, events[..i]), Run(v, s0, events))
  {
    var s0 := NewSession(connectorUrl, start);
    if i == |events| {
      assert events[..i] == events;
    } else {
      var init := events[..|events| - 1];
      assert init[..i] == events[..i];
      LaterStatesOnlyAdvance(v, connectorUrl, start, init, i);
      EveryRunIsSound(v, connectorUrl, start, init);
      ApplyOnlyAdvances(v, Run(v, s0, init), events[|events| - 1]);
    }
  }

  // ---------------------------------------------------------------- the protocol's promises

  /** The portal is asked at most once, whatever overlaps. */
  lemma VerifyProofAtMostOnce(v: Service, connectorUrl: string, start: nat, events: seq<Event>)
    requires RunIsFresh(v, NewSession(connectorUrl, start), events)
    ensures Run(v, NewSession(connectorUrl, start), events).verifyCalls <= 1
  {
    EveryRunIsSound(v, connectorUrl, start, events);
  }

  /** Once VERIFIED, a session is VERIFIED, BOUND or EXPIRED ever after, never FAILED, and keeps its
      nullifier; once BOUND it stays BOUND. */
  lemma VerifiedNeverFails(v: Service, connectorUrl: string, start: nat, events: seq<Event>, i: nat)
    requires RunIsFresh(v, NewSession(connectorUrl, start), events) && i <= |events|
    requires Run(v, NewSession(connectorUrl, start), events[..i]).status in {Verified, Bound}
    ensures var early := Run(v, NewSession(connectorUrl, start), events[..i]);
            var late := Run(v, NewSession(connectorUrl, start), events);
            && late.status in {Verified, Bound, Expired}
            && (early.status == Bound ==> late.status == Bound)
            && early.nullifier.Some? && late.nullifier == early.nullifier && late.bindMessage == early.bindMessage
  {
    var s0 := NewSession(connectorUrl, start);
    PrefixIsFresh(v, s0, events, i);
    EveryRunIsSound(v, connectorUrl, start, events[..i]);
    EveryRunIsSound(v, connectorUrl, start, events);
    LaterStatesOnlyAdvance(v, connectorUrl, start, events, i);
  }

  lemma {:induction false} PrefixIsFresh(v: Service, s0: State, events: seq<Event>, i: nat)
    requires RunIsFresh(v, s0, events) && i <= |events|
    ensures RunIsFresh(v, s0, events[..i])
    decreases |events|
  {
    if i == |events| {
      assert events[..i] == events;
    } else {
      assert events[..|events| - 1][..i] == events[..i];
      PrefixIsFresh(v, s0, events[..|events| - 1], i);
    }
  }

  /** A BOUND session was bound by a handler that had found it VERIFIED, unexpired and with its nullifier,
      and that was given the approver's signature over that nullifier. */
  lemma BoundWasChecked(v: Service, connectorUrl: string, start: nat, events: seq<Event>)
    requires RunIsFresh(v, NewSession(connectorUrl, start), events)
    requires Run(v, NewSession(connectorUrl, start), events).status == Bound
    ensures var s := Run(v, NewSession(connectorUrl, start), events);
            && s.boundBy.Some? && s.boundBy.value in s.checks
            && var c := s.checks[s.boundBy.value];
               && c.status == Verified && c.now < s.expiresAt == start + SESSION_TTL_MS
               && c.nullifier.Some? && c.nullifier == s.nullifier
               && v.recoverText(BIND_PREFIX + c.nullifier.value, c.signature).Some?
               && v.env.getAddress(v.recoverText(BIND_PREFIX + c.nullifier.value, c.signature).value)
                 == Some(v.approver)
  {
    EveryRunIsSound(v, connectorUrl, start, events);
    LaterStatesOnlyAdvance(v, connectorUrl, start, events, 0);
    assert events[..0] == [];
    hide CheckProof;
  }

  /** A VERIFIED or BOUND session rests on a proof for the configured action and approver, accepted by the
      portal as an Orb credential, whose lower-cased nullifier no other signer held. */
  lemma VerifiedIsGenuine(v: Service, connectorUrl: string, start: nat, events: seq<Event>)
    requires RunIsFresh(v, NewSession(connectorUrl, start), events)
    requires Run(v, NewSession(connectorUrl, start), events).status in {Verified, Bound}
    ensures var s := Run(v, NewSession(connectorUrl, start), events);
            && s.evidence.Some? && s.nullifier.Some?
            && var e := s.evidence.value;
               && e.verdict.success && e.proof.action == v.action
               && (exists c :: c in e.verdict.results && c.identifier == ORB && c.success)
               && (exists r :: r in e.proof.responses && r.identifier == ORB
                     && r.signalHash.Some? && ToLower(r.signalHash.value) == ToLower(v.hashSignal(v.approver))
                     && r.nullifier.Some? && s.nullifier == Some(ToLower(r.nullifier.value)))
               && s.nullifier != Some("")
               && (forall row :: row in e.rows ==> v.env.getAddress(row) == Some(v.approver))
  {
    EveryRunIsSound(v, connectorUrl, start, events);
    var e := Run(v, NewSession(connectorUrl, start), events).evidence.value;
    FoundIsListed(e.verdict.results, e.proof.responses);
  }

  lemma {:induction false} FoundIsListed(results: seq<Credential>, responses: seq<Response>)
    ensures match FindCredential(results) case Some(c) => c in results && c.identifier == ORB case None => true
    ensures match FindResponse(responses) case Some(r) => r in responses && r.identifier == ORB case None => true
    decreases |results| + |responses|
  {
    if results == [] && responses == [] {
    } else if results == [] {
      FoundIsListed(results, responses[1..]);
    } else {
      FoundIsListed(results[1..], responses);
    }
  }

  /** EXPIRED is not final: a session leaves it exactly when a proof that was already in flight is decided,
      or a bind that had passed its checks is written. */
  lemma ExpiredIsLeftIff(v: Service, s: State, e: Event)
    requires Sound(v, s) && s.status == Expired
    ensures Apply(v, s, e).status != Expired
       <==> || (e.PortalAnswered? && s.phase.Verifying?
                && (e.verdict.Throws? || CheckProof(v, s.phase.proof, e.verdict.value).Err?))
            || (e.TableAnswered? && s.phase.CheckingBindings?)
            || (e.BindFinished? && e.task in s.binds && s.binds[e.task] == Inserting)
  {
    hide CheckProof, CheckRows;
  }

  // ---------------------------------------------------------------- expiry

  /** A tick is ignored unless the session waits, its timer runs and nothing is in flight; then it expires the session
      exactly from its expiry on, and polls exactly before it. */
  lemma TickDecides(s: State, now: nat)
    ensures var t := Tick(s, now);
            var waits := && s.hasTimer && s.phase == Idle
                         && (s.status == WaitingForWorldApp || s.status == AwaitingConfirmation);
            && (!waits ==> t == s)
            && (waits && s.expiresAt <= now ==> t == s.(hasTimer := false, status := Expired, connectorUrl := None))
            && (waits && now < s.expiresAt ==> t == s.(phase := Polling))
  {
  }

  /** Polling begins at a tick before the expiry, and at no other step. */
  lemma PollingBeginsInTime(v: Service, s: State, e: Event)
    requires s.phase != Polling && Apply(v, s, e).phase == Polling
    ensures e.Ticked? && e.now < s.expiresAt && (s.status == WaitingForWorldApp || s.status == AwaitingConfirmation)
  {
    hide CheckProof, CheckRows;
  }

  // ---------------------------------------------------------------- runs that leave EXPIRED

  lemma RunFurther(v: Service, s0: State, events: seq<Event>, e: Event)
    ensures Run(v, s0, events + [e]) == Apply(v, Run(v, s0, events), e)
    ensures RunIsFresh(v, s0, events + [e]) <==> RunIsFresh(v, s0, events) && IsFreshTask(Run(v, s0, events), e)
  {
    assert (events + [e])[..|events|] == events;
  }

  /** A session polled, confirmed and asked about, whose status is read only after its expiry. */
  function Confirming(proof: Proof): seq<Event> { [Ticked(0), Polled(Answer(Some(Confirmed(proof))))] }

  lemma ConfirmedAtOnce(v: Service, connectorUrl: string, proof: Proof)
    ensures var s0 := NewSession(connectorUrl, 0);
            && RunIsFresh(v, s0, Confirming(proof))
            && Run(v, s0, Confirming(proof))
               == s0.(hasTimer := false, phase := Verifying(proof), verifyCalls := 1)
  {
    var s0 := NewSession(connectorUrl, 0);
    assert [] + [Ticked(0)] == [Ticked(0)];
    RunFurther(v, s0, [], Ticked(0));
    RunFurther(v, s0, [Ticked(0)], Polled(Answer(Some(Confirmed(proof)))));
    assert Confirming(proof) == [Ticked(0)] + [Polled(Answer(Some(Confirmed(proof))))];
  }

  /** EXPIRED becomes FAILED: the portal throws after the expiry was read. */
  lemma ExpiredFailsWitness(v: Service, connectorUrl: string, proof: Proof)
    ensures var s0 := NewSession(connectorUrl, 0);
            var early := Confirming(proof) + [StatusRead(v.userId, SESSION_TTL_MS)];
            && RunIsFresh(v, s0, early + [PortalAnswered(Throws)])
            && Run(v, s0, early).status == Expired
            && Run(v, s0, early + [PortalAnswered(Throws)]).status == Failed
  {
    hide Run, RunIsFresh;
    var s0 := NewSession(connectorUrl, 0);
    ConfirmedAtOnce(v, connectorUrl, proof);
    RunFurther(v, s0, Confirming(proof), StatusRead(v.userId, SESSION_TTL_MS));
    RunFurther(v, s0, Confirming(proof) + [StatusRead(v.userId, SESSION_TTL_MS)], PortalAnswered(Throws));
  }

  lemma PassedInTime(v: Service, connectorUrl: string, proof: Proof, verdict: Verdict, nullifier: string)
    requires CheckProof(v, proof, Some(verdict)) == Ok(nullifier)
    ensures var s0 := NewSession(connectorUrl, 0);
            var events := Confirming(proof) + [PortalAnswered(Answer(Some(verdict)))];
            && RunIsFresh(v, s0, events)
            && Run(v, s0, events)
               == s0.(hasTimer := false, phase := CheckingBindings(proof, verdict, nullifier), verifyCalls := 1)
  {
    hide CheckProof, Run, RunIsFresh;
    ConfirmedAtOnce(v, connectorUrl, proof);
    RunFurther(v, NewSession(connectorUrl, 0), Confirming(proof), PortalAnswered(Answer(Some(verdict))));
  }

  /** EXPIRED becomes VERIFIED: the expiry is read before the table has answered that nobody holds the nullifier. */
  lemma ExpiredVerifiesWitness(v: Service, connectorUrl: string, proof: Proof, verdict: Verdict, nullifier: string)
    requires CheckProof(v, proof, Some(verdict)) == Ok(nullifier)
    ensures var s0 := NewSession(connectorUrl, 0);
            var early := Confirming(proof) + [PortalAnswered(Answer(Some(verdict))),
                                              StatusRead(v.userId, SESSION_TTL_MS)];
            && RunIsFresh(v, s0, early + [TableAnswered(Answer([]))])
            && Run(v, s0, early).status == Expired
            && Run(v, s0, early + [TableAnswered(Answer([]))]).status == Verified
  {
    hide CheckProof, Run, RunIsFresh;
    var s0 := NewSession(connectorUrl, 0);
    var passed := Confirming(proof) + [PortalAnswered(Answer(Some(verdict)))];
    PassedInTime(v, connectorUrl, proof, verdict, nullifier);
    RunFurther(v, s0, passed, StatusRead(v.userId, SESSION_TTL_MS));
    RunFurther(v, s0, passed + [StatusRead(v.userId, SESSION_TTL_MS)], TableAnswered(Answer([])));
    assert passed + [StatusRead(v.userId, SESSION_TTL_MS)]
      == Confirming(proof) + [PortalAnswered(Answer(Some(verdict))), StatusRead(v.userId, SESSION_TTL_MS)];
  }

  lemma VerifiedInTime(v: Service, connectorUrl: string, proof: Proof, verdict: Verdict, nullifier: string)
    requires CheckProof(v, proof, Some(verdict)) == Ok(nullifier)
    ensures var s0 := NewSession(connectorUrl, 0);
            var events := Confirming(proof) + [PortalAnswered(Answer(Some(verdict))), TableAnswered(Answer([]))];
            && RunIsFresh(v, s0, events)
            && Run(v, s0, events)
               == s0.(hasTimer := false, verifyCalls := 1, status := Verified, nullifier := Some(nullifier),
                      bindMessage := Some(BIND_PREFIX + nullifier), connectorUrl := None,
                      evidence := Some(Evidence(proof, verdict, [])))
  {
    hide CheckProof, Run, RunIsFresh;
    var passed := Confirming(proof) + [PortalAnswered(Answer(Some(verdict)))];
    PassedInTime(v, connectorUrl, proof, verdict, nullifier);
    RunFurther(v, NewSession(connectorUrl, 0), passed, TableAnswered(Answer([])));
    assert passed + [TableAnswered(Answer([]))]
      == Confirming(proof) + [PortalAnswered(Answer(Some(verdict))), TableAnswered(Answer([]))];
  }

  lemma BindBegunInTime(v: Service, connectorUrl: string, proof: Proof, verdict: Verdict, nullifier: string,
                        signature: string)
    requires CheckProof(v, proof, Some(verdict)) == Ok(nullifier)
    requires var recovered := v.recoverText(BIND_PREFIX + nullifier, signature);
             recovered.Some? && v.env.getAddress(recovered.value) == Some(v.approver)
    ensures var s0 := NewSession(connectorUrl, 0);
            var events := Confirming(proof) + [PortalAnswered(Answer(Some(verdict))), TableAnswered(Answer([])),
                                               BindBegun(v.userId, signature, 0, 0), BindChecked(0, [])];
            && RunIsFresh(v, s0, events)
            && Run(v, s0, events).binds == map[0 := Inserting]
            && Run(v, s0, events).status == Verified && Run(v, s0, events).expiresAt == SESSION_TTL_MS
  {
    NonEmptyNullifier(v, proof, verdict, nullifier);
    hide CheckProof, Run, RunIsFresh;
    var s0 := NewSession(connectorUrl, 0);
    var b := Confirming(proof) + [PortalAnswered(Answer(Some(verdict))), TableAnswered(Answer([]))];
    VerifiedInTime(v, connectorUrl, proof, verdict, nullifier);
    RunFurther(v, s0, b, BindBegun(v.userId, signature, 0, 0));
    RunFurther(v, s0, b + [BindBegun(v.userId, signature, 0, 0)], BindChecked(0, []));
    assert b + [BindBegun(v.userId, signature, 0, 0)] + [BindChecked(0, [])]
      == Confirming(proof) + [PortalAnswered(Answer(Some(verdict))), TableAnswered(Answer([])),
                              BindBegun(v.userId, signature, 0, 0), BindChecked(0, [])];
  }

  /** EXPIRED becomes BOUND: a bind begun in time is written after the expiry was read. */
  lemma ExpiredBindsWitness(v: Service, connectorUrl: string, proof: Proof, verdict: Verdict, nullifier: string,
                            signature: string)
    requires CheckProof(v, proof, Some(verdict)) == Ok(nullifier)
    requires var recovered := v.recoverText(BIND_PREFIX + nullifier, signature);
             recovered.Some? && v.env.getAddress(recovered.value) == Some(v.approver)
    ensures var s0 := NewSession(connectorUrl, 0);
            var early := Confirming(proof) + [PortalAnswered(Answer(Some(verdict))), TableAnswered(Answer([])),
                                              BindBegun(v.userId, signature, 0, 0), BindChecked(0, []),
                                              StatusRead(v.userId, SESSION_TTL_MS)];
            && RunIsFresh(v, s0, early + [BindFinished(0)])
            && Run(v, s0, early).status == Expired
            && Run(v, s0, early + [BindFinished(0)]).status == Bound
  {
    hide CheckProof, Run, RunIsFresh;
    var s0 := NewSession(connectorUrl, 0);
    var d := Confirming(proof) + [PortalAnswered(Answer(Some(verdict))), TableAnswered(Answer([])),
                                  BindBegun(v.userId, signature, 0, 0), BindChecked(0, [])];
    BindBegunInTime(v, connectorUrl, proof, verdict, nullifier, signature);
    var e := d + [StatusRead(v.userId, SESSION_TTL_MS)];
    RunFurther(v, s0, d, StatusRead(v.userId, SESSION_TTL_MS));
    RunFurther(v, s0, e, BindFinished(0));
    assert e == Confirming(proof) + [PortalAnswered(Answer(Some(verdict))), TableAnswered(Answer([])),
                                     BindBegun(v.userId, signature, 0, 0), BindChecked(0, []),
                                     StatusRead(v.userId, SESSION_TTL_MS)];
  }

  lemma NonEmptyNullifier(v: Service, proof: Proof, verdict: Verdict, nullifier: string)
    requires CheckProof(v, proof, Some(verdict)) == Ok(nullifier)
    ensures nullifier != ""
  {
  }

  // ---------------------------------------------------------------- an example to run them on

  const EXAMPLE_SERVICE := Service(Env((a: string) => Some(a), (n: string) => None), "ledger", "approve", "user",
                                   (s: string) => s, (text: string, signature: string) => Some(signature))

  const EXAMPLE_PROOF := Proof("approve", [Response(ORB, Some("ledger"), Some("7"))])

  lemma ExampleIsAccepted()
    ensures CheckProof(EXAMPLE_SERVICE, EXAMPLE_PROOF, Some(Verdict(true, [Credential(ORB, true)])))
            == Ok(ToLower("7"))
    ensures EXAMPLE_SERVICE.recoverText(BIND_PREFIX + ToLower("7"), "ledger") == Some(EXAMPLE_SERVICE.approver)
  {
    assert FindResponse(EXAMPLE_PROOF.responses) == Some(EXAMPLE_PROOF.responses[0]);
    assert FindCredential([Credential(ORB, true)]) == Some(Credential(ORB, true));
  }
}
