/** What each stretch of the Orb session's handlers does, case by case, at literal values. */
module OrbHandlers {
  import opened Common
  import opened OrbSession

  // ---------------------------------------------------------------- the session and its polling

  /** A session starts waiting, for fifteen minutes, with nothing established. */
  lemma NewSessionIs(connectorUrl: string, now: nat)
    ensures var s := NewSession(connectorUrl, now);
            && s.status == WaitingForWorldApp && s.connectorUrl == Some(connectorUrl)
            && s.expiresAt == now + 15 * 60 * 1000
            && s.hasTimer && s.phase == Idle && s.binds == map[] && s.verifyCalls == 0
            && s.bindMessage == None && s.failure == None && s.nullifier == None && s.evidence == None
            && s.checks == map[] && s.boundBy == None
  {
  }

  /** What each answer of the bridge, or its exception, does to a session that polls. */
  lemma PollDecides(s: State, answer: Awaited<Option<Poll>>)
    requires s.phase == Polling
    ensures var t, waits := PollAnswered(s, answer), s.status in {WaitingForWorldApp, AwaitingConfirmation};
            && (answer.Throws? && waits ==>
                  t == s.(phase := Idle, hasTimer := false, status := Failed, connectorUrl := None,
                          failure := Some(Thrown)))
            && (answer.Throws? && !waits ==> t == s.(phase := Idle, hasTimer := false))
            && (answer.Answer? && (!waits || answer.value.None? || answer.value.value.Unknown?) ==>
                  t == s.(phase := Idle))
            && (answer.Answer? && waits && answer.value.Some? ==>
                  match answer.value.value
                  case Confirming => t == s.(phase := Idle, status := AwaitingConfirmation)
                  case PollFailed(error) =>
                    t == s.(phase := Idle, hasTimer := false, status := Failed, connectorUrl := None,
                            failure := Some(BridgeError(error)))
                  case Confirmed(proof) =>
                    t == s.(phase := Verifying(proof), hasTimer := false, verifyCalls := s.verifyCalls + 1)
                  case Unknown => true)
  {
  }

  // ---------------------------------------------------------------- the proof

  /** The first result of the Orb credential. */
  predicate IsOrbResult(results: seq<Credential>, i: int) {
    0 <= i < |results| && results[i].identifier == "orb" && forall j :: 0 <= j < i ==> results[j].identifier != "orb"
  }

  /** The first response of the Orb credential. */
  predicate IsOrbResponse(responses: seq<Response>, i: int) {
    && 0 <= i < |responses| && responses[i].identifier == "orb"
    && forall j :: 0 <= j < i ==> responses[j].identifier != "orb"
  }

  lemma {:induction false} CredentialIsFirst(results: seq<Credential>)
    ensures FindCredential(results).None? ==> forall i :: 0 <= i < |results| ==> results[i].identifier != "orb"
    ensures FindCredential(results).Some? ==>
              exists i :: IsOrbResult(results, i) && results[i] == FindCredential(results).value
  {
    if results == [] {
    } else if results[0].identifier == "orb" {
      assert IsOrbResult(results, 0);
    } else {
      CredentialIsFirst(results[1..]);
      if FindCredential(results[1..]).Some? {
        var i :| IsOrbResult(results[1..], i) && results[1..][i] == FindCredential(results[1..]).value;
        assert forall j :: 0 < j < i + 1 ==> results[j] == results[1..][j - 1];
        assert IsOrbResult(results, i + 1);
      }
    }
  }

  lemma {:induction false} ResponseIsFirst(responses: seq<Response>)
    ensures FindResponse(responses).None? ==> forall i :: 0 <= i < |responses| ==> responses[i].identifier != "orb"
    ensures FindResponse(responses).Some? ==>
              exists i :: IsOrbResponse(responses, i) && responses[i] == FindResponse(responses).value
  {
    if responses == [] {
    } else if responses[0].identifier == "orb" {
      assert IsOrbResponse(responses, 0);
    } else {
      ResponseIsFirst(responses[1..]);
      if FindResponse(responses[1..]).Some? {
        var i :| IsOrbResponse(responses[1..], i) && responses[1..][i] == FindResponse(responses[1..]).value;
        assert forall j :: 0 < j < i + 1 ==> responses[j] == responses[1..][j - 1];
        assert IsOrbResponse(responses, i + 1);
      }
    }
  }

  /** A response that names the approver and a nullifier. */
  predicate NamesApprover(v: Service, r: Response) {
    && r.signalHash.Some? && r.signalHash.value != ""
    && ToLower(r.signalHash.value) == ToLower(v.hashSignal(v.approver))
    && r.nullifier.Some? && r.nullifier.value != ""
  }

  /** A proof passes, with this nullifier, exactly if the portal accepted it, its first Orb result is a success, it is
      for the configured action, and its first Orb response names the approver and the nullifier. */
  lemma ProofPassesIff(v: Service, proof: Proof, verdict: Option<Verdict>, nullifier: string)
    ensures CheckProof(v, proof, verdict) == Ok(nullifier)
            <==> && verdict.Some? && verdict.value.success
                 && (exists i :: IsOrbResult(verdict.value.results, i) && verdict.value.results[i].success)
                 && proof.action == v.action
                 && (exists i :: IsOrbResponse(proof.responses, i) && NamesApprover(v, proof.responses[i])
                                 && nullifier == ToLower(proof.responses[i].nullifier.value))
  {
    ResponseIsFirst(proof.responses);
    if verdict.Some? {
      CredentialIsFirst(verdict.value.results);
    }
    hide FindCredential, FindResponse;
  }

  /** Why a proof fails, the first reason found deciding. */
  lemma ProofFailsOf(v: Service, proof: Proof, verdict: Option<Verdict>)
    ensures var checked := CheckProof(v, proof, verdict);
            && (checked == Err(ProofRejected) <==> verdict.None? || !verdict.value.success)
            && (checked == Err(ActionMismatch) ==> proof.action != v.action)
            && (checked == Err(OrbCredentialFailed) ==>
                  verdict.Some?
                  && forall i :: IsOrbResult(verdict.value.results, i) ==> !verdict.value.results[i].success)
            && (checked == Err(MissingOrbResponse) ==>
                  forall i :: 0 <= i < |proof.responses| ==> proof.responses[i].identifier != "orb")
            && (checked.Err? ==>
                  checked.error in {ProofRejected, OrbCredentialFailed, ActionMismatch, MissingOrbResponse,
                                    SignalMismatch, MissingNullifier})
  {
    ResponseIsFirst(proof.responses);
    if verdict.Some? {
      CredentialIsFirst(verdict.value.results);
    }
    hide FindCredential, FindResponse;
  }

  /** What the portal's answer does: on to the bindings with the nullifier, or FAILED. */
  lemma PortalDecides(v: Service, s: State, answer: Awaited<Option<Verdict>>)
    requires s.phase.Verifying?
    ensures var t := VerifyAnswered(v, s, answer);
            if answer.Answer? && CheckProof(v, s.phase.proof, answer.value).Ok?
            then answer.value.Some?
                 && t == s.(phase := CheckingBindings(s.phase.proof, answer.value.value,
                                                      CheckProof(v, s.phase.proof, answer.value).value))
            else && t == s.(phase := Idle, status := Failed, connectorUrl := None, failure := t.failure)
                 && t.failure.Some?
                 && (answer.Throws? ==> t.failure == Some(Thrown))
                 && (answer.Answer? ==> t.failure == Some(CheckProof(v, s.phase.proof, answer.value).error))
  {
    hide CheckProof;
  }

  // ---------------------------------------------------------------- the bindings table

  /** Rows pass exactly if they are all the approver's; the first that is not decides, a malformed signer as an
      exception, another signer as a nullifier that is taken. */
  lemma {:induction false} RowsPassIff(v: Service, rows: seq<string>)
    ensures CheckRows(v, rows).None? <==> forall i :: 0 <= i < |rows| ==> v.env.getAddress(rows[i]) == Some(v.approver)
    ensures CheckRows(v, rows).Some? ==>
              exists i :: && 0 <= i < |rows| && v.env.getAddress(rows[i]) != Some(v.approver)
                          && (forall j :: 0 <= j < i ==> v.env.getAddress(rows[j]) == Some(v.approver))
                          && CheckRows(v, rows).value
                             == if v.env.getAddress(rows[i]).None? then Thrown else NullifierTaken
  {
    if rows == [] {
    } else if v.env.getAddress(rows[0]) != Some(v.approver) {
      assert CheckRows(v, rows).Some?;
    } else {
      RowsPassIff(v, rows[1..]);
      assert forall i :: 0 < i < |rows| ==> rows[i] == rows[1..][i - 1];
      if CheckRows(v, rows[1..]).Some? {
        var i :| && 0 <= i < |rows[1..]| && v.env.getAddress(rows[1..][i]) != Some(v.approver)
                 && (forall j :: 0 <= j < i ==> v.env.getAddress(rows[1..][j]) == Some(v.approver))
                 && CheckRows(v, rows[1..]).value
                    == if v.env.getAddress(rows[1..][i]).None? then Thrown else NullifierTaken;
        assert rows[i + 1] == rows[1..][i];
      } else {
        assert forall i :: 0 <= i < |rows| ==> v.env.getAddress(rows[i]) == Some(v.approver);
      }
    }
  }

  /** What the table's answer does: VERIFIED with the nullifier and the message to sign for it, or FAILED. */
  lemma TableDecides(v: Service, s: State, answer: Awaited<seq<string>>)
    requires s.phase.CheckingBindings?
    ensures var t := BindingsAnswered(v, s, answer);
            if answer.Answer? && forall i :: 0 <= i < |answer.value| ==>
                 v.env.getAddress(answer.value[i]) == Some(v.approver)
            then t == s.(phase := Idle, status := Verified, nullifier := Some(s.phase.candidate),
                         bindMessage := Some("chapter2-world-bind:" + s.phase.candidate), connectorUrl := None,
                         evidence := Some(Evidence(s.phase.proof, s.phase.verdict, answer.value)))
            else && t == s.(phase := Idle, status := Failed, connectorUrl := None, failure := t.failure)
                 && (t.failure == Some(Thrown) || t.failure == Some(NullifierTaken))
                 && (answer.Throws? ==> t.failure == Some(Thrown))
  {
    if answer.Answer? {
      RowsPassIff(v, answer.value);
    }
    hide CheckRows;
  }

  // ---------------------------------------------------------------- status reads and binds

  /** A read is for the session's own user, and expires whatever is not BOUND once its time is up. */
  lemma StatusReads(v: Service, s: State, userId: string, now: nat)
    ensures var (t, reply) := ReadStatus(v, s, userId, now);
            && (userId != v.userId ==> t == s && reply == Err(NotFound))
            && (userId == v.userId && now < s.expiresAt ==> t == s && reply == Ok(s.status))
            && (userId == v.userId && s.status == Bound ==> t == s && reply == Ok(Bound))
            && (userId == v.userId && s.expiresAt <= now && s.status != Bound ==>
                  t == s.(status := Expired, connectorUrl := None) && reply == Ok(Expired))
  {
  }

  /** A bind begins exactly for the session's own user, while it is VERIFIED and unexpired, with the approver's
      signature over the session's message. */
  lemma BindBegins(v: Service, s: State, userId: string, signature: string, task: nat, now: nat)
    ensures var (t, reply) := BeginBind(v, s, userId, signature, task, now);
            var isOpen := && now < s.expiresAt && s.status == Verified
                          && s.bindMessage.Some? && s.bindMessage.value != ""
                          && s.nullifier.Some? && s.nullifier.value != "";
            var signer := if s.bindMessage.Some? then v.recoverText(s.bindMessage.value, signature) else None;
            && (reply == Err(NotFound) <==> userId != v.userId)
            && (reply == Err(Conflict) <==> userId == v.userId && !isOpen)
            && (reply == Err(BadRequest) <==> userId == v.userId && isOpen && signer.None?)
            && (reply == Err(Unauthorized) <==>
                  userId == v.userId && isOpen && signer.Some? && v.env.getAddress(signer.value) != Some(v.approver))
            && (reply.Ok? <==>
                  userId == v.userId && isOpen && signer.Some? && v.env.getAddress(signer.value) == Some(v.approver))
            && (reply.Err? ==> t == s)
            && (reply.Ok? ==>
                  t == s.(binds := s.binds[task := Querying],
                          checks := s.checks[task := Checked(Verified, s.nullifier, s.expiresAt, now, signature)]))
  {
  }

  /** The bind goes on to insert the session's nullifier exactly if its rows are all the approver's; a nullifier that is
      taken is a conflict, a malformed signer a bad request. */
  lemma BindIsChecked(v: Service, s: State, task: nat, rows: seq<string>)
    requires task in s.binds && s.binds[task] == Querying
    ensures var (t, reply) := BindBindingsAnswered(v, s, task, rows);
            if forall i :: 0 <= i < |rows| ==> v.env.getAddress(rows[i]) == Some(v.approver)
            then t == s.(binds := s.binds[task := Inserting]) && reply == Ok(s.nullifier)
            else && t == s.(binds := s.binds - {task})
                 && (reply == Err(Conflict) || reply == Err(BadRequest))
                 && exists i :: && 0 <= i < |rows| && v.env.getAddress(rows[i]) != Some(v.approver)
                                && (forall j :: 0 <= j < i ==> v.env.getAddress(rows[j]) == Some(v.approver))
                                && (reply == Err(BadRequest) <==> v.env.getAddress(rows[i]).None?)
  {
    RowsPassIff(v, rows);
    hide CheckRows;
  }

  /** Once its row is written the session is BOUND and polls no more, whatever it was by then. */
  lemma BindEnds(s: State, task: nat)
    requires task in s.binds && s.binds[task] == Inserting
    ensures FinishBind(s, task)
            == s.(binds := s.binds - {task}, status := Bound, hasTimer := false, boundBy := Some(task))
  {
  }

  // ---------------------------------------------------------------- every run

  /** Step `j` checks this bind, and finds no row but the approver's. */
  predicate IsUncontestedAt(v: Service, events: seq<Event>, j: int, task: nat) {
    && 0 <= j < |events| && events[j].BindChecked? && events[j].task == task
    && forall i :: 0 <= i < |events[j].signers| ==> v.env.getAddress(events[j].signers[i]) == Some(v.approver)
  }

  ghost predicate WasUncontested(v: Service, events: seq<Event>, task: nat) {
    exists j :: IsUncontestedAt(v, events, j, task)
  }

  lemma StaysUncontested(v: Service, events: seq<Event>, e: Event, task: nat)
    requires WasUncontested(v, events, task)
    ensures WasUncontested(v, events + [e], task)
  {
    var j :| IsUncontestedAt(v, events, j, task);
    assert (events + [e])[j] == events[j];
    assert IsUncontestedAt(v, events + [e], j, task);
  }

  lemma OthersBindNothing(v: Service, s: State, e: Event)
    requires !e.BindBegun? && !e.BindChecked? && !e.BindFinished?
    ensures Apply(v, s, e).binds == s.binds && Apply(v, s, e).boundBy == s.boundBy
  {
    hide CheckProof, CheckRows;
  }

  /** The binds that insert, or have bound the session, are among those that did, or were just checked. */
  lemma InsertingComesFrom(v: Service, s: State, e: Event, task: nat)
    requires var t := Apply(v, s, e); t.boundBy == Some(task) || (task in t.binds && t.binds[task] == Inserting)
    ensures || s.boundBy == Some(task) || (task in s.binds && s.binds[task] == Inserting)
            || (&& e.BindChecked? && e.task == task
                && forall i :: 0 <= i < |e.signers| ==> v.env.getAddress(e.signers[i]) == Some(v.approver))
  {
    match e
    case BindBegun(userId, signature, t, now) =>
      BindBegins(v, s, userId, signature, t, now);
      hide BeginBind;
    case BindChecked(t, signers) =>
      if t in s.binds && s.binds[t] == Querying {
        BindIsChecked(v, s, t, signers);
        hide BindBindingsAnswered;
      }
    case BindFinished(_) =>
    case _ =>
      OthersBindNothing(v, s, e);
      hide Apply;
  }

  lemma {:induction false} InsertingWasUncontested(v: Service, connectorUrl: string, start: nat, events: seq<Event>,
                                                   task: nat)
    requires var s := Run(v, NewSession(connectorUrl, start), events);
             s.boundBy == Some(task) || (task in s.binds && s.binds[task] == Inserting)
    ensures WasUncontested(v, events, task)
    decreases |events|
  {
    if events == [] {
      assert false;
    } else {
      var init, last := events[..|events| - 1], events[|events| - 1];
      var s := Run(v, NewSession(connectorUrl, start), init);
      assert events == init + [last];
      InsertingComesFrom(v, s, last, task);
      if s.boundBy == Some(task) || (task in s.binds && s.binds[task] == Inserting) {
        InsertingWasUncontested(v, connectorUrl, start, init, task);
        StaysUncontested(v, init, last, task);
      } else {
        assert IsUncontestedAt(v, events, |events| - 1, task);
      }
    }
  }

  /** Over every run a BOUND session was bound by a handler that found nobody but the approver under its nullifier. */
  lemma BoundWasUncontested(v: Service, connectorUrl: string, start: nat, events: seq<Event>)
    requires RunIsFresh(v, NewSession(connectorUrl, start), events)
    requires Run(v, NewSession(connectorUrl, start), events).status == Bound
    ensures var s := Run(v, NewSession(connectorUrl, start), events);
            s.boundBy.Some? && WasUncontested(v, events, s.boundBy.value)
  {
    BoundWasChecked(v, connectorUrl, start, events);
    InsertingWasUncontested(v, connectorUrl, start, events,
                            Run(v, NewSession(connectorUrl, start), events).boundBy.value);
  }

  /** A handler resumes only where it was suspended. */
  lemma NothingResumesTwice(v: Service, s: State, e: Event)
    requires match e
             case Polled(_) => s.phase != Polling
             case PortalAnswered(_) => !s.phase.Verifying?
             case TableAnswered(_) => !s.phase.CheckingBindings?
             case BindChecked(task, _) => !(task in s.binds && s.binds[task] == Querying)
             case BindFinished(task) => !(task in s.binds && s.binds[task] == Inserting)
             case _ => false
    ensures Apply(v, s, e) == s
  {
    hide CheckProof, CheckRows;
  }
}
