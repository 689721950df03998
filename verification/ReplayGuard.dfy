/** The replay guard of the agent endpoints: a freshness window in whole seconds against a retention window
    in milliseconds. The guard waits for the agent lookup between looking a signature up and storing it, and
    other requests run in between. */
module ReplayGuard {
  import opened Common

  const SIGNATURE_TTL_MS: nat := 120_000
  const TIMESTAMP_TOLERANCE_SECONDS: real := 60.0

  /** Used signatures, each with the moment it may be forgotten. */
  type Used = map<string, nat>

  /** A request suspended at the agent lookup. */
  datatype Waiting = Waiting(signature: string, timestamp: real)

  datatype State = State(used: Used, waiting: map<nat, Waiting>)

  const START := State(map[], map[])

  // ---------------------------------------------------------------- operations

  function Seconds(ms: nat): nat { ms / 1000 }

  predicate IsFresh(timestamp: real, now: nat) {
    var distance := Seconds(now) as real - timestamp;
    -TIMESTAMP_TOLERANCE_SECONDS <= distance <= TIMESTAMP_TOLERANCE_SECONDS
  }

  function Pruned(used: Used, now: nat): Used {
    map s | s in used && used[s] > now :: used[s]
  }

  /** `canActivate` up to the lookup, and whether it gets there. `isSigned` says that the signature over the
      request, timestamp included, recovers to the claimed agent. */
  function Enter(used: Used, w: Waiting, isSigned: bool, now: nat): (Used, bool) {
    if !IsFresh(w.timestamp, now) then (used, false)
    else
      var left := Pruned(used, now);
      (left, w.signature !in left && isSigned)
  }

  /** The rest, once the lookup has said whether the agent is active. */
  function Store(used: Used, signature: string, isActive: bool, now: nat): (Used, bool) {
    if isActive then (used[signature := now + SIGNATURE_TTL_MS], true) else (used, false)
  }

  class AgentSignatureGuard {
    var usedSignatures: Used

    constructor ()
      ensures usedSignatures == map[]
    {
      usedSignatures := map[];
    }

    method PruneUsedSignatures(now: nat)
      modifies this
      ensures usedSignatures == Pruned(old(usedSignatures), now)
    {
      var todo := usedSignatures.Keys;
      ghost var before := usedSignatures;
      while todo != {}
        invariant todo <= before.Keys
        invariant usedSignatures == map s | s in before && (s in todo || before[s] > now) :: before[s]
        decreases |todo|
      {
        var s :| s in todo;
        if usedSignatures[s] <= now {
          usedSignatures := usedSignatures - {s};
        }
        todo := todo - {s};
      }
    }

    method BeginActivate(signature: string, timestamp: real, isSigned: bool, now: nat) returns (isWaiting: bool)
      modifies this
      ensures (usedSignatures, isWaiting) == Enter(old(usedSignatures), Waiting(signature, timestamp), isSigned, now)
    {
      var nowSeconds := now / 1000;
      var distance := nowSeconds as real - timestamp;
      if (if distance < 0.0 then -distance else distance) > TIMESTAMP_TOLERANCE_SECONDS {
        return false;
      }
      PruneUsedSignatures(now);
      if signature in usedSignatures {
        return false;
      }
      isWaiting := isSigned;
    }

    method FinishActivate(signature: string, isActive: bool, now: nat) returns (accepted: bool)
      modifies this
      ensures (usedSignatures, accepted) == Store(old(usedSignatures), signature, isActive, now)
    {
      if !isActive {
        return false;
      }
      usedSignatures := usedSignatures[signature := now + SIGNATURE_TTL_MS];
      accepted := true;
    }
  }

  // ---------------------------------------------------------------- runs

  /** Both stretches record what they answer: whether the request goes on to the lookup, and whether it is let in. */
  datatype Event =
    | Entered(task: nat, signature: string, timestamp: real, isSigned: bool, now: nat, goesOn: bool)
    | Answered(task: nat, isActive: bool, now: nat, answer: bool)

  ghost predicate Step(s: State, e: Event, t: State) {
    match e
    case Entered(task, signature, timestamp, isSigned, now, goesOn) =>
      var w := Waiting(signature, timestamp);
      var (used, isWaiting) := Enter(s.used, w, isSigned, now);
      && task !in s.waiting && goesOn == isWaiting
      && t == State(used, if goesOn then s.waiting[task := w] else s.waiting)
    case Answered(task, isActive, now, answer) =>
      && task in s.waiting
      && var (used, accepted) := Store(s.used, s.waiting[task].signature, isActive, now);
         answer == accepted && t == State(used, s.waiting - {task})
  }

  ghost predicate StepAt(trace: seq<State>, events: seq<Event>, i: nat)
    requires |trace| == |events| + 1 && i < |events|
  {
    Step(trace[i], events[i], trace[i + 1])
  }

  /** Any interleaving of requests, by a clock that starts at `since` and does not go backwards. */
  ghost predicate IsRun(trace: seq<State>, events: seq<Event>, since: nat) {
    && |trace| == |events| + 1
    && (forall i :: 0 <= i < |events| ==> StepAt(trace, events, i))
    && (forall i :: 0 <= i < |events| ==> since <= events[i].now)
    && (forall i, j :: 0 <= i < j < |events| ==> events[i].now <= events[j].now)
  }

  /** The guard remembers header strings. A signed request is what one or more of them, its spellings, recover to
      the agent on; they are all over its one timestamp. */
  predicate FixesTimestamp(events: seq<Event>, spellings: set<string>, timestamp: real) {
    forall i :: 0 <= i < |events| ==>
      (events[i].Entered? && events[i].isSigned && events[i].signature in spellings
       ==> events[i].timestamp == timestamp)
  }

  /** The step lets the signed request in, under one of its spellings. */
  predicate Accepts(s: State, e: Event, spellings: set<string>) {
    e.Answered? && e.answer && e.task in s.waiting && s.waiting[e.task].signature in spellings
  }

  ghost predicate IsAwaited(s: State, spellings: set<string>) {
    exists task :: task in s.waiting && s.waiting[task].signature in spellings
  }

  // ---------------------------------------------------------------- what is remembered

  /** Whoever waits has entered with a fresh timestamp. */
  lemma {:induction false} WaitingHasEntered(trace: seq<State>, events: seq<Event>, since: nat, i: nat, task: nat)
    requires IsRun(trace, events, since) && trace[0] == START && i <= |events| && task in trace[i].waiting
    ensures exists k :: 0 <= k < i && HasEntered(events[k], trace[i].waiting[task])
  {
    if i == 0 {
      assert false;
    } else {
      assert StepAt(trace, events, i - 1);
      if task in trace[i - 1].waiting {
        WaitingHasEntered(trace, events, since, i - 1, task);
      } else {
        assert HasEntered(events[i - 1], trace[i].waiting[task]);
      }
    }
  }

  predicate HasEntered(e: Event, w: Waiting) {
    e.Entered? && e.isSigned && w == Waiting(e.signature, e.timestamp) && IsFresh(w.timestamp, e.now)
  }

  /** So its timestamp is at most 60 seconds ahead. */
  lemma WaitingIsFresh(trace: seq<State>, events: seq<Event>, since: nat, i: nat, task: nat)
    requires IsRun(trace, events, since) && trace[0] == START && i < |events| && task in trace[i].waiting
    ensures trace[i].waiting[task].timestamp <= Seconds(events[i].now) as real + TIMESTAMP_TOLERANCE_SECONDS
  {
    WaitingHasEntered(trace, events, since, i, task);
    var k :| 0 <= k < i && HasEntered(events[k], trace[i].waiting[task]);
    SecondsAreMonotone(events[k].now, events[i].now);
  }

  lemma SecondsAreMonotone(a: nat, b: nat)
    requires a <= b
    ensures Seconds(a) <= Seconds(b)
    ensures Seconds(a + SIGNATURE_TTL_MS) == Seconds(a) + 120
  {
  }

  /** The first moment from `now` on at which the guard does not remember a header string. */
  function ForgottenBy(used: Used, signature: string, now: nat): nat {
    if signature in used && now < used[signature] then used[signature] else now
  }

  /** The timestamp is still fresh when this spelling is no longer remembered. */
  predicate IsOpen(used: Used, signature: string, timestamp: real, now: nat) {
    timestamp + TIMESTAMP_TOLERANCE_SECONDS >= Seconds(ForgottenBy(used, signature, now)) as real
  }

  /** No request of the spellings waits, and none of them is open. */
  ghost predicate IsShutOut(s: State, spellings: set<string>, timestamp: real, now: nat) {
    && !IsAwaited(s, spellings)
    && forall signature :: signature in spellings ==> !IsOpen(s.used, signature, timestamp, now)
  }

  lemma StepShutsOut(s: State, e: Event, t: State, spellings: set<string>, timestamp: real, now: nat)
    requires Step(s, e, t) && now <= e.now && IsShutOut(s, spellings, timestamp, now)
    requires FixesTimestamp([e], spellings, timestamp)
    ensures IsShutOut(t, spellings, timestamp, e.now)
  {
    forall signature | signature in spellings
      ensures ForgottenBy(s.used, signature, now) <= ForgottenBy(t.used, signature, e.now)
    {
    }
    assert e.Entered? && e.signature !in Pruned(s.used, e.now) ==> ForgottenBy(s.used, e.signature, now) <= e.now;
    forall signature | signature in spellings ensures !IsOpen(t.used, signature, timestamp, e.now) {
      assert !IsOpen(s.used, signature, timestamp, now);
      SecondsAreMonotone(ForgottenBy(s.used, signature, now), ForgottenBy(t.used, signature, e.now));
    }
    if e.Entered? && e.signature in spellings && ForgottenBy(s.used, e.signature, now) <= e.now {
      assert [e][0] == e;
      SecondsAreMonotone(ForgottenBy(s.used, e.signature, now), e.now);
    }
  }

  lemma {:induction false} StaysShutOut(trace: seq<State>, events: seq<Event>, since: nat, i: nat,
                                        spellings: set<string>, timestamp: real)
    requires IsRun(trace, events, since) && i <= |events| && FixesTimestamp(events, spellings, timestamp)
    requires IsShutOut(trace[0], spellings, timestamp, since)
    ensures IsShutOut(trace[i], spellings, timestamp, if i == 0 then since else events[i - 1].now)
  {
    hide IsShutOut, Step;
    if i == 0 {
    } else {
      StaysShutOut(trace, events, since, i - 1, spellings, timestamp);
      assert StepAt(trace, events, i - 1);
      assert [events[i - 1]][0] == events[i - 1];
      StepShutsOut(trace[i - 1], events[i - 1], trace[i], spellings, timestamp,
                   if i == 1 then since else events[i - 2].now);
    }
  }

  // ---------------------------------------------------------------- when a signed request is accepted twice

  /** A way to have a signed request accepted, from a state on. */
  ghost predicate IsAcceptance(s: State, since: nat, spellings: set<string>, timestamp: real, trace: seq<State>,
                               events: seq<Event>)
  {
    && IsRun(trace, events, since) && trace[0] == s && FixesTimestamp(events, spellings, timestamp)
    && events != [] && Accepts(trace[|events| - 1], events[|events| - 1], spellings)
  }

  ghost predicate CanBeAccepted(s: State, since: nat, spellings: set<string>, timestamp: real) {
    exists trace, events :: IsAcceptance(s, since, spellings, timestamp, trace, events)
  }

  /** A waiting request is accepted as soon as its lookup is answered. */
  lemma AwaitedCanBeAccepted(s: State, since: nat, spellings: set<string>, timestamp: real, task: nat)
    requires task in s.waiting && s.waiting[task].signature in spellings
    ensures CanBeAccepted(s, since, spellings, timestamp)
  {
    var e := Answered(task, true, since, true);
    var t := State(Store(s.used, s.waiting[task].signature, true, since).0, s.waiting - {task});
    assert Step(s, e, t);
    assert StepAt([s, t], [e], 0);
    assert IsAcceptance(s, since, spellings, timestamp, [s, t], [e]);
  }

  /** An open spelling is accepted once it is forgotten. */
  lemma OpenCanBeAccepted(s: State, now: nat, spellings: set<string>, w: Waiting, task: nat)
    requires w.signature in spellings && task !in s.waiting && IsOpen(s.used, w.signature, w.timestamp, now)
    requires w.timestamp <= Seconds(now) as real + TIMESTAMP_TOLERANCE_SECONDS
    ensures CanBeAccepted(s, now, spellings, w.timestamp)
  {
    var at := ForgottenBy(s.used, w.signature, now);
    SecondsAreMonotone(now, at);
    var enter, answer := Entered(task, w.signature, w.timestamp, true, at, true), Answered(task, true, at, true);
    var t := State(Pruned(s.used, at), s.waiting[task := w]);
    var u := State(Store(t.used, w.signature, true, at).0, t.waiting - {task});
    assert Step(s, enter, t) && Step(t, answer, u);
    var trace, events := [s, t, u], [enter, answer];
    assert StepAt(trace, events, 0) && StepAt(trace, events, 1);
    assert IsAcceptance(s, now, spellings, w.timestamp, trace, events);
  }

  lemma SomeTaskIsFree(waiting: map<nat, Waiting>) returns (task: nat)
    ensures task !in waiting
  {
    task := BoundOf(waiting.Keys);
  }

  lemma {:induction false} BoundOf(tasks: set<nat>) returns (bound: nat)
    ensures forall task :: task in tasks ==> task < bound
  {
    if tasks == {} {
      bound := 0;
    } else {
      var task :| task in tasks;
      var rest := BoundOf(tasks - {task});
      assert forall other :: other in tasks ==> other == task || other in tasks - {task};
      bound := if task < rest then rest else task + 1;
    }
  }

  lemma ShutOutIsNotAccepted(s: State, now: nat, spellings: set<string>, timestamp: real, trace: seq<State>,
                             events: seq<Event>)
    requires IsShutOut(s, spellings, timestamp, now)
    ensures !IsAcceptance(s, now, spellings, timestamp, trace, events)
  {
    if IsAcceptance(s, now, spellings, timestamp, trace, events) {
      StaysShutOut(trace, events, now, |events| - 1, spellings, timestamp);
      assert false;
    }
  }

  /** The exact boundary of single use, over every interleaving: a signed request accepted at step `i` can be
      accepted again if and only if a request of one of its spellings is waiting for the lookup, whatever the
      timestamp, or one of its spellings is forgotten, or was never seen, while the timestamp is fresh. */
  lemma CanBeAcceptedAgainIff(trace: seq<State>, events: seq<Event>, since: nat, i: nat, spellings: set<string>,
                              timestamp: real)
    requires IsRun(trace, events, since) && trace[0] == START && i < |events|
    requires Accepts(trace[i], events[i], spellings) && FixesTimestamp(events, spellings, timestamp)
    ensures CanBeAccepted(trace[i + 1], events[i].now, spellings, timestamp)
            <==> || IsAwaited(trace[i + 1], spellings)
                 || exists signature :: signature in spellings
                                        && IsOpen(trace[i + 1].used, signature, timestamp, events[i].now)
  {
    var s, now := trace[i + 1], events[i].now;
    AcceptedIsOnTime(trace, events, since, i, spellings, timestamp);
    hide IsOpen, Step, FixesTimestamp, Accepts;
    if task :| task in s.waiting && s.waiting[task].signature in spellings {
      AwaitedCanBeAccepted(s, now, spellings, timestamp, task);
    } else if signature :| signature in spellings && IsOpen(s.used, signature, timestamp, now) {
      var task := SomeTaskIsFree(s.waiting);
      OpenCanBeAccepted(s, now, spellings, Waiting(signature, timestamp), task);
    } else {
      forall states, more | IsAcceptance(s, now, spellings, timestamp, states, more) ensures false {
        ShutOutIsNotAccepted(s, now, spellings, timestamp, states, more);
      }
    }
  }

  /** An accepted request's timestamp is at most 60 seconds ahead. */
  lemma AcceptedIsOnTime(trace: seq<State>, events: seq<Event>, since: nat, i: nat, spellings: set<string>,
                         timestamp: real)
    requires IsRun(trace, events, since) && trace[0] == START && i < |events|
    requires Accepts(trace[i], events[i], spellings) && FixesTimestamp(events, spellings, timestamp)
    ensures timestamp <= Seconds(events[i].now) as real + TIMESTAMP_TOLERANCE_SECONDS
    ensures trace[i].waiting[events[i].task].timestamp == timestamp
  {
    WaitingIsFresh(trace, events, since, i, events[i].task);
    WaitingHasEntered(trace, events, since, i, events[i].task);
  }

  /** Where the request has one spelling, that leaves two ways: another request with it waits, or the timestamp is
      exactly 60 seconds ahead of the second it was stored in. */
  lemma OneSpellingAgainIff(trace: seq<State>, events: seq<Event>, since: nat, i: nat, w: Waiting)
    requires IsRun(trace, events, since) && trace[0] == START && i < |events|
    requires Accepts(trace[i], events[i], {w.signature}) && FixesTimestamp(events, {w.signature}, w.timestamp)
    ensures CanBeAccepted(trace[i + 1], events[i].now, {w.signature}, w.timestamp)
            <==> || IsAwaited(trace[i + 1], {w.signature})
                 || w.timestamp == Seconds(events[i].now) as real + TIMESTAMP_TOLERANCE_SECONDS
  {
    var s, now := trace[i + 1], events[i].now;
    CanBeAcceptedAgainIff(trace, events, since, i, {w.signature}, w.timestamp);
    AcceptedIsOnTime(trace, events, since, i, {w.signature}, w.timestamp);
    assert StepAt(trace, events, i);
    SecondsAreMonotone(now, now);
    assert w.signature in {w.signature} && ForgottenBy(s.used, w.signature, now) == now + SIGNATURE_TTL_MS;
    hide FixesTimestamp, CanBeAccepted, IsRun;
  }

  /** Over every run: of two acceptances of one signed request, either some request of its spellings was waiting when
      the first was stored, or one of them was still open. */
  lemma TwiceOnlyIf(trace: seq<State>, events: seq<Event>, since: nat, i: nat, j: nat, spellings: set<string>,
                    timestamp: real)
    requires IsRun(trace, events, since) && trace[0] == START && i < j < |events|
    requires Accepts(trace[i], events[i], spellings) && Accepts(trace[j], events[j], spellings)
    requires FixesTimestamp(events, spellings, timestamp)
    ensures !IsShutOut(trace[i + 1], spellings, timestamp, events[i].now)
  {
    var states, more := trace[i + 1..j + 2], events[i + 1..j + 1];
    forall k | 0 <= k < |more| ensures StepAt(states, more, k) {
      assert StepAt(trace, events, i + 1 + k);
    }
    hide Step, IsShutOut;
    assert IsAcceptance(trace[i + 1], events[i].now, spellings, timestamp, states, more);
    if IsShutOut(trace[i + 1], spellings, timestamp, events[i].now) {
      ShutOutIsNotAccepted(trace[i + 1], events[i].now, spellings, timestamp, states, more);
    }
  }

  /** A signature with one spelling, stored while no other request with it waits, and stamped at most 59 seconds ahead
      of the second in which it was stored, is never accepted again. */
  lemma NeverTwice(trace: seq<State>, events: seq<Event>, since: nat, i: nat, j: nat, w: Waiting)
    requires IsRun(trace, events, since) && trace[0] == START && i < j < |events|
    requires Accepts(trace[i], events[i], {w.signature}) && FixesTimestamp(events, {w.signature}, w.timestamp)
    requires !IsAwaited(trace[i + 1], {w.signature}) && w.timestamp <= Seconds(events[i].now) as real + 59.0
    ensures !Accepts(trace[j], events[j], {w.signature})
  {
    assert StepAt(trace, events, i);
    SecondsAreMonotone(events[i].now, events[i].now);
    assert IsShutOut(trace[i + 1], {w.signature}, w.timestamp, events[i].now);
    hide IsShutOut, Step;
    if Accepts(trace[j], events[j], {w.signature}) {
      TwiceOnlyIf(trace, events, since, i, j, {w.signature}, w.timestamp);
    }
  }

  // ---------------------------------------------------------------- what the guard answers

  /** Step `j` lets a request with this header string in. */
  predicate LetsIn(trace: seq<State>, events: seq<Event>, j: int, signature: string)
    requires 0 <= j < |events| < |trace|
  {
    && events[j].Answered? && events[j].answer
    && events[j].task in trace[j].waiting && trace[j].waiting[events[j].task].signature == signature
  }

  /** What the guard remembers at moment `i` is what it let in, for two minutes each time. */
  ghost predicate RemembersRight(trace: seq<State>, events: seq<Event>, i: nat)
    requires i <= |events| < |trace|
  {
    && (forall signature :: signature in trace[i].used ==>
          exists j :: 0 <= j < i && LetsIn(trace, events, j, signature)
                      && trace[i].used[signature] == events[j].now + 120_000)
    && (forall j, signature :: 0 <= j < i && LetsIn(trace, events, j, signature) ==>
          || events[j].now + 120_000 <= events[i - 1].now
          || (signature in trace[i].used && events[j].now + 120_000 <= trace[i].used[signature]))
  }

  lemma StepForgetsRight(trace: seq<State>, events: seq<Event>, since: nat, i: nat, signature: string)
    requires IsRun(trace, events, since) && i < |events| && RemembersRight(trace, events, i)
    requires signature in trace[i + 1].used
    ensures exists j :: 0 <= j < i + 1 && LetsIn(trace, events, j, signature)
                        && trace[i + 1].used[signature] == events[j].now + 120_000
  {
    assert StepAt(trace, events, i);
    var s, t := trace[i], trace[i + 1];
    if signature in s.used && t.used[signature] == s.used[signature] {
      hide LetsIn, Step;
      var j :| 0 <= j < i && LetsIn(trace, events, j, signature) && s.used[signature] == events[j].now + 120_000;
    } else {
      assert LetsIn(trace, events, i, signature);
    }
  }

  lemma StepKeepsInMind(trace: seq<State>, events: seq<Event>, since: nat, i: nat, j: nat, signature: string)
    requires IsRun(trace, events, since) && i < |events| && RemembersRight(trace, events, i)
    requires j <= i && LetsIn(trace, events, j, signature)
    ensures || events[j].now + 120_000 <= events[i].now
            || (signature in trace[i + 1].used && events[j].now + 120_000 <= trace[i + 1].used[signature])
  {
    assert StepAt(trace, events, i);
    if j < i {
      assert events[j].now <= events[i - 1].now <= events[i].now;
      hide LetsIn;
    }
  }

  lemma StepRemembersRight(trace: seq<State>, events: seq<Event>, since: nat, i: nat)
    requires IsRun(trace, events, since) && i < |events| && RemembersRight(trace, events, i)
    ensures RemembersRight(trace, events, i + 1)
  {
    hide LetsIn, Step;
    var used := trace[i + 1].used;
    forall signature | signature in used
      ensures exists j :: 0 <= j < i + 1 && LetsIn(trace, events, j, signature)
                          && used[signature] == events[j].now + 120_000
    {
      StepForgetsRight(trace, events, since, i, signature);
    }
    forall j, signature | 0 <= j < i + 1 && LetsIn(trace, events, j, signature)
      ensures || events[j].now + 120_000 <= events[i].now
              || (signature in used && events[j].now + 120_000 <= used[signature])
    {
      StepKeepsInMind(trace, events, since, i, j, signature);
    }
  }

  lemma {:induction false} EveryRunRemembersRight(trace: seq<State>, events: seq<Event>, since: nat, i: nat)
    requires IsRun(trace, events, since) && trace[0] == START && i <= |events|
    ensures RemembersRight(trace, events, i)
  {
    hide LetsIn, Step;
    if i == 0 {
    } else {
      hide RemembersRight;
      EveryRunRemembersRight(trace, events, since, i - 1);
      StepRemembersRight(trace, events, since, i - 1);
    }
  }

  /** A request got to the lookup at step `k`: signed, at most 60 seconds off, under a header string that nothing was
      let in with in the last two minutes. */
  predicate GotThrough(trace: seq<State>, events: seq<Event>, k: int, task: nat, w: Waiting)
    requires 0 <= k < |events| < |trace|
  {
    && events[k].Entered? && events[k].task == task && events[k].isSigned
    && events[k].signature == w.signature && events[k].timestamp == w.timestamp
    && -60.0 <= (events[k].now / 1000) as real - w.timestamp <= 60.0
    && forall j :: 0 <= j < k && LetsIn(trace, events, j, w.signature) ==> events[j].now + 120_000 <= events[k].now
  }

  /** Whether a request goes on to the lookup, exactly. */
  lemma GoesOnIff(trace: seq<State>, events: seq<Event>, since: nat, k: nat)
    requires IsRun(trace, events, since) && trace[0] == START && k < |events| && events[k].Entered?
    ensures events[k].goesOn
            <==> GotThrough(trace, events, k, events[k].task, Waiting(events[k].signature, events[k].timestamp))
  {
    EveryRunRemembersRight(trace, events, since, k);
    assert StepAt(trace, events, k);
    var e, used := events[k], trace[k].used;
    if e.signature in used {
      var j :| 0 <= j < k && LetsIn(trace, events, j, e.signature) && used[e.signature] == events[j].now + 120_000;
    }
    forall j | 0 <= j < k && LetsIn(trace, events, j, e.signature)
      ensures events[j].now + 120_000 <= e.now || (e.signature in used && e.now < used[e.signature])
    {
      assert events[k - 1].now <= e.now;
    }
  }

  /** The request of this task got through at step `k`, and nothing has happened to it since. */
  predicate CameThrough(trace: seq<State>, events: seq<Event>, k: int, i: nat, task: nat, w: Waiting)
    requires i <= |events| < |trace|
  {
    0 <= k < i && GotThrough(trace, events, k, task, w) && forall m :: k < m < i ==> events[m].task != task
  }

  lemma {:induction false} WaitingCameThrough(trace: seq<State>, events: seq<Event>, since: nat, i: nat, task: nat)
    requires IsRun(trace, events, since) && trace[0] == START && i <= |events| && task in trace[i].waiting
    ensures exists k :: CameThrough(trace, events, k, i, task, trace[i].waiting[task])
  {
    if i == 0 {
      assert false;
    } else {
      assert StepAt(trace, events, i - 1);
      if events[i - 1].task == task {
        GoesOnIff(trace, events, since, i - 1);
        hide GotThrough;
        assert CameThrough(trace, events, i - 1, i, task, trace[i].waiting[task]);
      } else {
        hide GotThrough;
        WaitingCameThrough(trace, events, since, i - 1, task);
        var w := trace[i - 1].waiting[task];
        var k :| CameThrough(trace, events, k, i - 1, task, w);
        assert CameThrough(trace, events, k, i, task, w);
      }
    }
  }

  /** Over every run a request is let in if and only if it got to the lookup as above and the lookup found an active
      agent. */
  lemma AnswerIff(trace: seq<State>, events: seq<Event>, since: nat, i: nat)
    requires IsRun(trace, events, since) && trace[0] == START && i < |events| && events[i].Answered?
    ensures events[i].answer
            <==> events[i].isActive && exists k, w :: CameThrough(trace, events, k, i, events[i].task, w)
  {
    assert StepAt(trace, events, i);
    hide CameThrough;
    WaitingCameThrough(trace, events, since, i, events[i].task);
    var k :| CameThrough(trace, events, k, i, events[i].task, trace[i].waiting[events[i].task]);
  }

  // ---------------------------------------------------------------- runs that accept twice

  /** Two requests with one signature that overlap at the lookup are both accepted, whatever their timestamp. */
  lemma OverlapWitness(w: Waiting, now: nat) returns (trace: seq<State>, events: seq<Event>)
    requires IsFresh(w.timestamp, now)
    ensures IsRun(trace, events, now) && trace[0] == START && |events| == 4
    ensures FixesTimestamp(events, {w.signature}, w.timestamp)
    ensures Accepts(trace[2], events[2], {w.signature}) && Accepts(trace[3], events[3], {w.signature})
  {
    var first := Entered(0, w.signature, w.timestamp, true, now, true);
    var second := Entered(1, w.signature, w.timestamp, true, now, true);
    var used := Store(map[], w.signature, true, now).0;
    trace := [START, State(map[], map[0 := w]), State(map[], map[0 := w, 1 := w]), State(used, map[1 := w]),
              State(used, map[])];
    events := [first, second, Answered(0, true, now, true), Answered(1, true, now, true)];
    assert Pruned(map[], now) == map[];
    assert trace[2].waiting - {0} == trace[3].waiting && trace[3].waiting - {1} == trace[4].waiting;
    assert StepAt(trace, events, 0) && StepAt(trace, events, 1);
    assert StepAt(trace, events, 2) && StepAt(trace, events, 3);
  }

  /** One signed request under two spellings is accepted under each, one after the other. */
  lemma SpellingsWitness(a: Waiting, b: Waiting, now: nat) returns (trace: seq<State>, events: seq<Event>)
    requires a.signature != b.signature && a.timestamp == b.timestamp && IsFresh(a.timestamp, now)
    ensures IsRun(trace, events, now) && trace[0] == START && |events| == 4
    ensures FixesTimestamp(events, {a.signature, b.signature}, a.timestamp)
    ensures Accepts(trace[1], events[1], {a.signature}) && Accepts(trace[3], events[3], {b.signature})
    ensures !IsAwaited(trace[2], {a.signature, b.signature})
  {
    var used := Store(map[], a.signature, true, now).0;
    trace := [START, State(map[], map[0 := a]), State(used, map[]), State(used, map[0 := b]),
              State(Store(used, b.signature, true, now).0, map[])];
    events := [Entered(0, a.signature, a.timestamp, true, now, true), Answered(0, true, now, true),
               Entered(0, b.signature, b.timestamp, true, now, true), Answered(0, true, now, true)];
    assert Pruned(map[], now) == map[] && Pruned(used, now) == used;
    assert trace[1].waiting - {0} == map[] && trace[3].waiting - {0} == map[];
    assert StepAt(trace, events, 0) && StepAt(trace, events, 1);
    assert StepAt(trace, events, 2) && StepAt(trace, events, 3);
  }
}
