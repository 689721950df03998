/** The purchase queue over Postgres, where a report checks a copy of its row and its update arrives later: what
    the claims keep all the same, and exactly when a terminal request can still change. */
module PurchaseCopies {
  import opened Common
  import opened ActionStore
  import opened PurchaseQueue
  import opened PurchaseClaims
  import opened PurchaseProofs

  // ---------------------------------------------------------------- reports in three stretches

  datatype Report = OfProgress(progress: Progress) | OfResult(result: ResultReport)

  /** A report that has read its row, or one whose checks are over and whose update is on its way. */
  datatype UnderWay =
    | HasRead(agent: string, id: string, report: Report, copy: Request)
    | HasChecked(id: string, report: Report, row: Request)

  datatype Database = Database(queue: Queue, reports: map<nat, UnderWay>)

  /** The checks on the copy, against the action store of that moment, and the row they lead to. */
  function Reply(env: Env, store: Store, agent: string, id: string, report: Report, copy: Request, now: nat)
    : Result<Request, Error>
  {
    var seen := EMPTY_QUEUE.(rows := map[id := copy]);
    match report
    case OfProgress(progress) => ReportProgress(env, seen, store, agent, id, progress, now).1
    case OfResult(result) => ReportResult(env, seen, store, agent, id, result, now).1
  }

  /** The columns each update sets. */
  function Columns(current: Request, row: Request, report: Report): Request {
    var both := current.(status := row.status, actionId := row.actionId, decision := row.decision,
                         reasons := row.reasons, updatedAt := row.updatedAt);
    match report
    case OfProgress(_) => both
    case OfResult(_) => both.(transactionHash := row.transactionHash, response := row.response, error := row.error)
  }

  datatype Event =
      // everything but a report
    | Handled(e: QueueEvent)
    | ReportRead(task: nat, agent: string, id: string, report: Report)
    | ReportChecked(task: nat, now: nat)
    | ReportWritten(task: nat)

  /** The process forgets what it was about to check; an update already sent may still arrive. */
  function Sent(reports: map<nat, UnderWay>): map<nat, UnderWay> {
    map t | t in reports && reports[t].HasChecked? :: reports[t]
  }

  function Apply(env: Env, store: Store, s: Database, e: Event): Database {
    match e
    case Handled(h) =>
      s.(queue := ApplyToQueue(env, store, s.queue, h), reports := if h.Forgotten? then Sent(s.reports) else s.reports)
    case ReportRead(task, agent, id, report) =>
      if id !in s.queue.rows then s
      else s.(reports := s.reports[task := HasRead(agent, id, report, s.queue.rows[id])])
    case ReportChecked(task, now) =>
      if task !in s.reports || !s.reports[task].HasRead? then s
      else
        var r := s.reports[task];
        var reply := Reply(env, store, r.agent, r.id, r.report, r.copy, now);
        s.(reports := if reply.Ok? then s.reports[task := HasChecked(r.id, r.report, reply.value)]
                      else s.reports - {task})
    case ReportWritten(task) =>
      if task !in s.reports || !s.reports[task].HasChecked? then s
      else
        var r := s.reports[task];
        Database(if r.id in s.queue.rows
                 then s.queue.(rows := s.queue.rows[r.id := Columns(s.queue.rows[r.id], r.row, r.report)])
                 else s.queue,
                 s.reports - {task})
  }

  /** Reports come in stretches only, under fresh names. */
  ghost predicate IsProper(env: Env, s: Database, e: Event) {
    match e
    case Handled(h) => IsTimely(env, s.queue, h) && !h.Progressed? && !h.Resolved?
    case ReportRead(task, agent, _, _) => IsChecksummed(env, agent) && task !in s.reports
    case _ => true
  }

  ghost predicate StepAt(env: Env, trace: seq<Database>, events: seq<Event>, stores: seq<Store>, i: nat)
    requires i < |events| && i < |stores| && i + 1 < |trace|
  {
    IsProper(env, trace[i], events[i]) && trace[i + 1] == Apply(env, stores[i], trace[i], events[i])
  }

  /** A run from `start`; `stores[i]` is whatever the action store holds as `events[i]` happens. */
  ghost predicate IsRun(env: Env, start: Database, trace: seq<Database>, events: seq<Event>, stores: seq<Store>) {
    && |trace| == |events| + 1 && |stores| == |events|
    && trace[0] == start
    && forall i :: 0 <= i < |events| ==> StepAt(env, trace, events, stores, i)
  }

  const START := Database(EMPTY_QUEUE, map[])

  // ---------------------------------------------------------------- one report

  /** Read, checked and written with nothing in between, a report is the one on the live row. */
  lemma UndisturbedIsLive(env: Env, store: Store, s: Database, task: nat, agent: string, id: string, report: Report,
                          now: nat)
    requires task !in s.reports && id in s.queue.rows
    ensures var read := Apply(env, store, s, ReportRead(task, agent, id, report));
            var checked := Apply(env, store, read, ReportChecked(task, now));
            var written := Apply(env, store, checked, ReportWritten(task));
            var live := match report
                        case OfProgress(progress) => ReportProgress(env, s.queue, store, agent, id, progress, now)
                        case OfResult(result) => ReportResult(env, s.queue, store, agent, id, result, now);
            && written == Database(live.0, s.reports)
            && (live.1.Ok? <==> task in checked.reports)
  {
    hide Authorizes, SameOwner, IsExecutedBy, Utf8Length, Find;
    assert s.reports - {task} == s.reports;
    assert s.queue.(rows := s.queue.rows) == s.queue;
  }

  /** What a written report sets, column by column, on whatever its row is by then. */
  lemma WriteSets(env: Env, store: Store, s: Database, task: nat)
    requires task in s.reports && s.reports[task].HasChecked? && s.reports[task].id in s.queue.rows
    ensures var t, r := Apply(env, store, s, ReportWritten(task)), s.reports[task];
            && r.id in t.queue.rows && t == Database(s.queue.(rows := t.queue.rows), s.reports - {task})
            && t.queue.rows == s.queue.rows[r.id := t.queue.rows[r.id]]
            && var was, row := s.queue.rows[r.id], t.queue.rows[r.id];
               && row.id == was.id && row.userId == was.userId && row.agent == was.agent
               && row.resourceUrl == was.resourceUrl && row.createdAt == was.createdAt
               && row.status == r.row.status && row.actionId == r.row.actionId && row.decision == r.row.decision
               && row.reasons == r.row.reasons && row.updatedAt == r.row.updatedAt
               && row.transactionHash == (if r.report.OfResult? then r.row else was).transactionHash
               && row.response == (if r.report.OfResult? then r.row else was).response
               && row.error == (if r.report.OfResult? then r.row else was).error
  {
  }

  /** A process that ends forgets the reports it has not checked, and only those; nothing else touches them. */
  lemma ForgettingKeepsSentReports(env: Env, store: Store, s: Database, h: QueueEvent)
    ensures var t := Apply(env, store, s, Handled(h));
            && t.queue == ApplyToQueue(env, store, s.queue, h)
            && (!h.Forgotten? ==> t.reports == s.reports)
            && (h.Forgotten? ==>
                  && (forall k :: k in t.reports <==> k in s.reports && s.reports[k].HasChecked?)
                  && (forall k :: k in t.reports ==> t.reports[k] == s.reports[k]))
  {
    hide ApplyToQueue;
  }

  // ---------------------------------------------------------------- claims

  lemma ReplyIsDequeued(env: Env, store: Store, agent: string, id: string, report: Report, copy: Request, now: nat)
    ensures var reply := Reply(env, store, agent, id, report, copy, now);
            reply.Ok? ==>
              && copy.status != Queued && !IsTerminal(copy.status)
              && reply.value.status != Queued
  {
    hide Authorizes, SameOwner, IsExecutedBy, Utf8Length, Find;
  }

  /** Reports under way are about requests that were handed out. */
  predicate IsDequeued(q: Queue, r: UnderWay) {
    && r.id in q.rows
    && match r
       case HasRead(_, _, _, copy) => copy.status != Queued ==> q.rows[r.id].status != Queued
       case HasChecked(_, _, row) => row.status != Queued && q.rows[r.id].status != Queued
  }

  ghost predicate AreDequeued(s: Database) {
    forall task :: task in s.reports ==> IsDequeued(s.queue, s.reports[task])
  }

  ghost predicate Sound(s: Database) { Orderly(s.queue) && AreDequeued(s) }

  /** What is out of the queue stays out. */
  ghost predicate StaysOut(q: Queue, t: Queue) {
    forall k :: k in q.rows ==> k in t.rows && (q.rows[k].status != Queued ==> t.rows[k].status != Queued)
  }

  lemma AdvancingStaysOut(q: Queue, t: Queue)
    requires QueueAdvances(q, t)
    ensures StaysOut(q, t)
  {
    forall k | k in q.rows ensures k in t.rows && (q.rows[k].status != Queued ==> t.rows[k].status != Queued) {
      assert RowAdvances(q.rows[k], t.rows[k]);
    }
  }

  lemma DequeuedStays(s: Database, q: Queue)
    requires AreDequeued(s) && StaysOut(s.queue, q)
    ensures AreDequeued(s.(queue := q))
  {
    forall task | task in s.reports ensures IsDequeued(q, s.reports[task]) {
      assert IsDequeued(s.queue, s.reports[task]);
    }
  }

  lemma HandledKeepsSound(env: Env, store: Store, s: Database, h: QueueEvent)
    requires Sound(s) && IsTimely(env, s.queue, h)
    ensures Sound(Apply(env, store, s, Handled(h)))
  {
    hide Orderly, ApplyToQueue, IsTimely, StaysOut, QueueAdvances;
    QueueStepKeepsOrderly(env, store, s.queue, h);
    QueueStepAdvances(env, store, s.queue, h);
    AdvancingStaysOut(s.queue, ApplyToQueue(env, store, s.queue, h));
    DequeuedStays(s, ApplyToQueue(env, store, s.queue, h));
  }

  lemma CheckKeepsSound(env: Env, store: Store, s: Database, task: nat, now: nat)
    requires Sound(s)
    ensures Sound(Apply(env, store, s, ReportChecked(task, now)))
  {
    hide Orderly, Reply;
    if task in s.reports && s.reports[task].HasRead? {
      var r := s.reports[task];
      ReplyIsDequeued(env, store, r.agent, r.id, r.report, r.copy, now);
      assert IsDequeued(s.queue, r);
    }
  }

  lemma WriteKeepsSound(env: Env, store: Store, s: Database, task: nat)
    requires Sound(s)
    ensures Sound(Apply(env, store, s, ReportWritten(task)))
  {
    hide Orderly;
    if task in s.reports && s.reports[task].HasChecked? {
      var r := s.reports[task];
      assert IsDequeued(s.queue, r);
      var row := Columns(s.queue.rows[r.id], r.row, r.report);
      RowUpdateKeepsOrderly(s.queue, r.id, row);
      DequeuedStays(s, s.queue.(rows := s.queue.rows[r.id := row]));
    }
  }

  lemma StepKeepsSound(env: Env, store: Store, s: Database, e: Event)
    requires Sound(s) && IsProper(env, s, e)
    ensures Sound(Apply(env, store, s, e))
  {
    match e
    case Handled(h) =>
      hide Sound, Apply;
      HandledKeepsSound(env, store, s, h);
    case ReportRead(_, _, _, _) =>
      hide Orderly;
    case ReportChecked(task, now) =>
      hide Sound, Apply;
      CheckKeepsSound(env, store, s, task, now);
    case ReportWritten(task) =>
      hide Sound, Apply;
      WriteKeepsSound(env, store, s, task);
  }

  /** Reports on copies disturb no claim: the queue is in order over every run. */
  lemma {:induction false} EveryRunIsSound(env: Env, trace: seq<Database>, events: seq<Event>, stores: seq<Store>,
                                           i: nat)
    requires IsRun(env, START, trace, events, stores) && i < |trace|
    ensures Sound(trace[i])
    decreases i
  {
    hide Sound, Apply, IsProper;
    if i == 0 {
      StartIsSound();
    } else {
      EveryRunIsSound(env, trace, events, stores, i - 1);
      assert StepAt(env, trace, events, stores, i - 1);
      StepKeepsSound(env, stores[i - 1], trace[i - 1], events[i - 1]);
    }
  }

  lemma StartIsSound()
    ensures Sound(START)
  {
  }

  /** At every moment of every such run, every agent is served. */
  lemma ClaimsAreServedInOrder(env: Env, trace: seq<Database>, events: seq<Event>, stores: seq<Store>, i: nat,
                               agent: string)
    requires IsRun(env, START, trace, events, stores) && i < |trace|
    ensures IsServed(trace[i].queue, agent)
  {
    hide IsRun, Orderly, IsServed;
    EveryRunIsSound(env, trace, events, stores, i);
    OrderlyServes(trace[i].queue, agent);
  }

  // ---------------------------------------------------------------- terminal requests

  /** A report whose update, once it arrives, changes the row. */
  ghost predicate Changes(env: Env, r: UnderWay, current: Request) {
    match r
    case HasRead(agent, id, report, copy) =>
      exists store, now :: RepliesWithChange(env, store, agent, id, report, copy, now, current)
    case HasChecked(_, report, row) => Columns(current, row, report) != current
  }

  predicate RepliesWithChange(env: Env, store: Store, agent: string, id: string, report: Report, copy: Request,
                              now: nat, current: Request)
  {
    var reply := Reply(env, store, agent, id, report, copy, now);
    reply.Ok? && Columns(current, reply.value, report) != current
  }

  /** A report under way that changes this request: one that read the row before it was terminal. */
  ghost predicate HasPending(env: Env, s: Database, k: string)
    requires k in s.queue.rows
  {
    exists task :: task in s.reports && s.reports[task].id == k && Changes(env, s.reports[task], s.queue.rows[k])
  }

  ghost predicate IsSettledFor(env: Env, s: Database, k: string, row: Request) {
    k in s.queue.rows && s.queue.rows[k] == row && !HasPending(env, s, k)
  }

  lemma StepKeepsSettled(env: Env, store: Store, s: Database, e: Event, k: string, row: Request)
    requires IsProper(env, s, e) && IsSettledFor(env, s, k, row) && IsTerminal(row.status)
    ensures IsSettledFor(env, Apply(env, store, s, e), k, row)
  {
    match e
    case Handled(h) =>
      hide ApplyToQueue, IsTimely, QueueAdvances, Changes;
      QueueStepAdvances(env, store, s.queue, h);
      TerminalRowsStand(s.queue, ApplyToQueue(env, store, s.queue, h), k);
    case ReportRead(task, agent, id, report) =>
      hide Reply;
      forall other, now ensures id == k ==> Reply(env, other, agent, id, report, row, now).Err? {
        ReplyIsDequeued(env, other, agent, id, report, row, now);
      }
    case ReportChecked(task, now) =>
      hide Reply;
      if task in s.reports && s.reports[task].HasRead? && s.reports[task].id == k {
        var r := s.reports[task];
        assert !RepliesWithChange(env, store, r.agent, r.id, r.report, r.copy, now, row);
      }
    case ReportWritten(task) =>
      hide Reply, Columns;
  }

  /** Without one, the request is as it is for good. */
  lemma {:induction false} SettledForGood(env: Env, start: Database, trace: seq<Database>, events: seq<Event>,
                                          stores: seq<Store>, i: nat, k: string)
    requires IsRun(env, start, trace, events, stores) && i < |trace|
    requires k in start.queue.rows && IsTerminal(start.queue.rows[k].status) && !HasPending(env, start, k)
    ensures IsSettledFor(env, trace[i], k, start.queue.rows[k])
    decreases i
  {
    hide IsSettledFor, Apply, IsProper, HasPending;
    if i == 0 {
      SettledNow(env, start, k);
    } else {
      SettledForGood(env, start, trace, events, stores, i - 1, k);
      assert StepAt(env, trace, events, stores, i - 1);
      StepKeepsSettled(env, stores[i - 1], trace[i - 1], events[i - 1], k, start.queue.rows[k]);
    }
  }

  lemma SettledNow(env: Env, s: Database, k: string)
    requires k in s.queue.rows && !HasPending(env, s, k)
    ensures IsSettledFor(env, s, k, s.queue.rows[k])
  {
  }

  /** A way to change a request from here on. */
  ghost predicate IsChange(env: Env, start: Database, k: string, trace: seq<Database>, events: seq<Event>,
                           stores: seq<Store>)
    requires k in start.queue.rows
  {
    && IsRun(env, start, trace, events, stores)
    && var last := trace[|events|].queue.rows;
       k !in last || last[k] != start.queue.rows[k]
  }

  ghost predicate CanChange(env: Env, start: Database, k: string)
    requires k in start.queue.rows
  {
    exists trace, events, stores :: IsChange(env, start, k, trace, events, stores)
  }

  lemma CheckedCanChange(env: Env, s: Database, k: string, task: nat)
    requires k in s.queue.rows && task in s.reports && s.reports[task].id == k && s.reports[task].HasChecked?
    requires Changes(env, s.reports[task], s.queue.rows[k])
    ensures CanChange(env, s, k)
  {
    hide Columns;
    var e := ReportWritten(task);
    var t := Apply(env, EMPTY, s, e);
    assert StepAt(env, [s, t], [e], [EMPTY], 0);
    assert IsChange(env, s, k, [s, t], [e], [EMPTY]);
  }

  lemma ReadCanChange(env: Env, s: Database, k: string, task: nat)
    requires k in s.queue.rows && task in s.reports && s.reports[task].id == k && s.reports[task].HasRead?
    requires Changes(env, s.reports[task], s.queue.rows[k])
    ensures CanChange(env, s, k)
  {
    hide Columns, Reply;
    var r := s.reports[task];
    var store, now :| RepliesWithChange(env, store, r.agent, r.id, r.report, r.copy, now, s.queue.rows[k]);
    var e, f := ReportChecked(task, now), ReportWritten(task);
    var t := Apply(env, store, s, e);
    var u := Apply(env, store, t, f);
    var trace, events, stores := [s, t, u], [e, f], [store, store];
    assert StepAt(env, trace, events, stores, 0) && StepAt(env, trace, events, stores, 1);
    assert IsChange(env, s, k, trace, events, stores);
  }

  /** The exact boundary: a terminal request can still change if and only if a report that read its row before it was
      terminal, and would be accepted on that copy, is under way. */
  lemma TerminalCanChangeIff(env: Env, s: Database, k: string)
    requires k in s.queue.rows && IsTerminal(s.queue.rows[k].status)
    ensures CanChange(env, s, k) <==> HasPending(env, s, k)
  {
    hide Changes, Apply, IsProper, IsRun;
    if HasPending(env, s, k) {
      var task :| task in s.reports && s.reports[task].id == k && Changes(env, s.reports[task], s.queue.rows[k]);
      if s.reports[task].HasChecked? {
        CheckedCanChange(env, s, k, task);
      } else {
        ReadCanChange(env, s, k, task);
      }
    } else {
      forall trace, events, stores | IsChange(env, s, k, trace, events, stores) ensures false {
        RunKeepsItsLength(env, s, trace, events, stores);
        SettledForGood(env, s, trace, events, stores, |events|, k);
      }
    }
  }

  lemma RunKeepsItsLength(env: Env, s: Database, trace: seq<Database>, events: seq<Event>, stores: seq<Store>)
    requires IsRun(env, s, trace, events, stores)
    ensures |trace| == |events| + 1
  {
  }

  /** Only copies read in time are dangerous: a report that finds the row terminal is refused, whatever happens. */
  lemma LateReadersAreRefused(env: Env, store: Store, agent: string, id: string, report: Report, copy: Request,
                              now: nat)
    requires IsTerminal(copy.status)
    ensures Reply(env, store, agent, id, report, copy, now).Err?
  {
    ReplyIsDequeued(env, store, agent, id, report, copy, now);
    hide Reply;
  }

  // ---------------------------------------------------------------- a run in which one changes

  function Ending(status: RequestStatus): Report {
    OfResult(ResultReport(status, None, None, None, None, None, None))
  }

  /** A request handed out. */
  function HandingOut(agent: string, id: string): seq<Event> {
    [Handled(Enqueued(id, "", agent, "", 0)), Handled(Arrived(agent, 0)), Handled(TurnRead(agent)),
     Handled(TurnWritten(agent, 0))]
  }

  lemma HandedOutSteps(env: Env, agent: string, id: string) returns (trace: seq<Database>)
    requires IsChecksummed(env, agent)
    ensures |trace| == 5 && trace[0] == START && trace[4].reports == map[]
    ensures forall i :: 0 <= i < 4 ==>
              IsProper(env, trace[i], HandingOut(agent, id)[i])
              && trace[i + 1] == Apply(env, EMPTY, trace[i], HandingOut(agent, id)[i])
    ensures trace[4].queue.rows == map[id := NewRequest(id, "", agent, "", 0).(status := Processing)]
  {
    hide OldestQueued, Enqueue, Arrive, Read, Write, MayRead, MayWrite;
    ClaimedRequest(agent, id, 0);
    var q1 := Enqueue(EMPTY_QUEUE, id, "", agent, "", 0);
    var q2 := Arrive(q1, agent, 0);
    var q3 := Read(q2, agent).0;
    var q4 := Write(q3, agent, 0).0;
    trace := [START, Database(q1, map[]), Database(q2, map[]), Database(q3, map[]), Database(q4, map[])];
  }

  /** A report of an end that needs no proof, on a row being processed. */
  lemma EndingIsAccepted(env: Env, agent: string, id: string, status: RequestStatus, copy: Request)
    requires IsChecksummed(env, agent) && copy.agent == agent && copy.status == Processing
    requires status == Failed || status == Expired || status == Rejected
    ensures Ending(status).OfResult?
    ensures Reply(env, EMPTY, agent, id, Ending(status), copy, 0)
            == Ok(WithResult(copy, Ending(status).result, 0))
  {
    hide Utf8Length, IsExecutedBy;
  }

  function BothChecked(agent: string, id: string): seq<Event> {
    [ReportRead(1, agent, id, Ending(Failed)), ReportRead(2, agent, id, Ending(Expired)), ReportChecked(1, 0),
     ReportChecked(2, 0)]
  }

  function End(id: string, status: RequestStatus, copy: Request): UnderWay {
    HasChecked(id, Ending(status), WithResult(copy, ResultReport(status, None, None, None, None, None, None), 0))
  }

  lemma CheckingSteps(env: Env, agent: string, id: string, start: Database) returns (trace: seq<Database>)
    requires IsChecksummed(env, agent) && start.reports == map[] && id in start.queue.rows
    requires start.queue.rows[id].agent == agent && start.queue.rows[id].status == Processing
    ensures |trace| == 5 && trace[0] == start
    ensures forall i :: 0 <= i < 4 ==>
              IsProper(env, trace[i], BothChecked(agent, id)[i])
              && trace[i + 1] == Apply(env, EMPTY, trace[i], BothChecked(agent, id)[i])
    ensures var copy := start.queue.rows[id];
            trace[4] == Database(start.queue, map[1 := End(id, Failed, copy), 2 := End(id, Expired, copy)])
  {
    hide IsTimely, ApplyToQueue, Reply, Columns, WithResult;
    var copy := start.queue.rows[id];
    EndingIsAccepted(env, agent, id, Failed, copy);
    EndingIsAccepted(env, agent, id, Expired, copy);
    var events := BothChecked(agent, id);
    var d1 := Apply(env, EMPTY, start, events[0]);
    var d2 := Apply(env, EMPTY, d1, events[1]);
    var d3 := Apply(env, EMPTY, d2, events[2]);
    var d4 := Apply(env, EMPTY, d3, events[3]);
    trace := [start, d1, d2, d3, d4];
  }

  function BothWritten(): seq<Event> { [ReportWritten(1), ReportWritten(2)] }

  lemma WritingSteps(env: Env, id: string, copy: Request, start: Database) returns (trace: seq<Database>)
    requires id in start.queue.rows
    requires start.reports == map[1 := End(id, Failed, copy), 2 := End(id, Expired, copy)]
    ensures |trace| == 3 && trace[0] == start
    ensures forall i :: 0 <= i < 2 ==>
              IsProper(env, trace[i], BothWritten()[i])
              && trace[i + 1] == Apply(env, EMPTY, trace[i], BothWritten()[i])
    ensures id in trace[1].queue.rows && trace[1].queue.rows[id].status == Failed
    ensures id in trace[2].queue.rows && trace[2].queue.rows[id].status == Expired
  {
    hide IsTimely, ApplyToQueue, Reply;
    var events := BothWritten();
    var d1 := Apply(env, EMPTY, start, events[0]);
    var d2 := Apply(env, EMPTY, d1, events[1]);
    trace := [start, d1, d2];
  }

  /** Two reports read a request that is being processed; both pass their checks; the second to arrive overwrites the
      end the first had written. */
  lemma OverwrittenWitness(env: Env, agent: string, id: string)
    returns (trace: seq<Database>, events: seq<Event>, stores: seq<Store>)
    requires IsChecksummed(env, agent)
    ensures IsRun(env, START, trace, events, stores) && |events| == 10
    ensures id in trace[9].queue.rows && trace[9].queue.rows[id].status == Failed
    ensures id in trace[10].queue.rows && trace[10].queue.rows[id].status == Expired
  {
    hide IsProper, Apply;
    var handed := HandedOutSteps(env, agent, id);
    var checked := CheckingSteps(env, agent, id, handed[4]);
    var late := WritingSteps(env, id, handed[4].queue.rows[id], checked[4]);
    trace := handed[..4] + checked[..4] + late;
    events := HandingOut(agent, id) + BothChecked(agent, id) + BothWritten();
    stores := seq(10, i => EMPTY);
    forall i | 0 <= i < 10 ensures StepAt(env, trace, events, stores, i) {
      if i < 4 {
        assert events[i] == HandingOut(agent, id)[i];
      } else if i < 8 {
        assert events[i] == BothChecked(agent, id)[i - 4];
      } else {
        assert events[i] == BothWritten()[i - 8];
      }
    }
  }
}
