/** The purchase-request table and its claim protocol: claims of one agent take turns, each turn a
    read followed by a conditional write, interleaved with everything else. */
module PurchaseQueue {
  import opened Common
  import opened ActionStore
  import opened Normaliser
  import X402

  // ---------------------------------------------------------------- data

  datatype RequestStatus = Queued | Processing | Authorized | Paid | Blocked | Rejected | Expired | Failed

  predicate IsTerminal(s: RequestStatus) {
    s == Paid || s == Blocked || s == Rejected || s == Expired || s == Failed
  }

  datatype Request = Request(
    id: string,
    userId: string,
    agent: string,
    resourceUrl: string,
    status: RequestStatus,
    actionId: Option<string>,
    decision: Option<Decision>,
    reasons: seq<string>,
    transactionHash: Option<string>,
    response: Option<string>,
    error: Option<string>,
    createdAt: nat,
    updatedAt: nat)

  /** `order` is the table's insertion order. `locks` queues the claims of each agent, the head being the
      one whose turn it is; `cursors` holds what that claim read; `handed` is the history of what each
      agent was given. Agents are checksummed addresses. */
  datatype Queue = Queue(
    order: seq<string>,
    rows: map<string, Request>,
    locks: map<string, seq<nat>>,
    cursors: map<string, string>,
    handed: map<string, seq<string>>)

  const EMPTY_QUEUE := Queue([], map[], map[], map[], map[])

  datatype Error = BadRequest | NotFound | Forbidden | Conflict

  datatype Progress = Progress(actionId: string, decision: Decision, reasons: seq<string>)

  datatype ResultReport = ResultReport(
    status: RequestStatus,
    actionId: Option<string>,
    decision: Option<Decision>,
    reasons: Option<seq<string>>,
    transactionHash: Option<string>,
    response: Option<string>,
    error: Option<string>)

  const MAX_RESPONSE_BYTES: nat := 32 * 1024

  // ---------------------------------------------------------------- reading the table

  /** The agent's requests in insertion order. */
  function Mine(order: seq<string>, rows: map<string, Request>, agent: string): seq<string> {
    if order == [] then []
    else
      var last := order[|order| - 1];
      Mine(order[..|order| - 1], rows, agent)
      + if last in rows && rows[last].agent == agent then [last] else []
  }

  /** Those of them that were handed out. */
  function Taken(order: seq<string>, rows: map<string, Request>, agent: string): seq<string> {
    if order == [] then []
    else
      var last := order[|order| - 1];
      Taken(order[..|order| - 1], rows, agent)
      + if last in rows && rows[last].agent == agent && rows[last].status != Queued then [last] else []
  }

  function FirstQueued(ids: seq<string>, rows: map<string, Request>): Option<string> {
    if ids == [] then None
    else if ids[0] in rows && rows[ids[0]].status == Queued then Some(ids[0])
    else FirstQueued(ids[1..], rows)
  }

  function CreatedAt(rows: map<string, Request>, id: string): nat {
    if id in rows then rows[id].createdAt else 0
  }

  function InsertByCreation(ids: seq<string>, id: string, rows: map<string, Request>): seq<string> {
    if ids == [] || CreatedAt(rows, ids[|ids| - 1]) <= CreatedAt(rows, id) then ids + [id]
    else InsertByCreation(ids[..|ids| - 1], id, rows) + [ids[|ids| - 1]]
  }

  /** `ORDER BY created_at ASC`, equal timestamps staying in insertion order. */
  function SortByCreation(ids: seq<string>, rows: map<string, Request>): seq<string> {
    if ids == [] then []
    else InsertByCreation(SortByCreation(ids[..|ids| - 1], rows), ids[|ids| - 1], rows)
  }

  function OldestQueued(q: Queue, agent: string): Option<string> {
    FirstQueued(SortByCreation(Mine(q.order, q.rows, agent), q.rows), q.rows)
  }

  function TurnOf(q: Queue, agent: string): seq<nat> { if agent in q.locks then q.locks[agent] else [] }

  function HandedTo(q: Queue, agent: string): seq<string> { if agent in q.handed then q.handed[agent] else [] }

  // ---------------------------------------------------------------- steps

  function NewRequest(id: string, userId: string, agent: string, resourceUrl: string, now: nat): Request {
    Request(id, userId, agent, resourceUrl, Queued, None, None, [], None, None, None, now, now)
  }

  function Enqueue(q: Queue, id: string, userId: string, agent: string, resourceUrl: string, now: nat): Queue {
    q.(order := q.order + [id], rows := q.rows[id := NewRequest(id, userId, agent, resourceUrl, now)])
  }

  /** A claim arrives and joins its agent's queue. */
  function Arrive(q: Queue, agent: string, claim: nat): Queue {
    q.(locks := q.locks[agent := TurnOf(q, agent) + [claim]])
  }

  predicate MayRead(q: Queue, agent: string) { TurnOf(q, agent) != [] && agent !in q.cursors }

  function Leave(q: Queue, agent: string): Queue
    requires TurnOf(q, agent) != []
  {
    q.(locks := q.locks[agent := q.locks[agent][1..]], cursors := q.cursors - {agent})
  }

  /** The head claim reads; finding nothing queued, it answers null and leaves. */
  function Read(q: Queue, agent: string): (Queue, Option<Option<string>>)
    requires MayRead(q, agent)
  {
    var oldest := OldestQueued(q, agent);
    if oldest.None? then (Leave(q, agent), Some(None))
    else (q.(cursors := q.cursors[agent := oldest.value]), None)
  }

  predicate MayWrite(q: Queue, agent: string) { TurnOf(q, agent) != [] && agent in q.cursors }

  predicate IsQueued(q: Queue, id: string) { id in q.rows && q.rows[id].status == Queued }

  /** The head claim writes, provided the row it read is still queued; otherwise it answers null. */
  function Write(q: Queue, agent: string, now: nat): (Queue, Option<string>)
    requires MayWrite(q, agent)
  {
    var id := q.cursors[agent];
    if !IsQueued(q, id) then (Leave(q, agent), None)
    else
      (Leave(q, agent).(rows := q.rows[id := q.rows[id].(status := Processing, updatedAt := now)],
                        handed := q.handed[agent := HandedTo(q, agent) + [id]]),
       Some(id))
  }

  /** The purchase service's address comparison: by checksum, or by case when one does not parse. */
  predicate SameOwner(env: Env, a: string, b: string) {
    var x, y := env.getAddress(a), env.getAddress(b);
    if x.Some? && y.Some? then x == y else ToLower(a) == ToLower(b)
  }

  function NonSpacePrefix(s: string): string {
    if s == "" || IsSpace(s[0]) then "" else [s[0]] + NonSpacePrefix(s[1..])
  }

  /** The justification starts with `x402: `, then a URL that starts with the resource's. */
  predicate Authorizes(justification: string, resourceUrl: string) {
    && X402.HasPrefix(justification)
    && var url := NonSpacePrefix(justification[|X402.PREFIX|..]);
       url != "" && resourceUrl <= url
  }

  /** The request pipe refuses an empty action id. */
  function ReportProgress(env: Env, q: Queue, store: Store, agent: string, id: string, dto: Progress, now: nat)
    : (Queue, Result<Request, Error>)
  {
    if dto.actionId == "" then (q, Err(BadRequest))
    else if id !in q.rows then (q, Err(NotFound))
    else
      var row := q.rows[id];
      var action := Find(store, dto.actionId);
      if !SameOwner(env, row.agent, agent) then (q, Err(Forbidden))
      else if row.status != Processing then (q, Err(BadRequest))
      else if action.None? || !SameOwner(env, action.value.agentAddress, agent) then (q, Err(BadRequest))
      else if !Authorizes(action.value.justification, row.resourceUrl) then (q, Err(BadRequest))
      else
        var updated := row.(status := Authorized, actionId := Some(dto.actionId),
                            decision := Some(dto.decision), reasons := dto.reasons, updatedAt := now);
        (q.(rows := q.rows[id := updated]), Ok(updated))
  }

  /** What the backend itself must know before a request counts as PAID. */
  predicate IsExecutedBy(env: Env, store: Store, agent: string, dto: ResultReport) {
    && dto.actionId.Some? && dto.actionId.value != ""
    && dto.transactionHash.Some? && dto.transactionHash.value != ""
    && var action := Find(store, dto.actionId.value);
       && action.Some?
       && SameOwner(env, action.value.agentAddress, agent)
       && action.value.status == EXECUTED
       && action.value.txHash.Some? && action.value.txHash.value != ""
       && ToLower(action.value.txHash.value) == ToLower(dto.transactionHash.value)
  }

  function WithResult(row: Request, dto: ResultReport, now: nat): Request {
    row.(status := dto.status,
         actionId := Truthy(if dto.actionId.Some? then dto.actionId else row.actionId, None),
         decision := if dto.decision.Some? then dto.decision else row.decision,
         reasons := if dto.reasons.Some? then dto.reasons.value else row.reasons,
         transactionHash := if dto.transactionHash.Some? && dto.transactionHash.value != ""
                            then Some(ToLower(dto.transactionHash.value)) else row.transactionHash,
         response := Truthy(dto.response, None),
         error := Truthy(dto.error, None),
         updatedAt := now)
  }

  /** The length of a text in UTF-8. */
  function Utf8Length(s: string): nat {
    if s == "" then 0
    else
      var c := s[0] as int;
      (if c < 0x80 then 1 else if c < 0x800 then 2 else if c < 0x1_0000 then 3 else 4) + Utf8Length(s[1..])
  }

  /** Why a result is turned away; the request pipe admits terminal statuses only. */
  function Refusal(env: Env, q: Queue, store: Store, agent: string, id: string, dto: ResultReport): (r: Option<Error>)
    ensures r.None? ==> id in q.rows
  {
    if !IsTerminal(dto.status) then Some(BadRequest)
    else if id !in q.rows then Some(NotFound)
    else if !SameOwner(env, q.rows[id].agent, agent) then Some(Forbidden)
    else if IsTerminal(q.rows[id].status) then Some(Conflict)
    else if q.rows[id].status != Processing && q.rows[id].status != Authorized then Some(BadRequest)
    else if dto.status == Paid && !IsExecutedBy(env, store, agent, dto) then Some(BadRequest)
    else if dto.status == Blocked && dto.decision != Some(BLOCK) then Some(BadRequest)
    else if dto.response.Some? && Utf8Length(dto.response.value) > MAX_RESPONSE_BYTES then Some(BadRequest)
    else None
  }

  function ReportResult(env: Env, q: Queue, store: Store, agent: string, id: string, dto: ResultReport, now: nat)
    : (Queue, Result<Request, Error>)
  {
    var refusal := Refusal(env, q, store, agent, id, dto);
    if refusal.Some? then (q, Err(refusal.value))
    else
      var updated := WithResult(q.rows[id], dto, now);
      (q.(rows := q.rows[id := updated]), Ok(updated))
  }

  // ---------------------------------------------------------------- the service

  class X402PurchaseRequestsService {
    const env: Env
    const actionStore: ActionStoreService
    var order: seq<string>
    var rows: map<string, Request>
    var claimLocks: map<string, seq<nat>>
    var cursors: map<string, string>
    ghost var handed: map<string, seq<string>>

    ghost function View(): Queue
      reads this
    {
      Queue(order, rows, claimLocks, cursors, handed)
    }

    constructor (env: Env, store: ActionStoreService)
      ensures this.env == env && actionStore == store
      ensures View() == EMPTY_QUEUE
    {
      this.env := env;
      actionStore := store;
      order, rows, claimLocks, cursors, handed := [], map[], map[], map[], map[];
    }

    method InsertRequest(id: string, userId: string, agent: string, resourceUrl: string, now: nat)
      modifies this
      ensures View() == Enqueue(old(View()), id, userId, agent, resourceUrl, now)
    {
      var row := Request(id, userId, agent, resourceUrl, Queued, None, None, [], None, None, None, now, now);
      order := order + [id];
      rows := rows[id := row];
    }

    method QueueClaim(agent: string, claim: nat)
      modifies this
      ensures View() == Arrive(old(View()), agent, claim)
    {
      var previous := if agent in claimLocks then claimLocks[agent] else [];
      claimLocks := claimLocks[agent := previous + [claim]];
    }

    /** The turn's query. `Some(None)` is the answer null; `None` means the claim goes on. */
    method ClaimRead(agent: string) returns (answer: Option<Option<string>>)
      requires MayRead(View(), agent)
      modifies this
      ensures (View(), answer) == Read(old(View()), agent)
    {
      var requests := SortByCreation(Mine(order, rows, agent), rows);
      var i := 0;
      assert requests[0..] == requests;
      while i < |requests|
        invariant 0 <= i <= |requests|
        invariant View() == old(View())
        invariant FirstQueued(requests, rows) == FirstQueued(requests[i..], rows)
      {
        if requests[i] in rows && rows[requests[i]].status == Queued {
          cursors := cursors[agent := requests[i]];
          return None;
        }
        assert requests[i..][1..] == requests[i + 1..];
        i := i + 1;
      }
      claimLocks := claimLocks[agent := claimLocks[agent][1..]];
      assert cursors - {agent} == cursors;
      answer := Some(None);
    }

    /** The turn's conditional update. */
    method ClaimWrite(agent: string, now: nat) returns (claimed: Option<string>)
      requires MayWrite(View(), agent)
      modifies this
      ensures (View(), claimed) == Write(old(View()), agent, now)
    {
      var id := cursors[agent];
      cursors := cursors - {agent};
      claimLocks := claimLocks[agent := claimLocks[agent][1..]];
      if id !in rows || rows[id].status != Queued {
        return None;
      }
      rows := rows[id := rows[id].(status := Processing, updatedAt := now)];
      handed := handed[agent := (if agent in handed then handed[agent] else []) + [id]];
      claimed := Some(id);
    }

    method Report(agent: string, id: string, dto: Progress, now: nat) returns (reply: Result<Request, Error>)
      modifies this, actionStore`actions
      ensures (View(), reply) == ReportProgress(env, old(View()), old(actionStore.View()), agent, id, dto, now)
    {
      if dto.actionId == "" {
        return Err(BadRequest);
      }
      if id !in rows {
        return Err(NotFound);
      }
      var row := rows[id];
      if !SameOwner(env, row.agent, agent) {
        return Err(Forbidden);
      }
      if row.status != Processing {
        return Err(BadRequest);
      }
      var action := actionStore.GetAction(dto.actionId);
      if action.None? || !SameOwner(env, action.value.agentAddress, agent) {
        return Err(BadRequest);
      }
      if !Authorizes(action.value.justification, row.resourceUrl) {
        return Err(BadRequest);
      }
      row := row.(status := Authorized, actionId := Some(dto.actionId),
                  decision := Some(dto.decision), reasons := dto.reasons, updatedAt := now);
      rows := rows[id := row];
      reply := Ok(row);
    }

    method IsPaidResultBacked(agent: string, dto: ResultReport) returns (backed: bool)
      modifies actionStore`actions
      ensures backed <==> IsExecutedBy(env, old(actionStore.View()), agent, dto)
    {
      if || dto.actionId.None? || dto.actionId.value == ""
         || dto.transactionHash.None? || dto.transactionHash.value == "" {
        return false;
      }
      var action := actionStore.GetAction(dto.actionId.value);
      backed := && action.Some?
                && SameOwner(env, action.value.agentAddress, agent)
                && action.value.status == EXECUTED
                && action.value.txHash.Some? && action.value.txHash.value != ""
                && ToLower(action.value.txHash.value) == ToLower(dto.transactionHash.value);
    }

    method RefuseResult(agent: string, id: string, dto: ResultReport) returns (refusal: Option<Error>)
      modifies actionStore`actions
      ensures refusal == Refusal(env, View(), old(actionStore.View()), agent, id, dto)
    {
      hide IsExecutedBy, SameOwner;
      if !IsTerminal(dto.status) {
        return Some(BadRequest);
      }
      if id !in rows {
        return Some(NotFound);
      }
      var row := rows[id];
      if !SameOwner(env, row.agent, agent) {
        return Some(Forbidden);
      }
      if row.status in {Paid, Blocked, Rejected, Expired, Failed} {
        return Some(Conflict);
      }
      if row.status != Processing && row.status != Authorized {
        return Some(BadRequest);
      }
      if dto.status == Paid {
        var backed := IsPaidResultBacked(agent, dto);
        if !backed {
          return Some(BadRequest);
        }
      }
      if dto.status == Blocked && dto.decision != Some(BLOCK) {
        return Some(BadRequest);
      }
      var isTooLong := dto.response.Some? && Utf8Length(dto.response.value) > MAX_RESPONSE_BYTES;
      refusal := if isTooLong then Some(BadRequest) else None;
    }

    method Resolve(agent: string, id: string, dto: ResultReport, now: nat) returns (reply: Result<Request, Error>)
      modifies this, actionStore`actions
      ensures (View(), reply) == ReportResult(env, old(View()), old(actionStore.View()), agent, id, dto, now)
    {
      hide Refusal, Utf8Length, IsExecutedBy, SameOwner;
      var refusal := RefuseResult(agent, id, dto);
      if refusal.Some? {
        return Err(refusal.value);
      }
      var row := rows[id];
      var actionId := if dto.actionId.Some? then dto.actionId else row.actionId;
      if actionId == Some("") {
        actionId := None;
      }
      var hash := row.transactionHash;
      if dto.transactionHash.Some? && dto.transactionHash.value != "" {
        hash := Some(ToLower(dto.transactionHash.value));
      }
      row := row.(status := dto.status,
                  actionId := actionId,
                  decision := if dto.decision.Some? then dto.decision else row.decision,
                  reasons := if dto.reasons.Some? then dto.reasons.value else row.reasons,
                  transactionHash := hash,
                  response := if dto.response == Some("") then None else dto.response,
                  error := if dto.error == Some("") then None else dto.error,
                  updatedAt := now);
      rows := rows[id := row];
      reply := Ok(row);
    }
  }
}
