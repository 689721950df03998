/** The action store: an in-memory map of treasury actions written through to the
    `treasury_actions` table. */
module ActionStore {
  import opened Common

  datatype Status = PENDING | APPROVED | REJECTED | EXECUTED

  /** A treasury action, and equally its table row. Amounts and addresses stay the strings
      the request carried; timestamps are milliseconds. */
  datatype TreasuryAction = TreasuryAction(
    id: string,
    target: string,
    value: string,
    data: string,
    token: string,
    recipient: string,
    amount: string,
    agentAddress: string,
    justification: string,
    status: Status,
    nonce: nat,
    deadline: nat,
    riskScore: int,
    requiresHumanApproval: bool,
    signature: Option<string>,
    txHash: Option<string>,
    createdAt: nat,
    updatedAt: nat)

  datatype ProposeAction = ProposeAction(
    target: string,
    value: string,
    data: string,
    token: string,
    recipient: string,
    amount: string,
    agentAddress: string,
    justification: string)

  datatype Metadata = Metadata(signature: Option<string>, txHash: Option<string>)

  const NO_METADATA := Metadata(None, None)

  datatype Store = Store(
    actions: map<string, TreasuryAction>,
    table: map<string, TreasuryAction>,
    currentNonce: nat)

  const EMPTY := Store(map[], map[], 1)

  /** JavaScript's `s || other`: the empty string counts as absent. */
  function Truthy(s: Option<string>, other: Option<string>): Option<string> {
    if s.Some? && s.value != "" then s else other
  }

  function OrDefault(s: string, default: string): string {
    if s == "" then default else s
  }

  // ---------------------------------------------------------------- specification

  function NewAction(dto: ProposeAction, id: string, nonce: nat, now: nat): TreasuryAction {
    TreasuryAction(id, dto.target, OrDefault(dto.value, "0"), OrDefault(dto.data, "0x"), dto.token,
                   dto.recipient, dto.amount, dto.agentAddress, dto.justification, PENDING, nonce,
                   now / 1000 + 3600, 0, false, None, None, now, now)
  }

  function Create(s: Store, dto: ProposeAction, id: string, now: nat): Store {
    var action := NewAction(dto, id, s.currentNonce, now);
    Store(s.actions[id := action], s.table[id := action], s.currentNonce + 1)
  }

  /** The action a lookup answers with: the cached one, else the table's row. */
  function Find(s: Store, id: string): Option<TreasuryAction> {
    if id in s.actions then Some(s.actions[id])
    else if id in s.table then Some(s.table[id])
    else None
  }

  /** The store after a lookup: a row that was missing from memory is cached. */
  function Cache(s: Store, id: string): Store {
    var found := Find(s, id);
    if found.Some? then s.(actions := s.actions[id := found.value]) else s
  }

  function WithStatus(a: TreasuryAction, status: Status, meta: Metadata, now: nat): TreasuryAction {
    a.(status := status,
       updatedAt := now,
       signature := Truthy(meta.signature, a.signature),
       txHash := Truthy(meta.txHash, a.txHash))
  }

  /** The row after `UPDATE treasury_actions`: a missing signature or hash leaves the column alone. */
  function RowWithStatus(row: TreasuryAction, a: TreasuryAction): TreasuryAction {
    row.(status := a.status,
         updatedAt := a.updatedAt,
         signature := Truthy(a.signature, row.signature),
         txHash := Truthy(a.txHash, row.txHash))
  }

  function Update(s: Store, id: string, status: Status, meta: Metadata, now: nat): Store {
    var found := Find(s, id);
    if found.None? then s
    else
      var action := WithStatus(found.value, status, meta, now);
      s.(actions := s.actions[id := action],
         table := if id in s.table then s.table[id := RowWithStatus(s.table[id], action)] else s.table)
  }

  /** A handler writing the Guardian's verdict into the action object: memory only, never the table. */
  function Annotate(s: Store, id: string, riskScore: int, requiresHumanApproval: bool): Store {
    if id in s.actions
    then s.(actions := s.actions[id := s.actions[id].(riskScore := riskScore,
                                                       requiresHumanApproval := requiresHumanApproval)])
    else s
  }

  /** Every action the store can answer with: the cached one where there is one, else the row. */
  function Known(s: Store): map<string, TreasuryAction> {
    map k | k in s.table :: if k in s.actions then s.actions[k] else s.table[k]
  }

  // ---------------------------------------------------------------- invariant

  /** Equal on every field except the two verdict fields, which only memory carries. */
  predicate AgreesWithRow(a: TreasuryAction, row: TreasuryAction) {
    row == a.(riskScore := 0, requiresHumanApproval := false)
  }

  ghost predicate RowsAreSound(table: map<string, TreasuryAction>) {
    forall k :: k in table ==>
      && table[k].id == k && 1 <= table[k].nonce && table[k].signature != Some("") && table[k].txHash != Some("")
      && AgreesWithRow(table[k], table[k])
  }

  ghost predicate RowsMatch(actions: map<string, TreasuryAction>, table: map<string, TreasuryAction>) {
    && actions.Keys <= table.Keys
    && (forall k :: k in actions ==> actions[k].id == k && AgreesWithRow(actions[k], table[k]))
  }

  /** What every operation keeps, in a process that cached any part of the table: memory never
      contradicts a row. */
  ghost predicate Mirrored(s: Store) {
    RowsAreSound(s.table) && RowsMatch(s.actions, s.table) && 1 <= s.currentNonce
  }

  ghost predicate DistinctNonces(m: map<string, TreasuryAction>) {
    forall j, k :: j in m && k in m && j != k ==> m[j].nonce != m[k].nonce
  }

  /** `next` is 1 for an empty table, else one above the largest nonce in it. */
  ghost predicate IsNextNonce(m: map<string, TreasuryAction>, next: nat) {
    && 1 <= next
    && (forall k :: k in m ==> m[k].nonce < next)
    && (next == 1 || exists k :: k in m && m[k].nonce + 1 == next)
  }

  /** What every operation keeps, in a process that was built over its whole table. */
  ghost predicate Coherent(s: Store) {
    && Mirrored(s)
    && s.actions.Keys == s.table.Keys
    && DistinctNonces(s.table)
    && IsNextNonce(s.table, s.currentNonce)
  }

  lemma EmptyIsCoherent()
    ensures Coherent(EMPTY) && Mirrored(EMPTY) && Known(EMPTY) == map[]
  {
  }

  /** A lookup answers what is known. */
  lemma FindIsKnown(s: Store, id: string)
    requires Mirrored(s)
    ensures Find(s, id) == if id in Known(s) then Some(Known(s)[id]) else None
    ensures Known(s).Keys == s.table.Keys
    ensures id in s.actions ==> Known(s)[id] == s.actions[id]
  {
  }

  /** Caching a row adds it to memory, and changes nothing that is known. */
  lemma CacheKeepsKnown(s: Store, id: string)
    requires Mirrored(s)
    ensures Mirrored(Cache(s, id))
    ensures Known(Cache(s, id)) == Known(s) && Cache(s, id).table == s.table
    ensures Cache(s, id).actions.Keys == s.actions.Keys + (if id in s.table then {id} else {})
  {
    hide AgreesWithRow;
    KnownAfterCache(s, id);
  }

  lemma KnownAfterCache(s: Store, id: string)
    requires s.actions.Keys <= s.table.Keys
    ensures Known(Cache(s, id)) == Known(s)
  {
  }

  /** While all of the table is cached, a lookup changes nothing and answers from memory. */
  lemma CacheIsIdleWhenCoherent(s: Store, id: string)
    requires Coherent(s)
    ensures Cache(s, id) == s
    ensures Find(s, id) == if id in s.actions then Some(s.actions[id]) else None
  {
    if id in s.actions {
      assert s.actions[id := s.actions[id]] == s.actions;
    }
  }

  // ---------------------------------------------------------------- creating

  lemma CreateKeepsMirrored(s: Store, dto: ProposeAction, id: string, now: nat)
    requires Mirrored(s)
    ensures Mirrored(Create(s, dto, id, now))
  {
  }

  /** Creating under a fresh id keeps memory and table in step, and the new nonce is above every stored one. */
  lemma CreateKeepsCoherent(s: Store, dto: ProposeAction, id: string, now: nat)
    requires Coherent(s) && id !in s.actions
    ensures Coherent(Create(s, dto, id, now))
    ensures forall k :: k in s.table ==> s.table[k].nonce < Create(s, dto, id, now).table[id].nonce
  {
    hide AgreesWithRow, RowsAreSound, RowsMatch;
    var t := Create(s, dto, id, now);
    CreateKeepsMirrored(s, dto, id, now);
    assert id in t.table && t.table[id].nonce + 1 == t.currentNonce;
  }

  /** Creation adds one PENDING action carrying the request, and changes no other. */
  lemma CreateAddsOneAction(s: Store, dto: ProposeAction, id: string, now: nat)
    requires id !in s.table
    ensures var m, n := Known(s), Known(Create(s, dto, id, now));
            && n.Keys == m.Keys + {id}
            && (forall k :: k in m ==> n[k] == m[k])
            && Create(s, dto, id, now).actions.Keys == s.actions.Keys + {id}
            && var a := n[id];
               && a == Create(s, dto, id, now).actions[id]
               && a.id == id && a.nonce == s.currentNonce && Create(s, dto, id, now).currentNonce == s.currentNonce + 1
               && a.status == PENDING && a.signature == None && a.txHash == None
               && a.riskScore == 0 && !a.requiresHumanApproval
               && a.createdAt == now && a.updatedAt == now && a.deadline == now / 1000 + 3600
               && a.target == dto.target && a.token == dto.token && a.recipient == dto.recipient
               && a.amount == dto.amount && a.agentAddress == dto.agentAddress && a.justification == dto.justification
               && a.value == (if dto.value == "" then "0" else dto.value)
               && a.data == (if dto.data == "" then "0x" else dto.data)
  {
  }

  // ---------------------------------------------------------------- updating

  /** Rewriting rows without touching their nonces leaves the numbering as it was. */
  lemma SameNonces(m: map<string, TreasuryAction>, n: map<string, TreasuryAction>, next: nat)
    requires n.Keys == m.Keys && forall k :: k in m ==> n[k].nonce == m[k].nonce
    requires DistinctNonces(m) && IsNextNonce(m, next)
    ensures DistinctNonces(n) && IsNextNonce(n, next)
  {
    if next != 1 {
      var k :| k in m && m[k].nonce + 1 == next;
      assert k in n && n[k].nonce + 1 == next;
    }
  }

  /** The row written for an updated action agrees with it again. */
  lemma RowFollowsAction(a: TreasuryAction, row: TreasuryAction, status: Status, meta: Metadata, now: nat)
    requires AgreesWithRow(a, row) && row.signature != Some("") && row.txHash != Some("")
    ensures var b := WithStatus(a, status, meta, now);
            var written := RowWithStatus(row, b);
            && AgreesWithRow(b, written) && AgreesWithRow(written, written)
            && b.id == a.id && written.id == row.id && written.nonce == row.nonce
            && written.signature != Some("") && written.txHash != Some("")
  {
  }

  lemma RewritingKeepsMirrored(s: Store, id: string, a: TreasuryAction, row: TreasuryAction)
    requires Mirrored(s) && id in s.table && a.id == id && row.id == id
    requires AgreesWithRow(a, row) && AgreesWithRow(row, row) && 1 <= row.nonce
    requires row.signature != Some("") && row.txHash != Some("")
    ensures Mirrored(s.(actions := s.actions[id := a], table := s.table[id := row]))
  {
    hide AgreesWithRow;
  }

  lemma UpdateKeepsMirrored(s: Store, id: string, status: Status, meta: Metadata, now: nat)
    requires Mirrored(s)
    ensures Mirrored(Update(s, id, status, meta, now))
  {
    FindIsKnown(s, id);
    if id in s.table {
      var a := Known(s)[id];
      RowFollowsAction(a, s.table[id], status, meta, now);
      hide AgreesWithRow, WithStatus, RowWithStatus, Known, RowsAreSound, RowsMatch;
      var b := WithStatus(a, status, meta, now);
      RewritingKeepsMirrored(s, id, b, RowWithStatus(s.table[id], b));
    }
  }

  lemma UpdateKeepsCoherent(s: Store, id: string, status: Status, meta: Metadata, now: nat)
    requires Coherent(s)
    ensures Coherent(Update(s, id, status, meta, now))
    ensures Update(s, id, status, meta, now).currentNonce == s.currentNonce
  {
    hide DistinctNonces, IsNextNonce, AgreesWithRow;
    UpdateKeepsMirrored(s, id, status, meta, now);
    SameNonces(s.table, Update(s, id, status, meta, now).table, s.currentNonce);
  }

  /** The fields fixed when an action is created. */
  predicate SameRequest(a: TreasuryAction, b: TreasuryAction) {
    && a.id == b.id && a.target == b.target && a.value == b.value && a.data == b.data
    && a.token == b.token && a.recipient == b.recipient && a.amount == b.amount
    && a.agentAddress == b.agentAddress && a.justification == b.justification
    && a.nonce == b.nonce && a.deadline == b.deadline && a.createdAt == b.createdAt
  }

  /** Both maps hold the same actions, but for what may have changed about `id` since its creation. */
  ghost predicate ChangedOnly(m: map<string, TreasuryAction>, n: map<string, TreasuryAction>, id: string) {
    && n.Keys == m.Keys
    && (forall k :: k in m && k != id ==> n[k] == m[k])
    && (id in m ==> SameRequest(m[id], n[id]))
  }

  lemma WithStatusKeepsRequest(a: TreasuryAction, status: Status, meta: Metadata, now: nat)
    ensures var b := WithStatus(a, status, meta, now);
            && SameRequest(a, b) && b.status == status && b.updatedAt == now
            && b.riskScore == a.riskScore && b.requiresHumanApproval == a.requiresHumanApproval
            && b.signature == Truthy(meta.signature, a.signature)
            && b.txHash == Truthy(meta.txHash, a.txHash)
  {
  }

  /** A status update touches one action, and nothing of what it requested or how it was judged. */
  lemma UpdateChangesOneAction(s: Store, id: string, status: Status, meta: Metadata, now: nat)
    requires Mirrored(s)
    ensures var t := Update(s, id, status, meta, now);
            var m, n := Known(s), Known(t);
            && ChangedOnly(m, n, id)
            && t.actions.Keys == s.actions.Keys + (if id in s.table then {id} else {})
            && (id in m ==>
                  && n[id].status == status && n[id].updatedAt == now
                  && n[id].riskScore == m[id].riskScore
                  && n[id].requiresHumanApproval == m[id].requiresHumanApproval
                  && n[id].signature == Truthy(meta.signature, m[id].signature)
                  && n[id].txHash == Truthy(meta.txHash, m[id].txHash))
  {
    hide AgreesWithRow, WithStatus, SameRequest, RowsAreSound, Known, Update;
    KnownAfterUpdate(s, id, status, meta, now);
    if id in s.table {
      WithStatusKeepsRequest(Known(s)[id], status, meta, now);
    }
  }

  lemma KnownAfterUpdate(s: Store, id: string, status: Status, meta: Metadata, now: nat)
    requires s.actions.Keys <= s.table.Keys
    ensures var t := Update(s, id, status, meta, now);
            && Known(s).Keys == s.table.Keys
            && Known(t) == (if id in s.table then Known(s)[id := WithStatus(Known(s)[id], status, meta, now)]
                            else Known(s))
            && t.actions.Keys == s.actions.Keys + (if id in s.table then {id} else {})
  {
    hide RowWithStatus, WithStatus;
  }

  lemma UpdateOfUnknownIsIdle(s: Store, id: string, status: Status, meta: Metadata, now: nat)
    requires Mirrored(s) && id !in s.table
    ensures Update(s, id, status, meta, now) == s
  {
  }

  // ---------------------------------------------------------------- annotating

  lemma AnnotateKeepsMirrored(s: Store, id: string, riskScore: int, human: bool)
    requires Mirrored(s)
    ensures Mirrored(Annotate(s, id, riskScore, human))
    ensures Annotate(s, id, riskScore, human).table == s.table
  {
  }

  lemma AnnotateChangesOneAction(s: Store, id: string, riskScore: int, human: bool)
    requires id in s.actions && id in s.table
    ensures var t := Annotate(s, id, riskScore, human);
            var m, n := Known(s), Known(t);
            && ChangedOnly(m, n, id)
            && t.actions.Keys == s.actions.Keys
            && n[id].riskScore == riskScore && n[id].requiresHumanApproval == human
            && n[id].status == m[id].status
            && n[id].signature == m[id].signature
            && n[id].txHash == m[id].txHash
  {
  }

  lemma AnnotateKeepsCoherent(s: Store, id: string, riskScore: int, human: bool)
    requires Coherent(s)
    ensures Coherent(Annotate(s, id, riskScore, human))
  {
    hide DistinctNonces, IsNextNonce;
    AnnotateKeepsMirrored(s, id, riskScore, human);
  }

  // ---------------------------------------------------------------- restarting

  /** The next nonce is determined by the table. */
  lemma NextNonceIsUnique(m: map<string, TreasuryAction>, x: nat, y: nat)
    requires IsNextNonce(m, x) && IsNextNonce(m, y)
    ensures x == y
  {
  }

  /** The next nonce of a table, for specifications that build a store. */
  ghost function NextNonce(m: map<string, TreasuryAction>): (next: nat)
    ensures IsNextNonce(m, next)
  {
    HasNextNonce(m);
    var next: nat :| IsNextNonce(m, next);
    next
  }

  lemma NextNonceWith(m: map<string, TreasuryAction>, next: nat, id: string, action: TreasuryAction)
    requires IsNextNonce(m, next) && id !in m
    ensures IsNextNonce(m[id := action], if action.nonce >= next then action.nonce + 1 else next)
  {
    var with := m[id := action];
    assert id in with && with[id] == action;
    if next != 1 {
      var k :| k in m && m[k].nonce + 1 == next;
      assert k in with && with[k] == m[k];
    }
  }

  lemma {:induction false} HasNextNonce(m: map<string, TreasuryAction>)
    ensures exists next: nat :: IsNextNonce(m, next)
    decreases |m|
  {
    if m == map[] {
      assert IsNextNonce(m, 1);
    } else {
      var k :| k in m;
      HasNextNonce(m - {k});
      var next: nat :| IsNextNonce(m - {k}, next);
      NextNonceWith(m - {k}, next, k, m[k]);
      assert (m - {k})[k := m[k]] == m;
    }
  }

  function Restrict(table: map<string, TreasuryAction>, early: set<string>): map<string, TreasuryAction> {
    map k | k in table && k in early :: table[k]
  }

  /** A new process: its store is built while `early` of the table is loaded, and the rest is loaded after.
      The application always builds it first, over nothing. */
  ghost function Restart(table: map<string, TreasuryAction>, early: set<string>): Store {
    Store(Restrict(table, early), table, NextNonce(Restrict(table, early)))
  }

  /** A restart keeps the table, and memory has exactly the rows it found loaded. */
  lemma RestartCaches(table: map<string, TreasuryAction>, early: set<string>)
    ensures var t := Restart(table, early);
            && t.table == table && t.actions.Keys == table.Keys * early
            && (forall k :: k in t.actions ==> t.actions[k] == table[k])
  {
  }

  /** Whatever was loaded in time, every action is still known, but for the two verdict fields. */
  lemma RestartKeepsKnown(s: Store, early: set<string>)
    requires Mirrored(s)
    ensures Mirrored(Restart(s.table, early))
    ensures Known(Restart(s.table, early)).Keys == Known(s).Keys
    ensures forall k :: k in Known(s) ==>
              Known(Restart(s.table, early))[k] == Known(s)[k].(riskScore := 0, requiresHumanApproval := false)
  {
  }

  /** A store rebuilt over the whole table is coherent again, hands out the same next nonce, and its
      actions differ from the lost ones in the two verdict fields only. */
  lemma RebuiltStoreAgrees(s: Store)
    requires Coherent(s)
    ensures var rebuilt := Restart(s.table, s.table.Keys);
            && Coherent(rebuilt) && rebuilt.currentNonce == s.currentNonce
            && forall k :: k in s.actions ==>
                 rebuilt.actions[k] == s.actions[k].(riskScore := 0, requiresHumanApproval := false)
  {
    assert Restrict(s.table, s.table.Keys) == s.table;
    NextNonceIsUnique(s.table, NextNonce(s.table), s.currentNonce);
  }

  /** The nonces handed out after a restart are above all stored ones exactly when the rows loaded in time
      hold the largest of them, or there is none. */
  lemma NoncesStayFreshIff(table: map<string, TreasuryAction>, early: set<string>)
    requires RowsAreSound(table)
    ensures (forall k :: k in table ==> table[k].nonce < Restart(table, early).currentNonce)
       <==> table == map[]
            || exists k :: k in table && k in early && forall j :: j in table ==> table[j].nonce <= table[k].nonce
  {
    var part, next := Restrict(table, early), NextNonce(Restrict(table, early));
    if table != map[] && forall k :: k in table ==> table[k].nonce < next {
      var j :| j in table;
      assert 1 <= table[j].nonce < next;
      var k :| k in part && part[k].nonce + 1 == next;
      assert k in table && k in early && forall i :: i in table ==> table[i].nonce <= table[k].nonce;
    }
    if k :| k in table && k in early && forall j :: j in table ==> table[j].nonce <= table[k].nonce {
      assert k in part && part[k].nonce < next;
    }
  }

  // ---------------------------------------------------------------- the service

  class ActionStoreService {
    var actions: map<string, TreasuryAction>
    var table: map<string, TreasuryAction>
    var currentNonce: nat

    ghost function View(): Store
      reads this
    {
      Store(actions, table, currentNonce)
    }

    /** Builds the service over what is loaded of the table at that moment. */
    constructor (rows: map<string, TreasuryAction>)
      requires forall k :: k in rows ==> rows[k].id == k
      ensures View() == Store(rows, rows, NextNonce(rows))
    {
      actions := map[];
      table := rows;
      currentNonce := 1;
      new;
      LoadFromDatabase();
      NextNonceIsUnique(rows, currentNonce, NextNonce(rows));
    }

    method LoadFromDatabase()
      requires actions == map[] && currentNonce == 1
      requires forall k :: k in table ==> table[k].id == k
      modifies this`actions, this`currentNonce
      ensures actions == table
      ensures IsNextNonce(table, currentNonce)
    {
      assert IsNextNonce(map[], 1);
      hide IsNextNonce;
      var todo := table.Keys;
      while todo != {}
        invariant todo <= table.Keys
        invariant actions == table - todo
        invariant IsNextNonce(actions, currentNonce)
        decreases |todo|
      {
        var id :| id in todo;
        var action := table[id];
        NextNonceWith(actions, currentNonce, id, action);
        actions := actions[action.id := action];
        if action.nonce >= currentNonce {
          currentNonce := action.nonce + 1;
        }
        todo := todo - {id};
      }
    }

    /** The database finishes loading; the service is not told. */
    method DatabaseLoaded(rows: map<string, TreasuryAction>)
      modifies this`table
      ensures View() == old(View()).(table := rows)
    {
      table := rows;
    }

    method CreateAction(dto: ProposeAction, id: string, now: nat) returns (action: TreasuryAction)
      modifies this
      ensures View() == Create(old(View()), dto, id, now)
      ensures action == actions[id]
    {
      var deadline := now / 1000 + 3600;
      var value := if dto.value == "" then "0" else dto.value;
      var data := if dto.data == "" then "0x" else dto.data;
      action := TreasuryAction(id, dto.target, value, data, dto.token, dto.recipient, dto.amount,
                               dto.agentAddress, dto.justification, PENDING, currentNonce, deadline,
                               0, false, None, None, now, now);
      currentNonce := currentNonce + 1;
      actions := actions[id := action];
      table := table[id := action];
    }

    method GetAction(id: string) returns (found: Option<TreasuryAction>)
      modifies this`actions
      ensures found == Find(old(View()), id)
      ensures View() == Cache(old(View()), id)
    {
      if id in actions {
        found := Some(actions[id]);
        assert actions[id := actions[id]] == actions;
      } else if id in table {
        found := Some(table[id]);
        actions := actions[id := found.value];
      } else {
        found := None;
      }
    }

    method UpdateStatus(id: string, status: Status, meta: Metadata, now: nat)
      returns (updated: Option<TreasuryAction>)
      modifies this`actions, this`table
      ensures View() == Update(old(View()), id, status, meta, now)
      ensures updated == if Find(old(View()), id).Some? then Some(actions[id]) else None
    {
      hide RowWithStatus;
      var found := GetAction(id);
      if found.None? {
        return None;
      }
      var action := found.value.(status := status, updatedAt := now);
      if meta.signature.Some? && meta.signature.value != "" {
        action := action.(signature := meta.signature);
      }
      if meta.txHash.Some? && meta.txHash.value != "" {
        action := action.(txHash := meta.txHash);
      }
      assert action == WithStatus(found.value, status, meta, now);
      hide WithStatus;
      actions := actions[id := action];
      UpdateRow(id, action);
      updated := Some(action);
    }

    /** `UPDATE treasury_actions SET status, signature, tx_hash, updated_at WHERE id`. */
    method UpdateRow(id: string, action: TreasuryAction)
      modifies this`table
      ensures table == if id in old(table) then old(table)[id := RowWithStatus(old(table)[id], action)]
                       else old(table)
    {
      if id in table {
        var row := table[id].(status := action.status, updatedAt := action.updatedAt);
        if action.signature.Some? && action.signature.value != "" {
          row := row.(signature := action.signature);
        }
        if action.txHash.Some? && action.txHash.value != "" {
          row := row.(txHash := action.txHash);
        }
        table := table[id := row];
      }
    }

    /** The verdict fields a handler sets on the action object it holds. */
    method SetVerdict(id: string, riskScore: int, requiresHumanApproval: bool)
      requires id in actions
      modifies this`actions
      ensures View() == Annotate(old(View()), id, riskScore, requiresHumanApproval)
    {
      actions := actions[id := actions[id].(riskScore := riskScore)];
      actions := actions[id := actions[id].(requiresHumanApproval := requiresHumanApproval)];
    }
  }
}
